/** Python values as the pipeline's stages see them: the JSON-like content of
    step outputs, insertion-ordered dictionaries, Python truthiness, and the
    handful of built-ins (`.get`, `in`, `len`, `str`, `.lower()`, `join`) the
    stages apply to them. */
module Values {

  datatype Option<+T> = None | Some(value: T) {
    predicate IsFailure() { None? }
    function PropagateFailure<U>(): Option<U> requires None? { None }
    function Extract(): T requires Some? { value }
  }

  /** The outcome of Python code that may raise: `Throw` stands for any
      exception (KeyError, AttributeError, TypeError, or one raised by a
      collaborator); its text is not modelled. */
  datatype Try<+T> = Ok(value: T) | Throw {
    predicate IsFailure() { Throw? }
    function PropagateFailure<U>(): Try<U> requires Throw? { Throw }
    function Extract(): T requires Ok? { value }
  }

  predicate Distinct<T(==)>(s: seq<T>) {
    forall i, j :: 0 <= i < j < |s| ==> s[i] != s[j]
  }

  /** A Python dict with string keys: `keys` is the insertion order. */
  datatype ODict<V> = ODict(keys: seq<string>, vals: map<string, V>)

  ghost predicate WellFormed<V>(d: ODict<V>) {
    Distinct(d.keys) && forall k :: k in d.vals <==> k in d.keys
  }

  function Empty<V>(): (r: ODict<V>)
    ensures WellFormed(r) && r.keys == [] && r.vals == map[]
  {
    ODict([], map[])
  }

  /** `d[k] = v`: overwriting keeps the key's position, a new key goes last. */
  function Put<V>(d: ODict<V>, k: string, v: V): (r: ODict<V>)
    ensures WellFormed(d) ==> WellFormed(r)
    ensures r.vals == d.vals[k := v]
    ensures WellFormed(d) && k in d.keys ==> r.keys == d.keys
    ensures k !in d.vals ==> r.keys == d.keys + [k]
  {
    if k in d.vals then ODict(d.keys, d.vals[k := v]) else ODict(d.keys + [k], d.vals[k := v])
  }

  /** The dict literal `{ks[0]: vs[0], ks[1]: vs[1], ...}`. */
  function DictOf(ks: seq<string>, vs: seq<Value>): (r: ODict<Value>)
    requires |ks| == |vs| && Distinct(ks)
    ensures WellFormed(r) && r.keys == ks
    ensures forall i :: 0 <= i < |ks| ==> ks[i] in r.vals && r.vals[ks[i]] == vs[i]
  {
    AssocLists(ks, vs);
    var m :| Lists(ks, vs, m);
    ListsCover(ks, vs, m);
    ODict(ks, m)
  }

  lemma AssocLists(ks: seq<string>, vs: seq<Value>)
    requires |ks| == |vs| && Distinct(ks)
    ensures Lists(ks, vs, Assoc(ks, vs))
  {
  }

  /** Every listed name is stored. */
  lemma ListsCover(ks: seq<string>, vs: seq<Value>, m: map<string, Value>)
    requires |ks| == |vs| && Lists(ks, vs, m)
    ensures forall k :: k in m <==> k in ks
  {
    forall k | k in ks
      ensures k in m
    {
      var i :| 0 <= i < |ks| && ks[i] == k;
    }
  }

  /** `m` holds exactly the entries `ks[i]: vs[i]`. */
  predicate Lists(ks: seq<string>, vs: seq<Value>, m: map<string, Value>)
    requires |ks| == |vs|
  {
    (forall k :: k in m ==> k in ks) && forall i :: 0 <= i < |ks| ==> ks[i] in m && m[ks[i]] == vs[i]
  }

  /** The entries of a dict literal, keyed by the listed names. */
  function Assoc(ks: seq<string>, vs: seq<Value>): (m: map<string, Value>)
    requires |ks| == |vs| && Distinct(ks)
    ensures forall k :: k in m <==> k in ks
    ensures forall i :: 0 <= i < |ks| ==> ks[i] in m && m[ks[i]] == vs[i]
  {
    if ks == [] then map[]
    else
      assert forall i :: 1 <= i < |ks| ==> ks[i] == ks[1..][i - 1];
      Assoc(ks[1..], vs[1..])[ks[0] := vs[0]]
  }

  /** The value stored under `k` (a key listed in a Python dict is always
      stored; one missing from an ill-formed `ODict` reads as None). */
  function Entry(d: ODict<Value>, k: string): Value {
    if k in d.vals then d.vals[k] else VNone
  }

  function Lookup<V>(d: ODict<V>, k: string): Option<V> {
    if k in d.vals then Some(d.vals[k]) else None
  }

  datatype Value =
    | VNone
    | VBool(b: bool)
    | VInt(i: int)
    | VStr(s: string)
    | VList(items: seq<Value>)
    | VDict(d: ODict<Value>)

  /** Python's `bool(v)`. */
  predicate Truthy(v: Value) {
    match v
    case VNone => false
    case VBool(b) => b
    case VInt(i) => i != 0
    case VStr(s) => s != ""
    case VList(xs) => xs != []
    case VDict(d) => d.keys != []
  }

  /** An optional lookup result treated as Python treats `None` or a value. */
  predicate Present(o: Option<Value>) {
    o.Some? && Truthy(o.value)
  }

  const EmptyDict: Value := VDict(Empty())
  const EmptyList: Value := VList([])

  /** `o or {}` for a lookup that may have found nothing. */
  function OrEmptyDict(o: Option<Value>): (r: Value)
    ensures Present(o) ==> r == o.value
    ensures !Present(o) ==> r == EmptyDict
  {
    if Present(o) then o.value else EmptyDict
  }

  /** `v[k]` on a dict, or attribute `k` of a record: raises unless present. */
  function Get(v: Value, k: string): (r: Try<Value>)
    ensures r.Ok? <==> v.VDict? && k in v.d.vals
  {
    if v.VDict? && k in v.d.vals then Ok(v.d.vals[k]) else Throw
  }

  /** `v.get(k, dflt)`: raises AttributeError unless `v` is a dict. */
  function GetOr(v: Value, k: string, dflt: Value): (r: Try<Value>)
    ensures r.Ok? <==> v.VDict?
    ensures v.VDict? && k !in v.d.vals ==> r == Ok(dflt)
  {
    if !v.VDict? then Throw else if k in v.d.vals then Ok(v.d.vals[k]) else Ok(dflt)
  }

  /** `hasattr(v, k)` for a structured response object. */
  predicate HasAttr(v: Value, k: string) {
    v.VDict? && k in v.d.vals
  }

  /** `x.get(k, dflt) if x else dflt` for an upstream result that may be
      absent: raises when `x` is present, truthy and not a dict. */
  function OrDefault(x: Option<Value>, k: string, dflt: Value): (r: Try<Value>)
    ensures !Present(x) ==> r == Ok(dflt)
    ensures Present(x) ==> r == GetOr(x.value, k, dflt)
  {
    if Present(x) then GetOr(x.value, k, dflt) else Ok(dflt)
  }

  /** `OrDefault` over parallel lists of sources, keys and defaults: the
      values of an intelligence package, or `Throw` when one lookup raises. */
  function Defaults(sources: seq<Option<Value>>, keys: seq<string>, dflts: seq<Value>): (r: Try<seq<Value>>)
    requires |sources| == |keys| == |dflts|
    ensures r.Ok? <==> forall i :: 0 <= i < |sources| ==> OrDefault(sources[i], keys[i], dflts[i]).Ok?
    ensures r.Ok? ==> |r.value| == |sources|
                      && forall i :: 0 <= i < |sources| ==> r.value[i] == OrDefault(sources[i], keys[i], dflts[i]).value
  {
    if sources == [] then Ok([])
    else
      var rest := Defaults(sources[1..], keys[1..], dflts[1..]);
      assert forall i :: 1 <= i < |sources| ==> sources[i] == sources[1..][i - 1] && keys[i] == keys[1..][i - 1] && dflts[i] == dflts[1..][i - 1];
      match OrDefault(sources[0], keys[0], dflts[0])
      case Throw => Throw
      case Ok(v) => if rest.Throw? then Throw else Ok([v] + rest.value)
  }

  /** The one-character strings of `s`, as iterating a Python str yields them. */
  function Chars(s: string): (r: seq<Value>)
    ensures |r| == |s| && forall i :: 0 <= i < |s| ==> r[i] == VStr([s[i]])
  {
    seq(|s|, i requires 0 <= i < |s| => VStr([s[i]]))
  }

  function StrValues(keys: seq<string>): (r: seq<Value>)
    ensures |r| == |keys| && forall i :: 0 <= i < |keys| ==> r[i] == VStr(keys[i])
  {
    seq(|keys|, i requires 0 <= i < |keys| => VStr(keys[i]))
  }

  /** `for x in v`: a list yields its items, a str its characters, a dict
      its keys; anything else raises TypeError. */
  function Iter(v: Value): (r: Try<seq<Value>>)
    ensures r.Ok? <==> (v.VStr? || v.VList? || v.VDict?)
    ensures v.VList? ==> r == Ok(v.items)
    ensures r.Ok? ==> |r.value| == Len(v).value
  {
    match v
    case VList(xs) => Ok(xs)
    case VStr(s) => Ok(Chars(s))
    case VDict(d) => Ok(StrValues(d.keys))
    case _ => Throw
  }

  /** `v[:n]` for a list or a str. */
  function Slice(v: Value, n: nat): (r: Try<Value>)
    ensures r.Ok? <==> (v.VStr? || v.VList?)
    ensures v.VList? ==> r == Ok(VList(Take(v.items, n)))
  {
    match v
    case VList(xs) => Ok(VList(Take(xs, n)))
    case VStr(s) => Ok(VStr(Take(s, n)))
    case _ => Throw
  }

  /** `v[0]` for a list or a str; an empty one raises IndexError, and a dict
      (whose keys are strings) raises KeyError. */
  function First(v: Value): (r: Try<Value>)
    ensures v.VList? && v.items != [] ==> r == Ok(v.items[0])
    ensures !(v.VList? || v.VStr?) ==> r.Throw?
  {
    match v
    case VList(xs) => if xs == [] then Throw else Ok(xs[0])
    case VStr(s) => if s == [] then Throw else Ok(VStr([s[0]]))
    case _ => Throw
  }

  /** The strings of `xs`, or `Throw` when one of them is not a str. */
  function Strings(xs: seq<Value>): (r: Try<seq<string>>)
    ensures r.Ok? <==> forall i :: 0 <= i < |xs| ==> xs[i].VStr?
    ensures r.Ok? ==> |r.value| == |xs| && forall i :: 0 <= i < |xs| ==> xs[i] == VStr(r.value[i])
  {
    if xs == [] then Ok([])
    else if !xs[0].VStr? then Throw
    else
      var rest := Strings(xs[1..]);
      assert forall i :: 1 <= i < |xs| ==> xs[i] == xs[1..][i - 1];
      if rest.Throw? then Throw else Ok([xs[0].s] + rest.value)
  }

  /** `sep.join(v)`: every item must be a str. */
  function StrJoin(sep: string, v: Value): Try<string> {
    var items :- Iter(v);
    var parts :- Strings(items);
    Ok(Join(parts, sep))
  }

  /** `[x.model_dump() for x in v]` over structured records (modelled as
      dicts): a non-record item raises AttributeError. */
  function ModelDumps(v: Value): (r: Try<seq<Value>>)
    ensures r.Ok? <==> Iter(v).Ok? && forall i :: 0 <= i < |Iter(v).value| ==> Iter(v).value[i].VDict?
    ensures r.Ok? ==> r == Iter(v)
  {
    var items :- Iter(v);
    if forall i :: 0 <= i < |items| ==> items[i].VDict? then Ok(items) else Throw
  }

  /** `sub` occurs in `s` as a contiguous piece (`sub <= s` is "is a prefix of"). */
  predicate IsSubstring(sub: string, s: string) {
    sub <= s || (s != [] && IsSubstring(sub, s[1..]))
  }

  /** Python's `k in v`: a key of a dict, a substring of a str, an element of
      a list; any other operand raises TypeError. */
  function Contains(v: Value, k: string): (r: Try<bool>)
    ensures v.VDict? ==> r == Ok(k in v.d.vals)
    ensures (v.VNone? || v.VBool? || v.VInt?) <==> r.Throw?
  {
    match v
    case VDict(d) => Ok(k in d.vals)
    case VStr(s) => Ok(IsSubstring(k, s))
    case VList(xs) => Ok(VStr(k) in xs)
    case _ => Throw
  }

  /** Python's `len(v)`. */
  function Len(v: Value): (r: Try<nat>)
    ensures r.Ok? <==> (v.VStr? || v.VList? || v.VDict?)
    ensures v.VList? ==> r == Ok(|v.items|)
  {
    match v
    case VStr(s) => Ok(|s|)
    case VList(xs) => Ok(|xs|)
    case VDict(d) => Ok(|d.keys|)
    case _ => Throw
  }

  /** `type(v).__name__`. */
  function TypeName(v: Value): string {
    match v
    case VNone => "NoneType"
    case VBool(_) => "bool"
    case VInt(_) => "int"
    case VStr(_) => "str"
    case VList(_) => "list"
    case VDict(_) => "dict"
  }

  function DigitChar(d: nat): char
    requires d < 10
  {
    "0123456789"[d]
  }

  function NatToString(n: nat): (r: string)
    ensures |r| >= 1
    decreases n
  {
    if n < 10 then [DigitChar(n)] else NatToString(n / 10) + [DigitChar(n % 10)]
  }

  function IntToString(i: int): string {
    if i < 0 then "-" + NatToString(-i) else NatToString(i)
  }

  /** Python's `str(v)` for scalars; a list or dict (whose repr is not
      modelled) is written as its type name in angle brackets. */
  function Render(v: Value): string {
    match v
    case VNone => "None"
    case VBool(b) => if b then "True" else "False"
    case VInt(i) => IntToString(i)
    case VStr(s) => s
    case _ => "<" + TypeName(v) + ">"
  }

  /** `s[:n]` */
  function Take<T>(s: seq<T>, n: nat): (r: seq<T>)
    ensures |r| == if n < |s| then n else |s|
    ensures r <= s
  {
    if n < |s| then s[..n] else s
  }

  function SumLengths(parts: seq<string>): nat {
    if parts == [] then 0 else SumLengths(parts[..|parts| - 1]) + |parts[|parts| - 1]|
  }

  /** `sep.join(parts)` */
  function Join(parts: seq<string>, sep: string): (r: string)
    ensures parts != [] ==> |r| == SumLengths(parts) + (|parts| - 1) * |sep|
    ensures parts == [] ==> r == ""
  {
    if parts == [] then ""
    else if |parts| == 1 then parts[0]
    else Join(parts[..|parts| - 1], sep) + sep + parts[|parts| - 1]
  }

  /** Python's `str.lower()` on ASCII letters; other characters are kept. */
  function LowerChar(c: char): char {
    if 'A' <= c <= 'Z' then (c as int + 32) as char else c
  }

  function UpperChar(c: char): char {
    if 'a' <= c <= 'z' then (c as int - 32) as char else c
  }

  function Lower(s: string): (r: string)
    ensures |r| == |s|
    ensures forall i :: 0 <= i < |s| ==> r[i] == LowerChar(s[i])
  {
    if s == [] then [] else [LowerChar(s[0])] + Lower(s[1..])
  }

  function Upper(s: string): (r: string)
    ensures |r| == |s|
    ensures forall i :: 0 <= i < |s| ==> r[i] == UpperChar(s[i])
  {
    if s == [] then [] else [UpperChar(s[0])] + Upper(s[1..])
  }

  lemma LowerIdempotent(s: string)
    ensures Lower(Lower(s)) == Lower(s)
  {
    assert forall i :: 0 <= i < |s| ==> LowerChar(LowerChar(s[i])) == LowerChar(s[i]);
  }

  /** Lower-casing forgets every ASCII case distinction. */
  lemma LowerOfUpper(s: string)
    ensures Lower(Upper(s)) == Lower(s)
  {
    assert forall i :: 0 <= i < |s| ==> LowerChar(UpperChar(s[i])) == LowerChar(s[i]);
  }
}
