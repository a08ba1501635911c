/** Record validation as the pipeline's pydantic models perform it on a JSON
    object: a required field must be present with its type, an `Optional`
    field reads as None when absent or null, a list or dict field with
    `default_factory` reads as empty when absent, and keys the model does
    not declare are ignored. The readers here are shared by the record
    schemas; each has a dump counterpart and a lemma that reading a dumped
    field gives back what was dumped. */
module Schema {
  import opened Values

  /** A required `str` field. */
  function Str(d: ODict<Value>, k: string): (r: Option<string>)
    ensures r.Some? <==> k in d.vals && d.vals[k].VStr?
    ensures r.Some? ==> d.vals[k] == VStr(r.value)
  {
    if k in d.vals && d.vals[k].VStr? then Some(d.vals[k].s) else None
  }

  /** An `Optional[str] = None` field. */
  function OptStr(d: ODict<Value>, k: string): (r: Option<Option<string>>)
    ensures k !in d.vals ==> r == Some(None)
    ensures k in d.vals ==> (r.Some? <==> d.vals[k].VNone? || d.vals[k].VStr?)
    ensures r.Some? && k in d.vals ==> d.vals[k] == OptValue(r.value)
  {
    if k !in d.vals || d.vals[k].VNone? then Some(None)
    else if d.vals[k].VStr? then Some(Some(d.vals[k].s))
    else None
  }

  function OptValue(o: Option<string>): Value {
    if o.Some? then VStr(o.value) else VNone
  }

  /** A `List[str]` field, required or defaulting to `[]`. */
  function StrList(d: ODict<Value>, k: string, required: bool): (r: Option<seq<string>>)
    ensures k !in d.vals ==> (r.Some? <==> !required) && (r.Some? ==> r.value == [])
    ensures k in d.vals ==> (r.Some? <==> d.vals[k].VList? && Strings(d.vals[k].items).Ok?)
    ensures r.Some? && k in d.vals ==> d.vals[k] == StrListValue(r.value)
  {
    if k !in d.vals then (if required then None else Some([]))
    else if !d.vals[k].VList? then None
    else
      var xs :- Opt(Strings(d.vals[k].items));
      assert StrValues(xs) == d.vals[k].items;
      Some(xs)
  }

  function StrListValue(xs: seq<string>): Value {
    VList(StrValues(xs))
  }

  function Opt<T>(t: Try<T>): (r: Option<T>)
    ensures r.Some? <==> t.Ok?
    ensures r.Some? ==> r.value == t.value
  {
    if t.Ok? then Some(t.value) else None
  }

  /** A `Dict[str, str]` field defaulting to `{}`. */
  function StrDict(d: ODict<Value>, k: string): (r: Option<ODict<string>>)
    ensures k !in d.vals ==> r == Some(Empty())
    ensures k in d.vals ==> (r.Some? <==> d.vals[k].VDict? && forall x :: x in d.vals[k].d.vals ==> d.vals[k].d.vals[x].VStr?)
    ensures r.Some? && k in d.vals ==> d.vals[k] == StrDictValue(r.value)
  {
    if k !in d.vals then Some(Empty())
    else if !d.vals[k].VDict? then None
    else
      var e := d.vals[k].d;
      if forall x :: x in e.vals ==> e.vals[x].VStr? then
        var m := ODict(e.keys, map x | x in e.vals :: e.vals[x].s);
        assert StrDictValue(m).d.vals == e.vals;
        Some(m)
      else None
  }

  function StrDictValue(m: ODict<string>): Value {
    VDict(ODict(m.keys, map x | x in m.vals :: VStr(m.vals[x])))
  }

  /** A required `int` field with bounds `lo <= i` and, when given, `i <= hi`. */
  function Int(d: ODict<Value>, k: string, lo: int, hi: Option<int>): (r: Option<int>)
    ensures r.Some? <==> k in d.vals && d.vals[k].VInt? && lo <= d.vals[k].i && (hi.Some? ==> d.vals[k].i <= hi.value)
    ensures r.Some? ==> d.vals[k] == VInt(r.value)
  {
    if k in d.vals && d.vals[k].VInt? && lo <= d.vals[k].i && (hi.None? || d.vals[k].i <= hi.value) then Some(d.vals[k].i)
    else None
  }

  /** An `int` field with a default. */
  function IntOr(d: ODict<Value>, k: string, dflt: int): (r: Option<int>)
    ensures k !in d.vals ==> r == Some(dflt)
    ensures k in d.vals ==> (r.Some? <==> d.vals[k].VInt?)
    ensures r.Some? && k in d.vals ==> d.vals[k] == VInt(r.value)
  {
    if k !in d.vals then Some(dflt) else if d.vals[k].VInt? then Some(d.vals[k].i) else None
  }

  /** A `List[Source]` field defaulting to `[]`; the source records' own
      fields are not validated here. */
  function Items(d: ODict<Value>, k: string): (r: Option<seq<Value>>)
    ensures k !in d.vals ==> r == Some([])
    ensures k in d.vals ==> (r.Some? <==> d.vals[k].VList?)
    ensures r.Some? && k in d.vals ==> d.vals[k] == VList(r.value)
  {
    if k !in d.vals then Some([]) else if d.vals[k].VList? then Some(d.vals[k].items) else None
  }

  /** A required `Literal[...]` field: a str that `parse` accepts. */
  function Choice<E>(d: ODict<Value>, k: string, parse: string -> Option<E>): (r: Option<E>)
    ensures r.Some? <==> k in d.vals && d.vals[k].VStr? && parse(d.vals[k].s).Some?
    ensures r.Some? ==> r == parse(d.vals[k].s)
  {
    var s :- Str(d, k);
    parse(s)
  }

  /** A required nested record. */
  function Record<T>(d: ODict<Value>, k: string, parse: Value -> Option<T>): (r: Option<T>)
    ensures r.Some? <==> k in d.vals && parse(d.vals[k]).Some?
    ensures r.Some? ==> r == parse(d.vals[k])
  {
    if k in d.vals then parse(d.vals[k]) else None
  }

  /** A list field whose items are validated by `parse`: required, or
      defaulting to `[]`. */
  function List<T>(d: ODict<Value>, k: string, required: bool, parse: Value -> Option<T>): (r: Option<seq<T>>)
    ensures k !in d.vals ==> (r.Some? <==> !required) && (r.Some? ==> r.value == [])
    ensures k in d.vals ==> (r.Some? <==> d.vals[k].VList? && Each(d.vals[k].items, parse).Some?)
    ensures k in d.vals && r.Some? ==> r == Each(d.vals[k].items, parse)
  {
    if k !in d.vals then (if required then None else Some([]))
    else if !d.vals[k].VList? then None
    else Each(d.vals[k].items, parse)
  }

  /** Every item validated: fails on the first item that does not. */
  function Each<T>(xs: seq<Value>, parse: Value -> Option<T>): (r: Option<seq<T>>)
    ensures r.Some? <==> forall i :: 0 <= i < |xs| ==> parse(xs[i]).Some?
    ensures r.Some? ==> |r.value| == |xs| && forall i :: 0 <= i < |xs| ==> r.value[i] == parse(xs[i]).value
  {
    if xs == [] then Some([])
    else
      var rest := Each(xs[1..], parse);
      assert forall i :: 1 <= i < |xs| ==> xs[i] == xs[1..][i - 1];
      if parse(xs[0]).None? || rest.None? then None else Some([parse(xs[0]).value] + rest.value)
  }

  /** A dumped list: each item dumped. */
  function Dumps<T>(xs: seq<T>, dump: T -> Value): (r: seq<Value>)
    ensures |r| == |xs| && forall i :: 0 <= i < |xs| ==> r[i] == dump(xs[i])
  {
    seq(|xs|, i requires 0 <= i < |xs| => dump(xs[i]))
  }

  /** Validating a dumped list gives it back when every item round-trips. */
  lemma EachDumps<T>(xs: seq<T>, dump: T -> Value, parse: Value -> Option<T>)
    requires forall i :: 0 <= i < |xs| ==> parse(dump(xs[i])) == Some(xs[i])
    ensures Each(Dumps(xs, dump), parse) == Some(xs)
  {
    var ds := Dumps(xs, dump);
    var r := Each(ds, parse);
    assert forall i :: 0 <= i < |xs| ==> parse(ds[i]) == Some(xs[i]);
    assert r.value == xs;
  }

  /** Dumped string lists read back. */
  lemma StrListDumps(d: ODict<Value>, k: string, xs: seq<string>, required: bool)
    requires k in d.vals && d.vals[k] == StrListValue(xs)
    ensures StrList(d, k, required) == Some(xs)
  {
    var r := Strings(StrValues(xs));
    assert r.Ok? && r.value == xs;
  }

  /** Dumped strings read back. */
  lemma StrDumps(d: ODict<Value>, k: string, s: string)
    requires k in d.vals && d.vals[k] == VStr(s)
    ensures Str(d, k) == Some(s)
  {
  }

  /** Dumped source lists read back. */
  lemma ItemsDumps(d: ODict<Value>, k: string, xs: seq<Value>)
    requires k in d.vals && d.vals[k] == VList(xs)
    ensures Items(d, k) == Some(xs)
  {
  }

  /** Dumped integers read back, within the field's bounds. */
  lemma IntDumps(d: ODict<Value>, k: string, lo: int, hi: Option<int>, i: int)
    requires k in d.vals && d.vals[k] == VInt(i)
    requires lo <= i && (hi.Some? ==> i <= hi.value)
    ensures Int(d, k, lo, hi) == Some(i)
  {
  }

  /** Dumped integers with a default read back. */
  lemma IntOrDumps(d: ODict<Value>, k: string, dflt: int, i: int)
    requires k in d.vals && d.vals[k] == VInt(i)
    ensures IntOr(d, k, dflt) == Some(i)
  {
  }

  /** A dumped choice reads back when `parse` accepts its name. */
  lemma ChoiceDumps<E>(d: ODict<Value>, k: string, parse: string -> Option<E>, s: string, e: E)
    requires k in d.vals && d.vals[k] == VStr(s) && parse(s) == Some(e)
    ensures Choice(d, k, parse) == Some(e)
  {
  }

  /** A dumped nested record reads back when it round-trips. */
  lemma RecordDumps<T>(d: ODict<Value>, k: string, parse: Value -> Option<T>, v: Value, t: T)
    requires k in d.vals && d.vals[k] == v && parse(v) == Some(t)
    ensures Record(d, k, parse) == Some(t)
  {
  }

  /** A dumped list of records reads back when every item round-trips. */
  lemma ListDumps<T>(d: ODict<Value>, k: string, required: bool, parse: Value -> Option<T>, xs: seq<Value>, ts: seq<T>)
    requires k in d.vals && d.vals[k] == VList(xs) && Each(xs, parse) == Some(ts)
    ensures List(d, k, required, parse) == Some(ts)
  {
  }

  /** Dumped optional strings read back. */
  lemma OptStrDumps(d: ODict<Value>, k: string, o: Option<string>)
    requires k in d.vals && d.vals[k] == OptValue(o)
    ensures OptStr(d, k) == Some(o)
  {
  }

  /** Dumped string dicts read back. */
  lemma StrDictDumps(d: ODict<Value>, k: string, m: ODict<string>)
    requires k in d.vals && d.vals[k] == StrDictValue(m)
    ensures StrDict(d, k) == Some(m)
  {
    var e := d.vals[k].d;
    assert (map x | x in e.vals :: e.vals[x].s) == m.vals;
  }
}
