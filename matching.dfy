/** The fuzzy persona resolver of step 8: a left-to-right scan that keeps
    the candidate with the strictly greatest similarity to the query and
    returns it only when that similarity reaches the threshold. The
    similarity measure (difflib's ratio) is a parameter. */
module PersonaMatching {
  import opened Values

  /** The resolver's default threshold. */
  const DefaultThreshold: real := 0.7

  /** `persona["persona_title"].lower()` needs a dict with a string title. */
  function TitleOf(c: Value): (r: Try<string>)
    ensures r.Ok? <==> Get(c, "persona_title").Ok? && Get(c, "persona_title").value.VStr?
    ensures r.Ok? ==> Get(c, "persona_title") == Ok(VStr(r.value))
  {
    var t :- Get(c, "persona_title");
    if t.VStr? then Ok(t.s) else Throw
  }

  /** Every candidate has a string title. */
  predicate Titled(cands: seq<Value>) {
    forall j :: 0 <= j < |cands| ==> TitleOf(cands[j]).Ok?
  }

  /** The similarity of the lower-cased query and title. */
  function Sim(q: string, c: Value, ratio: (string, string) -> real): real
    requires TitleOf(c).Ok?
  {
    ratio(Lower(q), Lower(TitleOf(c).value))
  }

  /** The loop's `best_score` and the position of its `best_match`. */
  datatype Best = Best(score: real, index: Option<nat>)

  /** What the scan keeps: no index and score 0 when no similarity is
      positive; otherwise the first position of the greatest similarity. */
  predicate Leads(q: string, cands: seq<Value>, ratio: (string, string) -> real, b: Best)
    requires Titled(cands)
  {
    && (b.index.None? ==> b.score == 0.0 && forall j :: 0 <= j < |cands| ==> Sim(q, cands[j], ratio) <= 0.0)
    && (b.index.Some? ==>
          && b.index.value < |cands|
          && b.score == Sim(q, cands[b.index.value], ratio) && b.score > 0.0
          && (forall j :: 0 <= j < |cands| ==> Sim(q, cands[j], ratio) <= b.score)
          && (forall j :: 0 <= j < b.index.value ==> Sim(q, cands[j], ratio) < b.score))
  }

  /** The scan over `cands`, one candidate at a time from the left; it
      raises as soon as a candidate has no string title. */
  function Scan(q: string, cands: seq<Value>, ratio: (string, string) -> real): (r: Try<Best>)
    ensures r.Ok? <==> Titled(cands)
    ensures r.Ok? ==> Leads(q, cands, ratio, r.value)
    decreases |cands|
  {
    if cands == [] then Ok(Best(0.0, None))
    else
      var n := |cands| - 1;
      var init := cands[..n];
      assert forall j :: 0 <= j < n ==> init[j] == cands[j];
      ScanNext(Scan(q, init, ratio), q, cands[n], n, ratio)
  }

  /** One iteration: candidate `c` at position `n` replaces the best so far
      only when strictly more similar. */
  function ScanNext(prev: Try<Best>, q: string, c: Value, n: nat, ratio: (string, string) -> real): Try<Best> {
    if prev.Throw? then Throw
    else
      var t :- TitleOf(c);
      var s := Sim(q, c, ratio);
      if s > prev.value.score then Ok(Best(s, Some(n))) else prev
  }

  lemma ScanSnoc(q: string, cands: seq<Value>, i: nat, ratio: (string, string) -> real)
    requires i < |cands|
    ensures Scan(q, cands[..i + 1], ratio) == ScanNext(Scan(q, cands[..i], ratio), q, cands[i], i, ratio)
  {
    assert cands[..i + 1][..i] == cands[..i];
  }

  /** `find_matching_persona(persona_title, all_personas, threshold)`.
      With no candidates the query is never read. */
  function FindMatchingPersona(query: Value, personas: Value, ratio: (string, string) -> real, threshold: real): (r: Try<Option<Value>>)
    ensures Iter(personas) == Ok([]) ==> r == Ok(None)
    ensures r.Ok? <==> Iter(personas).Ok? && (Iter(personas).value == [] || (query.VStr? && Titled(Iter(personas).value)))
  {
    var cands :- Iter(personas);
    if cands == [] then Ok(None)
    else if !query.VStr? then Throw
    else
      var best :- Scan(query.s, cands, ratio);
      if best.score >= threshold && best.index.Some? then Ok(Some(cands[best.index.value])) else Ok(None)
  }

  /** A returned persona is a candidate whose similarity reaches the
      threshold, is at least every other candidate's, and is strictly
      greater than that of every earlier candidate (ties go to the first). */
  lemma MatchIsFirstBest(query: Value, personas: Value, ratio: (string, string) -> real, threshold: real)
    requires FindMatchingPersona(query, personas, ratio, threshold).Ok?
    requires FindMatchingPersona(query, personas, ratio, threshold).value.Some?
    ensures var cands := Iter(personas).value;
            query.VStr? && Titled(cands)
            && exists k :: 0 <= k < |cands| && FindMatchingPersona(query, personas, ratio, threshold).value.value == cands[k]
                           && Sim(query.s, cands[k], ratio) >= threshold
                           && (forall j :: 0 <= j < |cands| ==> Sim(query.s, cands[j], ratio) <= Sim(query.s, cands[k], ratio))
                           && (forall j :: 0 <= j < k ==> Sim(query.s, cands[j], ratio) < Sim(query.s, cands[k], ratio))
  {
    var cands := Iter(personas).value;
    var best := Scan(query.s, cands, ratio).value;
    var k := best.index.value;
    assert FindMatchingPersona(query, personas, ratio, threshold).value.value == cands[k];
  }

  /** A persona is found exactly when some candidate's similarity is both
      positive and at least the threshold. */
  lemma FoundIff(query: Value, personas: Value, ratio: (string, string) -> real, threshold: real)
    requires FindMatchingPersona(query, personas, ratio, threshold).Ok?
    requires Iter(personas).value != []
    ensures var cands := Iter(personas).value;
            FindMatchingPersona(query, personas, ratio, threshold).value.Some? <==>
              exists k :: 0 <= k < |cands| && Sim(query.s, cands[k], ratio) > 0.0 && Sim(query.s, cands[k], ratio) >= threshold
  {
    var cands := Iter(personas).value;
    var best := Scan(query.s, cands, ratio).value;
    if best.index.Some? {
      var k := best.index.value;
      assert Sim(query.s, cands[k], ratio) == best.score;
    }
  }

  /** When no similarity is positive nothing is returned, even with a
      threshold at or below zero: `best_match` is never set. */
  lemma NoPositiveSimilarityNoMatch(query: Value, personas: Value, ratio: (string, string) -> real, threshold: real)
    requires threshold <= 0.0
    requires query.VStr? && Iter(personas).Ok? && Titled(Iter(personas).value)
    requires forall j :: 0 <= j < |Iter(personas).value| ==> Sim(query.s, Iter(personas).value[j], ratio) <= 0.0
    ensures FindMatchingPersona(query, personas, ratio, threshold) == Ok(None)
  {
  }

  /** The scan sees the query only lower-cased. */
  lemma {:induction false} ScanCaseInsensitive(q1: string, q2: string, cands: seq<Value>, ratio: (string, string) -> real)
    requires Lower(q1) == Lower(q2)
    ensures Scan(q1, cands, ratio) == Scan(q2, cands, ratio)
    decreases |cands|
  {
    if cands != [] {
      ScanCaseInsensitive(q1, q2, cands[..|cands| - 1], ratio);
    }
  }

  /** Queries that agree once lower-cased resolve alike. */
  lemma SameLowerSameMatch(q1: string, q2: string, personas: Value, ratio: (string, string) -> real, threshold: real)
    requires Lower(q1) == Lower(q2)
    ensures FindMatchingPersona(VStr(q1), personas, ratio, threshold) == FindMatchingPersona(VStr(q2), personas, ratio, threshold)
  {
    if Iter(personas).Ok? {
      ScanCaseInsensitive(q1, q2, Iter(personas).value, ratio);
    }
  }

  /** The resolver's result does not depend on the case of the query. */
  lemma CaseInsensitive(q: string, personas: Value, ratio: (string, string) -> real, threshold: real)
    ensures FindMatchingPersona(VStr(Upper(q)), personas, ratio, threshold) == FindMatchingPersona(VStr(q), personas, ratio, threshold)
    ensures FindMatchingPersona(VStr(Lower(q)), personas, ratio, threshold) == FindMatchingPersona(VStr(q), personas, ratio, threshold)
  {
    LowerOfUpper(q);
    SameLowerSameMatch(Upper(q), q, personas, ratio, threshold);
    LowerIdempotent(q);
    SameLowerSameMatch(Lower(q), q, personas, ratio, threshold);
  }

  /** The resolver as the source writes it: one pass that updates
      `best_score` and `best_match` whenever a candidate is strictly more
      similar than the best so far. */
  method FindMatchingPersonaLoop(query: Value, personas: Value, ratio: (string, string) -> real, threshold: real)
    returns (r: Try<Option<Value>>)
    ensures r == FindMatchingPersona(query, personas, ratio, threshold)
  {
    var cands :- Iter(personas);
    var bestScore: real := 0.0;
    var bestMatch: Option<Value> := None;
    ghost var bestIndex: Option<nat> := None;
    var i := 0;
    while i < |cands|
      invariant 0 <= i <= |cands|
      invariant i > 0 ==> query.VStr?
      invariant i > 0 ==> Scan(query.s, cands[..i], ratio) == Ok(Best(bestScore, bestIndex))
      invariant i == 0 ==> bestScore == 0.0 && bestIndex.None?
      invariant bestIndex.None? ==> bestMatch.None?
      invariant bestIndex.Some? ==> bestIndex.value < i && bestMatch == Some(cands[bestIndex.value])
    {
      var persona := cands[i];
      if !query.VStr? {
        return Throw;
      }
      ScanSnoc(query.s, cands, i, ratio);
      var t := Get(persona, "persona_title");
      if t.Throw? || !t.value.VStr? {
        assert !TitleOf(cands[i]).Ok?;
        return Throw;
      }
      var similarity := ratio(Lower(query.s), Lower(t.value.s));
      if similarity > bestScore {
        bestScore := similarity;
        bestMatch := Some(persona);
        bestIndex := Some(i);
      }
      i := i + 1;
    }
    assert cands[..i] == cands;
    if bestScore >= threshold {
      return Ok(bestMatch);
    }
    return Ok(None);
  }
}
