/** Step outputs and the run's list of step results, with the two lookups
    that address a result by stage name or by (parallel group, member). */
module Results {
  import opened Values

  /** agno's StepOutput: the content later stages read and the success flag. */
  datatype StepOutput = StepOutput(content: Value, success: bool)

  /** The stages' error response: a failed output whose content carries the
      message under "error" (the shape the stages' own guards test for). */
  function ErrorResponse(message: string): (r: StepOutput)
    ensures !r.success
    ensures Get(r.content, "error") == Ok(VStr(message))
    ensures Truthy(r.content) && Contains(r.content, "error") == Ok(true)
  {
    StepOutput(VDict(Put(Empty(), "error", VStr(message))), false)
  }

  function SuccessResponse(data: Value): StepOutput {
    StepOutput(data, true)
  }

  /** A one-entry dict `{key: v}`. */
  function Single(key: string, v: Value): (r: Value)
    ensures Get(r, key) == Ok(v) && Truthy(r)
    ensures r.VDict? && r.d.keys == [key]
  {
    VDict(Put(Empty(), key, v))
  }

  /** What running a stage function does: it returns a step output, or an
      exception escapes it (code outside its `try`). */
  datatype Outcome = Completed(output: StepOutput) | Crashed

  /** A stage body inside `try: ... except Exception as e:` that returns an
      error response starting with `prefix`. */
  function Guarded(body: Try<StepOutput>, prefix: string): (r: StepOutput)
    ensures body.Ok? ==> r == body.value
    ensures body.Throw? ==> r == ErrorResponse(prefix)
  {
    match body
    case Ok(o) => o
    case Throw => ErrorResponse(prefix)
  }

  /** A stage's code outside its `try`: an exception there escapes. */
  function Settle(t: Try<StepOutput>): (r: Outcome)
    ensures t.Ok? <==> r.Completed?
    ensures t.Ok? ==> r.output == t.value
  {
    if t.Ok? then Completed(t.value) else Crashed
  }

  const NoBatchData := "No batch scrape data available"
  const PageSeparator := "\n\n---\n\n"

  /** `f"URL: {url}\n\n{content}"` */
  function Labelled(url: string, content: Value): string {
    "URL: " + url + "\n\n" + Render(content)
  }

  /** The labelled pages of a content dict, in its order. */
  function LabelledPages(pages: ODict<Value>): (r: seq<string>)
    ensures |r| == |pages.keys|
    ensures forall i :: 0 <= i < |pages.keys| ==> r[i] == Labelled(pages.keys[i], Entry(pages, pages.keys[i]))
  {
    seq(|pages.keys|, i requires 0 <= i < |pages.keys| => Labelled(pages.keys[i], Entry(pages, pages.keys[i])))
  }

  /** The text steps 6 and 7 give their agents: every page labelled with its
      URL, separated by a horizontal rule. */
  function PageDigest(pages: ODict<Value>): string {
    Join(LabelledPages(pages), PageSeparator)
  }

  const StepKind := "Step"
  const ParallelKind := "Parallel"

  /** One entry of a run's `step_results`; a parallel group's entry holds its
      members' entries in `steps`. */
  datatype StepRecord = StepRecord(name: string, stepType: string, content: Value, success: bool, steps: seq<StepRecord>)

  /** `get_step_content_by_name`: the content of the first result with that name. */
  function GetStepContentByName(results: seq<StepRecord>, name: string): (r: Option<Value>)
    ensures r.None? <==> forall i :: 0 <= i < |results| ==> results[i].name != name
    ensures r.Some? ==> exists i :: 0 <= i < |results| && results[i].name == name && r.value == results[i].content
                                    && forall j :: 0 <= j < i ==> results[j].name != name
  {
    if results == [] then None
    else if results[0].name == name then Some(results[0].content)
    else
      var r := GetStepContentByName(results[1..], name);
      assert r.Some? ==> exists i :: 1 <= i < |results| && results[i].name == name && r.value == results[i].content
                                     && forall j :: 0 <= j < i ==> results[j].name != name by {
        if r.Some? {
          var i :| 0 <= i < |results[1..]| && results[1..][i].name == name && r.value == results[1..][i].content
                   && forall j :: 0 <= j < i ==> results[1..][j].name != name;
          assert forall j :: 1 <= j < i + 1 ==> results[j].name == results[1..][j - 1].name;
        }
      }
      r
  }

  /** The first member of `steps` with that name. */
  function SubstepContent(steps: seq<StepRecord>, member: string): (r: Option<Value>)
    ensures r.None? <==> forall j :: 0 <= j < |steps| ==> steps[j].name != member
    ensures r.Some? ==> exists j :: 0 <= j < |steps| && steps[j].name == member && r.value == steps[j].content
                                    && forall k :: 0 <= k < j ==> steps[k].name != member
  {
    GetStepContentByName(steps, member)
  }

  /** A result that is the parallel group `group` and has a member `member`. */
  predicate GroupHolds(rec: StepRecord, group: string, member: string) {
    rec.name == group && rec.stepType == ParallelKind && SubstepContent(rec.steps, member).Some?
  }

  /** The index of the first result that is group `group` holding `member`
      (`|results|` when there is none). */
  function FirstGroupHolding(results: seq<StepRecord>, group: string, member: string): (k: nat)
    ensures k <= |results|
    ensures forall j :: 0 <= j < k ==> !GroupHolds(results[j], group, member)
    ensures k < |results| ==> GroupHolds(results[k], group, member)
  {
    if results == [] then 0
    else if GroupHolds(results[0], group, member) then 0
    else 1 + FirstGroupHolding(results[1..], group, member)
  }

  /** The first group holding `member` is the one at `p` when none before it does. */
  lemma FirstGroupHoldingAt(results: seq<StepRecord>, group: string, member: string, p: nat)
    requires p < |results| && GroupHolds(results[p], group, member)
    requires forall j :: 0 <= j < p ==> !GroupHolds(results[j], group, member)
    ensures FirstGroupHolding(results, group, member) == p
  {
  }

  /** `get_parallel_substep_content`: looks only at results named `group` of
      type "Parallel" and returns the member's content from the first such
      group that has it. */
  function GetParallelSubstepContent(results: seq<StepRecord>, group: string, member: string): (r: Option<Value>)
    ensures r.None? <==> forall i :: 0 <= i < |results| ==> !GroupHolds(results[i], group, member)
    ensures var k := FirstGroupHolding(results, group, member);
            r.Some? ==> k < |results| && r == SubstepContent(results[k].steps, member)
  {
    if results == [] then None
    else if GroupHolds(results[0], group, member) then SubstepContent(results[0].steps, member)
    else GetParallelSubstepContent(results[1..], group, member)
  }

  /** Where a stage reads a prior result: a top-level stage, or one member of
      a parallel group. */
  datatype Address = Top(name: string) | Member(group: string, member: string)

  function Fetch(results: seq<StepRecord>, a: Address): Option<Value> {
    match a
    case Top(n) => GetStepContentByName(results, n)
    case Member(g, m) => GetParallelSubstepContent(results, g, m)
  }

  /** With distinct names, the lookup by name finds exactly that result. */
  lemma {:induction false} LookupDistinct(results: seq<StepRecord>, i: nat)
    requires i < |results|
    requires forall j, k :: 0 <= j < k < |results| ==> results[j].name != results[k].name
    ensures GetStepContentByName(results, results[i].name) == Some(results[i].content)
  {
    if i > 0 {
      LookupDistinct(results[1..], i - 1);
      assert results[1..][i - 1] == results[i];
    }
  }
}
