/** Running a workflow: each stage function is called on the results of the
    units before it, a parallel group's members all see the same earlier
    results and leave one record each under the group, and an exception that
    escapes a stage of its own ends the run. */
module Execution {
  import opened Values
  import opened Results
  import W = Workflows
  import H = Homepage
  import P = Prioritize
  import B = BatchScrape
  import X = VendorExtraction
  import A = ProspectAnalysis
  import G = PlaybookGeneration
  import M = PersonaMatching

  /** What the stages call out to: step 1's domain validation, the scraping
      service, the agents, the persona resolver's similarity measure, the
      configured limits and today's date. */
  datatype Env = Env(
    validate: H.Side -> StepOutput,
    scrape: Value -> Try<Value>,
    analyst: string -> Try<Value>,
    prioritizer: string -> Try<Value>,
    maxPrioritized: nat,
    checkSelection: Option<Value> -> B.Validation,
    maxScraped: nat,
    batch: seq<Value> -> Try<Value>,
    extractor: X.Extractor -> (string -> Try<Value>),
    companyAnalyst: string -> Try<Value>,
    painAnalyst: string -> Try<Value>,
    personaAnalyst: (Value, Value) -> Try<Value>,
    orchestrator: G.SummaryBrief -> Try<Value>,
    ratio: (string, string) -> real,
    writer: G.Component -> (G.Brief -> Try<Value>),
    builder: (Value, Value) -> Try<Value>,
    today: string)

  /** Step 8 calls `find_matching_persona` with its default threshold. */
  function Resolver(env: Env): G.Resolver {
    G.Resolver(env.ratio, M.DefaultThreshold)
  }

  /** A stage's lookup of `t`'s result: `get_step_content` for a stage of
      its own, `get_parallel_step_content` for a member of a group. */
  function Read(prior: seq<StepRecord>, t: W.Stage): Option<Value> {
    Fetch(prior, W.Where(t))
  }

  /** What stage `s` looks up, in the order of `W.Reads(s)`. */
  function Inputs(s: W.Stage, prior: seq<StepRecord>): (r: seq<Option<Value>>)
    ensures |r| == |W.Reads(s)| && forall k :: 0 <= k < |r| ==> r[k] == Read(prior, W.Reads(s)[k])
  {
    seq(|W.Reads(s)|, k requires 0 <= k < |W.Reads(s)| => Read(prior, W.Reads(s)[k]))
  }

  /** The stage function registered for `s`, applied to what it looked up
      (step 3 as corrected: see `H.AnalyzeHomepage`). */
  function Apply(s: W.Stage, ins: seq<Option<Value>>, env: Env): Outcome
    requires |ins| == |W.Reads(s)|
  {
    match s
    case ValidateVendor => Completed(env.validate(H.Vendor))
    case ValidateProspect => Completed(env.validate(H.Prospect))
    case ScrapeVendorHome => Completed(H.ScrapeHomepage(H.Vendor, ins[0], env.scrape))
    case ScrapeProspectHome => Completed(H.ScrapeHomepage(H.Prospect, ins[0], env.scrape))
    case AnalyzeVendorHome => H.AnalyzeHomepage(H.Vendor, ins[0], env.analyst)
    case AnalyzeProspectHome => H.AnalyzeHomepage(H.Prospect, ins[0], env.analyst)
    case PrioritizeUrls => P.PrioritizeUrls(ins[0], ins[1], env.maxPrioritized, env.prioritizer)
    case BatchScrape => B.BatchScrapeSelectedPages(env.checkSelection(ins[0]), env.maxScraped, env.batch)
    case ExtractOfferings => Completed(X.Extract(X.Offerings, ins[0], env.extractor(X.Offerings)))
    case ExtractCaseStudies => Completed(X.Extract(X.CaseStudies, ins[0], env.extractor(X.CaseStudies)))
    case ExtractProofPoints => Completed(X.Extract(X.ProofPoints, ins[0], env.extractor(X.ProofPoints)))
    case ExtractValueProps => Completed(X.Extract(X.ValueProps, ins[0], env.extractor(X.ValueProps)))
    case ExtractCustomers => Completed(X.Extract(X.Customers, ins[0], env.extractor(X.Customers)))
    case ExtractUseCases => Completed(X.Extract(X.UseCases, ins[0], env.extractor(X.UseCases)))
    case ExtractPersonas => Completed(X.Extract(X.Personas, ins[0], env.extractor(X.Personas)))
    case ExtractDifferentiators => Completed(X.Extract(X.Differentiators, ins[0], env.extractor(X.Differentiators)))
    case AnalyzeCompany => Completed(A.AnalyzeCompanyProfile(ins[0], env.companyAnalyst))
    case AnalyzePainPoints => Completed(A.AnalyzePainPoints(ins[0], env.painAnalyst))
    case IdentifyBuyerPersonas =>
      // the stage never looks at the proof points or the reference customers
      var el := X.Elements(ins[0], ins[1], None, ins[2], None, ins[3], ins[4], ins[5]);
      Completed(A.IdentifyBuyerPersonas(el, ins[6], ins[7], env.personaAnalyst))
    case GenerateSummary =>
      var el := X.Elements(ins[0], ins[1], ins[6], ins[2], ins[7], ins[3], ins[4], ins[5]);
      Completed(G.GeneratePlaybookSummary(el, ins[8], ins[9], ins[10], env.orchestrator))
    case GenerateEmails => Completed(G.GenerateComponent(G.EmailSequences, ins[0], Resolver(env), env.writer(G.EmailSequences)))
    case GenerateTalkTracks => Completed(G.GenerateComponent(G.TalkTracks, ins[0], Resolver(env), env.writer(G.TalkTracks)))
    case GenerateBattleCards => Completed(G.GenerateBattleCards(ins[0], env.builder))
    case AssemblePlaybook => Completed(G.AssembleFinalPlaybook(ins[0], ins[1], ins[2], ins[3], env.today))
  }

  /** A stage run on the results of the units before it. */
  function Exec(s: W.Stage, prior: seq<StepRecord>, env: Env): Outcome {
    Apply(s, Inputs(s, prior), env)
  }

  /** Two lists of earlier results that agree on what `s` looks up. */
  predicate AgreeOn(s: W.Stage, p1: seq<StepRecord>, p2: seq<StepRecord>) {
    forall t :: t in W.Reads(s) ==> Read(p1, t) == Read(p2, t)
  }

  /** A stage's result depends on the earlier results only through the
      lookups `W.Reads` lists. */
  lemma ExecReadsOnly(s: W.Stage, p1: seq<StepRecord>, p2: seq<StepRecord>, env: Env)
    requires AgreeOn(s, p1, p2)
    ensures Exec(s, p1, env) == Exec(s, p2, env)
  {
    var i1 := Inputs(s, p1);
    var i2 := Inputs(s, p2);
    forall k | 0 <= k < |i1|
      ensures i1[k] == i2[k]
    {
      assert W.Reads(s)[k] in W.Reads(s);
    }
    assert i1 == i2;
    assert Exec(s, p1, env) == Apply(s, i1, env);
    assert Exec(s, p2, env) == Apply(s, i2, env);
  }

  /** The stage functions of a run, each applied to the earlier results. */
  type StageFn = (W.Stage, seq<StepRecord>) -> Outcome

  function Stages(env: Env): StageFn {
    (s: W.Stage, prior: seq<StepRecord>) => Exec(s, prior, env)
  }

  /** The record a stage leaves in the run's list. */
  function StageRecord(s: W.Stage, o: StepOutput): StepRecord {
    StepRecord(s.Name(), StepKind, o.content, o.success, [])
  }

  /** A member of a parallel group: an exception escaping it is caught by
      the group and recorded as a failed result of that member alone (the
      message is not modelled). */
  function MemberRecord(s: W.Stage, prior: seq<StepRecord>, exec: StageFn): (r: StepRecord)
    ensures r.name == s.Name() && r.stepType == StepKind
    ensures exec(s, prior).Completed? ==> r == StageRecord(s, exec(s, prior).output)
    ensures exec(s, prior).Crashed? ==> !r.success
  {
    match exec(s, prior)
    case Completed(o) => StageRecord(s, o)
    case Crashed => StepRecord(s.Name(), StepKind, VNone, false, [])
  }

  /** The members of a group run side by side: each sees only `prior`. */
  function Members(ms: seq<W.Stage>, prior: seq<StepRecord>, exec: StageFn): (r: seq<StepRecord>)
    ensures |r| == |ms| && forall k :: 0 <= k < |ms| ==> r[k] == MemberRecord(ms[k], prior, exec)
  {
    seq(|ms|, k requires 0 <= k < |ms| => MemberRecord(ms[k], prior, exec))
  }

  predicate AllSucceeded(recs: seq<StepRecord>) {
    forall k :: 0 <= k < |recs| ==> recs[k].success
  }

  /** What running one unit does: it leaves a record, or an exception
      escapes a stage of its own. */
  datatype Step = Recorded(rec: StepRecord) | Raised(stage: W.Stage)

  function RunUnit(u: W.Unit, prior: seq<StepRecord>, exec: StageFn): (r: Step)
    ensures r.Raised? <==> u.Single? && exec(u.stage, prior).Crashed?
    ensures r.Raised? ==> r.stage == u.stage
    ensures r.Recorded? ==> r.rec.name == u.Name()
    ensures r.Recorded? && u.Single? ==> r.rec == StageRecord(u.stage, exec(u.stage, prior).output)
    ensures u.Group? ==> r.Recorded? && r.rec.stepType == ParallelKind && r.rec.steps == Members(u.members, prior, exec)
                         && (r.rec.success <==> AllSucceeded(r.rec.steps))
  {
    if u.Single? then
      match exec(u.stage, prior)
      case Completed(o) => Recorded(StageRecord(u.stage, o))
      case Crashed => Raised(u.stage)
    else
      var ms := Members(u.members, prior, exec);
      Recorded(StepRecord(u.group, ParallelKind, VNone, AllSucceeded(ms), ms))
  }

  /** The run's list of results, and where it stopped if it stopped early. */
  datatype RunResult = Finished(records: seq<StepRecord>) | Halted(records: seq<StepRecord>, at: W.Stage)

  /** Every record is what its unit left, given the records before it. */
  predicate Consistent(units: seq<W.Unit>, recs: seq<StepRecord>, exec: StageFn) {
    |recs| <= |units| && forall j {:trigger RunUnit(units[j], recs[..j], exec)} :: 0 <= j < |recs| ==> RunUnit(units[j], recs[..j], exec) == Recorded(recs[j])
  }

  /** `workflow.run(...)`: the units in order, each on the records of the
      units before it. */
  function Run(units: seq<W.Unit>, exec: StageFn): (r: RunResult)
    ensures Consistent(units, r.records, exec)
    ensures r.Finished? ==> |r.records| == |units|
    ensures r.Halted? ==> |r.records| < |units| && RunUnit(units[|r.records|], r.records, exec) == Raised(r.at)
    decreases |units|
  {
    if units == [] then Finished([])
    else
      var n := |units| - 1;
      var prev := Run(units[..n], exec);
      assert forall j :: 0 <= j < n ==> units[..n][j] == units[j];
      if prev.Halted? then prev
      else
        match RunUnit(units[n], prev.records, exec)
        case Recorded(rec) =>
          var recs := prev.records + [rec];
          assert recs[..n] == prev.records;
          assert forall j :: 0 <= j < n ==> recs[..j] == prev.records[..j];
          Finished(recs)
        case Raised(s) => Halted(prev.records, s)
  }

  /** A prefix of a consistent list of records is consistent. */
  lemma ConsistentPrefix(units: seq<W.Unit>, recs: seq<StepRecord>, n: nat, exec: StageFn)
    requires Consistent(units, recs, exec) && n <= |recs|
    ensures Consistent(units, recs[..n], exec)
  {
    assert forall j :: 0 <= j < n ==> recs[..n][..j] == recs[..j];
  }

  /** The records of a run are determined by the units and the
      collaborators: two consistent lists of the same length are equal. */
  lemma {:induction false} ConsistentUnique(units: seq<W.Unit>, r1: seq<StepRecord>, r2: seq<StepRecord>, exec: StageFn)
    requires Consistent(units, r1, exec) && Consistent(units, r2, exec) && |r1| == |r2|
    ensures r1 == r2
    decreases |r1|
  {
    if r1 != [] {
      var n := |r1| - 1;
      ConsistentPrefix(units, r1, n, exec);
      ConsistentPrefix(units, r2, n, exec);
      ConsistentUnique(units, r1[..n], r2[..n], exec);
      ConsistentLast(units, r1, r2, exec);
    }
  }

  /** Two consistent lists that agree before their last record agree on it too:
      it is what the same unit left given the same earlier records. */
  lemma ConsistentLast(units: seq<W.Unit>, r1: seq<StepRecord>, r2: seq<StepRecord>, exec: StageFn)
    requires Consistent(units, r1, exec) && Consistent(units, r2, exec) && |r1| == |r2| > 0
    requires r1[..|r1| - 1] == r2[..|r2| - 1]
    ensures r1 == r2
  {
    var n := |r1| - 1;
    assert RunUnit(units[n], r1[..n], exec) == Recorded(r1[n]);
    assert RunUnit(units[n], r2[..n], exec) == Recorded(r2[n]);
    assert r1 == r1[..n] + [r1[n]] && r2 == r2[..n] + [r2[n]];
  }

  /** Running the first `k` units is the start of running them all: it
      halts where the whole run halts, or leaves the first `k` records. */
  lemma {:induction false} RunPrefix(units: seq<W.Unit>, k: nat, exec: StageFn)
    requires k <= |units|
    ensures var part := Run(units[..k], exec);
            var full := Run(units, exec);
            (part.Halted? ==> full == part)
            && (part.Finished? ==> k <= |full.records| && full.records[..k] == part.records)
    decreases |units|
  {
    if k < |units| {
      var n := |units| - 1;
      RunPrefix(units[..n], k, exec);
      assert units[..n][..k] == units[..k];
      var prev := Run(units[..n], exec);
      if prev.Finished? {
        match RunUnit(units[n], prev.records, exec)
        case Recorded(rec) =>
          assert Run(units, exec).records == prev.records + [rec];
          if Run(units[..k], exec).Finished? {
            assert (prev.records + [rec])[..k] == prev.records[..k];
          }
        case Raised(_) =>
      }
    } else {
      assert units[..k] == units;
    }
  }

  /** The phase workflows run like the start of the main pipeline. */
  lemma PhasesRunAsPrefixes(exec: StageFn)
    ensures Run(W.Phase1, exec).Finished? ==>
              5 <= |Run(W.Pipeline, exec).records| && Run(W.Pipeline, exec).records[..5] == Run(W.Phase1, exec).records
    ensures Run(W.Phase1And2, exec).Finished? ==>
              6 <= |Run(W.Pipeline, exec).records| && Run(W.Pipeline, exec).records[..6] == Run(W.Phase1And2, exec).records
    ensures Run(W.Phase1To3, exec).Finished? ==>
              8 <= |Run(W.Pipeline, exec).records| && Run(W.Pipeline, exec).records[..8] == Run(W.Phase1To3, exec).records
    ensures Run(W.Phase1, exec).Halted? ==> Run(W.Pipeline, exec) == Run(W.Phase1, exec)
  {
    assert W.Phase1 == W.Pipeline[..5] && W.Phase1And2 == W.Pipeline[..6] && W.Phase1To3 == W.Pipeline[..8];
    RunPrefix(W.Pipeline, 5, exec);
    RunPrefix(W.Pipeline, 6, exec);
    RunPrefix(W.Pipeline, 8, exec);
  }

  /** The content the run left for stage `t` in the record of its unit
      (None before that unit has run). */
  function Produced(recs: seq<StepRecord>, t: W.Stage): Value {
    if |recs| <= W.Position(t) then VNone
    else
      var rec := recs[W.Position(t)];
      if W.Pipeline[W.Position(t)].Single? then rec.content
      else if W.MemberIndex(t) < |rec.steps| then rec.steps[W.MemberIndex(t)].content
      else VNone
  }

  /** The records of the main pipeline carry their units' names. */
  lemma RecordNames(recs: seq<StepRecord>, exec: StageFn, j: nat)
    requires Consistent(W.Pipeline, recs, exec) && j < |recs|
    ensures recs[j].name == W.Pipeline[j].Name()
  {
    assert RunUnit(W.Pipeline[j], recs[..j], exec) == Recorded(recs[j]);
  }

  /** The first `i` records of the main pipeline have distinct names. */
  lemma PrefixNamesDistinct(recs: seq<StepRecord>, exec: StageFn, i: nat)
    requires Consistent(W.Pipeline, recs, exec) && i <= |recs|
    ensures forall j :: 0 <= j < i ==> recs[..i][j] == recs[j]
    ensures forall j, k :: 0 <= j < k < i ==> recs[..i][j].name != recs[..i][k].name
  {
    forall j, k | 0 <= j < k < i
      ensures recs[j].name != recs[k].name
    {
      RecordNames(recs, exec, j);
      RecordNames(recs, exec, k);
      W.UnitNamesDistinct(j, k);
    }
  }

  /** A stage of its own is found by its name. */
  lemma AddressedTop(recs: seq<StepRecord>, exec: StageFn, i: nat, t: W.Stage)
    requires Consistent(W.Pipeline, recs, exec) && W.Position(t) < i <= |recs|
    requires W.Pipeline[W.Position(t)].Single?
    ensures GetStepContentByName(recs[..i], t.Name()) == Some(recs[W.Position(t)].content)
  {
    var p := W.Position(t);
    W.RunsAtPosition(t);
    RecordNames(recs, exec, p);
    PrefixNamesDistinct(recs, exec, i);
    LookupDistinct(recs[..i], p);
  }

  /** The members of a group's record carry the members' names, each once. */
  lemma MemberNames(recs: seq<StepRecord>, exec: StageFn, p: nat)
    requires Consistent(W.Pipeline, recs, exec) && p < |recs| && W.Pipeline[p].Group?
    ensures recs[p].stepType == ParallelKind && |recs[p].steps| == |W.Pipeline[p].members|
    ensures forall a :: 0 <= a < |recs[p].steps| ==> recs[p].steps[a].name == W.Pipeline[p].members[a].Name()
    ensures forall a, b :: 0 <= a < b < |recs[p].steps| ==> recs[p].steps[a].name != recs[p].steps[b].name
  {
    var u := W.Pipeline[p];
    assert RunUnit(u, recs[..p], exec) == Recorded(recs[p]);
    var steps := recs[p].steps;
    assert steps == Members(u.members, recs[..p], exec);
    W.StagesDistinct(p);
    forall a, b | 0 <= a < b < |steps|
      ensures steps[a].name != steps[b].name
    {
      if steps[a].name == steps[b].name {
        W.NameInjective(u.members[a], u.members[b]);
      }
    }
  }

  /** A member of a group is found under the group's name and its own. */
  lemma AddressedMember(recs: seq<StepRecord>, exec: StageFn, i: nat, t: W.Stage)
    requires Consistent(W.Pipeline, recs, exec) && W.Position(t) < i <= |recs|
    requires W.Pipeline[W.Position(t)].Group?
    ensures var p := W.Position(t);
            W.MemberIndex(t) < |recs[p].steps|
            && GetParallelSubstepContent(recs[..i], W.Pipeline[p].group, t.Name()) == Some(recs[p].steps[W.MemberIndex(t)].content)
  {
    var p := W.Position(t);
    var g := W.Pipeline[p].group;
    var m := t.Name();
    var x := W.MemberIndex(t);
    var prefix := recs[..i];
    MemberNames(recs, exec, p);
    RecordNames(recs, exec, p);
    PrefixNamesDistinct(recs, exec, i);
    LookupDistinct(recs[p].steps, x);
    assert prefix[p] == recs[p] && recs[p].name == g;
    assert GroupHolds(prefix[p], g, m);
    forall j | 0 <= j < p
      ensures !GroupHolds(prefix[j], g, m)
    {
      assert prefix[j].name != prefix[p].name;
    }
    FirstGroupHoldingAt(prefix, g, m, p);
  }

  /** Addressing by name finds what the producing stage left: once the
      unit that runs `t` has run, every later lookup of `t` returns it. */
  lemma Addressed(recs: seq<StepRecord>, exec: StageFn, i: nat, t: W.Stage)
    requires Consistent(W.Pipeline, recs, exec) && W.Position(t) < i <= |recs|
    ensures Read(recs[..i], t) == Some(Produced(recs, t))
  {
    var p := W.Position(t);
    var u := W.Pipeline[p];
    var rec := recs[p];
    if u.Single? {
      AddressedTop(recs, exec, i, t);
      assert W.Where(t) == Top(t.Name());
      assert Produced(recs, t) == rec.content;
    } else {
      AddressedMember(recs, exec, i, t);
      assert W.Where(t) == Member(u.group, t.Name());
      assert Produced(recs, t) == rec.steps[W.MemberIndex(t)].content;
    }
  }

  /** What each stage of the main pipeline is given: for every stage it
      looks up, the result that stage left. */
  lemma StageSeesItsInputs(recs: seq<StepRecord>, exec: StageFn, i: nat, s: W.Stage)
    requires Consistent(W.Pipeline, recs, exec) && i <= |recs| && i < |W.Pipeline| && s in W.Pipeline[i].Stages()
    ensures forall t :: t in W.Reads(s) ==> W.Position(t) < i && Read(recs[..i], t) == Some(Produced(recs, t))
  {
    W.RunsOnce(i, s);
    forall t | t in W.Reads(s)
      ensures W.Position(t) < i && Read(recs[..i], t) == Some(Produced(recs, t))
    {
      W.ReadsEarlier(s, t);
      Addressed(recs, exec, i, t);
    }
  }

  /** Two runs of the main pipeline, with any collaborators: a stage that
      is given the same results by the stages it looks up yields the same
      outcome. */
  lemma OnlyDependenciesMatter(r1: seq<StepRecord>, e1: StageFn, r2: seq<StepRecord>, e2: StageFn,
                                env: Env, i: nat, s: W.Stage)
    requires Consistent(W.Pipeline, r1, e1) && Consistent(W.Pipeline, r2, e2)
    requires i <= |r1| && i <= |r2| && i < |W.Pipeline| && s in W.Pipeline[i].Stages()
    requires forall t :: t in W.Reads(s) ==> Produced(r1, t) == Produced(r2, t)
    ensures Exec(s, r1[..i], env) == Exec(s, r2[..i], env)
  {
    SameLookups(r1, e1, r2, e2, i, s);
    ExecReadsOnly(s, r1[..i], r2[..i], env);
  }

  /** Two runs whose producing stages left the same results give a stage
      the same lookups. */
  lemma SameLookups(r1: seq<StepRecord>, e1: StageFn, r2: seq<StepRecord>, e2: StageFn, i: nat, s: W.Stage)
    requires Consistent(W.Pipeline, r1, e1) && Consistent(W.Pipeline, r2, e2)
    requires i <= |r1| && i <= |r2| && i < |W.Pipeline| && s in W.Pipeline[i].Stages()
    requires forall t :: t in W.Reads(s) ==> Produced(r1, t) == Produced(r2, t)
    ensures AgreeOn(s, r1[..i], r2[..i])
  {
    StageSeesItsInputs(r1, e1, i, s);
    StageSeesItsInputs(r2, e2, i, s);
  }

  /** A run stops at a single unit whose stage function raised. */
  lemma HaltingUnit(units: seq<W.Unit>, exec: StageFn)
    ensures var r := Run(units, exec);
            r.Halted? ==> |r.records| < |units| && units[|r.records|] == W.Single(r.at) && exec(r.at, r.records).Crashed?
  {
  }

  /** The single stages that never raise: their results are always recorded. */
  lemma NeverRaises(s: W.Stage, prior: seq<StepRecord>, env: Env)
    requires s == W.IdentifyBuyerPersonas || s == W.GenerateSummary || s == W.AssemblePlaybook
    ensures Stages(env)(s, prior).Completed?
  {
    if s == W.IdentifyBuyerPersonas {
      PersonasRecorded(prior, env);
    } else if s == W.GenerateSummary {
      SummaryRecorded(prior, env);
    } else {
      AssemblyRecorded(prior, env);
    }
  }

  lemma PersonasRecorded(prior: seq<StepRecord>, env: Env)
    ensures Exec(W.IdentifyBuyerPersonas, prior, env).Completed?
  {
  }

  lemma SummaryRecorded(prior: seq<StepRecord>, env: Env)
    ensures Exec(W.GenerateSummary, prior, env).Completed?
  {
  }

  lemma AssemblyRecorded(prior: seq<StepRecord>, env: Env)
    ensures Exec(W.AssemblePlaybook, prior, env).Completed?
  {
  }

  /** Only the URL prioritization and the batch scrape, the single units
      whose stage function can raise, can stop a run of the main pipeline;
      every other failure is recorded and the run goes on. */
  lemma OnlyPrioritizationOrBatchScrapeHalts(env: Env)
    ensures var r := Run(W.Pipeline, Stages(env));
            r.Halted? ==> r.at == W.PrioritizeUrls || r.at == W.BatchScrape
  {
    var exec := Stages(env);
    var r := Run(W.Pipeline, exec);
    if r.Halted? {
      HaltingUnit(W.Pipeline, exec);
      assert W.Single(r.at) in W.Pipeline;
      W.SingleUnits();
      if r.at == W.IdentifyBuyerPersonas || r.at == W.GenerateSummary || r.at == W.AssemblePlaybook {
        NeverRaises(r.at, r.records, env);
        assert false;
      }
    }
  }
}
