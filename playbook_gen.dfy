/** Step 8: playbook generation. The summary gathers vendor and prospect
    intelligence for the orchestrator; two specialists then write material
    for each of the first three priority personas they can resolve; a third
    writes battle cards; the last stage assembles the playbook. Agents are
    functions from the values a prompt is built from to their reply. */
module PlaybookGeneration {
  import opened Values
  import opened Results
  import opened VendorExtraction
  import opened PersonaMatching
  import P = ProspectAnalysis

  const NoVendorResults := "No vendor extraction results available"
  const NoBuyerPersonas := "No buyer personas identified"
  const NoSummary := "No playbook summary available"
  const NoComponents := "No playbook components available"

  const SummaryErrorPrefix := "Error generating playbook summary: "
  const BattleErrorPrefix := "Error generating battle cards: "
  const AssembleErrorPrefix := "Error assembling final playbook: "

  /** How many priority personas the specialists serve. */
  const TopPersonas: nat := 3

  // ------------------------------------------------------ summary (8a)

  /** The keys of the summary's `vendor_intel`, in package order: the six
      keys of the persona analyst's vendor package, then the proof points and
      the customers. */
  function VendorIntelKeys(): (r: seq<string>)
    ensures Distinct(r) && |r| == 8
    ensures r[..6] == P.VendorIntelKeys() && r[6] == "proof_points" && r[7] == "customers"
  {
    P.VendorIntelKeys() + ["proof_points", "customers"]
  }

  /** The key each package entry is read from in its stage's output: its own
      key, except that the customers entry is read from "reference_customers". */
  function VendorIntelSourceKeys(): (r: seq<string>)
    ensures |r| == 8 && r[..7] == VendorIntelKeys()[..7] && r[7] == "reference_customers"
  {
    VendorIntelKeys()[..7] + ["reference_customers"]
  }

  function VendorSources(el: Elements): seq<Option<Value>> {
    [el.offerings, el.caseStudies, el.valueProps, el.useCases, el.personas, el.differentiators, el.proofPoints, el.customers]
  }

  const EightLists := [EmptyList, EmptyList, EmptyList, EmptyList, EmptyList, EmptyList, EmptyList, EmptyList]

  /** `vendor_intel`: each element list, `[]` for an absent result. */
  function VendorIntel(el: Elements): (r: Try<Value>)
    ensures r.Ok? <==> Defaults(VendorSources(el), VendorIntelSourceKeys(), EightLists).Ok?
    ensures r.Ok? ==> r.value.VDict? && r.value.d.keys == VendorIntelKeys()
                      && forall i :: 0 <= i < 8 ==>
                           Get(r.value, VendorIntelKeys()[i]) == OrDefault(VendorSources(el)[i], VendorIntelSourceKeys()[i], EmptyList)
  {
    var vals :- Defaults(VendorSources(el), VendorIntelSourceKeys(), EightLists);
    Ok(VDict(DictOf(VendorIntelKeys(), vals)))
  }

  /** The keys of the summary's `prospect_intel`: the persona analyst's two
      prospect keys, then the prospect's buyer personas. */
  function ProspectIntelKeys(): (r: seq<string>)
    ensures r == ["company_profile", "pain_points", "target_buyer_personas"]
    ensures Distinct(r) && r[..2] == P.ProspectIntelKeys()
  {
    P.ProspectIntelKeys() + ["target_buyer_personas"]
  }

  /** `prospect_intel`: company profile (else `{}`), pain points (else `[]`)
      and the prospect's buyer personas. */
  function ProspectIntel(company: Option<Value>, pains: Option<Value>, targets: Value): (r: Try<Value>)
    ensures r.Ok? <==> OrDefault(company, "company_profile", EmptyDict).Ok? && OrDefault(pains, "pain_points", EmptyList).Ok?
    ensures r.Ok? ==> r.value.VDict? && r.value.d.keys == ProspectIntelKeys()
                      && Get(r.value, "company_profile") == OrDefault(company, "company_profile", EmptyDict)
                      && Get(r.value, "pain_points") == OrDefault(pains, "pain_points", EmptyList)
                      && Get(r.value, "target_buyer_personas") == Ok(targets)
  {
    var profile :- OrDefault(company, "company_profile", EmptyDict);
    var painPoints :- OrDefault(pains, "pain_points", EmptyList);
    var ks := ProspectIntelKeys();
    assert ks[0] == "company_profile" && ks[1] == "pain_points" && ks[2] == "target_buyer_personas";
    Ok(VDict(DictOf(ks, [profile, painPoints, targets])))
  }

  /** The first offering's name, or "the vendor" when there are none. */
  function SummaryVendorName(vendorIntel: Value): Try<Value>
    requires Get(vendorIntel, "offerings").Ok?
  {
    var offerings := Get(vendorIntel, "offerings").value;
    if !Truthy(offerings) then Ok(VStr("the vendor"))
    else
      var first :- First(offerings);
      GetOr(first, "name", VStr("the vendor"))
  }

  /** `[p["persona_title"] for p in target_personas]` */
  function TitleList(personas: seq<Value>): (r: Try<seq<Value>>)
    ensures r.Ok? <==> forall i :: 0 <= i < |personas| ==> Get(personas[i], "persona_title").Ok?
    ensures r.Ok? ==> |r.value| == |personas| && forall i :: 0 <= i < |personas| ==> Get(personas[i], "persona_title") == Ok(r.value[i])
  {
    if personas == [] then Ok([])
    else
      var rest := TitleList(personas[1..]);
      assert forall i :: 1 <= i < |personas| ==> personas[i] == personas[1..][i - 1];
      match Get(personas[0], "persona_title")
      case Throw => Throw
      case Ok(t) => if rest.Throw? then Throw else Ok([t] + rest.value)
  }

  /** What the orchestrator's prompt is built from. */
  datatype SummaryBrief = SummaryBrief(vendorName: Value, prospectName: Value, vendorIntel: Value, prospectIntel: Value, titles: seq<Value>)

  /** The keys of the summary record. The record is its own dict literal;
      none of the other key lists here is shared with it. */
  function SummaryKeys(): (r: seq<string>)
    ensures Distinct(r) && |r| == 6
  {
    ["executive_summary", "priority_personas", "quick_wins", "success_metrics", "vendor_intelligence", "prospect_intelligence"]
  }

  /** The summary record: the orchestrator's four fields and both packages. */
  function SummaryRecord(reply: Value, names: Value, vendorIntel: Value, prospectIntel: Value): (r: Try<Value>)
    ensures r.Ok? ==> r.value.VDict? && r.value.d.keys == SummaryKeys()
                      && Get(r.value, "priority_personas") == Ok(names)
                      && Get(r.value, "vendor_intelligence") == Ok(vendorIntel)
                      && Get(r.value, "prospect_intelligence") == Ok(prospectIntel)
    ensures r.Ok? <==> HasAttr(reply, "executive_summary") && HasAttr(reply, "quick_wins") && HasAttr(reply, "success_metrics")
  {
    var summary :- Get(reply, "executive_summary");
    var wins :- Get(reply, "quick_wins");
    var metrics :- Get(reply, "success_metrics");
    var ks := SummaryKeys();
    assert ks[1] == "priority_personas" && ks[4] == "vendor_intelligence" && ks[5] == "prospect_intelligence";
    Ok(VDict(DictOf(ks, [summary, names, wins, metrics, vendorIntel, prospectIntel])))
  }

  /** From the orchestrator's reply on: the printed priority list must be
      strings. */
  function SummaryReply(reply: Value, vendorIntel: Value, prospectIntel: Value): (r: Try<StepOutput>)
    ensures r.Ok? ==> r.value.success && Get(reply, "priority_personas").Ok?
                      && StrJoin(", ", Get(reply, "priority_personas").value).Ok?
                      && Get(r.value.content, "priority_personas") == Get(reply, "priority_personas")
                      && Get(r.value.content, "vendor_intelligence") == Ok(vendorIntel)
                      && Get(r.value.content, "prospect_intelligence") == Ok(prospectIntel)
  {
    var names :- Get(reply, "priority_personas");
    var printed :- StrJoin(", ", names);
    var record :- SummaryRecord(reply, names, vendorIntel, prospectIntel);
    Ok(StepOutput(record, true))
  }

  /** The body of the summary stage's `try`, once both packages exist. */
  function SummaryWith(vendorIntel: Value, prospectIntel: Value, targets: Value, orchestrator: SummaryBrief -> Try<Value>): (r: Try<StepOutput>)
    requires Get(vendorIntel, "offerings").Ok? && Get(prospectIntel, "company_profile").Ok?
    ensures r.Ok? ==> r.value.success
                      && Get(r.value.content, "vendor_intelligence") == Ok(vendorIntel)
                      && Get(r.value.content, "prospect_intelligence") == Ok(prospectIntel)
  {
    var count :- Len(targets);
    var vendorName :- SummaryVendorName(vendorIntel);
    var prospectName :- GetOr(Get(prospectIntel, "company_profile").value, "company_name", VStr("the prospect company"));
    var titles :- TitleList(Iter(targets).value);
    var reply :- orchestrator(SummaryBrief(vendorName, prospectName, vendorIntel, prospectIntel, titles));
    SummaryReply(reply, vendorIntel, prospectIntel)
  }

  function SummaryAttempt(el: Elements, buyers: Option<Value>, company: Option<Value>, pains: Option<Value>,
                          orchestrator: SummaryBrief -> Try<Value>): (r: Try<StepOutput>)
    ensures !Present(el.offerings) ==> r == Ok(ErrorResponse(NoVendorResults))
    ensures Present(el.offerings) && VendorIntel(el).Ok? && !Present(buyers) ==> r == Ok(ErrorResponse(NoBuyerPersonas))
    ensures r.Ok? && r.value.success ==>
              && Present(el.offerings) && Present(buyers) && VendorIntel(el).Ok?
              && Get(r.value.content, "vendor_intelligence") == VendorIntel(el)
              && GetOr(buyers.value, "target_buyer_personas", EmptyList).Ok?
              && Get(r.value.content, "prospect_intelligence") == ProspectIntel(company, pains, GetOr(buyers.value, "target_buyer_personas", EmptyList).value)
  {
    if !Present(el.offerings) then Ok(ErrorResponse(NoVendorResults))
    else
      var vendorIntel :- VendorIntel(el);
      if !Present(buyers) then Ok(ErrorResponse(NoBuyerPersonas))
      else
        var targets :- GetOr(buyers.value, "target_buyer_personas", EmptyList);
        var prospectIntel :- ProspectIntel(company, pains, targets);
        assert VendorIntelKeys()[0] == "offerings";
        SummaryWith(vendorIntel, prospectIntel, targets, orchestrator)
  }

  /** `generate_playbook_summary`. It needs the offerings result and the
      buyer-persona result; every other absent input becomes `[]` or `{}`,
      and the summary carries both packages for the later stages. */
  function GeneratePlaybookSummary(el: Elements, buyers: Option<Value>, company: Option<Value>, pains: Option<Value>,
                                   orchestrator: SummaryBrief -> Try<Value>): (r: StepOutput)
    ensures !Present(el.offerings) ==> r == ErrorResponse(NoVendorResults)
    ensures Present(el.offerings) && VendorIntel(el).Ok? && !Present(buyers) ==> r == ErrorResponse(NoBuyerPersonas)
    ensures r.success ==>
              && Present(el.offerings) && Present(buyers) && VendorIntel(el).Ok?
              && Get(r.content, "vendor_intelligence") == VendorIntel(el)
              && GetOr(buyers.value, "target_buyer_personas", EmptyList).Ok?
              && Get(r.content, "prospect_intelligence") == ProspectIntel(company, pains, GetOr(buyers.value, "target_buyer_personas", EmptyList).value)
  {
    Guarded(SummaryAttempt(el, buyers, company, pains, orchestrator), SummaryErrorPrefix)
  }

  /** The customers entry of `vendor_intel` is the customer stage's
      "reference_customers" list; an absent result gives `[]`. */
  lemma SummaryReadsReferenceCustomers(el: Elements)
    requires VendorIntel(el).Ok?
    ensures Get(VendorIntel(el).value, "customers") == OrDefault(el.customers, "reference_customers", EmptyList)
    ensures !Present(el.customers) ==> Get(VendorIntel(el).value, "customers") == Ok(EmptyList)
    ensures !Present(el.useCases) ==> Get(VendorIntel(el).value, "use_cases") == Ok(EmptyList)
  {
    assert VendorIntelKeys()[7] == "customers" && VendorSources(el)[7] == el.customers;
    assert VendorIntelKeys()[3] == "use_cases" && VendorSources(el)[3] == el.useCases;
  }

  // ------------------------------------------------------ per-persona specialists (8b, 8c)

  datatype Component = EmailSequences | TalkTracks {
    /** The reply attribute read and the output key written. */
    function Key(): string {
      if EmailSequences? then "email_sequences" else "talk_tracks"
    }
    function ErrorPrefix(): string {
      if EmailSequences? then "Error generating email sequences: " else "Error generating talk tracks: "
    }
  }

  /** What a specialist's prompt is built from: the matched persona, the
      vendor package and the prospect context (for emails the company name,
      industry and pain points; for talk tracks the whole package). */
  datatype Brief = Brief(persona: Value, vendorIntel: Value, context: seq<Value>)

  /** The fixed inputs of one specialist run. */
  datatype Inputs = Inputs(personas: Value, vendorIntel: Value, prospectIntel: Value)

  /** The similarity measure and threshold the resolver uses. */
  datatype Resolver = Resolver(ratio: (string, string) -> real, threshold: real)

  /** The prospect context of a prompt. */
  function Context(c: Component, prospectIntel: Value): Try<seq<Value>> {
    if c.TalkTracks? then Ok([prospectIntel])
    else
      var profile :- Get(prospectIntel, "company_profile");
      var name :- GetOr(profile, "company_name", VNone);
      var industry :- GetOr(profile, "industry", VNone);
      var pains :- Get(prospectIntel, "pain_points");
      Ok([name, industry, pains])
  }

  /** One iteration of the loop: what a priority title contributes. An
      unmatched title contributes nothing and the writer is not called. */
  function PersonaItems(c: Component, title: Value, inp: Inputs, res: Resolver, writer: Brief -> Try<Value>): Try<seq<Value>> {
    var found :- FindMatchingPersona(title, inp.personas, res.ratio, res.threshold);
    if !Present(found) then Ok([])
    else
      var context :- Context(c, inp.prospectIntel);
      var reply :- writer(Brief(found.value, inp.vendorIntel, context));
      var items :- Get(reply, c.Key());
      Iter(items)
  }

  /** A title the resolver cannot match contributes nothing. */
  lemma UnmatchedTitle(c: Component, title: Value, inp: Inputs, res: Resolver, writer: Brief -> Try<Value>)
    requires FindMatchingPersona(title, inp.personas, res.ratio, res.threshold) == Ok(None)
    ensures PersonaItems(c, title, inp, res, writer) == Ok([])
  {
  }

  /** A matched title contributes the writer's items for the matched persona. */
  lemma MatchedTitle(c: Component, title: Value, inp: Inputs, res: Resolver, writer: Brief -> Try<Value>, persona: Value, reply: Value)
    requires FindMatchingPersona(title, inp.personas, res.ratio, res.threshold) == Ok(Some(persona)) && Truthy(persona)
    requires Context(c, inp.prospectIntel).Ok?
    requires writer(Brief(persona, inp.vendorIntel, Context(c, inp.prospectIntel).value)) == Ok(reply)
    requires HasAttr(reply, c.Key()) && reply.d.vals[c.Key()].VList?
    ensures PersonaItems(c, title, inp, res, writer) == Ok(reply.d.vals[c.Key()].items)
  {
  }

  /** The per-title contribution as a function of the title alone. */
  function Items(c: Component, inp: Inputs, res: Resolver, writer: Brief -> Try<Value>): Value -> Try<seq<Value>> {
    t => PersonaItems(c, t, inp, res, writer)
  }

  /** `Ok(x) ++ Ok(y) == Ok(x + y)`; an exception on either side wins. */
  function Concat(a: Try<seq<Value>>, b: Try<seq<Value>>): Try<seq<Value>> {
    if a.Throw? || b.Throw? then Throw else Ok(a.value + b.value)
  }

  /** A list built by extending with each element's contribution, in order;
      the first exception ends it. */
  function Collect(step: Value -> Try<seq<Value>>, xs: seq<Value>): Try<seq<Value>>
    decreases |xs|
  {
    if xs == [] then Ok([])
    else Concat(Collect(step, xs[..|xs| - 1]), step(xs[|xs| - 1]))
  }

  /** Collecting over a concatenation concatenates the results. */
  lemma {:induction false} CollectAppend(step: Value -> Try<seq<Value>>, a: seq<Value>, b: seq<Value>)
    ensures Collect(step, a + b) == Concat(Collect(step, a), Collect(step, b))
    decreases |b|
  {
    if b == [] {
      assert a + b == a;
      var x := Collect(step, a);
      if x.Ok? {
        assert x.value + [] == x.value;
      }
    } else {
      var n := |b| - 1;
      assert (a + b)[..|a + b| - 1] == a + b[..n];
      assert (a + b)[|a + b| - 1] == b[n];
      CollectAppend(step, a, b[..n]);
      var x, y, z := Collect(step, a), Collect(step, b[..n]), step(b[n]);
      if x.Ok? && y.Ok? && z.Ok? {
        assert x.value + y.value + z.value == x.value + (y.value + z.value);
      }
    }
  }

  /** Elements contributing nothing leave the list empty. */
  lemma {:induction false} CollectNothing(step: Value -> Try<seq<Value>>, xs: seq<Value>)
    requires forall i :: 0 <= i < |xs| ==> step(xs[i]) == Ok([])
    ensures Collect(step, xs) == Ok([])
    decreases |xs|
  {
    if xs != [] {
      var n := |xs| - 1;
      assert forall i :: 0 <= i < n ==> xs[..n][i] == xs[i];
      CollectNothing(step, xs[..n]);
      var none: seq<Value> := [];
      assert none + none == none;
    }
  }

  /** The list the specialist's loop builds over `titles`. */
  function Generated(c: Component, titles: seq<Value>, inp: Inputs, res: Resolver, writer: Brief -> Try<Value>): Try<seq<Value>> {
    Collect(Items(c, inp, res, writer), titles)
  }

  /** The output for a concatenation of title lists is the concatenation
      of the outputs, and one title contributes exactly its own items. */
  lemma GeneratedAppend(c: Component, a: seq<Value>, b: seq<Value>, t: Value, inp: Inputs, res: Resolver, writer: Brief -> Try<Value>)
    ensures Generated(c, a + b, inp, res, writer) == Concat(Generated(c, a, inp, res, writer), Generated(c, b, inp, res, writer))
    ensures Generated(c, [t], inp, res, writer) == PersonaItems(c, t, inp, res, writer)
  {
    CollectAppend(Items(c, inp, res, writer), a, b);
    assert [t][..0] == [];
    var step := Items(c, inp, res, writer);
    var p := PersonaItems(c, t, inp, res, writer);
    assert step(t) == p;
    assert Collect(step, [t][..0]) == Ok([]);
    assert Collect(step, [t]) == Concat(Ok([]), p);
    if p.Ok? {
      assert [] + p.value == p.value;
    }
  }

  /** Titles that resolve to no persona yield an empty list, whatever the
      writer would have said. */
  lemma UnmatchedYieldNothing(c: Component, titles: seq<Value>, inp: Inputs, res: Resolver, writer: Brief -> Try<Value>)
    requires forall i :: 0 <= i < |titles| ==> FindMatchingPersona(titles[i], inp.personas, res.ratio, res.threshold) == Ok(None)
    ensures Generated(c, titles, inp, res, writer) == Ok([])
  {
    forall i | 0 <= i < |titles|
      ensures Items(c, inp, res, writer)(titles[i]) == Ok([])
    {
      UnmatchedTitle(c, titles[i], inp, res, writer);
    }
    CollectNothing(Items(c, inp, res, writer), titles);
  }

  /** One iteration of the source's loop body. */
  method PersonaItemsStep(c: Component, title: Value, inp: Inputs, res: Resolver, writer: Brief -> Try<Value>)
    returns (r: Try<seq<Value>>)
    ensures r == PersonaItems(c, title, inp, res, writer)
  {
    var found := FindMatchingPersonaLoop(title, inp.personas, res.ratio, res.threshold);
    if found.Throw? {
      return Throw;
    }
    if !Present(found.value) {
      return Ok([]);
    }
    var context := Context(c, inp.prospectIntel);
    if context.Throw? {
      return Throw;
    }
    var reply := writer(Brief(found.value.value, inp.vendorIntel, context.value));
    if reply.Throw? {
      return Throw;
    }
    var items := Get(reply.value, c.Key());
    if items.Throw? {
      return Throw;
    }
    r := Iter(items.value);
  }

  /** The loop as the source writes it: resolve each title, skip the
      unmatched ones, and extend the output with the writer's items. */
  method GenerateLoop(c: Component, titles: seq<Value>, inp: Inputs, res: Resolver, writer: Brief -> Try<Value>)
    returns (r: Try<seq<Value>>)
    ensures r == Generated(c, titles, inp, res, writer)
  {
    var produced: seq<Value> := [];
    var i := 0;
    while i < |titles|
      invariant 0 <= i <= |titles|
      invariant Generated(c, titles[..i], inp, res, writer) == Ok(produced)
    {
      assert titles[..i + 1][..i] == titles[..i];
      assert titles[..i + 1][i] == titles[i];
      assert Items(c, inp, res, writer)(titles[i]) == PersonaItems(c, titles[i], inp, res, writer);
      var items := PersonaItemsStep(c, titles[i], inp, res, writer);
      if items.Throw? {
        assert titles == titles[..i + 1] + titles[i + 1..];
        CollectAppend(Items(c, inp, res, writer), titles[..i + 1], titles[i + 1..]);
        return Throw;
      }
      produced := produced + items.value;
      i := i + 1;
    }
    assert titles[..i] == titles;
    return Ok(produced);
  }

  /** The titles served and the fixed inputs, read from the summary. */
  function Plan(summary: Value, priority: Value): (r: Try<(seq<Value>, Inputs)>)
    ensures r.Ok? && priority.VList? ==> r.value.0 == Take(priority.items, TopPersonas)
    ensures r.Ok? ==> |r.value.0| <= TopPersonas
  {
    var top :- Slice(priority, TopPersonas);
    var vendorIntel :- Get(summary, "vendor_intelligence");
    var prospectIntel :- Get(summary, "prospect_intelligence");
    var personas :- Get(prospectIntel, "target_buyer_personas");
    var titles :- Iter(top);
    Ok((titles, Inputs(personas, vendorIntel, prospectIntel)))
  }

  /** From the plan on: the records are dumped under the component's key. */
  function Produce(c: Component, summary: Value, priority: Value, res: Resolver, writer: Brief -> Try<Value>): (r: Try<StepOutput>)
    ensures r.Ok? ==> r.value.success && Plan(summary, priority).Ok?
                      && var p := Plan(summary, priority).value;
                         Generated(c, p.0, p.1, res, writer).Ok?
                         && r.value.content == Single(c.Key(), VList(Generated(c, p.0, p.1, res, writer).value))
  {
    var p :- Plan(summary, priority);
    var produced :- Generated(c, p.0, p.1, res, writer);
    var dumped :- ModelDumps(VList(produced));
    Ok(StepOutput(Single(c.Key(), VList(dumped)), true))
  }

  function ComponentAttempt(c: Component, summary: Option<Value>, res: Resolver, writer: Brief -> Try<Value>): Try<StepOutput> {
    if !Present(summary) then Ok(ErrorResponse(NoSummary))
    else if c.EmailSequences? then
      var priority :- GetOr(summary.value, "priority_personas", VNone);
      if !Truthy(priority) then Ok(ErrorResponse(NoSummary))
      else Produce(c, summary.value, priority, res, writer)
    else
      var priority :- Get(summary.value, "priority_personas");
      Produce(c, summary.value, priority, res, writer)
  }

  /** `generate_email_sequences` and `generate_talk_tracks`. Both need a
      summary; only the email stage also needs a non-empty priority list.
      On success the output is the loop's list over the first three
      priority titles. */
  function GenerateComponent(c: Component, summary: Option<Value>, res: Resolver, writer: Brief -> Try<Value>): (r: StepOutput)
    ensures !Present(summary) ==> r == ErrorResponse(NoSummary)
    ensures (c.EmailSequences? && Present(summary) && summary.value.VDict?
             && !Truthy(Entry(summary.value.d, "priority_personas"))) ==> r == ErrorResponse(NoSummary)
    ensures r.success && r != ErrorResponse(NoSummary) ==>
              Present(summary) && Get(summary.value, "priority_personas").Ok?
              && var priority := Get(summary.value, "priority_personas").value;
                 (c.EmailSequences? ==> Truthy(priority))
                 && Plan(summary.value, priority).Ok?
                 && var p := Plan(summary.value, priority).value;
                    Generated(c, p.0, p.1, res, writer).Ok?
                    && r.content == Single(c.Key(), VList(Generated(c, p.0, p.1, res, writer).value))
  {
    Guarded(ComponentAttempt(c, summary, res, writer), c.ErrorPrefix())
  }

  /** A summary with the keys the specialists read. */
  predicate Readable(summary: Value) {
    summary.VDict? && Truthy(summary) && HasAttr(summary, "priority_personas") && HasAttr(summary, "vendor_intelligence")
    && HasAttr(summary, "prospect_intelligence")
    && HasAttr(summary.d.vals["prospect_intelligence"], "target_buyer_personas")
  }

  /** With an empty priority list the talk-track stage succeeds with no
      tracks, while the email stage reports a missing summary. */
  lemma EmptyPriorityList(summary: Value, res: Resolver, writer: Brief -> Try<Value>)
    requires Readable(summary) && summary.d.vals["priority_personas"] == EmptyList
    ensures GenerateComponent(TalkTracks, Some(summary), res, writer) == StepOutput(Single("talk_tracks", EmptyList), true)
    ensures GenerateComponent(EmailSequences, Some(summary), res, writer) == ErrorResponse(NoSummary)
  {
    var pi := summary.d.vals["prospect_intelligence"];
    var inp := Inputs(pi.d.vals["target_buyer_personas"], summary.d.vals["vendor_intelligence"], pi);
    var none: seq<Value> := [];
    assert Take(none, TopPersonas) == none;
    assert Plan(summary, EmptyList) == Ok(([], inp));
    assert Generated(TalkTracks, [], inp, res, writer) == Ok([]);
    assert Produce(TalkTracks, summary, EmptyList, res, writer) == Ok(StepOutput(Single("talk_tracks", EmptyList), true));
  }

  // ------------------------------------------------------ battle cards (8d)

  /** Every card carries the two fields the stage prints. */
  predicate Titled(cards: seq<Value>) {
    forall i :: 0 <= i < |cards| ==> HasAttr(cards[i], "title") && HasAttr(cards[i], "card_type")
  }

  function CardsFrom(reply: Value): (r: Try<StepOutput>)
    ensures r.Ok? ==> r.value.success && Get(reply, "battle_cards").Ok? && Iter(Get(reply, "battle_cards").value).Ok?
                      && Titled(Iter(Get(reply, "battle_cards").value).value)
                      && r.value.content == Single("battle_cards", VList(Iter(Get(reply, "battle_cards").value).value))
  {
    var cards :- Get(reply, "battle_cards");
    var count :- Len(cards);
    if !Titled(Iter(cards).value) then Throw
    else
      var dumped :- ModelDumps(cards);
      Ok(StepOutput(Single("battle_cards", VList(dumped)), true))
  }

  function BattleAttempt(summary: Option<Value>, builder: (Value, Value) -> Try<Value>): Try<StepOutput> {
    if !Present(summary) then Ok(ErrorResponse(NoSummary))
    else
      var vendorIntel :- Get(summary.value, "vendor_intelligence");
      var prospectIntel :- Get(summary.value, "prospect_intelligence");
      var reply :- builder(vendorIntel, prospectIntel);
      CardsFrom(reply)
  }

  /** `generate_battle_cards`: the builder sees both packages of the
      summary; every card it returns is reported. */
  function GenerateBattleCards(summary: Option<Value>, builder: (Value, Value) -> Try<Value>): (r: StepOutput)
    ensures !Present(summary) ==> r == ErrorResponse(NoSummary)
    ensures r.success ==>
              Present(summary) && Get(summary.value, "vendor_intelligence").Ok? && Get(summary.value, "prospect_intelligence").Ok?
              && var reply := builder(Get(summary.value, "vendor_intelligence").value, Get(summary.value, "prospect_intelligence").value);
                 reply.Ok? && Get(reply.value, "battle_cards").Ok? && Iter(Get(reply.value, "battle_cards").value).Ok?
                 && Titled(Iter(Get(reply.value, "battle_cards").value).value)
                 && r.content == Single("battle_cards", VList(Iter(Get(reply.value, "battle_cards").value).value))
  {
    Guarded(BattleAttempt(summary, builder), BattleErrorPrefix)
  }

  // ------------------------------------------------------ assembly (8e)

  function PlaybookKeys(): (r: seq<string>)
    ensures Distinct(r) && |r| == 10
  {
    ["vendor_name", "prospect_name", "generated_date", "executive_summary", "priority_personas",
     "quick_wins", "success_metrics", "email_sequences", "talk_tracks", "battle_cards"]
  }

  /** The assembled playbook, field by field. */
  function PlaybookRecord(vendorName: Value, prospectName: Value, date: string, summary: Value, priority: Value,
                          wins: Value, metrics: Value, emails: Value, tracks: Value, cards: Value): (r: Value)
    ensures r.VDict? && r.d.keys == PlaybookKeys()
    ensures Get(r, "vendor_name") == Ok(vendorName) && Get(r, "prospect_name") == Ok(prospectName)
    ensures Get(r, "generated_date") == Ok(VStr(date))
    ensures Get(r, "executive_summary") == Ok(summary) && Get(r, "priority_personas") == Ok(priority)
    ensures Get(r, "quick_wins") == Ok(wins) && Get(r, "success_metrics") == Ok(metrics)
    ensures Get(r, "email_sequences") == Ok(emails) && Get(r, "talk_tracks") == Ok(tracks) && Get(r, "battle_cards") == Ok(cards)
  {
    var ks := PlaybookKeys();
    assert ks[0] == "vendor_name" && ks[1] == "prospect_name" && ks[2] == "generated_date" && ks[3] == "executive_summary";
    assert ks[4] == "priority_personas" && ks[5] == "quick_wins" && ks[6] == "success_metrics";
    assert ks[7] == "email_sequences" && ks[8] == "talk_tracks" && ks[9] == "battle_cards";
    VDict(DictOf(ks, [vendorName, prospectName, VStr(date), summary, priority, wins, metrics, emails, tracks, cards]))
  }

  /** `offerings[0]["name"]` when there are offerings, else "Vendor". */
  function AssembledVendorName(vendorIntel: Value): (r: Try<Value>)
    ensures GetOr(vendorIntel, "offerings", VNone).Ok? && !Truthy(GetOr(vendorIntel, "offerings", VNone).value) ==> r == Ok(VStr("Vendor"))
    ensures HasAttr(vendorIntel, "offerings") && vendorIntel.d.vals["offerings"].VList? && vendorIntel.d.vals["offerings"].items != [] ==>
              r == Get(vendorIntel.d.vals["offerings"].items[0], "name")
  {
    var offerings :- GetOr(vendorIntel, "offerings", VNone);
    if !Truthy(offerings) then Ok(VStr("Vendor"))
    else
      var first :- First(offerings);
      Get(first, "name")
  }

  /** The components, each `[]` when its stage gave nothing. */
  datatype Components = Components(emails: Value, tracks: Value, cards: Value)

  function ComponentLists(emails: Option<Value>, tracks: Option<Value>, cards: Option<Value>): (r: Try<Components>)
    ensures r.Ok? ==> Ok(r.value.emails) == OrDefault(emails, "email_sequences", EmptyList)
                      && Ok(r.value.tracks) == OrDefault(tracks, "talk_tracks", EmptyList)
                      && Ok(r.value.cards) == OrDefault(cards, "battle_cards", EmptyList)
    ensures r.Ok? <==> OrDefault(emails, "email_sequences", EmptyList).Ok? && OrDefault(tracks, "talk_tracks", EmptyList).Ok?
                       && OrDefault(cards, "battle_cards", EmptyList).Ok?
  {
    var e :- OrDefault(emails, "email_sequences", EmptyList);
    var t :- OrDefault(tracks, "talk_tracks", EmptyList);
    var b :- OrDefault(cards, "battle_cards", EmptyList);
    Ok(Components(e, t, b))
  }

  /** The body of the assembly's `try` once both guards have passed. */
  function AssembleFrom(summary: Value, parts: Components, today: string): Try<StepOutput> {
    var vendorIntel :- Get(summary, "vendor_intelligence");
    var vendorName :- AssembledVendorName(vendorIntel);
    var prospectIntel :- Get(summary, "prospect_intelligence");
    var profile :- Get(prospectIntel, "company_profile");
    var prospectName :- GetOr(profile, "company_name", VStr("Prospect"));
    var executive :- Get(summary, "executive_summary");
    var priority :- Get(summary, "priority_personas");
    var wins :- Get(summary, "quick_wins");
    var metrics :- Get(summary, "success_metrics");
    var c1 :- Len(priority);
    var c2 :- Len(parts.emails);
    var c3 :- Len(parts.tracks);
    var c4 :- Len(parts.cards);
    var c5 :- Len(wins);
    Ok(StepOutput(Single("sales_playbook",
      PlaybookRecord(vendorName, prospectName, today, executive, priority, wins, metrics, parts.emails, parts.tracks, parts.cards)), true))
  }

  function AssembleAttempt(emails: Option<Value>, tracks: Option<Value>, cards: Option<Value>, summary: Option<Value>, today: string): Try<StepOutput> {
    if !Present(emails) && !Present(tracks) && !Present(cards) then Ok(ErrorResponse(NoComponents))
    else if !Present(summary) then Ok(ErrorResponse(NoSummary))
    else
      var parts :- ComponentLists(emails, tracks, cards);
      AssembleFrom(summary.value, parts, today)
  }

  /** `assemble_final_playbook`, with today's date as a parameter. */
  function AssembleFinalPlaybook(emails: Option<Value>, tracks: Option<Value>, cards: Option<Value>, summary: Option<Value>, today: string): (r: StepOutput)
    ensures !Present(emails) && !Present(tracks) && !Present(cards) ==> r == ErrorResponse(NoComponents)
    ensures (Present(emails) || Present(tracks) || Present(cards)) && !Present(summary) ==> r == ErrorResponse(NoSummary)
    ensures r.success ==>
              (Present(emails) || Present(tracks) || Present(cards)) && Present(summary)
              && ComponentLists(emails, tracks, cards).Ok?
              && AssembleFrom(summary.value, ComponentLists(emails, tracks, cards).value, today) == Ok(r)
  {
    Guarded(AssembleAttempt(emails, tracks, cards, summary, today), AssembleErrorPrefix)
  }

  /** A successful assembly is dated today, and every component whose
      stage gave nothing is an empty list. */
  lemma AssembledPlaybook(emails: Option<Value>, tracks: Option<Value>, cards: Option<Value>, summary: Option<Value>, today: string)
    requires AssembleFinalPlaybook(emails, tracks, cards, summary, today).success
    ensures var book := Get(AssembleFinalPlaybook(emails, tracks, cards, summary, today).content, "sales_playbook");
            && book.Ok?
            && Get(book.value, "generated_date") == Ok(VStr(today))
            && (!Present(emails) ==> Get(book.value, "email_sequences") == Ok(EmptyList))
            && (!Present(tracks) ==> Get(book.value, "talk_tracks") == Ok(EmptyList))
            && (!Present(cards) ==> Get(book.value, "battle_cards") == Ok(EmptyList))
            && Get(book.value, "priority_personas") == Get(summary.value, "priority_personas")
  {
  }

  /** With no offerings the vendor is called "Vendor", and with no company
      name the prospect is called "Prospect". */
  lemma AssembledNameDefaults(emails: Option<Value>, tracks: Option<Value>, cards: Option<Value>, summary: Option<Value>, today: string)
    requires AssembleFinalPlaybook(emails, tracks, cards, summary, today).success
    requires Get(Get(summary.value, "vendor_intelligence").value, "offerings") == Ok(EmptyList)
    requires "company_name" !in Get(Get(summary.value, "prospect_intelligence").value, "company_profile").value.d.vals
    ensures var book := Get(AssembleFinalPlaybook(emails, tracks, cards, summary, today).content, "sales_playbook");
            book.Ok? && Get(book.value, "vendor_name") == Ok(VStr("Vendor")) && Get(book.value, "prospect_name") == Ok(VStr("Prospect"))
  {
  }
}
