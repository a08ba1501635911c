/** What `main` does with a finished run: it gathers the stage results by
    name, merges them into the research files, builds the playbook and the
    metadata. Each file is modelled as the JSON value it would hold; the
    writing itself is not modelled. */
module Artifacts {
  import opened Values
  import opened Results
  import W = Workflows
  import E = Execution
  import X = VendorExtraction

  /** `x.get(k, dflt) if isinstance(x, dict) else other`. */
  function Field(x: Value, k: string, dflt: Value, other: Value): (r: Value)
    ensures x.VDict? && k in x.d.vals ==> r == x.d.vals[k]
    ensures x.VDict? && k !in x.d.vals ==> r == dflt
    ensures !x.VDict? ==> r == other
  {
    if !x.VDict? then other else if k in x.d.vals then x.d.vals[k] else dflt
  }

  /** `d.get(k, dflt)` on a dict. */
  function DictGet(d: ODict<Value>, k: string, dflt: Value): Value {
    if k in d.vals then d.vals[k] else dflt
  }

  /** The results `main` reads back, each `... or {}`. */
  datatype Gathered = Gathered(
    offerings: Value, caseStudies: Value, proofPoints: Value, valueProps: Value,
    customers: Value, useCases: Value, personas: Value, differentiators: Value,
    company: Value, pains: Value, buyers: Value,
    summary: Value, emails: Value, tracks: Value, cards: Value, final: Value)

  /** The lookups by group and member name, or by stage name. */
  function Gather(recs: seq<StepRecord>): Gathered {
    Gathered(
      OrEmptyDict(E.Read(recs, W.ExtractOfferings)), OrEmptyDict(E.Read(recs, W.ExtractCaseStudies)),
      OrEmptyDict(E.Read(recs, W.ExtractProofPoints)), OrEmptyDict(E.Read(recs, W.ExtractValueProps)),
      OrEmptyDict(E.Read(recs, W.ExtractCustomers)), OrEmptyDict(E.Read(recs, W.ExtractUseCases)),
      OrEmptyDict(E.Read(recs, W.ExtractPersonas)), OrEmptyDict(E.Read(recs, W.ExtractDifferentiators)),
      OrEmptyDict(E.Read(recs, W.AnalyzeCompany)), OrEmptyDict(E.Read(recs, W.AnalyzePainPoints)),
      OrEmptyDict(E.Read(recs, W.IdentifyBuyerPersonas)),
      OrEmptyDict(E.Read(recs, W.GenerateSummary)), OrEmptyDict(E.Read(recs, W.GenerateEmails)),
      OrEmptyDict(E.Read(recs, W.GenerateTalkTracks)), OrEmptyDict(E.Read(recs, W.GenerateBattleCards)),
      OrEmptyDict(E.Read(recs, W.AssemblePlaybook)))
  }

  /** The result of `t` as `main` reads it back from a finished run. */
  function Result(recs: seq<StepRecord>, t: W.Stage): Value {
    OrEmptyDict(Some(E.Produced(recs, t)))
  }

  /** After a complete run of the main pipeline, every lookup finds what
      its stage left. */
  lemma GatherFindsStageResults(recs: seq<StepRecord>, exec: E.StageFn)
    requires E.Consistent(W.Pipeline, recs, exec) && |recs| == |W.Pipeline|
    ensures Gather(recs) == Gathered(
              Result(recs, W.ExtractOfferings), Result(recs, W.ExtractCaseStudies),
              Result(recs, W.ExtractProofPoints), Result(recs, W.ExtractValueProps),
              Result(recs, W.ExtractCustomers), Result(recs, W.ExtractUseCases),
              Result(recs, W.ExtractPersonas), Result(recs, W.ExtractDifferentiators),
              Result(recs, W.AnalyzeCompany), Result(recs, W.AnalyzePainPoints),
              Result(recs, W.IdentifyBuyerPersonas),
              Result(recs, W.GenerateSummary), Result(recs, W.GenerateEmails),
              Result(recs, W.GenerateTalkTracks), Result(recs, W.GenerateBattleCards),
              Result(recs, W.AssemblePlaybook))
  {
    var n := |recs|;
    assert recs[..n] == recs;
    E.Addressed(recs, exec, n, W.ExtractOfferings);
    E.Addressed(recs, exec, n, W.ExtractCaseStudies);
    E.Addressed(recs, exec, n, W.ExtractProofPoints);
    E.Addressed(recs, exec, n, W.ExtractValueProps);
    E.Addressed(recs, exec, n, W.ExtractCustomers);
    E.Addressed(recs, exec, n, W.ExtractUseCases);
    E.Addressed(recs, exec, n, W.ExtractPersonas);
    E.Addressed(recs, exec, n, W.ExtractDifferentiators);
    E.Addressed(recs, exec, n, W.AnalyzeCompany);
    E.Addressed(recs, exec, n, W.AnalyzePainPoints);
    E.Addressed(recs, exec, n, W.IdentifyBuyerPersonas);
    E.Addressed(recs, exec, n, W.GenerateSummary);
    E.Addressed(recs, exec, n, W.GenerateEmails);
    E.Addressed(recs, exec, n, W.GenerateTalkTracks);
    E.Addressed(recs, exec, n, W.GenerateBattleCards);
    E.Addressed(recs, exec, n, W.AssemblePlaybook);
  }

  // ---------------------------------------------------------------- research files

  function EvidenceKeys(): (r: seq<string>)
    ensures r == ["case_studies", "proof_points", "customers"] && Distinct(r)
  {
    ["case_studies", "proof_points", "customers"]
  }

  /** `customer_evidence.json` as written: the customers list is read under
      "customers". */
  function CustomerEvidenceAsWritten(g: Gathered): (r: Value)
    ensures r.VDict? && r.d.keys == EvidenceKeys()
    ensures Get(r, "customers") == Ok(Field(g.customers, "customers", EmptyList, EmptyList))
  {
    var vals := [Field(g.caseStudies, "case_studies", EmptyList, EmptyList),
                 Field(g.proofPoints, "proof_points", EmptyList, EmptyList),
                 Field(g.customers, "customers", EmptyList, EmptyList)];
    VDict(DictOf(EvidenceKeys(), vals))
  }

  /** The customer stage's output never holds a "customers" entry, so the
      file's customers list is always empty. */
  lemma CustomersNeverCopied(g: Gathered, scrape: Option<Value>, agent: string -> Try<Value>)
    requires g.customers == OrEmptyDict(Some(X.Extract(X.Customers, scrape, agent).content))
    ensures Get(CustomerEvidenceAsWritten(g), "customers") == Ok(EmptyList)
  {
    X.OutputKeys(X.Customers, scrape, agent);
  }

  /** `customer_evidence.json` reading the key the customer stage writes:
      each list is its stage's list, or `[]` when that result is not a dict
      or lacks it. */
  function CustomerEvidence(g: Gathered): (r: Value)
    ensures r.VDict? && r.d.keys == EvidenceKeys()
    ensures Get(r, "case_studies") == Ok(Field(g.caseStudies, "case_studies", EmptyList, EmptyList))
    ensures Get(r, "proof_points") == Ok(Field(g.proofPoints, "proof_points", EmptyList, EmptyList))
    ensures Get(r, "customers") == Ok(Field(g.customers, X.Customers.key, EmptyList, EmptyList))
  {
    var ks := EvidenceKeys();
    assert ks[0] == "case_studies" && ks[1] == "proof_points" && ks[2] == "customers";
    var vals := [Field(g.caseStudies, "case_studies", EmptyList, EmptyList),
                 Field(g.proofPoints, "proof_points", EmptyList, EmptyList),
                 Field(g.customers, X.Customers.key, EmptyList, EmptyList)];
    VDict(DictOf(ks, vals))
  }

  /** With the corrected key, the customers the stage extracted reach the file. */
  lemma CustomersCopied(g: Gathered, scrape: Option<Value>, agent: string -> Try<Value>, customers: Value)
    requires X.Extract(X.Customers, scrape, agent).content == Single(X.Customers.key, customers)
    requires g.customers == OrEmptyDict(Some(X.Extract(X.Customers, scrape, agent).content))
    ensures Get(CustomerEvidence(g), "customers") == Ok(customers)
  {
  }

  function PositioningKeys(): (r: seq<string>)
    ensures r == ["differentiators", "value_propositions"] && Distinct(r)
  {
    ["differentiators", "value_propositions"]
  }

  /** `positioning.json`. */
  function Positioning(g: Gathered): (r: Value)
    ensures r.VDict? && r.d.keys == PositioningKeys()
    ensures Get(r, "differentiators") == Ok(Field(g.differentiators, X.Differentiators.key, EmptyList, EmptyList))
    ensures Get(r, "value_propositions") == Ok(Field(g.valueProps, X.ValueProps.key, EmptyList, EmptyList))
  {
    var ks := PositioningKeys();
    assert ks[0] == "differentiators" && ks[1] == "value_propositions";
    VDict(DictOf(ks, [Field(g.differentiators, "differentiators", EmptyList, EmptyList),
                      Field(g.valueProps, "value_propositions", EmptyList, EmptyList)]))
  }

  /** The keys of `analysis.json`. The file spells its own dict; its persona
      entry is "buyer_personas", not the "target_buyer_personas" of step 8. */
  function AnalysisKeys(): (r: seq<string>)
    ensures r == ["company_profile", "pain_points", "buyer_personas"] && Distinct(r)
  {
    ["company_profile", "pain_points", "buyer_personas"]
  }

  /** `research/prospect/analysis.json`: the company profile falls back to
      the whole result when it has no "company_profile" entry. */
  function ProspectFile(g: Gathered): (r: Value)
    ensures r.VDict? && r.d.keys == AnalysisKeys()
    ensures Get(r, "company_profile") == Ok(Field(g.company, "company_profile", g.company, EmptyDict))
    ensures Get(r, "pain_points") == Ok(Field(g.pains, "pain_points", EmptyList, EmptyList))
    ensures Get(r, "buyer_personas") == Ok(Field(g.buyers, "target_buyer_personas", EmptyList, EmptyList))
  {
    var ks := AnalysisKeys();
    assert ks[0] == "company_profile" && ks[1] == "pain_points" && ks[2] == "buyer_personas";
    VDict(DictOf(ks, [Field(g.company, "company_profile", g.company, EmptyDict),
                      Field(g.pains, "pain_points", EmptyList, EmptyList),
                      Field(g.buyers, "target_buyer_personas", EmptyList, EmptyList)]))
  }

  /** Each research list is `[]` when its source result is not a dict. */
  lemma ResearchDefaults(g: Gathered)
    ensures !g.caseStudies.VDict? ==> Get(CustomerEvidence(g), "case_studies") == Ok(EmptyList)
    ensures !g.proofPoints.VDict? ==> Get(CustomerEvidence(g), "proof_points") == Ok(EmptyList)
    ensures !g.customers.VDict? ==> Get(CustomerEvidence(g), "customers") == Ok(EmptyList)
    ensures !g.differentiators.VDict? ==> Get(Positioning(g), "differentiators") == Ok(EmptyList)
    ensures !g.valueProps.VDict? ==> Get(Positioning(g), "value_propositions") == Ok(EmptyList)
    ensures !g.company.VDict? ==> Get(ProspectFile(g), "company_profile") == Ok(EmptyDict)
    ensures g.company.VDict? && "company_profile" !in g.company.d.vals ==> Get(ProspectFile(g), "company_profile") == Ok(g.company)
    ensures !g.pains.VDict? ==> Get(ProspectFile(g), "pain_points") == Ok(EmptyList)
    ensures !g.buyers.VDict? ==> Get(ProspectFile(g), "buyer_personas") == Ok(EmptyList)
  {
  }

  const VendorDir := "research/vendor"
  const ProspectDir := "research/prospect"
  const VendorFiles := ["offerings.json", "customer_evidence.json", "positioning.json", "personas.json", "use_cases.json"]
  const ProspectFiles := ["analysis.json"]

  /** The paths `dir/name` of the files in a directory. */
  function InDir(dir: string, names: seq<string>): (r: seq<string>)
    ensures |r| == |names| && forall k :: 0 <= k < |names| ==> r[k] == dir + "/" + names[k]
  {
    seq(|names|, k requires 0 <= k < |names| => dir + "/" + names[k])
  }

  /** The research files the metadata lists, relative to the run directory. */
  function Manifest(): seq<string> {
    InDir(VendorDir, VendorFiles) + InDir(ProspectDir, ProspectFiles)
  }

  /** The paths `main` writes the research files to: exactly the files the
      metadata's manifest lists, under the run directory. */
  function ResearchPaths(runDir: string): (r: seq<string>)
    ensures |r| == |Manifest()| && forall k :: 0 <= k < |r| ==> r[k] == runDir + "/" + Manifest()[k]
  {
    var vendorDir := runDir + "/" + VendorDir;
    var prospectDir := runDir + "/" + ProspectDir;
    var r := [vendorDir + "/" + VendorFiles[0], vendorDir + "/" + VendorFiles[1], vendorDir + "/" + VendorFiles[2],
              vendorDir + "/" + VendorFiles[3], vendorDir + "/" + VendorFiles[4], prospectDir + "/" + ProspectFiles[0]];
    forall k | 0 <= k < |r|
      ensures r[k] == runDir + "/" + Manifest()[k]
    {
      if k < 5 {
        assert Manifest()[k] == VendorDir + "/" + VendorFiles[k];
        assert r[k] == vendorDir + "/" + VendorFiles[k];
      } else {
        assert Manifest()[k] == ProspectDir + "/" + ProspectFiles[0];
      }
    }
    r
  }

  /** The research files: offerings, personas and use cases written as
      gathered, and the three merged files as built above (customer evidence
      with the corrected key), each at its manifest path. */
  function ResearchFiles(runDir: string, g: Gathered): (r: seq<(string, Value)>)
    ensures |r| == |Manifest()| && forall k :: 0 <= k < |r| ==> r[k].0 == runDir + "/" + Manifest()[k]
    ensures r[0].1 == g.offerings && r[1].1 == CustomerEvidence(g) && r[2].1 == Positioning(g)
            && r[3].1 == g.personas && r[4].1 == g.useCases && r[5].1 == ProspectFile(g)
  {
    var p := ResearchPaths(runDir);
    [(p[0], g.offerings), (p[1], CustomerEvidence(g)), (p[2], Positioning(g)),
     (p[3], g.personas), (p[4], g.useCases), (p[5], ProspectFile(g))]
  }

  // ---------------------------------------------------------------- playbook.json

  /** The playbook's fields: six strategic ones from the summary, then six
      tactical ones from the sales playbook. */
  function Fields(): (r: seq<string>)
    ensures |r| == 12 && Distinct(r)
  {
    ["executive_summary", "priority_personas", "quick_wins", "success_metrics", "vendor_intelligence", "prospect_intelligence",
     "vendor_name", "prospect_name", "generated_date", "email_sequences", "talk_tracks", "battle_cards"]
  }

  function SummaryFields(): seq<string> { Fields()[..6] }
  function SalesFields(): seq<string> { Fields()[6..] }

  /** The field names spelled out, so that their distinctness is at hand. */
  lemma FieldNames()
    ensures var f := Fields();
            f[0] == "executive_summary" && f[1] == "priority_personas" && f[2] == "quick_wins"
            && f[3] == "success_metrics" && f[4] == "vendor_intelligence" && f[5] == "prospect_intelligence"
            && f[6] == "vendor_name" && f[7] == "prospect_name" && f[8] == "generated_date"
            && f[9] == "email_sequences" && f[10] == "talk_tracks" && f[11] == "battle_cards"
  {
  }

  /** The strategic assignments from a summary dict `s`. */
  function WithSummary(pb: ODict<Value>, s: ODict<Value>): ODict<Value> {
    var p1 := Put(pb, "executive_summary", DictGet(s, "executive_summary", VStr("")));
    var p2 := Put(p1, "priority_personas", DictGet(s, "priority_personas", EmptyList));
    var p3 := Put(p2, "quick_wins", DictGet(s, "quick_wins", EmptyList));
    var p4 := Put(p3, "success_metrics", DictGet(s, "success_metrics", EmptyDict));
    var p5 := Put(p4, "vendor_intelligence", DictGet(s, "vendor_intelligence", EmptyDict));
    Put(p5, "prospect_intelligence", DictGet(s, "prospect_intelligence", EmptyDict))
  }

  /** The tactical assignments from a sales playbook dict `s`;
      `generated_date` defaults to `timestamp[:8]`, the run's date. */
  function WithSales(pb: ODict<Value>, s: ODict<Value>, timestamp: string): ODict<Value> {
    var p1 := Put(pb, "vendor_name", DictGet(s, "vendor_name", VStr("")));
    var p2 := Put(p1, "prospect_name", DictGet(s, "prospect_name", VStr("")));
    var p3 := Put(p2, "generated_date", DictGet(s, "generated_date", VStr(Take(timestamp, 8))));
    var p4 := Put(p3, "email_sequences", DictGet(s, "email_sequences", EmptyList));
    var p5 := Put(p4, "talk_tracks", DictGet(s, "talk_tracks", EmptyList));
    Put(p5, "battle_cards", DictGet(s, "battle_cards", EmptyList))
  }

  /** The `sales_playbook` entry of the final playbook, `{}` when absent. */
  function SalesPlaybook(final: ODict<Value>): Value {
    DictGet(final, "sales_playbook", EmptyDict)
  }

  /** `playbook.json`: the summary's fields when the summary is a dict,
      then the sales playbook's fields when the final playbook is a dict;
      a `sales_playbook` that is not a dict makes `.get` raise. */
  function PlaybookFile(summary: Value, final: Value, timestamp: string): (r: Try<ODict<Value>>)
    ensures r.Throw? <==> final.VDict? && !SalesPlaybook(final.d).VDict?
  {
    var pb := if summary.VDict? then WithSummary(Empty(), summary.d) else Empty();
    if !final.VDict? then Ok(pb)
    else
      var sales := SalesPlaybook(final.d);
      if !sales.VDict? then Throw else Ok(WithSales(pb, sales.d, timestamp))
  }

  /** The playbook is a well-formed dict holding the summary's fields, then
      the sales fields, each only when its source is a dict. */
  lemma PlaybookKeys(summary: Value, final: Value, timestamp: string)
    requires PlaybookFile(summary, final, timestamp).Ok?
    ensures var pb := PlaybookFile(summary, final, timestamp).value;
            WellFormed(pb)
            && pb.keys == (if summary.VDict? then SummaryFields() else []) + (if final.VDict? then SalesFields() else [])
  {
    var pb := if summary.VDict? then WithSummary(Empty(), summary.d) else Empty();
    if summary.VDict? {
      WithSummaryKeys(Empty(), summary.d);
    }
    if final.VDict? {
      FieldNames();
      WithSalesKeys(pb, SalesPlaybook(final.d).d, timestamp);
    } else {
      assert pb.keys + [] == pb.keys;
    }
  }

  /** The strategic assignments add their six fields to an empty playbook. */
  lemma WithSummaryKeys(pb: ODict<Value>, s: ODict<Value>)
    requires pb == Empty()
    ensures WellFormed(WithSummary(pb, s)) && WithSummary(pb, s).keys == SummaryFields()
  {
    FieldNames();
    var f := Fields();
    assert WithSummary(pb, s).keys == [f[0], f[1], f[2], f[3], f[4], f[5]];
    assert f[..6] == [f[0], f[1], f[2], f[3], f[4], f[5]];
  }

  /** The tactical assignments add their six fields after the others. */
  lemma WithSalesKeys(pb: ODict<Value>, s: ODict<Value>, timestamp: string)
    requires WellFormed(pb) && forall k :: k in pb.vals ==> k in SummaryFields()
    ensures WellFormed(WithSales(pb, s, timestamp)) && WithSales(pb, s, timestamp).keys == pb.keys + SalesFields()
  {
    FieldNames();
    var f := Fields();
    assert forall i :: 6 <= i < 12 ==> f[i] !in pb.vals;
    assert WithSales(pb, s, timestamp).keys == pb.keys + [f[6], f[7], f[8], f[9], f[10], f[11]];
    assert f[6..] == [f[6], f[7], f[8], f[9], f[10], f[11]];
  }

  /** The strategic fields are the summary's, with their defaults, and are
      missing when the summary is not a dict. */
  lemma PlaybookSummaryFields(summary: Value, final: Value, timestamp: string)
    requires PlaybookFile(summary, final, timestamp).Ok?
    ensures var pb := PlaybookFile(summary, final, timestamp).value;
            (summary.VDict? ==>
               var s := summary.d;
               pb.vals["executive_summary"] == DictGet(s, "executive_summary", VStr(""))
               && pb.vals["priority_personas"] == DictGet(s, "priority_personas", EmptyList)
               && pb.vals["quick_wins"] == DictGet(s, "quick_wins", EmptyList)
               && pb.vals["success_metrics"] == DictGet(s, "success_metrics", EmptyDict)
               && pb.vals["vendor_intelligence"] == DictGet(s, "vendor_intelligence", EmptyDict)
               && pb.vals["prospect_intelligence"] == DictGet(s, "prospect_intelligence", EmptyDict))
            && (!summary.VDict? ==> forall k :: k in SummaryFields() ==> k !in pb.vals)
  {
    FieldNames();
    PlaybookKeys(summary, final, timestamp);
    if !summary.VDict? {
      var pb := PlaybookFile(summary, final, timestamp).value;
      assert pb.keys == (if final.VDict? then SalesFields() else []);
      assert forall k :: k in SummaryFields() ==> k !in SalesFields();
    }
  }

  /** The tactical fields are the sales playbook's, with their defaults, and
      are missing when the final playbook is not a dict. */
  lemma PlaybookSalesFields(summary: Value, final: Value, timestamp: string)
    requires PlaybookFile(summary, final, timestamp).Ok?
    ensures var pb := PlaybookFile(summary, final, timestamp).value;
            (final.VDict? ==>
               var s := SalesPlaybook(final.d).d;
               pb.vals["vendor_name"] == DictGet(s, "vendor_name", VStr(""))
               && pb.vals["prospect_name"] == DictGet(s, "prospect_name", VStr(""))
               && pb.vals["generated_date"] == DictGet(s, "generated_date", VStr(Take(timestamp, 8)))
               && pb.vals["email_sequences"] == DictGet(s, "email_sequences", EmptyList)
               && pb.vals["talk_tracks"] == DictGet(s, "talk_tracks", EmptyList)
               && pb.vals["battle_cards"] == DictGet(s, "battle_cards", EmptyList))
            && (!final.VDict? ==> forall k :: k in SalesFields() ==> k !in pb.vals)
  {
    FieldNames();
    PlaybookKeys(summary, final, timestamp);
    if !final.VDict? {
      var pb := PlaybookFile(summary, final, timestamp).value;
      assert pb.keys + [] == pb.keys;
      assert pb.keys == (if summary.VDict? then SummaryFields() else []);
      assert forall k :: k in SalesFields() ==> k !in SummaryFields();
    }
  }

  /** A final playbook without a `generated_date` gets the run's date. */
  lemma GeneratedDateDefault(summary: Value, final: Value, timestamp: string)
    requires final.VDict? && SalesPlaybook(final.d).VDict? && "generated_date" !in SalesPlaybook(final.d).d.vals
    ensures PlaybookFile(summary, final, timestamp).Ok?
    ensures PlaybookFile(summary, final, timestamp).value.vals["generated_date"] == VStr(Take(timestamp, 8))
  {
    PlaybookSalesFields(summary, final, timestamp);
  }

  /** The playbook as `main` builds it, one key assignment at a time. */
  method BuildPlaybook(summary: Value, final: Value, timestamp: string) returns (r: Try<ODict<Value>>)
    ensures r == PlaybookFile(summary, final, timestamp)
  {
    var playbook: ODict<Value> := Empty();
    if summary.VDict? {
      var s := summary.d;
      playbook := Put(playbook, "executive_summary", DictGet(s, "executive_summary", VStr("")));
      playbook := Put(playbook, "priority_personas", DictGet(s, "priority_personas", EmptyList));
      playbook := Put(playbook, "quick_wins", DictGet(s, "quick_wins", EmptyList));
      playbook := Put(playbook, "success_metrics", DictGet(s, "success_metrics", EmptyDict));
      playbook := Put(playbook, "vendor_intelligence", DictGet(s, "vendor_intelligence", EmptyDict));
      playbook := Put(playbook, "prospect_intelligence", DictGet(s, "prospect_intelligence", EmptyDict));
    }
    if final.VDict? {
      var sales := DictGet(final.d, "sales_playbook", EmptyDict);
      if !sales.VDict? {
        return Throw;
      }
      var s := sales.d;
      playbook := Put(playbook, "vendor_name", DictGet(s, "vendor_name", VStr("")));
      playbook := Put(playbook, "prospect_name", DictGet(s, "prospect_name", VStr("")));
      playbook := Put(playbook, "generated_date", DictGet(s, "generated_date", VStr(Take(timestamp, 8))));
      playbook := Put(playbook, "email_sequences", DictGet(s, "email_sequences", EmptyList));
      playbook := Put(playbook, "talk_tracks", DictGet(s, "talk_tracks", EmptyList));
      playbook := Put(playbook, "battle_cards", DictGet(s, "battle_cards", EmptyList));
    }
    return Ok(playbook);
  }

  // ---------------------------------------------------------------- metadata.json

  function OutputKeys(): (r: seq<string>)
    ensures |r| == 6 && Distinct(r)
  {
    ["vendor_name", "prospect_name", "persona_count", "email_sequence_count", "talk_track_count", "battle_card_count"]
  }

  /** `len(playbook.get(k, []))`. */
  function Count(playbook: ODict<Value>, k: string): Try<Value> {
    var n :- Len(DictGet(playbook, k, EmptyList));
    Ok(VInt(n))
  }

  /** The metadata's `outputs`: names and the number of items of each list. */
  function Outputs(playbook: ODict<Value>): (r: Try<Value>)
    ensures r.Ok? <==> Len(DictGet(playbook, "priority_personas", EmptyList)).Ok?
                       && Len(DictGet(playbook, "email_sequences", EmptyList)).Ok?
                       && Len(DictGet(playbook, "talk_tracks", EmptyList)).Ok?
                       && Len(DictGet(playbook, "battle_cards", EmptyList)).Ok?
    ensures r.Ok? ==> r.value.VDict? && r.value.d.keys == OutputKeys()
  {
    var personas :- Count(playbook, "priority_personas");
    var emails :- Count(playbook, "email_sequences");
    var tracks :- Count(playbook, "talk_tracks");
    var cards :- Count(playbook, "battle_cards");
    Ok(VDict(DictOf(OutputKeys(), [DictGet(playbook, "vendor_name", VStr("")), DictGet(playbook, "prospect_name", VStr("")),
                                   personas, emails, tracks, cards])))
  }

  /** The counts are the lengths of the playbook's lists; a list the
      playbook lacks counts 0. */
  lemma CountsAreLengths(playbook: ODict<Value>, k: string)
    ensures k in playbook.vals && playbook.vals[k].VList? ==> Count(playbook, k) == Ok(VInt(|playbook.vals[k].items|))
    ensures k !in playbook.vals ==> Count(playbook, k) == Ok(VInt(0))
  {
  }

  /** For the built playbook: each component count is the length of the
      sales playbook's list, and 0 without a final playbook; the persona
      count is the length of the summary's priority personas. */
  lemma MetadataCounts(summary: Value, final: Value, timestamp: string, k: string)
    requires PlaybookFile(summary, final, timestamp).Ok?
    requires k == "email_sequences" || k == "talk_tracks" || k == "battle_cards"
    ensures var pb := PlaybookFile(summary, final, timestamp).value;
            (final.VDict? && k in SalesPlaybook(final.d).d.vals && SalesPlaybook(final.d).d.vals[k].VList? ==>
               Count(pb, k) == Ok(VInt(|SalesPlaybook(final.d).d.vals[k].items|)))
            && (!final.VDict? ==> Count(pb, k) == Ok(VInt(0)))
  {
    var pb := PlaybookFile(summary, final, timestamp).value;
    PlaybookSalesFields(summary, final, timestamp);
    if final.VDict? {
      assert pb.vals[k] == DictGet(SalesPlaybook(final.d).d, k, EmptyList);
    } else {
      assert k in SalesFields();
    }
  }

  lemma PersonaCount(summary: Value, final: Value, timestamp: string)
    requires PlaybookFile(summary, final, timestamp).Ok?
    ensures var pb := PlaybookFile(summary, final, timestamp).value;
            (summary.VDict? && "priority_personas" in summary.d.vals && summary.d.vals["priority_personas"].VList? ==>
               Count(pb, "priority_personas") == Ok(VInt(|summary.d.vals["priority_personas"].items|)))
            && (!summary.VDict? ==> Count(pb, "priority_personas") == Ok(VInt(0)))
  {
    FieldNames();
    PlaybookSummaryFields(summary, final, timestamp);
    assert "priority_personas" in SummaryFields();
  }

  const WorkflowVersion := "2.0.0"

  function MetadataKeys(): (r: seq<string>)
    ensures |r| == 10 && Distinct(r)
  {
    ["run_id", "timestamp_start", "timestamp_end", "duration_seconds", "workflow_name", "workflow_version",
     "status", "inputs", "outputs", "file_manifest"]
  }

  /** The manifest: the playbook and the research files, relative to the
      run's directory. Its research lists are the two halves of `Manifest()`,
      the paths `ResearchFiles` writes to. */
  function FileManifest(): (r: Value)
    ensures r.VDict? && r.d.keys == ["playbook", "research"]
    ensures Get(r, "playbook") == Ok(VStr("playbook.json"))
    ensures var research := Get(r, "research");
            research.Ok? && research.value.VDict? && research.value.d.keys == ["vendor", "prospect"]
            && Get(research.value, "vendor") == Ok(VList(StrValues(InDir(VendorDir, VendorFiles))))
            && Get(research.value, "prospect") == Ok(VList(StrValues(InDir(ProspectDir, ProspectFiles))))
  {
    var research := DictOf(["vendor", "prospect"], [VList(StrValues(InDir(VendorDir, VendorFiles))), VList(StrValues(InDir(ProspectDir, ProspectFiles)))]);
    VDict(DictOf(["playbook", "research"], [VStr("playbook.json"), VDict(research)]))
  }

  /** `metadata.json`; the clock readings are parameters. Building the
      outputs can raise when a playbook list is not sized. */
  function Metadata(timestamp: string, start: string, end: string, duration: Value, workflowName: string,
                    vendorDomain: string, prospectDomain: string, playbook: ODict<Value>): (r: Try<Value>)
    ensures r.Ok? <==> Outputs(playbook).Ok?
    ensures r.Ok? ==> r.value.VDict? && r.value.d.keys == MetadataKeys()
    ensures r.Ok? ==> Get(r.value, "outputs") == Ok(Outputs(playbook).value)
    ensures r.Ok? ==> Get(r.value, "status") == Ok(VStr("completed")) && Get(r.value, "run_id") == Ok(VStr(timestamp))
  {
    var outputs :- Outputs(playbook);
    var ks := MetadataKeys();
    assert ks[0] == "run_id" && ks[6] == "status" && ks[8] == "outputs";
    var inputs := DictOf(["vendor_domain", "prospect_domain"], [VStr(vendorDomain), VStr(prospectDomain)]);
    var vals := [VStr(timestamp), VStr(start), VStr(end), duration, VStr(workflowName), VStr(WorkflowVersion),
                 VStr("completed"), VDict(inputs), outputs, FileManifest()];
    Ok(VDict(DictOf(ks, vals)))
  }
}
