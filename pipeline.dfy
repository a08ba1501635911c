/** The pipelines as data: the full eight-step pipeline and the three phase
    workflows are ordered lists of units, each a single stage or a
    parallel group of stages. */
module Workflows {
  import opened Values
  import opened Results

  /** The stages of the pipelines, one per stage function. */
  datatype Stage =
    | ValidateVendor | ValidateProspect
    | ScrapeVendorHome | ScrapeProspectHome
    | AnalyzeVendorHome | AnalyzeProspectHome
    | PrioritizeUrls | BatchScrape
    | ExtractOfferings | ExtractCaseStudies | ExtractProofPoints | ExtractValueProps
    | ExtractCustomers | ExtractUseCases | ExtractPersonas | ExtractDifferentiators
    | AnalyzeCompany | AnalyzePainPoints | IdentifyBuyerPersonas
    | GenerateSummary | GenerateEmails | GenerateTalkTracks | GenerateBattleCards
    | AssemblePlaybook
  {
    /** The `name` the stage is registered under. */
    function Name(): string {
      match this
      case ValidateVendor => "validate_vendor"
      case ValidateProspect => "validate_prospect"
      case ScrapeVendorHome => "scrape_vendor_home"
      case ScrapeProspectHome => "scrape_prospect_home"
      case AnalyzeVendorHome => "analyze_vendor_home"
      case AnalyzeProspectHome => "analyze_prospect_home"
      case PrioritizeUrls => "prioritize_urls"
      case BatchScrape => "batch_scrape"
      case ExtractOfferings => "extract_offerings"
      case ExtractCaseStudies => "extract_case_studies"
      case ExtractProofPoints => "extract_proof_points"
      case ExtractValueProps => "extract_value_props"
      case ExtractCustomers => "extract_customers"
      case ExtractUseCases => "extract_use_cases"
      case ExtractPersonas => "extract_personas"
      case ExtractDifferentiators => "extract_differentiators"
      case AnalyzeCompany => "analyze_company"
      case AnalyzePainPoints => "analyze_pain_points"
      case IdentifyBuyerPersonas => "identify_buyer_personas"
      case GenerateSummary => "generate_playbook_summary"
      case GenerateEmails => "generate_email_sequences"
      case GenerateTalkTracks => "generate_talk_tracks"
      case GenerateBattleCards => "generate_battle_cards"
      case AssemblePlaybook => "assemble_final_playbook"
    }
  }

  datatype Unit = Single(stage: Stage) | Group(group: string, members: seq<Stage>) {
    function Name(): string {
      if Single? then stage.Name() else group
    }
    /** The stages the unit runs. */
    function Stages(): seq<Stage> {
      if Single? then [stage] else members
    }
  }

  const ValidationGroup := "parallel_validation"
  const ScrapingGroup := "parallel_homepage_scraping"
  const AnalysisGroup := "parallel_homepage_analysis"
  const ExtractionGroup := "vendor_element_extraction"
  const ContextGroup := "prospect_context_analysis"
  const ComponentGroup := "playbook_component_generation"

  const Validation := Group(ValidationGroup, [ValidateVendor, ValidateProspect])
  const HomepageScraping := Group(ScrapingGroup, [ScrapeVendorHome, ScrapeProspectHome])
  const HomepageAnalysis := Group(AnalysisGroup, [AnalyzeVendorHome, AnalyzeProspectHome])
  const Prioritization := Single(PrioritizeUrls)
  const BatchScraping := Single(BatchScrape)
  const VendorExtraction := Group(ExtractionGroup,
    [ExtractOfferings, ExtractCaseStudies, ExtractProofPoints, ExtractValueProps,
     ExtractCustomers, ExtractUseCases, ExtractPersonas, ExtractDifferentiators])
  const ProspectContext := Group(ContextGroup, [AnalyzeCompany, AnalyzePainPoints])
  const BuyerPersonas := Single(IdentifyBuyerPersonas)
  const Summary := Single(GenerateSummary)
  const Components := Group(ComponentGroup, [GenerateEmails, GenerateTalkTracks, GenerateBattleCards])
  const Assembly := Single(AssemblePlaybook)

  /** The main pipeline, in order. */
  const Pipeline: seq<Unit> := [Validation, HomepageScraping, HomepageAnalysis, Prioritization, BatchScraping,
                                VendorExtraction, ProspectContext, BuyerPersonas, Summary, Components, Assembly]

  /** The phase workflows, each declared on its own. */
  const Phase1: seq<Unit> := [Validation, HomepageScraping, HomepageAnalysis, Prioritization, BatchScraping]
  const Phase1And2: seq<Unit> := [Validation, HomepageScraping, HomepageAnalysis, Prioritization, BatchScraping,
                                  VendorExtraction]
  const Phase1To3: seq<Unit> := [Validation, HomepageScraping, HomepageAnalysis, Prioritization, BatchScraping,
                                 VendorExtraction, ProspectContext, BuyerPersonas]

  /** Each phase workflow is the start of the next, and the last is the
      start of the main pipeline. */
  lemma PhasesArePrefixes()
    ensures Phase1 == Phase1And2[..5]
    ensures Phase1And2 == Phase1To3[..6]
    ensures Phase1To3 == Pipeline[..8]
  {
  }

  /** The position in the main pipeline of the unit that runs `s`. */
  function Position(s: Stage): (r: nat)
    ensures r < |Pipeline|
  {
    match s
    case ValidateVendor | ValidateProspect => 0
    case ScrapeVendorHome | ScrapeProspectHome => 1
    case AnalyzeVendorHome | AnalyzeProspectHome => 2
    case PrioritizeUrls => 3
    case BatchScrape => 4
    case ExtractOfferings | ExtractCaseStudies | ExtractProofPoints | ExtractValueProps
       | ExtractCustomers | ExtractUseCases | ExtractPersonas | ExtractDifferentiators => 5
    case AnalyzeCompany | AnalyzePainPoints => 6
    case IdentifyBuyerPersonas => 7
    case GenerateSummary => 8
    case GenerateEmails | GenerateTalkTracks | GenerateBattleCards => 9
    case AssemblePlaybook => 10
  }

  /** Every stage runs in exactly one unit of the main pipeline. */
  lemma RunsOnce(i: nat, s: Stage)
    requires i < |Pipeline| && s in Pipeline[i].Stages()
    ensures Position(s) == i
  {
    var ss := Pipeline[i].Stages();
    var j :| 0 <= j < |ss| && ss[j] == s;
    UnitPositions(i, j);
  }

  /** The stages of unit `i` are placed at `i`. */
  lemma UnitPositions(i: nat, j: nat)
    requires i < |Pipeline| && j < |Pipeline[i].Stages()|
    ensures Position(Pipeline[i].Stages()[j]) == i
  {
    var ss := Pipeline[i].Stages();
    if i == 0 { assert ss == Validation.members; }
    else if i == 1 { assert ss == HomepageScraping.members; }
    else if i == 2 { assert ss == HomepageAnalysis.members; }
    else if i == 5 { assert ss == VendorExtraction.members; }
    else if i == 6 { assert ss == ProspectContext.members; }
    else if i == 9 { assert ss == Components.members; }
    else { assert ss == [Pipeline[i].stage]; }
  }

  /** The unit at `Position(s)` runs `s`. */
  lemma RunsAtPosition(s: Stage)
    ensures s in Pipeline[Position(s)].Stages()
  {
    assert Pipeline[Position(s)].Stages()[MemberIndex(s)] == s;
  }

  /** The place of `s` among the stages of its unit. */
  function MemberIndex(s: Stage): (r: nat)
    ensures r < |Pipeline[Position(s)].Stages()| && Pipeline[Position(s)].Stages()[r] == s
  {
    match s
    case ValidateVendor | ScrapeVendorHome | AnalyzeVendorHome | ExtractOfferings | AnalyzeCompany | GenerateEmails => 0
    case ValidateProspect | ScrapeProspectHome | AnalyzeProspectHome | ExtractCaseStudies | AnalyzePainPoints
       | GenerateTalkTracks => 1
    case ExtractProofPoints | GenerateBattleCards => 2
    case ExtractValueProps => 3
    case ExtractCustomers => 4
    case ExtractUseCases => 5
    case ExtractPersonas => 6
    case ExtractDifferentiators => 7
    case PrioritizeUrls | BatchScrape | IdentifyBuyerPersonas | GenerateSummary | AssemblePlaybook => 0
  }

  /** No two stages are registered under the same name. */
  lemma NameInjective(s: Stage, t: Stage)
    requires s.Name() == t.Name()
    ensures s == t
  {
  }

  /** The units of the main pipeline have pairwise distinct names. */
  lemma UnitNamesDistinct(i: nat, j: nat)
    requires i < j < |Pipeline|
    ensures Pipeline[i].Name() != Pipeline[j].Name()
  {
  }

  /** No unit lists a stage twice. */
  lemma StagesDistinct(i: nat)
    requires i < |Pipeline|
    ensures Distinct(Pipeline[i].Stages())
  {
  }

  /** Unit names are pairwise distinct, and so are the member names of
      each group; the extraction group has eight members. */
  lemma PipelineNamesDistinct()
    ensures forall i, j :: 0 <= i < j < |Pipeline| ==> Pipeline[i].Name() != Pipeline[j].Name()
    ensures forall i, a, b :: 0 <= i < |Pipeline| && 0 <= a < b < |Pipeline[i].Stages()| ==>
              Pipeline[i].Stages()[a].Name() != Pipeline[i].Stages()[b].Name()
    ensures Pipeline[5] == VendorExtraction && |VendorExtraction.members| == 8
  {
    forall i, j | 0 <= i < j < |Pipeline|
      ensures Pipeline[i].Name() != Pipeline[j].Name()
    {
      UnitNamesDistinct(i, j);
    }
    forall i, a, b | 0 <= i < |Pipeline| && 0 <= a < b < |Pipeline[i].Stages()|
      ensures Pipeline[i].Stages()[a].Name() != Pipeline[i].Stages()[b].Name()
    {
      StagesDistinct(i);
      if Pipeline[i].Stages()[a].Name() == Pipeline[i].Stages()[b].Name() {
        NameInjective(Pipeline[i].Stages()[a], Pipeline[i].Stages()[b]);
      }
    }
  }

  /** Where a stage's result is looked up: by its own name when it is a
      unit of its own, under its group's name otherwise. */
  function Where(s: Stage): Address {
    var u := Pipeline[Position(s)];
    if u.Single? then Top(s.Name()) else Member(u.group, s.Name())
  }

  /** The stages whose results `s` reads. */
  function Reads(s: Stage): seq<Stage> {
    match s
    case ValidateVendor | ValidateProspect => []
    case ScrapeVendorHome => [ValidateVendor]
    case ScrapeProspectHome => [ValidateProspect]
    case AnalyzeVendorHome => [ScrapeVendorHome]
    case AnalyzeProspectHome => [ScrapeProspectHome]
    case PrioritizeUrls => [ValidateVendor, ValidateProspect]
    case BatchScrape => [PrioritizeUrls]
    case ExtractOfferings | ExtractCaseStudies | ExtractProofPoints | ExtractValueProps
       | ExtractCustomers | ExtractUseCases | ExtractPersonas | ExtractDifferentiators => [BatchScrape]
    case AnalyzeCompany | AnalyzePainPoints => [BatchScrape]
    case IdentifyBuyerPersonas =>
      [ExtractOfferings, ExtractCaseStudies, ExtractValueProps, ExtractUseCases, ExtractPersonas,
       ExtractDifferentiators, AnalyzeCompany, AnalyzePainPoints]
    case GenerateSummary =>
      [ExtractOfferings, ExtractCaseStudies, ExtractValueProps, ExtractUseCases, ExtractPersonas,
       ExtractDifferentiators, ExtractProofPoints, ExtractCustomers, IdentifyBuyerPersonas,
       AnalyzeCompany, AnalyzePainPoints]
    case GenerateEmails | GenerateTalkTracks | GenerateBattleCards => [GenerateSummary]
    case AssemblePlaybook => [GenerateEmails, GenerateTalkTracks, GenerateBattleCards, GenerateSummary]
  }

  /** A stage reads only stages of units before its own. */
  lemma ReadsEarlier(s: Stage, t: Stage)
    requires t in Reads(s)
    ensures Position(t) < Position(s)
  {
    var j :| 0 <= j < |Reads(s)| && Reads(s)[j] == t;
    ReadPositions(s, j);
  }

  lemma ReadPositions(s: Stage, j: nat)
    requires j < |Reads(s)|
    ensures Position(Reads(s)[j]) < Position(s)
  {
    match s
    case IdentifyBuyerPersonas =>
    case GenerateSummary =>
    case _ =>
  }

  /** Some unit before position `i` runs `t`. */
  predicate Earlier(units: seq<Unit>, i: nat, t: Stage) {
    exists j :: 0 <= j < i && j < |units| && t in units[j].Stages()
  }

  /** The stages of unit `i` read only stages of units before it. */
  predicate UnitWired(units: seq<Unit>, i: nat)
    requires i < |units|
  {
    forall s, t :: s in units[i].Stages() && t in Reads(s) ==> Earlier(units, i, t)
  }

  /** Every stage reads only results of units before its own. */
  predicate WellWired(units: seq<Unit>) {
    forall i :: 0 <= i < |units| ==> UnitWired(units, i)
  }

  /** A workflow's first units are wired as well as it is. */
  lemma WiredPrefix(units: seq<Unit>, k: nat)
    requires WellWired(units) && k <= |units|
    ensures WellWired(units[..k])
  {
    forall i | 0 <= i < k
      ensures UnitWired(units[..k], i)
    {
      assert units[..k][i] == units[i];
      assert UnitWired(units, i);
      forall s, t | s in units[..k][i].Stages() && t in Reads(s)
        ensures Earlier(units[..k], i, t)
      {
        assert s in units[i].Stages();
        assert Earlier(units, i, t);
        var j :| 0 <= j < i && j < |units| && t in units[j].Stages();
        assert units[..k][j] == units[j];
      }
    }
  }

  /** In every workflow, every stage reads only results of earlier units. */
  lemma PipelineWellWired()
    ensures WellWired(Pipeline) && WellWired(Phase1) && WellWired(Phase1And2) && WellWired(Phase1To3)
  {
    forall i | 0 <= i < |Pipeline|
      ensures UnitWired(Pipeline, i)
    {
      forall s, t | s in Pipeline[i].Stages() && t in Reads(s)
        ensures Earlier(Pipeline, i, t)
      {
        RunsOnce(i, s);
        ReadsEarlier(s, t);
        RunsAtPosition(t);
      }
    }
    WiredPrefix(Pipeline, 8);
    assert Phase1To3 == Pipeline[..8];
    WiredPrefix(Pipeline, 6);
    assert Phase1And2 == Pipeline[..6];
    WiredPrefix(Pipeline, 5);
    assert Phase1 == Pipeline[..5];
  }

  /** The units of the main pipeline that are single stages. */
  lemma SingleUnits()
    ensures forall s :: Single(s) in Pipeline ==>
              s == PrioritizeUrls || s == BatchScrape || s == IdentifyBuyerPersonas || s == GenerateSummary || s == AssemblePlaybook
  {
  }
}
