/** Step 7: the prospect analysts. Two of them read the prospect's scraped
    pages; the third combines vendor elements and prospect context into the
    buying committee the vendor should target. */
module ProspectAnalysis {
  import opened Values
  import opened Results
  import opened VendorExtraction

  const NoProspectContent := "No prospect content available"
  const NoProspectContentForPains := "No prospect content found - cannot analyze pain points"
  const CompanyFailure := "Agent failed to extract company profile"
  const PainFailure := "Agent failed to identify pain points"
  const PersonaFailure := "Agent failed to identify buyer personas"
  const MissingData := "Missing vendor or prospect data for persona identification"

  const CompanyPrompt := "Extract company profile from this content:\n\n"
  const PainPrompt := "Infer pain points from this company's content:\n\n"

  const CompanyErrorPrefix := "Error analyzing company profile: "
  const PainErrorPrefix := "Error analyzing pain points: "
  const PersonaErrorPrefix := "Error identifying buyer personas: "

  /** `scrape_data.get("prospect_content", {})` */
  function ProspectPages(scrape: Value): Try<Value> {
    GetOr(scrape, "prospect_content", EmptyDict)
  }

  /** A step 5 result with prospect pages to analyse. */
  predicate HasPages(scrape: Option<Value>) {
    Present(scrape) && ProspectPages(scrape.value).Ok? && Truthy(ProspectPages(scrape.value).value)
    && ProspectPages(scrape.value).value.VDict?
  }

  function PagesOf(scrape: Option<Value>): ODict<Value>
    requires HasPages(scrape)
  {
    ProspectPages(scrape.value).value.d
  }

  // ------------------------------------------------------ company profile

  function CompanyAttempt(scrape: Option<Value>, agent: string -> Try<Value>): Try<StepOutput> {
    if !Present(scrape) then Ok(ErrorResponse(NoBatchData))
    else
      var pages :- ProspectPages(scrape.value);
      if !Truthy(pages) then Ok(ErrorResponse(NoProspectContent))
      else if !pages.VDict? then Throw
      else
        var reply :- agent(CompanyPrompt + PageDigest(pages.d));
        if !Truthy(reply) then Ok(ErrorResponse(CompanyFailure))
        else
          var profile :- Get(reply, "company_profile");
          if !Truthy(profile) then Ok(ErrorResponse(CompanyFailure))
          else
            var name :- Get(profile, "company_name");
            Ok(StepOutput(Single("company_profile", profile), true))
  }

  /** `analyze_company_profile`: empty prospect content is an error here,
      where the step 6 extractors answer it with an empty success. */
  function AnalyzeCompanyProfile(scrape: Option<Value>, agent: string -> Try<Value>): (r: StepOutput)
    ensures !Present(scrape) ==> r == ErrorResponse(NoBatchData)
    ensures Present(scrape) && ProspectPages(scrape.value).Ok? && !Truthy(ProspectPages(scrape.value).value) ==>
              r == ErrorResponse(NoProspectContent)
    ensures HasPages(scrape) && agent(CompanyPrompt + PageDigest(PagesOf(scrape))).Ok? ==>
              var reply := agent(CompanyPrompt + PageDigest(PagesOf(scrape))).value;
              !Truthy(reply) || (Get(reply, "company_profile").Ok? && !Truthy(Get(reply, "company_profile").value)) ==>
                r == ErrorResponse(CompanyFailure)
    ensures HasPages(scrape) && agent(CompanyPrompt + PageDigest(PagesOf(scrape))).Throw? ==> r == ErrorResponse(CompanyErrorPrefix)
    ensures r.success ==>
              HasPages(scrape) && agent(CompanyPrompt + PageDigest(PagesOf(scrape))).Ok?
              && var profile := Get(agent(CompanyPrompt + PageDigest(PagesOf(scrape))).value, "company_profile");
                 profile.Ok? && Truthy(profile.value) && HasAttr(profile.value, "company_name")
                 && r.content == Single("company_profile", profile.value)
  {
    Guarded(CompanyAttempt(scrape, agent), CompanyErrorPrefix)
  }

  // ------------------------------------------------------ pain points

  /** The records of a non-empty reply list, dumped under `key`. */
  function Listed(key: string, records: Value): (r: Try<StepOutput>)
    ensures r.Ok? ==> r.value.success && ModelDumps(records).Ok? && r.value.content == Single(key, VList(ModelDumps(records).value))
  {
    var count :- Len(records);
    var dumped :- ModelDumps(records);
    Ok(StepOutput(Single(key, VList(dumped)), true))
  }

  function PainAttempt(scrape: Option<Value>, agent: string -> Try<Value>): Try<StepOutput> {
    if !Present(scrape) then Ok(ErrorResponse(NoBatchData))
    else
      var pages :- ProspectPages(scrape.value);
      if !Truthy(pages) then Ok(ErrorResponse(NoProspectContentForPains))
      else if !pages.VDict? then Throw
      else
        var reply :- agent(PainPrompt + PageDigest(pages.d));
        if !Truthy(reply) then Ok(ErrorResponse(PainFailure))
        else
          var pains :- Get(reply, "pain_points");
          if !Truthy(pains) then Ok(ErrorResponse(PainFailure))
          else Listed("pain_points", pains)
  }

  /** `analyze_pain_points`: an empty list from the agent is an error. */
  function AnalyzePainPoints(scrape: Option<Value>, agent: string -> Try<Value>): (r: StepOutput)
    ensures !Present(scrape) ==> r == ErrorResponse(NoBatchData)
    ensures Present(scrape) && ProspectPages(scrape.value).Ok? && !Truthy(ProspectPages(scrape.value).value) ==>
              r == ErrorResponse(NoProspectContentForPains)
    ensures HasPages(scrape) && agent(PainPrompt + PageDigest(PagesOf(scrape))).Ok? ==>
              var reply := agent(PainPrompt + PageDigest(PagesOf(scrape))).value;
              !Truthy(reply) || Get(reply, "pain_points") == Ok(EmptyList) ==> r == ErrorResponse(PainFailure)
    ensures HasPages(scrape) && agent(PainPrompt + PageDigest(PagesOf(scrape))).Throw? ==> r == ErrorResponse(PainErrorPrefix)
    ensures r.success ==>
              HasPages(scrape) && agent(PainPrompt + PageDigest(PagesOf(scrape))).Ok?
              && var pains := Get(agent(PainPrompt + PageDigest(PagesOf(scrape))).value, "pain_points");
                 pains.Ok? && Truthy(pains.value) && ModelDumps(pains.value).Ok?
                 && r.content == Single("pain_points", VList(ModelDumps(pains.value).value))
  {
    Guarded(PainAttempt(scrape, agent), PainErrorPrefix)
  }

  // ------------------------------------------------------ buyer personas

  /** The keys of `vendor_intelligence`, in package order. */
  function VendorIntelKeys(): (r: seq<string>)
    ensures Distinct(r) && |r| == 6
  {
    ["offerings", "case_studies", "value_propositions", "use_cases", "vendor_icp_personas", "differentiators"]
  }

  /** The keys of `prospect_intelligence`. */
  function ProspectIntelKeys(): (r: seq<string>)
    ensures Distinct(r) && r == ["company_profile", "pain_points"]
  {
    ["company_profile", "pain_points"]
  }

  /** The six vendor results the persona analyst sees, in package order. */
  function VendorSources(el: Elements): seq<Option<Value>> {
    [el.offerings, el.caseStudies, el.valueProps, el.useCases, el.personas, el.differentiators]
  }

  const SixLists := [EmptyList, EmptyList, EmptyList, EmptyList, EmptyList, EmptyList]

  /** `vendor_intelligence`: each element list, or `[]` when its result is absent. */
  function VendorIntelligence(el: Elements): (r: Try<Value>)
    ensures r.Ok? <==> Defaults(VendorSources(el), VendorIntelKeys(), SixLists).Ok?
    ensures r.Ok? ==> r.value.VDict? && r.value.d.keys == VendorIntelKeys()
                      && forall i :: 0 <= i < 6 ==> !Present(VendorSources(el)[i]) ==> Get(r.value, VendorIntelKeys()[i]) == Ok(EmptyList)
  {
    var vals :- Defaults(VendorSources(el), VendorIntelKeys(), SixLists);
    Ok(VDict(DictOf(VendorIntelKeys(), vals)))
  }

  /** `prospect_intelligence`: the company profile (else `{}`) and the pain points (else `[]`). */
  function ProspectIntelligence(company: Option<Value>, pains: Option<Value>): (r: Try<Value>)
    ensures r.Ok? ==> r.value.VDict? && r.value.d.keys == ProspectIntelKeys()
    ensures r.Ok? ==> Get(r.value, "company_profile").Ok? && Get(r.value, "pain_points").Ok?
    ensures r.Ok? && !Present(company) ==> Get(r.value, "company_profile") == Ok(EmptyDict)
    ensures r.Ok? && !Present(pains) ==> Get(r.value, "pain_points") == Ok(EmptyList)
    ensures !Present(company) && !Present(pains) ==> r.Ok?
  {
    var vals :- Defaults([company, pains], ProspectIntelKeys(), [EmptyDict, EmptyList]);
    Ok(VDict(DictOf(ProspectIntelKeys(), vals)))
  }

  /** Every persona the stage reports carries the two fields its summary prints. */
  predicate Printable(personas: seq<Value>) {
    forall i :: 0 <= i < |personas| ==> HasAttr(personas[i], "persona_title") && HasAttr(personas[i], "priority_score")
  }

  function PersonaReply(reply: Value): (r: Try<StepOutput>)
    ensures !Truthy(reply) ==> r == Ok(ErrorResponse(PersonaFailure))
    ensures r.Ok? && r.value.success ==>
              Get(reply, "target_buyer_personas").Ok? && var personas := Get(reply, "target_buyer_personas").value;
              Truthy(personas) && Iter(personas).Ok? && Printable(Iter(personas).value)
              && r.value.content == Single("target_buyer_personas", VList(Iter(personas).value))
  {
    if !Truthy(reply) then Ok(ErrorResponse(PersonaFailure))
    else
      var personas :- Get(reply, "target_buyer_personas");
      if !Truthy(personas) then Ok(ErrorResponse(PersonaFailure))
      else
        var count :- Len(personas);
        if !Printable(Iter(personas).value) then Throw
        else Listed("target_buyer_personas", personas)
  }

  function PersonaAttempt(el: Elements, company: Option<Value>, pains: Option<Value>, agent: (Value, Value) -> Try<Value>): Try<StepOutput> {
    if !Present(company) || !Present(el.valueProps) then Ok(ErrorResponse(MissingData))
    else
      var vendorIntel :- VendorIntelligence(el);
      var prospectIntel :- ProspectIntelligence(company, pains);
      var painCount :- Len(Get(prospectIntel, "pain_points").value);
      var reply :- agent(vendorIntel, prospectIntel);
      PersonaReply(reply)
  }

  /** `identify_buyer_personas`. It goes on only with both the company
      result and the value propositions; the agent sees the two packages. */
  function IdentifyBuyerPersonas(el: Elements, company: Option<Value>, pains: Option<Value>, agent: (Value, Value) -> Try<Value>): (r: StepOutput)
    ensures !Present(company) || !Present(el.valueProps) ==> r == ErrorResponse(MissingData)
    ensures r.success ==>
              Present(company) && Present(el.valueProps)
              && VendorIntelligence(el).Ok? && ProspectIntelligence(company, pains).Ok?
              && var reply := agent(VendorIntelligence(el).value, ProspectIntelligence(company, pains).value);
                 reply.Ok? && Truthy(reply.value)
                 && Get(reply.value, "target_buyer_personas").Ok?
                 && var personas := Get(reply.value, "target_buyer_personas").value;
                    Truthy(personas) && Iter(personas).Ok? && Printable(Iter(personas).value)
                    && r.content == Single("target_buyer_personas", VList(Iter(personas).value))
  {
    Guarded(PersonaAttempt(el, company, pains, agent), PersonaErrorPrefix)
  }

  /** Absent vendor results other than the value propositions default to
      `[]` in the package the agent sees. */
  lemma AbsentElementsDefault(el: Elements)
    requires VendorIntelligence(el).Ok?
    requires el.offerings.None? && el.useCases.None?
    ensures Get(VendorIntelligence(el).value, "offerings") == Ok(EmptyList)
    ensures Get(VendorIntelligence(el).value, "use_cases") == Ok(EmptyList)
  {
    assert VendorIntelKeys()[0] == "offerings" && VendorIntelKeys()[3] == "use_cases";
    assert !Present(VendorSources(el)[0]) && !Present(VendorSources(el)[3]);
  }

  /** For the same step 5 result without prospect pages, step 6 succeeds
      with nothing while step 7 reports an error. */
  lemma EmptyProspectContentIsAnError(scrape: Value, agent: string -> Try<Value>)
    requires Truthy(scrape) && scrape.VDict? && "vendor_content" !in scrape.d.vals && "prospect_content" !in scrape.d.vals
    ensures Extract(Offerings, Some(scrape), agent).success
    ensures !AnalyzeCompanyProfile(Some(scrape), agent).success
  {
  }
}
