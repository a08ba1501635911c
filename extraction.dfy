/** Step 6: the eight vendor element extractors. They share one body and
    differ only in the agent's prompt, the attribute read from its reply,
    the key written to the output and two messages; each is an `Extractor`. */
module VendorExtraction {
  import opened Values
  import opened Results

  datatype Extractor = Extractor(stage: string, attr: string, key: string, prompt: string, failure: string, errorPrefix: string)

  const Offerings := Extractor("extract_offerings", "offerings", "offerings",
    "Extract all offerings from this content:\n\n", "Agent failed to extract offerings", "Offerings extraction failed: ")
  const CaseStudies := Extractor("extract_case_studies", "case_studies", "case_studies",
    "Extract all case studies:\n\n", "Agent failed to extract case studies", "Case studies extraction failed: ")
  const ProofPoints := Extractor("extract_proof_points", "proof_points", "proof_points",
    "Extract all proof points:\n\n", "Agent failed to extract proof points", "Proof points extraction failed: ")
  const ValueProps := Extractor("extract_value_props", "value_propositions", "value_propositions",
    "Extract all value propositions:\n\n", "Agent failed to extract value propositions", "Value propositions extraction failed: ")
  const Customers := Extractor("extract_customers", "reference_customers", "reference_customers",
    "Extract all reference customers:\n\n", "Agent failed to extract reference customers", "Reference customers extraction failed: ")
  const UseCases := Extractor("extract_use_cases", "use_cases", "use_cases",
    "Extract all use cases:\n\n", "Agent failed to extract use cases", "Use cases extraction failed: ")
  /** The one extractor whose reply attribute and output key differ. */
  const Personas := Extractor("extract_personas", "target_personas", "vendor_icp_personas",
    "Extract vendor's ICP (Ideal Customer Profile) personas - the types of buyers they typically sell to:\n\n",
    "Agent failed to extract personas", "Vendor ICP personas extraction failed: ")
  const Differentiators := Extractor("extract_differentiators", "differentiators", "differentiators",
    "Extract all competitive differentiators:\n\n", "Agent failed to extract differentiators", "Differentiators extraction failed: ")

  /** The extractors in the order of the `vendor_element_extraction` group. */
  const Extractors := [Offerings, CaseStudies, ProofPoints, ValueProps, Customers, UseCases, Personas, Differentiators]

  /** The eight extractors' results as later stages look them up. */
  datatype Elements = Elements(offerings: Option<Value>, caseStudies: Option<Value>, proofPoints: Option<Value>,
                               valueProps: Option<Value>, customers: Option<Value>, useCases: Option<Value>,
                               personas: Option<Value>, differentiators: Option<Value>)

  /** The stage's output with nothing extracted. */
  function EmptyExtraction(e: Extractor): (r: StepOutput)
    ensures r.success && Get(r.content, e.key) == Ok(EmptyList)
  {
    StepOutput(Single(e.key, EmptyList), true)
  }

  /** The vendor pages of a step 5 result: `scrape_data.get("vendor_content", {})`. */
  function VendorPages(scrape: Value): Try<Value> {
    GetOr(scrape, "vendor_content", EmptyDict)
  }

  /** What the agent's reply yields: the records under `e.attr`, dumped. */
  function Records(e: Extractor, reply: Value): (r: Try<StepOutput>)
    ensures !Truthy(reply) || !HasAttr(reply, e.attr) ==> r == Ok(ErrorResponse(e.failure))
    ensures r.Ok? && r.value.success ==>
              HasAttr(reply, e.attr) && ModelDumps(reply.d.vals[e.attr]).Ok?
              && r.value.content == Single(e.key, VList(ModelDumps(reply.d.vals[e.attr]).value))
              && |ModelDumps(reply.d.vals[e.attr]).value| == Len(reply.d.vals[e.attr]).value
  {
    if !Truthy(reply) || !HasAttr(reply, e.attr) then Ok(ErrorResponse(e.failure))
    else
      var records := reply.d.vals[e.attr];
      var count :- Len(records);
      var dumped :- ModelDumps(records);
      Ok(StepOutput(Single(e.key, VList(dumped)), true))
  }

  /** The body of the stage's `try`. */
  function ExtractAttempt(e: Extractor, scrape: Option<Value>, agent: string -> Try<Value>): Try<StepOutput> {
    if !Present(scrape) then Ok(ErrorResponse(NoBatchData))
    else
      var pages :- VendorPages(scrape.value);
      if !Truthy(pages) then Ok(EmptyExtraction(e))
      else if !pages.VDict? then Throw
      else
        var reply :- agent(e.prompt + PageDigest(pages.d));
        Records(e, reply)
  }

  /** One `extract_*` stage. Every exception becomes an error response. */
  function Extract(e: Extractor, scrape: Option<Value>, agent: string -> Try<Value>): (r: StepOutput)
    ensures !Present(scrape) ==> r == ErrorResponse(NoBatchData)
    ensures Present(scrape) && VendorPages(scrape.value).Ok? && !Truthy(VendorPages(scrape.value).value) ==> r == EmptyExtraction(e)
    ensures Present(scrape) && VendorPages(scrape.value).Throw? ==> r == ErrorResponse(e.errorPrefix)
    ensures Present(scrape) && VendorPages(scrape.value).Ok? && Truthy(VendorPages(scrape.value).value)
            && VendorPages(scrape.value).value.VDict? ==>
              var reply := agent(e.prompt + PageDigest(VendorPages(scrape.value).value.d));
              (reply.Throw? ==> r == ErrorResponse(e.errorPrefix))
              && (reply.Ok? ==> r == Guarded(Records(e, reply.value), e.errorPrefix))
    ensures r.success && r.content != EmptyExtraction(e).content ==>
              Present(scrape) && VendorPages(scrape.value).Ok? && VendorPages(scrape.value).value.VDict?
              && agent(e.prompt + PageDigest(VendorPages(scrape.value).value.d)).Ok?
  {
    Guarded(ExtractAttempt(e, scrape, agent), e.errorPrefix)
  }

  /** With no vendor pages the agent is never consulted. */
  lemma EmptyPagesSkipAgent(e: Extractor, scrape: Option<Value>, agent1: string -> Try<Value>, agent2: string -> Try<Value>)
    requires Present(scrape) && VendorPages(scrape.value).Ok? && !Truthy(VendorPages(scrape.value).value)
    ensures Extract(e, scrape, agent1) == Extract(e, scrape, agent2) == EmptyExtraction(e)
  {
  }

  /** A successful extraction has one entry per record the agent returned,
      in its order, under the stage's key. */
  lemma OneEntryPerRecord(e: Extractor, scrape: Option<Value>, agent: string -> Try<Value>, pages: ODict<Value>, reply: Value)
    requires Present(scrape) && VendorPages(scrape.value) == Ok(VDict(pages)) && pages.keys != []
    requires agent(e.prompt + PageDigest(pages)) == Ok(reply)
    requires HasAttr(reply, e.attr) && reply.d.vals[e.attr].VList?
    requires forall i :: 0 <= i < |reply.d.vals[e.attr].items| ==> reply.d.vals[e.attr].items[i].VDict?
    requires Truthy(reply)
    ensures Extract(e, scrape, agent) == StepOutput(Single(e.key, reply.d.vals[e.attr]), true)
  {
  }

  /** Each extractor writes its own key, so the eight outputs never collide. */
  lemma ExtractorKeysDistinct()
    ensures |Extractors| == 8
    ensures forall i, j :: 0 <= i < j < |Extractors| ==> Extractors[i].key != Extractors[j].key && Extractors[i].stage != Extractors[j].stage
  {
  }

  /** An extractor's output is a dict whose only key is its own, or "error". */
  lemma OutputKeys(e: Extractor, scrape: Option<Value>, agent: string -> Try<Value>)
    ensures var c := Extract(e, scrape, agent).content;
            c.VDict? && Truthy(c) && forall k :: k in c.d.vals ==> k == e.key || k == "error"
  {
    var body := ExtractAttempt(e, scrape, agent);
    if body.Ok? && body.value.success {
      if Present(scrape) && VendorPages(scrape.value).Ok? && Truthy(VendorPages(scrape.value).value) {
        var reply := agent(e.prompt + PageDigest(VendorPages(scrape.value).value.d));
        assert Records(e, reply.value) == Ok(body.value);
      }
    }
  }
}
