/** The vendor element records (models/vendor_elements.py) as validation of a JSON object and its dump. */
module VendorSchema {
  import opened Values
  import opened Schema

  /** The kinds of proof point. */
  datatype ProofKind = Testimonial | Statistic | Award | Certification {
    function Name(): string {
      match this
      case Testimonial => "testimonial"
      case Statistic => "statistic"
      case Award => "award"
      case Certification => "certification"
    }
  }

  /** The `Literal` check: exactly the listed strings are accepted. */
  function ParseProofKind(s: string): (r: Option<ProofKind>)
    ensures forall c: ProofKind :: r == Some(c) <==> c.Name() == s
  {
    if s == "testimonial" then Some(Testimonial)
    else if s == "statistic" then Some(Statistic)
    else if s == "award" then Some(Award)
    else if s == "certification" then Some(Certification)
    else None
  }

  /** How a reference customer relates to the vendor. */
  datatype Relationship = Customer | Partner | Integration {
    function Name(): string {
      match this
      case Customer => "customer"
      case Partner => "partner"
      case Integration => "integration"
    }
  }

  /** The `Literal` check: exactly the listed strings are accepted. */
  function ParseRelationship(s: string): (r: Option<Relationship>)
    ensures forall c: Relationship :: r == Some(c) <==> c.Name() == s
  {
    if s == "customer" then Some(Customer)
    else if s == "partner" then Some(Partner)
    else if s == "integration" then Some(Integration)
    else None
  }

  /** The categories of differentiator. */
  datatype DifferentiatorCategory = Feature | Approach | MarketPosition | Technology {
    function Name(): string {
      match this
      case Feature => "feature"
      case Approach => "approach"
      case MarketPosition => "market_position"
      case Technology => "technology"
    }
  }

  /** The `Literal` check: exactly the listed strings are accepted. */
  function ParseDifferentiatorCategory(s: string): (r: Option<DifferentiatorCategory>)
    ensures forall c: DifferentiatorCategory :: r == Some(c) <==> c.Name() == s
  {
    if s == "feature" then Some(Feature)
    else if s == "approach" then Some(Approach)
    else if s == "market_position" then Some(MarketPosition)
    else if s == "technology" then Some(Technology)
    else None
  }

  /** A product or service the vendor offers. */
  datatype Offering = Offering(name: string, description: string, features: seq<string>, pricingIndicators: Option<string>, targetAudience: Option<string>, sources: seq<Value>)

  function OfferingKeys(): (r: seq<string>)
    ensures |r| == 6 && Distinct(r)
  {
    ["name", "description", "features", "pricing_indicators", "target_audience", "sources"]
  }

  /** Validating a `Offering`: the required fields are present, and an absent
      field takes its default. */
  function ParseOffering(v: Value): (r: Option<Offering>)
    ensures r.Some? ==> v.VDict? && "name" in v.d.vals && "description" in v.d.vals
                        && ("features" !in v.d.vals ==> r.value.features == [])
                        && ("pricing_indicators" !in v.d.vals ==> r.value.pricingIndicators == None)
                        && ("target_audience" !in v.d.vals ==> r.value.targetAudience == None)
                        && ("sources" !in v.d.vals ==> r.value.sources == [])
  {
    if !v.VDict? then None
    else
      var d := v.d;
      var name := Str(d, "name");
      var description := Str(d, "description");
      var features := StrList(d, "features", false);
      var pricingIndicators := OptStr(d, "pricing_indicators");
      var targetAudience := OptStr(d, "target_audience");
      var sources := Items(d, "sources");
      if name.Some? && description.Some? && features.Some? && pricingIndicators.Some?
         && targetAudience.Some? && sources.Some? then
        Some(Offering(name.value, description.value, features.value, pricingIndicators.value, targetAudience.value, sources.value))
      else None
  }

  /** `model_dump()`: every field under its name. */
  function DumpOffering(x: Offering): (r: Value)
    ensures r.VDict? && r.d.keys == OfferingKeys()
  {
    VDict(DictOf(OfferingKeys(), [VStr(x.name), VStr(x.description), StrListValue(x.features), OptValue(x.pricingIndicators), OptValue(x.targetAudience), VList(x.sources)]))
  }

  lemma OfferingEntries(x: Offering)
    ensures var d := DumpOffering(x).d;
            "name" in d.vals && d.vals["name"] == VStr(x.name)
            && "description" in d.vals && d.vals["description"] == VStr(x.description)
            && "features" in d.vals && d.vals["features"] == StrListValue(x.features)
            && "pricing_indicators" in d.vals && d.vals["pricing_indicators"] == OptValue(x.pricingIndicators)
            && "target_audience" in d.vals && d.vals["target_audience"] == OptValue(x.targetAudience)
            && "sources" in d.vals && d.vals["sources"] == VList(x.sources)
  {
    var ks := OfferingKeys();
    assert ks[0] == "name" && ks[1] == "description" && ks[2] == "features" && ks[3] == "pricing_indicators";
    assert ks[4] == "target_audience" && ks[5] == "sources";
  }

  /** A dumped `Offering` validates back to itself. */
  lemma OfferingRoundTrip(x: Offering)
    ensures ParseOffering(DumpOffering(x)) == Some(x)
  {
    var d := DumpOffering(x).d;
    OfferingEntries(x);
    assert Str(d, "name") == Some(x.name) by {
      StrDumps(d, "name", x.name);
    }
    assert Str(d, "description") == Some(x.description) by {
      StrDumps(d, "description", x.description);
    }
    assert StrList(d, "features", false) == Some(x.features) by {
      StrListDumps(d, "features", x.features, false);
    }
    assert OptStr(d, "pricing_indicators") == Some(x.pricingIndicators) by {
      OptStrDumps(d, "pricing_indicators", x.pricingIndicators);
    }
    assert OptStr(d, "target_audience") == Some(x.targetAudience) by {
      OptStrDumps(d, "target_audience", x.targetAudience);
    }
    assert Items(d, "sources") == Some(x.sources) by {
      ItemsDumps(d, "sources", x.sources);
    }
  }

  lemma OfferingListRoundTrip(xs: seq<Offering>)
    ensures Each(Dumps(xs, DumpOffering), ParseOffering) == Some(xs)
  {
    forall i | 0 <= i < |xs|
      ensures ParseOffering(DumpOffering(xs[i])) == Some(xs[i])
    {
      OfferingRoundTrip(xs[i]);
    }
    EachDumps(xs, DumpOffering, ParseOffering);
  }

  /** A customer success story. */
  datatype CaseStudy = CaseStudy(customerName: string, industry: Option<string>, companySize: Option<string>, challenge: string, solution: string, results: seq<string>, metrics: seq<string>, sources: seq<Value>)

  function CaseStudyKeys(): (r: seq<string>)
    ensures |r| == 8 && Distinct(r)
  {
    ["customer_name", "industry", "company_size", "challenge", "solution", "results", "metrics", "sources"]
  }

  /** Validating a `CaseStudy`: the required fields are present, and an absent
      field takes its default. */
  function ParseCaseStudy(v: Value): (r: Option<CaseStudy>)
    ensures r.Some? ==> v.VDict? && "customer_name" in v.d.vals && "challenge" in v.d.vals
                        && "solution" in v.d.vals
                        && ("industry" !in v.d.vals ==> r.value.industry == None)
                        && ("company_size" !in v.d.vals ==> r.value.companySize == None)
                        && ("results" !in v.d.vals ==> r.value.results == [])
                        && ("metrics" !in v.d.vals ==> r.value.metrics == [])
                        && ("sources" !in v.d.vals ==> r.value.sources == [])
  {
    if !v.VDict? then None
    else
      var d := v.d;
      var customerName := Str(d, "customer_name");
      var industry := OptStr(d, "industry");
      var companySize := OptStr(d, "company_size");
      var challenge := Str(d, "challenge");
      var solution := Str(d, "solution");
      var results := StrList(d, "results", false);
      var metrics := StrList(d, "metrics", false);
      var sources := Items(d, "sources");
      if customerName.Some? && industry.Some? && companySize.Some? && challenge.Some?
         && solution.Some? && results.Some? && metrics.Some? && sources.Some? then
        Some(CaseStudy(customerName.value, industry.value, companySize.value, challenge.value, solution.value, results.value, metrics.value, sources.value))
      else None
  }

  /** `model_dump()`: every field under its name. */
  function DumpCaseStudy(x: CaseStudy): (r: Value)
    ensures r.VDict? && r.d.keys == CaseStudyKeys()
  {
    VDict(DictOf(CaseStudyKeys(), [VStr(x.customerName), OptValue(x.industry), OptValue(x.companySize), VStr(x.challenge), VStr(x.solution), StrListValue(x.results), StrListValue(x.metrics), VList(x.sources)]))
  }

  lemma CaseStudyEntries(x: CaseStudy)
    ensures var d := DumpCaseStudy(x).d;
            "customer_name" in d.vals && d.vals["customer_name"] == VStr(x.customerName)
            && "industry" in d.vals && d.vals["industry"] == OptValue(x.industry)
            && "company_size" in d.vals && d.vals["company_size"] == OptValue(x.companySize)
            && "challenge" in d.vals && d.vals["challenge"] == VStr(x.challenge)
            && "solution" in d.vals && d.vals["solution"] == VStr(x.solution)
            && "results" in d.vals && d.vals["results"] == StrListValue(x.results)
            && "metrics" in d.vals && d.vals["metrics"] == StrListValue(x.metrics)
            && "sources" in d.vals && d.vals["sources"] == VList(x.sources)
  {
    var ks := CaseStudyKeys();
    assert ks[0] == "customer_name" && ks[1] == "industry" && ks[2] == "company_size" && ks[3] == "challenge";
    assert ks[4] == "solution" && ks[5] == "results" && ks[6] == "metrics" && ks[7] == "sources";
  }

  /** A dumped `CaseStudy` validates back to itself. */
  lemma CaseStudyRoundTrip(x: CaseStudy)
    ensures ParseCaseStudy(DumpCaseStudy(x)) == Some(x)
  {
    var d := DumpCaseStudy(x).d;
    CaseStudyEntries(x);
    assert Str(d, "customer_name") == Some(x.customerName) by {
      StrDumps(d, "customer_name", x.customerName);
    }
    assert OptStr(d, "industry") == Some(x.industry) by {
      OptStrDumps(d, "industry", x.industry);
    }
    assert OptStr(d, "company_size") == Some(x.companySize) by {
      OptStrDumps(d, "company_size", x.companySize);
    }
    assert Str(d, "challenge") == Some(x.challenge) by {
      StrDumps(d, "challenge", x.challenge);
    }
    assert Str(d, "solution") == Some(x.solution) by {
      StrDumps(d, "solution", x.solution);
    }
    assert StrList(d, "results", false) == Some(x.results) by {
      StrListDumps(d, "results", x.results, false);
    }
    assert StrList(d, "metrics", false) == Some(x.metrics) by {
      StrListDumps(d, "metrics", x.metrics, false);
    }
    assert Items(d, "sources") == Some(x.sources) by {
      ItemsDumps(d, "sources", x.sources);
    }
  }

  lemma CaseStudyListRoundTrip(xs: seq<CaseStudy>)
    ensures Each(Dumps(xs, DumpCaseStudy), ParseCaseStudy) == Some(xs)
  {
    forall i | 0 <= i < |xs|
      ensures ParseCaseStudy(DumpCaseStudy(xs[i])) == Some(xs[i])
    {
      CaseStudyRoundTrip(xs[i]);
    }
    EachDumps(xs, DumpCaseStudy, ParseCaseStudy);
  }

  /** A testimonial, statistic, award or certification. */
  datatype ProofPoint = ProofPoint(kind: ProofKind, content: string, sourceAttribution: Option<string>, sources: seq<Value>)

  function ProofPointKeys(): (r: seq<string>)
    ensures |r| == 4 && Distinct(r)
  {
    ["type", "content", "source_attribution", "sources"]
  }

  /** Validating a `ProofPoint`: the required fields are present, and an absent
      field takes its default. */
  function ParseProofPoint(v: Value): (r: Option<ProofPoint>)
    ensures r.Some? ==> v.VDict? && "type" in v.d.vals && "content" in v.d.vals
                        && ("source_attribution" !in v.d.vals ==> r.value.sourceAttribution == None)
                        && ("sources" !in v.d.vals ==> r.value.sources == [])
  {
    if !v.VDict? then None
    else
      var d := v.d;
      var kind := Choice(d, "type", ParseProofKind);
      var content := Str(d, "content");
      var sourceAttribution := OptStr(d, "source_attribution");
      var sources := Items(d, "sources");
      if kind.Some? && content.Some? && sourceAttribution.Some? && sources.Some? then
        Some(ProofPoint(kind.value, content.value, sourceAttribution.value, sources.value))
      else None
  }

  /** `model_dump()`: every field under its name. */
  function DumpProofPoint(x: ProofPoint): (r: Value)
    ensures r.VDict? && r.d.keys == ProofPointKeys()
  {
    VDict(DictOf(ProofPointKeys(), [VStr(x.kind.Name()), VStr(x.content), OptValue(x.sourceAttribution), VList(x.sources)]))
  }

  lemma ProofPointEntries(x: ProofPoint)
    ensures var d := DumpProofPoint(x).d;
            "type" in d.vals && d.vals["type"] == VStr(x.kind.Name())
            && "content" in d.vals && d.vals["content"] == VStr(x.content)
            && "source_attribution" in d.vals && d.vals["source_attribution"] == OptValue(x.sourceAttribution)
            && "sources" in d.vals && d.vals["sources"] == VList(x.sources)
  {
    var ks := ProofPointKeys();
    assert ks[0] == "type" && ks[1] == "content" && ks[2] == "source_attribution" && ks[3] == "sources";
  }

  /** A dumped `ProofPoint` validates back to itself. */
  lemma ProofPointRoundTrip(x: ProofPoint)
    ensures ParseProofPoint(DumpProofPoint(x)) == Some(x)
  {
    var d := DumpProofPoint(x).d;
    ProofPointEntries(x);
    assert Choice(d, "type", ParseProofKind) == Some(x.kind) by {
      ChoiceDumps(d, "type", ParseProofKind, x.kind.Name(), x.kind);
    }
    assert Str(d, "content") == Some(x.content) by {
      StrDumps(d, "content", x.content);
    }
    assert OptStr(d, "source_attribution") == Some(x.sourceAttribution) by {
      OptStrDumps(d, "source_attribution", x.sourceAttribution);
    }
    assert Items(d, "sources") == Some(x.sources) by {
      ItemsDumps(d, "sources", x.sources);
    }
  }

  lemma ProofPointListRoundTrip(xs: seq<ProofPoint>)
    ensures Each(Dumps(xs, DumpProofPoint), ParseProofPoint) == Some(xs)
  {
    forall i | 0 <= i < |xs|
      ensures ParseProofPoint(DumpProofPoint(xs[i])) == Some(xs[i])
    {
      ProofPointRoundTrip(xs[i]);
    }
    EachDumps(xs, DumpProofPoint, ParseProofPoint);
  }

  /** A core value proposition. */
  datatype ValueProposition = ValueProposition(statement: string, benefits: seq<string>, differentiation: Option<string>, targetPersona: Option<string>, sources: seq<Value>)

  function ValuePropositionKeys(): (r: seq<string>)
    ensures |r| == 5 && Distinct(r)
  {
    ["statement", "benefits", "differentiation", "target_persona", "sources"]
  }

  /** Validating a `ValueProposition`: the required fields are present, and an absent
      field takes its default. */
  function ParseValueProposition(v: Value): (r: Option<ValueProposition>)
    ensures r.Some? ==> v.VDict? && "statement" in v.d.vals
                        && ("benefits" !in v.d.vals ==> r.value.benefits == [])
                        && ("differentiation" !in v.d.vals ==> r.value.differentiation == None)
                        && ("target_persona" !in v.d.vals ==> r.value.targetPersona == None)
                        && ("sources" !in v.d.vals ==> r.value.sources == [])
  {
    if !v.VDict? then None
    else
      var d := v.d;
      var statement := Str(d, "statement");
      var benefits := StrList(d, "benefits", false);
      var differentiation := OptStr(d, "differentiation");
      var targetPersona := OptStr(d, "target_persona");
      var sources := Items(d, "sources");
      if statement.Some? && benefits.Some? && differentiation.Some? && targetPersona.Some?
         && sources.Some? then
        Some(ValueProposition(statement.value, benefits.value, differentiation.value, targetPersona.value, sources.value))
      else None
  }

  /** `model_dump()`: every field under its name. */
  function DumpValueProposition(x: ValueProposition): (r: Value)
    ensures r.VDict? && r.d.keys == ValuePropositionKeys()
  {
    VDict(DictOf(ValuePropositionKeys(), [VStr(x.statement), StrListValue(x.benefits), OptValue(x.differentiation), OptValue(x.targetPersona), VList(x.sources)]))
  }

  lemma ValuePropositionEntries(x: ValueProposition)
    ensures var d := DumpValueProposition(x).d;
            "statement" in d.vals && d.vals["statement"] == VStr(x.statement)
            && "benefits" in d.vals && d.vals["benefits"] == StrListValue(x.benefits)
            && "differentiation" in d.vals && d.vals["differentiation"] == OptValue(x.differentiation)
            && "target_persona" in d.vals && d.vals["target_persona"] == OptValue(x.targetPersona)
            && "sources" in d.vals && d.vals["sources"] == VList(x.sources)
  {
    var ks := ValuePropositionKeys();
    assert ks[0] == "statement" && ks[1] == "benefits" && ks[2] == "differentiation" && ks[3] == "target_persona";
    assert ks[4] == "sources";
  }

  /** A dumped `ValueProposition` validates back to itself. */
  lemma ValuePropositionRoundTrip(x: ValueProposition)
    ensures ParseValueProposition(DumpValueProposition(x)) == Some(x)
  {
    var d := DumpValueProposition(x).d;
    ValuePropositionEntries(x);
    assert Str(d, "statement") == Some(x.statement) by {
      StrDumps(d, "statement", x.statement);
    }
    assert StrList(d, "benefits", false) == Some(x.benefits) by {
      StrListDumps(d, "benefits", x.benefits, false);
    }
    assert OptStr(d, "differentiation") == Some(x.differentiation) by {
      OptStrDumps(d, "differentiation", x.differentiation);
    }
    assert OptStr(d, "target_persona") == Some(x.targetPersona) by {
      OptStrDumps(d, "target_persona", x.targetPersona);
    }
    assert Items(d, "sources") == Some(x.sources) by {
      ItemsDumps(d, "sources", x.sources);
    }
  }

  lemma ValuePropositionListRoundTrip(xs: seq<ValueProposition>)
    ensures Each(Dumps(xs, DumpValueProposition), ParseValueProposition) == Some(xs)
  {
    forall i | 0 <= i < |xs|
      ensures ParseValueProposition(DumpValueProposition(xs[i])) == Some(xs[i])
    {
      ValuePropositionRoundTrip(xs[i]);
    }
    EachDumps(xs, DumpValueProposition, ParseValueProposition);
  }

  /** A customer, partner or integration the vendor names. */
  datatype ReferenceCustomer = ReferenceCustomer(name: string, logoUrl: Option<string>, industry: Option<string>, companySize: Option<string>, relationship: Relationship, sources: seq<Value>)

  function ReferenceCustomerKeys(): (r: seq<string>)
    ensures |r| == 6 && Distinct(r)
  {
    ["name", "logo_url", "industry", "company_size", "relationship", "sources"]
  }

  /** Validating a `ReferenceCustomer`: the required fields are present, and an absent
      field takes its default. */
  function ParseReferenceCustomer(v: Value): (r: Option<ReferenceCustomer>)
    ensures r.Some? ==> v.VDict? && "name" in v.d.vals && "relationship" in v.d.vals
                        && ("logo_url" !in v.d.vals ==> r.value.logoUrl == None)
                        && ("industry" !in v.d.vals ==> r.value.industry == None)
                        && ("company_size" !in v.d.vals ==> r.value.companySize == None)
                        && ("sources" !in v.d.vals ==> r.value.sources == [])
  {
    if !v.VDict? then None
    else
      var d := v.d;
      var name := Str(d, "name");
      var logoUrl := OptStr(d, "logo_url");
      var industry := OptStr(d, "industry");
      var companySize := OptStr(d, "company_size");
      var relationship := Choice(d, "relationship", ParseRelationship);
      var sources := Items(d, "sources");
      if name.Some? && logoUrl.Some? && industry.Some? && companySize.Some?
         && relationship.Some? && sources.Some? then
        Some(ReferenceCustomer(name.value, logoUrl.value, industry.value, companySize.value, relationship.value, sources.value))
      else None
  }

  /** `model_dump()`: every field under its name. */
  function DumpReferenceCustomer(x: ReferenceCustomer): (r: Value)
    ensures r.VDict? && r.d.keys == ReferenceCustomerKeys()
  {
    VDict(DictOf(ReferenceCustomerKeys(), [VStr(x.name), OptValue(x.logoUrl), OptValue(x.industry), OptValue(x.companySize), VStr(x.relationship.Name()), VList(x.sources)]))
  }

  lemma ReferenceCustomerEntries(x: ReferenceCustomer)
    ensures var d := DumpReferenceCustomer(x).d;
            "name" in d.vals && d.vals["name"] == VStr(x.name)
            && "logo_url" in d.vals && d.vals["logo_url"] == OptValue(x.logoUrl)
            && "industry" in d.vals && d.vals["industry"] == OptValue(x.industry)
            && "company_size" in d.vals && d.vals["company_size"] == OptValue(x.companySize)
            && "relationship" in d.vals && d.vals["relationship"] == VStr(x.relationship.Name())
            && "sources" in d.vals && d.vals["sources"] == VList(x.sources)
  {
    var ks := ReferenceCustomerKeys();
    assert ks[0] == "name" && ks[1] == "logo_url" && ks[2] == "industry" && ks[3] == "company_size";
    assert ks[4] == "relationship" && ks[5] == "sources";
  }

  /** A dumped `ReferenceCustomer` validates back to itself. */
  lemma ReferenceCustomerRoundTrip(x: ReferenceCustomer)
    ensures ParseReferenceCustomer(DumpReferenceCustomer(x)) == Some(x)
  {
    var d := DumpReferenceCustomer(x).d;
    ReferenceCustomerEntries(x);
    assert Str(d, "name") == Some(x.name) by {
      StrDumps(d, "name", x.name);
    }
    assert OptStr(d, "logo_url") == Some(x.logoUrl) by {
      OptStrDumps(d, "logo_url", x.logoUrl);
    }
    assert OptStr(d, "industry") == Some(x.industry) by {
      OptStrDumps(d, "industry", x.industry);
    }
    assert OptStr(d, "company_size") == Some(x.companySize) by {
      OptStrDumps(d, "company_size", x.companySize);
    }
    assert Choice(d, "relationship", ParseRelationship) == Some(x.relationship) by {
      ChoiceDumps(d, "relationship", ParseRelationship, x.relationship.Name(), x.relationship);
    }
    assert Items(d, "sources") == Some(x.sources) by {
      ItemsDumps(d, "sources", x.sources);
    }
  }

  lemma ReferenceCustomerListRoundTrip(xs: seq<ReferenceCustomer>)
    ensures Each(Dumps(xs, DumpReferenceCustomer), ParseReferenceCustomer) == Some(xs)
  {
    forall i | 0 <= i < |xs|
      ensures ParseReferenceCustomer(DumpReferenceCustomer(xs[i])) == Some(xs[i])
    {
      ReferenceCustomerRoundTrip(xs[i]);
    }
    EachDumps(xs, DumpReferenceCustomer, ParseReferenceCustomer);
  }

  /** A use case or workflow the vendor solves. */
  datatype UseCase = UseCase(title: string, description: string, targetPersona: Option<string>, targetIndustry: Option<string>, problemsSolved: seq<string>, keyFeaturesUsed: seq<string>, sources: seq<Value>)

  function UseCaseKeys(): (r: seq<string>)
    ensures |r| == 7 && Distinct(r)
  {
    ["title", "description", "target_persona", "target_industry", "problems_solved", "key_features_used", "sources"]
  }

  /** Validating a `UseCase`: the required fields are present, and an absent
      field takes its default. */
  function ParseUseCase(v: Value): (r: Option<UseCase>)
    ensures r.Some? ==> v.VDict? && "title" in v.d.vals && "description" in v.d.vals
                        && ("target_persona" !in v.d.vals ==> r.value.targetPersona == None)
                        && ("target_industry" !in v.d.vals ==> r.value.targetIndustry == None)
                        && ("problems_solved" !in v.d.vals ==> r.value.problemsSolved == [])
                        && ("key_features_used" !in v.d.vals ==> r.value.keyFeaturesUsed == [])
                        && ("sources" !in v.d.vals ==> r.value.sources == [])
  {
    if !v.VDict? then None
    else
      var d := v.d;
      var title := Str(d, "title");
      var description := Str(d, "description");
      var targetPersona := OptStr(d, "target_persona");
      var targetIndustry := OptStr(d, "target_industry");
      var problemsSolved := StrList(d, "problems_solved", false);
      var keyFeaturesUsed := StrList(d, "key_features_used", false);
      var sources := Items(d, "sources");
      if title.Some? && description.Some? && targetPersona.Some? && targetIndustry.Some?
         && problemsSolved.Some? && keyFeaturesUsed.Some? && sources.Some? then
        Some(UseCase(title.value, description.value, targetPersona.value, targetIndustry.value, problemsSolved.value, keyFeaturesUsed.value, sources.value))
      else None
  }

  /** `model_dump()`: every field under its name. */
  function DumpUseCase(x: UseCase): (r: Value)
    ensures r.VDict? && r.d.keys == UseCaseKeys()
  {
    VDict(DictOf(UseCaseKeys(), [VStr(x.title), VStr(x.description), OptValue(x.targetPersona), OptValue(x.targetIndustry), StrListValue(x.problemsSolved), StrListValue(x.keyFeaturesUsed), VList(x.sources)]))
  }

  lemma UseCaseEntries(x: UseCase)
    ensures var d := DumpUseCase(x).d;
            "title" in d.vals && d.vals["title"] == VStr(x.title)
            && "description" in d.vals && d.vals["description"] == VStr(x.description)
            && "target_persona" in d.vals && d.vals["target_persona"] == OptValue(x.targetPersona)
            && "target_industry" in d.vals && d.vals["target_industry"] == OptValue(x.targetIndustry)
            && "problems_solved" in d.vals && d.vals["problems_solved"] == StrListValue(x.problemsSolved)
            && "key_features_used" in d.vals && d.vals["key_features_used"] == StrListValue(x.keyFeaturesUsed)
            && "sources" in d.vals && d.vals["sources"] == VList(x.sources)
  {
    var ks := UseCaseKeys();
    assert ks[0] == "title" && ks[1] == "description" && ks[2] == "target_persona" && ks[3] == "target_industry";
    assert ks[4] == "problems_solved" && ks[5] == "key_features_used" && ks[6] == "sources";
  }

  /** A dumped `UseCase` validates back to itself. */
  lemma UseCaseRoundTrip(x: UseCase)
    ensures ParseUseCase(DumpUseCase(x)) == Some(x)
  {
    var d := DumpUseCase(x).d;
    UseCaseEntries(x);
    assert Str(d, "title") == Some(x.title) by {
      StrDumps(d, "title", x.title);
    }
    assert Str(d, "description") == Some(x.description) by {
      StrDumps(d, "description", x.description);
    }
    assert OptStr(d, "target_persona") == Some(x.targetPersona) by {
      OptStrDumps(d, "target_persona", x.targetPersona);
    }
    assert OptStr(d, "target_industry") == Some(x.targetIndustry) by {
      OptStrDumps(d, "target_industry", x.targetIndustry);
    }
    assert StrList(d, "problems_solved", false) == Some(x.problemsSolved) by {
      StrListDumps(d, "problems_solved", x.problemsSolved, false);
    }
    assert StrList(d, "key_features_used", false) == Some(x.keyFeaturesUsed) by {
      StrListDumps(d, "key_features_used", x.keyFeaturesUsed, false);
    }
    assert Items(d, "sources") == Some(x.sources) by {
      ItemsDumps(d, "sources", x.sources);
    }
  }

  lemma UseCaseListRoundTrip(xs: seq<UseCase>)
    ensures Each(Dumps(xs, DumpUseCase), ParseUseCase) == Some(xs)
  {
    forall i | 0 <= i < |xs|
      ensures ParseUseCase(DumpUseCase(xs[i])) == Some(xs[i])
    {
      UseCaseRoundTrip(xs[i]);
    }
    EachDumps(xs, DumpUseCase, ParseUseCase);
  }

  /** A buyer profile the vendor typically sells to (not one at the prospect). */
  datatype TargetPersona = TargetPersona(title: string, department: Option<string>, responsibilities: seq<string>, painPoints: seq<string>, sources: seq<Value>)

  function TargetPersonaKeys(): (r: seq<string>)
    ensures |r| == 5 && Distinct(r)
  {
    ["title", "department", "responsibilities", "pain_points", "sources"]
  }

  /** Validating a `TargetPersona`: the required fields are present, and an absent
      field takes its default. */
  function ParseTargetPersona(v: Value): (r: Option<TargetPersona>)
    ensures r.Some? ==> v.VDict? && "title" in v.d.vals
                        && ("department" !in v.d.vals ==> r.value.department == None)
                        && ("responsibilities" !in v.d.vals ==> r.value.responsibilities == [])
                        && ("pain_points" !in v.d.vals ==> r.value.painPoints == [])
                        && ("sources" !in v.d.vals ==> r.value.sources == [])
  {
    if !v.VDict? then None
    else
      var d := v.d;
      var title := Str(d, "title");
      var department := OptStr(d, "department");
      var responsibilities := StrList(d, "responsibilities", false);
      var painPoints := StrList(d, "pain_points", false);
      var sources := Items(d, "sources");
      if title.Some? && department.Some? && responsibilities.Some? && painPoints.Some?
         && sources.Some? then
        Some(TargetPersona(title.value, department.value, responsibilities.value, painPoints.value, sources.value))
      else None
  }

  /** `model_dump()`: every field under its name. */
  function DumpTargetPersona(x: TargetPersona): (r: Value)
    ensures r.VDict? && r.d.keys == TargetPersonaKeys()
  {
    VDict(DictOf(TargetPersonaKeys(), [VStr(x.title), OptValue(x.department), StrListValue(x.responsibilities), StrListValue(x.painPoints), VList(x.sources)]))
  }

  lemma TargetPersonaEntries(x: TargetPersona)
    ensures var d := DumpTargetPersona(x).d;
            "title" in d.vals && d.vals["title"] == VStr(x.title)
            && "department" in d.vals && d.vals["department"] == OptValue(x.department)
            && "responsibilities" in d.vals && d.vals["responsibilities"] == StrListValue(x.responsibilities)
            && "pain_points" in d.vals && d.vals["pain_points"] == StrListValue(x.painPoints)
            && "sources" in d.vals && d.vals["sources"] == VList(x.sources)
  {
    var ks := TargetPersonaKeys();
    assert ks[0] == "title" && ks[1] == "department" && ks[2] == "responsibilities" && ks[3] == "pain_points";
    assert ks[4] == "sources";
  }

  /** A dumped `TargetPersona` validates back to itself. */
  lemma TargetPersonaRoundTrip(x: TargetPersona)
    ensures ParseTargetPersona(DumpTargetPersona(x)) == Some(x)
  {
    var d := DumpTargetPersona(x).d;
    TargetPersonaEntries(x);
    assert Str(d, "title") == Some(x.title) by {
      StrDumps(d, "title", x.title);
    }
    assert OptStr(d, "department") == Some(x.department) by {
      OptStrDumps(d, "department", x.department);
    }
    assert StrList(d, "responsibilities", false) == Some(x.responsibilities) by {
      StrListDumps(d, "responsibilities", x.responsibilities, false);
    }
    assert StrList(d, "pain_points", false) == Some(x.painPoints) by {
      StrListDumps(d, "pain_points", x.painPoints, false);
    }
    assert Items(d, "sources") == Some(x.sources) by {
      ItemsDumps(d, "sources", x.sources);
    }
  }

  lemma TargetPersonaListRoundTrip(xs: seq<TargetPersona>)
    ensures Each(Dumps(xs, DumpTargetPersona), ParseTargetPersona) == Some(xs)
  {
    forall i | 0 <= i < |xs|
      ensures ParseTargetPersona(DumpTargetPersona(xs[i])) == Some(xs[i])
    {
      TargetPersonaRoundTrip(xs[i]);
    }
    EachDumps(xs, DumpTargetPersona, ParseTargetPersona);
  }

  /** A competitive differentiator. */
  datatype Differentiator = Differentiator(category: DifferentiatorCategory, statement: string, vsAlternative: Option<string>, evidence: seq<string>, sources: seq<Value>)

  function DifferentiatorKeys(): (r: seq<string>)
    ensures |r| == 5 && Distinct(r)
  {
    ["category", "statement", "vs_alternative", "evidence", "sources"]
  }

  /** Validating a `Differentiator`: the required fields are present, and an absent
      field takes its default. */
  function ParseDifferentiator(v: Value): (r: Option<Differentiator>)
    ensures r.Some? ==> v.VDict? && "category" in v.d.vals && "statement" in v.d.vals
                        && ("vs_alternative" !in v.d.vals ==> r.value.vsAlternative == None)
                        && ("evidence" !in v.d.vals ==> r.value.evidence == [])
                        && ("sources" !in v.d.vals ==> r.value.sources == [])
  {
    if !v.VDict? then None
    else
      var d := v.d;
      var category := Choice(d, "category", ParseDifferentiatorCategory);
      var statement := Str(d, "statement");
      var vsAlternative := OptStr(d, "vs_alternative");
      var evidence := StrList(d, "evidence", false);
      var sources := Items(d, "sources");
      if category.Some? && statement.Some? && vsAlternative.Some? && evidence.Some?
         && sources.Some? then
        Some(Differentiator(category.value, statement.value, vsAlternative.value, evidence.value, sources.value))
      else None
  }

  /** `model_dump()`: every field under its name. */
  function DumpDifferentiator(x: Differentiator): (r: Value)
    ensures r.VDict? && r.d.keys == DifferentiatorKeys()
  {
    VDict(DictOf(DifferentiatorKeys(), [VStr(x.category.Name()), VStr(x.statement), OptValue(x.vsAlternative), StrListValue(x.evidence), VList(x.sources)]))
  }

  lemma DifferentiatorEntries(x: Differentiator)
    ensures var d := DumpDifferentiator(x).d;
            "category" in d.vals && d.vals["category"] == VStr(x.category.Name())
            && "statement" in d.vals && d.vals["statement"] == VStr(x.statement)
            && "vs_alternative" in d.vals && d.vals["vs_alternative"] == OptValue(x.vsAlternative)
            && "evidence" in d.vals && d.vals["evidence"] == StrListValue(x.evidence)
            && "sources" in d.vals && d.vals["sources"] == VList(x.sources)
  {
    var ks := DifferentiatorKeys();
    assert ks[0] == "category" && ks[1] == "statement" && ks[2] == "vs_alternative" && ks[3] == "evidence";
    assert ks[4] == "sources";
  }

  /** A dumped `Differentiator` validates back to itself. */
  lemma DifferentiatorRoundTrip(x: Differentiator)
    ensures ParseDifferentiator(DumpDifferentiator(x)) == Some(x)
  {
    var d := DumpDifferentiator(x).d;
    DifferentiatorEntries(x);
    assert Choice(d, "category", ParseDifferentiatorCategory) == Some(x.category) by {
      ChoiceDumps(d, "category", ParseDifferentiatorCategory, x.category.Name(), x.category);
    }
    assert Str(d, "statement") == Some(x.statement) by {
      StrDumps(d, "statement", x.statement);
    }
    assert OptStr(d, "vs_alternative") == Some(x.vsAlternative) by {
      OptStrDumps(d, "vs_alternative", x.vsAlternative);
    }
    assert StrList(d, "evidence", false) == Some(x.evidence) by {
      StrListDumps(d, "evidence", x.evidence, false);
    }
    assert Items(d, "sources") == Some(x.sources) by {
      ItemsDumps(d, "sources", x.sources);
    }
  }

  lemma DifferentiatorListRoundTrip(xs: seq<Differentiator>)
    ensures Each(Dumps(xs, DumpDifferentiator), ParseDifferentiator) == Some(xs)
  {
    forall i | 0 <= i < |xs|
      ensures ParseDifferentiator(DumpDifferentiator(xs[i])) == Some(xs[i])
    {
      DifferentiatorRoundTrip(xs[i]);
    }
    EachDumps(xs, DumpDifferentiator, ParseDifferentiator);
  }

  /** The vendor's whole element library; every list defaults to empty. */
  datatype VendorElements = VendorElements(offerings: seq<Offering>, caseStudies: seq<CaseStudy>, proofPoints: seq<ProofPoint>, valuePropositions: seq<ValueProposition>, referenceCustomers: seq<ReferenceCustomer>, useCases: seq<UseCase>, vendorIcpPersonas: seq<TargetPersona>, differentiators: seq<Differentiator>)

  function VendorElementsKeys(): (r: seq<string>)
    ensures |r| == 8 && Distinct(r)
  {
    ["offerings", "case_studies", "proof_points", "value_propositions", "reference_customers", "use_cases", "vendor_icp_personas", "differentiators"]
  }

  /** Validating a `VendorElements`: the required fields are present, and an absent
      field takes its default. */
  function ParseVendorElements(v: Value): (r: Option<VendorElements>)
    ensures r.Some? ==> v.VDict?
                        && ("offerings" !in v.d.vals ==> r.value.offerings == [])
                        && ("case_studies" !in v.d.vals ==> r.value.caseStudies == [])
                        && ("proof_points" !in v.d.vals ==> r.value.proofPoints == [])
                        && ("value_propositions" !in v.d.vals ==> r.value.valuePropositions == [])
                        && ("reference_customers" !in v.d.vals ==> r.value.referenceCustomers == [])
                        && ("use_cases" !in v.d.vals ==> r.value.useCases == [])
                        && ("vendor_icp_personas" !in v.d.vals ==> r.value.vendorIcpPersonas == [])
                        && ("differentiators" !in v.d.vals ==> r.value.differentiators == [])
  {
    if !v.VDict? then None
    else
      var d := v.d;
      var offerings := List(d, "offerings", false, ParseOffering);
      var caseStudies := List(d, "case_studies", false, ParseCaseStudy);
      var proofPoints := List(d, "proof_points", false, ParseProofPoint);
      var valuePropositions := List(d, "value_propositions", false, ParseValueProposition);
      var referenceCustomers := List(d, "reference_customers", false, ParseReferenceCustomer);
      var useCases := List(d, "use_cases", false, ParseUseCase);
      var vendorIcpPersonas := List(d, "vendor_icp_personas", false, ParseTargetPersona);
      var differentiators := List(d, "differentiators", false, ParseDifferentiator);
      if offerings.Some? && caseStudies.Some? && proofPoints.Some? && valuePropositions.Some?
         && referenceCustomers.Some? && useCases.Some? && vendorIcpPersonas.Some? && differentiators.Some? then
        Some(VendorElements(offerings.value, caseStudies.value, proofPoints.value, valuePropositions.value, referenceCustomers.value, useCases.value, vendorIcpPersonas.value, differentiators.value))
      else None
  }

  /** `model_dump()`: every field under its name. */
  function DumpVendorElements(x: VendorElements): (r: Value)
    ensures r.VDict? && r.d.keys == VendorElementsKeys()
  {
    VDict(DictOf(VendorElementsKeys(), [VList(Dumps(x.offerings, DumpOffering)), VList(Dumps(x.caseStudies, DumpCaseStudy)), VList(Dumps(x.proofPoints, DumpProofPoint)), VList(Dumps(x.valuePropositions, DumpValueProposition)), VList(Dumps(x.referenceCustomers, DumpReferenceCustomer)), VList(Dumps(x.useCases, DumpUseCase)), VList(Dumps(x.vendorIcpPersonas, DumpTargetPersona)), VList(Dumps(x.differentiators, DumpDifferentiator))]))
  }

  lemma VendorElementsEntries(x: VendorElements)
    ensures var d := DumpVendorElements(x).d;
            "offerings" in d.vals && d.vals["offerings"] == VList(Dumps(x.offerings, DumpOffering))
            && "case_studies" in d.vals && d.vals["case_studies"] == VList(Dumps(x.caseStudies, DumpCaseStudy))
            && "proof_points" in d.vals && d.vals["proof_points"] == VList(Dumps(x.proofPoints, DumpProofPoint))
            && "value_propositions" in d.vals && d.vals["value_propositions"] == VList(Dumps(x.valuePropositions, DumpValueProposition))
            && "reference_customers" in d.vals && d.vals["reference_customers"] == VList(Dumps(x.referenceCustomers, DumpReferenceCustomer))
            && "use_cases" in d.vals && d.vals["use_cases"] == VList(Dumps(x.useCases, DumpUseCase))
            && "vendor_icp_personas" in d.vals && d.vals["vendor_icp_personas"] == VList(Dumps(x.vendorIcpPersonas, DumpTargetPersona))
            && "differentiators" in d.vals && d.vals["differentiators"] == VList(Dumps(x.differentiators, DumpDifferentiator))
  {
    var ks := VendorElementsKeys();
    assert ks[0] == "offerings" && ks[1] == "case_studies" && ks[2] == "proof_points" && ks[3] == "value_propositions";
    assert ks[4] == "reference_customers" && ks[5] == "use_cases" && ks[6] == "vendor_icp_personas" && ks[7] == "differentiators";
  }

  /** A dumped `VendorElements` validates back to itself. */
  lemma VendorElementsRoundTrip(x: VendorElements)
    ensures ParseVendorElements(DumpVendorElements(x)) == Some(x)
  {
    var d := DumpVendorElements(x).d;
    VendorElementsEntries(x);
    assert List(d, "offerings", false, ParseOffering) == Some(x.offerings) by {
      OfferingListRoundTrip(x.offerings);
      ListDumps(d, "offerings", false, ParseOffering, Dumps(x.offerings, DumpOffering), x.offerings);
    }
    assert List(d, "case_studies", false, ParseCaseStudy) == Some(x.caseStudies) by {
      CaseStudyListRoundTrip(x.caseStudies);
      ListDumps(d, "case_studies", false, ParseCaseStudy, Dumps(x.caseStudies, DumpCaseStudy), x.caseStudies);
    }
    assert List(d, "proof_points", false, ParseProofPoint) == Some(x.proofPoints) by {
      ProofPointListRoundTrip(x.proofPoints);
      ListDumps(d, "proof_points", false, ParseProofPoint, Dumps(x.proofPoints, DumpProofPoint), x.proofPoints);
    }
    assert List(d, "value_propositions", false, ParseValueProposition) == Some(x.valuePropositions) by {
      ValuePropositionListRoundTrip(x.valuePropositions);
      ListDumps(d, "value_propositions", false, ParseValueProposition, Dumps(x.valuePropositions, DumpValueProposition), x.valuePropositions);
    }
    assert List(d, "reference_customers", false, ParseReferenceCustomer) == Some(x.referenceCustomers) by {
      ReferenceCustomerListRoundTrip(x.referenceCustomers);
      ListDumps(d, "reference_customers", false, ParseReferenceCustomer, Dumps(x.referenceCustomers, DumpReferenceCustomer), x.referenceCustomers);
    }
    assert List(d, "use_cases", false, ParseUseCase) == Some(x.useCases) by {
      UseCaseListRoundTrip(x.useCases);
      ListDumps(d, "use_cases", false, ParseUseCase, Dumps(x.useCases, DumpUseCase), x.useCases);
    }
    assert List(d, "vendor_icp_personas", false, ParseTargetPersona) == Some(x.vendorIcpPersonas) by {
      TargetPersonaListRoundTrip(x.vendorIcpPersonas);
      ListDumps(d, "vendor_icp_personas", false, ParseTargetPersona, Dumps(x.vendorIcpPersonas, DumpTargetPersona), x.vendorIcpPersonas);
    }
    assert List(d, "differentiators", false, ParseDifferentiator) == Some(x.differentiators) by {
      DifferentiatorListRoundTrip(x.differentiators);
      ListDumps(d, "differentiators", false, ParseDifferentiator, Dumps(x.differentiators, DumpDifferentiator), x.differentiators);
    }
  }

}
