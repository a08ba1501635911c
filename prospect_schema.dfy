/** The prospect intelligence records (models/prospect_intelligence.py) as validation of a JSON object and its dump. */
module ProspectSchema {
  import opened Values
  import opened Schema

  /** The categories of pain point. */
  datatype PainCategory = Operational | Strategic | Technical | Market | Growth {
    function Name(): string {
      match this
      case Operational => "operational"
      case Strategic => "strategic"
      case Technical => "technical"
      case Market => "market"
      case Growth => "growth"
    }
  }

  /** The `Literal` check: exactly the listed strings are accepted. */
  function ParsePainCategory(s: string): (r: Option<PainCategory>)
    ensures forall c: PainCategory :: r == Some(c) <==> c.Name() == s
  {
    if s == "operational" then Some(Operational)
    else if s == "strategic" then Some(Strategic)
    else if s == "technical" then Some(Technical)
    else if s == "market" then Some(Market)
    else if s == "growth" then Some(Growth)
    else None
  }

  /** How strongly the content supports a pain point. */
  datatype Confidence = High | Medium | Low {
    function Name(): string {
      match this
      case High => "high"
      case Medium => "medium"
      case Low => "low"
    }
  }

  /** The `Literal` check: exactly the listed strings are accepted. */
  function ParseConfidence(s: string): (r: Option<Confidence>)
    ensures forall c: Confidence :: r == Some(c) <==> c.Name() == s
  {
    if s == "high" then Some(High)
    else if s == "medium" then Some(Medium)
    else if s == "low" then Some(Low)
    else None
  }

  /** The prospect company's context. */
  datatype CompanyProfile = CompanyProfile(companyName: string, industry: Option<string>, companySize: Option<string>, whatTheyDo: string, targetMarket: Option<string>, sources: seq<Value>)

  function CompanyProfileKeys(): (r: seq<string>)
    ensures |r| == 6 && Distinct(r)
  {
    ["company_name", "industry", "company_size", "what_they_do", "target_market", "sources"]
  }

  /** Validating a `CompanyProfile`: the required fields are present, and an absent
      field takes its default. */
  function ParseCompanyProfile(v: Value): (r: Option<CompanyProfile>)
    ensures r.Some? ==> v.VDict? && "company_name" in v.d.vals && "what_they_do" in v.d.vals
                        && ("industry" !in v.d.vals ==> r.value.industry == None)
                        && ("company_size" !in v.d.vals ==> r.value.companySize == None)
                        && ("target_market" !in v.d.vals ==> r.value.targetMarket == None)
                        && ("sources" !in v.d.vals ==> r.value.sources == [])
  {
    if !v.VDict? then None
    else
      var d := v.d;
      var companyName := Str(d, "company_name");
      var industry := OptStr(d, "industry");
      var companySize := OptStr(d, "company_size");
      var whatTheyDo := Str(d, "what_they_do");
      var targetMarket := OptStr(d, "target_market");
      var sources := Items(d, "sources");
      if companyName.Some? && industry.Some? && companySize.Some? && whatTheyDo.Some?
         && targetMarket.Some? && sources.Some? then
        Some(CompanyProfile(companyName.value, industry.value, companySize.value, whatTheyDo.value, targetMarket.value, sources.value))
      else None
  }

  /** `model_dump()`: every field under its name. */
  function DumpCompanyProfile(x: CompanyProfile): (r: Value)
    ensures r.VDict? && r.d.keys == CompanyProfileKeys()
  {
    VDict(DictOf(CompanyProfileKeys(), [VStr(x.companyName), OptValue(x.industry), OptValue(x.companySize), VStr(x.whatTheyDo), OptValue(x.targetMarket), VList(x.sources)]))
  }

  lemma CompanyProfileEntries(x: CompanyProfile)
    ensures var d := DumpCompanyProfile(x).d;
            "company_name" in d.vals && d.vals["company_name"] == VStr(x.companyName)
            && "industry" in d.vals && d.vals["industry"] == OptValue(x.industry)
            && "company_size" in d.vals && d.vals["company_size"] == OptValue(x.companySize)
            && "what_they_do" in d.vals && d.vals["what_they_do"] == VStr(x.whatTheyDo)
            && "target_market" in d.vals && d.vals["target_market"] == OptValue(x.targetMarket)
            && "sources" in d.vals && d.vals["sources"] == VList(x.sources)
  {
    var ks := CompanyProfileKeys();
    assert ks[0] == "company_name" && ks[1] == "industry" && ks[2] == "company_size" && ks[3] == "what_they_do";
    assert ks[4] == "target_market" && ks[5] == "sources";
  }

  /** A dumped `CompanyProfile` validates back to itself. */
  lemma CompanyProfileRoundTrip(x: CompanyProfile)
    ensures ParseCompanyProfile(DumpCompanyProfile(x)) == Some(x)
  {
    var d := DumpCompanyProfile(x).d;
    CompanyProfileEntries(x);
    assert Str(d, "company_name") == Some(x.companyName) by {
      StrDumps(d, "company_name", x.companyName);
    }
    assert OptStr(d, "industry") == Some(x.industry) by {
      OptStrDumps(d, "industry", x.industry);
    }
    assert OptStr(d, "company_size") == Some(x.companySize) by {
      OptStrDumps(d, "company_size", x.companySize);
    }
    assert Str(d, "what_they_do") == Some(x.whatTheyDo) by {
      StrDumps(d, "what_they_do", x.whatTheyDo);
    }
    assert OptStr(d, "target_market") == Some(x.targetMarket) by {
      OptStrDumps(d, "target_market", x.targetMarket);
    }
    assert Items(d, "sources") == Some(x.sources) by {
      ItemsDumps(d, "sources", x.sources);
    }
  }

  /** A pain point inferred from the prospect's content. */
  datatype PainPoint = PainPoint(description: string, category: PainCategory, evidence: string, affectedPersonas: seq<string>, confidence: Confidence, sources: seq<Value>)

  function PainPointKeys(): (r: seq<string>)
    ensures |r| == 6 && Distinct(r)
  {
    ["description", "category", "evidence", "affected_personas", "confidence", "sources"]
  }

  /** Validating a `PainPoint`: the required fields are present, and an absent
      field takes its default. */
  function ParsePainPoint(v: Value): (r: Option<PainPoint>)
    ensures r.Some? ==> v.VDict? && "description" in v.d.vals && "category" in v.d.vals
                        && "evidence" in v.d.vals && "confidence" in v.d.vals
                        && ("affected_personas" !in v.d.vals ==> r.value.affectedPersonas == [])
                        && ("sources" !in v.d.vals ==> r.value.sources == [])
  {
    if !v.VDict? then None
    else
      var d := v.d;
      var description := Str(d, "description");
      var category := Choice(d, "category", ParsePainCategory);
      var evidence := Str(d, "evidence");
      var affectedPersonas := StrList(d, "affected_personas", false);
      var confidence := Choice(d, "confidence", ParseConfidence);
      var sources := Items(d, "sources");
      if description.Some? && category.Some? && evidence.Some? && affectedPersonas.Some?
         && confidence.Some? && sources.Some? then
        Some(PainPoint(description.value, category.value, evidence.value, affectedPersonas.value, confidence.value, sources.value))
      else None
  }

  /** `model_dump()`: every field under its name. */
  function DumpPainPoint(x: PainPoint): (r: Value)
    ensures r.VDict? && r.d.keys == PainPointKeys()
  {
    VDict(DictOf(PainPointKeys(), [VStr(x.description), VStr(x.category.Name()), VStr(x.evidence), StrListValue(x.affectedPersonas), VStr(x.confidence.Name()), VList(x.sources)]))
  }

  lemma PainPointEntries(x: PainPoint)
    ensures var d := DumpPainPoint(x).d;
            "description" in d.vals && d.vals["description"] == VStr(x.description)
            && "category" in d.vals && d.vals["category"] == VStr(x.category.Name())
            && "evidence" in d.vals && d.vals["evidence"] == VStr(x.evidence)
            && "affected_personas" in d.vals && d.vals["affected_personas"] == StrListValue(x.affectedPersonas)
            && "confidence" in d.vals && d.vals["confidence"] == VStr(x.confidence.Name())
            && "sources" in d.vals && d.vals["sources"] == VList(x.sources)
  {
    var ks := PainPointKeys();
    assert ks[0] == "description" && ks[1] == "category" && ks[2] == "evidence" && ks[3] == "affected_personas";
    assert ks[4] == "confidence" && ks[5] == "sources";
  }

  /** A dumped `PainPoint` validates back to itself. */
  lemma PainPointRoundTrip(x: PainPoint)
    ensures ParsePainPoint(DumpPainPoint(x)) == Some(x)
  {
    var d := DumpPainPoint(x).d;
    PainPointEntries(x);
    assert Str(d, "description") == Some(x.description) by {
      StrDumps(d, "description", x.description);
    }
    assert Choice(d, "category", ParsePainCategory) == Some(x.category) by {
      ChoiceDumps(d, "category", ParsePainCategory, x.category.Name(), x.category);
    }
    assert Str(d, "evidence") == Some(x.evidence) by {
      StrDumps(d, "evidence", x.evidence);
    }
    assert StrList(d, "affected_personas", false) == Some(x.affectedPersonas) by {
      StrListDumps(d, "affected_personas", x.affectedPersonas, false);
    }
    assert Choice(d, "confidence", ParseConfidence) == Some(x.confidence) by {
      ChoiceDumps(d, "confidence", ParseConfidence, x.confidence.Name(), x.confidence);
    }
    assert Items(d, "sources") == Some(x.sources) by {
      ItemsDumps(d, "sources", x.sources);
    }
  }

  lemma PainPointListRoundTrip(xs: seq<PainPoint>)
    ensures Each(Dumps(xs, DumpPainPoint), ParsePainPoint) == Some(xs)
  {
    forall i | 0 <= i < |xs|
      ensures ParsePainPoint(DumpPainPoint(xs[i])) == Some(xs[i])
    {
      PainPointRoundTrip(xs[i]);
    }
    EachDumps(xs, DumpPainPoint, ParsePainPoint);
  }

  /** A buyer at the prospect the vendor should approach; its priority is scored from 1 to 10. */
  datatype TargetBuyerPersona = TargetBuyerPersona(personaTitle: string, department: string, whyTheyCare: string, painPoints: seq<string>, goals: seq<string>, suggestedTalkingPoints: seq<string>, priorityScore: int, sources: seq<Value>)

  /** The field constraints of `TargetBuyerPersona`. */
  predicate ValidTargetBuyerPersona(x: TargetBuyerPersona) {
    1 <= x.priorityScore <= 10
  }

  function TargetBuyerPersonaKeys(): (r: seq<string>)
    ensures |r| == 8 && Distinct(r)
  {
    ["persona_title", "department", "why_they_care", "pain_points", "goals", "suggested_talking_points", "priority_score", "sources"]
  }

  /** Validating a `TargetBuyerPersona`: the required fields are present, and an absent
      field takes its default. */
  function ParseTargetBuyerPersona(v: Value): (r: Option<TargetBuyerPersona>)
    ensures r.Some? ==> v.VDict? && "persona_title" in v.d.vals && "department" in v.d.vals
                        && "why_they_care" in v.d.vals && "priority_score" in v.d.vals
                        && ("pain_points" !in v.d.vals ==> r.value.painPoints == [])
                        && ("goals" !in v.d.vals ==> r.value.goals == [])
                        && ("suggested_talking_points" !in v.d.vals ==> r.value.suggestedTalkingPoints == [])
                        && ("sources" !in v.d.vals ==> r.value.sources == [])
                        && ValidTargetBuyerPersona(r.value)
  {
    if !v.VDict? then None
    else
      var d := v.d;
      var personaTitle := Str(d, "persona_title");
      var department := Str(d, "department");
      var whyTheyCare := Str(d, "why_they_care");
      var painPoints := StrList(d, "pain_points", false);
      var goals := StrList(d, "goals", false);
      var suggestedTalkingPoints := StrList(d, "suggested_talking_points", false);
      var priorityScore := Int(d, "priority_score", 1, Some(10));
      var sources := Items(d, "sources");
      if personaTitle.Some? && department.Some? && whyTheyCare.Some? && painPoints.Some?
         && goals.Some? && suggestedTalkingPoints.Some? && priorityScore.Some? && sources.Some? then
        Some(TargetBuyerPersona(personaTitle.value, department.value, whyTheyCare.value, painPoints.value, goals.value, suggestedTalkingPoints.value, priorityScore.value, sources.value))
      else None
  }

  /** `model_dump()`: every field under its name. */
  function DumpTargetBuyerPersona(x: TargetBuyerPersona): (r: Value)
    ensures r.VDict? && r.d.keys == TargetBuyerPersonaKeys()
  {
    VDict(DictOf(TargetBuyerPersonaKeys(), [VStr(x.personaTitle), VStr(x.department), VStr(x.whyTheyCare), StrListValue(x.painPoints), StrListValue(x.goals), StrListValue(x.suggestedTalkingPoints), VInt(x.priorityScore), VList(x.sources)]))
  }

  lemma TargetBuyerPersonaEntries(x: TargetBuyerPersona)
    ensures var d := DumpTargetBuyerPersona(x).d;
            "persona_title" in d.vals && d.vals["persona_title"] == VStr(x.personaTitle)
            && "department" in d.vals && d.vals["department"] == VStr(x.department)
            && "why_they_care" in d.vals && d.vals["why_they_care"] == VStr(x.whyTheyCare)
            && "pain_points" in d.vals && d.vals["pain_points"] == StrListValue(x.painPoints)
            && "goals" in d.vals && d.vals["goals"] == StrListValue(x.goals)
            && "suggested_talking_points" in d.vals && d.vals["suggested_talking_points"] == StrListValue(x.suggestedTalkingPoints)
            && "priority_score" in d.vals && d.vals["priority_score"] == VInt(x.priorityScore)
            && "sources" in d.vals && d.vals["sources"] == VList(x.sources)
  {
    var ks := TargetBuyerPersonaKeys();
    assert ks[0] == "persona_title" && ks[1] == "department" && ks[2] == "why_they_care" && ks[3] == "pain_points";
    assert ks[4] == "goals" && ks[5] == "suggested_talking_points" && ks[6] == "priority_score" && ks[7] == "sources";
  }

  /** A dumped `TargetBuyerPersona` validates back to itself. */
  lemma TargetBuyerPersonaRoundTrip(x: TargetBuyerPersona)
    requires ValidTargetBuyerPersona(x)
    ensures ParseTargetBuyerPersona(DumpTargetBuyerPersona(x)) == Some(x)
  {
    var d := DumpTargetBuyerPersona(x).d;
    TargetBuyerPersonaEntries(x);
    assert Str(d, "persona_title") == Some(x.personaTitle) by {
      StrDumps(d, "persona_title", x.personaTitle);
    }
    assert Str(d, "department") == Some(x.department) by {
      StrDumps(d, "department", x.department);
    }
    assert Str(d, "why_they_care") == Some(x.whyTheyCare) by {
      StrDumps(d, "why_they_care", x.whyTheyCare);
    }
    assert StrList(d, "pain_points", false) == Some(x.painPoints) by {
      StrListDumps(d, "pain_points", x.painPoints, false);
    }
    assert StrList(d, "goals", false) == Some(x.goals) by {
      StrListDumps(d, "goals", x.goals, false);
    }
    assert StrList(d, "suggested_talking_points", false) == Some(x.suggestedTalkingPoints) by {
      StrListDumps(d, "suggested_talking_points", x.suggestedTalkingPoints, false);
    }
    assert Int(d, "priority_score", 1, Some(10)) == Some(x.priorityScore) by {
      IntDumps(d, "priority_score", 1, Some(10), x.priorityScore);
    }
    assert Items(d, "sources") == Some(x.sources) by {
      ItemsDumps(d, "sources", x.sources);
    }
  }

  lemma TargetBuyerPersonaListRoundTrip(xs: seq<TargetBuyerPersona>)
    requires forall i :: 0 <= i < |xs| ==> ValidTargetBuyerPersona(xs[i])
    ensures Each(Dumps(xs, DumpTargetBuyerPersona), ParseTargetBuyerPersona) == Some(xs)
  {
    forall i | 0 <= i < |xs|
      ensures ParseTargetBuyerPersona(DumpTargetBuyerPersona(xs[i])) == Some(xs[i])
    {
      TargetBuyerPersonaRoundTrip(xs[i]);
    }
    EachDumps(xs, DumpTargetBuyerPersona, ParseTargetBuyerPersona);
  }

  /** The whole prospect package: the company profile is required, the lists default to empty. */
  datatype ProspectIntelligence = ProspectIntelligence(companyProfile: CompanyProfile, painPoints: seq<PainPoint>, targetBuyerPersonas: seq<TargetBuyerPersona>)

  /** The field constraints of `ProspectIntelligence`. */
  predicate ValidProspectIntelligence(x: ProspectIntelligence) {
    (forall i :: 0 <= i < |x.targetBuyerPersonas| ==> ValidTargetBuyerPersona(x.targetBuyerPersonas[i]))
  }

  function ProspectIntelligenceKeys(): (r: seq<string>)
    ensures |r| == 3 && Distinct(r)
  {
    ["company_profile", "pain_points", "target_buyer_personas"]
  }

  /** Validating a `ProspectIntelligence`: the required fields are present, and an absent
      field takes its default. */
  function ParseProspectIntelligence(v: Value): (r: Option<ProspectIntelligence>)
    ensures r.Some? ==> v.VDict? && "company_profile" in v.d.vals
                        && ("pain_points" !in v.d.vals ==> r.value.painPoints == [])
                        && ("target_buyer_personas" !in v.d.vals ==> r.value.targetBuyerPersonas == [])
                        && ValidProspectIntelligence(r.value)
  {
    if !v.VDict? then None
    else
      var d := v.d;
      var companyProfile := Record(d, "company_profile", ParseCompanyProfile);
      var painPoints := List(d, "pain_points", false, ParsePainPoint);
      var targetBuyerPersonas := List(d, "target_buyer_personas", false, ParseTargetBuyerPersona);
      if companyProfile.Some? && painPoints.Some? && targetBuyerPersonas.Some? then
        Some(ProspectIntelligence(companyProfile.value, painPoints.value, targetBuyerPersonas.value))
      else None
  }

  /** `model_dump()`: every field under its name. */
  function DumpProspectIntelligence(x: ProspectIntelligence): (r: Value)
    ensures r.VDict? && r.d.keys == ProspectIntelligenceKeys()
  {
    VDict(DictOf(ProspectIntelligenceKeys(), [DumpCompanyProfile(x.companyProfile), VList(Dumps(x.painPoints, DumpPainPoint)), VList(Dumps(x.targetBuyerPersonas, DumpTargetBuyerPersona))]))
  }

  lemma ProspectIntelligenceEntries(x: ProspectIntelligence)
    ensures var d := DumpProspectIntelligence(x).d;
            "company_profile" in d.vals && d.vals["company_profile"] == DumpCompanyProfile(x.companyProfile)
            && "pain_points" in d.vals && d.vals["pain_points"] == VList(Dumps(x.painPoints, DumpPainPoint))
            && "target_buyer_personas" in d.vals && d.vals["target_buyer_personas"] == VList(Dumps(x.targetBuyerPersonas, DumpTargetBuyerPersona))
  {
    var ks := ProspectIntelligenceKeys();
    assert ks[0] == "company_profile" && ks[1] == "pain_points" && ks[2] == "target_buyer_personas";
  }

  /** A dumped `ProspectIntelligence` validates back to itself. */
  lemma ProspectIntelligenceRoundTrip(x: ProspectIntelligence)
    requires ValidProspectIntelligence(x)
    ensures ParseProspectIntelligence(DumpProspectIntelligence(x)) == Some(x)
  {
    var d := DumpProspectIntelligence(x).d;
    ProspectIntelligenceEntries(x);
    assert Record(d, "company_profile", ParseCompanyProfile) == Some(x.companyProfile) by {
      CompanyProfileRoundTrip(x.companyProfile);
      RecordDumps(d, "company_profile", ParseCompanyProfile, DumpCompanyProfile(x.companyProfile), x.companyProfile);
    }
    assert List(d, "pain_points", false, ParsePainPoint) == Some(x.painPoints) by {
      PainPointListRoundTrip(x.painPoints);
      ListDumps(d, "pain_points", false, ParsePainPoint, Dumps(x.painPoints, DumpPainPoint), x.painPoints);
    }
    assert List(d, "target_buyer_personas", false, ParseTargetBuyerPersona) == Some(x.targetBuyerPersonas) by {
      TargetBuyerPersonaListRoundTrip(x.targetBuyerPersonas);
      ListDumps(d, "target_buyer_personas", false, ParseTargetBuyerPersona, Dumps(x.targetBuyerPersonas, DumpTargetBuyerPersona), x.targetBuyerPersonas);
    }
  }

}
