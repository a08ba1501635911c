/** The playbook records (models/playbook.py) as validation of a JSON object and its dump. */
module PlaybookSchema {
  import opened Values
  import opened Schema

  /** The kinds of call script. */
  datatype ScriptType = ColdCall | Discovery | Demo | FollowUp {
    function Name(): string {
      match this
      case ColdCall => "cold_call"
      case Discovery => "discovery"
      case Demo => "demo"
      case FollowUp => "follow_up"
    }
  }

  /** The `Literal` check: exactly the listed strings are accepted. */
  function ParseScriptType(s: string): (r: Option<ScriptType>)
    ensures forall c: ScriptType :: r == Some(c) <==> c.Name() == s
  {
    if s == "cold_call" then Some(ColdCall)
    else if s == "discovery" then Some(Discovery)
    else if s == "demo" then Some(Demo)
    else if s == "follow_up" then Some(FollowUp)
    else None
  }

  /** The categories of objection. */
  datatype ObjectionCategory = Price | Timing | Authority | Need | Competitor {
    function Name(): string {
      match this
      case Price => "price"
      case Timing => "timing"
      case Authority => "authority"
      case Need => "need"
      case Competitor => "competitor"
    }
  }

  /** The `Literal` check: exactly the listed strings are accepted. */
  function ParseObjectionCategory(s: string): (r: Option<ObjectionCategory>)
    ensures forall c: ObjectionCategory :: r == Some(c) <==> c.Name() == s
  {
    if s == "price" then Some(Price)
    else if s == "timing" then Some(Timing)
    else if s == "authority" then Some(Authority)
    else if s == "need" then Some(Need)
    else if s == "competitor" then Some(Competitor)
    else None
  }

  /** The kinds of battle card. */
  datatype CardType = WhyWeWinCard | ObjectionHandlingCard | PositioningCard {
    function Name(): string {
      match this
      case WhyWeWinCard => "why_we_win"
      case ObjectionHandlingCard => "objection_handling"
      case PositioningCard => "competitive_positioning"
    }
  }

  /** The `Literal` check: exactly the listed strings are accepted. */
  function ParseCardType(s: string): (r: Option<CardType>)
    ensures forall c: CardType :: r == Some(c) <==> c.Name() == s
  {
    if s == "why_we_win" then Some(WhyWeWinCard)
    else if s == "objection_handling" then Some(ObjectionHandlingCard)
    else if s == "competitive_positioning" then Some(PositioningCard)
    else None
  }

  /** One email of a sequence: touch 1 to 4, sent on day 1 or later. */
  datatype EmailTouch = EmailTouch(touchNumber: int, day: int, subject: string, body: string, personalizationNotes: seq<string>, callToAction: string)

  /** The field constraints of `EmailTouch`. */
  predicate ValidEmailTouch(x: EmailTouch) {
    1 <= x.touchNumber <= 4
    && 1 <= x.day
  }

  function EmailTouchKeys(): (r: seq<string>)
    ensures |r| == 6 && Distinct(r)
  {
    ["touch_number", "day", "subject", "body", "personalization_notes", "call_to_action"]
  }

  /** Validating a `EmailTouch`: the required fields are present, and an absent
      field takes its default. */
  function ParseEmailTouch(v: Value): (r: Option<EmailTouch>)
    ensures r.Some? ==> v.VDict? && "touch_number" in v.d.vals && "day" in v.d.vals
                        && "subject" in v.d.vals && "body" in v.d.vals && "call_to_action" in v.d.vals
                        && ("personalization_notes" !in v.d.vals ==> r.value.personalizationNotes == [])
                        && ValidEmailTouch(r.value)
  {
    if !v.VDict? then None
    else
      var d := v.d;
      var touchNumber := Int(d, "touch_number", 1, Some(4));
      var day := Int(d, "day", 1, None);
      var subject := Str(d, "subject");
      var body := Str(d, "body");
      var personalizationNotes := StrList(d, "personalization_notes", false);
      var callToAction := Str(d, "call_to_action");
      if touchNumber.Some? && day.Some? && subject.Some? && body.Some?
         && personalizationNotes.Some? && callToAction.Some? then
        Some(EmailTouch(touchNumber.value, day.value, subject.value, body.value, personalizationNotes.value, callToAction.value))
      else None
  }

  /** `model_dump()`: every field under its name. */
  function DumpEmailTouch(x: EmailTouch): (r: Value)
    ensures r.VDict? && r.d.keys == EmailTouchKeys()
  {
    VDict(DictOf(EmailTouchKeys(), [VInt(x.touchNumber), VInt(x.day), VStr(x.subject), VStr(x.body), StrListValue(x.personalizationNotes), VStr(x.callToAction)]))
  }

  lemma EmailTouchEntries(x: EmailTouch)
    ensures var d := DumpEmailTouch(x).d;
            "touch_number" in d.vals && d.vals["touch_number"] == VInt(x.touchNumber)
            && "day" in d.vals && d.vals["day"] == VInt(x.day)
            && "subject" in d.vals && d.vals["subject"] == VStr(x.subject)
            && "body" in d.vals && d.vals["body"] == VStr(x.body)
            && "personalization_notes" in d.vals && d.vals["personalization_notes"] == StrListValue(x.personalizationNotes)
            && "call_to_action" in d.vals && d.vals["call_to_action"] == VStr(x.callToAction)
  {
    var ks := EmailTouchKeys();
    assert ks[0] == "touch_number" && ks[1] == "day" && ks[2] == "subject" && ks[3] == "body";
    assert ks[4] == "personalization_notes" && ks[5] == "call_to_action";
  }

  /** A dumped `EmailTouch` validates back to itself. */
  lemma EmailTouchRoundTrip(x: EmailTouch)
    requires ValidEmailTouch(x)
    ensures ParseEmailTouch(DumpEmailTouch(x)) == Some(x)
  {
    var d := DumpEmailTouch(x).d;
    EmailTouchEntries(x);
    assert Int(d, "touch_number", 1, Some(4)) == Some(x.touchNumber) by {
      IntDumps(d, "touch_number", 1, Some(4), x.touchNumber);
    }
    assert Int(d, "day", 1, None) == Some(x.day) by {
      IntDumps(d, "day", 1, None, x.day);
    }
    assert Str(d, "subject") == Some(x.subject) by {
      StrDumps(d, "subject", x.subject);
    }
    assert Str(d, "body") == Some(x.body) by {
      StrDumps(d, "body", x.body);
    }
    assert StrList(d, "personalization_notes", false) == Some(x.personalizationNotes) by {
      StrListDumps(d, "personalization_notes", x.personalizationNotes, false);
    }
    assert Str(d, "call_to_action") == Some(x.callToAction) by {
      StrDumps(d, "call_to_action", x.callToAction);
    }
  }

  lemma EmailTouchListRoundTrip(xs: seq<EmailTouch>)
    requires forall i :: 0 <= i < |xs| ==> ValidEmailTouch(xs[i])
    ensures Each(Dumps(xs, DumpEmailTouch), ParseEmailTouch) == Some(xs)
  {
    forall i | 0 <= i < |xs|
      ensures ParseEmailTouch(DumpEmailTouch(xs[i])) == Some(xs[i])
    {
      EmailTouchRoundTrip(xs[i]);
    }
    EachDumps(xs, DumpEmailTouch, ParseEmailTouch);
  }

  /** A sequence of email touches for one persona; the totals default to 14 days and 4 touches and are not tied to the touches given. */
  datatype EmailSequence = EmailSequence(personaTitle: string, sequenceName: string, totalDays: int, totalTouches: int, objective: string, touches: seq<EmailTouch>, bestPractices: seq<string>)

  /** The field constraints of `EmailSequence`. */
  predicate ValidEmailSequence(x: EmailSequence) {
    (forall i :: 0 <= i < |x.touches| ==> ValidEmailTouch(x.touches[i]))
  }

  function EmailSequenceKeys(): (r: seq<string>)
    ensures |r| == 7 && Distinct(r)
  {
    ["persona_title", "sequence_name", "total_days", "total_touches", "objective", "touches", "best_practices"]
  }

  /** Validating a `EmailSequence`: the required fields are present, and an absent
      field takes its default. */
  function ParseEmailSequence(v: Value): (r: Option<EmailSequence>)
    ensures r.Some? ==> v.VDict? && "persona_title" in v.d.vals && "sequence_name" in v.d.vals
                        && "objective" in v.d.vals && "touches" in v.d.vals
                        && ("total_days" !in v.d.vals ==> r.value.totalDays == 14)
                        && ("total_touches" !in v.d.vals ==> r.value.totalTouches == 4)
                        && ("best_practices" !in v.d.vals ==> r.value.bestPractices == [])
                        && ValidEmailSequence(r.value)
  {
    if !v.VDict? then None
    else
      var d := v.d;
      var personaTitle := Str(d, "persona_title");
      var sequenceName := Str(d, "sequence_name");
      var totalDays := IntOr(d, "total_days", 14);
      var totalTouches := IntOr(d, "total_touches", 4);
      var objective := Str(d, "objective");
      var touches := List(d, "touches", true, ParseEmailTouch);
      var bestPractices := StrList(d, "best_practices", false);
      if personaTitle.Some? && sequenceName.Some? && totalDays.Some? && totalTouches.Some?
         && objective.Some? && touches.Some? && bestPractices.Some? then
        Some(EmailSequence(personaTitle.value, sequenceName.value, totalDays.value, totalTouches.value, objective.value, touches.value, bestPractices.value))
      else None
  }

  /** `model_dump()`: every field under its name. */
  function DumpEmailSequence(x: EmailSequence): (r: Value)
    ensures r.VDict? && r.d.keys == EmailSequenceKeys()
  {
    VDict(DictOf(EmailSequenceKeys(), [VStr(x.personaTitle), VStr(x.sequenceName), VInt(x.totalDays), VInt(x.totalTouches), VStr(x.objective), VList(Dumps(x.touches, DumpEmailTouch)), StrListValue(x.bestPractices)]))
  }

  lemma EmailSequenceEntries(x: EmailSequence)
    ensures var d := DumpEmailSequence(x).d;
            "persona_title" in d.vals && d.vals["persona_title"] == VStr(x.personaTitle)
            && "sequence_name" in d.vals && d.vals["sequence_name"] == VStr(x.sequenceName)
            && "total_days" in d.vals && d.vals["total_days"] == VInt(x.totalDays)
            && "total_touches" in d.vals && d.vals["total_touches"] == VInt(x.totalTouches)
            && "objective" in d.vals && d.vals["objective"] == VStr(x.objective)
            && "touches" in d.vals && d.vals["touches"] == VList(Dumps(x.touches, DumpEmailTouch))
            && "best_practices" in d.vals && d.vals["best_practices"] == StrListValue(x.bestPractices)
  {
    var ks := EmailSequenceKeys();
    assert ks[0] == "persona_title" && ks[1] == "sequence_name" && ks[2] == "total_days" && ks[3] == "total_touches";
    assert ks[4] == "objective" && ks[5] == "touches" && ks[6] == "best_practices";
  }

  /** A dumped `EmailSequence` validates back to itself. */
  lemma EmailSequenceRoundTrip(x: EmailSequence)
    requires ValidEmailSequence(x)
    ensures ParseEmailSequence(DumpEmailSequence(x)) == Some(x)
  {
    var d := DumpEmailSequence(x).d;
    EmailSequenceEntries(x);
    assert Str(d, "persona_title") == Some(x.personaTitle) by {
      StrDumps(d, "persona_title", x.personaTitle);
    }
    assert Str(d, "sequence_name") == Some(x.sequenceName) by {
      StrDumps(d, "sequence_name", x.sequenceName);
    }
    assert IntOr(d, "total_days", 14) == Some(x.totalDays) by {
      IntOrDumps(d, "total_days", 14, x.totalDays);
    }
    assert IntOr(d, "total_touches", 4) == Some(x.totalTouches) by {
      IntOrDumps(d, "total_touches", 4, x.totalTouches);
    }
    assert Str(d, "objective") == Some(x.objective) by {
      StrDumps(d, "objective", x.objective);
    }
    assert List(d, "touches", true, ParseEmailTouch) == Some(x.touches) by {
      EmailTouchListRoundTrip(x.touches);
      ListDumps(d, "touches", true, ParseEmailTouch, Dumps(x.touches, DumpEmailTouch), x.touches);
    }
    assert StrList(d, "best_practices", false) == Some(x.bestPractices) by {
      StrListDumps(d, "best_practices", x.bestPractices, false);
    }
  }

  lemma EmailSequenceListRoundTrip(xs: seq<EmailSequence>)
    requires forall i :: 0 <= i < |xs| ==> ValidEmailSequence(xs[i])
    ensures Each(Dumps(xs, DumpEmailSequence), ParseEmailSequence) == Some(xs)
  {
    forall i | 0 <= i < |xs|
      ensures ParseEmailSequence(DumpEmailSequence(xs[i])) == Some(xs[i])
    {
      EmailSequenceRoundTrip(xs[i]);
    }
    EachDumps(xs, DumpEmailSequence, ParseEmailSequence);
  }

  /** A discovery question and its follow-ups. */
  datatype DiscoveryQuestion = DiscoveryQuestion(question: string, purpose: string, followUpQuestions: seq<string>)

  function DiscoveryQuestionKeys(): (r: seq<string>)
    ensures |r| == 3 && Distinct(r)
  {
    ["question", "purpose", "follow_up_questions"]
  }

  /** Validating a `DiscoveryQuestion`: the required fields are present, and an absent
      field takes its default. */
  function ParseDiscoveryQuestion(v: Value): (r: Option<DiscoveryQuestion>)
    ensures r.Some? ==> v.VDict? && "question" in v.d.vals && "purpose" in v.d.vals
                        && ("follow_up_questions" !in v.d.vals ==> r.value.followUpQuestions == [])
  {
    if !v.VDict? then None
    else
      var d := v.d;
      var question := Str(d, "question");
      var purpose := Str(d, "purpose");
      var followUpQuestions := StrList(d, "follow_up_questions", false);
      if question.Some? && purpose.Some? && followUpQuestions.Some? then
        Some(DiscoveryQuestion(question.value, purpose.value, followUpQuestions.value))
      else None
  }

  /** `model_dump()`: every field under its name. */
  function DumpDiscoveryQuestion(x: DiscoveryQuestion): (r: Value)
    ensures r.VDict? && r.d.keys == DiscoveryQuestionKeys()
  {
    VDict(DictOf(DiscoveryQuestionKeys(), [VStr(x.question), VStr(x.purpose), StrListValue(x.followUpQuestions)]))
  }

  lemma DiscoveryQuestionEntries(x: DiscoveryQuestion)
    ensures var d := DumpDiscoveryQuestion(x).d;
            "question" in d.vals && d.vals["question"] == VStr(x.question)
            && "purpose" in d.vals && d.vals["purpose"] == VStr(x.purpose)
            && "follow_up_questions" in d.vals && d.vals["follow_up_questions"] == StrListValue(x.followUpQuestions)
  {
    var ks := DiscoveryQuestionKeys();
    assert ks[0] == "question" && ks[1] == "purpose" && ks[2] == "follow_up_questions";
  }

  /** A dumped `DiscoveryQuestion` validates back to itself. */
  lemma DiscoveryQuestionRoundTrip(x: DiscoveryQuestion)
    ensures ParseDiscoveryQuestion(DumpDiscoveryQuestion(x)) == Some(x)
  {
    var d := DumpDiscoveryQuestion(x).d;
    DiscoveryQuestionEntries(x);
    assert Str(d, "question") == Some(x.question) by {
      StrDumps(d, "question", x.question);
    }
    assert Str(d, "purpose") == Some(x.purpose) by {
      StrDumps(d, "purpose", x.purpose);
    }
    assert StrList(d, "follow_up_questions", false) == Some(x.followUpQuestions) by {
      StrListDumps(d, "follow_up_questions", x.followUpQuestions, false);
    }
  }

  lemma DiscoveryQuestionListRoundTrip(xs: seq<DiscoveryQuestion>)
    ensures Each(Dumps(xs, DumpDiscoveryQuestion), ParseDiscoveryQuestion) == Some(xs)
  {
    forall i | 0 <= i < |xs|
      ensures ParseDiscoveryQuestion(DumpDiscoveryQuestion(xs[i])) == Some(xs[i])
    {
      DiscoveryQuestionRoundTrip(xs[i]);
    }
    EachDumps(xs, DumpDiscoveryQuestion, ParseDiscoveryQuestion);
  }

  /** A script for one kind of sales call. */
  datatype CallScript = CallScript(scriptType: ScriptType, personaTitle: string, opening: string, valueProposition: string, discoveryQuestions: seq<DiscoveryQuestion>, objectionResponses: ODict<string>, closing: string, nextSteps: seq<string>)

  function CallScriptKeys(): (r: seq<string>)
    ensures |r| == 8 && Distinct(r)
  {
    ["script_type", "persona_title", "opening", "value_proposition", "discovery_questions", "objection_responses", "closing", "next_steps"]
  }

  /** Validating a `CallScript`: the required fields are present, and an absent
      field takes its default. */
  function ParseCallScript(v: Value): (r: Option<CallScript>)
    ensures r.Some? ==> v.VDict? && "script_type" in v.d.vals && "persona_title" in v.d.vals
                        && "opening" in v.d.vals && "value_proposition" in v.d.vals && "closing" in v.d.vals
                        && ("discovery_questions" !in v.d.vals ==> r.value.discoveryQuestions == [])
                        && ("objection_responses" !in v.d.vals ==> r.value.objectionResponses == Empty())
                        && ("next_steps" !in v.d.vals ==> r.value.nextSteps == [])
  {
    if !v.VDict? then None
    else
      var d := v.d;
      var scriptType := Choice(d, "script_type", ParseScriptType);
      var personaTitle := Str(d, "persona_title");
      var opening := Str(d, "opening");
      var valueProposition := Str(d, "value_proposition");
      var discoveryQuestions := List(d, "discovery_questions", false, ParseDiscoveryQuestion);
      var objectionResponses := StrDict(d, "objection_responses");
      var closing := Str(d, "closing");
      var nextSteps := StrList(d, "next_steps", false);
      if scriptType.Some? && personaTitle.Some? && opening.Some? && valueProposition.Some?
         && discoveryQuestions.Some? && objectionResponses.Some? && closing.Some? && nextSteps.Some? then
        Some(CallScript(scriptType.value, personaTitle.value, opening.value, valueProposition.value, discoveryQuestions.value, objectionResponses.value, closing.value, nextSteps.value))
      else None
  }

  /** `model_dump()`: every field under its name. */
  function DumpCallScript(x: CallScript): (r: Value)
    ensures r.VDict? && r.d.keys == CallScriptKeys()
  {
    VDict(DictOf(CallScriptKeys(), [VStr(x.scriptType.Name()), VStr(x.personaTitle), VStr(x.opening), VStr(x.valueProposition), VList(Dumps(x.discoveryQuestions, DumpDiscoveryQuestion)), StrDictValue(x.objectionResponses), VStr(x.closing), StrListValue(x.nextSteps)]))
  }

  lemma CallScriptEntries(x: CallScript)
    ensures var d := DumpCallScript(x).d;
            "script_type" in d.vals && d.vals["script_type"] == VStr(x.scriptType.Name())
            && "persona_title" in d.vals && d.vals["persona_title"] == VStr(x.personaTitle)
            && "opening" in d.vals && d.vals["opening"] == VStr(x.opening)
            && "value_proposition" in d.vals && d.vals["value_proposition"] == VStr(x.valueProposition)
            && "discovery_questions" in d.vals && d.vals["discovery_questions"] == VList(Dumps(x.discoveryQuestions, DumpDiscoveryQuestion))
            && "objection_responses" in d.vals && d.vals["objection_responses"] == StrDictValue(x.objectionResponses)
            && "closing" in d.vals && d.vals["closing"] == VStr(x.closing)
            && "next_steps" in d.vals && d.vals["next_steps"] == StrListValue(x.nextSteps)
  {
    var ks := CallScriptKeys();
    assert ks[0] == "script_type" && ks[1] == "persona_title" && ks[2] == "opening" && ks[3] == "value_proposition";
    assert ks[4] == "discovery_questions" && ks[5] == "objection_responses" && ks[6] == "closing" && ks[7] == "next_steps";
  }

  /** A dumped `CallScript` validates back to itself. */
  lemma CallScriptRoundTrip(x: CallScript)
    ensures ParseCallScript(DumpCallScript(x)) == Some(x)
  {
    var d := DumpCallScript(x).d;
    CallScriptEntries(x);
    assert Choice(d, "script_type", ParseScriptType) == Some(x.scriptType) by {
      ChoiceDumps(d, "script_type", ParseScriptType, x.scriptType.Name(), x.scriptType);
    }
    assert Str(d, "persona_title") == Some(x.personaTitle) by {
      StrDumps(d, "persona_title", x.personaTitle);
    }
    assert Str(d, "opening") == Some(x.opening) by {
      StrDumps(d, "opening", x.opening);
    }
    assert Str(d, "value_proposition") == Some(x.valueProposition) by {
      StrDumps(d, "value_proposition", x.valueProposition);
    }
    assert List(d, "discovery_questions", false, ParseDiscoveryQuestion) == Some(x.discoveryQuestions) by {
      DiscoveryQuestionListRoundTrip(x.discoveryQuestions);
      ListDumps(d, "discovery_questions", false, ParseDiscoveryQuestion, Dumps(x.discoveryQuestions, DumpDiscoveryQuestion), x.discoveryQuestions);
    }
    assert StrDict(d, "objection_responses") == Some(x.objectionResponses) by {
      StrDictDumps(d, "objection_responses", x.objectionResponses);
    }
    assert Str(d, "closing") == Some(x.closing) by {
      StrDumps(d, "closing", x.closing);
    }
    assert StrList(d, "next_steps", false) == Some(x.nextSteps) by {
      StrListDumps(d, "next_steps", x.nextSteps, false);
    }
  }

  /** The talk track for one persona, with its cold-call and discovery scripts. */
  datatype TalkTrack = TalkTrack(personaTitle: string, elevatorPitch: string, coldCallScript: CallScript, discoveryScript: CallScript, demoTalkingPoints: seq<string>, valueMapping: ODict<string>)

  function TalkTrackKeys(): (r: seq<string>)
    ensures |r| == 6 && Distinct(r)
  {
    ["persona_title", "elevator_pitch", "cold_call_script", "discovery_script", "demo_talking_points", "value_mapping"]
  }

  /** Validating a `TalkTrack`: the required fields are present, and an absent
      field takes its default. */
  function ParseTalkTrack(v: Value): (r: Option<TalkTrack>)
    ensures r.Some? ==> v.VDict? && "persona_title" in v.d.vals && "elevator_pitch" in v.d.vals
                        && "cold_call_script" in v.d.vals && "discovery_script" in v.d.vals
                        && ("demo_talking_points" !in v.d.vals ==> r.value.demoTalkingPoints == [])
                        && ("value_mapping" !in v.d.vals ==> r.value.valueMapping == Empty())
  {
    if !v.VDict? then None
    else
      var d := v.d;
      var personaTitle := Str(d, "persona_title");
      var elevatorPitch := Str(d, "elevator_pitch");
      var coldCallScript := Record(d, "cold_call_script", ParseCallScript);
      var discoveryScript := Record(d, "discovery_script", ParseCallScript);
      var demoTalkingPoints := StrList(d, "demo_talking_points", false);
      var valueMapping := StrDict(d, "value_mapping");
      if personaTitle.Some? && elevatorPitch.Some? && coldCallScript.Some? && discoveryScript.Some?
         && demoTalkingPoints.Some? && valueMapping.Some? then
        Some(TalkTrack(personaTitle.value, elevatorPitch.value, coldCallScript.value, discoveryScript.value, demoTalkingPoints.value, valueMapping.value))
      else None
  }

  /** `model_dump()`: every field under its name. */
  function DumpTalkTrack(x: TalkTrack): (r: Value)
    ensures r.VDict? && r.d.keys == TalkTrackKeys()
  {
    VDict(DictOf(TalkTrackKeys(), [VStr(x.personaTitle), VStr(x.elevatorPitch), DumpCallScript(x.coldCallScript), DumpCallScript(x.discoveryScript), StrListValue(x.demoTalkingPoints), StrDictValue(x.valueMapping)]))
  }

  lemma TalkTrackEntries(x: TalkTrack)
    ensures var d := DumpTalkTrack(x).d;
            "persona_title" in d.vals && d.vals["persona_title"] == VStr(x.personaTitle)
            && "elevator_pitch" in d.vals && d.vals["elevator_pitch"] == VStr(x.elevatorPitch)
            && "cold_call_script" in d.vals && d.vals["cold_call_script"] == DumpCallScript(x.coldCallScript)
            && "discovery_script" in d.vals && d.vals["discovery_script"] == DumpCallScript(x.discoveryScript)
            && "demo_talking_points" in d.vals && d.vals["demo_talking_points"] == StrListValue(x.demoTalkingPoints)
            && "value_mapping" in d.vals && d.vals["value_mapping"] == StrDictValue(x.valueMapping)
  {
    var ks := TalkTrackKeys();
    assert ks[0] == "persona_title" && ks[1] == "elevator_pitch" && ks[2] == "cold_call_script" && ks[3] == "discovery_script";
    assert ks[4] == "demo_talking_points" && ks[5] == "value_mapping";
  }

  /** A dumped `TalkTrack` validates back to itself. */
  lemma TalkTrackRoundTrip(x: TalkTrack)
    ensures ParseTalkTrack(DumpTalkTrack(x)) == Some(x)
  {
    var d := DumpTalkTrack(x).d;
    TalkTrackEntries(x);
    assert Str(d, "persona_title") == Some(x.personaTitle) by {
      StrDumps(d, "persona_title", x.personaTitle);
    }
    assert Str(d, "elevator_pitch") == Some(x.elevatorPitch) by {
      StrDumps(d, "elevator_pitch", x.elevatorPitch);
    }
    assert Record(d, "cold_call_script", ParseCallScript) == Some(x.coldCallScript) by {
      CallScriptRoundTrip(x.coldCallScript);
      RecordDumps(d, "cold_call_script", ParseCallScript, DumpCallScript(x.coldCallScript), x.coldCallScript);
    }
    assert Record(d, "discovery_script", ParseCallScript) == Some(x.discoveryScript) by {
      CallScriptRoundTrip(x.discoveryScript);
      RecordDumps(d, "discovery_script", ParseCallScript, DumpCallScript(x.discoveryScript), x.discoveryScript);
    }
    assert StrList(d, "demo_talking_points", false) == Some(x.demoTalkingPoints) by {
      StrListDumps(d, "demo_talking_points", x.demoTalkingPoints, false);
    }
    assert StrDict(d, "value_mapping") == Some(x.valueMapping) by {
      StrDictDumps(d, "value_mapping", x.valueMapping);
    }
  }

  lemma TalkTrackListRoundTrip(xs: seq<TalkTrack>)
    ensures Each(Dumps(xs, DumpTalkTrack), ParseTalkTrack) == Some(xs)
  {
    forall i | 0 <= i < |xs|
      ensures ParseTalkTrack(DumpTalkTrack(xs[i])) == Some(xs[i])
    {
      TalkTrackRoundTrip(xs[i]);
    }
    EachDumps(xs, DumpTalkTrack, ParseTalkTrack);
  }

  /** How to answer one objection. */
  datatype ObjectionResponse = ObjectionResponse(objection: string, category: ObjectionCategory, responseFramework: string, talkTrack: string, proofPoints: seq<string>)

  function ObjectionResponseKeys(): (r: seq<string>)
    ensures |r| == 5 && Distinct(r)
  {
    ["objection", "category", "response_framework", "talk_track", "proof_points"]
  }

  /** Validating a `ObjectionResponse`: the required fields are present, and an absent
      field takes its default. */
  function ParseObjectionResponse(v: Value): (r: Option<ObjectionResponse>)
    ensures r.Some? ==> v.VDict? && "objection" in v.d.vals && "category" in v.d.vals
                        && "response_framework" in v.d.vals && "talk_track" in v.d.vals
                        && ("proof_points" !in v.d.vals ==> r.value.proofPoints == [])
  {
    if !v.VDict? then None
    else
      var d := v.d;
      var objection := Str(d, "objection");
      var category := Choice(d, "category", ParseObjectionCategory);
      var responseFramework := Str(d, "response_framework");
      var talkTrack := Str(d, "talk_track");
      var proofPoints := StrList(d, "proof_points", false);
      if objection.Some? && category.Some? && responseFramework.Some? && talkTrack.Some?
         && proofPoints.Some? then
        Some(ObjectionResponse(objection.value, category.value, responseFramework.value, talkTrack.value, proofPoints.value))
      else None
  }

  /** `model_dump()`: every field under its name. */
  function DumpObjectionResponse(x: ObjectionResponse): (r: Value)
    ensures r.VDict? && r.d.keys == ObjectionResponseKeys()
  {
    VDict(DictOf(ObjectionResponseKeys(), [VStr(x.objection), VStr(x.category.Name()), VStr(x.responseFramework), VStr(x.talkTrack), StrListValue(x.proofPoints)]))
  }

  lemma ObjectionResponseEntries(x: ObjectionResponse)
    ensures var d := DumpObjectionResponse(x).d;
            "objection" in d.vals && d.vals["objection"] == VStr(x.objection)
            && "category" in d.vals && d.vals["category"] == VStr(x.category.Name())
            && "response_framework" in d.vals && d.vals["response_framework"] == VStr(x.responseFramework)
            && "talk_track" in d.vals && d.vals["talk_track"] == VStr(x.talkTrack)
            && "proof_points" in d.vals && d.vals["proof_points"] == StrListValue(x.proofPoints)
  {
    var ks := ObjectionResponseKeys();
    assert ks[0] == "objection" && ks[1] == "category" && ks[2] == "response_framework" && ks[3] == "talk_track";
    assert ks[4] == "proof_points";
  }

  /** A dumped `ObjectionResponse` validates back to itself. */
  lemma ObjectionResponseRoundTrip(x: ObjectionResponse)
    ensures ParseObjectionResponse(DumpObjectionResponse(x)) == Some(x)
  {
    var d := DumpObjectionResponse(x).d;
    ObjectionResponseEntries(x);
    assert Str(d, "objection") == Some(x.objection) by {
      StrDumps(d, "objection", x.objection);
    }
    assert Choice(d, "category", ParseObjectionCategory) == Some(x.category) by {
      ChoiceDumps(d, "category", ParseObjectionCategory, x.category.Name(), x.category);
    }
    assert Str(d, "response_framework") == Some(x.responseFramework) by {
      StrDumps(d, "response_framework", x.responseFramework);
    }
    assert Str(d, "talk_track") == Some(x.talkTrack) by {
      StrDumps(d, "talk_track", x.talkTrack);
    }
    assert StrList(d, "proof_points", false) == Some(x.proofPoints) by {
      StrListDumps(d, "proof_points", x.proofPoints, false);
    }
  }

  lemma ObjectionResponseListRoundTrip(xs: seq<ObjectionResponse>)
    ensures Each(Dumps(xs, DumpObjectionResponse), ParseObjectionResponse) == Some(xs)
  {
    forall i | 0 <= i < |xs|
      ensures ParseObjectionResponse(DumpObjectionResponse(xs[i])) == Some(xs[i])
    {
      ObjectionResponseRoundTrip(xs[i]);
    }
    EachDumps(xs, DumpObjectionResponse, ParseObjectionResponse);
  }

  /** How to position against one competitor or alternative. */
  datatype CompetitivePositioning = CompetitivePositioning(competitorName: Option<string>, whenToEngage: seq<string>, whenNotToEngage: seq<string>, ourAdvantages: seq<string>, theirAdvantages: seq<string>, trapSettingQuestions: seq<string>, landminesToLay: seq<string>)

  function CompetitivePositioningKeys(): (r: seq<string>)
    ensures |r| == 7 && Distinct(r)
  {
    ["competitor_name", "when_to_engage", "when_not_to_engage", "our_advantages", "their_advantages", "trap_setting_questions", "landmines_to_lay"]
  }

  /** Validating a `CompetitivePositioning`: the required fields are present, and an absent
      field takes its default. */
  function ParseCompetitivePositioning(v: Value): (r: Option<CompetitivePositioning>)
    ensures r.Some? ==> v.VDict?
                        && ("competitor_name" !in v.d.vals ==> r.value.competitorName == None)
                        && ("when_to_engage" !in v.d.vals ==> r.value.whenToEngage == [])
                        && ("when_not_to_engage" !in v.d.vals ==> r.value.whenNotToEngage == [])
                        && ("our_advantages" !in v.d.vals ==> r.value.ourAdvantages == [])
                        && ("their_advantages" !in v.d.vals ==> r.value.theirAdvantages == [])
                        && ("trap_setting_questions" !in v.d.vals ==> r.value.trapSettingQuestions == [])
                        && ("landmines_to_lay" !in v.d.vals ==> r.value.landminesToLay == [])
  {
    if !v.VDict? then None
    else
      var d := v.d;
      var competitorName := OptStr(d, "competitor_name");
      var whenToEngage := StrList(d, "when_to_engage", false);
      var whenNotToEngage := StrList(d, "when_not_to_engage", false);
      var ourAdvantages := StrList(d, "our_advantages", false);
      var theirAdvantages := StrList(d, "their_advantages", false);
      var trapSettingQuestions := StrList(d, "trap_setting_questions", false);
      var landminesToLay := StrList(d, "landmines_to_lay", false);
      if competitorName.Some? && whenToEngage.Some? && whenNotToEngage.Some? && ourAdvantages.Some?
         && theirAdvantages.Some? && trapSettingQuestions.Some? && landminesToLay.Some? then
        Some(CompetitivePositioning(competitorName.value, whenToEngage.value, whenNotToEngage.value, ourAdvantages.value, theirAdvantages.value, trapSettingQuestions.value, landminesToLay.value))
      else None
  }

  /** `model_dump()`: every field under its name. */
  function DumpCompetitivePositioning(x: CompetitivePositioning): (r: Value)
    ensures r.VDict? && r.d.keys == CompetitivePositioningKeys()
  {
    VDict(DictOf(CompetitivePositioningKeys(), [OptValue(x.competitorName), StrListValue(x.whenToEngage), StrListValue(x.whenNotToEngage), StrListValue(x.ourAdvantages), StrListValue(x.theirAdvantages), StrListValue(x.trapSettingQuestions), StrListValue(x.landminesToLay)]))
  }

  lemma CompetitivePositioningEntries(x: CompetitivePositioning)
    ensures var d := DumpCompetitivePositioning(x).d;
            "competitor_name" in d.vals && d.vals["competitor_name"] == OptValue(x.competitorName)
            && "when_to_engage" in d.vals && d.vals["when_to_engage"] == StrListValue(x.whenToEngage)
            && "when_not_to_engage" in d.vals && d.vals["when_not_to_engage"] == StrListValue(x.whenNotToEngage)
            && "our_advantages" in d.vals && d.vals["our_advantages"] == StrListValue(x.ourAdvantages)
            && "their_advantages" in d.vals && d.vals["their_advantages"] == StrListValue(x.theirAdvantages)
            && "trap_setting_questions" in d.vals && d.vals["trap_setting_questions"] == StrListValue(x.trapSettingQuestions)
            && "landmines_to_lay" in d.vals && d.vals["landmines_to_lay"] == StrListValue(x.landminesToLay)
  {
    var ks := CompetitivePositioningKeys();
    assert ks[0] == "competitor_name" && ks[1] == "when_to_engage" && ks[2] == "when_not_to_engage" && ks[3] == "our_advantages";
    assert ks[4] == "their_advantages" && ks[5] == "trap_setting_questions" && ks[6] == "landmines_to_lay";
  }

  /** A dumped `CompetitivePositioning` validates back to itself. */
  lemma CompetitivePositioningRoundTrip(x: CompetitivePositioning)
    ensures ParseCompetitivePositioning(DumpCompetitivePositioning(x)) == Some(x)
  {
    var d := DumpCompetitivePositioning(x).d;
    CompetitivePositioningEntries(x);
    assert OptStr(d, "competitor_name") == Some(x.competitorName) by {
      OptStrDumps(d, "competitor_name", x.competitorName);
    }
    assert StrList(d, "when_to_engage", false) == Some(x.whenToEngage) by {
      StrListDumps(d, "when_to_engage", x.whenToEngage, false);
    }
    assert StrList(d, "when_not_to_engage", false) == Some(x.whenNotToEngage) by {
      StrListDumps(d, "when_not_to_engage", x.whenNotToEngage, false);
    }
    assert StrList(d, "our_advantages", false) == Some(x.ourAdvantages) by {
      StrListDumps(d, "our_advantages", x.ourAdvantages, false);
    }
    assert StrList(d, "their_advantages", false) == Some(x.theirAdvantages) by {
      StrListDumps(d, "their_advantages", x.theirAdvantages, false);
    }
    assert StrList(d, "trap_setting_questions", false) == Some(x.trapSettingQuestions) by {
      StrListDumps(d, "trap_setting_questions", x.trapSettingQuestions, false);
    }
    assert StrList(d, "landmines_to_lay", false) == Some(x.landminesToLay) by {
      StrListDumps(d, "landmines_to_lay", x.landminesToLay, false);
    }
  }

  lemma CompetitivePositioningListRoundTrip(xs: seq<CompetitivePositioning>)
    ensures Each(Dumps(xs, DumpCompetitivePositioning), ParseCompetitivePositioning) == Some(xs)
  {
    forall i | 0 <= i < |xs|
      ensures ParseCompetitivePositioning(DumpCompetitivePositioning(xs[i])) == Some(xs[i])
    {
      CompetitivePositioningRoundTrip(xs[i]);
    }
    EachDumps(xs, DumpCompetitivePositioning, ParseCompetitivePositioning);
  }

  /** A battle card for sales enablement. */
  datatype BattleCard = BattleCard(title: string, cardType: CardType, personaFocus: Option<string>, keyDifferentiators: seq<string>, proofPoints: seq<string>, objectionResponses: seq<ObjectionResponse>, competitivePositioning: seq<CompetitivePositioning>)

  function BattleCardKeys(): (r: seq<string>)
    ensures |r| == 7 && Distinct(r)
  {
    ["title", "card_type", "persona_focus", "key_differentiators", "proof_points", "objection_responses", "competitive_positioning"]
  }

  /** Validating a `BattleCard`: the required fields are present, and an absent
      field takes its default. */
  function ParseBattleCard(v: Value): (r: Option<BattleCard>)
    ensures r.Some? ==> v.VDict? && "title" in v.d.vals && "card_type" in v.d.vals
                        && ("persona_focus" !in v.d.vals ==> r.value.personaFocus == None)
                        && ("key_differentiators" !in v.d.vals ==> r.value.keyDifferentiators == [])
                        && ("proof_points" !in v.d.vals ==> r.value.proofPoints == [])
                        && ("objection_responses" !in v.d.vals ==> r.value.objectionResponses == [])
                        && ("competitive_positioning" !in v.d.vals ==> r.value.competitivePositioning == [])
  {
    if !v.VDict? then None
    else
      var d := v.d;
      var title := Str(d, "title");
      var cardType := Choice(d, "card_type", ParseCardType);
      var personaFocus := OptStr(d, "persona_focus");
      var keyDifferentiators := StrList(d, "key_differentiators", false);
      var proofPoints := StrList(d, "proof_points", false);
      var objectionResponses := List(d, "objection_responses", false, ParseObjectionResponse);
      var competitivePositioning := List(d, "competitive_positioning", false, ParseCompetitivePositioning);
      if title.Some? && cardType.Some? && personaFocus.Some? && keyDifferentiators.Some?
         && proofPoints.Some? && objectionResponses.Some? && competitivePositioning.Some? then
        Some(BattleCard(title.value, cardType.value, personaFocus.value, keyDifferentiators.value, proofPoints.value, objectionResponses.value, competitivePositioning.value))
      else None
  }

  /** `model_dump()`: every field under its name. */
  function DumpBattleCard(x: BattleCard): (r: Value)
    ensures r.VDict? && r.d.keys == BattleCardKeys()
  {
    VDict(DictOf(BattleCardKeys(), [VStr(x.title), VStr(x.cardType.Name()), OptValue(x.personaFocus), StrListValue(x.keyDifferentiators), StrListValue(x.proofPoints), VList(Dumps(x.objectionResponses, DumpObjectionResponse)), VList(Dumps(x.competitivePositioning, DumpCompetitivePositioning))]))
  }

  lemma BattleCardEntries(x: BattleCard)
    ensures var d := DumpBattleCard(x).d;
            "title" in d.vals && d.vals["title"] == VStr(x.title)
            && "card_type" in d.vals && d.vals["card_type"] == VStr(x.cardType.Name())
            && "persona_focus" in d.vals && d.vals["persona_focus"] == OptValue(x.personaFocus)
            && "key_differentiators" in d.vals && d.vals["key_differentiators"] == StrListValue(x.keyDifferentiators)
            && "proof_points" in d.vals && d.vals["proof_points"] == StrListValue(x.proofPoints)
            && "objection_responses" in d.vals && d.vals["objection_responses"] == VList(Dumps(x.objectionResponses, DumpObjectionResponse))
            && "competitive_positioning" in d.vals && d.vals["competitive_positioning"] == VList(Dumps(x.competitivePositioning, DumpCompetitivePositioning))
  {
    var ks := BattleCardKeys();
    assert ks[0] == "title" && ks[1] == "card_type" && ks[2] == "persona_focus" && ks[3] == "key_differentiators";
    assert ks[4] == "proof_points" && ks[5] == "objection_responses" && ks[6] == "competitive_positioning";
  }

  /** A dumped `BattleCard` validates back to itself. */
  lemma BattleCardRoundTrip(x: BattleCard)
    ensures ParseBattleCard(DumpBattleCard(x)) == Some(x)
  {
    var d := DumpBattleCard(x).d;
    BattleCardEntries(x);
    assert Str(d, "title") == Some(x.title) by {
      StrDumps(d, "title", x.title);
    }
    assert Choice(d, "card_type", ParseCardType) == Some(x.cardType) by {
      ChoiceDumps(d, "card_type", ParseCardType, x.cardType.Name(), x.cardType);
    }
    assert OptStr(d, "persona_focus") == Some(x.personaFocus) by {
      OptStrDumps(d, "persona_focus", x.personaFocus);
    }
    assert StrList(d, "key_differentiators", false) == Some(x.keyDifferentiators) by {
      StrListDumps(d, "key_differentiators", x.keyDifferentiators, false);
    }
    assert StrList(d, "proof_points", false) == Some(x.proofPoints) by {
      StrListDumps(d, "proof_points", x.proofPoints, false);
    }
    assert List(d, "objection_responses", false, ParseObjectionResponse) == Some(x.objectionResponses) by {
      ObjectionResponseListRoundTrip(x.objectionResponses);
      ListDumps(d, "objection_responses", false, ParseObjectionResponse, Dumps(x.objectionResponses, DumpObjectionResponse), x.objectionResponses);
    }
    assert List(d, "competitive_positioning", false, ParseCompetitivePositioning) == Some(x.competitivePositioning) by {
      CompetitivePositioningListRoundTrip(x.competitivePositioning);
      ListDumps(d, "competitive_positioning", false, ParseCompetitivePositioning, Dumps(x.competitivePositioning, DumpCompetitivePositioning), x.competitivePositioning);
    }
  }

  lemma BattleCardListRoundTrip(xs: seq<BattleCard>)
    ensures Each(Dumps(xs, DumpBattleCard), ParseBattleCard) == Some(xs)
  {
    forall i | 0 <= i < |xs|
      ensures ParseBattleCard(DumpBattleCard(xs[i])) == Some(xs[i])
    {
      BattleCardRoundTrip(xs[i]);
    }
    EachDumps(xs, DumpBattleCard, ParseBattleCard);
  }

  /** The complete playbook for one vendor and prospect. */
  datatype SalesPlaybook = SalesPlaybook(vendorName: string, prospectName: string, generatedDate: string, executiveSummary: string, priorityPersonas: seq<string>, quickWins: seq<string>, successMetrics: ODict<string>, emailSequences: seq<EmailSequence>, talkTracks: seq<TalkTrack>, battleCards: seq<BattleCard>)

  /** The field constraints of `SalesPlaybook`. */
  predicate ValidSalesPlaybook(x: SalesPlaybook) {
    (forall i :: 0 <= i < |x.emailSequences| ==> ValidEmailSequence(x.emailSequences[i]))
  }

  function SalesPlaybookKeys(): (r: seq<string>)
    ensures |r| == 10 && Distinct(r)
  {
    ["vendor_name", "prospect_name", "generated_date", "executive_summary", "priority_personas", "quick_wins", "success_metrics", "email_sequences", "talk_tracks", "battle_cards"]
  }

  /** Validating a `SalesPlaybook`: the required fields are present, and an absent
      field takes its default. */
  function ParseSalesPlaybook(v: Value): (r: Option<SalesPlaybook>)
    ensures r.Some? ==> v.VDict? && "vendor_name" in v.d.vals && "prospect_name" in v.d.vals
                        && "generated_date" in v.d.vals && "executive_summary" in v.d.vals && "priority_personas" in v.d.vals
                        && ("quick_wins" !in v.d.vals ==> r.value.quickWins == [])
                        && ("success_metrics" !in v.d.vals ==> r.value.successMetrics == Empty())
                        && ("email_sequences" !in v.d.vals ==> r.value.emailSequences == [])
                        && ("talk_tracks" !in v.d.vals ==> r.value.talkTracks == [])
                        && ("battle_cards" !in v.d.vals ==> r.value.battleCards == [])
                        && ValidSalesPlaybook(r.value)
  {
    if !v.VDict? then None
    else
      var d := v.d;
      var vendorName := Str(d, "vendor_name");
      var prospectName := Str(d, "prospect_name");
      var generatedDate := Str(d, "generated_date");
      var executiveSummary := Str(d, "executive_summary");
      var priorityPersonas := StrList(d, "priority_personas", true);
      var quickWins := StrList(d, "quick_wins", false);
      var successMetrics := StrDict(d, "success_metrics");
      var emailSequences := List(d, "email_sequences", false, ParseEmailSequence);
      var talkTracks := List(d, "talk_tracks", false, ParseTalkTrack);
      var battleCards := List(d, "battle_cards", false, ParseBattleCard);
      if vendorName.Some? && prospectName.Some? && generatedDate.Some? && executiveSummary.Some?
         && priorityPersonas.Some? && quickWins.Some? && successMetrics.Some? && emailSequences.Some?
         && talkTracks.Some? && battleCards.Some? then
        Some(SalesPlaybook(vendorName.value, prospectName.value, generatedDate.value, executiveSummary.value, priorityPersonas.value, quickWins.value, successMetrics.value, emailSequences.value, talkTracks.value, battleCards.value))
      else None
  }

  /** `model_dump()`: every field under its name. */
  function DumpSalesPlaybook(x: SalesPlaybook): (r: Value)
    ensures r.VDict? && r.d.keys == SalesPlaybookKeys()
  {
    VDict(DictOf(SalesPlaybookKeys(), [VStr(x.vendorName), VStr(x.prospectName), VStr(x.generatedDate), VStr(x.executiveSummary), StrListValue(x.priorityPersonas), StrListValue(x.quickWins), StrDictValue(x.successMetrics), VList(Dumps(x.emailSequences, DumpEmailSequence)), VList(Dumps(x.talkTracks, DumpTalkTrack)), VList(Dumps(x.battleCards, DumpBattleCard))]))
  }

  lemma SalesPlaybookEntries(x: SalesPlaybook)
    ensures var d := DumpSalesPlaybook(x).d;
            "vendor_name" in d.vals && d.vals["vendor_name"] == VStr(x.vendorName)
            && "prospect_name" in d.vals && d.vals["prospect_name"] == VStr(x.prospectName)
            && "generated_date" in d.vals && d.vals["generated_date"] == VStr(x.generatedDate)
            && "executive_summary" in d.vals && d.vals["executive_summary"] == VStr(x.executiveSummary)
            && "priority_personas" in d.vals && d.vals["priority_personas"] == StrListValue(x.priorityPersonas)
            && "quick_wins" in d.vals && d.vals["quick_wins"] == StrListValue(x.quickWins)
            && "success_metrics" in d.vals && d.vals["success_metrics"] == StrDictValue(x.successMetrics)
            && "email_sequences" in d.vals && d.vals["email_sequences"] == VList(Dumps(x.emailSequences, DumpEmailSequence))
            && "talk_tracks" in d.vals && d.vals["talk_tracks"] == VList(Dumps(x.talkTracks, DumpTalkTrack))
            && "battle_cards" in d.vals && d.vals["battle_cards"] == VList(Dumps(x.battleCards, DumpBattleCard))
  {
    var ks := SalesPlaybookKeys();
    assert ks[0] == "vendor_name" && ks[1] == "prospect_name" && ks[2] == "generated_date" && ks[3] == "executive_summary";
    assert ks[4] == "priority_personas" && ks[5] == "quick_wins" && ks[6] == "success_metrics" && ks[7] == "email_sequences";
    assert ks[8] == "talk_tracks" && ks[9] == "battle_cards";
  }

  /** A dumped `SalesPlaybook` validates back to itself. */
  lemma SalesPlaybookRoundTrip(x: SalesPlaybook)
    requires ValidSalesPlaybook(x)
    ensures ParseSalesPlaybook(DumpSalesPlaybook(x)) == Some(x)
  {
    var d := DumpSalesPlaybook(x).d;
    SalesPlaybookEntries(x);
    assert Str(d, "vendor_name") == Some(x.vendorName) by {
      StrDumps(d, "vendor_name", x.vendorName);
    }
    assert Str(d, "prospect_name") == Some(x.prospectName) by {
      StrDumps(d, "prospect_name", x.prospectName);
    }
    assert Str(d, "generated_date") == Some(x.generatedDate) by {
      StrDumps(d, "generated_date", x.generatedDate);
    }
    assert Str(d, "executive_summary") == Some(x.executiveSummary) by {
      StrDumps(d, "executive_summary", x.executiveSummary);
    }
    assert StrList(d, "priority_personas", true) == Some(x.priorityPersonas) by {
      StrListDumps(d, "priority_personas", x.priorityPersonas, true);
    }
    assert StrList(d, "quick_wins", false) == Some(x.quickWins) by {
      StrListDumps(d, "quick_wins", x.quickWins, false);
    }
    assert StrDict(d, "success_metrics") == Some(x.successMetrics) by {
      StrDictDumps(d, "success_metrics", x.successMetrics);
    }
    assert List(d, "email_sequences", false, ParseEmailSequence) == Some(x.emailSequences) by {
      EmailSequenceListRoundTrip(x.emailSequences);
      ListDumps(d, "email_sequences", false, ParseEmailSequence, Dumps(x.emailSequences, DumpEmailSequence), x.emailSequences);
    }
    assert List(d, "talk_tracks", false, ParseTalkTrack) == Some(x.talkTracks) by {
      TalkTrackListRoundTrip(x.talkTracks);
      ListDumps(d, "talk_tracks", false, ParseTalkTrack, Dumps(x.talkTracks, DumpTalkTrack), x.talkTracks);
    }
    assert List(d, "battle_cards", false, ParseBattleCard) == Some(x.battleCards) by {
      BattleCardListRoundTrip(x.battleCards);
      ListDumps(d, "battle_cards", false, ParseBattleCard, Dumps(x.battleCards, DumpBattleCard), x.battleCards);
    }
  }

}
