/**
 * Prompt rendering for the completion call: a fixed system instruction, and a
 * user instruction made by substituting six request fields into a fixed
 * template with `str.format`. Scenario and raw experience are stripped first;
 * nothing is escaped.
 */
module Prompt {
  import opened Wrappers
  import opened Text
  import opened Schema

  /** The system instruction, identical for every request. */
  const SystemPrompt: string := @"
You are an Experience Understanding Engine.

Goal: deliver a NON-OBVIOUS interpretation that the user likely didn't fully articulate.

You must do real inference:
- Find the hidden variable (what actually drives the tension).
- Offer at least one counter-hypothesis (a plausible alternative interpretation).
- Choose the best hypothesis and explain why, grounded in the user's text.

Hard rules:
- No generic advice, no therapy talk, no motivational tone.
- No clichés, no ""it's okay to feel...""
- No bullet list of tips.
- Be specific and slightly sharp.
- If the input is too thin, say what key detail is missing in ONE sentence, then still give your best hypothesis.

Output format (must follow exactly, 160–260 words):
Title: <7–12 words, specific, not poetic>

1) You think it's about:
<2–3 sentences>

2) It's actually about:
<2–4 sentences, counter-intuitive>

3) Hidden constraint:
<2–4 sentences describing the mechanism/pattern>

4) Test next time (falsifiable):
<1–2 sentences, a single concrete test question or micro-action to validate the hypothesis>
"

  /** The literal text of the user template, between its six placeholders. */
  const UserTypeLabel: string := "\nUser type: "
  const ScenarioLabel: string := "\n\nScenario: "
  const RawExperienceLabel: string := "\n\nRaw experience (verbatim):\n"
  const TimePressureLabel: string := "\n\nContext signals:\n- Time pressure: "
  const EmotionIntensityLabel: string := "\n- Emotion intensity: "
  const IrreversibleLabel: string := "\n- Irreversible: "
  const Closing: string := @"

Write the output in the required 4-part format.
Important: your ""It's actually about"" must NOT be a rephrase of ""You think it's about"".
It must introduce a deeper variable (identity, control, status, responsibility, attachment, fairness, scarcity, avoidance, etc.).

Total: 120–220 words.
"

  /** A format string split at its replacement fields. */
  datatype Segment = Lit(text: string) | Field(name: string)

  /** The user template; its text holds no braces other than the six fields. */
  const UserPromptTemplate: seq<Segment> := [
    Lit(UserTypeLabel), Field("user_type"),
    Lit(ScenarioLabel), Field("scenario"),
    Lit(RawExperienceLabel), Field("raw_experience"),
    Lit(TimePressureLabel), Field("time_pressure"),
    Lit(EmotionIntensityLabel), Field("emotion_intensity"),
    Lit(IrreversibleLabel), Field("irreversible"),
    Lit(Closing)]

  predicate Supplied(s: Segment, args: map<string, string>) {
    s.Field? ==> s.name in args
  }

  /**
   * `str.format` with keyword arguments: literal text is copied, each field is
   * replaced by its argument as is, and a field without an argument is a
   * `KeyError` (`None`). Arguments the template does not name are ignored.
   */
  function Format(template: seq<Segment>, args: map<string, string>): (r: Option<string>)
    ensures r.Some? <==> forall i :: 0 <= i < |template| ==> Supplied(template[i], args)
  {
    if template == [] then Some("")
    else
      assert forall i :: 1 <= i < |template| ==> template[i] == template[1..][i - 1];
      Join(Piece(template[0], args), Format(template[1..], args))
  }

  /** The text one segment stands for, `None` for a field without an argument. */
  function Piece(s: Segment, args: map<string, string>): (r: Option<string>)
    ensures r.Some? <==> Supplied(s, args)
  {
    match s
    case Lit(text) => Some(text)
    case Field(name) => if name in args then Some(args[name]) else None
  }

  function Join(a: Option<string>, b: Option<string>): Option<string> {
    if a.Some? && b.Some? then Some(a.value + b.value) else None
  }

  /** Formatting the template from segment `k` on: segment `k`, then the rest. */
  lemma FormatSuffix(t: seq<Segment>, k: nat, args: map<string, string>)
    requires k < |t|
    ensures Format(t[k..], args) == Join(Piece(t[k], args), Format(t[k + 1..], args))
  {
    assert t[k..][0] == t[k] && t[k..][1..] == t[k + 1..];
  }

  /**
   * The keyword arguments of the template call, one per field of the user
   * template; the two free-text ones are stripped.
   */
  function PromptArguments(req: ExperienceInput): (r: map<string, string>)
    ensures "scenario" in r && Bare(r["scenario"])
    ensures "raw_experience" in r && Bare(r["raw_experience"])
  {
    map[
      "user_type" := UserTypeName(req.userType),
      "time_pressure" := LevelName(req.timePressure),
      "emotion_intensity" := LevelName(req.emotionIntensity),
      "irreversible" := YesNoName(req.irreversible),
      "scenario" := Trim(req.scenario),
      "raw_experience" := Trim(req.rawExperience)]
  }

  /**
   * The rendered user instruction: the template's literal text with the user
   * type, the stripped scenario, the stripped raw experience and the three
   * context signals substituted in that order, verbatim.
   */
  function UserPrompt(req: ExperienceInput): (r: string)
    ensures r == UserTypeLabel + UserTypeName(req.userType)
               + ScenarioLabel + Trim(req.scenario)
               + RawExperienceLabel + Trim(req.rawExperience)
               + TimePressureLabel + LevelName(req.timePressure)
               + EmotionIntensityLabel + LevelName(req.emotionIntensity)
               + IrreversibleLabel + YesNoName(req.irreversible)
               + Closing
  {
    TemplateFilled(req);
    Format(UserPromptTemplate, PromptArguments(req)).value
  }

  /** Formatting the user template with the request's arguments never misses a key. */
  lemma TemplateFilled(req: ExperienceInput)
    ensures Format(UserPromptTemplate, PromptArguments(req)) == Some(
      UserTypeLabel + UserTypeName(req.userType)
      + ScenarioLabel + Trim(req.scenario)
      + RawExperienceLabel + Trim(req.rawExperience)
      + TimePressureLabel + LevelName(req.timePressure)
      + EmotionIntensityLabel + LevelName(req.emotionIntensity)
      + IrreversibleLabel + YesNoName(req.irreversible)
      + Closing)
  {
    var args := PromptArguments(req);
    ArgumentsOf(req);
    SixFields(UserTypeLabel, "user_type", ScenarioLabel, "scenario", RawExperienceLabel, "raw_experience",
      TimePressureLabel, "time_pressure", EmotionIntensityLabel, "emotion_intensity",
      IrreversibleLabel, "irreversible", Closing, args);
  }

  lemma ArgumentsOf(req: ExperienceInput)
    ensures var args := PromptArguments(req);
      && "user_type" in args && args["user_type"] == UserTypeName(req.userType)
      && "scenario" in args && args["scenario"] == Trim(req.scenario)
      && "raw_experience" in args && args["raw_experience"] == Trim(req.rawExperience)
      && "time_pressure" in args && args["time_pressure"] == LevelName(req.timePressure)
      && "emotion_intensity" in args && args["emotion_intensity"] == LevelName(req.emotionIntensity)
      && "irreversible" in args && args["irreversible"] == YesNoName(req.irreversible)
  {
  }

  /** A template of seven literal pieces around six fields, all of them supplied. */
  lemma SixFields(l0: string, n0: string, l1: string, n1: string, l2: string, n2: string,
                  l3: string, n3: string, l4: string, n4: string, l5: string, n5: string,
                  l6: string, args: map<string, string>)
    requires n0 in args && n1 in args && n2 in args && n3 in args && n4 in args && n5 in args
    ensures Format([Lit(l0), Field(n0), Lit(l1), Field(n1), Lit(l2), Field(n2), Lit(l3), Field(n3),
                    Lit(l4), Field(n4), Lit(l5), Field(n5), Lit(l6)], args)
         == Some(l0 + args[n0] + l1 + args[n1] + l2 + args[n2] + l3 + args[n3]
                 + l4 + args[n4] + l5 + args[n5] + l6)
  {
    var t6 := [Lit(l6)];
    assert Format(t6, args) == Some(l6) by {
      assert t6[1..] == [];
      assert l6 + [] == l6;
    }
    var t5 := [Lit(l5), Field(n5)] + t6;
    var r5 := l5 + (args[n5] + l6);
    assert Format(t5, args) == Some(r5) by { FormatLitField(l5, n5, t6, args); }
    var t4 := [Lit(l4), Field(n4)] + t5;
    var r4 := l4 + (args[n4] + r5);
    assert Format(t4, args) == Some(r4) by { FormatLitField(l4, n4, t5, args); }
    var t3 := [Lit(l3), Field(n3)] + t4;
    var r3 := l3 + (args[n3] + r4);
    assert Format(t3, args) == Some(r3) by { FormatLitField(l3, n3, t4, args); }
    var t2 := [Lit(l2), Field(n2)] + t3;
    var r2 := l2 + (args[n2] + r3);
    assert Format(t2, args) == Some(r2) by { FormatLitField(l2, n2, t3, args); }
    var t1 := [Lit(l1), Field(n1)] + t2;
    var r1 := l1 + (args[n1] + r2);
    assert Format(t1, args) == Some(r1) by { FormatLitField(l1, n1, t2, args); }
    var t0 := [Lit(l0), Field(n0)] + t1;
    var r0 := l0 + (args[n0] + r1);
    assert Format(t0, args) == Some(r0) by { FormatLitField(l0, n0, t1, args); }
    assert t0 == [Lit(l0), Field(n0), Lit(l1), Field(n1), Lit(l2), Field(n2), Lit(l3), Field(n3),
                  Lit(l4), Field(n4), Lit(l5), Field(n5), Lit(l6)];
    Reassociate(l0, args[n0], l1, args[n1], l2, args[n2], l3, args[n3], l4, args[n4], l5, args[n5], l6);
  }

  /** A literal followed by a supplied field, in front of the rest of a template. */
  lemma FormatLitField(l: string, n: string, rest: seq<Segment>, args: map<string, string>)
    requires n in args
    ensures Format(rest, args).Some? ==>
      Format([Lit(l), Field(n)] + rest, args) == Some(l + (args[n] + Format(rest, args).value))
  {
    var t := [Lit(l), Field(n)] + rest;
    assert t[1..] == [Field(n)] + rest;
    assert t[1..][1..] == rest;
  }

  lemma Reassociate(s0: string, s1: string, s2: string, s3: string, s4: string, s5: string, s6: string,
                    s7: string, s8: string, s9: string, s10: string, s11: string, s12: string)
    ensures s0 + s1 + s2 + s3 + s4 + s5 + s6 + s7 + s8 + s9 + s10 + s11 + s12
         == s0 + (s1 + (s2 + (s3 + (s4 + (s5 + (s6 + (s7 + (s8 + (s9 + (s10 + (s11 + s12)))))))))))
  {
  }

  datatype Role = System | User
  datatype Message = Message(role: Role, content: string)

  /** The two chat messages sent to the completion service. */
  function Messages(req: ExperienceInput): (m: seq<Message>)
    ensures |m| == 2
    ensures m[0] == Message(System, SystemPrompt)
    ensures m[1].role == User && m[1].content == UserPrompt(req)
  {
    [Message(System, SystemPrompt), Message(User, UserPrompt(req))]
  }

  /** Two requests always share the same system message. */
  lemma SystemMessageFixed(a: ExperienceInput, b: ExperienceInput)
    ensures Messages(a)[0] == Messages(b)[0]
  {
  }

  /**
   * Whitespace around the scenario or the raw experience does not change the
   * messages, because both are stripped before substitution.
   */
  lemma MessagesIgnorePadding(req: ExperienceInput, a1: string, b1: string, a2: string, b2: string)
    requires AllSpace(a1) && AllSpace(b1) && AllSpace(a2) && AllSpace(b2)
    ensures Messages(req.(scenario := a1 + req.scenario + b1, rawExperience := a2 + req.rawExperience + b2))
         == Messages(req)
  {
    TrimIgnoresPadding(a1, req.scenario, b1);
    TrimIgnoresPadding(a2, req.rawExperience, b2);
  }
}
