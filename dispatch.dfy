/** How the run block chooses a template for the selected mode, fills it and
    applies the tone, and which generation settings it passes on. Line
    numbers refer to `streamlit_personal_assistant.py`. */
module Dispatch {
  import opened Wrappers
  import opened Text
  import opened Templates
  import opened Tone

  /** The six entries of the sidebar's mode selector. */
  const SummarizeMode := "Summarize"
  const ImproveMode := "Improve Text"
  const FunTransformMode := "Fun Transform"
  const MotivationMode := "Motivation"
  const NotesMode := "Notes Organizer"
  const TutorMode := "Q&A Chat (Tutor)"
  const Modes: seq<string> := [SummarizeMode, ImproveMode, FunTransformMode, MotivationMode, NotesMode, TutorMode]

  /** The options of the mode-specific selectors. */
  const TransformLabels: seq<string> := ["Shakespeare", "Rap", "Meme", "Sarcastic", "Roast", "Pirate", "Yoda", "Cowboy", "Poem"]
  const Topics: seq<string> := ["studying", "procrastination", "stress", "success", "friendship"]
  const NotesStyles: seq<string> := ["Bullets", "Mindmap-style", "Timeline", "Flashcards"]

  /** The widget values the run block reads. */
  datatype Settings = Settings(
    mode: string, tone: string, maxTokens: int, temperature: real,
    transform: string, topic: string, style: string)

  /** The arguments of the one `call_openai` a run makes. */
  datatype Plan = Plan(prompt: string, temperature: real, maxTokens: int)

  /** Why no call is made after the guard passed: a `KeyError` from the table
      lookup, an exception from `format`, or the "Mode not implemented yet."
      branch. */
  datatype DispatchError =
    | TemplateNotFound(key: string)
    | FormatFailed(cause: FormatError)
    | ModeNotImplemented

  /** `PROMPTS[k].format(name=value)` for a key the code names itself, such
      as `PROMPTS["summarize"]`: the code's literal key is the `PromptKey`
      stored under that name (`ParseKeyName`). */
  function FormatEntry(table: Table, k: PromptKey, name: string, value: string): Result<string, DispatchError> {
    match Fill(table(k), name, value)
    case Success(p) => Success(p)
    case Failure(e) => Failure(FormatFailed(e))
  }

  /** `PROMPTS[key].format(name=value)` for a key computed at run time: the
      lookup can fail. */
  function Resolve(table: Table, key: string, name: string, value: string): Result<string, DispatchError> {
    match ParseKey(key)
    case None => Failure(TemplateNotFound(key))
    case Some(k) => FormatEntry(table, k, name, value)
  }

  /** The literal text of an input template, before its `{input}` field. */
  function Lead(table: Table, k: PromptKey): string
    requires Shaped(table) && FillsInput(k)
  {
    table(k)[0].text
  }

  /** Filling an input template puts the user's text right after its lead. */
  lemma ResolveInput(table: Table, k: PromptKey, input: string)
    requires Shaped(table) && FillsInput(k)
    ensures FormatEntry(table, k, "input", input) == Success(Lead(table, k) + input)
  {
    var t := table(k);
    assert InputShaped(t);
    assert t[1..][1..] == [];
    assert Fill(t[1..], "input", input) == Success(input + "");
    assert input + "" == input;
  }

  /** Filling a topic template puts the topic between its two texts. */
  lemma ResolveTopic(table: Table, k: PromptKey, topic: string)
    requires Shaped(table) && (k.Motivation? || k.CreativityStory? || k.CreativityJoke?)
    ensures FormatEntry(table, k, "topic", topic) == Success(table(k)[0].text + topic + table(k)[2].text)
  {
    var t := table(k);
    assert TopicShaped(t);
    assert t[1..][1..][1..] == [];
    assert t[2].text + "" == t[2].text;
    assert Fill(t[1..][1..], "topic", topic) == Success(t[2].text);
    assert Fill(t[1..], "topic", topic) == Success(topic + t[2].text);
    assert Fill(t, "topic", topic) == Success(t[0].text + (topic + t[2].text));
    assert t[0].text + (topic + t[2].text) == t[0].text + topic + t[2].text;
  }

  /** The notes keys, in the order of the styles they serve. */
  const NotesKeys: seq<PromptKey> := [NotesBullets, MindmapLike, Timeline, Flashcards]

  /** Lines 213-222: the notes style selects a template; any value the
      selector does not offer falls back to the bullets template. */
  function NotesKey(style: string): (k: PromptKey)
    ensures FillsInput(k)
    ensures style !in NotesStyles ==> k == NotesBullets
    ensures style in NotesStyles ==> k == NotesKeys[IndexOf(NotesStyles, style)]
  {
    if style == "Bullets" then NotesBullets
    else if style == "Mindmap-style" then MindmapLike
    else if style == "Timeline" then Timeline
    else if style == "Flashcards" then Flashcards
    else NotesBullets
  }

  function IndexOf(s: seq<string>, x: string): (i: nat)
    requires x in s
    ensures i < |s| && s[i] == x
    ensures forall j :: 0 <= j < i ==> s[j] != x
  {
    if s[0] == x then 0 else 1 + IndexOf(s[1..], x)
  }

  /** The f-string the tutor uses instead of its template when notes text was
      extracted. */
  function NotesForm(context: string, question: string): string {
    NotesLead + context + "\nQuestion:\n" + question
  }

  const NotesLead := "Use the following notes to answer " + "the question simply and understandably:\n"

  /** The tone applied to a resolved prompt, with the generation settings. */
  function Toned(base: Result<string, DispatchError>, tone: string, temperature: real, maxTokens: int): Result<Plan, DispatchError> {
    match base
    case Success(p) => Success(Plan(ApplyTone(p, tone), temperature, maxTokens))
    case Failure(e) => Failure(e)
  }

  /** The tutor's prompt before the tone: the `qa_tutor` template is always
      filled, and replaced by the notes form when the context is not empty. */
  function TutorBase(table: Table, input: string, context: string): Result<string, DispatchError> {
    match FormatEntry(table, QaTutor, "input", input)
    case Success(p) => Success(if context != "" then NotesForm(context, input) else p)
    case Failure(e) => Failure(e)
  }

  /** What the run block passes to `call_openai` once the guard has let the
      input through (lines 186-255). */
  function Planned(table: Table, s: Settings, input: string, context: string): Result<Plan, DispatchError> {
    if s.mode == SummarizeMode then Toned(FormatEntry(table, Summarize, "input", input), s.tone, s.temperature, s.maxTokens)
    else if s.mode == ImproveMode then Toned(FormatEntry(table, Improve, "input", input), s.tone, s.temperature, s.maxTokens)
    else if s.mode == FunTransformMode then Toned(Resolve(table, Lower(s.transform), "input", input), s.tone, s.temperature, s.maxTokens)
    else if s.mode == MotivationMode then Toned(FormatEntry(table, Motivation, "topic", s.topic), s.tone, s.temperature, 80)
    else if s.mode == NotesMode then Toned(FormatEntry(table, NotesKey(s.style), "input", input), s.tone, 0.3, s.maxTokens)
    else if s.mode == TutorMode then Toned(TutorBase(table, input, context), s.tone, s.temperature, s.maxTokens)
    else Failure(ModeNotImplemented)
  }

  /** The keys the transform labels lower to. */
  const TransformKeysList: seq<string> := ["shakespeare", "rap", "meme", "sarcastic", "roast", "pirate", "yoda", "cowboy", "poem"]

  lemma LowerTransformLabels()
    ensures forall i :: 0 <= i < |TransformLabels| ==> Lower(TransformLabels[i]) == TransformKeysList[i]
  {
    assert Lower("Shakespeare") == "shakespeare";
    assert Lower("Rap") == "rap";
    assert Lower("Meme") == "meme";
    assert Lower("Sarcastic") == "sarcastic";
    assert Lower("Roast") == "roast";
    assert Lower("Pirate") == "pirate";
    assert Lower("Yoda") == "yoda";
    assert Lower("Cowboy") == "cowboy";
    assert Lower("Poem") == "poem";
  }

  /** A key name stored in the table whose template is filled with the
      user's text. */
  predicate InputKeyName(key: string) {
    ParseKey(key).Some? && FillsInput(ParseKey(key).value)
  }

  /** Every transform label, lowered, is a key of the table whose template
      is filled with the input: the lookup of line 201 never fails. */
  lemma TransformKeys()
    ensures forall name :: name in TransformLabels ==> InputKeyName(Lower(name))
  {
    LowerTransformLabels();
    assert forall i :: 0 <= i < |TransformKeysList| ==> InputKeyName(TransformKeysList[i]);
  }

  /** The key a mode fills with the input; for Fun Transform it is the
      lowered label's key, if any, and Motivation and unknown modes fill none. */
  function ModeKey(s: Settings): Option<PromptKey> {
    if s.mode == SummarizeMode then Some(Summarize)
    else if s.mode == ImproveMode then Some(Improve)
    else if s.mode == FunTransformMode then ParseKey(Lower(s.transform))
    else if s.mode == NotesMode then Some(NotesKey(s.style))
    else if s.mode == TutorMode then Some(QaTutor)
    else None
  }

  /** The modes that fill a template with the input, given an option the
      widgets offer. */
  predicate FillsInputMode(s: Settings) {
    s.mode in [SummarizeMode, ImproveMode, NotesMode, TutorMode] ||
    (s.mode == FunTransformMode && s.transform in TransformLabels)
  }

  /** For every option the widgets offer, a run has a plan: no table lookup
      and no `format` call fails. */
  lemma PlannedTotal(table: Table, s: Settings, input: string, context: string)
    requires Shaped(table)
    requires s.mode in Modes
    requires s.mode == FunTransformMode ==> s.transform in TransformLabels
    ensures Planned(table, s, input, context).Success?
  {
    if s.mode == MotivationMode {
      ResolveTopic(table, Motivation, s.topic);
    } else {
      if s.mode == FunTransformMode {
        TransformKeys();
      }
      ResolveInput(table, ModeKey(s).value, input);
    }
  }

  /** The modes that fill a template with the input produce that template's
      lead, then the input verbatim, then the tone directive; the tutor does
      so when no notes text was extracted. */
  lemma PlannedInputPrompt(table: Table, s: Settings, input: string, context: string)
    requires Shaped(table)
    requires FillsInputMode(s) && (s.mode == TutorMode ==> context == "")
    ensures ModeKey(s).Some? && FillsInput(ModeKey(s).value)
    ensures Planned(table, s, input, context).Success?
    ensures Planned(table, s, input, context).value.prompt == Lead(table, ModeKey(s).value) + input + Directive(s.tone)
  {
    if s.mode == FunTransformMode {
      TransformKeys();
    }
    var k := ModeKey(s).value;
    ResolveInput(table, k, input);
  }

  /** The tutor: the `qa_tutor` template filled with the question without
      notes, the notes form with notes, and the tone after it in both cases. */
  lemma TutorPrompt(table: Table, s: Settings, input: string, context: string)
    requires Shaped(table)
    requires s.mode == TutorMode
    ensures Planned(table, s, input, context) == Success(Plan(
      ApplyTone(if context == "" then Lead(table, QaTutor) + input else NotesForm(context, input), s.tone),
      s.temperature, s.maxTokens))
  {
    ResolveInput(table, QaTutor, input);
  }

  /** Every prompt built from the input holds the input verbatim. */
  lemma PlannedKeepsInput(table: Table, s: Settings, input: string, context: string)
    requires Shaped(table)
    requires FillsInputMode(s)
    ensures Planned(table, s, input, context).Success?
    ensures Contains(Planned(table, s, input, context).value.prompt, input)
  {
    if s.mode == TutorMode && context != "" {
      TutorPrompt(table, s, input, context);
      assert ApplyTone(NotesForm(context, input), s.tone) == (NotesLead + context + "\nQuestion:\n") + input + Directive(s.tone);
      ContainsMiddle(NotesLead + context + "\nQuestion:\n", input, Directive(s.tone));
    } else {
      PlannedInputPrompt(table, s, input, context);
      ContainsMiddle(Lead(table, ModeKey(s).value), input, Directive(s.tone));
    }
  }

  /** A tutor prompt built with notes holds the notes verbatim. */
  lemma TutorKeepsNotes(table: Table, s: Settings, input: string, context: string)
    requires Shaped(table)
    requires s.mode == TutorMode && context != ""
    ensures Planned(table, s, input, context).Success?
    ensures Contains(Planned(table, s, input, context).value.prompt, context)
  {
    TutorPrompt(table, s, input, context);
    var x, q, d := NotesLead + context, "\nQuestion:\n", Directive(s.tone);
    AppendAssoc(x + q, input, d);
    AppendAssoc(x, q, input + d);
    AppendAssoc(q, input, d);
    assert ApplyTone(NotesForm(context, input), s.tone) == x + (q + input + d);
    ContainsMiddle(NotesLead, context, q + input + d);
  }

  /** The generation settings: the notes organizer always asks for
      temperature 0.3 and the motivation quote for at most 80 tokens; every
      other mode passes the sidebar's values on. */
  lemma PlannedSettings(table: Table, s: Settings, input: string, context: string)
    requires Planned(table, s, input, context).Success?
    ensures Planned(table, s, input, context).value.temperature == if s.mode == NotesMode then 0.3 else s.temperature
    ensures Planned(table, s, input, context).value.maxTokens == if s.mode == MotivationMode then 80 else s.maxTokens
  {
  }

  /** The motivation quote is filled with the topic, not the input. */
  lemma MotivationPrompt(table: Table, s: Settings, input: string, context: string)
    requires Shaped(table)
    requires s.mode == MotivationMode
    ensures Planned(table, s, input, context) ==
      Success(Plan(ApplyTone(table(Motivation)[0].text + s.topic + table(Motivation)[2].text, s.tone), s.temperature, 80))
  {
    ResolveTopic(table, Motivation, s.topic);
  }

  /** A transform label that lowers to no key fails like the source's
      `KeyError`, and one that lowers to a key not filled by `input` fails
      with the missing field, as `format` does. */
  lemma UnknownTransform(table: Table, s: Settings, input: string, context: string)
    requires Shaped(table)
    requires s.mode == FunTransformMode
    ensures ParseKey(Lower(s.transform)).None? ==>
      Planned(table, s, input, context) == Failure(TemplateNotFound(Lower(s.transform)))
    ensures Lower(s.transform) == "motivation" ==>
      Planned(table, s, input, context) == Failure(FormatFailed(MissingSubstitution("topic")))
    ensures Lower(s.transform) == "explain_simple" ==>
      Planned(table, s, input, context) == Failure(FormatFailed(MissingSubstitution("age")))
  {
    var m := table(Motivation);
    assert Fill(m[1..], "input", input) == Failure(MissingSubstitution("topic"));
    var e := table(ExplainSimple);
    assert Fill(e[1..], "input", input) == Failure(MissingSubstitution("age"));
  }

  /** The Fun Transform example with the source's table: "I am tired" as
      pirate speak, in a casual tone. */
  lemma PirateExample(temperature: real, maxTokens: int)
    ensures Planned(TemplateOf, Settings(FunTransformMode, "Casual", maxTokens, temperature, "Pirate", "", ""), "I am tired", "") ==
      Success(Plan("Turn this into pirate speak, " + "with 'arr' and nautical terms:\n\n" + "I am tired" +
        "\n" + "Use a casual, chatty tone with short sentences.", temperature, maxTokens))
  {
    var t := TemplateOf(Pirate);
    assert Lower("Pirate") == "pirate";
    assert t[1..][1..] == [];
    assert Fill(t[1..], "input", "I am tired") == Success("I am tired" + "");
    assert "I am tired" + "" == "I am tired";
    assert Resolve(TemplateOf, "pirate", "input", "I am tired") == Success(t[0].text + "I am tired");
    var d := "Use a casual, chatty tone with short sentences.";
    assert Directive("Casual") == "\n" + d;
    AppendAssoc(t[0].text + "I am tired", "\n", d);
  }
}
