/** The `PROMPTS` table and the part of Python's `str.format` that fills it:
    `{name}` fields given by keyword, and the `{{` / `}}` escapes. */
module Templates {
  import opened Wrappers

  /** One piece of a format string: literal text or a `{name}` field. */
  datatype Segment = Lit(text: string) | Field(name: string)

  /** A format string, kept as its pieces so that its fields can be named. */
  type Template = seq<Segment>

  datatype FormatError =
    | MissingSubstitution(name: string)  // `KeyError`: the field was not passed
    | Malformed                          // `ValueError`: an unmatched brace

  predicate IsBrace(c: char) {
    c == '{' || c == '}'
  }

  predicate NoBraces(s: string) {
    '{' !in s && '}' !in s
  }

  /** The pieces can be written as a format string and read back: no brace
      inside literal text or inside a field name. */
  predicate WellFormed(t: Template) {
    forall i :: 0 <= i < |t| ==>
      match t[i]
      case Lit(s) => NoBraces(s)
      case Field(n) => NoBraces(n)
  }

  /** The format string as the source writes it. */
  function Render(t: Template): string
    decreases |t|
  {
    if t == [] then ""
    else
      (match t[0]
       case Lit(s) => s
       case Field(n) => "{" + n + "}") + Render(t[1..])
  }

  /** The intended meaning of filling `name` with `value`: every field named
      `name` is replaced, and the first field with another name is missing. */
  function Fill(t: Template, name: string, value: string): Result<string, FormatError>
    decreases |t|
  {
    if t == [] then Success("")
    else match t[0]
      case Lit(s) => Prepend(s, Fill(t[1..], name, value))
      case Field(n) =>
        if n == name then Prepend(value, Fill(t[1..], name, value))
        else Failure(MissingSubstitution(n))
  }

  function Prepend(p: string, r: Result<string, FormatError>): Result<string, FormatError> {
    match r
    case Success(s) => Success(p + s)
    case Failure(e) => Failure(e)
  }

  /** Length of the run of non-brace characters at the start of `t`. */
  function FieldLength(t: string): (k: nat)
    ensures k <= |t|
    ensures forall i :: 0 <= i < k ==> !IsBrace(t[i])
    ensures k < |t| ==> IsBrace(t[k])
    decreases |t|
  {
    if t == [] || IsBrace(t[0]) then 0 else 1 + FieldLength(t[1..])
  }

  /** `t.format(**{name: value})`, scanning left to right as Python does. */
  function Format(t: string, name: string, value: string): Result<string, FormatError>
    decreases |t|
  {
    if t == [] then Success("")
    else if t[0] == '{' && |t| >= 2 && t[1] == '{' then Prepend("{", Format(t[2..], name, value))
    else if t[0] == '{' then
      var k := FieldLength(t[1..]);
      if 1 + k == |t| || t[1 + k] == '{' then Failure(Malformed)
      else if t[1..1 + k] == name then Prepend(value, Format(t[2 + k..], name, value))
      else Failure(MissingSubstitution(t[1..1 + k]))
    else if t[0] == '}' && |t| >= 2 && t[1] == '}' then Prepend("}", Format(t[2..], name, value))
    else if t[0] == '}' then Failure(Malformed)
    else Prepend([t[0]], Format(t[1..], name, value))
  }

  /** Text without braces is copied through unchanged. */
  lemma {:induction false} FormatLiteral(p: string, rest: string, name: string, value: string)
    requires NoBraces(p)
    ensures Format(p + rest, name, value) == Prepend(p, Format(rest, name, value))
    decreases |p|
  {
    if p != [] {
      assert (p + rest)[1..] == p[1..] + rest;
      assert p == [p[0]] + p[1..];
      FormatLiteral(p[1..], rest, name, value);
      match Format(rest, name, value)
      case Success(s) => assert [p[0]] + (p[1..] + s) == p + s;
      case Failure(_) =>
    } else {
      assert p + rest == rest;
      match Format(rest, name, value)
      case Success(s) => assert p + s == s;
      case Failure(_) =>
    }
  }

  /** A field is replaced by the value when its name matches, and is missing
      otherwise. */
  lemma FormatField(n: string, rest: string, name: string, value: string)
    requires NoBraces(n)
    ensures Format("{" + n + "}" + rest, name, value) ==
      if n == name then Prepend(value, Format(rest, name, value))
      else Failure(MissingSubstitution(n))
  {
    var t := "{" + n + "}" + rest;
    assert t[1..] == n + "}" + rest;
    var k := FieldLength(t[1..]);
    assert t[1..][|n|] == '}';
    assert k == |n|;
    assert t[1..1 + k] == n;
    assert t[2 + k..] == rest;
    if n != [] {
      assert t[1] == n[0] && n[0] in n;
    }
  }

  /** Python's `format` on the written-out template means `Fill`. */
  lemma {:induction false} FormatRender(t: Template, name: string, value: string)
    requires WellFormed(t)
    ensures Format(Render(t), name, value) == Fill(t, name, value)
    decreases |t|
  {
    if t != [] {
      assert WellFormed(t[1..]) by {
        forall i | 0 <= i < |t[1..]| ensures match t[1..][i] case Lit(s) => NoBraces(s) case Field(n) => NoBraces(n) {
          assert t[1..][i] == t[i + 1];
        }
      }
      FormatRender(t[1..], name, value);
      match t[0]
      case Lit(s) =>
        FormatLiteral(s, Render(t[1..]), name, value);
      case Field(n) =>
        FormatField(n, Render(t[1..]), name, value);
    }
  }

  // The templates of the table, one per key. Each literal text is the
  // source's text between its fields, written in pieces of a few words
  // (a long string literal is costly for the verifier).

  const SummarizeTemplate: Template := [
    Lit("Summarize the following text "
      + "into a short, clear summary "
      + "(3-6 lines). Keep it simple and "
      + "friendly: \n\n"),
    Field("input")
  ]

  const ImproveTemplate: Template := [
    Lit("Improve the following text so "
      + "it sounds polished, "
      + "professional, and concise. Keep "
      + "original meaning:\n\n"),
    Field("input")
  ]

  const ExplainSimpleTemplate: Template := [
    Lit("Explain the following concept "
      + "like I'm "),
    Field("age"),
    Lit(" years old. Use simple "
      + "language, examples, and a short "
      + "summary at the end:\n\n"),
    Field("input")
  ]

  const ShakespeareTemplate: Template := [
    Lit("Turn this into "
      + "Shakespearean-style language, "
      + "with poetic phrasing and a "
      + "touch of humor:\n\n"),
    Field("input")
  ]

  const RapTemplate: Template := [
    Lit("Turn this into a short rap "
      + "verse (4-8 lines), keeping the "
      + "original message and making it "
      + "catchy and rhythmic:\n\n"),
    Field("input")
  ]

  const MemeTemplate: Template := [
    Lit("Turn the input into a short "
      + "meme-style caption or text "
      + "suitable for social media "
      + "(one-liners or 2-sentence "
      + "punchlines):\n\n"),
    Field("input")
  ]

  const SarcasticTemplate: Template := [
    Lit("Turn this into a sarcastic "
      + "version, with witty and ironic "
      + "remarks:\n\n"),
    Field("input")
  ]

  const RoastTemplate: Template := [
    Lit("Turn this into a light-hearted "
      + "roast, poking fun in a playful "
      + "way:\n\n"),
    Field("input")
  ]

  const PirateTemplate: Template := [
    Lit("Turn this into pirate speak, "
      + "with 'arr' and nautical terms:\n\n"),
    Field("input")
  ]

  const YodaTemplate: Template := [
    Lit("Turn this into Yoda speak, like "
      + "'Do or do not, there is no "
      + "try':\n\n"),
    Field("input")
  ]

  const CowboyTemplate: Template := [
    Lit("Turn this into cowboy speak, "
      + "with 'howdy' and western "
      + "slang:\n\n"),
    Field("input")
  ]

  const PoemTemplate: Template := [
    Lit("Turn this into a short poem "
      + "(4-8 lines), keeping the "
      + "original message:\n\n"),
    Field("input")
  ]

  const TimelineTemplate: Template := [
    Lit("Convert the following notes "
      + "into a chronological timeline "
      + "of events or key points:\n\n"),
    Field("input")
  ]

  const FlashcardsTemplate: Template := [
    Lit("Create flashcards from the "
      + "following notes (question: "
      + "answer format):\n\n"),
    Field("input")
  ]

  const MotivationTemplate: Template := [
    Lit("Write a short, relatable "
      + "motivational quote for a "
      + "student about: "),
    Field("topic"),
    Lit(". Keep it friendly and "
      + "shareable (one or two lines).")
  ]

  const CreativityStoryTemplate: Template := [
    Lit("Write a short (200-300 word) "
      + "story about: "),
    Field("topic"),
    Lit(". Keep it engaging and end with "
      + "a twist.")
  ]

  const CreativityJokeTemplate: Template := [
    Lit("Write a short, wholesome joke "
      + "about: "),
    Field("topic"),
    Lit(".")
  ]

  const NotesBulletsTemplate: Template := [
    Lit("Convert the following lecture "
      + "notes into concise bullet "
      + "points capturing the key ideas, "
      + "terms, and actions to "
      + "remember:\n\n"),
    Field("input")
  ]

  const MindmapLikeTemplate: Template := [
    Lit("Given the following notes, "
      + "return a short hierarchical "
      + "list that could be turned into "
      + "a mind map (root -> 3 main "
      + "branches -> 2 subpoints each):\n\n"),
    Field("input")
  ]

  const QaTutorTemplate: Template := [
    Lit("You are a helpful tutor. Answer "
      + "the question in a clear and "
      + "friendly way, include one quick "
      + "example and a 2-line summary at "
      + "the end. If the user asks for "
      + "step-by-step, provide numbered "
      + "steps. Question:\n\n"),
    Field("input")
  ]

  /** The keys of the `PROMPTS` dictionary. */
  datatype PromptKey =
    | Summarize
    | Improve
    | ExplainSimple
    | Shakespeare
    | Rap
    | Meme
    | Sarcastic
    | Roast
    | Pirate
    | Yoda
    | Cowboy
    | Poem
    | Timeline
    | Flashcards
    | Motivation
    | CreativityStory
    | CreativityJoke
    | NotesBullets
    | MindmapLike
    | QaTutor

  /** The string each key is stored under. */
  function KeyName(k: PromptKey): string {
    match k
    case Summarize => "summarize"
    case Improve => "improve"
    case ExplainSimple => "explain_simple"
    case Shakespeare => "shakespeare"
    case Rap => "rap"
    case Meme => "meme"
    case Sarcastic => "sarcastic"
    case Roast => "roast"
    case Pirate => "pirate"
    case Yoda => "yoda"
    case Cowboy => "cowboy"
    case Poem => "poem"
    case Timeline => "timeline"
    case Flashcards => "flashcards"
    case Motivation => "motivation"
    case CreativityStory => "creativity_story"
    case CreativityJoke => "creativity_joke"
    case NotesBullets => "notes_bullets"
    case MindmapLike => "mindmap_like"
    case QaTutor => "qa_tutor"
  }

  /** The template stored under each key. */
  function TemplateOf(k: PromptKey): Template {
    match k
    case Summarize => SummarizeTemplate
    case Improve => ImproveTemplate
    case ExplainSimple => ExplainSimpleTemplate
    case Shakespeare => ShakespeareTemplate
    case Rap => RapTemplate
    case Meme => MemeTemplate
    case Sarcastic => SarcasticTemplate
    case Roast => RoastTemplate
    case Pirate => PirateTemplate
    case Yoda => YodaTemplate
    case Cowboy => CowboyTemplate
    case Poem => PoemTemplate
    case Timeline => TimelineTemplate
    case Flashcards => FlashcardsTemplate
    case Motivation => MotivationTemplate
    case CreativityStory => CreativityStoryTemplate
    case CreativityJoke => CreativityJokeTemplate
    case NotesBullets => NotesBulletsTemplate
    case MindmapLike => MindmapLikeTemplate
    case QaTutor => QaTutorTemplate
  }

  /** A prompt table: the template stored under each key. */
  type Table = PromptKey -> Template

  /** The keys whose template is filled with the user's text alone. */
  predicate FillsInput(k: PromptKey) {
    !(k.ExplainSimple? || k.Motivation? || k.CreativityStory? || k.CreativityJoke?)
  }

  /** Literal text followed by the `{input}` field. */
  predicate InputShaped(t: Template) {
    |t| == 2 && t[0].Lit? && t[1] == Field("input")
  }

  /** Literal text, the `{topic}` field, literal text. */
  predicate TopicShaped(t: Template) {
    |t| == 3 && t[0].Lit? && t[1] == Field("topic") && t[2].Lit?
  }

  /** The layout of the fields of a table, key by key, as in `PROMPTS`:
      `explain_simple` asks for `{age}` before `{input}`, the motivation and
      creativity templates ask for `{topic}`, every other template for
      `{input}` alone. */
  predicate Shaped(table: Table) {
    (forall k :: FillsInput(k) ==> InputShaped(table(k))) &&
    TopicShaped(table(Motivation)) &&
    TopicShaped(table(CreativityStory)) &&
    TopicShaped(table(CreativityJoke)) &&
    var e := table(ExplainSimple);
    |e| == 4 && e[0].Lit? && e[1] == Field("age") && e[2].Lit? && e[3] == Field("input")
  }

  /** The source's table has that layout. */
  lemma PromptsShaped()
    ensures Shaped(TemplateOf)
  {
  }

  /** Dictionary lookup by string: the key stored under `s`, if there is one. */
  function ParseKey(s: string): (r: Option<PromptKey>)
    ensures r.Some? ==> KeyName(r.value) == s
    ensures r.None? ==> forall k :: KeyName(k) != s
  {
    if s == "summarize" then Some(Summarize)
    else if s == "improve" then Some(Improve)
    else if s == "explain_simple" then Some(ExplainSimple)
    else if s == "shakespeare" then Some(Shakespeare)
    else if s == "rap" then Some(Rap)
    else if s == "meme" then Some(Meme)
    else if s == "sarcastic" then Some(Sarcastic)
    else if s == "roast" then Some(Roast)
    else if s == "pirate" then Some(Pirate)
    else if s == "yoda" then Some(Yoda)
    else if s == "cowboy" then Some(Cowboy)
    else if s == "poem" then Some(Poem)
    else if s == "timeline" then Some(Timeline)
    else if s == "flashcards" then Some(Flashcards)
    else if s == "motivation" then Some(Motivation)
    else if s == "creativity_story" then Some(CreativityStory)
    else if s == "creativity_joke" then Some(CreativityJoke)
    else if s == "notes_bullets" then Some(NotesBullets)
    else if s == "mindmap_like" then Some(MindmapLike)
    else if s == "qa_tutor" then Some(QaTutor)
    else None
  }

  /** Looking a key up by its own name finds it. */
  lemma ParseKeyName(k: PromptKey)
    ensures ParseKey(KeyName(k)) == Some(k)
  {
    if k.Summarize? || k.Improve? || k.ExplainSimple? || k.Shakespeare? || k.Rap? {
      ParseKeyNameA(k);
    } else if k.Meme? || k.Sarcastic? || k.Roast? || k.Pirate? || k.Yoda? {
      ParseKeyNameB(k);
    } else if k.Cowboy? || k.Poem? || k.Timeline? || k.Flashcards? || k.Motivation? {
      ParseKeyNameC(k);
    } else {
      ParseKeyNameD(k);
    }
  }

  /** `ParseKeyName` for five keys at a time, in declaration order. */
  lemma ParseKeyNameA(k: PromptKey)
    requires k.Summarize? || k.Improve? || k.ExplainSimple? || k.Shakespeare? || k.Rap?
    ensures ParseKey(KeyName(k)) == Some(k)
  {
  }

  lemma ParseKeyNameB(k: PromptKey)
    requires k.Meme? || k.Sarcastic? || k.Roast? || k.Pirate? || k.Yoda?
    ensures ParseKey(KeyName(k)) == Some(k)
  {
  }

  lemma ParseKeyNameC(k: PromptKey)
    requires k.Cowboy? || k.Poem? || k.Timeline? || k.Flashcards? || k.Motivation?
    ensures ParseKey(KeyName(k)) == Some(k)
  {
  }

  lemma ParseKeyNameD(k: PromptKey)
    requires k.CreativityStory? || k.CreativityJoke? || k.NotesBullets? || k.MindmapLike? || k.QaTutor?
    ensures ParseKey(KeyName(k)) == Some(k)
  {
  }
}
