# Personal assistant page: prompt building, guard and request shaping

This project models the deterministic core of a single-page study
assistant. The page takes a text or a question, checks it, builds a prompt
for the selected mode and sends that prompt to a chat-completion backend
once. The model covers the following parts.

- **The safety filter** (`simple_filter`): a case-insensitive substring
  test against the denylist "bomb", "kill", "suicide" (`Filter`, on the
  ASCII `lower`/`strip`/`in` of `Text`).
- **The tone directive** (`apply_tone`): one of four fixed sentences
  appended after a line break, or nothing (`Tone`).
- **The `PROMPTS` table** and the part of Python's `str.format` it relies on
  (`Templates`). Each template is kept as its pieces: literal text and
  `{name}` fields. `Format` scans a format string as Python does, including
  the `{{`/`}}` escapes, the `KeyError` for a missing field and the
  `ValueError` for an unmatched brace. `FormatRender` proves that formatting
  the written-out template is the same as `Fill` on its pieces, which the
  rest of the model uses. A key is a `PromptKey`, and `ParseKey` is the
  dictionary lookup by string. A key the code writes literally
  (`PROMPTS["summarize"]`) is used as its `PromptKey`, which `ParseKeyName`
  shows that lookup by its name finds; only Fun Transform's computed key
  goes through `ParseKey` and can fail.
- **The mode dispatch** (`Dispatch`):
  - Summarize, Improve Text, Fun Transform, Motivation, Notes Organizer and
    the tutor each pick a template and fill it.
  - Fun Transform uses the lowered label as the key.
  - The notes style maps to a key, falling back to bullets.
  - The tutor replaces its template with the notes form when notes text was
    read.
  - The tone comes last.
  - The Notes Organizer always asks for temperature 0.3, and Motivation for
    at most 80 tokens.

  The dispatch is defined for any table (`Table = PromptKey -> Template`).
  The lemmas assume only the table's field layout (`Shaped`), and
  `PromptsShaped` proves that the source's table `TemplateOf` has it.
- **The tutor's notes** (`Notes`). A PDF's pages are read in order, each
  page's text followed by a line break, and the loop stops at the first
  page that raises. A text file is decoded. Every failure is reported and
  the request goes on.
- **`call_openai`** (`Client`):
  - the two early error strings (package missing, key not set), tested in
    that order before anything is sent;
  - the message list: an optional system message, then the user message;
  - the request sent, and the reply stripped or turned into an error string.

  The client is a class that records every call and every request sent.
- **The run block** (`App`). `Run` presents the guard in order (`Screen`):
  blank input is warned about, then input the filter rejects is blocked.
  The order is kept as written, but it decides no outcome: blank input
  always passes the filter (`BlankPasses`).
  Only then does `BuildPrompt` build the prompt step by step as the source
  does (resolve, notes form, tone), and one call goes out (`Send`).

Strings are `seq<char>`. Python's `str.lower`, `str.strip` and
`str.isspace` are modelled on ASCII.

## Model

| member | source | states |
|---|---|---|
| Text.Lower | streamlit_personal_assistant.py:163 | no contract of its own: each character is lowered in place by `LowerChar`, whose contract says that no upper-case letter is left, that only upper-case letters change and that each keeps its place in the alphabet; `LowerIsLower`, `LowerIdempotent` and `LowerSlice` state the properties of the whole string |
| Text.LowerIsLower | streamlit_personal_assistant.py:163 | no ASCII upper-case letter is left in a lowered string |
| Text.LowerChar | streamlit_personal_assistant.py:163 | lowering one character leaves no upper-case letter, changes exactly the upper-case letters, and keeps a letter's place in the alphabet |
| Text.LowerIdempotent | streamlit_personal_assistant.py:163 | lowering twice is lowering once |
| Text.LowerSlice | streamlit_personal_assistant.py:163-164 | lowering then slicing equals slicing then lowering |
| Text.Contains | streamlit_personal_assistant.py:164 | no contract of its own: the `in` test by trying each start position; `ContainsIff` states what it finds and `ContainsMiddle` what it always finds |
| Text.ContainsIff | streamlit_personal_assistant.py:164 | the `in` test holds exactly when the needle occurs at some index of the text |
| Text.ContainsMiddle | streamlit_personal_assistant.py:164 | a string occurs in any concatenation that has it in the middle |
| Text.IsSpace | streamlit_personal_assistant.py:180 | no contract of its own: ASCII `str.isspace`, the white space `strip` drops; `TrimStart`, `TrimEnd`, `BlankTrimsAway` and `StripEmptyIffBlank` state what is dropped |
| Text.TrimStart | streamlit_personal_assistant.py:180 | the result is a suffix of the input, everything dropped is white space, and it does not start with white space |
| Text.TrimEnd | streamlit_personal_assistant.py:69 | the result is a prefix of the input, everything dropped is white space, and it does not end with white space |
| Text.BlankTrimsAway | streamlit_personal_assistant.py:180 | stripping the leading white space of a blank string leaves nothing |
| Text.Strip | streamlit_personal_assistant.py:69 | no contract of its own: `lstrip` then `rstrip`, as `TrimStart` and `TrimEnd` state; `StripEmptyIffBlank` gives the run guard's test at line 180 |
| Text.StripEmptyIffBlank | streamlit_personal_assistant.py:180 | `not s.strip()` holds exactly when every character of `s` is white space |
| Filter.SimpleFilter | streamlit_personal_assistant.py:161-164 | no contract of its own: lower the text, then test each banned word with `in`; `FilterRejectsBanned`, `FilterIgnoresCase` and `FilterOfLowered` state what it decides |
| Filter.FilterRejectsBanned | streamlit_personal_assistant.py:161-164 | the filter returns false exactly when the lowered text contains "bomb", "kill" or "suicide" |
| Filter.FilterIgnoresCase | streamlit_personal_assistant.py:161-164 | the filter returns false exactly when some slice of the text lowers to a banned word, in any capitalisation |
| Filter.FilterOfLowered | streamlit_personal_assistant.py:163 | lowering the input first does not change the verdict |
| Filter.BlankPasses | streamlit_personal_assistant.py:161-164 | blank input always passes the filter, so testing blankness first changes no outcome of the guard |
| Filter.Admit | streamlit_personal_assistant.py:180-184 | blank input is classified as empty before the filter is consulted; non-blank input is rejected exactly when the filter fails, and admitted otherwise |
| Tone.Directive | streamlit_personal_assistant.py:168-175 | no contract of its own: the line break and sentence each of the four tones appends, and nothing for any other tone; `ToneAppends`, `ApplyTone` and `TonesDistinct` state what it gives |
| Tone.ApplyTone | streamlit_personal_assistant.py:167-176 | for the four tones the prompt is a proper prefix of the result, followed by a line break; for any other tone the prompt is returned unchanged |
| Tone.ToneAppends | streamlit_personal_assistant.py:167-176 | only the four known tones append anything: the directive is non-empty exactly for "Friendly", "Formal", "Casual" and "Funny" |
| Tone.ToneCommutesWithPrefix | streamlit_personal_assistant.py:167-176 | text placed before a prompt stays before it after the tone is applied |
| Tone.TonesDistinct | streamlit_personal_assistant.py:167-175 | two different known tones never give the same prompt |
| Templates.Format | streamlit_personal_assistant.py:187-247 | no contract of its own: Python's `str.format` with one keyword argument, scanning `{{` and `}}` escapes, `{name}` fields, the missing-key error and the unmatched-brace error; `FormatLiteral`, `FormatField` and `FormatRender` state what it does |
| Templates.Fill | streamlit_personal_assistant.py:187-247 | no contract of its own: the meaning of a template filled with one keyword; `FormatRender` proves it equal to `Format` of the written-out template, error for error, and `ResolveInput`, `ResolveTopic` and `UnknownTransform` state its results on the table's layouts |
| Templates.FormatLiteral | streamlit_personal_assistant.py:187 | `format` copies text without braces through unchanged |
| Templates.FormatField | streamlit_personal_assistant.py:187 | a `{name}` field is replaced by the keyword's value when the names agree, and raises the missing-key error naming the field otherwise |
| Templates.FormatRender | streamlit_personal_assistant.py:201 | formatting the written-out form of any brace-free template is filling its fields, error for error |
| Templates.TemplateOf | streamlit_personal_assistant.py:74-95 | no contract of its own: the twenty entries of `PROMPTS`, each as its pieces, with the source's texts; `PromptsShaped` states their field layout and `PirateExample` one entry in full |
| Templates.KeyName | streamlit_personal_assistant.py:74-95 | no contract of its own: the dictionary's twenty key strings; `ParseKey` and `ParseKeyName` show that looking a string up inverts it |
| Templates.PromptsShaped | streamlit_personal_assistant.py:74-95 | the table's templates have the field layout the dispatch relies on: `{input}` alone, `{topic}` for the motivation and creativity entries, `{age}` then `{input}` for `explain_simple` |
| Templates.ParseKey | streamlit_personal_assistant.py:201 | the lookup finds the key stored under the string, and fails only when no key is stored under it |
| Templates.ParseKeyName | streamlit_personal_assistant.py:74-95 | looking up any key by its own name finds that key |
| Dispatch.FormatEntry | streamlit_personal_assistant.py:187-247 | no contract of its own: `PROMPTS[k].format(name=value)` for a key the code writes itself, with a `format` failure passed on; `ResolveInput` and `ResolveTopic` state its results |
| Dispatch.Resolve | streamlit_personal_assistant.py:200-201 | no contract of its own: the Fun Transform lookup by a computed key, which fails when no key is stored under it; `TransformKeys` and `UnknownTransform` state when it succeeds and how it fails |
| Dispatch.ResolveInput | streamlit_personal_assistant.py:201 | filling an input template gives its literal lead followed by the user's text verbatim |
| Dispatch.ResolveTopic | streamlit_personal_assistant.py:207 | filling a topic template puts the topic between the template's two texts |
| Dispatch.NotesKey | streamlit_personal_assistant.py:213-222 | Bullets, Mindmap-style, Timeline and Flashcards select their own keys, any other style falls back to `notes_bullets`, and the key's template is filled with the input |
| Dispatch.NotesForm | streamlit_personal_assistant.py:249 | no contract of its own: the tutor's f-string with the notes and the question; `TutorKeepsNotes` and `PlannedKeepsInput` state that it holds both verbatim |
| Dispatch.TutorBase | streamlit_personal_assistant.py:247-249 | no contract of its own: the `qa_tutor` template filled, replaced by the notes form when notes text was read; `TutorPrompt` states the result |
| Dispatch.Planned | streamlit_personal_assistant.py:186-252 | no contract of its own: the prompt and settings each mode passes to `call_openai`; `PlannedTotal`, `PlannedInputPrompt`, `TutorPrompt`, `PlannedKeepsInput`, `PlannedSettings`, `MotivationPrompt` and `UnknownTransform` state its results, and `App.BuildPrompt` builds it step by step |
| Dispatch.LowerTransformLabels | streamlit_personal_assistant.py:200 | the nine transform labels lower to the nine transform keys |
| Dispatch.TransformKeys | streamlit_personal_assistant.py:138 | every transform label, lowered, is a key whose template is filled with the input, so the lookup never fails |
| Dispatch.PlannedTotal | streamlit_personal_assistant.py:186-252 | for every mode and option the widgets offer, a prompt is built: no lookup and no `format` call fails |
| Dispatch.PlannedInputPrompt | streamlit_personal_assistant.py:186-225 | the input-filling modes send the template's lead, then the input, then the tone directive |
| Dispatch.TutorPrompt | streamlit_personal_assistant.py:247-250 | the tutor sends the `qa_tutor` prompt without notes and the notes form with notes, toned afterwards in both cases, with the sidebar's settings |
| Dispatch.PlannedKeepsInput | streamlit_personal_assistant.py:186-250 | every prompt built from the input contains the input verbatim |
| Dispatch.TutorKeepsNotes | streamlit_personal_assistant.py:248-249 | a tutor prompt built with notes contains the notes verbatim |
| Dispatch.PlannedSettings | streamlit_personal_assistant.py:186-251 | the Notes Organizer always uses temperature 0.3 and Motivation always at most 80 tokens; every other mode passes the sidebar's values on |
| Dispatch.MotivationPrompt | streamlit_personal_assistant.py:207-209 | the motivation quote is filled with the topic, toned, and limited to 80 tokens |
| Dispatch.UnknownTransform | streamlit_personal_assistant.py:200-201 | a label lowering to no key fails with the lookup error; one lowering to `motivation` or `explain_simple` fails with `format`'s missing `topic` or `age` |
| Dispatch.PirateExample | streamlit_personal_assistant.py:83 | with the source's table, "I am tired" as pirate speak in a casual tone gives exactly the pirate lead, the text and the casual directive |
| Notes.PagesText | streamlit_personal_assistant.py:240-241 | no contract of its own: each page's text followed by a line break, in order; `PagesTextAppend` and `PageInPlace` state how it splits |
| Notes.PagesTextAppend | streamlit_personal_assistant.py:240-241 | the text of a list of pages is the text of its first part followed by that of the rest |
| Notes.PageInPlace | streamlit_personal_assistant.py:240-241 | each page's text sits after the text of the pages before it and is followed by a line break |
| Notes.ReadableCount | streamlit_personal_assistant.py:240-241 | counts the pages read before the first page whose extraction raises |
| Notes.AccumulatePages | streamlit_personal_assistant.py:237-246 | the loop gathers the text of every page before the first failing one, in order, and reports that page's error; with no failure it reports nothing |
| Notes.NotesContext | streamlit_personal_assistant.py:229-246 | no contract of its own: the tutor's context text for an upload; `ReadableNotes` and `UnreadableNotes` state what it is for each kind of upload, and `ExtractNotes` computes it step by step |
| Notes.NotesError | streamlit_personal_assistant.py:230-246 | an error is reported exactly when a file was uploaded and PyPDF2 is missing, the file cannot be opened or decoded, or some page's text cannot be extracted; without PyPDF2 it is the missing-library message |
| Notes.ExtractNotes | streamlit_personal_assistant.py:229-246 | the context and the reported error are those of the file |
| Notes.ReadableNotes | streamlit_personal_assistant.py:238-244 | a readable PDF gives every page's text in order with no error, and a decoded text file gives its text exactly |
| Notes.UnreadableNotes | streamlit_personal_assistant.py:231-246 | without PyPDF2, or for a file that cannot be opened or decoded, the context is empty and an error is reported |
| Client.KeyIsSet | streamlit_personal_assistant.py:52 | no contract of its own: Python's truth test on the key, failing for an unset and for an empty key; `CallOpenAI` states that a key failing it returns the key error without sending |
| Client.BuildMessages | streamlit_personal_assistant.py:56-59 | the list has a system message first exactly when the system text is non-empty, then the one user message carrying the prompt, so its length is 1 or 2 |
| Client.ReplyText | streamlit_personal_assistant.py:61-71 | no contract of its own: the completion's content stripped, or the API error string; `CallOpenAI` states when it is returned |
| Client.OpenAIClient.constructor | streamlit_personal_assistant.py:40-41 | the client holds the configured key and model and has made no call |
| Client.OpenAIClient.Answer | streamlit_personal_assistant.py:47-71 | no contract of its own: what `call_openai` returns, the missing package and the missing key tested in that order before the reply; `CallOpenAI` states that it is the call's result |
| Client.OpenAIClient.CallOpenAI | streamlit_personal_assistant.py:45-71 | a missing package or key returns its error string without sending anything; otherwise exactly one request with the given settings and message list is sent, and the reply is returned stripped or as an error string |
| App.RunPlan | streamlit_personal_assistant.py:179-255 | no contract of its own: the prompt and settings of the one call a press of Run makes, if any; `GuardOrder`, `AdmittedCalls` and `SentPromptKeepsInput` state when there is one and what it holds, and `App.Run` makes that call |
| App.RunOutcome | streamlit_personal_assistant.py:179-255 | no contract of its own: what a press of Run shows; `GuardOrder` and `AdmittedCalls` state it for each kind of input, and `App.Run` ends in it |
| App.Runs | streamlit_personal_assistant.py:149-156 | no contract of its own: the Run button exists only in the six modes of the selector; `GuardOrder` and `AdmittedCalls` assume it, and otherwise `RunOutcome` is `Idle` and `RunPlan` empty, so `App.Run` makes no call |
| App.Screen | streamlit_personal_assistant.py:180-184 | the guard's verdict is computed in the source's order: the strip test first, then the filter, giving the classification `Admit` states |
| App.Send | streamlit_personal_assistant.py:186-252 | the one `call_openai` of a branch records that call with the plan's prompt, no system text and the plan's settings; a ready client appends exactly one request, with its key and model, the plan's temperature and token limit and the prompt as the only message, and the answer shown is the call's return value |
| App.BuildPrompt | streamlit_personal_assistant.py:186-255 | the step-by-step prompt (resolve, notes form, tone) and the mode's settings are those of the dispatch, and the notes error is the file's |
| App.Run | streamlit_personal_assistant.py:179-255 | the outcome follows the guard and the dispatch; no call is made unless a prompt was built, and then exactly one call is made with it, and a ready client appends exactly one request with its key and model, the prompt as the only message and the mode's temperature and token limit |
| App.GuardOrder | streamlit_personal_assistant.py:180-184 | blank input is warned about whatever it contains, non-blank filtered input is blocked, and a call needs admitted input; the blank test comes first as written, though by `BlankPasses` the order changes no outcome |
| App.AdmittedCalls | streamlit_personal_assistant.py:185-252 | for admitted input and the widgets' options, one call is made and its answer is shown |
| App.SentPromptKeepsInput | streamlit_personal_assistant.py:186-250 | the prompt sent holds the input verbatim, and the tutor's also holds the notes text it read |

## Left out

- The page layout, widgets, spinner, output rendering and the download
  button: these are presentation. The widget values are the fields of
  `Settings`, and a press of Run is a boolean.
- The network call itself: the backend's answer is the input `reply`.
  Completion parsing (`resp.choices[0]`) is reduced to the content string.
- dotenv and the environment: the key is an `Option<string>` and the model
  name a string, both given to the client's constructor.
- PyPDF2 and UTF-8 decoding: a PDF is given as its list of page texts or
  page errors, or as the error of opening it. A text file is given as its
  decoded text or its decoding error. Whether the import succeeds is the
  boolean `pdfLibrary`. The upload's mime type is the choice between
  `PdfUpload` and `TextUpload`.
- Full Unicode `lower`, `strip` and `isspace`: only ASCII letters are
  lowered and only ASCII white space is stripped.
- Temperature: a `real` that is passed through and never computed with.
- `str.format` conversions (`!r`), format specs (`:>10`), indexed and
  attribute fields, and positional arguments are not modelled. No template
  of the table uses them.
- An empty field `{}`: Python raises `IndexError` there. The model reports
  it as a missing substitution with the empty name.
- Templates.PromptsShaped: the model does not check that the table's
  literal texts are free of braces, so the table's templates are given as
  pieces rather than as format strings to be parsed. Those texts contain
  no braces, but only `FormatRender`'s general statement ties them to
  `Format`.
- The `explain_simple` template is in the table but no mode uses it.
  Only its layout (`{age}` before `{input}`) is stated.

## Notes on the source

- When a PDF page fails half-way through the document, the source keeps
  the text gathered from the earlier pages as the tutor's context and
  reports the error. The model follows the code (`AccumulatePages`,
  `NotesContext`); an empty context would be expected only when the file
  cannot be opened at all.
- Every page's text is followed by a line break, the last one included:
  the texts are not merely separated by line breaks.
- The PyPDF2 import is attempted for every upload, text files included, so
  a missing PyPDF2 also discards a plain-text upload (`NotesError`,
  `UnreadableNotes`).
