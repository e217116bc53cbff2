/** The run block of the page: the guard on the input, the prompt built for
    the selected mode, and the one call to the backend. Line numbers refer
    to `streamlit_personal_assistant.py`. */
module App {
  import opened Wrappers
  import opened Text
  import opened Filter
  import opened Templates
  import opened Tone
  import opened Notes
  import opened Client
  import opened Dispatch

  /** What a press of the Run button ends in. */
  datatype Outcome =
    | Idle                                                    // no run
    | Warned                                                  // "Please paste some text or a question first."
    | Blocked                                                 // the safety filter's error
    | Answered(notesError: Option<string>, response: string)  // `call_openai` was made
    | Stopped(notesError: Option<string>, error: DispatchError)  // the prompt could not be built

  /** The Run button exists only for the six modes of the selector
      (lines 149-156); otherwise it is never pressed. */
  predicate Runs(s: Settings, pressed: bool) {
    pressed && s.mode in Modes
  }

  /** The notes context and the notes error, which only the tutor reads. */
  function ContextFor(s: Settings, notes: Option<NotesFile>, pdfLibrary: bool): string {
    if s.mode == TutorMode then NotesContext(notes, pdfLibrary) else ""
  }

  function NotesErrorFor(s: Settings, notes: Option<NotesFile>, pdfLibrary: bool): Option<string> {
    if s.mode == TutorMode then NotesError(notes, pdfLibrary) else None
  }

  /** The arguments of the backend call a run makes, or None when it makes
      none. */
  function RunPlan(prompts: Table, s: Settings, pressed: bool, input: string, notes: Option<NotesFile>, pdfLibrary: bool): Option<Plan> {
    if !Runs(s, pressed) || Admit(input) != Admitted then None
    else
      match Planned(prompts, s, input, ContextFor(s, notes, pdfLibrary))
      case Success(p) => Some(p)
      case Failure(_) => None
  }

  /** What a run shows, given what `call_openai` returns for its call. */
  function RunOutcome(prompts: Table, s: Settings, pressed: bool, input: string, notes: Option<NotesFile>, pdfLibrary: bool, answer: string): Outcome {
    if !Runs(s, pressed) then Idle
    else match Admit(input)
      case EmptyInput => Warned
      case Rejected => Blocked
      case Admitted =>
        match Planned(prompts, s, input, ContextFor(s, notes, pdfLibrary))
        case Success(_) => Answered(NotesErrorFor(s, notes, pdfLibrary), answer)
        case Failure(e) => Stopped(NotesErrorFor(s, notes, pdfLibrary), e)
  }

  /** Lines 186-255, once the guard has let the input through: the prompt
      is resolved, replaced by the notes form for the tutor when notes text
      was read, and toned; the mode fixes the generation settings. */
  method BuildPrompt(prompts: Table, s: Settings, input: string, notes: Option<NotesFile>, pdfLibrary: bool)
    returns (plan: Result<Plan, DispatchError>, notesError: Option<string>)
    ensures plan == Planned(prompts, s, input, ContextFor(s, notes, pdfLibrary))
    ensures notesError == NotesErrorFor(s, notes, pdfLibrary)
  {
    var temperature := s.temperature;
    var maxTokens := s.maxTokens;
    var context := "";
    notesError := None;
    var resolved: Result<string, DispatchError>;
    if s.mode == SummarizeMode {
      resolved := FormatEntry(prompts, Summarize, "input", input);
    } else if s.mode == ImproveMode {
      resolved := FormatEntry(prompts, Improve, "input", input);
    } else if s.mode == FunTransformMode {
      var key := Lower(s.transform);
      resolved := Resolve(prompts, key, "input", input);
    } else if s.mode == MotivationMode {
      resolved := FormatEntry(prompts, Motivation, "topic", s.topic);
      maxTokens := 80;
    } else if s.mode == NotesMode {
      resolved := FormatEntry(prompts, NotesKey(s.style), "input", input);
      temperature := 0.3;
    } else if s.mode == TutorMode {
      context, notesError := ExtractNotes(notes, pdfLibrary);
      resolved := FormatEntry(prompts, QaTutor, "input", input);
    } else {
      return Failure(ModeNotImplemented), None;
    }
    if resolved.Failure? {
      return Failure(resolved.error), notesError;
    }
    var prompt := resolved.value;
    if context != "" {
      prompt := NotesForm(context, input);
    }
    prompt := ApplyTone(prompt, s.tone);
    plan := Success(Plan(prompt, temperature, maxTokens));
  }

  /** Lines 179-184: the guard, a blank input first, then the filter. */
  method Screen(input: string) returns (admission: Admission)
    ensures admission == Admit(input)
  {
    StripEmptyIffBlank(input);
    if Strip(input) == "" {
      return EmptyInput;
    }
    if !SimpleFilter(input) {
      return Rejected;
    }
    return Admitted;
  }

  /** The one backend call a branch makes (lines 189, 195, 203, 209, 224
      and 251), and the answer shown. */
  method Send(plan: Plan, notesError: Option<string>, client: OpenAIClient, reply: Reply) returns (outcome: Outcome)
    modifies client
    ensures outcome == Answered(notesError, client.Answer(reply))
    ensures client.calls == old(client.calls) + [Call(plan.prompt, "", plan.temperature, plan.maxTokens)]
    ensures client.Ready() ==>
      |client.sent| == |old(client.sent)| + 1 && client.sent[..|old(client.sent)|] == old(client.sent) &&
      client.sent[|client.sent| - 1] ==
        Request(client.apiKey.value, client.model, [Message("user", plan.prompt)], plan.temperature, plan.maxTokens)
    ensures !client.Ready() ==> client.sent == old(client.sent)
  {
    var response := client.CallOpenAI(plan.prompt, "", plan.temperature, plan.maxTokens, reply);
    outcome := Answered(notesError, response);
  }

  /** Lines 179-255. `reply` is what the backend would answer. */
  method Run(prompts: Table, settings: Settings, pressed: bool, input: string, notes: Option<NotesFile>, pdfLibrary: bool,
             client: OpenAIClient, reply: Reply)
    returns (outcome: Outcome)
    modifies client
    ensures outcome == RunOutcome(prompts, settings, pressed, input, notes, pdfLibrary, client.Answer(reply))
    ensures RunPlan(prompts, settings, pressed, input, notes, pdfLibrary).None? ==>
      client.calls == old(client.calls) && client.sent == old(client.sent)
    ensures RunPlan(prompts, settings, pressed, input, notes, pdfLibrary).Some? ==>
      var p := RunPlan(prompts, settings, pressed, input, notes, pdfLibrary).value;
      client.calls == old(client.calls) + [Call(p.prompt, "", p.temperature, p.maxTokens)]
    ensures RunPlan(prompts, settings, pressed, input, notes, pdfLibrary).Some? && client.Ready() ==>
      var p := RunPlan(prompts, settings, pressed, input, notes, pdfLibrary).value;
      |client.sent| == |old(client.sent)| + 1 && client.sent[..|old(client.sent)|] == old(client.sent) &&
      client.sent[|client.sent| - 1] ==
        Request(client.apiKey.value, client.model, [Message("user", p.prompt)], p.temperature, p.maxTokens)
    ensures RunPlan(prompts, settings, pressed, input, notes, pdfLibrary).Some? && !client.Ready() ==>
      client.sent == old(client.sent)
  {
    if !Runs(settings, pressed) {
      return Idle;
    }
    var admission := Screen(input);
    if admission == EmptyInput {
      return Warned;
    }
    if admission == Rejected {
      return Blocked;
    }
    var plan, notesError := BuildPrompt(prompts, settings, input, notes, pdfLibrary);
    if plan.Failure? {
      return Stopped(notesError, plan.error);
    }
    outcome := Send(plan.value, notesError, client, reply);
  }

  /** The guard, in its order: a blank input is warned about whatever it
      contains; a non-blank input the filter rejects is blocked; only an
      admitted input can lead to a call. */
  lemma GuardOrder(prompts: Table, s: Settings, pressed: bool, input: string, notes: Option<NotesFile>, pdfLibrary: bool, answer: string)
    requires Runs(s, pressed)
    ensures IsBlank(input) ==> RunOutcome(prompts, s, pressed, input, notes, pdfLibrary, answer) == Warned
    ensures !IsBlank(input) && !SimpleFilter(input) ==>
      RunOutcome(prompts, s, pressed, input, notes, pdfLibrary, answer) == Blocked
    ensures RunPlan(prompts, s, pressed, input, notes, pdfLibrary).Some? ==> !IsBlank(input) && SimpleFilter(input)
  {
  }

  /** With a table of the source's layout, every admitted input and every
      option the widgets offer leads to exactly one call, whose answer is
      shown. */
  lemma AdmittedCalls(prompts: Table, s: Settings, pressed: bool, input: string, notes: Option<NotesFile>, pdfLibrary: bool, answer: string)
    requires Shaped(prompts)
    requires Runs(s, pressed) && !IsBlank(input) && SimpleFilter(input)
    requires s.mode == FunTransformMode ==> s.transform in TransformLabels
    ensures RunPlan(prompts, s, pressed, input, notes, pdfLibrary).Some?
    ensures RunOutcome(prompts, s, pressed, input, notes, pdfLibrary, answer) ==
      Answered(NotesErrorFor(s, notes, pdfLibrary), answer)
  {
    PlannedTotal(prompts, s, input, ContextFor(s, notes, pdfLibrary));
  }

  /** The prompt sent for a mode that fills a template with the input holds
      that input verbatim, and the tutor's holds the notes text it read. */
  lemma SentPromptKeepsInput(prompts: Table, s: Settings, pressed: bool, input: string, notes: Option<NotesFile>, pdfLibrary: bool)
    requires Shaped(prompts)
    requires Runs(s, pressed) && !IsBlank(input) && SimpleFilter(input)
    requires FillsInputMode(s)
    ensures RunPlan(prompts, s, pressed, input, notes, pdfLibrary).Some?
    ensures Contains(RunPlan(prompts, s, pressed, input, notes, pdfLibrary).value.prompt, input)
    ensures s.mode == TutorMode && NotesContext(notes, pdfLibrary) != "" ==>
      Contains(RunPlan(prompts, s, pressed, input, notes, pdfLibrary).value.prompt, NotesContext(notes, pdfLibrary))
  {
    var context := ContextFor(s, notes, pdfLibrary);
    PlannedKeepsInput(prompts, s, input, context);
    if s.mode == TutorMode && context != "" {
      TutorKeepsNotes(prompts, s, input, context);
    }
  }
}
