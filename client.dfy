/** `call_openai`: the one function that talks to the generation backend. The
    backend itself is not modelled: its answer for a request is an input.
    Line numbers refer to `streamlit_personal_assistant.py`. */
module Client {
  import opened Wrappers
  import Text

  datatype Message = Message(role: string, content: string)

  /** What `openai.chat.completions.create` is given. */
  datatype Request = Request(apiKey: string, model: string, messages: seq<Message>, temperature: real, maxTokens: int)

  /** What the backend does with a request: return a completion's message
      content, or raise an exception with the given message. */
  datatype Reply = Completion(content: string) | Raised(message: string)

  const NotInstalled := "Error: openai package not installed. Install with `pip install openai`."
  const KeyNotSet := "Error: OPENAI_API_KEY not set."

  /** Python's truth test on `OPENAI_API_KEY`: unset and "" both fail it. */
  predicate KeyIsSet(apiKey: Option<string>) {
    apiKey.Some? && apiKey.value != ""
  }

  /** Lines 56-59: an optional system message first, then the user message. */
  method BuildMessages(system: string, prompt: string) returns (messages: seq<Message>)
    ensures |messages| == if system == "" then 1 else 2
    ensures messages[0].role == "system" <==> system != ""
    ensures system != "" ==> messages[0] == Message("system", system)
    ensures messages[|messages| - 1] == Message("user", prompt)
  {
    messages := [];
    if system != "" {
      messages := messages + [Message("system", system)];
    }
    messages := messages + [Message("user", prompt)];
  }

  /** The string `call_openai` returns once a request was sent. */
  function ReplyText(reply: Reply): string {
    match reply
    case Completion(content) => Text.Strip(content)
    case Raised(message) => "OpenAI API error: " + message
  }

  /** One invocation of `call_openai`, with its arguments. */
  datatype Call = Call(prompt: string, system: string, temperature: real, maxTokens: int)

  /** The backend configuration read at start-up, and what has been asked of
      it: `calls` records every invocation, `sent` every request that went out. */
  class OpenAIClient {
    const apiKey: Option<string>
    const packageInstalled: bool
    const model: string
    ghost var calls: seq<Call>
    var sent: seq<Request>

    constructor (apiKey: Option<string>, packageInstalled: bool, model: string)
      ensures this.apiKey == apiKey && this.packageInstalled == packageInstalled && this.model == model
      ensures calls == [] && sent == []
    {
      this.apiKey := apiKey;
      this.packageInstalled := packageInstalled;
      this.model := model;
      calls := [];
      sent := [];
    }

    /** A request can go out: the package imports and the key is set. */
    predicate Ready() {
      packageInstalled && KeyIsSet(apiKey)
    }

    /** What `call_openai` returns for a backend reply: the two early errors,
        in the order they are tested, come before any request. */
    function Answer(reply: Reply): string {
      if !packageInstalled then NotInstalled
      else if !KeyIsSet(apiKey) then KeyNotSet
      else ReplyText(reply)
    }

    /** `call_openai(prompt, system, temperature, max_tokens)`. It never
        raises: every failure comes back as a string. */
    method CallOpenAI(prompt: string, system: string, temperature: real, maxTokens: int, reply: Reply)
      returns (r: string)
      modifies this
      ensures calls == old(calls) + [Call(prompt, system, temperature, maxTokens)]
      ensures r == Answer(reply)
      ensures !Ready() ==> sent == old(sent)
      ensures Ready() ==>
        |sent| == |old(sent)| + 1 && sent[..|old(sent)|] == old(sent) &&
        var req := sent[|sent| - 1];
        req.apiKey == apiKey.value && req.model == model &&
        req.temperature == temperature && req.maxTokens == maxTokens &&
        |req.messages| == (if system == "" then 1 else 2) &&
        (system != "" ==> req.messages[0] == Message("system", system)) &&
        req.messages[|req.messages| - 1] == Message("user", prompt)
    {
      calls := calls + [Call(prompt, system, temperature, maxTokens)];
      if !packageInstalled {
        return NotInstalled;
      }
      if !KeyIsSet(apiKey) {
        return KeyNotSet;
      }
      var messages := BuildMessages(system, prompt);
      sent := sent + [Request(apiKey.value, model, messages, temperature, maxTokens)];
      r := ReplyText(reply);
    }
  }
}
