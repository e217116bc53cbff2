/** `apply_tone`: the response-tone directive appended to a finished prompt. */
module Tone {

  /** The four values of the sidebar's "Response tone" selector. */
  const Tones: seq<string> := ["Friendly", "Formal", "Casual", "Funny"]

  /** The text each tone appends: a line break and the tone's sentence, or
      "" for a tone the selector does not offer. */
  function Directive(tone: string): string {
    if tone == "Friendly" then "\n" + "Keep the tone friendly and encouraging."
    else if tone == "Formal" then "\n" + "Use a formal and professional tone."
    else if tone == "Casual" then "\n" + "Use a casual, chatty tone with short sentences."
    else if tone == "Funny" then "\n" + "Add light humor where appropriate."
    else ""
  }

  /** The prompt followed by a line break and the directive of a known tone;
      any other tone leaves the prompt as it is. */
  function ApplyTone(prompt: string, tone: string): (r: string)
    ensures tone in Tones ==> |r| > |prompt| + 1 && r[..|prompt|] == prompt && r[|prompt|] == '\n'
    ensures tone !in Tones ==> r == prompt
  {
    prompt + Directive(tone)
  }

  /** Only the four known tones append anything. */
  lemma ToneAppends(tone: string)
    ensures tone in Tones <==> Directive(tone) != ""
  {
  }

  /** Text placed in front of a prompt stays in front after the tone is
      applied. */
  lemma ToneCommutesWithPrefix(p: string, q: string, tone: string)
    ensures ApplyTone(p + q, tone) == p + ApplyTone(q, tone)
  {
    var d := Directive(tone);
    AppendAssoc(p, q, d);
  }

  /** Different known tones give different prompts. */
  lemma TonesDistinct(prompt: string, t1: string, t2: string)
    requires t1 in Tones && t2 in Tones && t1 != t2
    ensures ApplyTone(prompt, t1) != ApplyTone(prompt, t2)
  {
    DirectiveLength(t1);
    DirectiveLength(t2);
  }

  lemma DirectiveLength(tone: string)
    ensures |Directive(tone)| ==
      if tone == "Friendly" then 40 else if tone == "Formal" then 36
      else if tone == "Casual" then 48 else if tone == "Funny" then 35 else 0
  {
  }

  lemma AppendAssoc(a: string, b: string, c: string)
    ensures a + b + c == a + (b + c)
  {
  }
}
