/** `simple_filter` and the run guard that precedes every generation call. */
module Filter {
  import opened Text

  /** The denylist, matched as substrings of the lowered input. */
  const Banned: seq<string> := ["bomb", "kill", "suicide"]

  /** True when no banned word occurs in the lowered text. */
  function SimpleFilter(text: string): bool {
    var lower := Lower(text);
    !exists j :: 0 <= j < |Banned| && Contains(lower, Banned[j])
  }

  /** A blank input passes the filter: white space lowers to itself and no
      banned word starts with it. So the guard's order, the blank test
      first, is kept as written but changes no outcome. */
  lemma BlankPasses(s: string)
    requires IsBlank(s)
    ensures SimpleFilter(s)
  {
    var l := Lower(s);
    forall j | 0 <= j < |Banned| ensures !Contains(l, Banned[j]) {
      var w := Banned[j];
      assert w[0] == 'b' || w[0] == 'k' || w[0] == 's';
      forall i ensures !OccursAt(l, w, i) {
        if 0 <= i && i + |w| <= |l| {
          assert IsSpace(s[i]);
          assert l[i] == LowerChar(s[i]) == s[i];
          assert l[i..i + |w|][0] == l[i] != w[0];
        }
      }
      ContainsIff(l, w);
    }
  }

  /** The filter rejects exactly the texts whose lowered form contains
      "bomb", "kill" or "suicide". */
  lemma FilterRejectsBanned(text: string)
    ensures !SimpleFilter(text) <==>
      Contains(Lower(text), "bomb") || Contains(Lower(text), "kill") || Contains(Lower(text), "suicide")
  {
    if Contains(Lower(text), "bomb") { assert Contains(Lower(text), Banned[0]); }
    if Contains(Lower(text), "kill") { assert Contains(Lower(text), Banned[1]); }
    if Contains(Lower(text), "suicide") { assert Contains(Lower(text), Banned[2]); }
  }

  /** The slice of `text` of length `|w|` at `i` lowers to `w`. */
  predicate LowersTo(text: string, i: int, w: string) {
    0 <= i <= |text| - |w| && Lower(text[i..i + |w|]) == w
  }

  /** The match ignores case: the filter rejects a text exactly when some
      slice of it lowers to a banned word ("KILL", "KiLl" and "kill" alike). */
  lemma FilterIgnoresCase(text: string)
    ensures !SimpleFilter(text) <==>
      exists j, i :: 0 <= j < |Banned| && LowersTo(text, i, Banned[j])
  {
    if !SimpleFilter(text) {
      var j :| 0 <= j < |Banned| && Contains(Lower(text), Banned[j]);
      ContainsIff(Lower(text), Banned[j]);
      var i :| OccursAt(Lower(text), Banned[j], i);
      LowerSlice(text, i, i + |Banned[j]|);
      assert LowersTo(text, i, Banned[j]);
    }
    if exists j, i :: 0 <= j < |Banned| && LowersTo(text, i, Banned[j]) {
      var j, i :| 0 <= j < |Banned| && LowersTo(text, i, Banned[j]);
      LowerSlice(text, i, i + |Banned[j]|);
      assert OccursAt(Lower(text), Banned[j], i);
      ContainsIff(Lower(text), Banned[j]);
    }
  }

  /** Lowering the input first does not change the verdict. */
  lemma FilterOfLowered(text: string)
    ensures SimpleFilter(Lower(text)) == SimpleFilter(text)
  {
    LowerIdempotent(text);
  }

  /** What the run block does before building a prompt. */
  datatype Admission =
    | EmptyInput   // "Please paste some text or a question first."
    | Rejected     // "Your input triggers the simple safety filter. ..."
    | Admitted

  /** `not input_text.strip()` is tested first, then the filter. */
  function Admit(input: string): (a: Admission)
    ensures a == EmptyInput <==> IsBlank(input)
    ensures a == Rejected <==> !IsBlank(input) && !SimpleFilter(input)
    ensures a == Admitted <==> !IsBlank(input) && SimpleFilter(input)
  {
    StripEmptyIffBlank(input);
    if Strip(input) == "" then EmptyInput
    else if !SimpleFilter(input) then Rejected
    else Admitted
  }
}
