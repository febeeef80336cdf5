/** The safety filter `violates_policy` (app.py, lines 62-64) and the
    redact-or-publish decision of the simulator page (lines 86-92). */
module Policy {
  import opened Wrappers
  import opened Text
  import opened Pools
  import opened Narrative

  /** What the page shows instead of a flagged narrative. */
  const RedactedMarker: string := "[REDACTED " + "DUE TO SAFETY]"

  /** The disclaimer put in front of every published narrative. */
  const FakeBanner: string := "=== FAKE / " + "FOR RESEARCH & " + "EDUCATION ONLY " + "===\n\n"

  /** Some blocked word occurs, as a plain substring, in the lower-cased
      text. */
  ghost predicate Flagged(t: string) {
    exists b :: b in BlockedWords && IsSubstring(b, ToLower(t))
  }

  /** Lower-cases the text once, then tries the blocked words one at a time
      and stops at the first that occurs. */
  method ViolatesPolicy(t: string) returns (r: bool)
    ensures r <==> Flagged(t)
  {
    var low := ToLower(t);
    var remaining := BlockedWords;
    while remaining != {}
      invariant remaining <= BlockedWords
      invariant forall b :: b in BlockedWords - remaining ==> !IsSubstring(b, low)
      decreases |remaining|
    {
      var b :| b in remaining;
      if Contains(low, b) {
        return true;
      }
      remaining := remaining - {b};
    }
    return false;
  }

  /** The filter does not see letter case. */
  lemma FlaggedIgnoresCase(t: string)
    ensures Flagged(t) <==> Flagged(ToLower(t))
  {
    ToLowerIdempotent(t);
  }

  /** Words are matched as substrings, not as whole words: "Attackers"
      contains "attack". */
  lemma SubstringMatch()
    ensures Flagged("Attackers")
  {
    var low := ToLower("Attackers");
    assert low[0] == 'a';
    assert forall i :: 1 <= i < 6 ==> low[i] == "Attackers"[i];
    assert "attack" <= low[0..];
  }

  /** What the page shows for a narrative: the marker when it is flagged,
      otherwise the narrative behind the disclaimer. */
  function Publish(text: string, flagged: bool): (r: string)
    ensures r == RedactedMarker <==> flagged
    ensures !flagged ==> FakeBanner <= r && r[|FakeBanner|..] == text
  {
    if flagged then RedactedMarker
    else
      assert FakeBanner[0] == '=' && RedactedMarker[0] == '[';
      assert (FakeBanner + text)[0] != RedactedMarker[0];
      FakeBanner + text
  }

  /** One submission of the simulator form: generate, filter, publish. */
  method Simulate(villain: string, location: string, emotion: string, density: int,
                  parsed: Option<real>, c: Choices) returns (result: string)
    requires ValidChoices(c)
    ensures var text := BuildNarrative(villain, location, emotion, density, parsed, c);
            && (result == RedactedMarker <==> Flagged(text))
            && (!Flagged(text) ==> result == FakeBanner + text)
  {
    var text := BuildNarrative(villain, location, emotion, density, parsed, c);
    var flagged := ViolatesPolicy(text);
    result := Publish(text, flagged);
  }
}
