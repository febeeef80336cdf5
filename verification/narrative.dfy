/** `build_narrative` (app.py, lines 35-60). The generator's random draws
    are made explicit as a `Choices` value, so the model is a function of its
    inputs and of those draws. */
module Narrative {
  import opened Wrappers
  import opened Text
  import opened Format
  import opened Pools
  import opened Permutations

  /** The most fallacy phrases one narrative carries. */
  const MaxFallacies: nat := 10

  /** The implausibility from which the escalation sentence is added. */
  const EscalationThreshold: real := 0.7

  /** The random draws of one call: the shuffled order of the templates, how
      many of them open the narrative, and a stream of phrase draws (indices
      into the phrase pool, with replacement), of which the call uses as many
      as its fallacy count. */
  datatype Choices = Choices(order: seq<nat>, count: nat, picks: seq<nat>)

  /** Draws that `random.shuffle`, `random.choice([3, 4])` and repeated
      `random.choice(FALLACY_PHRASES)` can produce, with enough phrase draws
      for the largest fallacy count. */
  ghost predicate ValidChoices(c: Choices) {
    && IsPermutation(c.order, |BaseTemplates|)
    && (c.count == 3 || c.count == 4)
    && |c.picks| >= MaxFallacies
    && (forall i :: 0 <= i < |c.picks| ==> c.picks[i] < |FallacyPhrases|)
  }

  function Min(a: int, b: int): int {
    if a <= b then a else b
  }

  function Max(a: int, b: int): int {
    if a >= b then a else b
  }

  /** The number of fallacy phrases: the requested density, clamped to
      `0 .. MaxFallacies`. */
  function ClampDensity(density: int): (n: nat)
    ensures n <= MaxFallacies
    ensures 0 <= density <= MaxFallacies ==> n == density
    ensures density < 0 ==> n == 0
    ensures density > MaxFallacies ==> n == MaxFallacies
  {
    Max(0, Min(MaxFallacies, density))
  }

  /** The opening sentences: the first `count` templates of the shuffled
      list, still carrying their placeholders. */
  function Opening(c: Choices): (ts: seq<string>)
    requires IsPermutation(c.order, |BaseTemplates|) && c.count <= |BaseTemplates|
    ensures |ts| == c.count
    ensures forall i :: 0 <= i < |ts| ==> ts[i] == BaseTemplates[c.order[i]]
    ensures forall i :: 0 <= i < |ts| ==> ts[i] in BaseTemplates && FormatSafe(ts[i])
    ensures Distinct(ts)
    ensures c.count == |BaseTemplates| ==> multiset(ts) == multiset(BaseTemplates)
  {
    OpeningDistinct(c);
    OpeningSafe(c);
    ShuffledPrefix(BaseTemplates, c.order, c.count)
  }

  /** The opening never repeats a template. */
  lemma OpeningDistinct(c: Choices)
    requires IsPermutation(c.order, |BaseTemplates|) && c.count <= |BaseTemplates|
    ensures Distinct(ShuffledPrefix(BaseTemplates, c.order, c.count))
  {
    TemplatesDistinct();
  }

  /** Every opening sentence is accepted by `str.format`. */
  lemma OpeningSafe(c: Choices)
    requires IsPermutation(c.order, |BaseTemplates|) && c.count <= |BaseTemplates|
    ensures forall i :: 0 <= i < c.count ==> FormatSafe(ShuffledPrefix(BaseTemplates, c.order, c.count)[i])
  {
    TemplatesFormatSafe();
    SafePrefix(BaseTemplates, c.order, c.count);
  }

  /** Shuffling and slicing keep every entry `format`-safe. */
  lemma SafePrefix(xs: seq<string>, order: seq<nat>, k: nat)
    requires IsPermutation(order, |xs|) && k <= |xs|
    requires forall i :: 0 <= i < |xs| ==> FormatSafe(xs[i])
    ensures forall i :: 0 <= i < k ==> FormatSafe(ShuffledPrefix(xs, order, k)[i])
  {
  }

  /** The phrases at the given draws, in the order they were drawn. */
  function Phrases(picks: seq<nat>): (ps: seq<string>)
    requires forall i :: 0 <= i < |picks| ==> picks[i] < |FallacyPhrases|
    ensures |ps| == |picks|
    ensures forall i :: 0 <= i < |picks| ==> ps[i] == FallacyPhrases[picks[i]]
    decreases |picks|
  {
    if |picks| == 0 then [] else [FallacyPhrases[picks[0]]] + Phrases(picks[1..])
  }

  /** The phrases one call draws: as many as the clamped density, taken
      from the front of the stream of draws. */
  function DrawnPhrases(picks: seq<nat>, density: int): (ps: seq<string>)
    requires |picks| >= MaxFallacies
    requires forall i :: 0 <= i < |picks| ==> picks[i] < |FallacyPhrases|
    ensures |ps| == ClampDensity(density)
    ensures forall i :: 0 <= i < |ps| ==> ps[i] == FallacyPhrases[picks[i]]
  {
    Phrases(picks[..ClampDensity(density)])
  }

  /** The fallacy part: nothing when the clamped count is zero, otherwise a
      space and the drawn phrases joined by single spaces. */
  function FallacySegment(density: int, picks: seq<nat>): (r: string)
    requires |picks| >= MaxFallacies
    requires forall i :: 0 <= i < |picks| ==> picks[i] < |FallacyPhrases|
    ensures r == PrefixEach(DrawnPhrases(picks, density), " ")
    ensures NoBraces(r)
  {
    var n := ClampDensity(density);
    var phrases := Phrases(picks[..n]);
    PhrasesPlain();
    JoinNoBraces(phrases, " ");
    if n > 0 then
      JoinAfterSeparator(phrases, " ");
      " " + Join(phrases, " ")
    else
      ""
  }

  /** The adjective for an emotion label; unknown labels read as neutral. */
  function EmotionWord(emotion: string): (adj: string)
    ensures adj in EmotionTag.Values
    ensures emotion in EmotionTag ==> adj == EmotionTag[emotion]
  {
    assert EmotionTag["Neutral"] == DefaultEmotion;
    if emotion in EmotionTag then EmotionTag[emotion] else DefaultEmotion
  }

  /** The emotional qualifier: " This is ", the adjective, a full stop. */
  function EmotionSentence(adj: string): (r: string)
    ensures " This is " <= r
    ensures EndsWith(r, adj + ".")
    ensures |r| == |" This is "| + |adj| + 1
    ensures NoBraces(adj) ==> NoBraces(r)
  {
    var r := " This is " + adj + ".";
    Associate(" This is ", adj, ".");
    EndsWithAppended(" This is ", adj + ".");
    r
  }

  /** `float(implausibility)`, where `None` stands for a value the
      conversion rejects; the generator then uses 0.0. */
  function Implausibility(parsed: Option<real>): (v: real)
    ensures parsed.None? ==> v == 0.0
    ensures parsed.Some? ==> v == parsed.value
  {
    parsed.GetOr(0.0)
  }

  /** The optional last sentence. */
  function EscalationPart(parsed: Option<real>): (r: string)
    ensures r == EscalationSentence <==> Implausibility(parsed) >= EscalationThreshold
    ensures r == "" <==> Implausibility(parsed) < EscalationThreshold
  {
    EscalationEnding();
    if Implausibility(parsed) >= EscalationThreshold then EscalationSentence else ""
  }

  /** Everything after the opening sentences, before personalisation. */
  function Commentary(emotion: string, density: int, parsed: Option<real>, picks: seq<nat>): (r: string)
    requires |picks| >= MaxFallacies
    requires forall i :: 0 <= i < |picks| ==> picks[i] < |FallacyPhrases|
    ensures NoBraces(r)
  {
    PhrasesPlain();
    EscalationPlain();
    var fallacies := FallacySegment(density, picks);
    var qualifier := EmotionSentence(EmotionWord(emotion));
    var escalation := EscalationPart(parsed);
    ConcatNoBraces(fallacies, qualifier, escalation);
    fallacies + qualifier + escalation
  }

  /** The text `build_narrative` holds just before `text.format(...)`. */
  function Assemble(emotion: string, density: int, parsed: Option<real>, c: Choices): (text: string)
    requires ValidChoices(c)
    ensures FormatSafe(text)
  {
    var opening := Join(Opening(c), " ");
    var rest := Commentary(emotion, density, parsed, c.picks);
    SafeJoin(Opening(c), " ");
    FillPlainSuffix(opening, rest, "", "");
    opening + rest
  }

  /** `build_narrative(villain, location, emotion, density, implausibility)`
      under the draws `c`. */
  function BuildNarrative(villain: string, location: string, emotion: string, density: int,
                          parsed: Option<real>, c: Choices): (r: string)
    requires ValidChoices(c)
    ensures r == Join(FillAll(Opening(c), villain, location), " ")
               + PrefixEach(DrawnPhrases(c.picks, density), " ")
               + EmotionSentence(EmotionWord(emotion))
               + EscalationPart(parsed)
    ensures NoBraces(villain) && NoBraces(location) ==> NoBraces(r)
  {
    FilledLayout(villain, location, emotion, density, parsed, c);
    Fill(Assemble(emotion, density, parsed, c), villain, location)
  }

  /** Personalisation touches only the opening sentences: the commentary
      after them carries no placeholder and is copied as it is. */
  lemma FilledLayout(villain: string, location: string, emotion: string, density: int,
                     parsed: Option<real>, c: Choices)
    requires ValidChoices(c)
    ensures Fill(Assemble(emotion, density, parsed, c), villain, location)
            == Join(FillAll(Opening(c), villain, location), " ")
               + PrefixEach(DrawnPhrases(c.picks, density), " ")
               + EmotionSentence(EmotionWord(emotion))
               + EscalationPart(parsed)
  {
    var opening := Join(Opening(c), " ");
    var filled := Join(FillAll(Opening(c), villain, location), " ");
    var f := FallacySegment(density, c.picks);
    var e := EmotionSentence(EmotionWord(emotion));
    var x := EscalationPart(parsed);
    var rest := Commentary(emotion, density, parsed, c.picks);
    assert rest == f + e + x;
    FillJoin(Opening(c), " ", villain, location);
    FillPlainSuffix(opening, rest, villain, location);
    Regroup(filled, f, e, x);
  }

  /** A density above the maximum gives the same narratives as the maximum
      itself: ten phrases, the first ten draws. */
  lemma DensitySaturates(villain: string, location: string, emotion: string, density: int,
                         parsed: Option<real>, c: Choices)
    requires density >= MaxFallacies && ValidChoices(c)
    ensures DrawnPhrases(c.picks, density) == Phrases(c.picks[..MaxFallacies])
    ensures BuildNarrative(villain, location, emotion, density, parsed, c)
            == BuildNarrative(villain, location, emotion, MaxFallacies, parsed, c)
  {
    assert ClampDensity(density) == ClampDensity(MaxFallacies) == MaxFallacies;
  }

  /** With a density of zero or less, no fallacy phrase appears: the
      emotional qualifier follows the opening sentences directly, with no
      extra space. */
  lemma NoFallaciesWithoutDensity(villain: string, location: string, emotion: string, density: int,
                                  parsed: Option<real>, c: Choices)
    requires density <= 0 && ValidChoices(c)
    ensures DrawnPhrases(c.picks, density) == []
    ensures BuildNarrative(villain, location, emotion, density, parsed, c)
            == Join(FillAll(Opening(c), villain, location), " ")
               + EmotionSentence(EmotionWord(emotion))
               + EscalationPart(parsed)
  {
    NoDraws(c.picks, density);
    var opening := Join(FillAll(Opening(c), villain, location), " ");
    DropEmpty(opening, PrefixEach(DrawnPhrases(c.picks, density), " "),
              EmotionSentence(EmotionWord(emotion)), EscalationPart(parsed));
  }

  /** A density of zero or less draws nothing from the stream. */
  lemma NoDraws(picks: seq<nat>, density: int)
    requires density <= 0 && |picks| >= MaxFallacies
    requires forall i :: 0 <= i < |picks| ==> picks[i] < |FallacyPhrases|
    ensures DrawnPhrases(picks, density) == []
    ensures PrefixEach(DrawnPhrases(picks, density), " ") == ""
  {
  }

  /** An empty piece in a concatenation can be dropped. */
  lemma DropEmpty(a: string, e: string, b: string, d: string)
    requires e == ""
    ensures a + e + b + d == a + b + d
  {
  }

  /** Labels outside the table read as "notable", and among the labels in
      the table only "Neutral" does. */
  lemma EmotionDefault(emotion: string)
    ensures EmotionWord(emotion) == DefaultEmotion <==> emotion !in {"Concerned", "Fearful", "Angry"}
  {
  }

  /** No emotional qualifier ends the way the escalation sentence does. */
  lemma EmotionSentenceEnding(adj: string)
    requires adj in EmotionTag.Values
    ensures !EndsWith(EmotionSentence(adj), "y.")
  {
    var k :| k in EmotionTag && EmotionTag[k] == adj;
    var s := EmotionSentence(adj);
    assert s[|s| - 2] == adj[|adj| - 1];
  }

  /** The narrative ends with the escalation sentence exactly when the
      implausibility reaches the threshold. */
  lemma EscalationIff(villain: string, location: string, emotion: string, density: int,
                      parsed: Option<real>, c: Choices)
    requires ValidChoices(c)
    ensures EndsWith(BuildNarrative(villain, location, emotion, density, parsed, c), EscalationSentence)
            <==> Implausibility(parsed) >= EscalationThreshold
  {
    var r := BuildNarrative(villain, location, emotion, density, parsed, c);
    var front := Join(FillAll(Opening(c), villain, location), " ") + PrefixEach(DrawnPhrases(c.picks, density), " ");
    var e := EmotionSentence(EmotionWord(emotion));
    EscalationEnding();
    if Implausibility(parsed) >= EscalationThreshold {
      EndsWithAppended(front + e, EscalationSentence);
    } else {
      assert r == front + e;
      EmotionSentenceEnding(EmotionWord(emotion));
      EndsWithLastPiece(front, e, "y.");
      EndsWithTransitive(r, EscalationSentence, "y.");
    }
  }

  /** An implausibility that cannot be read counts as 0.0: no escalation. */
  lemma UnreadableImplausibility(villain: string, location: string, emotion: string, density: int,
                                 c: Choices)
    requires ValidChoices(c)
    ensures BuildNarrative(villain, location, emotion, density, None, c)
            == BuildNarrative(villain, location, emotion, density, Some(0.0), c)
    ensures !EndsWith(BuildNarrative(villain, location, emotion, density, None, c), EscalationSentence)
  {
    EscalationIff(villain, location, emotion, density, None, c);
  }

  /** Whatever the draws, the narrative names the villain: every template
      mentions it and at least three of them open the text. */
  lemma NamesVillain(villain: string, location: string, emotion: string, density: int,
                     parsed: Option<real>, c: Choices)
    requires ValidChoices(c)
    ensures IsSubstring(villain, BuildNarrative(villain, location, emotion, density, parsed, c))
  {
    var r := BuildNarrative(villain, location, emotion, density, parsed, c);
    var parts := FillAll(Opening(c), villain, location);
    var opening := Join(parts, " ");
    var i :| 0 <= i < |BaseTemplates| && BaseTemplates[i] == Opening(c)[0];
    TemplateNamesVillain(i, villain, location);
    Regroup(opening, PrefixEach(DrawnPhrases(c.picks, density), " "), EmotionSentence(EmotionWord(emotion)),
            EscalationPart(parsed));
    assert opening <= r;
    SubstringOfPrefix(villain, parts[0], opening);
    SubstringOfPrefix(villain, opening, r);
  }

  /** An angry narrative with no fallacies and implausibility 0.9 is the
      opening sentences, then " This is infuriating.", then the escalation
      sentence. */
  lemma AngryExample(villain: string, location: string, c: Choices)
    requires ValidChoices(c)
    ensures BuildNarrative(villain, location, "Angry", 0, Some(0.9), c)
            == Join(FillAll(Opening(c), villain, location), " ") + " This is infuriating." + EscalationSentence
  {
    NoFallaciesWithoutDensity(villain, location, "Angry", 0, Some(0.9), c);
    AngrySentence();
  }

  /** The qualifier's three clauses fix it: the one text that starts with
      " This is ", ends with the adjective and a full stop, and is no longer
      than those together is `f" This is {adj}."`. */
  lemma EmotionSentenceExact(adj: string, r: string)
    requires " This is " <= r && EndsWith(r, adj + ".")
    requires |r| == |" This is "| + |adj| + 1
    ensures r == " This is " + adj + "."
  {
    var k := |" This is "|;
    assert r[..k] == " This is ";
    assert r[k..] == adj + ".";
    assert r == r[..k] + r[k..];
  }

  /** In every narrative the qualifier `f" This is {adj}."` follows the
      fallacy part directly. */
  lemma QualifierAfterFallacies(villain: string, location: string, emotion: string, density: int,
                                parsed: Option<real>, c: Choices)
    requires ValidChoices(c)
    ensures BuildNarrative(villain, location, emotion, density, parsed, c)
            == Join(FillAll(Opening(c), villain, location), " ")
               + PrefixEach(DrawnPhrases(c.picks, density), " ")
               + (" This is " + EmotionWord(emotion) + ".")
               + EscalationPart(parsed)
  {
    var adj := EmotionWord(emotion);
    EmotionSentenceExact(adj, EmotionSentence(adj));
  }

  lemma AngrySentence()
    ensures EmotionSentence(EmotionWord("Angry")) == " This is infuriating."
  {
  }
}
