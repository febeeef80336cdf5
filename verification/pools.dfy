/** The fixed phrase pools of the generator (app.py, lines 7-33). They are
    immutable, process-wide constants. */
module Pools {
  import opened Text
  import opened Format

  // Long literals are written as concatenations of shorter pieces; each
  // concatenation spells exactly the corresponding string of app.py.

  const FallacyPhrases: seq<string> := [
    "Coincidence? " + "I think not.",
    "They don't want " + "you to know " + "the truth.",
    "Follow the money" + " — it's always " + "the money.",
    "This explains " + "everything they " + "hid from us.",
    "There’s more " + "behind this than" + " meets the eye.",
    "Ask yourself " + "who benefits."
  ]

  const BlockedWords: set<string> :=
    {"kill", "bomb", "attack", "assassinate", "poison", "explode", "shoot", "stab"}

  /** `BASE_TEMPLATES`: literal text around the placeholders. */
  const BaseTemplates: seq<string> := [
    "In " + LocationTag + (", recent events " + "suggest a " + "coordinated " + "effort by ")
      + VillainTag + ".",
    ("Residents " + "whisper that ") + VillainTag + (" has been " + "operating in " + "secret."),
    (("Official " + "explanations " + "don’t add up; ") + ("subtle clues " + "keep pointing " + "to "))
      + VillainTag + ".",
    ("Unusual " + "coincidences " + "seem to circle " + "back to ") + VillainTag + "."
  ]

  const EmotionTag: map<string, string> := map[
    "Neutral" := "notable",
    "Concerned" := "concerning",
    "Fearful" := "alarming",
    "Angry" := "infuriating"
  ]

  /** The adjective used for an emotion label the map does not know. */
  const DefaultEmotion: string := "notable"

  /** The sentence appended when the implausibility reaches the threshold,
      with its leading space. */
  const EscalationSentence: string :=
    (" Claims escalate" + " into improbable" + " chains of ")
      + ("causality that " + "strain " + "plausibility.")

  /** No two templates are the same sentence. */
  lemma TemplatesDistinct()
    ensures forall i, j :: 0 <= i < j < |BaseTemplates| ==> BaseTemplates[i] != BaseTemplates[j]
  {
    assert BaseTemplates[0][0] == 'I';
    assert BaseTemplates[1][0] == 'R';
    assert BaseTemplates[2][0] == 'O';
    assert BaseTemplates[3][0] == 'U';
  }

  /** Each placeholder on its own is accepted. */
  lemma TagsSafe()
    ensures FormatSafe(VillainTag) && FormatSafe(LocationTag)
  {
    FillPlain("", "", "");
    FillVillainTag("", "", "");
    FillLocationTag("", "", "");
    assert VillainTag + "" == VillainTag && LocationTag + "" == LocationTag;
  }

  /** Accepted text, a placeholder, brace-free text: accepted. */
  lemma Frame(pre: string, tag: string, post: string)
    requires FormatSafe(pre) && (tag == VillainTag || tag == LocationTag) && NoBraces(post)
    ensures FormatSafe(pre + tag + post)
  {
    TagsSafe();
    SafeConcat(pre, tag);
    FillPlainSuffix(pre + tag, post, "", "");
  }

  /** Every template is a brace-free tail after one villain placeholder,
      preceded by text that `str.format` accepts. */
  lemma TemplateShape(i: nat) returns (pre: string, post: string)
    requires i < |BaseTemplates|
    ensures BaseTemplates[i] == pre + VillainTag + post
    ensures FormatSafe(pre) && NoBraces(post)
  {
    if i == 0 { pre, post := Template0Shape(); }
    else if i == 1 { pre, post := Template1Shape(); }
    else if i == 2 { pre, post := Template2Shape(); }
    else { pre, post := Template3Shape(); }
  }

  /** Every template is accepted by `str.format` with the two keywords. */
  lemma TemplatesFormatSafe()
    ensures forall i :: 0 <= i < |BaseTemplates| ==> FormatSafe(BaseTemplates[i])
  {
    forall i | 0 <= i < |BaseTemplates| ensures FormatSafe(BaseTemplates[i]) {
      var pre, post := TemplateShape(i);
      FillAroundVillain(pre, post, "", "");
    }
  }

  /** Every filled template names the villain. */
  lemma TemplateNamesVillain(i: nat, villain: string, location: string)
    requires i < |BaseTemplates|
    ensures FormatSafe(BaseTemplates[i])
    ensures IsSubstring(villain, Fill(BaseTemplates[i], villain, location))
  {
    var pre, post := TemplateShape(i);
    FillAroundVillain(pre, post, villain, location);
    SubstringBetween(Fill(pre, villain, location), villain, post);
  }

  lemma Template0Shape() returns (pre: string, post: string)
    ensures BaseTemplates[0] == pre + VillainTag + post
    ensures FormatSafe(pre) && NoBraces(post)
  {
    var mid := ", recent events " + "suggest a " + "coordinated " + "effort by ";
    assert NoBraces("In ") && NoBraces(mid) && NoBraces(".");
    FillPlain("In ", "", "");
    Frame("In ", LocationTag, mid);
    pre, post := "In " + LocationTag + mid, ".";
  }

  lemma Template1Shape() returns (pre: string, post: string)
    ensures BaseTemplates[1] == pre + VillainTag + post
    ensures FormatSafe(pre) && NoBraces(post)
  {
    pre, post := "Residents " + "whisper that ", " has been " + "operating in " + "secret.";
    assert NoBraces(pre) && NoBraces(post);
    FillPlain(pre, "", "");
  }

  lemma Template2Shape() returns (pre: string, post: string)
    ensures BaseTemplates[2] == pre + VillainTag + post
    ensures FormatSafe(pre) && NoBraces(post)
  {
    var head, tail := "Official " + "explanations " + "don’t add up; ", "subtle clues " + "keep pointing " + "to ";
    assert NoBraces(head);
    assert NoBraces(tail);
    pre, post := head + tail, ".";
    assert NoBraces(post);
    FillPlain(pre, "", "");
  }

  lemma Template3Shape() returns (pre: string, post: string)
    ensures BaseTemplates[3] == pre + VillainTag + post
    ensures FormatSafe(pre) && NoBraces(post)
  {
    pre, post := "Unusual " + "coincidences " + "seem to circle " + "back to ", ".";
    assert NoBraces(pre) && NoBraces(post);
    FillPlain(pre, "", "");
  }

  /** The fallacy phrases, the adjectives and the escalation sentence carry
      no braces, so personalisation leaves them alone. */
  lemma PhrasesPlain()
    ensures forall i :: 0 <= i < |FallacyPhrases| ==> NoBraces(FallacyPhrases[i])
    ensures forall e :: e in EmotionTag ==> NoBraces(EmotionTag[e])
    ensures NoBraces(DefaultEmotion) && NoBraces(EscalationSentence)
  {
    forall i | 0 <= i < |FallacyPhrases| ensures NoBraces(FallacyPhrases[i]) {
      FallacyPhrasePlain(i);
    }
    EscalationPlain();
  }

  lemma FallacyPhrasePlain(i: nat)
    requires i < |FallacyPhrases|
    ensures NoBraces(FallacyPhrases[i])
  {
    if i == 0 { Phrase0Plain(); }
    else if i == 1 { Phrase1Plain(); }
    else if i == 2 { Phrase2Plain(); }
    else if i == 3 { Phrase3Plain(); }
    else if i == 4 { Phrase4Plain(); }
    else { Phrase5Plain(); }
  }

  // Phrase i carries no brace because none of its pieces does.
  lemma Phrase0Plain() ensures NoBraces(FallacyPhrases[0]) {
    assert NoBraces("Coincidence? ") && NoBraces("I think not.");
  }
  lemma Phrase1Plain() ensures NoBraces(FallacyPhrases[1]) {
    assert NoBraces("They don't want ") && NoBraces("you to know ") && NoBraces("the truth.");
  }
  lemma Phrase2Plain() ensures NoBraces(FallacyPhrases[2]) {
    assert NoBraces("Follow the money") && NoBraces(" — it's always ") && NoBraces("the money.");
  }
  lemma Phrase3Plain() ensures NoBraces(FallacyPhrases[3]) {
    assert NoBraces("This explains ") && NoBraces("everything they ") && NoBraces("hid from us.");
  }
  lemma Phrase4Plain() ensures NoBraces(FallacyPhrases[4]) {
    assert NoBraces("There’s more ") && NoBraces("behind this than") && NoBraces(" meets the eye.");
  }
  lemma Phrase5Plain() ensures NoBraces(FallacyPhrases[5]) {
    assert NoBraces("Ask yourself ") && NoBraces("who benefits.");
  }

  lemma EscalationPlain()
    ensures NoBraces(EscalationSentence)
  {
    EscalationHeadPlain();
    EscalationTailPlain();
  }

  lemma EscalationHeadPlain()
    ensures NoBraces(" Claims escalate" + " into improbable" + " chains of ")
  {
    assert NoBraces(" Claims escalate") && NoBraces(" into improbable") && NoBraces(" chains of ");
  }

  lemma EscalationTailPlain()
    ensures NoBraces("causality that " + "strain " + "plausibility.")
  {
    assert NoBraces("causality that ") && NoBraces("strain ") && NoBraces("plausibility.");
  }

  /** The escalation sentence ends in "y.". */
  lemma EscalationEnding()
    ensures EndsWith(EscalationSentence, "y.")
  {
    var tail := "causality that " + "strain " + "plausibility.";
    assert EndsWith(tail, "y.");
    EndsWithLastPiece(" Claims escalate" + " into improbable" + " chains of ", tail, "y.");
  }
}
