# Conspiracy narrative simulator — a Dafny model

The simulator is a small Flask application. It generates obviously fictional
"conspiracy narratives" for media-literacy teaching.

- **Generator.** `build_narrative` shuffles four sentence templates and keeps three or
  four of them as the opening. It then sprinkles in fallacy phrases (the count is clamped
  to 0..10) and adds an emotional qualifier looked up in a table. It adds an escalation
  sentence when the implausibility reaches 0.7. Last, it fills in the `{villain}` and
  `{location}` placeholders with `str.format`.
- **Filter.** `violates_policy` lower-cases the text and looks for any of eight blocked
  words as plain substrings.
- **Page.** The simulator page shows `[REDACTED DUE TO SAFETY]` for a flagged narrative.
  Otherwise it shows the narrative behind a "FAKE / FOR RESEARCH & EDUCATION ONLY" banner.

The model is functional. The random draws become an explicit `Choices` value, which holds:
- the shuffled order of the templates;
- how many templates open the text;
- a stream of phrase draws (indices into the phrase pool), at least ten long.

`ValidChoices` says which draws `random.shuffle` and `random.choice` can produce. The
generator reads as many phrase draws from the front of the stream as the clamped
density asks for, so the clamp decides how many phrases appear.

Python's `str.format` is modelled as `Format.Fill`. It scans left to right over a text
whose only braces belong to the two named placeholders (`Format.FormatSafe`).
`Format.Expand` is an independent reference, and `Format.FillRender` proves that `Fill`
agrees with it.

Modules, one per file:
- `Wrappers` (wrappers.dfy): `Option`.
- `Text` (text.dfy): `str.join`, substring search, ASCII `str.lower`, suffixes.
- `Format` (format.dfy): placeholder substitution.
- `Pools` (pools.dfy): the constant pools and facts about them.
- `Permutations` (permutations.dfy): the shuffle as an index permutation.
- `Narrative` (narrative.dfy): `build_narrative`.
- `Policy` (policy.dfy): `violates_policy` and the page's decision.

## Model

| member | source | states |
|---|---|---|
| Pools.TemplatesDistinct | app.py:21-26 | no two base templates are the same sentence |
| Pools.TemplateShape | app.py:21-26 | every template is `format`-safe text, one `{villain}` placeholder and a brace-free tail |
| Pools.TemplatesFormatSafe | app.py:21-26 | every template is accepted by `str.format` with the keywords `villain` and `location` |
| Pools.TemplateNamesVillain | app.py:21-26 | every filled template contains the villain's name |
| Pools.PhrasesPlain | app.py:7-56 | the fallacy phrases and emotion adjectives (lines 7-33) and the escalation sentence (line 56) contain no braces, so personalisation leaves them alone |
| Pools.EscalationPlain | app.py:56 | the escalation sentence contains no braces, so personalisation leaves it alone |
| Pools.EscalationEnding | app.py:56 | the escalation sentence ends in "y." |
| Text.Join | app.py:39-44 | a non-empty join starts with its first part and ends with its last part |
| Text.JoinAfterSeparator | app.py:43-44 | one space followed by the space-joined phrases puts exactly one space before every phrase |
| Text.Contains | app.py:64 | substring search answers true exactly when the word occurs somewhere in the text |
| Text.ToLower | app.py:63 | lower-casing keeps the length, maps each ASCII capital to its small letter, leaves every other character alone and leaves no capital |
| Permutations.PermutationCovers | app.py:37-38 | a permutation of 0..n-1 mentions every index |
| Permutations.PickPermutation | app.py:37-38 | reading a list through a permutation of its positions gives the same multiset of entries |
| Permutations.Shuffle | app.py:37-38 | position i of the shuffled list holds the entry the permutation names for it; the result is a rearrangement (same multiset) of the original and stays duplicate-free |
| Permutations.ShuffledPrefix | app.py:37-39 | the first k entries of the shuffled list are the entries the first k permutation indices name; taking all of them gives a rearrangement of the original |
| Format.Fill | app.py:59 | placeholder substitution with brace-free names yields a brace-free text, so no placeholder survives |
| Format.FillPlain | app.py:59 | brace-free text is accepted and comes back unchanged |
| Format.FillVillainTag | app.py:59 | `{villain}` is replaced by the villain's name, verbatim |
| Format.FillLocationTag | app.py:59 | `{location}` is replaced by the location's name, verbatim |
| Format.FillConcat | app.py:59 | substitution distributes over concatenation: no placeholder is formed or broken at a seam |
| Format.FillJoin | app.py:59 | substituting in a space-joined text is joining the substituted parts |
| Format.FillAroundVillain | app.py:59 | a text with one villain placeholder gets the villain's name in that place and nothing else changes |
| Format.FillRender | app.py:59 | substitution equals the reference expansion: every slot holds its value and the literal text is kept |
| Format.NoReexpansion | app.py:59 | a villain name that looks like `{location}` is inserted literally, not expanded again |
| Narrative.ClampDensity | app.py:42 | the fallacy count is the density clamped to 0..10: the density itself when in range, 0 below, 10 above |
| Narrative.Opening | app.py:37-39 | the opening has `count` sentences; sentence i is the template the i-th shuffled index names; none repeats, each is `format`-safe, and with four the opening is a rearrangement of all templates |
| Narrative.Phrases | app.py:44 | the i-th drawn phrase is the pool phrase at the i-th drawn index |
| Narrative.DrawnPhrases | app.py:42-44 | exactly the clamped density many phrases are drawn, the i-th being the pool phrase at the i-th draw of the stream |
| Narrative.FallacySegment | app.py:43-44 | the fallacy part is each of the clamped-density many drawn phrases preceded by one space, and holds no brace |
| Narrative.EmotionWord | app.py:47 | the adjective is the table's entry for a known label and always one of the table's adjectives |
| Narrative.EmotionSentence | app.py:48 | the qualifier starts with " This is ", ends with the adjective and a full stop, and is exactly as long as those together; a brace-free adjective gives a brace-free qualifier |
| Narrative.EmotionSentenceExact | app.py:48 | those three facts single out one text: `f" This is {adj}."` |
| Narrative.Implausibility | app.py:51-54 | a parsed value is used as it is; a value the conversion rejects becomes 0.0 |
| Narrative.EscalationPart | app.py:55-56 | the add-on is the escalation sentence exactly when the implausibility is at least 0.7, and empty exactly when it is below |
| Narrative.Commentary | app.py:42-56 | the text appended after the opening (fallacy part, qualifier, optional escalation sentence) holds no brace |
| Narrative.Assemble | app.py:35-57 | the text before personalisation is accepted by `str.format` |
| Narrative.BuildNarrative | app.py:35-60 | the narrative is the filled opening joined by spaces, then the clamped-density many drawn phrases each after a space, then " This is <adj>.", then the escalation sentence when the implausibility is at least 0.7; brace-free names give a brace-free narrative |
| Narrative.QualifierAfterFallacies | app.py:43-48 | in every narrative, `" This is <adj>."` comes directly after the fallacy part |
| Narrative.FilledLayout | app.py:58-59 | personalisation changes only the opening sentences; the rest is copied verbatim |
| Narrative.DensitySaturates | app.py:42 | a density of 10 or more draws exactly the first ten phrases and gives exactly the narrative of density 10 |
| Narrative.NoFallaciesWithoutDensity | app.py:42-44 | density 0 or below draws no phrase and adds no extra space |
| Narrative.EmotionDefault | app.py:47 | the adjective is "notable" exactly when the label is not Concerned, Fearful or Angry |
| Narrative.EmotionSentenceEnding | app.py:48 | no emotional qualifier ends the way the escalation sentence does |
| Narrative.EscalationIff | app.py:51-56 | the narrative ends with the escalation sentence if and only if the implausibility is at least 0.7 |
| Narrative.UnreadableImplausibility | app.py:51-54 | an implausibility that does not parse behaves exactly as 0.0, so no escalation |
| Narrative.NamesVillain | app.py:37-39 | for any draws, the narrative contains the villain's name |
| Narrative.AngryExample | app.py:42-56 | Angry, density 0, implausibility 0.9 gives the opening, " This is infuriating." and the escalation sentence |
| Policy.ViolatesPolicy | app.py:62-64 | the filter answers true exactly when some blocked word is a substring of the lower-cased text |
| Policy.FlaggedIgnoresCase | app.py:63 | the filter gives the same answer on a text and on its lower-cased form |
| Policy.SubstringMatch | app.py:64 | matching is by substring, not whole word: "Attackers" is flagged |
| Policy.Publish | app.py:89-92 | the page shows the marker exactly when flagged, otherwise the banner followed by the unchanged text |
| Policy.Simulate | app.py:86-92 | one submission shows the marker exactly when the generated narrative is flagged, otherwise banner plus narrative |

## Left out

- Flask routing, `render_template` and the home, about and safety views (app.py:1-4, 66-113) are framework I/O.
- The form's default values and the conversions `int(...)` and `float(...)` at app.py:72-84 are left out. They run before generation, and they raise on bad input. Density is an `int` input, and implausibility is an `Option<real>` where `None` stands for a failed parse.
- `VILLAINS` and `LOCATIONS` (app.py:16-17) are not modelled. They only fill the form's choice lists and defaults. Any string can be submitted in their place, so the generator's properties are stated for arbitrary names.
- The phrase draws are a stream of at least ten indices, of which a call uses the first clamped-density many. Python draws them one at a time; the unused tail of the stream stands for draws never made.
- The `random` module is left out: its draws are explicit parameters, constrained by `ValidChoices`.
- Floating point is left out: real arithmetic is used. `NaN` and the infinities, which Python's `float` accepts, are not modelled.
- Text.ToLower: ASCII only. Python's `str.lower` also maps non-ASCII capitals, and a few of them map to more than one character, for example 'İ'. Every blocked word is plain ASCII. A non-ASCII capital that lower-cases into an ASCII letter is still not treated as that letter. One example is KELVIN SIGN, which becomes 'k'.
- Format.Fill: only texts whose braces all belong to `{villain}` or `{location}` are covered. The `{{`/`}}` escapes, format specs, conversions and other field names of `str.format` are not. Python raises on stray braces, and `Fill` requires `FormatSafe`, which every assembled text is proved to satisfy.
- Narrative.EscalationIff: "appended exactly once" is stated structurally by `Narrative.BuildNarrative` (one optional sentence at the end) and as an ends-with equivalence. Occurrences are not counted, because a submitted name could itself contain the sentence.
- Policy.ViolatesPolicy: the iteration order of Python's set is left unspecified. The loop picks any remaining word, and the answer does not depend on the order.
