/** The personalisation step of the generator, `text.format(location=...,
    villain=...)`, for texts whose only braces are the two named
    placeholders. */
module Format {
  import opened Text

  const VillainTag: string := "{villain}"
  const LocationTag: string := "{location}"

  predicate IsBrace(c: char) {
    c == '{' || c == '}'
  }

  /** How many characters one step of the scan consumes at the start of `s`:
      a whole placeholder, or a single character. */
  function Step(s: string): (n: nat)
    requires |s| > 0
    ensures 1 <= n <= |s|
  {
    if VillainTag <= s then |VillainTag|
    else if LocationTag <= s then |LocationTag|
    else 1
  }

  /** What that step writes: the placeholder's value, or the character. */
  function StepOut(s: string, villain: string, location: string): string
    requires |s| > 0
  {
    if VillainTag <= s then villain
    else if LocationTag <= s then location
    else [s[0]]
  }

  /** The step does not meet a brace outside a placeholder. */
  predicate HeadOk(s: string)
    requires |s| > 0
  {
    VillainTag <= s || LocationTag <= s || !IsBrace(s[0])
  }

  /** `s` is a text that `str.format` with the keywords `villain` and
      `location` accepts without raising: every brace in it belongs to one of
      the two placeholders. */
  predicate FormatSafe(s: string)
    decreases |s|
  {
    |s| == 0 || (HeadOk(s) && FormatSafe(s[Step(s)..]))
  }

  /** One left-to-right pass that replaces each placeholder by its value and
      copies every other character. Values are inserted as they are. */
  function Fill(s: string, villain: string, location: string): (r: string)
    requires FormatSafe(s)
    ensures NoBraces(villain) && NoBraces(location) ==> NoBraces(r)
    decreases |s|
  {
    if |s| == 0 then "" else StepOut(s, villain, location) + Fill(s[Step(s)..], villain, location)
  }

  /** Text without braces is accepted by `str.format` and comes back unchanged. */
  lemma {:induction false} FillPlain(s: string, villain: string, location: string)
    requires NoBraces(s)
    ensures FormatSafe(s) && Fill(s, villain, location) == s
    decreases |s|
  {
    if |s| > 0 {
      assert !IsBrace(s[0]);
      assert s[0] != VillainTag[0] && s[0] != LocationTag[0];
      assert Step(s) == 1;
      assert NoBraces(s[1..]) by {
        forall c | c in s[1..] ensures c in s {
          var i :| 0 <= i < |s[1..]| && s[1..][i] == c;
          assert s[i + 1] == c;
        }
      }
      FillPlain(s[1..], villain, location);
      assert s == [s[0]] + s[1..];
    }
  }

  /** The villain placeholder becomes the villain's name, inserted verbatim. */
  lemma FillVillainTag(s: string, villain: string, location: string)
    requires FormatSafe(s)
    ensures FormatSafe(VillainTag + s)
    ensures Fill(VillainTag + s, villain, location) == villain + Fill(s, villain, location)
  {
    var t := VillainTag + s;
    assert VillainTag <= t;
    assert Step(t) == |VillainTag|;
    assert t[|VillainTag|..] == s;
  }

  /** The location placeholder becomes the location's name, inserted verbatim. */
  lemma FillLocationTag(s: string, villain: string, location: string)
    requires FormatSafe(s)
    ensures FormatSafe(LocationTag + s)
    ensures Fill(LocationTag + s, villain, location) == location + Fill(s, villain, location)
  {
    var t := LocationTag + s;
    assert t[1] == 'l' != VillainTag[1];
    assert LocationTag <= t;
    assert Step(t) == |LocationTag|;
    assert t[|LocationTag|..] == s;
  }

  lemma VillainTagKept(a: string, b: string)
    requires VillainTag <= a
    ensures VillainTag <= a + b
  {
  }

  lemma LocationTagKept(a: string, b: string)
    requires LocationTag <= a
    ensures LocationTag <= a + b && !(VillainTag <= a + b)
  {
    assert (a + b)[1] == 'l';
  }

  lemma PlainHeadKept(a: string, b: string)
    requires |a| > 0 && !IsBrace(a[0])
    ensures !(VillainTag <= a + b) && !(LocationTag <= a + b)
  {
    assert (a + b)[0] == a[0];
  }

  /** A step that is allowed at the start of `a` is the same step at the
      start of `a + b`. */
  lemma StepOfConcat(a: string, b: string, villain: string, location: string)
    requires |a| > 0 && HeadOk(a)
    ensures Step(a + b) == Step(a)
    ensures StepOut(a + b, villain, location) == StepOut(a, villain, location)
    ensures HeadOk(a + b)
    ensures (a + b)[Step(a)..] == a[Step(a)..] + b
  {
    if VillainTag <= a {
      VillainTagKept(a, b);
    } else if LocationTag <= a {
      LocationTagKept(a, b);
    } else {
      PlainHeadKept(a, b);
      assert (a + b)[0] == a[0];
    }
  }

  /** Filling is done piece by piece: the scan never reads across the seam in
      a way that changes either half. */
  lemma {:induction false} FillConcat(a: string, b: string, villain: string, location: string)
    requires FormatSafe(a) && FormatSafe(b)
    ensures FormatSafe(a + b)
    ensures Fill(a + b, villain, location) == Fill(a, villain, location) + Fill(b, villain, location)
    decreases |a|
  {
    if |a| == 0 {
      assert a + b == b;
    } else {
      var k := Step(a);
      StepOfConcat(a, b, villain, location);
      FillConcat(a[k..], b, villain, location);
    }
  }

  /** Accepted texts stay accepted when put side by side. */
  lemma SafeConcat(a: string, b: string)
    requires FormatSafe(a) && FormatSafe(b)
    ensures FormatSafe(a + b)
  {
    FillConcat(a, b, "", "");
  }

  /** A brace-free tail is copied through unchanged. */
  lemma FillPlainSuffix(a: string, p: string, villain: string, location: string)
    requires FormatSafe(a) && NoBraces(p)
    ensures FormatSafe(a + p)
    ensures Fill(a + p, villain, location) == Fill(a, villain, location) + p
  {
    FillPlain(p, villain, location);
    FillConcat(a, p, villain, location);
  }

  /** Filling a text with one villain placeholder and a brace-free tail
      writes the villain's name in the placeholder's place. */
  lemma FillAroundVillain(pre: string, post: string, villain: string, location: string)
    requires FormatSafe(pre) && NoBraces(post)
    ensures FormatSafe(pre + VillainTag + post)
    ensures Fill(pre + VillainTag + post, villain, location) == Fill(pre, villain, location) + villain + post
  {
    var tail := VillainTag + post;
    FillPlain(post, villain, location);
    FillVillainTag(post, villain, location);
    FillConcat(pre, tail, villain, location);
    Associate(pre, VillainTag, post);
    Associate(Fill(pre, villain, location), villain, post);
  }

  /** A join of accepted parts with a brace-free separator is accepted. */
  lemma {:induction false} SafeJoin(parts: seq<string>, sep: string)
    requires forall i :: 0 <= i < |parts| ==> FormatSafe(parts[i])
    requires NoBraces(sep)
    ensures FormatSafe(Join(parts, sep))
    decreases |parts|
  {
    if |parts| > 1 {
      SafeJoin(parts[1..], sep);
      FillPlain(sep, "", "");
      SafeConcat(parts[0], sep);
      SafeConcat(parts[0] + sep, Join(parts[1..], sep));
    }
  }

  /** Each part filled on its own. */
  function FillAll(parts: seq<string>, villain: string, location: string): (r: seq<string>)
    requires forall i :: 0 <= i < |parts| ==> FormatSafe(parts[i])
    ensures |r| == |parts|
    ensures forall i :: 0 <= i < |parts| ==> r[i] == Fill(parts[i], villain, location)
    decreases |parts|
  {
    if |parts| == 0 then [] else [Fill(parts[0], villain, location)] + FillAll(parts[1..], villain, location)
  }

  /** Filling a join is joining the filled parts. */
  lemma {:induction false} FillJoin(parts: seq<string>, sep: string, villain: string, location: string)
    requires forall i :: 0 <= i < |parts| ==> FormatSafe(parts[i])
    requires NoBraces(sep)
    ensures FormatSafe(Join(parts, sep))
    ensures Fill(Join(parts, sep), villain, location) == Join(FillAll(parts, villain, location), sep)
    decreases |parts|
  {
    SafeJoin(parts, sep);
    var filled := FillAll(parts, villain, location);
    if |parts| > 1 {
      FillJoin(parts[1..], sep, villain, location);
      FillPlainSuffix(parts[0], sep, villain, location);
      FillConcat(parts[0] + sep, Join(parts[1..], sep), villain, location);
      assert filled[1..] == FillAll(parts[1..], villain, location);
    }
  }

  /** A template as the source writes it: runs of literal text and the two
      placeholder slots. */
  datatype Segment = Lit(s: string) | VillainSlot | LocationSlot

  /** The literal runs carry no braces. */
  predicate PlainSegments(ts: seq<Segment>) {
    forall i :: 0 <= i < |ts| ==> ts[i].Lit? ==> NoBraces(ts[i].s)
  }

  /** The template text with its placeholders written out, as the source
      stores it. */
  function Render(ts: seq<Segment>): string
    decreases |ts|
  {
    if |ts| == 0 then ""
    else
      match ts[0]
      case Lit(s) => s + Render(ts[1..])
      case VillainSlot => VillainTag + Render(ts[1..])
      case LocationSlot => LocationTag + Render(ts[1..])
  }

  /** The intended personalised text: every slot holds its value. */
  function Expand(ts: seq<Segment>, villain: string, location: string): string
    decreases |ts|
  {
    if |ts| == 0 then ""
    else
      match ts[0]
      case Lit(s) => s + Expand(ts[1..], villain, location)
      case VillainSlot => villain + Expand(ts[1..], villain, location)
      case LocationSlot => location + Expand(ts[1..], villain, location)
  }

  /** Filling the rendered template gives exactly the intended text: every
      placeholder is replaced, nothing else changes, and the inserted values
      are not expanded again. */
  lemma {:induction false} FillRender(ts: seq<Segment>, villain: string, location: string)
    requires PlainSegments(ts)
    ensures FormatSafe(Render(ts))
    ensures Fill(Render(ts), villain, location) == Expand(ts, villain, location)
    decreases |ts|
  {
    if |ts| > 0 {
      var rest := Render(ts[1..]);
      FillRender(ts[1..], villain, location);
      match ts[0]
      case Lit(s) =>
        FillPlain(s, villain, location);
        FillConcat(s, rest, villain, location);
      case VillainSlot =>
        FillVillainTag(rest, villain, location);
      case LocationSlot =>
        FillLocationTag(rest, villain, location);
    }
  }

  /** A value that looks like a placeholder is inserted literally. */
  lemma NoReexpansion()
    ensures Fill(VillainTag, LocationTag, "Ridgehaven") == LocationTag
  {
    FillPlain("", LocationTag, "Ridgehaven");
    FillVillainTag("", LocationTag, "Ridgehaven");
    assert VillainTag + "" == VillainTag;
  }
}
