/** String helpers standing in for the Python string operations the
    narrative generator uses: `str.join`, `in` on strings and `str.lower`. */
module Text {

  /** Python's `sep.join(parts)`. */
  function Join(parts: seq<string>, sep: string): (r: string)
    ensures |parts| > 0 ==> parts[0] <= r && EndsWith(r, parts[|parts| - 1])
    decreases |parts|
  {
    if |parts| == 0 then ""
    else if |parts| == 1 then parts[0]
    else parts[0] + sep + Join(parts[1..], sep)
  }

  /** Every part preceded by its own copy of `sep`, the shape
      `sep + sep.join(parts)` has when `parts` is not empty. */
  function PrefixEach(parts: seq<string>, sep: string): string
    decreases |parts|
  {
    if |parts| == 0 then "" else sep + parts[0] + PrefixEach(parts[1..], sep)
  }

  /** Writing one separator in front of a join puts a separator in front of
      every part. */
  lemma {:induction false} JoinAfterSeparator(parts: seq<string>, sep: string)
    requires |parts| > 0
    ensures sep + Join(parts, sep) == PrefixEach(parts, sep)
    decreases |parts|
  {
    if |parts| == 1 {
      assert PrefixEach(parts[1..], sep) == "";
    } else {
      JoinAfterSeparator(parts[1..], sep);
      calc {
        sep + Join(parts, sep);
        sep + (parts[0] + sep + Join(parts[1..], sep));
        sep + parts[0] + (sep + Join(parts[1..], sep));
        sep + parts[0] + PrefixEach(parts[1..], sep);
      }
    }
  }

  /** `w` occurs in `s` as a contiguous piece: Python's `w in s`. */
  ghost predicate IsSubstring(w: string, s: string) {
    exists i :: 0 <= i <= |s| && w <= s[i..]
  }

  /** When `w` does not start `s`, it occurs in `s` exactly when it occurs
      in the tail of `s`. */
  lemma SubstringOfTail(w: string, s: string)
    requires |s| > 0 && !(w <= s)
    ensures IsSubstring(w, s) <==> IsSubstring(w, s[1..])
  {
    if IsSubstring(w, s) {
      var i :| 0 <= i <= |s| && w <= s[i..];
      assert s[0..] == s;
      assert s[1..][i - 1..] == s[i..];
    }
    if IsSubstring(w, s[1..]) {
      var i :| 0 <= i <= |s[1..]| && w <= s[1..][i..];
      assert s[1..][i..] == s[i + 1..];
    }
  }

  /** An occurrence in a prefix of `s` is an occurrence in `s`. */
  lemma SubstringOfPrefix(w: string, a: string, s: string)
    requires IsSubstring(w, a) && a <= s
    ensures IsSubstring(w, s)
  {
    var i :| 0 <= i <= |a| && w <= a[i..];
    assert a[i..] <= s[i..];
  }

  /** `w` occurs in any text that has it between two other pieces. */
  lemma SubstringBetween(a: string, w: string, b: string)
    ensures IsSubstring(w, a + w + b)
  {
    assert w <= (a + w + b)[|a|..];
  }

  /** Substring search by scanning the start positions of `s` in order. */
  function Contains(s: string, w: string): (r: bool)
    ensures r <==> IsSubstring(w, s)
    decreases |s|
  {
    if w <= s then
      assert s[0..] == s;
      true
    else if |s| == 0 then
      false
    else
      SubstringOfTail(w, s);
      Contains(s[1..], w)
  }

  predicate IsUpper(c: char) {
    'A' <= c <= 'Z'
  }

  /** ASCII lower-casing of one character. */
  function LowerChar(c: char): char {
    if IsUpper(c) then (c as int - 'A' as int + 'a' as int) as char else c
  }

  /** `str.lower`, restricted to the ASCII letters. */
  function ToLower(s: string): (r: string)
    ensures |r| == |s|
    ensures forall i :: 0 <= i < |s| ==> r[i] == LowerChar(s[i])
    ensures forall i :: 0 <= i < |r| ==> !IsUpper(r[i])
    ensures forall i :: 0 <= i < |s| && !IsUpper(s[i]) ==> r[i] == s[i]
  {
    seq(|s|, i requires 0 <= i < |s| => LowerChar(s[i]))
  }

  /** Lower-casing twice is lower-casing once. */
  lemma ToLowerIdempotent(s: string)
    ensures ToLower(ToLower(s)) == ToLower(s)
  {
  }

  /** Concatenation is associative. */
  lemma Associate(a: string, b: string, c: string)
    ensures a + b + c == a + (b + c)
  {
  }

  /** Regrouping a concatenation of four strings. */
  lemma Regroup(a: string, b: string, c: string, d: string)
    ensures a + (b + c + d) == a + b + c + d
  {
  }

  /** `s` holds no brace character. */
  predicate NoBraces(s: string) {
    '{' !in s && '}' !in s
  }

  /** Three brace-free texts put together are brace-free. */
  lemma ConcatNoBraces(a: string, b: string, c: string)
    requires NoBraces(a) && NoBraces(b) && NoBraces(c)
    ensures NoBraces(a + b + c)
  {
  }

  /** A join of brace-free parts with a brace-free separator is brace-free. */
  lemma {:induction false} JoinNoBraces(parts: seq<string>, sep: string)
    requires forall i :: 0 <= i < |parts| ==> NoBraces(parts[i])
    requires NoBraces(sep)
    ensures NoBraces(Join(parts, sep))
    decreases |parts|
  {
    if |parts| > 1 {
      JoinNoBraces(parts[1..], sep);
    }
  }

  /** Python's `s.endswith(suffix)`. */
  predicate EndsWith(s: string, suffix: string) {
    |suffix| <= |s| && s[|s| - |suffix|..] == suffix
  }

  /** A text ends with whatever was appended last. */
  lemma EndsWithAppended(a: string, b: string)
    ensures EndsWith(a + b, b)
  {
    assert (a + b)[|a|..] == b;
  }

  /** A suffix of a suffix is a suffix. */
  lemma EndsWithTransitive(s: string, t: string, u: string)
    ensures EndsWith(s, t) && EndsWith(t, u) ==> EndsWith(s, u)
  {
    if EndsWith(s, t) && EndsWith(t, u) {
      assert s[|s| - |u|..] == t[|t| - |u|..];
    }
  }

  /** A suffix no longer than the last piece is decided by that piece. */
  lemma EndsWithLastPiece(a: string, b: string, u: string)
    requires |u| <= |b|
    ensures EndsWith(a + b, u) <==> EndsWith(b, u)
  {
    assert (a + b)[|a + b| - |u|..] == b[|b| - |u|..];
  }
}
