/** Small option type shared by the other modules. */
module Wrappers {
  datatype Option<+T> = None | Some(value: T)
}

/**
 * The string primitives the adapter relies on: `str.strip()` with no
 * argument, `str.lower()` and the substring test `k in s`.
 */
module Text {

  /** The characters `str.strip()` removes: Python's ASCII whitespace plus NEL and NBSP. */
  predicate IsSpace(c: char) {
    c == ' ' || c == '\t' || c == '\n' || c == '\r' || c == '\U{B}' || c == '\U{C}'
    || c == '\U{1C}' || c == '\U{1D}' || c == '\U{1E}' || c == '\U{1F}'
    || c == '\U{85}' || c == '\U{A0}'
  }

  predicate AllSpace(s: string) {
    forall k :: 0 <= k < |s| ==> IsSpace(s[k])
  }

  /** Neither the first nor the last character of `s` is whitespace. */
  predicate NoEdgeSpace(s: string) {
    s != [] ==> !IsSpace(s[0]) && !IsSpace(s[|s| - 1])
  }

  /** Leading whitespace removed. */
  function TrimStart(s: string): string
    decreases |s|
  {
    if s != [] && IsSpace(s[0]) then TrimStart(s[1..]) else s
  }

  /** Trailing whitespace removed. */
  function TrimEnd(s: string): string
    decreases |s|
  {
    if s != [] && IsSpace(s[|s| - 1]) then TrimEnd(s[..|s| - 1]) else s
  }

  /** `TrimStart` drops a whitespace-only prefix and keeps a suffix that does not start with whitespace. */
  lemma {:induction false} TrimStartIsSuffix(s: string)
    ensures var r := TrimStart(s);
            && |r| <= |s| && r == s[|s| - |r|..]
            && AllSpace(s[..|s| - |r|])
            && (r != [] ==> !IsSpace(r[0]))
    decreases |s|
  {
    if s != [] && IsSpace(s[0]) {
      TrimStartIsSuffix(s[1..]);
      var r := TrimStart(s);
      assert s[1..][|s| - 1 - |r|..] == s[|s| - |r|..];
      assert forall k :: 0 < k < |s| - |r| ==> s[k] == s[1..][..|s| - 1 - |r|][k - 1];
    }
  }

  /** `TrimEnd` drops a whitespace-only suffix and keeps a prefix that does not end with whitespace. */
  lemma {:induction false} TrimEndIsPrefix(s: string)
    ensures var r := TrimEnd(s);
            && |r| <= |s| && r == s[..|r|]
            && AllSpace(s[|r|..])
            && (r != [] ==> !IsSpace(r[|r| - 1]))
    decreases |s|
  {
    if s != [] && IsSpace(s[|s| - 1]) {
      var t := s[..|s| - 1];
      TrimEndIsPrefix(t);
      var r := TrimEnd(s);
      assert t[..|r|] == s[..|r|];
      assert forall k :: |r| <= k < |s| - 1 ==> s[k] == t[|r|..][k - |r|];
    }
  }

  /** `s.strip()`: leading and trailing whitespace removed. */
  function Strip(s: string): (r: string)
    ensures |r| <= |s|
  {
    TrimStartIsSuffix(s);
    TrimEndIsPrefix(TrimStart(s));
    TrimEnd(TrimStart(s))
  }

  /**
   * `strip()` returns a contiguous piece of `s` that neither starts nor ends
   * with whitespace and has only whitespace around it.
   */
  lemma StripIsPiece(s: string)
    ensures NoEdgeSpace(Strip(s))
    ensures exists i :: 0 <= i <= |s| - |Strip(s)| && Strip(s) == s[i..i + |Strip(s)|]
                        && AllSpace(s[..i]) && AllSpace(s[i + |Strip(s)|..])
  {
    var t := TrimStart(s);
    TrimStartIsSuffix(s);
    TrimEndIsPrefix(t);
    var r := TrimEnd(t);
    var i := |s| - |t|;
    assert t == s[i..];
    assert r == s[i..i + |r|];
    assert s[i + |r|..] == t[|r|..];
  }

  lemma {:induction false} TrimStartPadded(p: string, c: string)
    requires AllSpace(p) && (c != [] ==> !IsSpace(c[0]))
    ensures TrimStart(p + c) == c
    decreases |p|
  {
    if p == [] {
      assert p + c == c;
    } else {
      assert (p + c)[1..] == p[1..] + c;
      TrimStartPadded(p[1..], c);
    }
  }

  lemma {:induction false} TrimEndPadded(c: string, q: string)
    requires AllSpace(q) && (c != [] ==> !IsSpace(c[|c| - 1]))
    ensures TrimEnd(c + q) == c
    decreases |q|
  {
    if q == [] {
      assert c + q == c;
    } else {
      assert (c + q)[..|c + q| - 1] == c + q[..|q| - 1];
      TrimEndPadded(c, q[..|q| - 1]);
    }
  }

  /** Whitespace padding on either side of a piece without edge whitespace is exactly what `strip()` removes. */
  lemma {:induction false} StripPadded(p: string, c: string, q: string)
    requires AllSpace(p) && AllSpace(q) && NoEdgeSpace(c)
    ensures Strip(p + c + q) == c
  {
    assert p + c + q == p + (c + q);
    if c == [] {
      assert p + c + q == p + q;
      assert AllSpace(p + q);
      TrimStartPadded(p + q, []);
      assert p + q + [] == p + q;
    } else {
      TrimStartPadded(p, c + q);
      TrimEndPadded(c, q);
    }
  }

  /** `strip()` leaves nothing exactly when the input is all whitespace. */
  lemma StripEmptyIffAllSpace(s: string)
    ensures Strip(s) == [] <==> AllSpace(s)
  {
    if AllSpace(s) {
      StripPadded(s, [], []);
      assert s + [] + [] == s;
    } else {
      StripIsPiece(s);
    }
  }

  /** `strip()` is idempotent. */
  lemma StripIdempotent(s: string)
    ensures Strip(Strip(s)) == Strip(s)
  {
    StripIsPiece(s);
    StripPadded([], Strip(s), []);
    assert [] + Strip(s) + [] == Strip(s);
  }

  /** Python's `str.lower()` on one character, restricted to ASCII letters. */
  function LowerChar(c: char): char {
    if 'A' <= c <= 'Z' then (c as int + 32) as char else c
  }

  predicate IsUpper(c: char) {
    'A' <= c <= 'Z'
  }

  /**
   * `s.lower()`: same length, every upper-case letter replaced by the
   * lower-case letter at the same place in the alphabet, every other
   * character kept.
   */
  function Lower(s: string): (r: string)
    ensures |r| == |s|
    ensures forall k :: 0 <= k < |r| ==> !IsUpper(r[k])
    ensures forall k :: 0 <= k < |s| && IsUpper(s[k]) ==>
              'a' <= r[k] <= 'z' && r[k] as int - 'a' as int == s[k] as int - 'A' as int
    ensures forall k :: 0 <= k < |s| && !IsUpper(s[k]) ==> r[k] == s[k]
  {
    seq(|s|, k requires 0 <= k < |s| => LowerChar(s[k]))
  }

  lemma LowerConcat(a: string, b: string)
    ensures Lower(a + b) == Lower(a) + Lower(b)
  {
  }

  /** The substring relation `key in text`, stated by position. */
  predicate IsSubstring(key: string, text: string) {
    exists i :: 0 <= i <= |text| && key <= text[i..]
  }

  /** A left-to-right search that decides `key in text`. */
  function Contains(text: string, key: string): (r: bool)
    ensures r <==> IsSubstring(key, text)
    decreases |text|
  {
    if key <= text then
      assert text[0..] == text;
      true
    else if text == [] then
      false
    else
      var r := Contains(text[1..], key);
      assert forall i :: 1 <= i <= |text| ==> text[i..] == text[1..][i - 1..];
      r
  }

  /** Text around a substring occurrence does not hide it. */
  lemma {:induction false} SubstringPadded(key: string, text: string, p: string, q: string)
    requires IsSubstring(key, text)
    ensures IsSubstring(key, p + text + q)
  {
    var i :| 0 <= i <= |text| && key <= text[i..];
    var whole := p + text + q;
    assert whole[|p| + i..] == text[i..] + q;
  }
}
