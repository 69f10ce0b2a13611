/** Python string operations the classification pipeline relies on:
    `str.strip()`, `str.lower()` (ASCII letters only), `str.replace(' ', '_')`
    and the substring test `w in s`. */
module Text {

  /** Python's `str.isspace()`: exactly the characters `str.strip()` removes
      when called without an argument. */
  predicate IsSpace(c: char) {
    var n := c as int;
    (9 <= n <= 13) || (28 <= n <= 32) || n == 0x85 || n == 0xA0 || n == 0x1680
    || (0x2000 <= n <= 0x200A) || n == 0x2028 || n == 0x2029 || n == 0x202F
    || n == 0x205F || n == 0x3000
  }

  predicate AllSpace(s: string) {
    forall i :: 0 <= i < |s| ==> IsSpace(s[i])
  }

  /** `str.lstrip()`: the suffix that remains after dropping leading whitespace. */
  function StripLeft(s: string): (r: string)
    ensures |r| <= |s| && r == s[|s| - |r|..]
    ensures r == [] || !IsSpace(r[0])
    ensures forall i :: 0 <= i < |s| - |r| ==> IsSpace(s[i])
  {
    if |s| > 0 && IsSpace(s[0]) then StripLeft(s[1..]) else s
  }

  /** `str.rstrip()`: the prefix that remains after dropping trailing whitespace. */
  function StripRight(s: string): (r: string)
    ensures |r| <= |s| && r == s[..|r|]
    ensures r == [] || !IsSpace(r[|r| - 1])
    ensures forall i :: |r| <= i < |s| ==> IsSpace(s[i])
  {
    if |s| > 0 && IsSpace(s[|s| - 1]) then StripRight(s[..|s| - 1]) else s
  }

  /** `str.strip()`. */
  function Strip(s: string): (r: string)
    ensures |r| <= |s|
    ensures r == [] || (!IsSpace(r[0]) && !IsSpace(r[|r| - 1]))
  {
    StripRight(StripLeft(s))
  }

  /** A string that neither starts nor ends with whitespace is its own strip. */
  lemma StripFixed(s: string)
    requires s == [] || (!IsSpace(s[0]) && !IsSpace(s[|s| - 1]))
    ensures Strip(s) == s
  {
  }

  lemma StripLeftSpan(s: string) returns (p: string)
    ensures s == p + StripLeft(s) && AllSpace(p)
  {
    p := s[..|s| - |StripLeft(s)|];
    forall i | 0 <= i < |p| ensures IsSpace(p[i]) {
      assert p[i] == s[i];
    }
  }

  lemma StripRightSpan(s: string) returns (q: string)
    ensures s == StripRight(s) + q && AllSpace(q)
  {
    var r := StripRight(s);
    q := s[|r|..];
    forall i | 0 <= i < |q| ensures IsSpace(q[i]) {
      assert q[i] == s[|r| + i];
    }
  }

  /** A string is its strip with whitespace before and after it. */
  lemma StripSpan(s: string) returns (p: string, q: string)
    ensures s == p + Strip(s) + q
    ensures AllSpace(p) && AllSpace(q)
  {
    var l := StripLeft(s);
    p := StripLeftSpan(s);
    q := StripRightSpan(l);
    ConcatAssoc(p, StripRight(l), q);
  }

  lemma ConcatAssoc(a: string, b: string, c: string)
    ensures a + (b + c) == a + b + c
  {
  }

  function LowerChar(c: char): char {
    if 'A' <= c <= 'Z' then (c as int + 32) as char else c
  }

  /** `str.lower()` restricted to the ASCII letters A-Z. */
  function Lower(s: string): string {
    seq(|s|, i requires 0 <= i < |s| => LowerChar(s[i]))
  }

  /** `str.replace(' ', '_')`: only the space character itself is replaced. */
  function ReplaceSpaces(s: string): (r: string)
    ensures |r| == |s|
    ensures forall i :: 0 <= i < |r| ==> r[i] != ' '
    ensures forall i :: 0 <= i < |s| && s[i] == ' ' ==> r[i] == '_'
    ensures forall i :: 0 <= i < |s| && s[i] != ' ' ==> r[i] == s[i]
  {
    seq(|s|, i requires 0 <= i < |s| => if s[i] == ' ' then '_' else s[i])
  }

  /** Python's `w in s` for strings: w occurs somewhere in s (the empty string
      occurs everywhere). */
  function Contains(s: string, w: string): bool
    decreases |s|
  {
    if |w| > |s| then false
    else if s[..|w|] == w then true
    else Contains(s[1..], w)
  }

  predicate OccursAt(s: string, w: string, i: nat) {
    i + |w| <= |s| && s[i..i + |w|] == w
  }

  /** Contains is the substring relation: w is found at some offset of s. */
  lemma {:induction false} ContainsIffOccurs(s: string, w: string)
    ensures Contains(s, w) <==> exists i: nat :: OccursAt(s, w, i)
    decreases |s|
  {
    if |w| > |s| {
    } else if s[..|w|] == w {
      assert OccursAt(s, w, 0);
    } else {
      ContainsIffOccurs(s[1..], w);
      if i: nat :| OccursAt(s[1..], w, i) {
        assert s[i + 1..i + 1 + |w|] == s[1..][i..i + |w|];
        assert OccursAt(s, w, i + 1);
      }
      if i: nat :| OccursAt(s, w, i) {
        assert i != 0;
        assert s[1..][i - 1..i - 1 + |w|] == s[i..i + |w|];
        assert OccursAt(s[1..], w, i - 1);
      }
    }
  }

  /** An occurrence in a whitespace-padded string of a word that neither
      starts nor ends with whitespace lies inside the unpadded part. */
  lemma OccursInPadded(p: string, s: string, q: string, w: string, i: nat)
    requires AllSpace(p) && AllSpace(q)
    requires |w| > 0 && !IsSpace(w[0]) && !IsSpace(w[|w| - 1])
    requires OccursAt(p + s + q, w, i)
    ensures |p| <= i && OccursAt(s, w, i - |p|)
  {
    var t := p + s + q;
    assert t[i] == w[0];
    assert t[i + |w| - 1] == w[|w| - 1];
    assert forall k :: 0 <= k < |p| ==> t[k] == p[k];
    assert forall k :: |p| + |s| <= k < |t| ==> t[k] == q[k - |p| - |s|];
    assert !IsSpace(t[i]) && !IsSpace(t[i + |w| - 1]);
    assert s[i - |p|..i - |p| + |w|] == t[i..i + |w|];
  }

  lemma OccursPadding(p: string, s: string, q: string, w: string, j: nat)
    requires OccursAt(s, w, j)
    ensures OccursAt(p + s + q, w, j + |p|)
  {
    var t := p + s + q;
    assert t[j + |p|..j + |p| + |w|] == s[j..j + |w|];
  }

  /** A word whose first and last characters are not whitespace is found in a
      string padded with whitespace exactly when it is found in the string. */
  lemma ContainsPadded(p: string, s: string, q: string, w: string)
    requires AllSpace(p) && AllSpace(q)
    requires |w| > 0 && !IsSpace(w[0]) && !IsSpace(w[|w| - 1])
    ensures Contains(p + s + q, w) <==> Contains(s, w)
  {
    ContainsIffOccurs(p + s + q, w);
    ContainsIffOccurs(s, w);
    if i: nat :| OccursAt(p + s + q, w, i) {
      OccursInPadded(p, s, q, w, i);
    }
    if j: nat :| OccursAt(s, w, j) {
      OccursPadding(p, s, q, w, j);
    }
  }

  /** Stripping a string does not change which such words it contains. */
  lemma ContainsStrip(s: string, w: string)
    requires |w| > 0 && !IsSpace(w[0]) && !IsSpace(w[|w| - 1])
    ensures Contains(Strip(s), w) <==> Contains(s, w)
  {
    var p, q := StripSpan(s);
    ContainsPadded(p, Strip(s), q, w);
  }

  lemma LowerKeepsSpace(c: char)
    ensures IsSpace(LowerChar(c)) <==> IsSpace(c)
  {
  }

  lemma LowerAppend(s: string, t: string)
    ensures Lower(s + t) == Lower(s) + Lower(t)
  {
  }

  lemma LowerAllSpace(s: string)
    requires AllSpace(s)
    ensures Lower(s) == s
  {
  }

  lemma {:induction false} StripLeftLower(s: string)
    ensures StripLeft(Lower(s)) == Lower(StripLeft(s))
    decreases |s|
  {
    if |s| > 0 {
      LowerKeepsSpace(s[0]);
      if IsSpace(s[0]) {
        assert Lower(s)[1..] == Lower(s[1..]);
        StripLeftLower(s[1..]);
      }
    }
  }

  lemma {:induction false} StripRightLower(s: string)
    ensures StripRight(Lower(s)) == Lower(StripRight(s))
    decreases |s|
  {
    if |s| > 0 {
      LowerKeepsSpace(s[|s| - 1]);
      if IsSpace(s[|s| - 1]) {
        assert Lower(s)[..|s| - 1] == Lower(s[..|s| - 1]);
        StripRightLower(s[..|s| - 1]);
      }
    }
  }

  /** Lowering and stripping commute, because lowering never turns a
      whitespace character into a visible one or back. */
  lemma StripLower(s: string)
    ensures Strip(Lower(s)) == Lower(Strip(s))
  {
    StripLeftLower(s);
    StripRightLower(StripLeft(s));
  }

  /** For such words, the trimmed lowercase text contains the word exactly
      when the lowercase text does. */
  lemma ContainsFolded(s: string, w: string)
    requires |w| > 0 && !IsSpace(w[0]) && !IsSpace(w[|w| - 1])
    ensures Contains(Lower(Strip(s)), w) <==> Contains(Lower(s), w)
  {
    StripLower(s);
    ContainsStrip(Lower(s), w);
  }
}
