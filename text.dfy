/**
 * The string operations the forms rely on: JavaScript's String.prototype.trim,
 * the `\s` character class of its regular expressions (the same set of
 * characters), and String.prototype.toLowerCase restricted to ASCII letters.
 */
module Text {

  /** WhiteSpace and LineTerminator code points of ECMAScript: what trim removes and `\s` matches. */
  predicate IsSpace(c: char) {
    || c == '\t' || c == '\n' || c == '\U{000B}' || c == '\U{000C}' || c == '\r' || c == ' '
    || c == '\U{00A0}' || c == '\U{1680}' || ('\U{2000}' <= c <= '\U{200A}')
    || c == '\U{2028}' || c == '\U{2029}' || c == '\U{202F}' || c == '\U{205F}'
    || c == '\U{3000}' || c == '\U{FEFF}'
  }

  predicate AllSpace(s: string) {
    forall i :: 0 <= i < |s| ==> IsSpace(s[i])
  }

  /** The first position at or after i that does not hold white space (|s| when there is none). */
  function SkipSpace(s: string, i: nat): (k: nat)
    requires i <= |s|
    ensures i <= k <= |s|
    ensures forall m :: i <= m < k ==> IsSpace(s[m])
    ensures k == |s| || !IsSpace(s[k])
    decreases |s| - i
  {
    if i < |s| && IsSpace(s[i]) then SkipSpace(s, i + 1) else i
  }

  /** The position just after the last character of s[lo..j] that is not white space (lo when there is none). */
  function BackSpace(s: string, lo: nat, j: nat): (k: nat)
    requires lo <= j <= |s|
    ensures lo <= k <= j
    ensures forall m :: k <= m < j ==> IsSpace(s[m])
    ensures k == lo || !IsSpace(s[k - 1])
    decreases j
  {
    if lo < j && IsSpace(s[j - 1]) then BackSpace(s, lo, j - 1) else j
  }

  /** String.prototype.trim: white space removed from both ends. */
  function Trim(s: string): string
  {
    var start := SkipSpace(s, 0);
    s[start..BackSpace(s, start, |s|)]
  }

  /** Trim cuts s into white space, a core that neither starts nor ends with white space, and white space. */
  lemma TrimSplits(s: string)
    ensures exists i :: 0 <= i <= |s| - |Trim(s)| && s[i..i + |Trim(s)|] == Trim(s)
                                      && AllSpace(s[..i]) && AllSpace(s[i + |Trim(s)|..])
    ensures Trim(s) == [] || (!IsSpace(Trim(s)[0]) && !IsSpace(Trim(s)[|Trim(s)| - 1]))
  {
    var i := SkipSpace(s, 0);
    var e := BackSpace(s, i, |s|);
    assert Trim(s) == s[i..e];
    assert AllSpace(s[..i]) by {
      forall m | 0 <= m < i ensures IsSpace(s[..i][m]) {
        assert s[..i][m] == s[m];
      }
    }
    assert AllSpace(s[e..]) by {
      forall m | 0 <= m < |s| - e ensures IsSpace(s[e..][m]) {
        assert s[e..][m] == s[e + m];
      }
    }
    if i < e {
      assert s[i..e][0] == s[i];
      assert s[i..e][e - i - 1] == s[e - 1];
    }
  }

  /** A field is blank (`!s.trim()` in the source) exactly when it is all white space. */
  lemma TrimEmptyIffAllSpace(s: string)
    ensures Trim(s) == [] <==> AllSpace(s)
  {
    var i := SkipSpace(s, 0);
    var e := BackSpace(s, i, |s|);
    assert |Trim(s)| == e - i;
    if e == i {
      assert i == |s|;
    } else {
      assert !IsSpace(s[i]);
    }
  }

  /** A string that neither starts nor ends with white space is its own trim. */
  lemma TrimNoop(s: string)
    requires s == [] || (!IsSpace(s[0]) && !IsSpace(s[|s| - 1]))
    ensures Trim(s) == s
  {
    if s != [] {
      assert SkipSpace(s, 0) == 0;
      assert BackSpace(s, 0, |s|) == |s|;
    }
  }

  /** A trimmed string is left alone by trim. */
  lemma TrimIdempotent(s: string)
    ensures Trim(Trim(s)) == Trim(s)
  {
    TrimSplits(s);
    TrimNoop(Trim(s));
  }

  function LowerChar(c: char): (d: char)
    ensures ('A' <= c <= 'Z') ==> 'a' <= d <= 'z'
    ensures !('A' <= c <= 'Z') ==> d == c
  {
    if 'A' <= c <= 'Z' then (c as int + 32) as char else c
  }

  /** String.prototype.toLowerCase on ASCII letters. */
  function ToLower(s: string): (r: string)
    ensures |r| == |s|
    ensures forall i :: 0 <= i < |s| ==> r[i] == LowerChar(s[i])
  {
    seq(|s|, i requires 0 <= i < |s| => LowerChar(s[i]))
  }

  /** Lower-casing leaves white space alone and never produces it. */
  lemma LowerCharSpace(c: char)
    ensures IsSpace(LowerChar(c)) <==> IsSpace(c)
    ensures IsSpace(c) ==> LowerChar(c) == c
  {
  }

  lemma ToLowerIdempotent(s: string)
    ensures ToLower(ToLower(s)) == ToLower(s)
  {
  }

  /** Lower-casing never creates or removes white space, so it commutes with trim. */
  lemma TrimToLower(s: string)
    ensures Trim(ToLower(s)) == ToLower(Trim(s))
  {
    var t := ToLower(s);
    SkipSpaceToLower(s, 0);
    var i := SkipSpace(s, 0);
    BackSpaceToLower(s, i, |s|);
    var e := BackSpace(s, i, |s|);
    assert Trim(t) == t[i..e];
    LowerSlice(s, i, e);
  }

  lemma LowerSlice(s: string, i: nat, e: nat)
    requires i <= e <= |s|
    ensures ToLower(s)[i..e] == ToLower(s[i..e])
  {
  }

  /** Lower-casing moves no white-space boundary, scanning forward... */
  lemma {:induction false} SkipSpaceToLower(s: string, i: nat)
    requires i <= |s|
    ensures SkipSpace(ToLower(s), i) == SkipSpace(s, i)
    decreases |s| - i
  {
    if i < |s| {
      LowerCharSpace(s[i]);
      SkipSpaceToLower(s, i + 1);
    }
  }

  /** ... and scanning backward. */
  lemma {:induction false} BackSpaceToLower(s: string, lo: nat, j: nat)
    requires lo <= j <= |s|
    ensures BackSpace(ToLower(s), lo, j) == BackSpace(s, lo, j)
    decreases j
  {
    if lo < j {
      LowerCharSpace(s[j - 1]);
      BackSpaceToLower(s, lo, j - 1);
    }
  }
}
