/** `String.prototype.trim` and the blank-input test built on it. */
module Text {

  /** The characters `trim` removes: ECMAScript WhiteSpace and LineTerminator. */
  predicate IsWhitespace(c: char) {
    c == '\t' || c == '\n' || c == '\U{000B}' || c == '\U{000C}' || c == '\r' || c == ' '
    || c == '\U{00A0}' || c == '\U{1680}' || ('\U{2000}' <= c <= '\U{200A}')
    || c == '\U{2028}' || c == '\U{2029}' || c == '\U{202F}' || c == '\U{205F}'
    || c == '\U{3000}' || c == '\U{FEFF}'
  }

  /** Every character of `s` is whitespace (the empty string included). */
  predicate IsBlank(s: string) {
    forall i :: 0 <= i < |s| ==> IsWhitespace(s[i])
  }

  /** Scanning forward from `i`: the index of the first character that is not
      whitespace, or `|s|` when there is none. */
  function SkipLeading(s: string, i: nat): (k: nat)
    requires i <= |s|
    ensures i <= k <= |s|
    ensures forall j :: i <= j < k ==> IsWhitespace(s[j])
    ensures k < |s| ==> !IsWhitespace(s[k])
    decreases |s| - i
  {
    if i < |s| && IsWhitespace(s[i]) then SkipLeading(s, i + 1) else i
  }

  /** Scanning backward from `j`: the index just past the last character before `j`
      that is not whitespace, or 0 when there is none. */
  function SkipTrailing(s: string, j: nat): (k: nat)
    requires j <= |s|
    ensures k <= j
    ensures forall m :: k <= m < j ==> IsWhitespace(s[m])
    ensures k > 0 ==> !IsWhitespace(s[k - 1])
  {
    if j > 0 && IsWhitespace(s[j - 1]) then SkipTrailing(s, j - 1) else j
  }

  /** `s.trim()`: what lies between the leading and the trailing whitespace. */
  function Trim(s: string): (r: string)
    ensures r == [] <==> IsBlank(s)
    ensures r != [] ==> !IsWhitespace(r[0]) && !IsWhitespace(r[|r| - 1])
  {
    var i := SkipLeading(s, 0);
    if i == |s| then []
    else
      var j := SkipTrailing(s, |s|);
      assert !IsWhitespace(s[i]);
      s[i..j]
  }

  /** `trim` is characterised by where the text starts and ends: a slice with no
      whitespace at either end and only whitespace around it is the trimmed text. */
  lemma TrimIsSlice(s: string, i: nat, j: nat)
    requires i < j <= |s|
    requires forall k :: 0 <= k < i ==> IsWhitespace(s[k])
    requires forall k :: j <= k < |s| ==> IsWhitespace(s[k])
    requires !IsWhitespace(s[i]) && !IsWhitespace(s[j - 1])
    ensures Trim(s) == s[i..j]
  {
    var a := SkipLeading(s, 0);
    var b := SkipTrailing(s, |s|);
    assert a == i && b == j;
  }

  /** A string that neither starts nor ends with whitespace is left as it is. */
  lemma TrimOfTrimmed(s: string)
    requires s == [] || (!IsWhitespace(s[0]) && !IsWhitespace(s[|s| - 1]))
    ensures Trim(s) == s
  {
    if s != [] {
      TrimIsSlice(s, 0, |s|);
      assert s[0..|s|] == s;
    }
  }

  /** Trimming twice is trimming once. */
  lemma TrimIdempotent(s: string)
    ensures Trim(Trim(s)) == Trim(s)
  {
    TrimOfTrimmed(Trim(s));
  }

  /** Whitespace around blank text leaves blank text. */
  lemma BlankConcat(s: string, q: string)
    requires IsBlank(s) && IsBlank(q)
    ensures IsBlank(s + q)
  {
    var t := s + q;
    forall k | 0 <= k < |t| ensures IsWhitespace(t[k]) {
      if k < |s| { assert t[k] == s[k]; } else { assert t[k] == q[k - |s|]; }
    }
  }

  /** Two texts joined by a space are blank exactly when both are blank. */
  lemma BlankJoin(a: string, b: string)
    ensures IsBlank(a + " " + b) <==> IsBlank(a) && IsBlank(b)
  {
    var t := a + " " + b;
    if !IsBlank(a) {
      var k :| 0 <= k < |a| && !IsWhitespace(a[k]);
      assert t[k] == a[k];
    } else if !IsBlank(b) {
      var k :| 0 <= k < |b| && !IsWhitespace(b[k]);
      assert t[|a| + 1 + k] == b[k];
    } else {
      BlankConcat(a, " ");
      BlankConcat(a + " ", b);
    }
  }

  /** Whitespace appended after the text does not change the trimmed text. */
  lemma TrimPadRight(s: string, q: string)
    requires IsBlank(q)
    ensures Trim(s + q) == Trim(s)
  {
    if IsBlank(s) {
      BlankConcat(s, q);
    } else {
      var i := SkipLeading(s, 0);
      var j := SkipTrailing(s, |s|);
      SliceInConcat(s, q, i, j);
    }
  }

  /** The trimmed slice of `s` is still the trimmed slice once whitespace follows. */
  lemma SliceInConcat(s: string, q: string, i: nat, j: nat)
    requires IsBlank(q) && i < j <= |s|
    requires forall k :: 0 <= k < i ==> IsWhitespace(s[k])
    requires forall k :: j <= k < |s| ==> IsWhitespace(s[k])
    requires !IsWhitespace(s[i]) && !IsWhitespace(s[j - 1])
    ensures Trim(s + q) == s[i..j]
  {
    var t := s + q;
    forall k | j <= k < |t| ensures IsWhitespace(t[k]) {
      if k < |s| { assert t[k] == s[k]; } else { assert t[k] == q[k - |s|]; }
    }
    TrimIsSlice(t, i, j);
    assert t[i..j] == s[i..j];
  }

  /** Whitespace put before the text does not change the trimmed text. */
  lemma TrimPadLeft(p: string, s: string)
    requires IsBlank(p)
    ensures Trim(p + s) == Trim(s)
  {
    if IsBlank(s) {
      BlankConcat(p, s);
    } else {
      var i := SkipLeading(s, 0);
      var j := SkipTrailing(s, |s|);
      SliceAfterPadding(p, s, i, j);
    }
  }

  /** The trimmed slice of `s`, shifted, is still the trimmed slice once whitespace
      precedes it. */
  lemma SliceAfterPadding(p: string, s: string, i: nat, j: nat)
    requires IsBlank(p) && i < j <= |s|
    requires forall k :: 0 <= k < i ==> IsWhitespace(s[k])
    requires forall k :: j <= k < |s| ==> IsWhitespace(s[k])
    requires !IsWhitespace(s[i]) && !IsWhitespace(s[j - 1])
    ensures Trim(p + s) == s[i..j]
  {
    var t := p + s;
    var n := |p|;
    forall k | 0 <= k < n + i ensures IsWhitespace(t[k]) {
      if k < n { assert t[k] == p[k]; } else { assert t[k] == s[k - n]; }
    }
    forall k | n + j <= k < |t| ensures IsWhitespace(t[k]) {
      assert t[k] == s[k - n];
    }
    TrimIsSlice(t, n + i, n + j);
    assert t[n + i..n + j] == s[i..j];
  }

  /** Whitespace added on either side does not change the trimmed text. */
  lemma TrimIgnoresPadding(p: string, s: string, q: string)
    requires IsBlank(p) && IsBlank(q)
    ensures Trim(p + s + q) == Trim(s)
  {
    TrimPadRight(p + s, q);
    TrimPadLeft(p, s);
  }
}
