/** String helpers with JavaScript's meaning: the white-space class of `\s`
    and `String.prototype.trim`, `Array.prototype.join`, and the decimal
    rendering of a non-negative integer in a template literal. */
module Text {

  /** The single characters JavaScript counts as white space (`\s`,
      `trim`), besides the range U+2000 to U+200A: WhiteSpace and
      LineTerminator of ECMA-262. */
  const WhitespaceChars: set<char> :=
    {' ', '\t', '\n', '\r', '\U{000B}', '\U{000C}', '\U{00A0}', '\U{1680}',
     '\U{2028}', '\U{2029}', '\U{202F}', '\U{205F}', '\U{3000}', '\U{FEFF}'}

  predicate IsWhitespace(c: char) {
    c in WhitespaceChars || ('\U{2000}' <= c <= '\U{200A}')
  }

  predicate AllWhitespace(s: string) {
    forall i :: 0 <= i < |s| ==> IsWhitespace(s[i])
  }

  predicate NoWhitespace(s: string) {
    forall i :: 0 <= i < |s| ==> !IsWhitespace(s[i])
  }

  /** Neither end of `s` is white space. */
  predicate IsTrimmed(s: string) {
    s == [] || (!IsWhitespace(s[0]) && !IsWhitespace(s[|s| - 1]))
  }

  /** The first index at or after `from` that does not hold white space
      (`|s|` when there is none). */
  function StartIndex(s: string, from: nat): (i: nat)
    requires from <= |s|
    ensures from <= i <= |s|
    ensures forall j :: from <= j < i ==> IsWhitespace(s[j])
    ensures i == |s| || !IsWhitespace(s[i])
    decreases |s| - from
  {
    if from < |s| && IsWhitespace(s[from]) then StartIndex(s, from + 1) else from
  }

  /** The index just past the last character before `bound` that is not white
      space (0 when there is none). */
  function EndIndex(s: string, bound: nat): (e: nat)
    requires bound <= |s|
    ensures e <= bound
    ensures forall j :: e <= j < bound ==> IsWhitespace(s[j])
    ensures e == 0 || !IsWhitespace(s[e - 1])
  {
    if 0 < bound && IsWhitespace(s[bound - 1]) then EndIndex(s, bound - 1) else bound
  }

  /** `String.prototype.trim`: the part of `s` between its leading and its
      trailing white space. */
  function Trim(s: string): (r: string)
    ensures IsTrimmed(r) && |r| <= |s|
  {
    var i := StartIndex(s, 0);
    var e := EndIndex(s, |s|);
    if i < e then s[i..e] else []
  }

  lemma {:induction false} TrimBetween(s: string, i: nat, e: nat)
    requires i < e <= |s| && StartIndex(s, 0) == i && EndIndex(s, |s|) == e
    ensures Trim(s) == s[i..e]
  {
  }

  /** Any index meeting the characterisation of `StartIndex` is it. */
  lemma {:induction false} StartIndexIs(s: string, from: nat, i: nat)
    requires from <= i <= |s|
    requires forall j :: from <= j < i ==> IsWhitespace(s[j])
    requires i == |s| || !IsWhitespace(s[i])
    ensures StartIndex(s, from) == i
    decreases i - from
  {
    if from < i {
      StartIndexIs(s, from + 1, i);
    }
  }

  /** Any index meeting the characterisation of `EndIndex` is it. */
  lemma {:induction false} EndIndexIs(s: string, bound: nat, e: nat)
    requires e <= bound <= |s|
    requires forall j :: e <= j < bound ==> IsWhitespace(s[j])
    requires e == 0 || !IsWhitespace(s[e - 1])
    ensures EndIndex(s, bound) == e
    decreases bound - e
  {
    if e < bound {
      EndIndexIs(s, bound - 1, e);
    }
  }

  /** `Trim(s)` is a slice of `s` with only white space on either side of
      it. */
  lemma {:induction false} TrimSlice(s: string)
    ensures var k := StartIndex(s, 0);
            var r := Trim(s);
            && k + |r| <= |s| && r == s[k..k + |r|]
            && (forall j :: 0 <= j < k ==> IsWhitespace(s[j]))
            && (forall j :: k + |r| <= j < |s| ==> IsWhitespace(s[j]))
  {
  }

  /** A string trims to "" exactly when it is all white space. */
  lemma {:induction false} TrimEmptyIffWhitespace(s: string)
    ensures Trim(s) == [] <==> AllWhitespace(s)
  {
    var i := StartIndex(s, 0);
    var e := EndIndex(s, |s|);
    if i >= e {
      // A character at `i` would be white space, as it lies at or past `e`.
      assert i == |s|;
    }
  }

  /** Trimming changes nothing on a string that is already trimmed, so
      `Trim` is idempotent. */
  lemma {:induction false} TrimIdempotent(s: string)
    ensures IsTrimmed(s) ==> Trim(s) == s
    ensures Trim(Trim(s)) == Trim(s)
  {
    if IsTrimmed(s) && s != [] {
      StartIndexIs(s, 0, 0);
      EndIndexIs(s, |s|, |s|);
      assert s[0..|s|] == s;
    }
    var r := Trim(s);
    if r != [] {
      StartIndexIs(r, 0, 0);
      EndIndexIs(r, |r|, |r|);
      assert r[0..|r|] == r;
    }
  }

  /** Padding a string with white space moves its first non-white-space
      character along by the length of the padding in front. */
  lemma {:induction false} StartIndexPadded(pre: string, s: string, post: string)
    requires AllWhitespace(pre) && StartIndex(s, 0) < |s|
    ensures StartIndex(pre + s + post, 0) == |pre| + StartIndex(s, 0)
  {
    var x := pre + s + post;
    var i := StartIndex(s, 0);
    forall j | 0 <= j < |pre| + i
      ensures IsWhitespace(x[j])
    {
      if j < |pre| {
        assert x[j] == pre[j];
      } else {
        assert x[j] == s[j - |pre|];
      }
    }
    assert x[|pre| + i] == s[i];
    StartIndexIs(x, 0, |pre| + i);
  }

  /** Padding a string with white space moves the end of its last
      non-white-space character along by the length of the padding in
      front. */
  lemma {:induction false} EndIndexPadded(pre: string, s: string, post: string)
    requires AllWhitespace(post) && 0 < EndIndex(s, |s|)
    ensures EndIndex(pre + s + post, |pre + s + post|) == |pre| + EndIndex(s, |s|)
  {
    var x := pre + s + post;
    var e := EndIndex(s, |s|);
    forall j | |pre| + e <= j < |x|
      ensures IsWhitespace(x[j])
    {
      if j < |pre| + |s| {
        assert x[j] == s[j - |pre|];
      } else {
        assert x[j] == post[j - |pre| - |s|];
      }
    }
    assert x[|pre| + e - 1] == s[e - 1];
    EndIndexIs(x, |x|, |pre| + e);
  }

  lemma {:induction false} AllWhitespacePadded(pre: string, s: string, post: string)
    requires AllWhitespace(pre) && AllWhitespace(s) && AllWhitespace(post)
    ensures AllWhitespace(pre + s + post)
  {
    var x := pre + s + post;
    forall j | 0 <= j < |x|
      ensures IsWhitespace(x[j])
    {
      if j < |pre| {
        assert x[j] == pre[j];
      } else if j < |pre| + |s| {
        assert x[j] == s[j - |pre|];
      } else {
        assert x[j] == post[j - |pre| - |s|];
      }
    }
  }

  /** White space around a string makes no difference to its trimmed form. */
  lemma {:induction false} TrimAbsorbsPadding(pre: string, s: string, post: string)
    requires AllWhitespace(pre) && AllWhitespace(post)
    ensures Trim(pre + s + post) == Trim(s)
  {
    if StartIndex(s, 0) < EndIndex(s, |s|) {
      TrimPaddedText(pre, s, post);
    } else {
      TrimEmptyIffWhitespace(s);
      AllWhitespacePadded(pre, s, post);
      TrimEmptyIffWhitespace(pre + s + post);
    }
  }

  lemma {:induction false} TrimPaddedText(pre: string, s: string, post: string)
    requires AllWhitespace(pre) && AllWhitespace(post)
    requires StartIndex(s, 0) < EndIndex(s, |s|)
    ensures Trim(pre + s + post) == Trim(s)
  {
    var i := StartIndex(s, 0);
    var e := EndIndex(s, |s|);
    StartIndexPadded(pre, s, post);
    EndIndexPadded(pre, s, post);
    assert forall k :: i <= k < e ==> (pre + s + post)[|pre| + k] == s[k];
    TrimOfShifted(pre + s + post, s, |pre|, i, e);
  }

  /** Two strings whose trimmed parts are found at shifted positions and
      are equal trim to the same string. */
  lemma {:induction false} TrimOfShifted(x: string, s: string, n: nat, i: nat, e: nat)
    requires i < e <= |s| && n + e <= |x|
    requires StartIndex(s, 0) == i && EndIndex(s, |s|) == e
    requires StartIndex(x, 0) == n + i && EndIndex(x, |x|) == n + e
    requires forall k :: i <= k < e ==> x[n + k] == s[k]
    ensures Trim(x) == Trim(s)
  {
    forall k | 0 <= k < e - i
      ensures x[n + i..n + e][k] == s[i..e][k]
    {
      assert x[n + i + k] == s[i + k];
    }
    assert x[n + i..n + e] == s[i..e];
    TrimBetween(x, n + i, n + e);
    TrimBetween(s, i, e);
  }

  /** `Array.prototype.join("")`. */
  function Concat(parts: seq<string>): string {
    if parts == [] then [] else parts[0] + Concat(parts[1..])
  }

  lemma {:induction false} ConcatAppend(a: seq<string>, b: seq<string>)
    ensures Concat(a + b) == Concat(a) + Concat(b)
    decreases |a|
  {
    if a == [] {
      assert a + b == b;
    } else {
      assert (a + b)[1..] == a[1..] + b;
      ConcatAppend(a[1..], b);
    }
  }

  /** Joining the first `i` parts gives a prefix of joining the first `j`. */
  lemma {:induction false} ConcatPrefix(parts: seq<string>, i: nat, j: nat)
    requires i <= j <= |parts|
    ensures Concat(parts[..i]) <= Concat(parts[..j])
  {
    assert parts[..j] == parts[..i] + parts[i..j];
    ConcatAppend(parts[..i], parts[i..j]);
  }

  /** `Array.prototype.join(" ")`. */
  function JoinSpaces(parts: seq<string>): string {
    if parts == [] then []
    else if |parts| == 1 then parts[0]
    else parts[0] + " " + JoinSpaces(parts[1..])
  }

  function DigitChar(d: nat): (c: char)
    requires d < 10
    ensures '0' <= c <= '9' && c as int - '0' as int == d
  {
    ('0' as int + d) as char
  }

  predicate AllDigits(s: string) {
    forall i :: 0 <= i < |s| ==> '0' <= s[i] <= '9'
  }

  /** The decimal numeral of `n`, as `${n}` renders it. */
  function NatToString(n: nat): (r: string)
    ensures r != [] && AllDigits(r)
  {
    if n < 10 then [DigitChar(n)] else NatToString(n / 10) + [DigitChar(n % 10)]
  }

  /** The value of a decimal numeral (the inverse of `NatToString`). */
  function ParseDecimal(s: string): nat
    requires AllDigits(s)
  {
    if s == [] then 0
    else ParseDecimal(s[..|s| - 1]) * 10 + (s[|s| - 1] as int - '0' as int)
  }

  lemma {:induction false} ParseNatToString(n: nat)
    ensures ParseDecimal(NatToString(n)) == n
  {
    if n >= 10 {
      var s := NatToString(n);
      assert s[..|s| - 1] == NatToString(n / 10);
      ParseNatToString(n / 10);
    }
  }

  /** Different numbers have different numerals. */
  lemma {:induction false} NatToStringInjective(m: nat, n: nat)
    ensures NatToString(m) == NatToString(n) ==> m == n
  {
    ParseNatToString(m);
    ParseNatToString(n);
  }
}
