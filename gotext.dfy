/** The pieces of Go's strings and strconv packages that vcs.go relies on,
    over strings of Unicode code points. */
module GoText {
  import opened Errors

  /** strings.HasPrefix */
  predicate HasPrefix(s: string, prefix: string)
    ensures HasPrefix(s, prefix) <==> exists t :: s == prefix + t
  {
    assert |prefix| <= |s| ==> s == s[..|prefix|] + s[|prefix|..];
    |prefix| <= |s| && s[..|prefix|] == prefix
  }

  /** strings.HasSuffix */
  predicate HasSuffix(s: string, suffix: string) {
    |suffix| <= |s| && s[|s| - |suffix|..] == suffix
  }

  /** A suffix of `t` stays a suffix when something is put in front of `t`. */
  lemma HasSuffixExtends(p: string, t: string, suffix: string)
    requires HasSuffix(t, suffix)
    ensures HasSuffix(p + t, suffix)
  {
    assert (p + t)[|p + t| - |suffix|..] == t[|t| - |suffix|..];
  }

  /** `w` occurs in `s` starting at index `at`. */
  predicate StartsAt(s: string, at: nat, w: string) {
    at + |w| <= |s| && s[at..at + |w|] == w
  }

  /** strings.TrimPrefix: drops one leading copy of `prefix`, if there is one. */
  function TrimPrefix(s: string, prefix: string): (r: string)
    ensures if HasPrefix(s, prefix) then prefix + r == s else r == s
  {
    if HasPrefix(s, prefix) then s[|prefix|..] else s
  }

  /** unicode.IsSpace: the Latin-1 spaces plus the White_Space property. */
  predicate IsSpace(c: char) {
    || c == '\t' || c == '\n' || c == '\U{000B}' || c == '\U{000C}' || c == '\r' || c == ' '
    || c == '\U{0085}' || c == '\U{00A0}' || c == '\U{1680}'
    || ('\U{2000}' <= c <= '\U{200A}')
    || c == '\U{2028}' || c == '\U{2029}' || c == '\U{202F}' || c == '\U{205F}' || c == '\U{3000}'
  }

  /** The leading white space of `s` removed: a suffix of `s` starting at a non-space. */
  function TrimLeftSpace(s: string): (r: string)
    ensures |r| <= |s| && r == s[|s| - |r|..]
    ensures forall k :: 0 <= k < |s| - |r| ==> IsSpace(s[k])
    ensures r == [] || !IsSpace(r[0])
  {
    if |s| > 0 && IsSpace(s[0]) then TrimLeftSpace(s[1..]) else s
  }

  /** The trailing white space of `s` removed: a prefix of `s` ending in a non-space. */
  function TrimRightSpace(s: string): (r: string)
    ensures |r| <= |s| && r == s[..|r|]
    ensures forall k :: |r| <= k < |s| ==> IsSpace(s[k])
    ensures r == [] || !IsSpace(r[|r| - 1])
  {
    if |s| > 0 && IsSpace(s[|s| - 1]) then TrimRightSpace(s[..|s| - 1]) else s
  }

  /** strings.TrimSpace: the slice of `s` between its leading white space (of length
      |s| - |TrimLeftSpace(s)|) and its trailing white space. */
  function TrimSpace(s: string): (r: string)
    ensures StartsAt(s, |s| - |TrimLeftSpace(s)|, r)
    ensures forall k :: 0 <= k < |s| - |TrimLeftSpace(s)| ==> IsSpace(s[k])
    ensures forall k :: |s| - |TrimLeftSpace(s)| + |r| <= k < |s| ==> IsSpace(s[k])
    ensures r == [] || (!IsSpace(r[0]) && !IsSpace(r[|r| - 1]))
  {
    TrimBothSlice(s);
    TrimBothTrailing(s);
    TrimBothEnds(s);
    TrimRightSpace(TrimLeftSpace(s))
  }

  /** Trimming both ends leaves a slice of `s`. */
  lemma TrimBothSlice(s: string)
    ensures StartsAt(s, |s| - |TrimLeftSpace(s)|, TrimRightSpace(TrimLeftSpace(s)))
  {
    var left := TrimLeftSpace(s);
    var r := TrimRightSpace(left);
    SliceOfSuffixPrefix(s, left, r);
  }

  /** After that slice, `s` holds only white space. */
  lemma TrimBothTrailing(s: string)
    ensures forall k :: |s| - |TrimLeftSpace(s)| + |TrimRightSpace(TrimLeftSpace(s))| <= k < |s| ==> IsSpace(s[k])
  {
    var left := TrimLeftSpace(s);
    var r := TrimRightSpace(left);
    SliceOfSuffixPrefix(s, left, r);
  }

  /** A prefix `r` of a suffix `left` of `s`, with only white space after `r` in `left`, is a
      slice of `s` with only white space after it. */
  lemma SliceOfSuffixPrefix(s: string, left: string, r: string)
    requires |left| <= |s| && left == s[|s| - |left|..]
    requires |r| <= |left| && r == left[..|r|]
    requires forall k :: |r| <= k < |left| ==> IsSpace(left[k])
    ensures StartsAt(s, |s| - |left|, r)
    ensures forall k :: |s| - |left| + |r| <= k < |s| ==> IsSpace(s[k])
  {
    var i := |s| - |left|;
    assert s[i..i + |r|] == left[..|r|];
    forall k | i + |r| <= k < |s|
      ensures IsSpace(s[k])
    {
      assert left[k - i] == s[k];
    }
  }

  /** Trimming both ends leaves nothing, or a text that starts and ends with a non-space. */
  lemma TrimBothEnds(s: string)
    ensures var r := TrimRightSpace(TrimLeftSpace(s));
            r == [] || (!IsSpace(r[0]) && !IsSpace(r[|r| - 1]))
  {
    var left := TrimLeftSpace(s);
    var r := TrimRightSpace(left);
    assert r == [] || r[0] == left[0];
  }

  /** Leading white space never hides a prefix that starts and ends with a non-space. */
  lemma TrimSpaceKeepsPrefix(ws: string, t: string, p: string)
    requires forall k :: 0 <= k < |ws| ==> IsSpace(ws[k])
    requires |p| > 0 && !IsSpace(p[0]) && !IsSpace(p[|p| - 1])
    requires HasPrefix(t, p)
    ensures HasPrefix(TrimSpace(ws + t), p)
  {
    var s := ws + t;
    var l := TrimLeftSpace(s);
    var cut := |s| - |l|;
    assert s[|ws|] == t[0] == p[0];
    assert cut == |ws|;
    assert l == t;
    var r := TrimRightSpace(t);
    assert t[|p| - 1] == p[|p| - 1];
    assert |p| <= |r|;
    assert r[..|p|] == t[..|p|];
  }

  predicate IsDigit(c: char) {
    '0' <= c <= '9'
  }

  predicate AllDigits(s: string) {
    forall k :: 0 <= k < |s| ==> IsDigit(s[k])
  }

  predicate IsHexDigit(c: char) {
    IsDigit(c) || 'a' <= c <= 'f' || 'A' <= c <= 'F'
  }

  function DigitChar(d: nat): (c: char)
    requires d < 10
    ensures IsDigit(c) && c as int - '0' as int == d
  {
    ('0' as int + d) as char
  }

  /** Decimal digits of `n`, most significant first, with no leading zero. */
  function NatToString(n: nat): (r: string)
    ensures |r| >= 1 && AllDigits(r)
    ensures r[0] == '0' ==> n == 0
    decreases n
  {
    if n < 10 then [DigitChar(n)] else NatToString(n / 10) + [DigitChar(n % 10)]
  }

  /** strconv.Itoa, and strconv.FormatInt(n, 10). */
  function Itoa(n: int): (r: string)
    ensures |r| >= 1
    ensures n < 0 <==> r[0] == '-'
  {
    if n < 0 then "-" + NatToString(-n) else NatToString(n)
  }

  /** The value of a non-empty string of decimal digits. */
  function DigitsValue(s: string): nat
    requires |s| >= 1 && AllDigits(s)
  {
    if |s| == 1 then s[0] as int - '0' as int
    else 10 * DigitsValue(s[..|s| - 1]) + (s[|s| - 1] as int - '0' as int)
  }

  /** Reads back an optionally negative decimal integer: the inverse of Itoa. */
  function ParseDecimal(s: string): Option<int> {
    if |s| >= 2 && s[0] == '-' && AllDigits(s[1..]) then Some(-(DigitsValue(s[1..]) as int))
    else if |s| >= 1 && AllDigits(s) then Some(DigitsValue(s))
    else None
  }

  lemma {:induction false} NatToStringValue(n: nat)
    ensures DigitsValue(NatToString(n)) == n
    decreases n
  {
    if n >= 10 {
      var s := NatToString(n);
      assert s[..|s| - 1] == NatToString(n / 10);
      NatToStringValue(n / 10);
    }
  }

  /** Itoa loses nothing: its text reads back as the same integer. */
  lemma ItoaRoundTrip(n: int)
    ensures ParseDecimal(Itoa(n)) == Some(n)
  {
    var s := Itoa(n);
    if n < 0 {
      var digits := NatToString(-n);
      assert s == "-" + digits;
      assert s[1..] == digits;
      assert |s| >= 2 && s[0] == '-' && AllDigits(s[1..]);
      NatToStringValue(-n);
    } else {
      assert s == NatToString(n);
      assert IsDigit(s[0]);
      NatToStringValue(n);
    }
  }

  /** Go's `/` on integers: the quotient truncated toward zero. */
  function TruncDiv(a: int, b: int): (q: int)
    requires b > 0
    ensures 0 <= a ==> 0 <= a - q * b < b
    ensures a < 0 ==> -b < a - q * b <= 0
  {
    if a >= 0 then a / b else -((-a) / b)
  }

  /** strings.Join */
  function JoinWith(elems: seq<string>, sep: string): (r: string)
    decreases |elems|
    ensures |elems| == 0 ==> r == ""
    ensures |elems| == 1 ==> r == elems[0]
    ensures |elems| > 0 ==> |r| == TotalLength(elems) + (|elems| - 1) * |sep|
    ensures |elems| > 0 ==> HasPrefix(r, elems[0]) && HasSuffix(r, elems[|elems| - 1])
  {
    if |elems| == 0 then ""
    else if |elems| == 1 then elems[0]
    else
      var rest := JoinWith(elems[1..], sep);
      assert HasSuffix(elems[0] + sep + rest, elems[|elems| - 1]) by {
        assert elems[1..][|elems| - 2] == elems[|elems| - 1];
        HasSuffixExtends(elems[0] + sep, rest, elems[|elems| - 1]);
      }
      elems[0] + sep + rest
  }

  /** The summed lengths of `elems`. */
  function TotalLength(elems: seq<string>): nat {
    if |elems| == 0 then 0 else |elems[0]| + TotalLength(elems[1..])
  }

  lemma Regroup(a: string, sep: string, j: string, x: string)
    ensures a + sep + (j + sep + x) == (a + sep + j) + sep + x
  {
  }

  /** Putting an element in front of a non-empty list puts it and the separator in front of the join. */
  lemma JoinWithCons(x: string, xs: seq<string>, sep: string)
    requires |xs| >= 1
    ensures JoinWith([x] + xs, sep) == x + sep + JoinWith(xs, sep)
  {
    assert ([x] + xs)[1..] == xs;
  }

  /** Appending an element to a non-empty list appends the separator and that element. With the
      one-element case this fixes the join: every element, in order, with `sep` between each pair. */
  lemma {:induction false} JoinWithAppend(elems: seq<string>, x: string, sep: string)
    requires |elems| >= 1
    ensures JoinWith(elems + [x], sep) == JoinWith(elems, sep) + sep + x
    decreases |elems|
  {
    if |elems| == 1 {
      assert elems + [x] == [elems[0]] + [x];
      JoinWithCons(elems[0], [x], sep);
    } else {
      var rest := elems[1..];
      assert elems == [elems[0]] + rest;
      assert elems + [x] == [elems[0]] + (rest + [x]);
      JoinWithCons(elems[0], rest + [x], sep);
      JoinWithAppend(rest, x, sep);
      JoinWithCons(elems[0], rest, sep);
      Regroup(elems[0], sep, JoinWith(rest, sep), x);
    }
  }
}
