/** The string operations the command handlers rely on, stated with Python's
    semantics: `str.strip()`, `str.replace(old, "", 1)`, `str.isdigit()`,
    `int(...)` on a digit string, `str(n)` on a natural number and
    `sep.join(lines)`. Strings are sequences of Unicode scalar values. */
module Text {

  import opened Optional

  // ---------------------------------------------------------------------
  // Whitespace and str.strip()
  // ---------------------------------------------------------------------

  /** Python's `str.isspace()` on one character: the code points that
      `str.strip()` with no argument removes. */
  predicate IsSpace(c: char) {
    var n := c as int;
    || 0x09 <= n <= 0x0D
    || 0x1C <= n <= 0x20
    || n == 0x85
    || n == 0xA0
    || n == 0x1680
    || 0x2000 <= n <= 0x200A
    || n == 0x2028
    || n == 0x2029
    || n == 0x202F
    || n == 0x205F
    || n == 0x3000
  }

  predicate AllSpace(s: string) {
    forall i :: 0 <= i < |s| ==> IsSpace(s[i])
  }

  /** True when `s` has no surrounding whitespace, i.e. `s.strip() == s`. */
  predicate Trimmed(s: string) {
    |s| == 0 || (!IsSpace(s[0]) && !IsSpace(s[|s| - 1]))
  }

  /** Drops leading whitespace. */
  function TrimStart(s: string): (r: string)
    ensures |r| <= |s|
  {
    if |s| > 0 && IsSpace(s[0]) then TrimStart(s[1..]) else s
  }

  /** Drops trailing whitespace. */
  function TrimEnd(s: string): (r: string)
    ensures |r| <= |s|
  {
    if |s| > 0 && IsSpace(s[|s| - 1]) then TrimEnd(s[..|s| - 1]) else s
  }

  /** `TrimStart` keeps a suffix of `s`, drops only whitespace, and leaves a
      string that does not start with whitespace. */
  lemma {:induction false} TrimStartIsSuffix(s: string)
    ensures var r := TrimStart(s);
      && r == s[|s| - |r|..]
      && AllSpace(s[..|s| - |r|])
      && (|r| == 0 || !IsSpace(r[0]))
  {
    if |s| > 0 && IsSpace(s[0]) {
      TrimStartIsSuffix(s[1..]);
      var r := TrimStart(s);
      assert s[..|s| - |r|] == [s[0]] + s[1..][..|s| - 1 - |r|];
    }
  }

  /** `TrimEnd` keeps a prefix of `s`, drops only whitespace, and leaves a
      string that does not end with whitespace. */
  lemma {:induction false} TrimEndIsPrefix(s: string)
    ensures var r := TrimEnd(s);
      && r == s[..|r|]
      && AllSpace(s[|r|..])
      && (|r| == 0 || !IsSpace(r[|r| - 1]))
  {
    if |s| > 0 && IsSpace(s[|s| - 1]) {
      var p := s[..|s| - 1];
      TrimEndIsPrefix(p);
      var r := TrimEnd(s);
      assert s[|r|..] == p[|r|..] + [s[|s| - 1]];
    }
  }

  /** Python's `s.strip()`: the result has no surrounding whitespace. */
  function Strip(s: string): (r: string)
    ensures |r| <= |s|
    ensures Trimmed(r)
  {
    var t := TrimStart(s);
    var r := TrimEnd(t);
    TrimStartIsSuffix(s);
    TrimEndIsPrefix(t);
    assert |r| > 0 ==> r[0] == t[0];
    r
  }

  /** What `strip` keeps is a contiguous slice of `s` with only whitespace on
      either side of it. */
  lemma StripIsPaddedSlice(s: string)
    ensures var r := Strip(s);
      exists k :: 0 <= k <= |s| - |r| && s[k..k + |r|] == r && AllSpace(s[..k]) && AllSpace(s[k + |r|..])
  {
    var t := TrimStart(s);
    var r := TrimEnd(t);
    TrimStartIsSuffix(s);
    TrimEndIsPrefix(t);
    var k := |s| - |t|;
    assert s[k..k + |r|] == r by {
      assert t == s[k..];
      assert r == t[..|r|];
      assert s[k..][..|r|] == s[k..k + |r|];
    }
    assert AllSpace(s[k + |r|..]) by {
      assert s[k + |r|..] == t[|r|..];
    }
  }

  /** `TrimStart` drops exactly a whitespace prefix in front of a string that
      does not start with whitespace. */
  lemma {:induction false} TrimStartDropsPadding(pre: string, rest: string)
    requires AllSpace(pre) && (|rest| == 0 || !IsSpace(rest[0]))
    ensures TrimStart(pre + rest) == rest
  {
    if |pre| > 0 {
      assert (pre + rest)[0] == pre[0];
      assert (pre + rest)[1..] == pre[1..] + rest;
      TrimStartDropsPadding(pre[1..], rest);
    } else {
      assert pre + rest == rest;
    }
  }

  /** `TrimEnd` drops exactly a whitespace suffix behind a string that does
      not end with whitespace. */
  lemma {:induction false} TrimEndDropsPadding(rest: string, post: string)
    requires AllSpace(post) && (|rest| == 0 || !IsSpace(rest[|rest| - 1]))
    ensures TrimEnd(rest + post) == rest
  {
    if |post| > 0 {
      var s := rest + post;
      assert s[|s| - 1] == post[|post| - 1];
      assert s[..|s| - 1] == rest + post[..|post| - 1];
      TrimEndDropsPadding(rest, post[..|post| - 1]);
    } else {
      assert rest + post == rest;
    }
  }

  /** `strip` removes exactly the whitespace around a trimmed string: the
      slice it keeps is the only one with these properties. */
  lemma StripOfPadded(pre: string, mid: string, post: string)
    requires AllSpace(pre) && AllSpace(post) && Trimmed(mid)
    ensures Strip(pre + mid + post) == mid
  {
    var s := pre + mid + post;
    assert s == pre + (mid + post);
    if |mid| > 0 {
      assert (mid + post)[0] == mid[0];
      TrimStartDropsPadding(pre, mid + post);
      TrimEndDropsPadding(mid, post);
    } else {
      assert mid + post == post;
      TrimStartDropsPadding(pre + post, "");
      assert pre + post + "" == s;
    }
  }

  /** Stripping twice is stripping once. */
  lemma StripIdempotent(s: string)
    ensures Strip(Strip(s)) == Strip(s)
  {
    TrimmedIsFixedPoint(Strip(s));
  }

  /** A string without surrounding whitespace is left alone by `strip`. */
  lemma TrimmedIsFixedPoint(s: string)
    requires Trimmed(s)
    ensures Strip(s) == s
  {
    assert TrimStart(s) == s;
    assert TrimEnd(s) == s;
  }

  /** A string that starts with a non-whitespace character keeps that first
      character through `strip`. */
  lemma StripKeepsFirst(s: string)
    requires |s| > 0 && !IsSpace(s[0])
    ensures |Strip(s)| > 0 && Strip(s)[0] == s[0]
  {
    assert TrimStart(s) == s;
    TrimEndIsPrefix(s);
  }

  // ---------------------------------------------------------------------
  // Substring search and str.replace(old, "", 1)
  // ---------------------------------------------------------------------

  /** `pat` occurs in `s` starting at index `i`. */
  predicate OccursAt(s: string, pat: string, i: int) {
    0 <= i && i + |pat| <= |s| && s[i..i + |pat|] == pat
  }

  /** The first index at or after `from` where `pat` occurs, if any. */
  function FindFrom(s: string, pat: string, from: nat): (r: Option<nat>)
    requires from <= |s|
    ensures r.Some? ==> from <= r.value && OccursAt(s, pat, r.value)
    ensures r.Some? ==> forall j :: from <= j < r.value ==> !OccursAt(s, pat, j)
    ensures r.None? ==> forall j :: from <= j <= |s| ==> !OccursAt(s, pat, j)
    decreases |s| - from
  {
    if from + |pat| > |s| then None
    else if s[from..from + |pat|] == pat then Some(from)
    else if from == |s| then None
    else FindFrom(s, pat, from + 1)
  }

  /** The index of the leftmost occurrence of `pat` in `s`, if any. */
  function FindFirst(s: string, pat: string): (r: Option<nat>)
    ensures r.Some? ==> OccursAt(s, pat, r.value)
    ensures r.Some? ==> forall j :: 0 <= j < r.value ==> !OccursAt(s, pat, j)
    ensures r.None? ==> forall j :: 0 <= j <= |s| ==> !OccursAt(s, pat, j)
  {
    FindFrom(s, pat, 0)
  }

  /** Python's `s.replace(pat, "", 1)`: removes the leftmost occurrence of
      `pat` and nothing else; without an occurrence `s` comes back unchanged. */
  function RemoveFirst(s: string, pat: string): (r: string)
    ensures (forall j :: 0 <= j <= |s| ==> !OccursAt(s, pat, j)) ==> r == s
    ensures forall i :: OccursAt(s, pat, i) && (forall j :: 0 <= j < i ==> !OccursAt(s, pat, j)) ==>
      r == s[..i] + s[i + |pat|..]
  {
    match FindFirst(s, pat)
    case None => s
    case Some(i) =>
      s[..i] + s[i + |pat|..]
  }

  /** Only the first occurrence is removed: a later occurrence that does not
      overlap it is still there afterwards, shifted left by `|pat|`. */
  lemma RemoveFirstKeepsLaterOccurrence(s: string, pat: string, i: nat, j: nat)
    requires OccursAt(s, pat, i) && forall k :: 0 <= k < i ==> !OccursAt(s, pat, k)
    requires i + |pat| <= j && OccursAt(s, pat, j)
    ensures OccursAt(RemoveFirst(s, pat), pat, j - |pat|)
  {
    FirstOccurrenceIsFound(s, pat, i);
    assert RemoveFirst(s, pat) == s[..i] + s[i + |pat|..];
    OccursAfterCut(s, pat, i, |pat|, j);
  }

  /** The leftmost occurrence is the one `FindFirst` reports. */
  lemma FirstOccurrenceIsFound(s: string, pat: string, i: nat)
    requires OccursAt(s, pat, i) && forall k :: 0 <= k < i ==> !OccursAt(s, pat, k)
    ensures FindFirst(s, pat) == Some(i)
  {
  }

  /** Cutting `s[i..i + n]` out of `s` shifts an occurrence behind the cut
      left by `n`. */
  lemma OccursAfterCut(s: string, pat: string, i: nat, n: nat, j: nat)
    requires i + n <= j && OccursAt(s, pat, j)
    ensures OccursAt(s[..i] + s[i + n..], pat, j - n)
  {
    var a := s[..i];
    var b := s[i + n..];
    assert (a + b)[j - n..j - n + |pat|] == b[j - n - i..j - n - i + |pat|];
  }

  // ---------------------------------------------------------------------
  // Digits: str.isdigit(), int(...) and str(n)
  // ---------------------------------------------------------------------

  predicate IsAsciiDigit(c: char) {
    '0' <= c <= '9'
  }

  /** `s.isdigit()` restricted to ASCII digits: non-empty, digits only. */
  predicate IsDigits(s: string) {
    |s| > 0 && forall i :: 0 <= i < |s| ==> IsAsciiDigit(s[i])
  }

  predicate AllDigits(s: string) {
    forall i :: 0 <= i < |s| ==> IsAsciiDigit(s[i])
  }

  function DigitValue(c: char): (d: nat)
    requires IsAsciiDigit(c)
    ensures d < 10
  {
    c as int - '0' as int
  }

  function DigitChar(d: nat): (c: char)
    requires d < 10
    ensures IsAsciiDigit(c) && DigitValue(c) == d
  {
    (d + '0' as int) as char
  }

  /** `int(s)` for a string of decimal digits, most significant first
      (leading zeros allowed, as in Python). */
  function ParseDecimal(s: string): nat
    requires AllDigits(s)
  {
    if |s| == 0 then 0
    else ParseDecimal(s[..|s| - 1]) * 10 + DigitValue(s[|s| - 1])
  }

  /** `str(n)`: the canonical decimal spelling of `n`, digits only and with
      no leading zero unless `n` is 0 itself. */
  function NatToString(n: nat): (r: string)
    ensures IsDigits(r)
    ensures r[0] == '0' ==> n == 0 && r == "0"
  {
    if n < 10 then [DigitChar(n)]
    else NatToString(n / 10) + [DigitChar(n % 10)]
  }

  /** Reading back the spelling of `n` gives `n`. */
  lemma {:induction false} ParseNatToString(n: nat)
    ensures ParseDecimal(NatToString(n)) == n
  {
    var s := NatToString(n);
    if n >= 10 {
      var p := NatToString(n / 10);
      assert s[..|s| - 1] == p;
      ParseNatToString(n / 10);
    }
  }

  /** A digit string whose first digit is not '0' denotes a positive number. */
  lemma {:induction false} ParsePositive(s: string)
    requires IsDigits(s) && s[0] != '0'
    ensures ParseDecimal(s) >= 1
  {
    if |s| > 1 {
      ParsePositive(s[..|s| - 1]);
    }
  }

  /** Spelling the value of a canonical digit string gives the string back. */
  lemma {:induction false} NatToStringOfParse(s: string)
    requires IsDigits(s) && (s[0] == '0' ==> |s| == 1)
    ensures NatToString(ParseDecimal(s)) == s
  {
    var n := ParseDecimal(s);
    if |s| > 1 {
      var p := s[..|s| - 1];
      ParsePositive(p);
      assert n / 10 == ParseDecimal(p) && n % 10 == DigitValue(s[|s| - 1]);
      NatToStringOfParse(p);
      assert s == p + [s[|s| - 1]];
    }
  }

  /** `int` ignores a leading zero: `int("0" + s) == int(s)`. */
  lemma {:induction false} LeadingZeroIgnored(s: string)
    requires AllDigits(s)
    ensures ParseDecimal("0" + s) == ParseDecimal(s)
  {
    if |s| > 0 {
      var p := s[..|s| - 1];
      assert ("0" + s)[..|s|] == "0" + p;
      LeadingZeroIgnored(p);
    }
  }

  // ---------------------------------------------------------------------
  // sep.join(lines)
  // ---------------------------------------------------------------------

  /** The summed length of `lines`. */
  function TotalLength(lines: seq<string>): nat {
    if |lines| == 0 then 0 else |lines[0]| + TotalLength(lines[1..])
  }

  /** Python's `sep.join(lines)`: the lines in order, one `sep` between each
      neighbouring pair and none at either end. */
  function Join(lines: seq<string>, sep: string): (r: string)
    ensures |lines| == 0 ==> r == ""
    ensures |lines| > 0 ==> |r| == TotalLength(lines) + (|lines| - 1) * |sep|
    ensures |lines| > 0 ==> |lines[0]| <= |r| && r[..|lines[0]|] == lines[0]
  {
    if |lines| == 0 then ""
    else if |lines| == 1 then lines[0]
    else lines[0] + sep + Join(lines[1..], sep)
  }

  /** Joining two non-empty runs of lines puts exactly one separator between
      them. */
  lemma {:induction false} JoinAppend(a: seq<string>, b: seq<string>, sep: string)
    requires |a| > 0 && |b| > 0
    ensures Join(a + b, sep) == Join(a, sep) + sep + Join(b, sep)
    decreases |a|
  {
    if |a| == 1 {
      assert (a + b)[1..] == b;
    } else {
      assert (a + b)[1..] == a[1..] + b;
      JoinAppend(a[1..], b, sep);
    }
  }

  /** A first and a last line around a non-empty body are each set off by
      one separator. */
  lemma JoinFramed(first: string, body: seq<string>, last: string, sep: string)
    requires |body| > 0
    ensures Join([first] + body + [last], sep) == first + sep + Join(body, sep) + sep + last
  {
    assert [first] + body + [last] == [first] + (body + [last]);
    JoinAppend([first], body + [last], sep);
    JoinAppend(body, [last], sep);
  }

  /** Framed this way, the joined text opens with the first line, a separator
      and the body's first line. */
  lemma JoinFramedStartsWith(first: string, body: seq<string>, last: string, sep: string)
    requires |body| > 0
    ensures var p := first + sep + body[0];
      |p| <= |Join([first] + body + [last], sep)| && Join([first] + body + [last], sep)[..|p|] == p
  {
    JoinFramed(first, body, last, sep);
    var joined := Join(body, sep);
    var whole := Join([first] + body + [last], sep);
    assert whole == (first + sep) + joined + (sep + last);
    PrefixThrough(whole, first + sep, joined, sep + last, |body[0]|);
  }

  /** A prefix of `a + b + c` that ends inside `b`. */
  lemma PrefixThrough<T>(w: seq<T>, a: seq<T>, b: seq<T>, c: seq<T>, k: nat)
    requires w == a + b + c && k <= |b|
    ensures |a| + k <= |w| && w[..|a| + k] == a + b[..k]
  {
  }

}
