/**
 * The parts of Go's standard library that the editor uses to build text:
 * `fmt.Sprintf("%d", i)`, `strings.Split` with a one-character separator,
 * `strings.Join`, and `html.EscapeString`. Each comes with an independent
 * partner (a parser, a character-wise reference, an unescaper) and a lemma
 * connecting the two.
 */
module GoText {
  import opened Wrappers

  // ---------------------------------------------------------------------
  // Positions of substrings
  // ---------------------------------------------------------------------

  /** `sub` occurs in `s` starting at index `k`. */
  predicate HasAt(s: string, k: int, sub: string) {
    0 <= k && k + |sub| <= |s| && s[k..k + |sub|] == sub
  }

  predicate StartsWith(s: string, prefix: string) {
    HasAt(s, 0, prefix)
  }

  predicate EndsWith(s: string, suffix: string) {
    |suffix| <= |s| && s[|s| - |suffix|..] == suffix
  }

  /** `sub` occurs somewhere in `s`. */
  ghost predicate Occurs(sub: string, s: string) {
    exists k :: HasAt(s, k, sub)
  }

  /** Both halves of a concatenation, where they stand. */
  lemma HasAtHalves(a: string, b: string)
    ensures HasAt(a + b, 0, a) && HasAt(a + b, |a|, b)
    ensures StartsWith(a + b, a) && EndsWith(a + b, b)
  {
    assert (a + b)[..|a|] == a;
    assert (a + b)[|a|..] == b;
    assert (a + b)[|a|..|a| + |b|] == b;
  }

  /** What stands in `a` stands at the same place in `a + b`. */
  lemma HasAtLeft(a: string, b: string, k: int, sub: string)
    requires HasAt(a, k, sub)
    ensures HasAt(a + b, k, sub)
  {
    assert (a + b)[k..k + |sub|] == a[k..k + |sub|];
  }

  /** What stands in `b` stands |a| further on in `a + b`. */
  lemma HasAtRight(a: string, b: string, k: int, sub: string)
    requires HasAt(b, k, sub)
    ensures HasAt(a + b, |a| + k, sub)
  {
    assert (a + b)[|a| + k..|a| + k + |sub|] == b[k..k + |sub|];
  }

  lemma EndsWithRight(a: string, b: string, suffix: string)
    requires EndsWith(b, suffix)
    ensures EndsWith(a + b, suffix)
  {
    assert (a + b)[|a + b| - |suffix|..] == b[|b| - |suffix|..];
  }

  /** What stands inside a substring stands in the whole string. */
  lemma HasAtWithin(s: string, k: int, sub: string, j: int, part: string)
    requires HasAt(s, k, sub) && HasAt(sub, j, part)
    ensures HasAt(s, k + j, part)
  {
    forall i | 0 <= i < |part|
      ensures s[k + j..k + j + |part|][i] == part[i]
    {
      assert sub[j + i] == part[i];
      assert s[k..k + |sub|][j + i] == s[k + j + i];
    }
  }

  lemma EndsWithExtend(a: string, suffix: string, b: string)
    requires EndsWith(a, suffix)
    ensures EndsWith(a + b, suffix + b)
  {
    assert (a + b)[|a + b| - |suffix + b|..] == a[|a| - |suffix|..] + b;
  }

  lemma HasAtConcat(pre: string, mid: string, post: string, k: int, sub: string)
    requires HasAt(mid, k, sub)
    ensures HasAt(pre + mid + post, |pre| + k, sub)
  {
    var s := pre + mid + post;
    assert s[|pre| + k..|pre| + k + |sub|] == mid[k..k + |sub|];
  }

  lemma OccursConcat(pre: string, mid: string, post: string, sub: string)
    requires Occurs(sub, mid)
    ensures Occurs(sub, pre + mid + post)
  {
    var k :| HasAt(mid, k, sub);
    HasAtConcat(pre, mid, post, k, sub);
  }

  /** The three consecutive parts of `p + m + q` stand where they were put. */
  lemma ThreeParts(p: string, m: string, q: string)
    ensures StartsWith(p + m + q, p) && HasAt(p + m + q, |p|, m) && EndsWith(p + m + q, q)
  {
    HasAtHalves(p, m);
    HasAtLeft(p + m, q, 0, p);
    HasAtLeft(p + m, q, |p|, m);
    HasAtHalves(p + m, q);
  }

  /** Below the length of a known ending, `s` ends `out` exactly when it ends that ending. */
  lemma EndsWithBoth(out: string, t: string, s: string)
    requires EndsWith(out, t) && |s| <= |t|
    ensures EndsWith(out, s) <==> EndsWith(t, s)
  {
    assert out[|out| - |s|..] == t[|t| - |s|..];
  }

  /** A string ending with `s` agrees with `s` on its last characters. */
  lemma EndsWithAt(out: string, s: string, i: int)
    requires EndsWith(out, s) && 1 <= i <= |s|
    ensures out[|out| - i] == s[|s| - i]
  {
    assert out[|out| - |s|..][|s| - i] == out[|out| - i];
  }

  /** A string whose `i`-th character from the end differs from that of `s` does not end with `s`. */
  lemma NotEndsWithAt(out: string, s: string, i: int)
    requires 1 <= i <= |s| && i <= |out| && out[|out| - i] != s[|s| - i]
    ensures !EndsWith(out, s)
  {
    if |s| <= |out| {
      assert out[|out| - |s|..][|s| - i] == out[|out| - i];
    }
  }

  // ---------------------------------------------------------------------
  // fmt.Sprintf("%d", i)
  // ---------------------------------------------------------------------

  predicate IsDigit(c: char) {
    '0' <= c <= '9'
  }

  predicate AllDigits(s: string) {
    forall j :: 0 <= j < |s| ==> IsDigit(s[j])
  }

  function DigitChar(d: nat): (c: char)
    requires d < 10
    ensures IsDigit(c) && c as int - '0' as int == d
  {
    ('0' as int + d) as char
  }

  function DigitValue(c: char): (d: nat)
    requires IsDigit(c)
    ensures d < 10 && DigitChar(d) == c
  {
    c as int - '0' as int
  }

  /** The decimal digits of `n`, most significant first, with no leading zero. */
  function NatDigits(n: nat): (s: string)
    ensures |s| >= 1 && AllDigits(s)
    ensures s[0] == '0' ==> n == 0
    decreases n
  {
    if n < 10 then [DigitChar(n)] else NatDigits(n / 10) + [DigitChar(n % 10)]
  }

  /** What `fmt.Sprintf("%d", i)` produces: an optional minus sign, then the digits. */
  function Decimal(i: int): (s: string)
    ensures |s| >= 1
    ensures i >= 0 ==> AllDigits(s)
    ensures i < 0 ==> s[0] == '-' && AllDigits(s[1..])
  {
    if i < 0 then "-" + NatDigits(-i) else NatDigits(i)
  }

  /** The value of a non-empty string of digits. */
  function DigitsValue(s: string): nat
    requires |s| >= 1 && AllDigits(s)
  {
    if |s| == 1 then DigitValue(s[0])
    else DigitsValue(s[..|s| - 1]) * 10 + DigitValue(s[|s| - 1])
  }

  /** A reference reader of decimal integers, the partner of `Decimal`. */
  function ParseDecimal(s: string): Option<int> {
    if |s| >= 1 && AllDigits(s) then Some(DigitsValue(s))
    else if |s| >= 2 && s[0] == '-' && AllDigits(s[1..]) then Some(0 - DigitsValue(s[1..]))
    else None
  }

  lemma {:induction false} DigitsRoundTrip(n: nat)
    ensures DigitsValue(NatDigits(n)) == n
    decreases n
  {
    if n >= 10 {
      DigitsRoundTrip(n / 10);
      var s := NatDigits(n);
      assert s[..|s| - 1] == NatDigits(n / 10);
    }
  }

  /** Reading back what `fmt.Sprintf("%d", i)` wrote gives `i`. */
  lemma DecimalRoundTrip(i: int)
    ensures ParseDecimal(Decimal(i)) == Some(i)
  {
    if i < 0 {
      DigitsRoundTrip(-i);
      assert Decimal(i)[1..] == NatDigits(-i);
      assert !IsDigit(Decimal(i)[0]);
    } else {
      DigitsRoundTrip(i);
    }
  }

  /** Distinct integers have distinct decimal forms. */
  lemma DecimalInjective(i: int, j: int)
    ensures Decimal(i) == Decimal(j) ==> i == j
  {
    DecimalRoundTrip(i);
    DecimalRoundTrip(j);
  }

  // ---------------------------------------------------------------------
  // strings.Split(s, sep) for a one-character separator, strings.Join
  // ---------------------------------------------------------------------

  /**
   * The pieces of `s` between occurrences of `sep`. Like Go's
   * `strings.Split`, the empty string splits into one empty piece.
   */
  function Split(s: string, sep: char): (parts: seq<string>)
    ensures |parts| >= 1
    ensures forall j :: 0 <= j < |parts| ==> sep !in parts[j]
  {
    if s == [] then [""]
    else
      var rest := Split(s[1..], sep);
      if s[0] == sep then [""] + rest else [[s[0]] + rest[0]] + rest[1..]
  }

  /** Go's `strings.Join`: the parts with `sep` between neighbours. */
  function Join(parts: seq<string>, sep: string): string {
    if |parts| == 0 then ""
    else if |parts| == 1 then parts[0]
    else parts[0] + sep + Join(parts[1..], sep)
  }

  /** `s` with every `from` replaced by `to`, character by character. */
  function ReplaceChar(s: string, from: char, to: char): (r: string)
    ensures |r| == |s|
    ensures forall j :: 0 <= j < |s| ==> r[j] == (if s[j] == from then to else s[j])
  {
    if s == [] then [] else [if s[0] == from then to else s[0]] + ReplaceChar(s[1..], from, to)
  }

  lemma JoinPrepend(c: char, parts: seq<string>, sep: string)
    requires |parts| >= 1
    ensures Join([[c] + parts[0]] + parts[1..], sep) == [c] + Join(parts, sep)
  {
    var q := [[c] + parts[0]] + parts[1..];
    if |parts| > 1 {
      assert q[1..] == parts[1..];
    }
  }

  /**
   * Splitting at `sep` and joining with `to` is replacing `sep` by `to`:
   * splitting at spaces and joining with hyphens turns every space into a hyphen.
   */
  lemma {:induction false} JoinSplit(s: string, sep: char, to: char)
    ensures Join(Split(s, sep), [to]) == ReplaceChar(s, sep, to)
  {
    if s != [] {
      var rest := Split(s[1..], sep);
      JoinSplit(s[1..], sep, to);
      if s[0] == sep {
        assert ([""] + rest)[1..] == rest;
      } else {
        JoinPrepend(s[0], rest, [to]);
      }
    }
  }

  /** Joining the pieces back with the separator restores the string. */
  lemma SplitJoinRoundTrip(s: string, sep: char)
    ensures Join(Split(s, sep), [sep]) == s
  {
    JoinSplit(s, sep, sep);
    assert ReplaceChar(s, sep, sep) == s;
  }

  // ---------------------------------------------------------------------
  // html.EscapeString
  // ---------------------------------------------------------------------

  function EscapeChar(c: char): string {
    match c
    case '<' => "&lt;"
    case '>' => "&gt;"
    case '&' => "&amp;"
    case '\'' => "&#39;"
    case '"' => "&#34;"
    case _ => [c]
  }

  /**
   * Go's `html.EscapeString`: each of the five characters `<`, `>`, `&`,
   * `'` and `"` becomes an entity, every other character is kept.
   */
  function Escape(s: string): string {
    if s == [] then [] else EscapeChar(s[0]) + Escape(s[1..])
  }

  /** A character that can stand inside a quoted attribute value or element text. */
  predicate IsInert(c: char) {
    c != '<' && c != '>' && c != '"' && c != '\''
  }

  /** The partner of `Escape`: turns the five entities back into characters. */
  function Unescape(s: string): string {
    if s == [] then []
    else if StartsWith(s, "&lt;") then "<" + Unescape(s[4..])
    else if StartsWith(s, "&gt;") then ">" + Unescape(s[4..])
    else if StartsWith(s, "&amp;") then "&" + Unescape(s[5..])
    else if StartsWith(s, "&#39;") then "'" + Unescape(s[5..])
    else if StartsWith(s, "&#34;") then "\"" + Unescape(s[5..])
    else [s[0]] + Unescape(s[1..])
  }

  /** Escaped text contains none of `<`, `>`, `"`, `'`. */
  lemma {:induction false} EscapeIsInert(s: string)
    ensures forall j :: 0 <= j < |Escape(s)| ==> IsInert(Escape(s)[j])
  {
    if s != [] {
      EscapeIsInert(s[1..]);
      var e := EscapeChar(s[0]);
      assert forall j :: 0 <= j < |e| ==> IsInert(e[j]);
    }
  }

  /** Unescaping one escaped character, followed by any text. */
  lemma UnescapeChar(c: char, rest: string)
    ensures Unescape(EscapeChar(c) + rest) == [c] + Unescape(rest)
  {
    match c
    case '<' => UnescapeLt(rest);
    case '>' => UnescapeGt(rest);
    case '&' => UnescapeAmp(rest);
    case '\'' => UnescapeApos(rest);
    case '"' => UnescapeQuot(rest);
    case _ => UnescapePlain(c, rest);
  }

  lemma UnescapeLt(rest: string)
    ensures Unescape("&lt;" + rest) == "<" + Unescape(rest)
  {
    var t := "&lt;" + rest;
    assert t[..4] == "&lt;" && t[4..] == rest;
  }

  lemma UnescapeGt(rest: string)
    ensures Unescape("&gt;" + rest) == ">" + Unescape(rest)
  {
    var t := "&gt;" + rest;
    assert t[1] == 'g';
    assert t[..4] == "&gt;" && t[4..] == rest;
  }

  lemma UnescapeAmp(rest: string)
    ensures Unescape("&amp;" + rest) == "&" + Unescape(rest)
  {
    var t := "&amp;" + rest;
    assert t[1] == 'a';
    assert t[..5] == "&amp;" && t[5..] == rest;
  }

  lemma UnescapeApos(rest: string)
    ensures Unescape("&#39;" + rest) == "'" + Unescape(rest)
  {
    var t := "&#39;" + rest;
    assert t[1] == '#';
    assert t[..5] == "&#39;" && t[5..] == rest;
  }

  lemma UnescapeQuot(rest: string)
    ensures Unescape("&#34;" + rest) == "\"" + Unescape(rest)
  {
    var t := "&#34;" + rest;
    NotStartsWithAt(t, "&lt;", 1);
    NotStartsWithAt(t, "&gt;", 1);
    NotStartsWithAt(t, "&amp;", 1);
    NotStartsWithAt(t, "&#39;", 3);
    assert t[..5] == "&#34;" && t[5..] == rest;
  }

  lemma UnescapePlain(c: char, rest: string)
    requires c != '&'
    ensures Unescape([c] + rest) == [c] + Unescape(rest)
  {
    var t := [c] + rest;
    NotStartsWithAt(t, "&lt;", 0);
    NotStartsWithAt(t, "&gt;", 0);
    NotStartsWithAt(t, "&amp;", 0);
    NotStartsWithAt(t, "&#39;", 0);
    NotStartsWithAt(t, "&#34;", 0);
    assert t[1..] == rest;
  }

  lemma NotStartsWithAt(s: string, p: string, i: int)
    requires 0 <= i < |p| && i < |s| && s[i] != p[i]
    ensures !StartsWith(s, p)
  {
    if |p| <= |s| {
      assert s[..|p|][i] == s[i];
    }
  }

  /** Unescaping escaped text gives the text back. */
  lemma {:induction false} EscapeRoundTrip(s: string)
    ensures Unescape(Escape(s)) == s
  {
    if s != [] {
      EscapeRoundTrip(s[1..]);
      UnescapeChar(s[0], Escape(s[1..]));
    }
  }
}
