/** The few pieces of java.lang.String the core relies on: ASCII case folding
    (`toLowerCase`, `equalsIgnoreCase`), `trim`, `isBlank`, `split("\\s+", 2)`,
    `%d`, `String.join`, and a line splitter used to read replies back. */
module Text {

  // ---------------------------------------------------------------- case

  /** ASCII lower-casing of one character; every other character is left alone. */
  function LowerChar(c: char): char
  {
    if 'A' <= c <= 'Z' then (c as int + 32) as char else c
  }

  function Lower(s: string): (r: string)
    ensures |r| == |s|
    ensures forall i :: 0 <= i < |s| ==> r[i] == LowerChar(s[i])
  {
    seq(|s|, i requires 0 <= i < |s| => LowerChar(s[i]))
  }

  /** `a.equalsIgnoreCase(b)` restricted to ASCII letters. */
  predicate EqualsIgnoreCase(a: string, b: string)
  {
    Lower(a) == Lower(b)
  }

  // ---------------------------------------------------------------- white space

  /** The regular-expression class `\s`: space, \t, \n, \x0B, \f, \r. */
  predicate IsRegexSpace(c: char)
  {
    c == ' ' || 9 <= c as int <= 13
  }

  /** `Character.isWhitespace`: the ASCII controls 9-13 and 28-31, and every Unicode space,
      line or paragraph separator except the non-breaking ones (U+00A0, U+2007, U+202F). */
  predicate IsJavaWhitespace(c: char)
  {
    var n := c as int;
    (9 <= n <= 13) || (28 <= n <= 32) || n == 0x1680 || (0x2000 <= n <= 0x2006)
    || (0x2008 <= n <= 0x200A) || n == 0x2028 || n == 0x2029 || n == 0x205F || n == 0x3000
  }

  /** `s.isBlank()`: empty or white space only. */
  predicate IsBlank(s: string)
  {
    forall i :: 0 <= i < |s| ==> IsJavaWhitespace(s[i])
  }

  /** Leading characters `trim` removes: every code point up to U+0020. */
  function TrimStart(s: string): (r: string)
    ensures |r| <= |s| && r == s[|s| - |r|..]
    ensures forall k :: 0 <= k < |s| - |r| ==> s[k] <= ' '
    ensures r == [] || r[0] > ' '
  {
    if s != [] && s[0] <= ' ' then TrimStart(s[1..]) else s
  }

  function TrimEnd(s: string): (r: string)
    ensures |r| <= |s| && r == s[..|r|]
    ensures forall k :: |r| <= k < |s| ==> s[k] <= ' '
    ensures r == [] || r[|r| - 1] > ' '
  {
    if s != [] && s[|s| - 1] <= ' ' then TrimEnd(s[..|s| - 1]) else s
  }

  /** `s.trim()`: drops code points up to U+0020 at both ends. */
  function Trim(s: string): (r: string)
    ensures |r| <= |s|
    ensures r == [] || (r[0] > ' ' && r[|r| - 1] > ' ')
  {
    TrimEnd(TrimStart(s))
  }

  /** What `trim` removes is white space or control characters only, and what it keeps is
      one contiguous piece of the input. */
  lemma TrimInfix(s: string)
    ensures var off, r := |s| - |TrimStart(s)|, Trim(s);
      && off + |r| <= |s|
      && (forall i :: 0 <= i < |r| ==> r[i] == s[off + i])
      && (forall k :: 0 <= k < off ==> s[k] <= ' ')
      && (forall k :: off + |r| <= k < |s| ==> s[k] <= ' ')
  {
    var t := TrimStart(s);
    var r := TrimEnd(t);
    assert Trim(s) == r;
    PrefixOfSuffix(s, t, r);
  }

  /** A prefix `r` of a suffix `t` of `s` sits in `s` right after what `t` drops, and what
      `s` has after it is what `t` has after it. */
  lemma PrefixOfSuffix(s: string, t: string, r: string)
    requires |t| <= |s| && t == s[|s| - |t|..]
    requires |r| <= |t| && r == t[..|r|]
    requires forall k :: |r| <= k < |t| ==> t[k] <= ' '
    ensures forall i :: 0 <= i < |r| ==> r[i] == s[|s| - |t| + i]
    ensures forall k :: |s| - |t| + |r| <= k < |s| ==> s[k] <= ' '
  {
    var off := |s| - |t|;
    forall k | off + |r| <= k < |s| ensures s[k] <= ' ' {
      assert s[k] == t[k - off];
    }
    forall i | 0 <= i < |r| ensures r[i] == s[off + i] {
      assert r[i] == t[i];
    }
  }

  // ---------------------------------------------------------------- split("\\s+", 2)

  /** Length of the longest prefix of `t` free of `\s`. */
  function NonSpacePrefix(t: string): (k: nat)
    ensures k <= |t|
    ensures forall j :: 0 <= j < k ==> !IsRegexSpace(t[j])
    ensures k < |t| ==> IsRegexSpace(t[k])
  {
    if t == [] || IsRegexSpace(t[0]) then 0 else 1 + NonSpacePrefix(t[1..])
  }

  /** Length of the longest prefix of `t` made of `\s` only. */
  function SpacePrefix(t: string): (k: nat)
    ensures k <= |t|
    ensures forall j :: 0 <= j < k ==> IsRegexSpace(t[j])
    ensures k < |t| ==> !IsRegexSpace(t[k])
  {
    if t == [] || !IsRegexSpace(t[0]) then 0 else 1 + SpacePrefix(t[1..])
  }

  /** `t.split("\\s+", 2)`: the text before the first run of `\s`, and everything after
      that run (possibly empty); a single part when `t` holds no `\s` at all. */
  function Split2(t: string): (parts: seq<string>)
    ensures 1 <= |parts| <= 2
    ensures forall j :: 0 <= j < |parts[0]| ==> !IsRegexSpace(parts[0][j])
    ensures |parts| == 1 <==> forall j :: 0 <= j < |t| ==> !IsRegexSpace(t[j])
    ensures |parts| == 1 ==> parts[0] == t
    ensures |parts| == 2 ==>
      && |parts[0]| + |parts[1]| < |t|
      && t[..|parts[0]|] == parts[0]
      && t[|t| - |parts[1]|..] == parts[1]
      && (forall j :: |parts[0]| <= j < |t| - |parts[1]| ==> IsRegexSpace(t[j]))
      && (parts[1] == [] || !IsRegexSpace(parts[1][0]))
  {
    var k := NonSpacePrefix(t);
    if k == |t| then [t]
    else
      var rest := t[k..];
      var w := SpacePrefix(rest);
      assert forall j :: k <= j < k + w ==> t[j] == rest[j - k];
      [t[..k], rest[w..]]
  }

  // ---------------------------------------------------------------- numbers

  function DigitChar(d: nat): (c: char)
    requires d < 10
    ensures '0' <= c <= '9' && c as int - '0' as int == d
  {
    "0123456789"[d]
  }

  predicate IsDigits(s: string)
  {
    forall j :: 0 <= j < |s| ==> '0' <= s[j] <= '9'
  }

  /** Decimal digits of `n`, most significant first, without leading zeros. */
  function NatToString(n: nat): (r: string)
    ensures |r| >= 1 && IsDigits(r)
    ensures |r| > 1 ==> r[0] != '0'
  {
    if n < 10 then [DigitChar(n)] else NatToString(n / 10) + [DigitChar(n % 10)]
  }

  /** The value of a string of decimal digits. */
  function DigitsValue(s: string): nat
    requires IsDigits(s)
  {
    if s == [] then 0 else DigitsValue(s[..|s| - 1]) * 10 + (s[|s| - 1] as int - '0' as int)
  }

  /** Reading the digits back gives the number. */
  lemma {:induction false} NatToStringRoundTrip(n: nat)
    ensures DigitsValue(NatToString(n)) == n
  {
    if n >= 10 {
      NatToStringRoundTrip(n / 10);
      var s := NatToString(n);
      assert s[..|s| - 1] == NatToString(n / 10);
    }
  }

  /** `String.format("%d", n)`. */
  function IntToString(n: int): (r: string)
    ensures n >= 0 ==> IsDigits(r)
    ensures n < 0 ==> |r| >= 2 && r[0] == '-' && IsDigits(r[1..])
  {
    if n < 0 then "-" + NatToString(-n) else NatToString(n)
  }

  // ---------------------------------------------------------------- joining and splitting lines

  /** `String.join(sep, xs)` / `Collectors.joining(sep)`. */
  function Join(xs: seq<string>, sep: string): string
  {
    if |xs| == 0 then "" else if |xs| == 1 then xs[0] else xs[0] + sep + Join(xs[1..], sep)
  }

  function IndexOfChar(s: string, c: char): (k: nat)
    ensures k <= |s|
    ensures forall j :: 0 <= j < k ==> s[j] != c
    ensures k < |s| ==> s[k] == c
  {
    if s == [] || s[0] == c then 0 else 1 + IndexOfChar(s[1..], c)
  }

  /** Cuts `s` at every `c`, keeping empty pieces: the reading a client of a reply does. */
  function SplitOn(s: string, c: char): (r: seq<string>)
    ensures |r| >= 1
    decreases |s|
  {
    var k := IndexOfChar(s, c);
    if k == |s| then [s] else [s[..k]] + SplitOn(s[k + 1..], c)
  }

  lemma IndexOfCharAfter(p: string, c: char, q: string)
    requires forall j :: 0 <= j < |p| ==> p[j] != c
    ensures IndexOfChar(p + [c] + q, c) == |p|
  {
    var s := p + [c] + q;
    assert s[|p|] == c;
    assert forall j :: 0 <= j < |p| ==> s[j] == p[j];
  }

  /** A first line free of the separator comes off as the first piece. */
  lemma SplitOnCons(p: string, c: char, q: string)
    requires forall j :: 0 <= j < |p| ==> p[j] != c
    ensures SplitOn(p + [c] + q, c) == [p] + SplitOn(q, c)
  {
    var s := p + [c] + q;
    IndexOfCharAfter(p, c, q);
    assert s[..|p|] == p;
    assert s[|p| + 1..] == q;
  }

  /** A string holding no line break. */
  predicate SingleLine(s: string)
  {
    forall j :: 0 <= j < |s| ==> s[j] != '\n'
  }

  lemma SingleLineConcat(a: string, b: string)
    requires SingleLine(a) && SingleLine(b)
    ensures SingleLine(a + b)
  {
    assert forall j :: |a| <= j < |a + b| ==> (a + b)[j] == b[j - |a|];
  }

  /** Splitting joined lines gives the lines back, provided none holds the separator. */
  lemma {:induction false} SplitJoin(xs: seq<string>, c: char)
    requires |xs| >= 1
    requires forall i, j :: 0 <= i < |xs| && 0 <= j < |xs[i]| ==> xs[i][j] != c
    ensures SplitOn(Join(xs, [c]), c) == xs
  {
    if |xs| == 1 {
      assert forall j :: 0 <= j < |xs[0]| ==> xs[0][j] != c;
    } else {
      var rest := Join(xs[1..], [c]);
      var s := Join(xs, [c]);
      assert s == xs[0] + [c] + rest;
      IndexOfCharAfter(xs[0], c, rest);
      assert s[..|xs[0]|] == xs[0];
      assert s[|xs[0]| + 1..] == rest;
      SplitJoin(xs[1..], c);
    }
  }

  /** Splitting joined lines gives back every leading line free of the separator, then the
      split of the rest. */
  lemma {:induction false} SplitJoinHead(xs: seq<string>, n: nat, c: char)
    requires n < |xs|
    requires forall i, j :: 0 <= i < n && 0 <= j < |xs[i]| ==> xs[i][j] != c
    ensures SplitOn(Join(xs, [c]), c) == xs[..n] + SplitOn(Join(xs[n..], [c]), c)
  {
    if n > 0 {
      var rest := Join(xs[1..], [c]);
      calc {
        SplitOn(Join(xs, [c]), c);
        { assert Join(xs, [c]) == xs[0] + [c] + rest; }
        SplitOn(xs[0] + [c] + rest, c);
        { assert forall j :: 0 <= j < |xs[0]| ==> xs[0][j] != c;
          SplitOnCons(xs[0], c, rest); }
        [xs[0]] + SplitOn(rest, c);
        { SplitJoinHead(xs[1..], n - 1, c); }
        [xs[0]] + (xs[1..][..n - 1] + SplitOn(Join(xs[1..][n - 1..], [c]), c));
        { assert xs[1..][n - 1..] == xs[n..];
          assert xs[..n] == [xs[0]] + xs[1..][..n - 1]; }
        xs[..n] + SplitOn(Join(xs[n..], [c]), c);
      }
    }
  }
}
