/**
  The parts of Go's `strings` and `fmt` packages that the bot relies on,
  over strings seen as sequences of Unicode code points.
*/
module GoStrings {

  /** `unicode.IsSpace`: the Unicode white-space code points. */
  predicate IsSpace(c: char) {
    c == ' ' || c == '\t' || c == '\n' || c == '\U{000B}' || c == '\U{000C}' || c == '\r'
    || c == '\U{0085}' || c == '\U{00A0}' || c == '\U{1680}'
    || ('\U{2000}' <= c <= '\U{200A}')
    || c == '\U{2028}' || c == '\U{2029}' || c == '\U{202F}' || c == '\U{205F}' || c == '\U{3000}'
  }

  /** Every code point of `s` from index `lo` up to `hi` is white space. */
  predicate SpaceBetween(s: string, lo: int, hi: int) {
    forall i :: lo <= i < hi && 0 <= i < |s| ==> IsSpace(s[i])
  }

  /** Neither the first nor the last code point is white space. */
  predicate NoSpaceEnds(s: string) {
    s == [] || (!IsSpace(s[0]) && !IsSpace(s[|s| - 1]))
  }

  /** Drops the leading white space: what remains is a suffix starting with a non-space. */
  function TrimLeft(s: string): (r: string)
    ensures |r| <= |s| && r == s[|s| - |r|..]
    ensures SpaceBetween(s, 0, |s| - |r|)
    ensures r == [] || !IsSpace(r[0])
  {
    if |s| > 0 && IsSpace(s[0]) then TrimLeft(s[1..]) else s
  }

  /** Drops the trailing white space: what remains is a prefix ending with a non-space. */
  function TrimRight(s: string): (r: string)
    ensures |r| <= |s| && r == s[..|r|]
    ensures SpaceBetween(s, |r|, |s|)
    ensures r == [] || !IsSpace(r[|r| - 1])
  {
    if |s| > 0 && IsSpace(s[|s| - 1]) then TrimRight(s[..|s| - 1]) else s
  }

  /** `strings.TrimSpace`: drops the white space at both ends. */
  function TrimSpace(s: string): (r: string)
    ensures NoSpaceEnds(r)
    ensures |r| <= |s|
  {
    TrimRight(TrimLeft(s))
  }

  /**
    What `TrimSpace` keeps is the infix of `s` at offset `i`, and everything it cuts
    away on either side is white space.
  */
  lemma TrimSpaceCutsOnlySpace(s: string) returns (i: nat)
    ensures i + |TrimSpace(s)| <= |s| && s[i..i + |TrimSpace(s)|] == TrimSpace(s)
    ensures SpaceBetween(s, 0, i) && SpaceBetween(s, i + |TrimSpace(s)|, |s|)
  {
    var l := TrimLeft(s);
    var r := TrimRight(l);
    assert TrimSpace(s) == r;
    i := |s| - |l|;
    assert SpaceBetween(s, 0, i);
    assert s[i..i + |r|] == l[..|r|] == r;
    SpaceInSuffix(s, i, |r|);
  }

  /** White space in the suffix of `s` from `i` on, seen from `s` itself. */
  lemma SpaceInSuffix(s: string, i: nat, n: nat)
    requires i <= |s| && SpaceBetween(s[i..], n, |s| - i)
    ensures SpaceBetween(s, i + n, |s|)
  {
    forall j | i + n <= j < |s| ensures IsSpace(s[j]) {
      assert s[j] == s[i..][j - i];
    }
  }

  /** Trimming is idempotent: a string without white space at its ends is left alone. */
  lemma TrimSpaceFixpoint(s: string)
    requires NoSpaceEnds(s)
    ensures TrimSpace(s) == s
  {
  }

  /** `strings.HasPrefix`. */
  predicate HasPrefix(s: string, prefix: string) {
    prefix <= s
  }

  /** `strings.TrimPrefix`: removes `prefix` once if `s` starts with it. */
  function TrimPrefix(s: string, prefix: string): (r: string)
    ensures HasPrefix(s, prefix) ==> prefix + r == s
    ensures !HasPrefix(s, prefix) ==> r == s
  {
    if HasPrefix(s, prefix) then s[|prefix|..] else s
  }

  /** The index of the first occurrence of `c`, or `|s|` when there is none. */
  function IndexOf(s: string, c: char): (i: nat)
    ensures i <= |s|
    ensures c !in s[..i]
    ensures i < |s| ==> s[i] == c
  {
    if |s| == 0 then 0
    else if s[0] == c then 0
    else 1 + IndexOf(s[1..], c)
  }

  /**
    `strings.SplitN(s, sep, 2)` for a one-character separator: the part before the
    first separator, and the rest after it when there is a separator at all.
    The head never contains the separator, and gluing the parts back gives `s`.
  */
  function SplitOnce(s: string, sep: char): (r: (string, seq<string>))
    ensures |r.1| <= 1
    ensures sep !in r.0
    ensures r.1 == [] ==> r.0 == s
    ensures r.1 != [] ==> s == r.0 + [sep] + r.1[0]
  {
    var i := IndexOf(s, sep);
    if i == |s| then (s, [])
    else
      assert s == s[..i] + [sep] + s[i + 1..];
      (s[..i], [s[i + 1..]])
  }

  /** `strings.Join`. */
  function Join(xs: seq<string>, sep: string): string {
    if |xs| == 0 then ""
    else if |xs| == 1 then xs[0]
    else Join(xs[..|xs| - 1], sep) + sep + xs[|xs| - 1]
  }

  /** `part` occurs in `text` starting at index `i`. */
  predicate OccursAt(text: string, part: string, i: nat) {
    i + |part| <= |text| && text[i..i + |part|] == part
  }

  /** `strings.Contains(text, part)`. */
  predicate Contains(text: string, part: string) {
    exists i: nat | i <= |text| :: OccursAt(text, part, i)
  }

  lemma ContainsInLeft(a: string, b: string, part: string)
    requires Contains(a, part)
    ensures Contains(a + b, part)
  {
    var i: nat :| i <= |a| && OccursAt(a, part, i);
    assert (a + b)[i..i + |part|] == part;
    assert OccursAt(a + b, part, i);
  }

  lemma ContainsInRight(a: string, b: string, part: string)
    requires Contains(b, part)
    ensures Contains(a + b, part)
  {
    var i: nat :| i <= |b| && OccursAt(b, part, i);
    assert (a + b)[|a| + i..|a| + i + |part|] == b[i..i + |part|];
    assert OccursAt(a + b, part, |a| + i);
  }

  lemma RightContained(a: string, b: string)
    ensures Contains(a + b, b)
  {
    assert (a + b)[|a|..|a| + |b|] == b;
    assert OccursAt(a + b, b, |a|);
  }

  /** Every element of a joined list occurs in the joined text. */
  lemma {:induction false} JoinContainsEach(xs: seq<string>, sep: string, k: nat)
    requires k < |xs|
    ensures Contains(Join(xs, sep), xs[k])
  {
    if |xs| == 1 {
      assert Join(xs, sep)[0..|xs[0]|] == xs[0];
      assert OccursAt(Join(xs, sep), xs[0], 0);
    } else if k == |xs| - 1 {
      RightContained(Join(xs[..|xs| - 1], sep) + sep, xs[k]);
    } else {
      JoinContainsEach(xs[..|xs| - 1], sep, k);
      ContainsInLeft(Join(xs[..|xs| - 1], sep), sep + xs[|xs| - 1], xs[k]);
      assert Join(xs[..|xs| - 1], sep) + (sep + xs[|xs| - 1]) == Join(xs, sep);
    }
  }

  predicate IsDigit(c: char) {
    '0' <= c <= '9'
  }

  function Digit(d: nat): (c: char)
    requires d < 10
    ensures IsDigit(c)
  {
    "0123456789"[d]
  }

  /** The decimal digits of `n`, most significant first, without leading zeros. */
  function DecimalDigits(n: nat): (r: string)
    ensures |r| >= 1
    ensures forall i :: 0 <= i < |r| ==> IsDigit(r[i])
    ensures |r| > 1 ==> r[0] != '0'
  {
    if n < 10 then [Digit(n)] else DecimalDigits(n / 10) + [Digit(n % 10)]
  }

  function DigitValue(c: char): (d: nat)
    requires IsDigit(c)
    ensures d < 10
  {
    (c as int) - ('0' as int)
  }

  /** Reads a string of decimal digits back as a number. */
  function DecimalValue(s: string): nat
    requires forall i :: 0 <= i < |s| ==> IsDigit(s[i])
  {
    if |s| == 0 then 0
    else DecimalValue(s[..|s| - 1]) * 10 + DigitValue(s[|s| - 1])
  }

  /** Printing a number in decimal and reading it back gives the number. */
  lemma {:induction false} DecimalRoundTrip(n: nat)
    ensures DecimalValue(DecimalDigits(n)) == n
  {
    if n >= 10 {
      DecimalRoundTrip(n / 10);
      var r := DecimalDigits(n);
      assert r[..|r| - 1] == DecimalDigits(n / 10);
    }
  }

  /** `fmt.Sprintf("%d", n)` for a Go integer. */
  function FormatInt(n: int): (r: string)
    ensures n >= 0 ==> && (forall i :: 0 <= i < |r| ==> IsDigit(r[i]))
                       && DecimalValue(r) == n
                       && (|r| > 1 ==> r[0] != '0')
    ensures n < 0 ==> && |r| >= 2 && r[0] == '-'
                      && (forall i :: 1 <= i < |r| ==> IsDigit(r[i]))
                      && DecimalValue(r[1..]) == -n
                      && (|r| > 2 ==> r[1] != '0')
  {
    if n < 0 then
      DecimalRoundTrip(-n);
      var d := DecimalDigits(-n);
      assert ("-" + d)[1..] == d;
      "-" + d
    else
      DecimalRoundTrip(n);
      DecimalDigits(n)
  }
}
