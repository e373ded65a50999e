/** Splitting, joining and numerals, as the address parsers use them. */
module IpText {
  import opened Strings

  // Joining and splitting

  function Join(parts: seq<string>, separator: char): string {
    if |parts| == 0 then ""
    else if |parts| == 1 then parts[0]
    else Join(parts[..|parts| - 1], separator) + [separator] + parts[|parts| - 1]
  }

  function Split(s: string, separator: char): (parts: seq<string>)
    ensures |parts| > 0
  {
    if |s| == 0 then [""]
    else if s[|s| - 1] == separator then Split(s[..|s| - 1], separator) + [""]
    else
      var parts := Split(s[..|s| - 1], separator);
      parts[|parts| - 1 := parts[|parts| - 1] + [s[|s| - 1]]]
  }

  /** Splitting at every `::`, found from left to right without overlap. */
  function SplitPairs(s: string): (parts: seq<string>)
    ensures |parts| > 0
  {
    if |s| == 0 then [""]
    else if |s| >= 2 && s[0] == ':' && s[1] == ':' then [""] + SplitPairs(s[2..])
    else
      var parts := SplitPairs(s[1..]);
      parts[0 := [s[0]] + parts[0]]
  }

  ghost predicate Free(s: string, c: char) {
    forall k :: 0 <= k < |s| ==> s[k] != c
  }

  /** Appending text without separators extends the last part. */
  lemma {:induction false} SplitExtend(s: string, t: string, separator: char)
    requires Free(t, separator)
    ensures var parts := Split(s, separator);
      Split(s + t, separator) == parts[|parts| - 1 := parts[|parts| - 1] + t]
  {
    if |t| == 0 {
      assert s + t == s;
      assert Split(s, separator)[|Split(s, separator)| - 1] + t == Split(s, separator)[|Split(s, separator)| - 1];
    } else {
      var n := |t| - 1;
      assert (s + t)[..|s + t| - 1] == s + t[..n];
      SplitExtend(s, t[..n], separator);
      assert t[..n] + [t[n]] == t;
      var last := Split(s, separator)[|Split(s, separator)| - 1];
      assert (last + t[..n]) + [t[n]] == last + t;
    }
  }

  lemma SplitAppend(s: string, t: string, separator: char)
    requires Free(t, separator)
    ensures Split(s + [separator] + t, separator) == Split(s, separator) + [t]
  {
    var marked := s + [separator];
    assert marked[..|marked| - 1] == s;
    assert Split(marked, separator) == Split(s, separator) + [""];
    SplitExtend(marked, t, separator);
    assert "" + t == t;
  }

  lemma {:induction false} SplitJoin(parts: seq<string>, separator: char)
    requires |parts| > 0 && forall k :: 0 <= k < |parts| ==> Free(parts[k], separator)
    ensures Split(Join(parts, separator), separator) == parts
  {
    var n := |parts| - 1;
    if n == 0 {
      SplitExtend("", parts[0], separator);
      assert "" + parts[0] == parts[0];
    } else {
      var init, text := parts[..n], Join(parts[..n], separator);
      SplitJoin(init, separator);
      SplitAppend(text, parts[n], separator);
      assert Join(parts, separator) == text + [separator] + parts[n];
      assert init + [parts[n]] == parts;
    }
  }

  /** No `::` inside. */
  ghost predicate Single(s: string) {
    forall k :: 0 <= k < |s| - 1 ==> s[k] != ':' || s[k + 1] != ':'
  }

  lemma {:induction false} SplitPairsSingle(s: string)
    requires Single(s)
    ensures SplitPairs(s) == [s]
  {
    if |s| > 0 {
      SplitPairsSingle(s[1..]);
      assert [s[0]] + s[1..] == s;
    }
  }

  lemma {:induction false} SplitPairsOnce(a: string, b: string)
    requires Single(a) && Single(b) && (|a| > 0 ==> a[|a| - 1] != ':')
    ensures SplitPairs(a + "::" + b) == [a, b]
  {
    var s := a + "::" + b;
    if |a| == 0 {
      assert s[2..] == b;
      SplitPairsSingle(b);
    } else {
      assert s[1..] == a[1..] + "::" + b;
      assert |a| >= 2 ==> s[1] == a[1];
      SplitPairsOnce(a[1..], b);
      assert [a[0]] + a[1..] == a;
    }
  }

  /** Nonempty parts without colons, joined by single colons. */
  lemma {:induction false} JoinIsSingle(parts: seq<string>)
    requires forall k :: 0 <= k < |parts| ==> |parts[k]| > 0 && Free(parts[k], ':')
    ensures Single(Join(parts, ':'))
    ensures |parts| > 0 ==> |Join(parts, ':')| > 0 && Join(parts, ':')[0] != ':' && Join(parts, ':')[|Join(parts, ':')| - 1] != ':'
  {
    if |parts| > 1 {
      JoinIsSingle(parts[..|parts| - 1]);
    }
  }

  lemma {:induction false} JoinIsFree(parts: seq<string>, separator: char, c: char)
    requires c != separator && forall k :: 0 <= k < |parts| ==> Free(parts[k], c)
    ensures Free(Join(parts, separator), c)
  {
    if |parts| > 1 {
      JoinIsFree(parts[..|parts| - 1], separator, c);
    }
  }

  function LastIndexOf(s: string, c: char): (k: int)
    ensures -1 <= k < |s|
    ensures k >= 0 ==> s[k] == c
    ensures forall j :: k < j < |s| ==> s[j] != c
  {
    if |s| == 0 then -1
    else if s[|s| - 1] == c then |s| - 1
    else LastIndexOf(s[..|s| - 1], c)
  }

  // Numerals

  function DigitText(d: nat): char
    requires d < 16
  {
    "0123456789abcdef"[d]
  }

  predicate IsHexDigit(c: char) {
    '0' <= c <= '9' || 'a' <= c <= 'f' || 'A' <= c <= 'F'
  }

  function DigitValue(c: char): (d: nat)
    requires IsHexDigit(c)
    ensures d < 16
  {
    if '0' <= c <= '9' then c as int - '0' as int
    else if 'a' <= c <= 'f' then c as int - 'a' as int + 10
    else c as int - 'A' as int + 10
  }

  predicate AllHex(s: string) {
    forall k | 0 <= k < |s| :: IsHexDigit(s[k])
  }

  predicate IsSegment(s: string) {
    1 <= |s| <= 4 && AllHex(s)
  }

  function HexValue(s: string): nat
    requires AllHex(s)
  {
    if |s| == 0 then 0 else HexValue(s[..|s| - 1]) * 16 + DigitValue(s[|s| - 1])
  }

  /** Without leading zeros, in lower case. */
  function HexText(n: nat): string {
    if n < 16 then [DigitText(n)] else HexText(n / 16) + [DigitText(n % 16)]
  }

  function DecimalText(n: nat): string {
    if n < 10 then [DigitText(n)] else DecimalText(n / 10) + [DigitText(n % 10)]
  }

  predicate AllDecimal(s: string) {
    forall k | 0 <= k < |s| :: '0' <= s[k] <= '9'
  }

  lemma SegmentBound(s: string)
    requires IsSegment(s)
    ensures HexValue(s) < 0x10000
  {
    HexBound(s);
    Pow16Grows(|s|, 4);
  }

  lemma {:induction false} Pow16Grows(j: nat, k: nat)
    requires j <= k
    ensures Pow16(j) <= Pow16(k)
  {
    if j < k {
      Pow16Grows(j, k - 1);
    }
  }

  function Pow16(k: nat): nat {
    if k == 0 then 1 else 16 * Pow16(k - 1)
  }

  lemma {:induction false} HexBound(s: string)
    requires AllHex(s)
    ensures HexValue(s) < Pow16(|s|)
  {
    if |s| > 0 {
      HexBound(s[..|s| - 1]);
    }
  }

  lemma {:induction false} HexTextValue(n: nat)
    ensures AllHex(HexText(n)) && HexValue(HexText(n)) == n
  {
    if n < 16 {
      DigitRoundTrip(n);
      assert HexText(n)[..0] == "";
    } else {
      HexTextValue(n / 16);
      DigitRoundTrip(n % 16);
      var s := HexText(n);
      assert s[..|s| - 1] == HexText(n / 16);
      assert forall k :: 0 <= k < |s| - 1 ==> s[k] == HexText(n / 16)[k];
    }
  }

  lemma DigitRoundTrip(d: nat)
    requires d < 16
    ensures IsHexDigit(DigitText(d)) && DigitValue(DigitText(d)) == d
  {
  }

  lemma {:induction false} HexTextLength(n: nat, k: nat)
    requires n < Pow16(k + 1)
    ensures 1 <= |HexText(n)| <= k + 1
  {
    if n >= 16 {
      HexTextLength(n / 16, k - 1);
    }
  }

  lemma HexTextIsSegment(n: nat)
    requires n < 0x10000
    ensures IsSegment(HexText(n)) && HexValue(HexText(n)) == n
  {
    HexTextValue(n);
    HexTextLength(n, 3);
  }

  lemma {:induction false} DecimalTextDigits(n: nat)
    ensures |DecimalText(n)| > 0 && AllDecimal(DecimalText(n))
    ensures n < 1000 ==> |DecimalText(n)| <= 3
  {
    if n >= 10 {
      DecimalTextDigits(n / 10);
    }
  }

  function DecimalValue(s: string): nat
    requires AllDecimal(s)
  {
    if |s| == 0 then 0 else DecimalValue(s[..|s| - 1]) * 10 + (s[|s| - 1] as int - '0' as int)
  }

  lemma {:induction false} DecimalRoundTrip(n: nat)
    ensures AllDecimal(DecimalText(n)) && DecimalValue(DecimalText(n)) == n
  {
    DecimalTextDigits(n);
    if n < 10 {
      assert DecimalText(n)[..0] == "";
    } else {
      DecimalTextDigits(n / 10);
      DecimalRoundTrip(n / 10);
      assert DecimalText(n)[..|DecimalText(n)| - 1] == DecimalText(n / 10);
    }
  }

  lemma {:induction false} LowerKeepsHex(s: string)
    requires AllHex(s)
    ensures AllHex(Lower(s)) && HexValue(Lower(s)) == HexValue(s)
  {
    if |s| > 0 {
      LowerKeepsHex(s[..|s| - 1]);
      assert Lower(s)[..|s| - 1] == Lower(s[..|s| - 1]);
    }
  }

  lemma LowerConcat(a: string, b: string)
    ensures Lower(a + b) == Lower(a) + Lower(b)
  {
  }

  /** Lower-casing each part. */
  function LowerAll(parts: seq<string>): (r: seq<string>)
    ensures |r| == |parts| && forall k :: 0 <= k < |parts| ==> r[k] == Lower(parts[k])
  {
    seq(|parts|, k requires 0 <= k < |parts| => Lower(parts[k]))
  }

  lemma {:induction false} LowerJoin(parts: seq<string>)
    ensures Lower(Join(parts, ':')) == Join(LowerAll(parts), ':')
  {
    if |parts| > 1 {
      var n := |parts| - 1;
      LowerJoin(parts[..n]);
      assert LowerAll(parts)[..n] == LowerAll(parts[..n]);
      LowerConcat(Join(parts[..n], ':') + ":", parts[n]);
      LowerConcat(Join(parts[..n], ':'), ":");
    }
  }
}
