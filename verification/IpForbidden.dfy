/** Which addresses are refused: every forbidden block, written out over octets and groups. */
module IpForbidden {
  import opened Wrappers
  import opened Bits
  import opened IpText
  import opened IpAddress
  import opened IpRouting

  predicate RefusedQuad(q: Quad) {
    || q.a in {0, 10, 127} || q.a >= 224
    || (q.a == 100 && 64 <= q.b < 128)
    || (q.a == 169 && q.b == 254)
    || (q.a == 172 && 16 <= q.b < 32)
    || (q.a == 192 && (q.b == 168 || (q.b == 0 && q.c in {0, 2}) || (q.b == 31 && q.c == 196) || (q.b == 52 && q.c == 193) ||
                       (q.b == 88 && q.c == 99) || (q.b == 175 && q.c == 48)))
    || (q.a == 198 && (q.b in {18, 19} || (q.b == 51 && q.c == 100)))
    || (q.a == 203 && q.b == 0 && q.c == 113)
  }

  /** Eight groups of sixteen bits. */
  predicate Address6(g: seq<nat>) {
    |g| == 8 && forall k | 0 <= k < 8 :: g[k] < 0x10000
  }

  predicate Mapped(g: seq<nat>) {
    |g| == 8 && g[..6] == [0, 0, 0, 0, 0, 0xffff]
  }

  /** The unspecified and loopback addresses lie in the first block. */
  predicate RefusedNetwork(g: seq<nat>)
    requires Address6(g)
  {
    || g[..6] == [0, 0, 0, 0, 0, 0]
    || g[..3] == [0x64, 0xff9b, 1]
    || g[..4] == [0x100, 0, 0, 0]
    || (g[0] == 0x2001 && (g[1] == 0 || (g[1] == 2 && g[2] == 0) || 0x10 <= g[1] < 0x30 || g[1] == 0xdb8))
    || g[0] == 0x2002
    || 0xfc00 <= g[0] < 0xfe00
    || 0xfe80 <= g[0] < 0xfec0
    || g[0] >= 0xff00
  }

  /** A mapped address is refused with its dotted quad. */
  predicate RefusedGroups(g: seq<nat>)
    requires Address6(g)
  {
    RefusedNetwork(g) || (Mapped(g) && RefusedQuad(Quad(g[6] / 256, g[6] % 256, g[7] / 256, g[7] % 256)))
  }

  // IPv4

  lemma ShortPowers()
    ensures Pow2(0) == 1 && Pow2(4) == 16 && Pow2(6) == 64 && Pow2(8) == 0x100 && Pow2(9) == 0x200
  {
    Pow2Sum(4, 4);
    Pow2Sum(6, 3);
  }

  lemma BlockSizes()
    ensures Pow2(24) == 0x100_0000 && Pow2(22) == 0x40_0000 && Pow2(16) == 0x1_0000 && Pow2(20) == 0x10_0000
    ensures Pow2(8) == 0x100 && Pow2(17) == 0x2_0000 && Pow2(28) == 0x1000_0000
  {
    Pow2Of32();
    Pow2Sum(16, 8);
    Pow2Sum(16, 6);
    Pow2Sum(16, 4);
    Pow2Sum(16, 1);
    Pow2Sum(24, 4);
    ShortPowers();
  }

  lemma WideBlocks(q: Quad)
    ensures var v := QuadValue(q);
      && (InBlock4(v, (Quad(0, 0, 0, 0), 8)) <==> q.a == 0)
      && (InBlock4(v, (Quad(10, 0, 0, 0), 8)) <==> q.a == 10)
      && (InBlock4(v, (Quad(127, 0, 0, 0), 8)) <==> q.a == 127)
      && (InBlock4(v, (Quad(224, 0, 0, 0), 4)) <==> 224 <= q.a < 240)
      && (InBlock4(v, (Quad(240, 0, 0, 0), 4)) <==> 240 <= q.a)
  {
    hide Pow2;
    BlockSizes();
  }

  lemma PairBlocks(q: Quad)
    ensures var v := QuadValue(q);
      && (InBlock4(v, (Quad(169, 254, 0, 0), 16)) <==> q.a == 169 && q.b == 254)
      && (InBlock4(v, (Quad(192, 168, 0, 0), 16)) <==> q.a == 192 && q.b == 168)
  {
    hide Pow2;
    BlockSizes();
  }

  lemma SharedBlock(q: Quad)
    ensures InBlock4(QuadValue(q), (Quad(100, 64, 0, 0), 10)) <==> q.a == 100 && 64 <= q.b < 128
  {
    hide Pow2;
    BlockSizes();
  }

  lemma PrivateBlock(q: Quad)
    ensures InBlock4(QuadValue(q), (Quad(172, 16, 0, 0), 12)) <==> q.a == 172 && 16 <= q.b < 32
  {
    hide Pow2;
    BlockSizes();
  }

  lemma BenchmarkBlock(q: Quad)
    ensures InBlock4(QuadValue(q), (Quad(198, 18, 0, 0), 15)) <==> q.a == 198 && q.b in {18, 19}
  {
    hide Pow2;
    BlockSizes();
  }

  lemma MiddleBlocks(q: Quad)
    ensures var v := QuadValue(q);
      && (InBlock4(v, (Quad(100, 64, 0, 0), 10)) <==> q.a == 100 && 64 <= q.b < 128)
      && (InBlock4(v, (Quad(169, 254, 0, 0), 16)) <==> q.a == 169 && q.b == 254)
      && (InBlock4(v, (Quad(172, 16, 0, 0), 12)) <==> q.a == 172 && 16 <= q.b < 32)
      && (InBlock4(v, (Quad(192, 168, 0, 0), 16)) <==> q.a == 192 && q.b == 168)
      && (InBlock4(v, (Quad(198, 18, 0, 0), 15)) <==> q.a == 198 && q.b in {18, 19})
  {
    hide InBlock4, QuadValue;
    PairBlocks(q);
    SharedBlock(q);
    PrivateBlock(q);
    BenchmarkBlock(q);
  }

  lemma SameTriple(q: Quad, a: Octet, b: Octet, c: Octet)
    ensures (q.a * 256 + q.b) * 256 + q.c == (a * 256 + b) * 256 + c <==> q.a == a && q.b == b && q.c == c
  {
  }

  lemma InBlockOf256(x: nat, d: Octet, y: nat)
    ensures InBlock(x * 256 + d, y * 256, 256) <==> x == y
  {
  }

  /** A block of 256 addresses is given by its first three octets. */
  lemma NarrowBlock(q: Quad, a: Octet, b: Octet, c: Octet)
    ensures InBlock4(QuadValue(q), (Quad(a, b, c, 0), 24)) <==> q.a == a && q.b == b && q.c == c
  {
    hide Pow2, InBlock;
    BlockSizes();
    SameTriple(q, a, b, c);
    InBlockOf256((q.a * 256 + q.b) * 256 + q.c, q.d, (a * 256 + b) * 256 + c);
  }

  lemma NarrowBlocks(q: Quad)
    ensures var v := QuadValue(q);
      forall a: Octet, b: Octet, c: Octet ::
        InBlock4(v, (Quad(a, b, c, 0), 24)) <==> q.a == a && q.b == b && q.c == c
  {
    hide InBlock4;
    forall a: Octet, b: Octet, c: Octet
      ensures InBlock4(QuadValue(q), (Quad(a, b, c, 0), 24)) <==> q.a == a && q.b == b && q.c == c
    {
      NarrowBlock(q, a, b, c);
    }
  }

  lemma BlocksAreRefused(q: Quad, k: nat)
    requires k < |IPV4_FORBIDDEN_RANGES| && Ranges4(IPV4_FORBIDDEN_RANGES) && InBlock4(QuadValue(q), IPV4_FORBIDDEN_RANGES[k])
    ensures RefusedQuad(q)
  {
    WideBlocks(q);
    MiddleBlocks(q);
    NarrowBlocks(q);
    hide InBlock4, Ranges4, QuadValue;
  }

  lemma RefusedInBlock(q: Quad)
    requires Ranges4(IPV4_FORBIDDEN_RANGES) && RefusedQuad(q)
    ensures InSomeBlock4(QuadValue(q), IPV4_FORBIDDEN_RANGES)
  {
    hide InBlock4, Ranges4, QuadValue;
    var v, ranges := QuadValue(q), IPV4_FORBIDDEN_RANGES;
    if q.a in {0, 10, 127} || q.a >= 224 {
      WideBlocks(q);
      assert InBlock4(v, ranges[0]) || InBlock4(v, ranges[1]) || InBlock4(v, ranges[3]) || InBlock4(v, ranges[16]) ||
             InBlock4(v, ranges[17]);
    } else if q.a in {100, 169, 172} || (q.a == 192 && q.b == 168) || (q.a == 198 && q.b < 20) {
      MiddleBlocks(q);
      assert InBlock4(v, ranges[2]) || InBlock4(v, ranges[4]) || InBlock4(v, ranges[5]) || InBlock4(v, ranges[11]) ||
             InBlock4(v, ranges[13]);
    } else {
      NarrowBlocks(q);
      assert InBlock4(v, ranges[6]) || InBlock4(v, ranges[7]) || InBlock4(v, ranges[8]) || InBlock4(v, ranges[9]) ||
             InBlock4(v, ranges[10]) || InBlock4(v, ranges[12]) || InBlock4(v, ranges[14]) || InBlock4(v, ranges[15]);
    }
  }

  /** A dotted quad is refused exactly in one of the listed blocks. */
  lemma QuadRefused(q: Quad)
    ensures RoutableValue4(QuadValue(q)) <==> !RefusedQuad(q)
  {
    hide InBlock4, RefusedQuad;
    TablesAreRanges();
    if k: nat :| k < |IPV4_FORBIDDEN_RANGES| && InBlock4(QuadValue(q), IPV4_FORBIDDEN_RANGES[k]) {
      BlocksAreRefused(q, k);
    }
    if RefusedQuad(q) {
      RefusedInBlock(q);
    }
  }

  /** A dotted quad is globally routable exactly outside those blocks. */
  lemma QuadVerdict(p: Platform, q: Quad)
    requires ReadsOctets(p) && KnowsFamilies(p)
    ensures IsGloballyRoutable(p, QuadText(q)) == Success(!RefusedQuad(q))
  {
    QuadVerdictIsNumeric(p, q);
    QuadRefused(q);
    hide IsGloballyRoutable, RoutableValue4, RefusedQuad;
  }

  // IPv6

  lemma LastGroup(g: seq<nat>)
    requires |g| > 0
    ensures Positional(g) == Positional(g[..|g| - 1]) * 0x10000 + g[|g| - 1]
  {
  }

  lemma {:induction false} DroppedTwice(v: nat, j: nat, k: nat)
    ensures Dropped(v, j + k) == Dropped(Dropped(v, j), k)
  {
    if j > 0 {
      DroppedTwice(v / 2, j - 1, k);
    }
  }

  lemma TwoQuotients(v: nat, j: nat, k: nat)
    ensures v / Pow2(j + k) == v / Pow2(j) / Pow2(k)
  {
    DroppedTwice(v, j, k);
    DroppedIsQuotient(v, j);
    DroppedIsQuotient(v / Pow2(j), k);
    DroppedIsQuotient(v, j + k);
  }

  /** Dropping low bits in whole groups drops groups. */
  lemma {:induction false} GroupsDropped(g: seq<nat>, n: nat)
    requires n <= |g| && forall k :: 0 <= k < |g| ==> g[k] < 0x10000
    ensures Positional(g) / Pow2(16 * (|g| - n)) == Positional(g[..n])
    decreases |g|
  {
    if n < |g| {
      var m := |g| - 1;
      Quotient(Positional(g), 0x10000, Positional(g[..m]), g[m]);
      GroupsDropped(g[..m], n);
      assert g[..m][..n] == g[..n];
      Pow2Of32();
      TwoQuotients(Positional(g), 16, 16 * (m - n));
    } else {
      assert g[..n] == g;
    }
  }

  lemma {:induction false} SameGroups(g: seq<nat>, h: seq<nat>)
    requires |g| == |h| && (forall k :: 0 <= k < |g| ==> g[k] < 0x10000) && (forall k :: 0 <= k < |h| ==> h[k] < 0x10000)
    ensures Positional(g) == Positional(h) <==> g == h
  {
    if |g| > 0 {
      var n := |g| - 1;
      SameGroups(g[..n], h[..n]);
      assert g == g[..n] + [g[n]] && h == h[..n] + [h[n]];
    }
  }

  /** The high bits of the first groups: the whole groups, and the high bits of the last. */
  lemma HighBits(x: nat, last: nat, y: nat, other: nat, d: nat, e: nat)
    requires d > 0 && e * d == 0x10000 && last < 0x10000 && other < 0x10000
    ensures (x * 0x10000 + last) / d == (y * 0x10000 + other) / d <==> x == y && last / d == other / d
  {
    HighBit(x, last, d, e);
    HighBit(y, other, d, e);
    HighPart(last, d, e);
    HighPart(other, d, e);
    if x * e + last / d == y * e + other / d {
      assert (x - y) * e == x * e - y * e;
      Multiples(x - y, e);
    }
  }

  lemma HighBit(x: nat, last: nat, d: nat, e: nat)
    requires d > 0 && e * d == 0x10000
    ensures (x * 0x10000 + last) / d == x * e + last / d
  {
    assert last == last / d * d + last % d;
    assert x * 0x10000 == x * e * d;
    assert (x * e + last / d) * d == x * e * d + last / d * d;
    Quotient(x * 0x10000 + last, d, x * e + last / d, last % d);
  }

  /** A block of a prefix: the whole groups of the prefix, and the leading bits of the next one. */
  lemma BlockByGroups(g: seq<nat>, h: seq<nat>, n: nat, bits: nat)
    requires Address6(g) && Address6(h) && n < 8 && 1 <= bits <= 16
    ensures InBlock(Positional(g), Positional(h), Pow2(128 - (16 * n + bits))) <==>
            g[..n] == h[..n] && g[n] / Pow2(16 - bits) == h[n] / Pow2(16 - bits)
  {
    var d := Pow2(16 - bits);
    SameBlock(Positional(g), Positional(h), Pow2(128 - (16 * n + bits)));
    HighGroups(g, n, bits);
    HighGroups(h, n, bits);
    Pow2Of32();
    Pow2Sum(bits, 16 - bits);
    SameGroups(g[..n], h[..n]);
    HighBits(Positional(g[..n]), g[n], Positional(h[..n]), h[n], d, Pow2(bits));
    hide Pow2, Positional;
  }

  lemma HighGroups(g: seq<nat>, n: nat, bits: nat)
    requires Address6(g) && n < 8 && 1 <= bits <= 16
    ensures Positional(g) / Pow2(128 - (16 * n + bits)) == (Positional(g[..n]) * 0x10000 + g[n]) / Pow2(16 - bits)
  {
    GroupsDropped(g, n + 1);
    LastGroup(g[..n + 1]);
    assert g[..n + 1][..n] == g[..n];
    assert 16 * (8 - (n + 1)) + (16 - bits) == 128 - (16 * n + bits);
    TwoQuotients(Positional(g), 16 * (8 - (n + 1)), 16 - bits);
    hide Pow2, Positional;
  }

  // The networks of the table

  function Digit(s: string, k: nat): nat
    requires k < |s| && AllHex(s)
  {
    DigitValue(s[k])
  }

  lemma {:induction false} Digits(s: string)
    requires IsSegment(s)
    ensures |s| == 1 ==> HexValue(s) == Digit(s, 0)
    ensures |s| == 2 ==> HexValue(s) == Digit(s, 0) * 16 + Digit(s, 1)
    ensures |s| == 3 ==> HexValue(s) == (Digit(s, 0) * 16 + Digit(s, 1)) * 16 + Digit(s, 2)
    ensures |s| == 4 ==> HexValue(s) == ((Digit(s, 0) * 16 + Digit(s, 1)) * 16 + Digit(s, 2)) * 16 + Digit(s, 3)
  {
    if |s| > 1 {
      Digits(s[..|s| - 1]);
    }
  }

  lemma Numerals()
    ensures IsSegment("1") && HexValue("1") == 1 && IsSegment("2") && HexValue("2") == 2
    ensures IsSegment("10") && HexValue("10") == 0x10 && IsSegment("20") && HexValue("20") == 0x20
    ensures IsSegment("64") && HexValue("64") == 0x64 && IsSegment("100") && HexValue("100") == 0x100
    ensures IsSegment("db8") && HexValue("db8") == 0xdb8 && IsSegment("ff9b") && HexValue("ff9b") == 0xff9b
  {
    TableSegments();
    Digits("1");
    Digits("2");
    Digits("10");
    Digits("20");
    Digits("64");
    Digits("100");
    Digits("db8");
    Digits("ff9b");
    hide HexValue;
  }

  lemma LongNumerals()
    ensures IsSegment("2001") && HexValue("2001") == 0x2001 && IsSegment("2002") && HexValue("2002") == 0x2002
    ensures IsSegment("fc00") && HexValue("fc00") == 0xfc00 && IsSegment("fe80") && HexValue("fe80") == 0xfe80
    ensures IsSegment("ff00") && HexValue("ff00") == 0xff00
  {
    TableSegments();
    Digits("2001");
    Digits("2002");
    Digits("fc00");
    Digits("fe80");
    Digits("ff00");
    hide HexValue;
  }

  /** The block of a network written with its leading groups. */
  lemma InNetwork(g: seq<nat>, left: seq<string>, n: nat, bits: nat)
    requires Address6(g) && AllSegments(left) && |left| <= 8 && n < 8 && 1 <= bits <= 16
    ensures var f := Elided(left, [], None);
      var h := Values(left) + ZeroGroups(8 - |left|);
      && WellFormed(f) && |h| == 8
      && (InBlock6(Positional(g), (f, 16 * n + bits)) <==> g[..n] == h[..n] && g[n] / Pow2(16 - bits) == h[n] / Pow2(16 - bits))
  {
    var f := Elided(left, [], None);
    var h := Values(left) + ZeroGroups(8 - |left|);
    assert Groups(f) == h by {
      assert Values([]) + TailGroups(None) == [];
    }
    forall k | 0 <= k < 8
      ensures h[k] < 0x10000
    {
      if k < |left| {
        SegmentBound(left[k]);
      }
    }
    BlockByGroups(g, h, n, bits);
    hide Pow2, Positional, HexValue;
  }

  lemma ZeroNetworks(g: seq<nat>)
    requires Address6(g)
    ensures var v := Positional(g);
      && (InBlock6(v, (Elided([], [], None), 96)) <==> g[..6] == [0, 0, 0, 0, 0, 0])
      && (InBlock6(v, (Elided([], [], None), 128)) ==> g[..6] == [0, 0, 0, 0, 0, 0])
  {
    InNetwork(g, [], 5, 16);
    InNetwork(g, [], 7, 16);
    ShortPowers();
    var h := Values([]) + ZeroGroups(8);
    assert h == [0, 0, 0, 0, 0, 0, 0, 0];
    assert g[..6] == g[..5] + [g[5]];
    assert g[..7][..6] == g[..6];
    hide Pow2, Positional, InBlock6;
  }

  lemma Loopback(g: seq<nat>)
    requires Address6(g)
    ensures WellFormed(Elided([], ["1"], None))
    ensures InBlock6(Positional(g), (Elided([], ["1"], None), 128)) ==> g[..6] == [0, 0, 0, 0, 0, 0]
  {
    hide Pow2, Positional, HexValue, IsSegment;
    Numerals();
    var f := Elided([], ["1"], None);
    assert Groups(f) == [0, 0, 0, 0, 0, 0, 0, 1];
    BlockByGroups(g, Groups(f), 7, 16);
    assert g[..7][..6] == g[..6];
  }

  lemma LongNetworks(g: seq<nat>)
    requires Address6(g)
    ensures AllSegments(["64", "ff9b", "1"]) && AllSegments(["100"])
    ensures InBlock6(Positional(g), (Elided(["64", "ff9b", "1"], [], None), 48)) <==> g[..3] == [0x64, 0xff9b, 1]
    ensures InBlock6(Positional(g), (Elided(["100"], [], None), 64)) <==> g[..4] == [0x100, 0, 0, 0]
  {
    hide Pow2, Positional, InBlock6, HexValue, IsSegment;
    Numerals();
    InNetwork(g, ["64", "ff9b", "1"], 2, 16);
    InNetwork(g, ["100"], 3, 16);
    ShortPowers();
    assert g[..3] == g[..2] + [g[2]] && g[..4] == g[..3] + [g[3]];
  }

  /** The networks below 2001::/16. */
  lemma TeredoNetworks(g: seq<nat>)
    requires Address6(g)
    ensures AllSegments(["2001"]) && AllSegments(["2001", "2"]) && AllSegments(["2001", "db8"])
    ensures InBlock6(Positional(g), (Elided(["2001"], [], None), 32)) <==> g[0] == 0x2001 && g[1] == 0
    ensures InBlock6(Positional(g), (Elided(["2001", "2"], [], None), 48)) <==> g[0] == 0x2001 && g[1] == 2 && g[2] == 0
    ensures InBlock6(Positional(g), (Elided(["2001", "db8"], [], None), 32)) <==> g[0] == 0x2001 && g[1] == 0xdb8
  {
    hide Pow2, Positional, InBlock6, HexValue, IsSegment;
    Numerals();
    LongNumerals();
    InNetwork(g, ["2001"], 1, 16);
    InNetwork(g, ["2001", "2"], 2, 16);
    InNetwork(g, ["2001", "db8"], 1, 16);
    ShortPowers();
    assert g[..1] == [g[0]] && g[..2] == [g[0], g[1]];
  }

  lemma OrchidNetworks(g: seq<nat>)
    requires Address6(g)
    ensures AllSegments(["2001", "10"]) && AllSegments(["2001", "20"])
    ensures InBlock6(Positional(g), (Elided(["2001", "10"], [], None), 28)) <==> g[0] == 0x2001 && 0x10 <= g[1] < 0x20
    ensures InBlock6(Positional(g), (Elided(["2001", "20"], [], None), 28)) <==> g[0] == 0x2001 && 0x20 <= g[1] < 0x30
  {
    hide Pow2, Positional, InBlock6, HexValue, IsSegment;
    Numerals();
    LongNumerals();
    InNetwork(g, ["2001", "10"], 1, 12);
    InNetwork(g, ["2001", "20"], 1, 12);
    ShortPowers();
    assert g[..1] == [g[0]];
  }

  lemma WideNetworks(g: seq<nat>)
    requires Address6(g)
    ensures AllSegments(["2002"]) && AllSegments(["fc00"]) && AllSegments(["fe80"]) && AllSegments(["ff00"])
    ensures InBlock6(Positional(g), (Elided(["2002"], [], None), 16)) <==> g[0] == 0x2002
    ensures InBlock6(Positional(g), (Elided(["fc00"], [], None), 7)) <==> 0xfc00 <= g[0] < 0xfe00
    ensures InBlock6(Positional(g), (Elided(["fe80"], [], None), 10)) <==> 0xfe80 <= g[0] < 0xfec0
    ensures InBlock6(Positional(g), (Elided(["ff00"], [], None), 8)) <==> 0xff00 <= g[0]
  {
    hide Pow2, Positional, InBlock6, HexValue, IsSegment;
    LongNumerals();
    InNetwork(g, ["2002"], 0, 16);
    InNetwork(g, ["fc00"], 0, 7);
    InNetwork(g, ["fe80"], 0, 10);
    InNetwork(g, ["ff00"], 0, 8);
    ShortPowers();
  }

  lemma NetworksAreRefused(g: seq<nat>, k: nat)
    requires Address6(g) && k < |IPV6_FORBIDDEN_RANGES| && Ranges6(IPV6_FORBIDDEN_RANGES)
    requires InBlock6(Positional(g), IPV6_FORBIDDEN_RANGES[k])
    ensures RefusedNetwork(g)
  {
    hide InBlock6, Ranges6, Positional, AllSegments, WellFormed;
    if k < 6 {
      ZeroNetworks(g);
      Loopback(g);
      LongNetworks(g);
      TeredoNetworks(g);
    } else if k < 10 {
      TeredoNetworks(g);
      OrchidNetworks(g);
    } else {
      WideNetworks(g);
    }
  }

  lemma RefusedInNetwork(g: seq<nat>)
    requires Address6(g) && Ranges6(IPV6_FORBIDDEN_RANGES) && RefusedNetwork(g)
    ensures InSomeBlock6(Positional(g), IPV6_FORBIDDEN_RANGES)
  {
    hide InBlock6, Positional, AllSegments, WellFormed;
    var v, ranges := Positional(g), IPV6_FORBIDDEN_RANGES;
    if g[0] == 0x2001 {
      TeredoNetworks(g);
      OrchidNetworks(g);
      assert InBlock6(v, ranges[5]) || InBlock6(v, ranges[6]) || InBlock6(v, ranges[7]) || InBlock6(v, ranges[8]) ||
             InBlock6(v, ranges[9]);
    } else if g[0] >= 0x2002 {
      WideNetworks(g);
      assert InBlock6(v, ranges[10]) || InBlock6(v, ranges[11]) || InBlock6(v, ranges[12]) || InBlock6(v, ranges[13]);
    } else {
      ZeroNetworks(g);
      LongNetworks(g);
      assert InBlock6(v, ranges[0]) || InBlock6(v, ranges[3]) || InBlock6(v, ranges[4]);
    }
  }

  lemma NetworkRefused(g: seq<nat>)
    requires Address6(g)
    ensures Ranges6(IPV6_FORBIDDEN_RANGES)
    ensures InSomeBlock6(Positional(g), IPV6_FORBIDDEN_RANGES) <==> RefusedNetwork(g)
  {
    hide InBlock6, RefusedNetwork, Positional;
    TablesAreRanges();
    if k: nat :| k < |IPV6_FORBIDDEN_RANGES| && InBlock6(Positional(g), IPV6_FORBIDDEN_RANGES[k]) {
      NetworksAreRefused(g, k);
    }
    if RefusedNetwork(g) {
      RefusedInNetwork(g);
    }
  }

  // Mapped addresses

  /** The last two groups are the low 32 bits, and the six before them the rest. */
  lemma LowGroups(g: seq<nat>)
    requires Address6(g)
    ensures var v := Positional(g);
      && v / WORD == Positional(g[..6])
      && v % WORD == g[6] * 0x10000 + g[7]
      && (v / WORD == 0xffff <==> Mapped(g))
  {
    LastGroup(g);
    LastGroup(g[..7]);
    assert g[..7][..6] == g[..6];
    Quotient(Positional(g), WORD, Positional(g[..6]), g[6] * 0x10000 + g[7]);
    var mapped := [0, 0, 0, 0, 0, 0xffff];
    ZerosAreZero(5);
    LastGroup(mapped);
    assert mapped[..5] == ZeroGroups(5);
    SameGroups(g[..6], mapped);
    hide Positional;
  }

  lemma GroupsAreAddress(f: Form)
    requires WellFormed(f)
    ensures Address6(Groups(f))
  {
    var g := Groups(f);
    forall k | 0 <= k < 8
      ensures g[k] < 0x10000
    {
      match f
      case Full(groups, tail) =>
        if k < |groups| {
          SegmentBound(groups[k]);
        }
      case Elided(left, right, tail) =>
        if k < |left| {
          SegmentBound(left[k]);
        }
        var from := 8 - |right| - |TailGroups(tail)|;
        if from <= k < from + |right| {
          SegmentBound(right[k - from]);
        }
    }
  }

  lemma MappedQuad(g: seq<nat>)
    requires Address6(g)
    ensures var q := Quad(g[6] / 256, g[6] % 256, g[7] / 256, g[7] % 256);
      QuadValue(q) == g[6] * 0x10000 + g[7]
  {
  }

  /** The eight groups decide the verdict. */
  lemma GroupsRefused(g: seq<nat>)
    requires Address6(g)
    ensures RoutableValue(Positional(g)) <==> !RefusedGroups(g)
  {
    LowGroups(g);
    MappedQuad(g);
    NetworkRefused(g);
    QuadRefused(Quad(g[6] / 256, g[6] % 256, g[7] / 256, g[7] % 256));
    hide Positional, RoutableValue4, RefusedQuad, InSomeBlock6, QuadValue, Ranges6;
    if Mapped(g) {
      assert g[..6][0] == 0 && g[..6][5] == 0xffff && g[0] == 0 && g[5] == 0xffff;
      assert g[..3][0] == g[0] && g[..4][0] == g[0];
    }
  }

  /** However it is written, an address is globally routable exactly when its groups are in none of those blocks. */
  lemma AddressVerdict(p: Platform, f: Form)
    requires ReadsOctets(p) && KnowsFamilies(p) && Standard(f)
    ensures Address6(Groups(f))
    ensures IsGloballyRoutable(p, Text(f)) == Success(!RefusedGroups(Groups(f)))
  {
    GroupsAreAddress(f);
    VerdictIsNumeric(p, f);
    GroupsRefused(Groups(f));
    hide IsGloballyRoutable, RoutableValue, RefusedGroups, Groups;
  }
}
