/** Forbidden address ranges: the verdict is a property of the number, not of its text. */
module IpRouting {
  import opened Wrappers
  import opened Bits
  import opened IpText
  import opened IpAddress

  const IPV4_FORBIDDEN_RANGES: seq<(Quad, nat)> := [
    (Quad(0, 0, 0, 0), 8), (Quad(10, 0, 0, 0), 8), (Quad(100, 64, 0, 0), 10), (Quad(127, 0, 0, 0), 8),
    (Quad(169, 254, 0, 0), 16), (Quad(172, 16, 0, 0), 12), (Quad(192, 0, 0, 0), 24), (Quad(192, 0, 2, 0), 24),
    (Quad(192, 31, 196, 0), 24), (Quad(192, 52, 193, 0), 24), (Quad(192, 88, 99, 0), 24), (Quad(192, 168, 0, 0), 16),
    (Quad(192, 175, 48, 0), 24), (Quad(198, 18, 0, 0), 15), (Quad(198, 51, 100, 0), 24), (Quad(203, 0, 113, 0), 24),
    (Quad(224, 0, 0, 0), 4), (Quad(240, 0, 0, 0), 4)]

  const IPV6_FORBIDDEN_RANGES: seq<(Form, nat)> := [
    (Elided([], [], None), 96), (Elided([], [], None), 128), (Elided([], ["1"], None), 128),
    (Elided(["64", "ff9b", "1"], [], None), 48), (Elided(["100"], [], None), 64), (Elided(["2001"], [], None), 32),
    (Elided(["2001", "2"], [], None), 48), (Elided(["2001", "10"], [], None), 28), (Elided(["2001", "20"], [], None), 28),
    (Elided(["2001", "db8"], [], None), 32), (Elided(["2002"], [], None), 16), (Elided(["fc00"], [], None), 7),
    (Elided(["fe80"], [], None), 10), (Elided(["ff00"], [], None), 8)]

  function Mask(prefix: nat): nat
    requires prefix <= 32
  {
    if prefix == 0 then 0 else Shl32(WORD - 1, 32 - prefix)
  }

  predicate Ipv4InCidr(p: Platform, address: string, network: string, prefix: nat)
    requires prefix <= 32
  {
    Signed(And(Ipv4ToInteger(p, address), Mask(prefix))) == Signed(And(Ipv4ToInteger(p, network), Mask(prefix)))
  }

  function Ipv6InCidr(p: Platform, address: string, network: string, prefix: nat): Result<bool, AddressError>
    requires prefix <= 128
  {
    match Ipv6ToBigInt(p, address)
    case Failure(error) => Failure(error)
    case Success(value) =>
      match Ipv6ToBigInt(p, network)
      case Failure(error) => Failure(error)
      case Success(networkValue) => Success(value / Pow2(128 - prefix) == networkValue / Pow2(128 - prefix))
  }

  /** The octets of a 32-bit value. */
  function QuadOf(v: nat): Quad
    requires v < WORD
  {
    Quad(v / 0x100_0000, v / 0x1_0000 % 256, v / 0x100 % 256, v % 256)
  }

  const MAPPED: string := "::ffff:"

  /** The dotted quad after `::ffff:`, when the text has exactly that shape. */
  function MatchMapped(s: string): Option<string> {
    if |s| < |MAPPED| || s[..|MAPPED|] != MAPPED then None
    else
      var parts := Split(s[|MAPPED|..], '.');
      if |parts| == 4 && forall k | 0 <= k < 4 :: 1 <= |parts[k]| <= 3 && AllDecimal(parts[k]) then Some(s[|MAPPED|..])
      else None
  }

  function ExtractMapped(p: Platform, address: string): Result<Option<string>, AddressError> {
    var normalized := NormalizeHostname(address);
    if MatchMapped(normalized).Some? then Success(MatchMapped(normalized))
    else
      match Ipv6ToBigInt(p, normalized)
      case Failure(error) => Failure(error)
      case Success(value) =>
        if value / Pow2(32) != 0xffff then Success(None) else Success(Some(QuadText(QuadOf(value % WORD))))
  }

  predicate Ranges4(ranges: seq<(Quad, nat)>) {
    forall k | 0 <= k < |ranges| :: ranges[k].1 <= 32
  }

  predicate Ranges6(ranges: seq<(Form, nat)>) {
    forall k | 0 <= k < |ranges| :: WellFormed(ranges[k].0) && ranges[k].1 <= 128
  }

  predicate InRange4(p: Platform, address: string, range: (Quad, nat))
    requires range.1 <= 32
  {
    Ipv4InCidr(p, address, QuadText(range.0), range.1)
  }

  predicate SomeRange4(p: Platform, address: string, ranges: seq<(Quad, nat)>)
    requires Ranges4(ranges)
  {
    exists k | 0 <= k < |ranges| :: InRange4(p, address, ranges[k])
  }

  /** The ranges are tried in order, up to the first that holds the address. */
  function SomeRange6(p: Platform, address: string, ranges: seq<(Form, nat)>): Result<bool, AddressError>
    requires Ranges6(ranges)
  {
    if |ranges| == 0 then Success(false)
    else
      var n := |ranges| - 1;
      var earlier := SomeRange6(p, address, ranges[..n]);
      if earlier.Failure? || earlier.value then earlier else Ipv6InCidr(p, address, Text(ranges[n].0), ranges[n].1)
  }

  lemma TablesAreRanges()
    ensures Ranges4(IPV4_FORBIDDEN_RANGES) && Ranges6(IPV6_FORBIDDEN_RANGES)
  {
    hide Ranges4, Ranges6;
    Table4IsRanges();
    Table6IsRanges();
  }

  lemma Table4IsRanges()
    ensures Ranges4(IPV4_FORBIDDEN_RANGES)
  {
  }

  lemma TableSegments()
    ensures IsSegment("1") && IsSegment("64") && IsSegment("ff9b") && IsSegment("100") && IsSegment("2001") && IsSegment("2")
    ensures IsSegment("10") && IsSegment("20") && IsSegment("db8") && IsSegment("2002") && IsSegment("fc00") && IsSegment("fe80")
    ensures IsSegment("ff00")
  {
  }

  lemma Table6IsRanges()
    ensures Ranges6(IPV6_FORBIDDEN_RANGES)
  {
    hide IsSegment;
    TableSegments();
  }

  predicate Forbidden4(p: Platform, address: string) {
    TablesAreRanges();
    SomeRange4(p, address, IPV4_FORBIDDEN_RANGES)
  }

  function Forbidden6(p: Platform, address: string): Result<bool, AddressError> {
    TablesAreRanges();
    SomeRange6(p, address, IPV6_FORBIDDEN_RANGES)
  }

  /** A mapped address is a dotted quad, so its own verdict is that of IPv4 or of no address at all. */
  function IsGloballyRoutable(p: Platform, address: string): Result<bool, AddressError> {
    if p.family(address) == 4 then Success(!Forbidden4(p, address))
    else if p.family(address) == 6 then
      match ExtractMapped(p, address)
      case Failure(error) => Failure(error)
      case Success(Some(mapped)) => Success(p.family(mapped) == 4 && !Forbidden4(p, mapped))
      case Success(None) =>
        match Forbidden6(p, address)
        case Failure(error) => Failure(error)
        case Success(forbidden) => Success(!forbidden)
    else Success(false)
  }

  // Ranges as intervals

  /** `v` lies in the aligned block of `size` numbers that holds `w`. */
  predicate InBlock(v: nat, w: nat, size: nat)
    requires size > 0
  {
    w - w % size <= v < w - w % size + size
  }

  lemma SignedInjective(x: nat, y: nat)
    requires x < WORD && y < WORD
    ensures Signed(x) == Signed(y) <==> x == y
  {
  }

  lemma ProductsEqual(a: nat, b: nat, d: nat)
    requires d > 0
    ensures a * d == b * d <==> a == b
  {
    assert (a - b) * d == a * d - b * d;
    Multiples(a - b, d);
  }

  lemma HighPartOf(v: nat, d: nat)
    requires d > 0
    ensures 0 <= v / d * d <= v
  {
    assert v == (v / d) * d + v % d;
  }

  lemma EqualHighParts(v: nat, w: nat, d: nat)
    requires d > 0 && v < WORD && w < WORD
    ensures Signed(v / d * d) == Signed(w / d * d) <==> v / d == w / d
  {
    HighPartOf(v, d);
    HighPartOf(w, d);
    ProductsEqual(v / d, w / d, d);
    SignedInjective(v / d * d, w / d * d);
  }

  lemma AndZero(v: nat)
    ensures And(v, 0) == 0
  {
  }

  lemma MaskedEqual(v: nat, w: nat, prefix: nat)
    requires v < WORD && w < WORD && prefix <= 32
    ensures Signed(And(v, Mask(prefix))) == Signed(And(w, Mask(prefix))) <==> v / Pow2(32 - prefix) == w / Pow2(32 - prefix)
  {
    if prefix == 0 {
      Pow2Of32();
      AndZero(v);
      AndZero(w);
    } else {
      MaskedValue(v, prefix);
      MaskedValue(w, prefix);
      EqualHighParts(v, w, Pow2(32 - prefix));
    }
  }

  /** The masked comparison is membership in the network's block of 2^(32 - prefix) addresses, for every prefix. */
  lemma MaskedIsInterval(p: Platform, q: Quad, network: Quad, prefix: nat)
    requires ReadsOctets(p) && prefix <= 32
    ensures Ipv4InCidr(p, QuadText(q), QuadText(network), prefix) <==>
            InBlock(QuadValue(q), QuadValue(network), Pow2(32 - prefix))
  {
    Ipv4RoundTrip(p, q);
    Ipv4RoundTrip(p, network);
    MaskedEqual(QuadValue(q), QuadValue(network), prefix);
    SameBlock(QuadValue(q), QuadValue(network), Pow2(32 - prefix));
  }

  /** The shifted comparison is membership in the network's block of 2^(128 - prefix) addresses. */
  lemma ShiftedIsInterval(p: Platform, address: string, v: nat, network: string, w: nat, prefix: nat)
    requires Ipv6ToBigInt(p, address) == Success(v) && Ipv6ToBigInt(p, network) == Success(w) && prefix <= 128
    ensures Ipv6InCidr(p, address, network, prefix) == Success(InBlock(v, w, Pow2(128 - prefix)))
  {
    SameBlock(v, w, Pow2(128 - prefix));
  }

  // The verdict, as a property of the number

  predicate InBlock4(v: nat, range: (Quad, nat))
    requires range.1 <= 32
  {
    InBlock(v, QuadValue(range.0), Pow2(32 - range.1))
  }

  predicate InBlock6(v: nat, range: (Form, nat))
    requires WellFormed(range.0) && range.1 <= 128
  {
    InBlock(v, Value(range.0), Pow2(128 - range.1))
  }

  predicate InSomeBlock4(v: nat, ranges: seq<(Quad, nat)>)
    requires Ranges4(ranges)
  {
    exists k | 0 <= k < |ranges| :: InBlock4(v, ranges[k])
  }

  predicate InSomeBlock6(v: nat, ranges: seq<(Form, nat)>)
    requires Ranges6(ranges)
  {
    exists k | 0 <= k < |ranges| :: InBlock6(v, ranges[k])
  }

  predicate RoutableValue4(v: nat) {
    TablesAreRanges();
    !InSomeBlock4(v, IPV4_FORBIDDEN_RANGES)
  }

  predicate RoutableValue(v: nat) {
    TablesAreRanges();
    if v / WORD == 0xffff then RoutableValue4(v % WORD) else !InSomeBlock6(v, IPV6_FORBIDDEN_RANGES)
  }

  /** The runtime calls a dotted quad family 4 and a text form with at least one elided group, or none, family 6. */
  ghost predicate KnowsFamilies(p: Platform) {
    && (forall q: Quad :: p.family(QuadText(q)) == 4)
    && (forall f: Form :: Standard(f) ==> p.family(Text(f)) == 6)
  }

  predicate Standard(f: Form) {
    WellFormed(f) &&
    (f.Elided? ==> |f.left| + |f.right| + (if f.tail.Some? then 2 else 0) < 8)
  }

  lemma Ipv4Verdict(p: Platform, q: Quad, ranges: seq<(Quad, nat)>)
    requires ReadsOctets(p) && Ranges4(ranges)
    ensures SomeRange4(p, QuadText(q), ranges) <==> InSomeBlock4(QuadValue(q), ranges)
  {
    hide QuadText, QuadValue, Ipv4ToInteger;
    forall k | 0 <= k < |ranges|
      ensures InRange4(p, QuadText(q), ranges[k]) <==> InBlock4(QuadValue(q), ranges[k])
    {
      MaskedIsInterval(p, q, ranges[k].0, ranges[k].1);
    }
  }

  lemma OneMoreRange(v: nat, ranges: seq<(Form, nat)>)
    requires Ranges6(ranges) && |ranges| > 0
    ensures InSomeBlock6(v, ranges) <==> InSomeBlock6(v, ranges[..|ranges| - 1]) || InBlock6(v, ranges[|ranges| - 1])
  {
    hide InBlock6, WellFormed;
    var init := ranges[..|ranges| - 1];
    assert forall k :: 0 <= k < |init| ==> init[k] == ranges[k];
  }

  lemma InRange6(p: Platform, address: string, v: nat, range: (Form, nat))
    requires ReadsOctets(p) && Ipv6ToBigInt(p, address) == Success(v) && WellFormed(range.0) && range.1 <= 128
    ensures Ipv6InCidr(p, address, Text(range.0), range.1) == Success(InBlock6(v, range))
  {
    hide Ipv6ToBigInt, Value, Text, WellFormed;
    Ipv6RoundTrip(p, range.0);
    ShiftedIsInterval(p, address, v, Text(range.0), Value(range.0), range.1);
  }

  lemma {:induction false} Ipv6Verdict(p: Platform, address: string, v: nat, ranges: seq<(Form, nat)>)
    requires ReadsOctets(p) && Ipv6ToBigInt(p, address) == Success(v) && Ranges6(ranges)
    ensures SomeRange6(p, address, ranges) == Success(InSomeBlock6(v, ranges))
  {
    if |ranges| > 0 {
      Ipv6Verdict(p, address, v, ranges[..|ranges| - 1]);
      InRange6(p, address, v, ranges[|ranges| - 1]);
      OneMoreRange(v, ranges);
    }
  }

  // Mapped addresses

  lemma QuadOfValue(v: nat)
    requires v < WORD
    ensures QuadValue(QuadOf(v)) == v
  {
    assert v / 0x100 / 0x100 == v / 0x1_0000 && v / 0x1_0000 / 0x100 == v / 0x100_0000;
  }

  lemma {:induction false} SplitIsFree(s: string, separator: char, c: char)
    requires c != separator && forall k :: 0 <= k < |Split(s, separator)| ==> Free(Split(s, separator)[k], c)
    ensures Free(s, c)
  {
    if |s| > 0 {
      var n := |s| - 1;
      var parts, earlier := Split(s, separator), Split(s[..n], separator);
      forall k | 0 <= k < |earlier|
        ensures Free(earlier[k], c)
      {
        assert Free(parts[k], c);
        assert earlier[k] <= parts[k];
      }
      SplitIsFree(s[..n], separator, c);
      if s[n] != separator {
        var last := parts[|parts| - 1];
        assert Free(last, c) && last[|last| - 1] == s[n];
      }
    }
  }

  lemma {:induction false} NoSplit(s: string, c: char)
    requires Free(s, c)
    ensures Split(s, c) == [s]
  {
    SplitExtend("", s, c);
    assert "" + s == s;
  }

  /** A text without dots matches nothing. */
  lemma MatchedHasTail(f: Form)
    requires WellFormed(f) && MatchMapped(Text(f)).Some?
    ensures f.tail.Some?
  {
    if f.tail.None? {
      var r := Text(f)[|MAPPED|..];
      PlainChars(f, '.');
      NoSplit(r, '.');
    }
  }

  /** What follows the prefix of a match has no colon. */
  lemma MatchedIsFree(s: string)
    requires MatchMapped(s).Some?
    ensures MAPPED <= s && Free(s[|MAPPED|..], ':')
  {
    SplitIsFree(s[|MAPPED|..], '.', ':');
  }

  /** The last colon is found in one place only. */
  lemma SameTail(a: string, r: string, b: string, t: string)
    requires a + r == b + t && |a| > 0 && a[|a| - 1] == ':' && |b| > 0 && b[|b| - 1] == ':'
    requires Free(r, ':') && Free(t, ':')
    ensures r == t
  {
    hide Free, LastIndexOf;
    LastColon(a, r);
    LastColon(b, t);
  }

  /** A text form that matches `::ffff:` and a dotted quad is that prefix and its own dotted tail. */
  lemma MatchedTail(f: Form)
    requires WellFormed(f) && MatchMapped(Text(f)).Some?
    ensures f.tail.Some? && Text(f) == MAPPED + QuadText(f.tail.value)
  {
    hide MatchMapped, Split, AllSegments, Free, Head, QuadText, Text;
    var s := Text(f);
    MatchedHasTail(f);
    MatchedIsFree(s);
    TextByHead(f);
    QuadTextChars(f.tail.value);
    var r := s[|MAPPED|..];
    assert MAPPED + r == s;
    SameTail(MAPPED, r, Head(f), QuadText(f.tail.value));
  }

  lemma HexFfff()
    ensures IsSegment("ffff") && HexValue("ffff") == 0xffff
  {
    assert "ffff"[..3] == "fff" && "fff"[..2] == "ff" && "ff"[..1] == "f" && "f"[..0] == "";
  }

  lemma MappedFormText(q: Quad)
    ensures Text(Elided([], ["ffff"], Some(q))) == MAPPED + QuadText(q)
  {
    hide QuadText;
    JoinOne(["ffff"], QuadText(q));
    assert ["ffff"] + TailTexts(Some(q)) == ["ffff"] + [QuadText(q)];
  }

  lemma MappedFormValue(q: Quad)
    ensures var g := Elided([], ["ffff"], Some(q));
      WellFormed(g) && Value(g) == 0xffff * WORD + QuadValue(q)
  {
    hide HexValue, Positional;
    var g := Elided([], ["ffff"], Some(q));
    HexFfff();
    assert Groups(g) == [0, 0, 0, 0, 0, 0xffff, q.a * 256 + q.b, q.c * 256 + q.d];
    EightGroups(0xffff, q.a * 256 + q.b, q.c * 256 + q.d);
  }

  lemma {:induction false} ZerosAreZero(n: nat)
    ensures Positional(ZeroGroups(n)) == 0
  {
    if n > 0 {
      ZerosAreZero(n - 1);
      assert ZeroGroups(n)[..n - 1] == ZeroGroups(n - 1);
    }
  }

  lemma OneMoreGroup(s: seq<nat>, x: nat)
    ensures Positional(s + [x]) == Positional(s) * 0x10000 + x
  {
    assert (s + [x])[..|s|] == s;
  }

  lemma EightGroups(x: nat, y: nat, z: nat)
    ensures Positional([0, 0, 0, 0, 0, x, y, z]) == (x * 0x10000 + y) * 0x10000 + z
  {
    var zeros := ZeroGroups(5);
    ZerosAreZero(5);
    OneMoreGroup(zeros, x);
    OneMoreGroup(zeros + [x], y);
    OneMoreGroup(zeros + [x] + [y], z);
    assert [0, 0, 0, 0, 0, x, y, z] == zeros + [x] + [y] + [z];
  }

  /** Equal texts are parsed alike, so a matched form has the value of the mapped address. */
  lemma MatchedValue(p: Platform, f: Form)
    requires ReadsOctets(p) && WellFormed(f) && MatchMapped(Text(f)).Some?
    ensures f.tail.Some? && MatchMapped(Text(f)) == Some(QuadText(f.tail.value))
    ensures Value(f) == 0xffff * WORD + QuadValue(f.tail.value)
  {
    MatchedTail(f);
    MappedFormText(f.tail.value);
    MappedFormValue(f.tail.value);
    Ipv6RoundTrip(p, f);
    Ipv6RoundTrip(p, Elided([], ["ffff"], f.tail));
  }

  /** What is extracted from a text form: the quad of the low 32 bits, for mapped values only. */
  lemma ExtractedIs(p: Platform, f: Form)
    requires ReadsOctets(p) && WellFormed(f)
    ensures ExtractMapped(p, Text(f)) ==
            Success(if Value(f) / WORD == 0xffff then Some(QuadText(QuadOf(Value(f) % WORD))) else None)
  {
    var lower := LowerForm(f);
    NormalizedForm(f);
    LowerSame(f);
    Ipv6RoundTrip(p, lower);
    Pow2Of32();
    if MatchMapped(Text(lower)).Some? {
      MatchedValue(p, lower);
      var q := f.tail.value;
      Quotient(Value(f), WORD, 0xffff, QuadValue(q));
      SameQuad(q);
    }
  }

  lemma SameQuad(q: Quad)
    ensures QuadOf(QuadValue(q)) == q
  {
    var v := QuadValue(q);
    Quotient(v, 0x100, (q.a * 256 + q.b) * 256 + q.c, q.d);
    Quotient(v, 0x1_0000, q.a * 256 + q.b, q.c * 256 + q.d);
    Quotient(v, 0x100_0000, q.a, (q.b * 256 + q.c) * 256 + q.d);
    Quotient((q.a * 256 + q.b) * 256 + q.c, 256, q.a * 256 + q.b, q.c);
    Quotient(q.a * 256 + q.b, 256, q.a, q.b);
  }

  /**
   * The verdict depends only on the 128-bit value: every text form of one value gets the same
   * verdict, and a mapped value gets the verdict of its IPv4 address.
   */
  lemma VerdictIsNumeric(p: Platform, f: Form)
    requires ReadsOctets(p) && KnowsFamilies(p) && Standard(f)
    ensures IsGloballyRoutable(p, Text(f)) == Success(RoutableValue(Value(f)))
  {
    ExtractedIs(p, f);
    TablesAreRanges();
    if Value(f) / WORD == 0xffff {
      var q := QuadOf(Value(f) % WORD);
      QuadOfValue(Value(f) % WORD);
      Ipv4Verdict(p, q, IPV4_FORBIDDEN_RANGES);
    } else {
      Ipv6RoundTrip(p, f);
      Ipv6Verdict(p, Text(f), Value(f), IPV6_FORBIDDEN_RANGES);
    }
  }

  lemma QuadVerdictIsNumeric(p: Platform, q: Quad)
    requires ReadsOctets(p) && KnowsFamilies(p)
    ensures IsGloballyRoutable(p, QuadText(q)) == Success(RoutableValue4(QuadValue(q)))
  {
    TablesAreRanges();
    Ipv4Verdict(p, q, IPV4_FORBIDDEN_RANGES);
  }

  /** Any form of an IPv4-mapped address gets exactly the verdict of the plain dotted quad. */
  lemma MappedLikePlain(p: Platform, f: Form, q: Quad)
    requires ReadsOctets(p) && KnowsFamilies(p) && Standard(f) && Value(f) == 0xffff * WORD + QuadValue(q)
    ensures IsGloballyRoutable(p, Text(f)) == IsGloballyRoutable(p, QuadText(q))
  {
    Quotient(Value(f), WORD, 0xffff, QuadValue(q));
    VerdictIsNumeric(p, f);
    QuadVerdictIsNumeric(p, q);
  }

  /** The hypotheses about the runtime can be met. */
  lemma SomeRuntimeFits()
    ensures exists p: Platform :: ReadsOctets(p) && KnowsFamilies(p)
  {
    var p := Platform((s: string) => if ':' in s then 6 else 4, (s: string) => if AllDecimal(s) then DecimalValue(s) else 0);
    forall x: Octet
      ensures p.number(DecimalText(x)) == x
    {
      DecimalRoundTrip(x);
    }
    forall q: Quad
      ensures p.family(QuadText(q)) == 4
    {
      QuadTextChars(q);
    }
    forall f: Form | Standard(f)
      ensures p.family(Text(f)) == 6
    {
      HasColon(f);
    }
    assert ReadsOctets(p);
    assert KnowsFamilies(p);
  }

  lemma HasColon(f: Form)
    requires Standard(f)
    ensures ':' in Text(f)
  {
    match f
    case Full(groups, tail) =>
      var parts := groups + TailTexts(tail);
      assert Join(parts, ':')[|Join(parts[..|parts| - 1], ':')| ] == ':';
    case Elided(left, _, _) =>
      assert Text(f)[|Join(left, ':')|] == ':';
  }
}
