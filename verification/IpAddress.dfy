/** Parsing IPv4 and IPv6 text into numbers. */
module IpAddress {
  import opened Strings
  import opened Wrappers
  import opened Bits
  import opened IpText

  /** What the runtime supplies: the address family of a text, and numerals read as 32-bit numbers. */
  datatype Platform = Platform(family: string -> nat, number: string -> nat)

  datatype AddressError = AddressForbidden | DnsInvalid

  function FoldOctets(p: Platform, parts: seq<string>): nat {
    if |parts| == 0 then 0
    else Or(Shl32(FoldOctets(p, parts[..|parts| - 1]), 8), p.number(parts[|parts| - 1]) % WORD) % WORD
  }

  function Ipv4ToInteger(p: Platform, address: string): nat {
    FoldOctets(p, Split(address, '.'))
  }

  function NormalizeHostname(hostname: string): string {
    var unwrapped :=
      if |hostname| >= 2 && hostname[0] == '[' && hostname[|hostname| - 1] == ']' then hostname[1..|hostname| - 1] else hostname;
    var lower := Lower(unwrapped);
    if |lower| > 0 && lower[|lower| - 1] == '.' then lower[..|lower| - 1] else lower
  }

  /** A dotted tail becomes two hexadecimal groups. */
  function TailRewritten(p: Platform, s: string): string {
    if '.' !in s then s
    else
      var lastColon := LastIndexOf(s, ':');
      var value := Ipv4ToInteger(p, s[lastColon + 1..]);
      var head := if lastColon >= 0 then s[..lastColon] else s[..|s| - 1];
      head + ":" + HexText(value / 0x10000) + ":" + HexText(value % 0x10000)
  }

  function Zeros(n: nat): (r: seq<string>)
    ensures |r| == n && forall k :: 0 <= k < n ==> r[k] == "0"
  {
    seq(n, _ => "0")
  }

  predicate AllSegments(parts: seq<string>) {
    forall k | 0 <= k < |parts| :: IsSegment(parts[k])
  }

  function FoldSegments(segments: seq<string>): nat
    requires AllSegments(segments)
  {
    if |segments| == 0 then 0
    else Or(FoldSegments(segments[..|segments| - 1]) * Pow2(16), HexValue(segments[|segments| - 1]))
  }

  function SegmentsOf(half: string): seq<string> {
    if |half| > 0 then Split(half, ':') else []
  }

  function ParseColons(s: string): Result<nat, AddressError> {
    var halves := SplitPairs(s);
    if |halves| > 2 then Failure(DnsInvalid)
    else
      var left := SegmentsOf(halves[0]);
      var right := if |halves| == 2 then SegmentsOf(halves[1]) else [];
      var missing := 8 - |left| - |right|;
      if missing < 0 || (|halves| == 1 && missing != 0) then Failure(DnsInvalid)
      else
        var segments := if |halves| == 2 then left + Zeros(missing) + right else left;
        if |segments| != 8 || !AllSegments(segments) then Failure(DnsInvalid)
        else Success(FoldSegments(segments))
  }

  function Ipv6ToBigInt(p: Platform, address: string): Result<nat, AddressError> {
    var normalized := NormalizeHostname(address);
    if '%' in normalized then Failure(AddressForbidden) else ParseColons(TailRewritten(p, normalized))
  }

  // The text forms of RFC 4291 section 2.2

  type Octet = x: nat | x < 256

  datatype Quad = Quad(a: Octet, b: Octet, c: Octet, d: Octet)

  function QuadText(q: Quad): string {
    Join([DecimalText(q.a), DecimalText(q.b), DecimalText(q.c), DecimalText(q.d)], '.')
  }

  function QuadValue(q: Quad): (v: nat)
    ensures v < WORD
  {
    ((q.a * 256 + q.b) * 256 + q.c) * 256 + q.d
  }

  /** Eight groups in full, or with one run of zero groups elided; the last two may be a dotted quad. */
  datatype Form =
    | Full(groups: seq<string>, tail: Option<Quad>)
    | Elided(left: seq<string>, right: seq<string>, tail: Option<Quad>)

  predicate WellFormed(f: Form) {
    var two := if f.tail.Some? then 2 else 0;
    match f
    case Full(groups, _) => AllSegments(groups) && |groups| + two == 8
    case Elided(left, right, _) => AllSegments(left) && AllSegments(right) && |left| + |right| + two <= 8
  }

  function TailTexts(tail: Option<Quad>): seq<string> {
    if tail.Some? then [QuadText(tail.value)] else []
  }

  function Text(f: Form): string {
    match f
    case Full(groups, tail) => Join(groups + TailTexts(tail), ':')
    case Elided(left, right, tail) => Join(left, ':') + "::" + Join(right + TailTexts(tail), ':')
  }

  function Values(parts: seq<string>): (r: seq<nat>)
    requires AllSegments(parts)
    ensures |r| == |parts| && forall k :: 0 <= k < |parts| ==> r[k] == HexValue(parts[k])
  {
    seq(|parts|, k requires 0 <= k < |parts| => HexValue(parts[k]))
  }

  function TailGroups(tail: Option<Quad>): seq<nat> {
    match tail
    case Some(q) => [q.a * 256 + q.b, q.c * 256 + q.d]
    case None => []
  }

  function ZeroGroups(n: nat): (r: seq<nat>)
    ensures |r| == n && forall k :: 0 <= k < n ==> r[k] == 0
  {
    seq(n, _ => 0)
  }

  /** The eight 16-bit groups a form stands for. */
  function Groups(f: Form): seq<nat>
    requires WellFormed(f)
  {
    match f
    case Full(groups, tail) => Values(groups) + TailGroups(tail)
    case Elided(left, right, tail) =>
      var after := Values(right) + TailGroups(tail);
      Values(left) + ZeroGroups(8 - |left| - |after|) + after
  }

  function Positional(groups: seq<nat>): nat {
    if |groups| == 0 then 0 else Positional(groups[..|groups| - 1]) * 0x10000 + groups[|groups| - 1]
  }

  function Value(f: Form): nat
    requires WellFormed(f)
  {
    Positional(Groups(f))
  }

  /** Decimal numerals of octets are read as the octets they write. */
  ghost predicate ReadsOctets(p: Platform) {
    forall x: Octet :: p.number(DecimalText(x)) == x
  }

  // IPv4

  lemma ShlByte(v: nat)
    requires v < 0x100_0000
    ensures Shl32(v, 8) == v * 256
  {
    Pow2Of32();
  }

  lemma OrByte(v: nat, x: Octet)
    ensures Or(v * 256, x) == v * 256 + x
  {
    Pow2Of32();
    OrZeroLow(v, x, 8);
  }

  lemma ShiftOr(v: nat, x: Octet)
    requires v < 0x100_0000
    ensures Or(Shl32(v, 8), x % WORD) % WORD == v * 256 + x
  {
    hide Or, Shl32;
    ShlByte(v);
    OrByte(v, x);
  }

  lemma OctetStep(p: Platform, parts: seq<string>, v: nat, x: Octet)
    requires |parts| > 0 && FoldOctets(p, parts[..|parts| - 1]) == v && v < 0x100_0000 && p.number(parts[|parts| - 1]) == x
    ensures FoldOctets(p, parts) == v * 256 + x
  {
    ShiftOr(v, x);
  }

  /** The four octets of a dotted quad, most significant first. */
  lemma Ipv4RoundTrip(p: Platform, q: Quad)
    requires ReadsOctets(p)
    ensures Ipv4ToInteger(p, QuadText(q)) == QuadValue(q)
  {
    hide DecimalText, Or, Shl32;
    var parts := [DecimalText(q.a), DecimalText(q.b), DecimalText(q.c), DecimalText(q.d)];
    forall k | 0 <= k < 4
      ensures Free(parts[k], '.')
    {
      DecimalTextDigits([q.a, q.b, q.c, q.d][k]);
    }
    SplitJoin(parts, '.');
    assert parts[..3][..2] == parts[..2] && parts[..2][..1] == parts[..1] && parts[..1][..0] == [];
    assert FoldOctets(p, parts[..1][..0]) == 0;
    OctetStep(p, parts[..1], 0, q.a);
    OctetStep(p, parts[..2], q.a, q.b);
    OctetStep(p, parts[..3], q.a * 256 + q.b, q.c);
    OctetStep(p, parts, (q.a * 256 + q.b) * 256 + q.c, q.d);
  }

  // IPv6

  lemma {:induction false} FoldIsPositional(segments: seq<string>)
    requires AllSegments(segments)
    ensures FoldSegments(segments) == Positional(Values(segments))
  {
    if |segments| > 0 {
      var n := |segments| - 1;
      FoldIsPositional(segments[..n]);
      assert Values(segments)[..n] == Values(segments[..n]);
      SegmentBound(segments[n]);
      Pow2Of32();
      OrZeroLow(FoldSegments(segments[..n]), HexValue(segments[n]), 16);
    }
  }

  lemma SegmentsAreFree(parts: seq<string>, c: char)
    requires AllSegments(parts) && !IsHexDigit(c)
    ensures forall k :: 0 <= k < |parts| ==> |parts[k]| > 0 && Free(parts[k], c)
  {
  }

  lemma SegmentsAgain(parts: seq<string>)
    requires AllSegments(parts)
    ensures SegmentsOf(Join(parts, ':')) == parts
  {
    SegmentsAreFree(parts, ':');
    JoinIsSingle(parts);
    if |parts| > 0 {
      SplitJoin(parts, ':');
    }
  }

  lemma ParseFull(groups: seq<string>)
    requires AllSegments(groups) && |groups| == 8
    ensures ParseColons(Join(groups, ':')) == Success(Positional(Values(groups)))
  {
    SegmentsAreFree(groups, ':');
    JoinIsSingle(groups);
    SplitPairsSingle(Join(groups, ':'));
    SegmentsAgain(groups);
    FoldIsPositional(groups);
  }

  lemma ElidedHalves(left: seq<string>, right: seq<string>)
    requires AllSegments(left) && AllSegments(right)
    ensures SplitPairs(Join(left, ':') + "::" + Join(right, ':')) == [Join(left, ':'), Join(right, ':')]
    ensures SegmentsOf(Join(left, ':')) == left && SegmentsOf(Join(right, ':')) == right
  {
    SegmentsAreFree(left, ':');
    SegmentsAreFree(right, ':');
    JoinIsSingle(left);
    JoinIsSingle(right);
    SplitPairsOnce(Join(left, ':'), Join(right, ':'));
    SegmentsAgain(left);
    SegmentsAgain(right);
  }

  lemma ParseHalves(s: string, a: string, b: string, segments: seq<string>)
    requires SplitPairs(s) == [a, b] && |SegmentsOf(a)| + |SegmentsOf(b)| <= 8
    requires segments == SegmentsOf(a) + Zeros(8 - |SegmentsOf(a)| - |SegmentsOf(b)|) + SegmentsOf(b)
    requires AllSegments(segments)
    ensures ParseColons(s) == Success(FoldSegments(segments))
  {
  }

  lemma ParseElided(left: seq<string>, right: seq<string>)
    requires AllSegments(left) && AllSegments(right) && |left| + |right| <= 8
    ensures ParseColons(Join(left, ':') + "::" + Join(right, ':')) ==
            Success(Positional(Values(left) + ZeroGroups(8 - |left| - |right|) + Values(right)))
  {
    var segments := left + Zeros(8 - |left| - |right|) + right;
    ElidedHalves(left, right);
    FilledValues(left, 8 - |left| - |right|, right);
    ParseHalves(Join(left, ':') + "::" + Join(right, ':'), Join(left, ':'), Join(right, ':'), segments);
    FoldIsPositional(segments);
  }

  lemma FilledValues(left: seq<string>, n: nat, right: seq<string>)
    requires AllSegments(left) && AllSegments(right)
    ensures AllSegments(left + Zeros(n) + right)
    ensures Values(left + Zeros(n) + right) == Values(left) + ZeroGroups(n) + Values(right)
  {
    assert HexValue("0") == 0 by {
      assert "0"[..0] == "";
    }
  }

  /** Forms without a dotted tail. */
  lemma ParsePlain(f: Form)
    requires WellFormed(f) && f.tail.None?
    ensures ParseColons(Text(f)) == Success(Value(f))
  {
    hide ParseColons, Positional, Values, Join, ZeroGroups, AllSegments;
    match f
    case Full(groups, tail) =>
      assert groups + TailTexts(tail) == groups && Values(groups) + TailGroups(tail) == Values(groups);
      ParseFull(groups);
    case Elided(left, right, tail) =>
      assert right + TailTexts(tail) == right && Values(right) + TailGroups(tail) == Values(right);
      ParseElided(left, right);
  }

  /** The same address with its dotted tail written as two groups. */
  function Untailed(f: Form): Form {
    match f.tail
    case None => f
    case Some(q) =>
      var two := [HexText(q.a * 256 + q.b), HexText(q.c * 256 + q.d)];
      match f
      case Full(groups, _) => Full(groups + two, None)
      case Elided(left, right, _) => Elided(left, right + two, None)
  }

  lemma TwoMore(parts: seq<string>, q: Quad)
    requires AllSegments(parts)
    ensures var two := [HexText(q.a * 256 + q.b), HexText(q.c * 256 + q.d)];
      AllSegments(parts + two) && Values(parts + two) == Values(parts) + TailGroups(Some(q))
  {
    HexTextIsSegment(q.a * 256 + q.b);
    HexTextIsSegment(q.c * 256 + q.d);
  }

  lemma UntailedSame(f: Form)
    requires WellFormed(f)
    ensures WellFormed(Untailed(f)) && Value(Untailed(f)) == Value(f)
  {
    hide Values, Positional, HexText, AllSegments, ZeroGroups;
    match f.tail
    case None =>
    case Some(q) =>
      var parts := if f.Full? then f.groups else f.right;
      TwoMore(parts, q);
      var more := parts + [HexText(q.a * 256 + q.b), HexText(q.c * 256 + q.d)];
      assert Values(more) + TailGroups(None) == Values(more);
  }

  /** Parts that something else follows. */
  function Lead(parts: seq<string>): string {
    if |parts| > 0 then Join(parts, ':') + ":" else ""
  }

  /** Everything before the dotted tail; it ends in a colon. */
  function Head(f: Form): string {
    match f
    case Full(groups, _) => Lead(groups)
    case Elided(left, right, _) => Join(left, ':') + "::" + Lead(right)
  }

  lemma TextByHead(f: Form)
    requires f.tail.Some? && (f.Full? ==> |f.groups| > 0)
    ensures Text(f) == Head(f) + QuadText(f.tail.value)
    ensures |Head(f)| > 0 && Head(f)[|Head(f)| - 1] == ':'
  {
    var t := QuadText(f.tail.value);
    match f
    case Full(groups, _) => JoinOne(groups, t);
    case Elided(left, right, _) =>
      JoinOne(right, t);
      assert Join(left, ':') + "::" + (Lead(right) + t) == (Join(left, ':') + "::" + Lead(right)) + t;
  }

  lemma UntailedByHead(f: Form)
    requires f.tail.Some?
    ensures var q := f.tail.value;
      Text(Untailed(f)) == Head(f) + (HexText(q.a * 256 + q.b) + ":" + HexText(q.c * 256 + q.d))
  {
    var q := f.tail.value;
    var h, l := HexText(q.a * 256 + q.b), HexText(q.c * 256 + q.d);
    match f
    case Full(groups, _) =>
      JoinTwo(groups, h, l);
      assert groups + [h, l] + TailTexts(None) == groups + [h, l];
    case Elided(left, right, _) =>
      JoinTwo(right, h, l);
      assert right + [h, l] + TailTexts(None) == right + [h, l];
      assert Join(left, ':') + "::" + (Lead(right) + (h + ":" + l)) == (Join(left, ':') + "::" + Lead(right)) + (h + ":" + l);
  }

  lemma JoinOne(parts: seq<string>, last: string)
    ensures Join(parts + [last], ':') == Lead(parts) + last
  {
    assert (parts + [last])[..|parts|] == parts;
  }

  lemma JoinTwo(parts: seq<string>, h: string, l: string)
    ensures Join(parts + [h, l], ':') == Lead(parts) + (h + ":" + l)
  {
    assert parts + [h, l] == (parts + [h]) + [l];
    JoinOne(parts + [h], l);
    JoinOne(parts, h);
  }

  /** The dotted text, spelled out. */
  lemma QuadTextIs(q: Quad)
    ensures QuadText(q) == DecimalText(q.a) + "." + DecimalText(q.b) + "." + DecimalText(q.c) + "." + DecimalText(q.d)
  {
    hide DecimalText;
    var a, b, c, d := DecimalText(q.a), DecimalText(q.b), DecimalText(q.c), DecimalText(q.d);
    assert [a, b, c, d][..3] == [a, b, c] && [a, b, c][..2] == [a, b] && [a, b][..1] == [a];
    assert Join([a], '.') == a;
    assert Join([a, b], '.') == a + "." + b;
    assert Join([a, b, c], '.') == a + "." + b + "." + c;
  }

  lemma QuadTextChars(q: Quad)
    ensures |QuadText(q)| > 0 && '.' in QuadText(q)
    ensures Free(QuadText(q), ':') && Free(QuadText(q), '%')
    ensures '0' <= QuadText(q)[|QuadText(q)| - 1] <= '9'
    ensures Lower(QuadText(q)) == QuadText(q)
  {
    hide DecimalText, QuadText;
    QuadTextIs(q);
    DecimalTextDigits(q.a);
    DecimalTextDigits(q.b);
    DecimalTextDigits(q.c);
    DecimalTextDigits(q.d);
    assert QuadText(q)[|DecimalText(q.a)|] == '.';
  }

  lemma LastColon(head: string, tail: string)
    requires |head| > 0 && head[|head| - 1] == ':' && Free(tail, ':')
    ensures var k := LastIndexOf(head + tail, ':');
      k == |head| - 1 && (head + tail)[k + 1..] == tail && (head + tail)[..k] + ":" == head
  {
    var s := head + tail;
    assert s[|head| - 1] == ':';
    assert forall j :: |head| <= j < |s| ==> s[j] == tail[j - |head|];
  }

  lemma DottedRewrite(p: Platform, head: string, q: Quad)
    requires ReadsOctets(p) && |head| > 0 && head[|head| - 1] == ':'
    ensures TailRewritten(p, head + QuadText(q)) == head + (HexText(q.a * 256 + q.b) + ":" + HexText(q.c * 256 + q.d))
  {
    QuadTextChars(q);
    LastColon(head, QuadText(q));
    Ipv4RoundTrip(p, q);
    QuadHalves(q);
    DotInside(head, QuadText(q));
    Reassociated(head[..|head| - 1], HexText(q.a * 256 + q.b), HexText(q.c * 256 + q.d));
  }

  lemma TailRewrittenIs(p: Platform, f: Form)
    requires WellFormed(f) && ReadsOctets(p)
    ensures TailRewritten(p, Text(f)) == Text(Untailed(f))
  {
    match f.tail
    case None => PlainChars(f, '.');
    case Some(q) =>
      TextByHead(f);
      UntailedByHead(f);
      DottedRewrite(p, Head(f), q);
  }

  lemma DotInside(head: string, tail: string)
    requires '.' in tail
    ensures '.' in head + tail
  {
  }

  lemma Reassociated(a: string, b: string, c: string)
    ensures a + ":" + b + ":" + c == (a + ":") + (b + ":" + c)
  {
  }

  lemma QuadHalves(q: Quad)
    ensures QuadValue(q) / 0x10000 == q.a * 256 + q.b
    ensures QuadValue(q) % 0x10000 == q.c * 256 + q.d
  {
    Quotient(QuadValue(q), 0x10000, q.a * 256 + q.b, q.c * 256 + q.d);
  }

  /** A form without a dotted tail contains nothing but hexadecimal digits and colons. */
  lemma PlainChars(f: Form, c: char)
    requires WellFormed(f) && f.tail.None? && !IsHexDigit(c) && c != ':'
    ensures Free(Text(f), c)
  {
    var parts := if f.Full? then f.groups else f.right;
    assert parts + TailTexts(f.tail) == parts;
    SegmentsAreFree(parts, c);
    JoinIsFree(parts, ':', c);
    if f.Elided? {
      SegmentsAreFree(f.left, c);
      JoinIsFree(f.left, ':', c);
    }
  }

  lemma HeadIsFree(f: Form, c: char)
    requires WellFormed(f) && !IsHexDigit(c) && c != ':'
    ensures Free(Head(f), c)
  {
    var parts := if f.Full? then f.groups else f.right;
    SegmentsAreFree(parts, c);
    JoinIsFree(parts, ':', c);
    if f.Elided? {
      SegmentsAreFree(f.left, c);
      JoinIsFree(f.left, ':', c);
    }
  }

  function LowerForm(f: Form): Form {
    match f
    case Full(groups, tail) => Full(LowerAll(groups), tail)
    case Elided(left, right, tail) => Elided(LowerAll(left), LowerAll(right), tail)
  }

  lemma LowerSegments(parts: seq<string>)
    requires AllSegments(parts)
    ensures AllSegments(LowerAll(parts)) && Values(LowerAll(parts)) == Values(parts)
  {
    forall k | 0 <= k < |parts|
      ensures IsSegment(Lower(parts[k])) && HexValue(Lower(parts[k])) == HexValue(parts[k])
    {
      LowerKeepsHex(parts[k]);
    }
  }

  lemma LowerTailed(parts: seq<string>, tail: Option<Quad>)
    ensures Lower(Join(parts + TailTexts(tail), ':')) == Join(LowerAll(parts) + TailTexts(tail), ':')
  {
    LowerJoin(parts + TailTexts(tail));
    if tail.Some? {
      QuadTextChars(tail.value);
    }
    assert LowerAll(parts + TailTexts(tail)) == LowerAll(parts) + TailTexts(tail);
  }

  lemma LowerSame(f: Form)
    requires WellFormed(f)
    ensures WellFormed(LowerForm(f)) && Value(LowerForm(f)) == Value(f)
  {
    match f
    case Full(groups, _) => LowerSegments(groups);
    case Elided(left, right, tail) =>
      LowerSegments(left);
      LowerSegments(right);
      assert Groups(LowerForm(f)) == Groups(f);
  }

  lemma LowerText(f: Form)
    ensures Lower(Text(f)) == Text(LowerForm(f))
  {
    match f
    case Full(groups, tail) => LowerTailed(groups, tail);
    case Elided(left, right, tail) =>
      LowerTailed(right, tail);
      LowerJoin(left);
      LowerConcat(Join(left, ':') + "::", Join(right + TailTexts(tail), ':'));
      LowerConcat(Join(left, ':'), "::");
      assert Lower("::") == "::";
  }

  /** A text form is neither bracketed nor ends in a dot, and has no zone. */
  lemma FormChars(f: Form)
    requires WellFormed(f)
    ensures |Text(f)| > 0 && Text(f)[0] != '[' && Text(f)[|Text(f)| - 1] != '.'
    ensures Free(Text(f), '%')
  {
    if f.tail.Some? {
      QuadTextChars(f.tail.value);
      TextByHead(f);
      HeadIsFree(f, '%');
      HeadIsFree(f, '[');
    } else {
      PlainChars(f, '%');
      PlainChars(f, '[');
      PlainChars(f, '.');
      NotEmpty(f);
    }
  }

  lemma NotEmpty(f: Form)
    requires WellFormed(f) && f.tail.None?
    ensures |Text(f)| > 0
  {
    if f.Full? {
      assert f.groups + TailTexts(f.tail) == f.groups;
      SegmentsAreFree(f.groups, ':');
      JoinIsSingle(f.groups);
    }
  }

  lemma NormalizedForm(f: Form)
    requires WellFormed(f)
    ensures NormalizeHostname(Text(f)) == Text(LowerForm(f))
  {
    hide Text, LowerForm, AllSegments, Free, Lower;
    LowerSame(f);
    LowerText(f);
    FormChars(f);
    FormChars(LowerForm(f));
  }

  /**
   * The parser inverts every text form: any eight groups in any letter case and with any leading
   * zeros, any elided run of zero groups, and an optional dotted tail.
   */
  lemma Ipv6RoundTrip(p: Platform, f: Form)
    requires WellFormed(f) && ReadsOctets(p)
    ensures Ipv6ToBigInt(p, Text(f)) == Success(Value(f))
  {
    var lower := LowerForm(f);
    NormalizedForm(f);
    LowerSame(f);
    FormChars(lower);
    TailRewrittenIs(p, lower);
    UntailedSame(lower);
    ParsePlain(Untailed(lower));
  }

  lemma Bracketed(s: string)
    ensures NormalizeHostname("[" + s + "]") ==
            if |Lower(s)| > 0 && Lower(s)[|Lower(s)| - 1] == '.' then Lower(s)[..|Lower(s)| - 1] else Lower(s)
  {
    var bracketed := "[" + s + "]";
    assert bracketed[1..|bracketed| - 1] == s;
  }

  lemma Dotted(s: string)
    requires |s| > 0 && s[0] != '['
    ensures NormalizeHostname(s + ".") == Lower(s)
  {
    LowerConcat(s, ".");
    assert Lower(s + ".")[..|Lower(s + ".")| - 1] == Lower(s);
  }

  /** The brackets of a URL host and a final dot make no difference. */
  lemma HostForms(f: Form)
    requires WellFormed(f)
    ensures NormalizeHostname("[" + Text(f) + "]") == NormalizeHostname(Text(f))
    ensures NormalizeHostname(Text(f) + ".") == NormalizeHostname(Text(f))
  {
    hide Text, LowerForm, NormalizeHostname, Lower, Value, WellFormed;
    NormalizedForm(f);
    FormChars(f);
    LowerSame(f);
    FormChars(LowerForm(f));
    LowerText(f);
    Bracketed(Text(f));
    Dotted(Text(f));
  }
}
