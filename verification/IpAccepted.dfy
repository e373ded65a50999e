/** Which texts the IPv6 parser accepts: its forms, with any dotted text in the place of the quad, and nothing else. */
module IpAccepted {
  import opened Strings
  import opened Wrappers
  import opened Bits
  import opened IpText
  import opened IpAddress

  // Joining what was split

  lemma JoinExtend(parts: seq<string>, t: string, separator: char)
    requires |parts| > 0
    ensures Join(parts[|parts| - 1 := parts[|parts| - 1] + t], separator) == Join(parts, separator) + t
  {
    var n := |parts| - 1;
    assert parts[n := parts[n] + t][..n] == parts[..n];
    if n > 0 {
      assert Join(parts[..n], separator) + [separator] + (parts[n] + t) == (Join(parts[..n], separator) + [separator] + parts[n]) + t;
    }
  }

  lemma {:induction false} JoinSplit(s: string, separator: char)
    ensures Join(Split(s, separator), separator) == s
  {
    if |s| > 0 {
      var n := |s| - 1;
      var parts := Split(s[..n], separator);
      JoinSplit(s[..n], separator);
      if s[n] == separator {
        assert (parts + [""])[..|parts|] == parts;
      } else {
        JoinExtend(parts, [s[n]], separator);
      }
    }
  }

  lemma {:induction false} JoinPairs(s: string)
    ensures var parts := SplitPairs(s);
      (|parts| == 1 ==> s == parts[0]) && (|parts| == 2 ==> s == parts[0] + "::" + parts[1])
  {
    if |s| >= 2 && s[0] == ':' && s[1] == ':' {
      JoinPairs(s[2..]);
      assert s == "" + "::" + s[2..];
    } else if |s| > 0 {
      JoinPairs(s[1..]);
      PairsExtended(s);
    }
  }

  lemma PairsExtended(s: string)
    requires |s| > 0 && !(|s| >= 2 && s[0] == ':' && s[1] == ':')
    requires var parts := SplitPairs(s[1..]);
      (|parts| == 1 ==> s[1..] == parts[0]) && (|parts| == 2 ==> s[1..] == parts[0] + "::" + parts[1])
    ensures var parts := SplitPairs(s);
      (|parts| == 1 ==> s == parts[0]) && (|parts| == 2 ==> s == parts[0] + "::" + parts[1])
  {
    var parts := SplitPairs(s[1..]);
    assert SplitPairs(s) == parts[0 := [s[0]] + parts[0]];
    hide SplitPairs;
    assert s == [s[0]] + s[1..];
    if |parts| == 2 {
      assert [s[0]] + (parts[0] + "::" + parts[1]) == ([s[0]] + parts[0]) + "::" + parts[1];
    }
  }

  lemma SegmentsJoined(half: string)
    ensures Join(SegmentsOf(half), ':') == half
  {
    JoinSplit(half, ':');
  }

  /** The groups the colon parser checks. */
  function PartsOf(t: string): seq<string>
    requires |SplitPairs(t)| <= 2
    requires |SplitPairs(t)| == 2 ==> |SegmentsOf(SplitPairs(t)[0])| + |SegmentsOf(SplitPairs(t)[1])| <= 8
  {
    var halves := SplitPairs(t);
    var left := SegmentsOf(halves[0]);
    if |halves| == 1 then left
    else
      var right := SegmentsOf(halves[1]);
      left + Zeros(8 - |left| - |right|) + right
  }

  lemma ParsedParts(t: string)
    requires ParseColons(t).Success?
    ensures var halves := SplitPairs(t);
      |halves| <= 2 && (|halves| == 2 ==> |SegmentsOf(halves[0])| + |SegmentsOf(halves[1])| <= 8)
    ensures |PartsOf(t)| == 8 && AllSegments(PartsOf(t))
  {
    hide SplitPairs, SegmentsOf, AllSegments;
  }

  /** Whatever the colon parser accepts is a form without a dotted tail. */
  lemma ParsedIsForm(t: string) returns (f: Form)
    requires ParseColons(t).Success?
    ensures WellFormed(f) && f.tail.None? && Text(f) == t
  {
    hide Join, SegmentsOf, SplitPairs, ParseColons, AllSegments, Zeros;
    ParsedParts(t);
    var halves := SplitPairs(t);
    JoinPairs(t);
    var left := SegmentsOf(halves[0]);
    SegmentsJoined(halves[0]);
    if |halves| == 1 {
      f := Full(left, None);
      assert left + TailTexts(None) == left;
    } else {
      var right := SegmentsOf(halves[1]);
      SegmentsJoined(halves[1]);
      f := Elided(left, right, None);
      assert right + TailTexts(None) == right;
      PartsOfFilled(left, 8 - |left| - |right|, right);
    }
  }

  lemma PartsOfFilled(left: seq<string>, n: nat, right: seq<string>)
    requires AllSegments(left + Zeros(n) + right)
    ensures AllSegments(left) && AllSegments(right)
  {
    var all := left + Zeros(n) + right;
    assert forall k :: 0 <= k < |left| ==> all[k] == left[k];
    assert forall k :: 0 <= k < |right| ==> all[|left| + n + k] == right[k];
  }

  // Texts with a dot

  lemma LastPart(a: string, b: string, a': string, b': string)
    requires a + ":" + b == a' + ":" + b' && Free(b, ':') && Free(b', ':')
    ensures a == a' && b == b'
  {
    var s := a + ":" + b;
    assert s[|a|] == ':' && s[|a'|] == ':';
    assert forall j :: |a| < j < |s| ==> s[j] == b[j - |a| - 1];
    assert forall j :: |a'| < j < |s| ==> s[j] == b'[j - |a'| - 1];
    assert |a| == |a'|;
    assert a == s[..|a|] == a' && b == s[|a| + 1..] == b';
  }

  /** The quad that spells a 32-bit value. */
  function QuadOf(v: nat): (q: Quad)
    requires v < WORD
    ensures QuadValue(q) == v && q.a * 256 + q.b == v / 0x10000 && q.c * 256 + q.d == v % 0x10000
  {
    var high, low := v / 0x10000, v % 0x10000;
    Quad(high / 256, high % 256, low / 256, low % 256)
  }

  lemma IntegerFits(p: Platform, address: string)
    ensures Ipv4ToInteger(p, address) < WORD
  {
    hide Or, Shl32;
  }

  predicate EndsInColon(s: string) {
    |s| > 0 && s[|s| - 1] == ':'
  }

  lemma LeadEnds(prefix: string, parts: seq<string>)
    requires prefix == "" || EndsInColon(prefix)
    ensures prefix + Lead(parts) == "" || EndsInColon(prefix + Lead(parts))
  {
    hide Join;
  }

  /** The last two groups of a list can be read off its text, and what stands before them. */
  lemma LastTwo(prefix: string, parts: seq<string>, start: string, h: string, l: string)
    requires prefix == "" || EndsInColon(prefix)
    requires |parts| >= 2 && AllSegments(parts) && EndsInColon(start) && Free(h, ':') && Free(l, ':')
    requires prefix + Join(parts, ':') == start + (h + ":" + l)
    ensures parts == parts[..|parts| - 2] + [h, l] && prefix + Lead(parts[..|parts| - 2]) == start
  {
    hide Join, Lead, AllSegments, EndsInColon;
    var n := |parts| - 2;
    var init, y, z := parts[..n], parts[n], parts[n + 1];
    assert parts == init + [y, z];
    SegmentsAreFree(parts, ':');
    JoinTwo(init, y, z);
    var before := prefix + Lead(init);
    assert prefix + (Lead(init) + (y + ":" + z)) == (before + y) + ":" + z;
    assert start + (h + ":" + l) == (start + h) + ":" + l;
    LastPart(before + y, z, start + h, l);
    LeadEnds(prefix, init);
    ColonEnds(before, y, start, h);
  }

  lemma ColonEnds(before: string, y: string, start: string, h: string)
    requires before == "" || EndsInColon(before)
    requires EndsInColon(start) && Free(y, ':') && Free(h, ':') && before + y == start + h
    ensures before == start && y == h
  {
    var m := |start| - 1;
    assert start == start[..m] + ":";
    assert (start + h)[m] == ':';
    assert forall j :: |before| <= j < |before + y| ==> (before + y)[j] != ':';
    var k := |before| - 1;
    assert before == before[..k] + ":";
    LastPart(before[..k], y, start[..m], h);
  }

  /** A plain form whose text ends in two given groups is a dotted form with those groups in the place of the tail. */
  lemma TailRead(f: Form, start: string, h: string, l: string, q: Quad) returns (g: Form)
    requires WellFormed(f) && f.tail.None? && Text(f) == start + (h + ":" + l)
    requires EndsInColon(start) && |h| > 0 && |l| > 0 && Free(h, ':') && Free(l, ':')
    ensures WellFormed(g) && g.tail == Some(q) && Head(g) == start
    ensures f == if g.Full? then Full(g.groups + [h, l], None) else Elided(g.left, g.right + [h, l], None)
  {
    hide Join;
    match f {
      case Full(groups, _) =>
        assert groups + TailTexts(None) == groups && "" + Join(groups, ':') == Join(groups, ':');
        LastTwo("", groups, start, h, l);
        assert "" + Lead(groups[..6]) == Lead(groups[..6]);
        g := Full(groups[..6], Some(q));
      case Elided(left, right, _) =>
        assert right + TailTexts(None) == right;
        TwoOnTheRight(Join(left, ':'), right, start, h, l);
        LastTwo(Join(left, ':') + "::", right, start, h, l);
        g := Elided(left, right[..|right| - 2], Some(q));
    }
  }

  lemma TwoOnTheRight(left: string, right: seq<string>, start: string, h: string, l: string)
    requires left + "::" + Join(right, ':') == start + (h + ":" + l)
    requires AllSegments(right) && |h| > 0 && |l| > 0 && Free(h, ':') && Free(l, ':')
    ensures |right| >= 2
  {
    assert start + (h + ":" + l) == (start + h) + ":" + l;
    if |right| == 0 {
      LastAfterColon(left + ":", "", start + h, l);
      assert false;
    } else if |right| == 1 {
      SegmentsAreFree(right, ':');
      LastAfterColon(left, right[0], start + h, l);
      assert false;
    }
  }

  /** Two colons in a row before the last part leave nothing between them. */
  lemma LastAfterColon(left: string, last: string, a: string, l: string)
    requires (left + "::" + last == a + ":" + l || left + ":" + last == a + ":" + l) && Free(last, ':') && Free(l, ':')
    ensures last == l
    ensures left + "::" + last == a + ":" + l ==> a == left + ":"
  {
    if left + "::" + last == a + ":" + l {
      assert left + "::" + last == (left + ":") + ":" + last;
      LastPart(left + ":", last, a, l);
    } else {
      LastPart(left, last, a, l);
    }
  }

  lemma HexParts(v: nat)
    requires v < 0x10000
    ensures |HexText(v)| > 0 && Free(HexText(v), ':')
  {
    HexTextIsSegment(v);
  }

  /** Any dotted text after a colon is rewritten as the two groups of what it is read as. */
  lemma AnyTailRewritten(p: Platform, start: string, tail: string)
    requires EndsInColon(start) && '.' in start + tail && Free(tail, ':')
    ensures var v := Ipv4ToInteger(p, tail);
      TailRewritten(p, start + tail) == start + (HexText(v / 0x10000) + ":" + HexText(v % 0x10000))
  {
    hide Ipv4ToInteger, HexText;
    var v := Ipv4ToInteger(p, tail);
    LastColon(start, tail);
    Reassociated(start[..|start| - 1], HexText(v / 0x10000), HexText(v % 0x10000));
  }

  lemma ThreePartsFail(a: string, h: string, l: string)
    requires Free(a, ':') && Free(h, ':') && Free(l, ':') && |h| > 0
    ensures ParseColons(a + ":" + h + ":" + l).Failure?
  {
    var t := a + ":" + h + ":" + l;
    JoinThree(a, h, l);
    SplitJoin([a, h, l], ':');
    assert Single(t);
    SplitPairsSingle(t);
    hide Split, SplitPairs, Join, AllSegments;
  }

  lemma JoinThree(a: string, h: string, l: string)
    ensures Join([a, h, l], ':') == a + ":" + h + ":" + l
  {
    assert [a, h, l][..2] == [a, h] && [a, h][..1] == [a];
    assert Join([a, h], ':') == Join([a], ':') + ":" + h;
  }

  /** Without any colon a dotted text never becomes eight groups. */
  lemma NoColonFails(p: Platform, s: string)
    requires '.' in s && Free(s, ':')
    ensures ParseColons(TailRewritten(p, s)).Failure?
  {
    hide Ipv4ToInteger, HexText, ParseColons;
    var v := Ipv4ToInteger(p, s);
    IntegerFits(p, s);
    HexParts(v / 0x10000);
    HexParts(v % 0x10000);
    assert LastIndexOf(s, ':') == -1;
    assert s[LastIndexOf(s, ':') + 1..] == s;
    ThreePartsFail(s[..|s| - 1], HexText(v / 0x10000), HexText(v % 0x10000));
  }

  /** The normalized text writes the form, with any text read as the tail's quad in the quad's place. */
  ghost predicate Writes(p: Platform, text: string, f: Form) {
    WellFormed(f) &&
    match f.tail
    case None => text == Text(f)
    case Some(q) =>
      exists tail :: '.' in tail && Free(tail, ':') && Ipv4ToInteger(p, tail) == QuadValue(q) && text == Head(f) + tail
  }

  lemma PlainIsParsed(p: Platform, f: Form)
    requires WellFormed(f) && f.tail.None?
    ensures ParseColons(TailRewritten(p, Text(f))) == Success(Value(f))
  {
    hide ParseColons, Value, Text, WellFormed;
    PlainChars(f, '.');
    ParsePlain(f);
  }

  lemma TailedIsUntailed(p: Platform, f: Form, tail: string)
    requires f.tail.Some? && EndsInColon(Head(f)) && '.' in tail && Free(tail, ':')
    requires Ipv4ToInteger(p, tail) == QuadValue(f.tail.value)
    ensures TailRewritten(p, Head(f) + tail) == Text(Untailed(f))
  {
    hide Text, Head, TailRewritten, HexText, QuadValue, Ipv4ToInteger, Untailed, Free, EndsInColon;
    DotInside(Head(f), tail);
    AnyTailRewritten(p, Head(f), tail);
    QuadHalves(f.tail.value);
    UntailedByHead(f);
  }

  lemma HeadEnds(f: Form)
    requires WellFormed(f) && f.tail.Some?
    ensures EndsInColon(Head(f))
  {
    TextByHead(f);
  }

  lemma TailedIsParsed(p: Platform, f: Form, tail: string)
    requires WellFormed(f) && f.tail.Some? && '.' in tail && Free(tail, ':') && Ipv4ToInteger(p, tail) == QuadValue(f.tail.value)
    ensures ParseColons(TailRewritten(p, Head(f) + tail)) == Success(Value(f))
  {
    hide ParseColons, Value, Text, Head, WellFormed, TailRewritten, QuadValue, Ipv4ToInteger, Untailed, Free, EndsInColon;
    HeadEnds(f);
    TailedIsUntailed(p, f, tail);
    UntailedSame(f);
    PlainUntailed(f);
    ParsePlain(Untailed(f));
  }

  lemma PlainUntailed(f: Form)
    ensures Untailed(f).tail.None?
  {
    hide HexText;
  }

  lemma WrittenIsParsed(p: Platform, text: string, f: Form)
    requires Writes(p, text, f)
    ensures ParseColons(TailRewritten(p, text)) == Success(Value(f))
  {
    hide ParseColons, TailRewritten, Value, Text, Head, WellFormed;
    match f.tail
    case None => PlainIsParsed(p, f);
    case Some(q) =>
      var tail :| '.' in tail && Free(tail, ':') && Ipv4ToInteger(p, tail) == QuadValue(q) && text == Head(f) + tail;
      TailedIsParsed(p, f, tail);
  }

  lemma DottedTailIsWritten(p: Platform, start: string, tail: string) returns (g: Form)
    requires EndsInColon(start) && Free(tail, ':') && '.' in start + tail
    requires ParseColons(TailRewritten(p, start + tail)).Success?
    ensures Writes(p, start + tail, g)
  {
    hide TailRewritten, ParseColons, HexText, Ipv4ToInteger, Head, Text, WellFormed, EndsInColon;
    var v := Ipv4ToInteger(p, tail);
    IntegerFits(p, tail);
    AnyTailRewritten(p, start, tail);
    HexParts(v / 0x10000);
    HexParts(v % 0x10000);
    var f := ParsedIsForm(start + (HexText(v / 0x10000) + ":" + HexText(v % 0x10000)));
    g := TailRead(f, start, HexText(v / 0x10000), HexText(v % 0x10000), QuadOf(v));
    HeadIsFree(g, '.');
    assert '.' in tail;
  }

  lemma DottedIsWritten(p: Platform, text: string) returns (g: Form)
    requires '.' in text && ParseColons(TailRewritten(p, text)).Success?
    ensures Writes(p, text, g)
  {
    hide TailRewritten, ParseColons, Writes;
    var k := LastIndexOf(text, ':');
    if k < 0 {
      NoColonFails(p, text);
      assert false;
    }
    assert text == text[..k + 1] + text[k + 1..];
    g := DottedTailIsWritten(p, text[..k + 1], text[k + 1..]);
  }

  /**
   * The parser accepts a text exactly when, unbracketed and in lower case, it has no zone and is one
   * of the forms, where any text with a dot and no colon may stand for the quad it is read as; the
   * value is then the form's.
   */
  lemma Ipv6AcceptsExactly(p: Platform, address: string, v: nat)
    ensures Ipv6ToBigInt(p, address) == Success(v) <==>
            Free(NormalizeHostname(address), '%') && exists f :: Writes(p, NormalizeHostname(address), f) && Value(f) == v
  {
    var text := NormalizeHostname(address);
    if Ipv6ToBigInt(p, address) == Success(v) {
      var f;
      if '.' in text {
        f := DottedIsWritten(p, text);
      } else {
        f := ParsedIsForm(text);
      }
      WrittenIsParsed(p, text, f);
    }
    if Free(text, '%') && exists f :: Writes(p, text, f) && Value(f) == v {
      var f :| Writes(p, text, f) && Value(f) == v;
      WrittenIsParsed(p, text, f);
      hide ParseColons, TailRewritten;
    }
  }
}
