/** Delivery references cut into segments, and whether an edit of one leaves its spatial part alone. */
module DestinationText {
  import opened IpText
  import opened Strings

  datatype SegmentClass = Spatial | Instruction | Unrecognized

  /** How a trimmed, nonempty segment is recognised; the vocabularies behind it stay abstract. */
  type Classifier = string -> SegmentClass

  datatype ChangeClass = SPATIAL | NON_SPATIAL | AMBIGUOUS

  predicate HyphenAhead(text: string) {
    |text| >= 3 && Blank(text[0]) && text[1] == '-' && Blank(text[2])
  }

  /** A hyphen between two blanks separates, and so does every comma, semicolon and line break. */
  function Cut(text: string): (parts: seq<string>)
    ensures |parts| > 0
  {
    if |text| == 0 then [""]
    else if text[0] in {',', ';', '\n'} then [""] + Cut(text[1..])
    else if HyphenAhead(text) then [""] + Cut(text[3..])
    else
      var parts := Cut(text[1..]);
      [[text[0]] + parts[0]] + parts[1..]
  }

  /** The trimmed, nonempty parts. */
  function Trimmed(parts: seq<string>): (r: seq<string>)
    ensures forall k :: 0 <= k < |r| ==> |r[k]| > 0
  {
    if |parts| == 0 then []
    else
      var last := Trim(parts[|parts| - 1]);
      Trimmed(parts[..|parts| - 1]) + if |last| > 0 then [last] else []
  }

  function Segments(text: string): seq<string> {
    Trimmed(Cut(text))
  }

  function Select(segments: seq<string>, classify: Classifier, kind: SegmentClass): seq<string> {
    if |segments| == 0 then []
    else
      var last := segments[|segments| - 1];
      Select(segments[..|segments| - 1], classify, kind) + if classify(last) == kind then [last] else []
  }

  function SpatialOf(text: string, classify: Classifier): seq<string> {
    Select(Segments(text), classify, Spatial)
  }

  function UnrecognizedOf(text: string, classify: Classifier): set<string> {
    set s | s in Select(Segments(text), classify, Unrecognized)
  }

  function Joined(segments: seq<string>): string {
    Join(segments, ' ')
  }

  /** Fail-closed: only a change proved to leave every spatial segment alone is NON_SPATIAL. */
  function ClassifyChange(previous: string, next: string, classify: Classifier): ChangeClass {
    if previous == next then NON_SPATIAL
    else if |SpatialOf(previous, classify)| == 0 || |SpatialOf(next, classify)| == 0 then AMBIGUOUS
    else if UnrecognizedOf(previous, classify) != UnrecognizedOf(next, classify) then AMBIGUOUS
    else if Joined(SpatialOf(previous, classify)) == Joined(SpatialOf(next, classify)) then NON_SPATIAL
    else SPATIAL
  }

  /** One pass over the segments, as the service runs it. */
  method SplitReference(text: string, classify: Classifier) returns (spatial: seq<string>, unrecognized: seq<string>)
    ensures spatial == SpatialOf(text, classify)
    ensures (set s | s in unrecognized) == UnrecognizedOf(text, classify)
    ensures |spatial| + |unrecognized| <= |Segments(text)|
  {
    hide Segments;
    var segments := Segments(text);
    spatial, unrecognized := [], [];
    for n := 0 to |segments|
      invariant spatial == Select(segments[..n], classify, Spatial)
      invariant unrecognized == Select(segments[..n], classify, Unrecognized)
      invariant |spatial| + |unrecognized| <= n
    {
      assert segments[..n + 1][..n] == segments[..n];
      match classify(segments[n]) {
        case Spatial => spatial := spatial + [segments[n]];
        case Unrecognized => unrecognized := unrecognized + [segments[n]];
        case Instruction =>
      }
    }
    assert segments[..|segments|] == segments;
  }

  // NON_SPATIAL is an equivalence

  predicate NonSpatial(a: string, b: string, classify: Classifier) {
    ClassifyChange(a, b, classify) == NON_SPATIAL
  }

  /** What an edit must keep: some spatial segment, the unrecognised segments as a set, the spatial ones as joined. */
  lemma NonSpatialMeans(a: string, b: string, classify: Classifier)
    ensures NonSpatial(a, b, classify) <==>
            a == b ||
            (|SpatialOf(a, classify)| > 0 && |SpatialOf(b, classify)| > 0 &&
             UnrecognizedOf(a, classify) == UnrecognizedOf(b, classify) &&
             Joined(SpatialOf(a, classify)) == Joined(SpatialOf(b, classify)))
  {
  }

  /** When the other two classes are given. */
  lemma ChangeMeans(a: string, b: string, classify: Classifier)
    ensures ClassifyChange(a, b, classify) == AMBIGUOUS <==>
            a != b &&
            (SpatialOf(a, classify) == [] || SpatialOf(b, classify) == [] || UnrecognizedOf(a, classify) != UnrecognizedOf(b, classify))
    ensures ClassifyChange(a, b, classify) == SPATIAL <==>
            SpatialOf(a, classify) != [] && SpatialOf(b, classify) != [] &&
            UnrecognizedOf(a, classify) == UnrecognizedOf(b, classify) &&
            Join(SpatialOf(a, classify), ' ') != Join(SpatialOf(b, classify), ' ')
  {
  }

  lemma NonSpatialIsEquivalence(a: string, b: string, c: string, classify: Classifier)
    ensures NonSpatial(a, a, classify)
    ensures NonSpatial(a, b, classify) ==> NonSpatial(b, a, classify)
    ensures NonSpatial(a, b, classify) && NonSpatial(b, c, classify) ==> NonSpatial(a, c, classify)
  {
  }

  // Inserting or dropping instructions

  lemma {:induction false} CutConcat(a: string, separator: char, b: string)
    requires separator in {',', ';'}
    ensures Cut(a + [separator] + b) == Cut(a) + Cut(b)
    decreases |a|
  {
    hide Blank;
    var s := a + [separator] + b;
    if |a| == 0 {
      assert s[1..] == b;
    } else if a[0] in {',', ';', '\n'} {
      assert s[0] == a[0] && s[1..] == a[1..] + [separator] + b;
      CutConcat(a[1..], separator, b);
    } else if HyphenAhead(a) {
      assert s[..3] == a[..3] && s[3..] == a[3..] + [separator] + b;
      CutConcat(a[3..], separator, b);
    } else {
      assert s[0] == a[0] && s[1..] == a[1..] + [separator] + b;
      NoHyphenAcross(a, separator, b);
      CutConcat(a[1..], separator, b);
    }
  }

  /** A hyphen separator does not reach across a comma or semicolon. */
  lemma NoHyphenAcross(a: string, separator: char, b: string)
    requires separator in {',', ';'} && |a| > 0 && !HyphenAhead(a)
    ensures !HyphenAhead(a + [separator] + b)
  {
    var s := a + [separator] + b;
    assert |a| == 1 ==> s[1] == separator;
    assert |a| == 2 ==> s[2] == separator && s[1] == a[1];
    assert |a| >= 3 ==> s[1] == a[1] && s[2] == a[2];
  }

  /** The text ends in a blank and a hyphen, which a blank after it would make a separator. */
  predicate HyphenOpen(a: string) {
    |a| >= 2 && Blank(a[|a| - 2]) && a[|a| - 1] == '-'
  }

  lemma {:induction false} CutAtLineBreak(a: string, b: string)
    requires !HyphenOpen(a)
    ensures Cut(a + "\n" + b) == Cut(a) + Cut(b)
    decreases |a|
  {
    hide Blank, HyphenAhead, HyphenOpen;
    var s := a + "\n" + b;
    if |a| == 0 {
      assert s[1..] == b;
    } else {
      var taken := if a[0] in {',', ';', '\n'} || !HyphenAhead(a) then 1 else 3;
      LineBreakAfter(a, b, taken);
      assert s[0] == a[0] && s[taken..] == a[taken..] + "\n" + b;
      CutAtLineBreak(a[taken..], b);
    }
  }

  /** A line break after the text opens no separator inside it. */
  lemma LineBreakAfter(a: string, b: string, taken: nat)
    requires !HyphenOpen(a) && |a| > 0
    requires taken == if a[0] in {',', ';', '\n'} || !HyphenAhead(a) then 1 else 3
    ensures taken <= |a| && !HyphenOpen(a[taken..])
    ensures a[0] !in {',', ';', '\n'} ==> (HyphenAhead(a + "\n" + b) <==> HyphenAhead(a))
  {
    var s := a + "\n" + b;
    assert |a| == 1 ==> s[1] == '\n';
    assert |a| >= 2 ==> s[1] == a[1];
    assert |a| >= 3 ==> s[2] == a[2];
  }

  /** After text without hyphens, a hyphen between two blanks cuts. */
  lemma {:induction false} CutAtHyphen(a: string, x: char, y: char, b: string)
    requires Free(a, '-') && Blank(x) && x != '\n' && Blank(y)
    ensures Cut(a + [x, '-', y] + b) == Cut(a) + Cut(b)
    decreases |a|
  {
    var s := a + [x, '-', y] + b;
    if |a| == 0 {
      assert s[..3] == [x, '-', y] && s[3..] == b;
      assert x !in {',', ';'};
    } else {
      assert s[0] == a[0] && s[1..] == a[1..] + [x, '-', y] + b;
      assert s[1] == if |a| == 1 then x else a[1];
      CutAtHyphen(a[1..], x, y, b);
    }
  }

  /** Nothing else cuts. */
  lemma {:induction false} NothingToCut(text: string)
    requires Free(text, ',') && Free(text, ';') && Free(text, '\n')
    requires forall k :: 0 <= k < |text| ==> !HyphenAhead(text[k..])
    ensures Cut(text) == [text]
  {
    if |text| > 0 {
      assert text[0..] == text;
      assert forall k :: 0 <= k < |text| - 1 ==> text[1..][k..] == text[k + 1..];
      NothingToCut(text[1..]);
      assert [text[0]] + text[1..] == text;
    }
  }

  lemma {:induction false} TrimmedConcat(s: seq<string>, t: seq<string>)
    ensures Trimmed(s + t) == Trimmed(s) + Trimmed(t)
  {
    if |t| == 0 {
      assert s + t == s && Trimmed(s) + [] == Trimmed(s);
    } else {
      TrimmedConcat(s, t[..|t| - 1]);
      assert (s + t)[..|s + t| - 1] == s + t[..|t| - 1];
    }
  }

  lemma {:induction false} SelectConcat(s: seq<string>, t: seq<string>, classify: Classifier, kind: SegmentClass)
    ensures Select(s + t, classify, kind) == Select(s, classify, kind) + Select(t, classify, kind)
  {
    if |t| == 0 {
      assert s + t == s && Select(s, classify, kind) + [] == Select(s, classify, kind);
    } else {
      SelectConcat(s, t[..|t| - 1], classify, kind);
      assert (s + t)[..|s + t| - 1] == s + t[..|t| - 1];
    }
  }

  /** What one part contributes. */
  lemma OnePart(part: string, classify: Classifier, kind: SegmentClass)
    ensures Trimmed([part]) == if AllBlank(part) then [] else [Trim(part)]
    ensures Select([part], classify, kind) == if classify(part) == kind then [part] else []
  {
    TrimsToNothing(part);
    assert [part][..0] == [];
  }

  lemma SegmentsConcat(a: string, separator: char, b: string)
    requires separator in {',', ';'}
    ensures Segments(a + [separator] + b) == Segments(a) + Segments(b)
  {
    CutConcat(a, separator, b);
    TrimmedConcat(Cut(a), Cut(b));
  }

  /** Every segment of the text is an instruction. */
  predicate OnlyInstructions(text: string, classify: Classifier) {
    forall s | s in Segments(text) :: classify(s) == Instruction
  }

  lemma {:induction false} NothingSelected(segments: seq<string>, classify: Classifier, kind: SegmentClass)
    requires kind != Instruction && forall s :: s in segments ==> classify(s) == Instruction
    ensures Select(segments, classify, kind) == []
  {
    if |segments| > 0 {
      NothingSelected(segments[..|segments| - 1], classify, kind);
      assert segments[|segments| - 1] in segments;
    }
  }

  lemma SelectedAround(s: seq<string>, note: seq<string>, t: seq<string>, classify: Classifier, kind: SegmentClass)
    requires kind != Instruction && forall x :: x in note ==> classify(x) == Instruction
    ensures Select(s + note + t, classify, kind) == Select(s + t, classify, kind)
  {
    SelectConcat(s + note, t, classify, kind);
    SelectConcat(s, note, classify, kind);
    SelectConcat(s, t, classify, kind);
    NothingSelected(note, classify, kind);
  }

  predicate Separator(c: char) {
    c in {',', ';'}
  }

  /** What a change class looks at: the spatial segments in order, and the unrecognised ones. */
  predicate SameParts(a: string, b: string, classify: Classifier) {
    SpatialOf(a, classify) == SpatialOf(b, classify) && UnrecognizedOf(a, classify) == UnrecognizedOf(b, classify)
  }

  /** Text of instructions between two parts changes no spatial or unrecognised segment. */
  lemma InstructionsAreInert(a: string, x: char, note: string, y: char, b: string, z: char, classify: Classifier)
    requires OnlyInstructions(note, classify) && Separator(x) && Separator(y) && Separator(z)
    ensures SameParts(a + [x] + note + [y] + b, a + [z] + b, classify)
  {
    SegmentsConcat(a + [x] + note, y, b);
    SegmentsConcat(a, x, note);
    SegmentsConcat(a, z, b);
    SelectedAround(Segments(a), Segments(note), Segments(b), classify, Spatial);
    SelectedAround(Segments(a), Segments(note), Segments(b), classify, Unrecognized);
  }

  /** ... nor do instructions before the first part, or after the last. */
  lemma InstructionsAtTheEnds(text: string, x: char, note: string, classify: Classifier)
    requires OnlyInstructions(note, classify) && Separator(x)
    ensures SameParts(text + [x] + note, text, classify) && SameParts(note + [x] + text, text, classify)
  {
    SegmentsConcat(text, x, note);
    SegmentsConcat(note, x, text);
    SelectedAround(Segments(text), Segments(note), [], classify, Spatial);
    SelectedAround(Segments(text), Segments(note), [], classify, Unrecognized);
    SelectedAround([], Segments(note), Segments(text), classify, Spatial);
    SelectedAround([], Segments(note), Segments(text), classify, Unrecognized);
    Padded(Segments(text), Segments(note));
  }

  lemma Padded(s: seq<string>, t: seq<string>)
    ensures s + t + [] == s + t && s + [] == s && [] + t + s == t + s && [] + s == s
  {
  }

  /** An edit that leaves those parts alone is NON_SPATIAL exactly when the text has a spatial segment. */
  lemma SamePartsNonSpatial(a: string, b: string, classify: Classifier)
    requires a != b && SameParts(a, b, classify)
    ensures NonSpatial(a, b, classify) <==> |SpatialOf(a, classify)| > 0
    ensures NonSpatial(b, a, classify) <==> |SpatialOf(a, classify)| > 0
  {
  }

  /** Inserting instructions between two parts, or dropping them, is NON_SPATIAL exactly when the text has a spatial segment. */
  lemma InsertionIsNonSpatial(a: string, x: char, note: string, y: char, b: string, z: char, classify: Classifier)
    requires OnlyInstructions(note, classify) && Separator(x) && Separator(y) && Separator(z)
    ensures var without, with := a + [z] + b, a + [x] + note + [y] + b;
      && (NonSpatial(without, with, classify) <==> |SpatialOf(without, classify)| > 0)
      && (NonSpatial(with, without, classify) <==> |SpatialOf(without, classify)| > 0)
  {
    hide SameParts, NonSpatial;
    InstructionsAreInert(a, x, note, y, b, z, classify);
    SamePartsSymmetric(a + [x] + note + [y] + b, a + [z] + b, classify);
    assert |a + [z] + b| < |a + [x] + note + [y] + b|;
    SamePartsNonSpatial(a + [z] + b, a + [x] + note + [y] + b, classify);
  }

  /** So is putting instructions before the first part or after the last, or dropping them there. */
  lemma EndInsertionIsNonSpatial(text: string, x: char, note: string, classify: Classifier)
    requires OnlyInstructions(note, classify) && Separator(x)
    ensures forall with :: with in {text + [x] + note, note + [x] + text} ==>
      && (NonSpatial(text, with, classify) <==> |SpatialOf(text, classify)| > 0)
      && (NonSpatial(with, text, classify) <==> |SpatialOf(text, classify)| > 0)
  {
    hide SameParts, NonSpatial;
    InstructionsAtTheEnds(text, x, note, classify);
    forall with | with in {text + [x] + note, note + [x] + text}
      ensures NonSpatial(text, with, classify) <==> |SpatialOf(text, classify)| > 0
      ensures NonSpatial(with, text, classify) <==> |SpatialOf(text, classify)| > 0
    {
      SamePartsSymmetric(with, text, classify);
      assert |text| < |with|;
      SamePartsNonSpatial(text, with, classify);
    }
  }

  lemma SamePartsSymmetric(a: string, b: string, classify: Classifier)
    requires SameParts(a, b, classify)
    ensures SameParts(b, a, classify)
  {
  }
}
