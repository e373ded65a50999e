/** Chains of edits of a delivery destination: where its coordinates come from. */
module DestinationEdits {
  import opened Strings
  import opened Wrappers
  import opened DestinationText

  datatype PairSource = ExplicitPair | ExistingPair | NoPair

  datatype Axis = Latitude | Longitude

  datatype Resolution = Resolution(
    latitude: Option<real>,
    longitude: Option<real>,
    source: PairSource,
    discarded: Option<Axis>)

  /** A pair is taken from one source or not at all; a lone submitted axis is discarded. */
  function ResolveAtomicCoordinatePair(explicitLatitude: Option<real>, explicitLongitude: Option<real>,
                                       existingLatitude: Option<real>, existingLongitude: Option<real>): (r: Resolution)
    ensures r.latitude.Some? <==> r.longitude.Some?
    ensures r.discarded == Some(Latitude) <==> explicitLatitude.Some? && explicitLongitude.None?
    ensures r.discarded == Some(Longitude) <==> explicitLatitude.None? && explicitLongitude.Some?
    ensures r.source == ExplicitPair <==> explicitLatitude.Some? && explicitLongitude.Some?
    ensures r.source == NoPair <==> r.latitude.None?
    ensures (r.source == ExplicitPair ==> r.latitude == explicitLatitude && r.longitude == explicitLongitude) &&
            (r.source == ExistingPair ==> r.latitude == existingLatitude && r.longitude == existingLongitude)
  {
    if explicitLatitude.Some? && explicitLongitude.Some? then
      Resolution(explicitLatitude, explicitLongitude, ExplicitPair, None)
    else
      var discarded :=
        if explicitLatitude.Some? == explicitLongitude.Some? then None
        else if explicitLatitude.Some? then Some(Latitude) else Some(Longitude);
      if existingLatitude.Some? && existingLongitude.Some? then
        Resolution(existingLatitude, existingLongitude, ExistingPair, discarded)
      else Resolution(None, None, NoPair, discarded)
  }

  /** The stored destination: its normalized text, its coordinates, and when they were captured. */
  datatype Destination = Destination(
    text: Option<string>,
    latitude: Option<real>,
    longitude: Option<real>,
    receivedAt: Option<int>)

  const UNKNOWN: Destination := Destination(None, None, None, None)

  /** One edit; a blank reference is None. */
  datatype Edit = Edit(now: int, reference: Option<string>, latitude: Option<real>, longitude: Option<real>)

  /** How references are recognised and normalized. */
  datatype Reader = Reader(classify: Classifier, normalize: string -> string)

  /** Normalizing a stored text again changes nothing. */
  ghost predicate Stable(reader: Reader) {
    forall s :: reader.normalize(reader.normalize(s)) == reader.normalize(s)
  }

  /** Whether the reference text changed in a way that may have moved the destination. */
  predicate ReferenceChanged(reader: Reader, stored: Option<string>, reference: Option<string>) {
    reference.Some? && stored.Some? && |stored.value| > 0 &&
    var previous := reader.normalize(stored.value);
    var next := reader.normalize(reference.value);
    previous != next && ClassifyChange(previous, next, reader.classify) != NON_SPATIAL
  }

  function Apply(reader: Reader, d: Destination, e: Edit): Destination {
    var changed := ReferenceChanged(reader, d.text, e.reference);
    var pair := ResolveAtomicCoordinatePair(e.latitude, e.longitude,
                                            if changed then None else d.latitude, if changed then None else d.longitude);
    Destination(
      if e.reference.Some? then Some(reader.normalize(e.reference.value)) else None,
      pair.latitude,
      pair.longitude,
      match pair.source
      case ExplicitPair => Some(e.now)
      case ExistingPair => d.receivedAt
      case NoPair => None)
  }

  function ApplyAll(reader: Reader, edits: seq<Edit>): Destination {
    if |edits| == 0 then UNKNOWN else Apply(reader, ApplyAll(reader, edits[..|edits| - 1]), edits[|edits| - 1])
  }

  /** The reference is compared with a stored text. */
  predicate Compared(d: Destination, e: Edit) {
    e.reference.Some? && d.text.Some? && |d.text.value| > 0
  }

  function ClassOf(reader: Reader, d: Destination, e: Edit): ChangeClass
    requires Compared(d, e)
  {
    ClassifyChange(reader.normalize(d.text.value), reader.normalize(e.reference.value), reader.classify)
  }

  predicate HasPlace(d: Destination) {
    d.latitude.Some? && d.longitude.Some?
  }

  /** The edit submits both axes: a capture event. */
  predicate Captures(e: Edit) {
    e.latitude.Some? && e.longitude.Some?
  }

  /** The edit says in words where the destination is. */
  predicate Written(reader: Reader, e: Edit) {
    e.reference.Some? && |reader.normalize(e.reference.value)| > 0
  }

  /** A capture replaces the coordinates and their time, whatever the text says. */
  lemma CaptureReplaces(reader: Reader, d: Destination, e: Edit)
    requires Captures(e)
    ensures Apply(reader, d, e) ==
            Destination(Apply(reader, d, e).text, e.latitude, e.longitude, Some(e.now))
  {
  }

  /** Any other edit keeps coordinates and their time exactly when a compared text is NON_SPATIAL, and drops both axes otherwise. */
  lemma EditKeepsExactly(reader: Reader, d: Destination, e: Edit)
    requires !Captures(e)
    ensures var after := Apply(reader, d, e);
      && (HasPlace(d) && (Compared(d, e) ==> ClassOf(reader, d, e) == NON_SPATIAL) ==>
            after.latitude == d.latitude && after.longitude == d.longitude && after.receivedAt == d.receivedAt)
      && (!HasPlace(d) || (Compared(d, e) && ClassOf(reader, d, e) in {SPATIAL, AMBIGUOUS}) ==>
            after.latitude.None? && after.longitude.None? && after.receivedAt.None?)
      && after.text == (if e.reference.Some? then Some(reader.normalize(e.reference.value)) else None)
  {
  }

  /** The coordinates stand for edit `k`: both axes and the time are that capture's, and no later capture exists. */
  ghost predicate CapturedAt(edits: seq<Edit>, k: nat, d: Destination) {
    && k < |edits| && Captures(edits[k])
    && d.latitude == edits[k].latitude && d.longitude == edits[k].longitude && d.receivedAt == Some(edits[k].now)
    && forall j :: k < j < |edits| ==> !Captures(edits[j])
  }

  /** Over any chain of edits the coordinates are absent, or both from the one latest capture event. */
  lemma {:induction false} OneCapture(reader: Reader, edits: seq<Edit>)
    ensures var d := ApplyAll(reader, edits);
      (d.latitude.None? && d.longitude.None? && d.receivedAt.None?) || exists k :: CapturedAt(edits, k, d)
  {
    if |edits| > 0 {
      var n := |edits| - 1;
      var before, d := ApplyAll(reader, edits[..n]), ApplyAll(reader, edits);
      OneCapture(reader, edits[..n]);
      if Captures(edits[n]) {
        assert CapturedAt(edits, n, d);
      } else if d.latitude.Some? {
        var k :| CapturedAt(edits[..n], k, before);
        assert CapturedAt(edits, k, d);
      }
    }
  }

  /** The normalized text an edit leaves behind. */
  function TextOf(reader: Reader, e: Edit): string {
    if e.reference.Some? then reader.normalize(e.reference.value) else ""
  }

  /** Edit `j` leaves its place alone: it or the one before says nothing in words, or the two texts are NON_SPATIAL. */
  ghost predicate KeepsPlace(reader: Reader, edits: seq<Edit>, j: nat)
    requires 0 < j < |edits|
  {
    edits[j].reference.None? || TextOf(reader, edits[j - 1]) == "" ||
    NonSpatial(TextOf(reader, edits[j - 1]), TextOf(reader, edits[j]), reader.classify)
  }

  ghost predicate CarriedFrom(reader: Reader, edits: seq<Edit>, k: nat) {
    k < |edits| && Captures(edits[k]) && forall j :: k < j < |edits| ==> KeepsPlace(reader, edits, j)
  }

  lemma CarriedOn(reader: Reader, edits: seq<Edit>)
    requires |edits| > 0 && !Captures(edits[|edits| - 1])
    ensures var n := |edits| - 1;
      (exists k: nat :: CarriedFrom(reader, edits, k)) <==>
      n > 0 && KeepsPlace(reader, edits, n) && exists k: nat :: CarriedFrom(reader, edits[..n], k)
  {
    hide NonSpatial, TextOf;
    var n := |edits| - 1;
    var before := edits[..n];
    assert forall j :: 0 < j < n ==> (KeepsPlace(reader, before, j) <==> KeepsPlace(reader, edits, j));
    hide KeepsPlace;
    if k: nat :| CarriedFrom(reader, before, k) {
      assert KeepsPlace(reader, edits, n) ==> CarriedFrom(reader, edits, k);
    }
    if k: nat :| CarriedFrom(reader, edits, k) {
      assert KeepsPlace(reader, edits, n) && CarriedFrom(reader, before, k);
    }
  }

  /** After any chain of edits there are coordinates exactly when some capture was carried on by every later edit. */
  lemma {:induction false} SurvivesExactly(reader: Reader, edits: seq<Edit>)
    requires Stable(reader)
    ensures HasPlace(ApplyAll(reader, edits)) <==> exists k: nat :: CarriedFrom(reader, edits, k)
  {
    hide KeepsPlace, Apply, TextOf;
    if |edits| > 0 {
      var n := |edits| - 1;
      if Captures(edits[n]) {
        CaptureReplaces(reader, ApplyAll(reader, edits[..n]), edits[n]);
        assert CarriedFrom(reader, edits, n);
      } else {
        SurvivesExactly(reader, edits[..n]);
        LastKeeps(reader, edits);
        CarriedOn(reader, edits);
      }
    }
  }

  lemma LastKeeps(reader: Reader, edits: seq<Edit>)
    requires Stable(reader) && |edits| > 0 && !Captures(edits[|edits| - 1])
    ensures |edits| == 1 ==> !HasPlace(ApplyAll(reader, edits))
    ensures |edits| > 1 ==>
      (HasPlace(ApplyAll(reader, edits)) <==>
       HasPlace(ApplyAll(reader, edits[..|edits| - 1])) && KeepsPlace(reader, edits, |edits| - 1))
  {
    var n := |edits| - 1;
    EditKeepsExactly(reader, ApplyAll(reader, edits[..n]), edits[n]);
    if n > 0 {
      StoredText(reader, edits[..n]);
    }
    hide NonSpatial, Apply;
  }

  lemma StoredText(reader: Reader, edits: seq<Edit>)
    requires |edits| > 0
    ensures var d := ApplyAll(reader, edits);
      var last := edits[|edits| - 1];
      && (d.text.Some? <==> last.reference.Some?)
      && (d.text.Some? ==> d.text.value == TextOf(reader, last))
  {
  }

  /**
   * While every edit since the capture says in words where the destination is, surviving coordinates
   * were captured under a text that is NON_SPATIAL to the current one.
   */
  lemma {:induction false} TextAtCaptureStillHolds(reader: Reader, edits: seq<Edit>, k: nat)
    requires Stable(reader) && k < |edits| && CapturedAt(edits, k, ApplyAll(reader, edits))
    requires forall j :: k <= j < |edits| ==> Written(reader, edits[j])
    ensures NonSpatial(TextOf(reader, edits[k]), TextOf(reader, edits[|edits| - 1]), reader.classify)
  {
    var n := |edits| - 1;
    if k < n {
      var before := ApplyAll(reader, edits[..n]);
      assert Written(reader, edits[n]) && Written(reader, edits[n - 1]);
      LastText(reader, edits[..n]);
      assert edits[..n][n - 1] == edits[n - 1];
      assert CapturedAt(edits[..n], k, before);
      TextAtCaptureStillHolds(reader, edits[..n], k);
      NonSpatialIsEquivalence(TextOf(reader, edits[k]), TextOf(reader, edits[n - 1]), TextOf(reader, edits[n]), reader.classify);
    }
  }

  lemma LastText(reader: Reader, edits: seq<Edit>)
    requires |edits| > 0 && Written(reader, edits[|edits| - 1])
    ensures ApplyAll(reader, edits).text == Some(TextOf(reader, edits[|edits| - 1]))
  {
  }

  /** An edit that keeps the coordinates without capturing new ones. */
  predicate Carries(reader: Reader, d: Destination, e: Edit) {
    !Captures(e) && Apply(reader, d, e).latitude.Some?
  }

  /**
   * From coordinates captured at a place, every written edit that carries them on keeps the place
   * exactly when the stored text is not blank.
   */
  lemma PlaceIsKeptExactlyWhenWritten(reader: Reader, d: Destination, place: string)
    requires Stable(reader) && d.latitude.Some? && d.longitude.Some?
    requires d.text.Some? && |d.text.value| > 0 ==>
      reader.normalize(d.text.value) == d.text.value && NonSpatial(place, d.text.value, reader.classify)
    requires exists s :: |reader.normalize(s)| > 0 && !NonSpatial(place, reader.normalize(s), reader.classify)
    ensures (forall e :: Written(reader, e) && Carries(reader, d, e) ==> NonSpatial(place, TextOf(reader, e), reader.classify)) <==>
            d.text.Some? && |d.text.value| > 0
  {
    if d.text.Some? && |d.text.value| > 0 {
      forall e | Written(reader, e) && Carries(reader, d, e)
        ensures NonSpatial(place, TextOf(reader, e), reader.classify)
      {
        NonSpatialIsEquivalence(place, d.text.value, TextOf(reader, e), reader.classify);
      }
    } else {
      var s :| |reader.normalize(s)| > 0 && !NonSpatial(place, reader.normalize(s), reader.classify);
      var e := Edit(0, Some(s), None, None);
      assert Written(reader, e) && Carries(reader, d, e);
    }
  }

  const EVERY_WORD_COUNTS: Reader := Reader((s: string) => Spatial, (s: string) => s)

  const CAPTURED: Edit := Edit(1, Some("calle 50"), Some(6.2), Some(-75.5))

  const BLANKED: Edit := Edit(2, None, None, None)

  const MOVED: Edit := Edit(3, Some("calle 80"), None, None)

  lemma BlankKeepsPair()
    ensures ApplyAll(EVERY_WORD_COUNTS, [CAPTURED, BLANKED, MOVED]) == Destination(Some("calle 80"), Some(6.2), Some(-75.5), Some(1))
  {
    assert [CAPTURED, BLANKED, MOVED][..2] == [CAPTURED, BLANKED] && [CAPTURED, BLANKED][..1] == [CAPTURED];
    assert [CAPTURED][..0] == [];
    assert ApplyAll(EVERY_WORD_COUNTS, [CAPTURED]) == Destination(Some("calle 50"), Some(6.2), Some(-75.5), Some(1));
    assert ApplyAll(EVERY_WORD_COUNTS, [CAPTURED, BLANKED]) == Destination(None, Some(6.2), Some(-75.5), Some(1));
  }

  /** A blank reference keeps the coordinates but forgets their text, so the next text is not compared with it. */
  lemma BlankForgetsTheText()
    ensures Stable(EVERY_WORD_COUNTS)
    ensures var edits := [CAPTURED, BLANKED, MOVED]; CapturedAt(edits, 0, ApplyAll(EVERY_WORD_COUNTS, edits))
    ensures ClassifyChange("calle 50", "calle 80", EVERY_WORD_COUNTS.classify) == SPATIAL
  {
    hide ApplyAll, Segments;
    BlankKeepsPair();
    OneSegment("calle 50");
    OneSegment("calle 80");
  }

  lemma OneSegment(text: string)
    requires text in {"calle 50", "calle 80"}
    ensures SpatialOf(text, EVERY_WORD_COUNTS.classify) == [text] && UnrecognizedOf(text, EVERY_WORD_COUNTS.classify) == {}
  {
    hide Cut;
    NothingToCut(text);
    assert Trim(text) == text;
    assert [text][..0] == [];
    assert Segments(text) == [text];
  }
}
