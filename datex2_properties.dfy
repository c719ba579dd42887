/**
 * What the extraction guarantees: which records produce a situation and with
 * which fields, the order and size of the list, the point priority, and the
 * state protocol of the parser object seen from a caller.
 */
module Datex2Properties {
  import opened Wrappers
  import opened ElementTree
  import opened Datex2

  // ---------------------------------------------------------------------------
  // The list as a filter over the visits

  /** The situations of the outcomes that emit one, in order. */
  function Emitted(os: seq<Outcome>): seq<Situation>
    decreases |os|
  {
    if os == [] then []
    else
      var last := os[|os| - 1];
      Emitted(os[..|os| - 1]) + (if last.Ok? && last.value.Some? then [last.value.value] else [])
  }

  /** The positions of the outcomes that emit a situation, in order. */
  function EmittedAt(os: seq<Outcome>): seq<nat>
    decreases |os|
  {
    if os == [] then []
    else
      var last := os[|os| - 1];
      EmittedAt(os[..|os| - 1]) + (if last.Ok? && last.value.Some? then [|os| - 1] else [])
  }

  /**
   * `Emitted` picks, in increasing order of position, exactly the outcomes that
   * emit: the list is never longer than the outcomes it is built from.
   */
  lemma {:induction false} EmittedAtPositions(os: seq<Outcome>)
    ensures |EmittedAt(os)| == |Emitted(os)| <= |os|
    ensures forall k :: 0 <= k < |EmittedAt(os)| ==>
      EmittedAt(os)[k] < |os| && os[EmittedAt(os)[k]] == Ok(Some(Emitted(os)[k]))
    ensures forall k, l :: 0 <= k < l < |EmittedAt(os)| ==> EmittedAt(os)[k] < EmittedAt(os)[l]
    ensures forall i :: 0 <= i < |os| && os[i].Ok? && os[i].value.Some? ==> i in EmittedAt(os)
    decreases |os|
  {
    if os != [] {
      var last := |os| - 1;
      var prefix := os[..last];
      EmittedAtPositions(prefix);
      assert forall i :: 0 <= i < last ==> prefix[i] == os[i];
    }
  }

  /** Without an exception, the list is exactly the emitted situations, in order. */
  lemma {:induction false} CollectIsEmitted(os: seq<Outcome>)
    ensures Collect(os).Ok? ==> Collect(os).value == Emitted(os)
    decreases |os|
  {
    if os != [] {
      CollectIsEmitted(os[..|os| - 1]);
    }
  }

  /** `get_situations` on a tree returns exactly when no visited record raises. */
  lemma SituationsOfOkIff(root: Element, num: NumberParser)
    ensures SituationsOf(root, num).Ok? <==>
      forall k :: 0 <= k < |Visits(root)| ==> RecordOutcome(Visits(root)[k], num).Ok?
  {
    var vs := Visits(root);
    var os := Outcomes(vs, num);
    CollectOkWhenNoneRaises(os);
    assert forall k :: 0 <= k < |vs| ==> os[k] == RecordOutcome(vs[k], num);
  }

  /**
   * When it returns, the list holds the situations of the emitting visits, in
   * visiting order, and is at most as long as the visits.
   */
  lemma SituationsOfList(root: Element, num: NumberParser)
    ensures SituationsOf(root, num).Ok? ==>
      SituationsOf(root, num).value == Emitted(Outcomes(Visits(root), num)) &&
      |SituationsOf(root, num).value| <= |Visits(root)|
  {
    var os := Outcomes(Visits(root), num);
    CollectIsEmitted(os);
    EmittedAtPositions(os);
  }

  /**
   * When it raises, it raises what the first raising visit raises, and that is
   * a failed number conversion.
   */
  lemma SituationsOfRaise(root: Element, num: NumberParser)
    ensures SituationsOf(root, num).Err? ==>
      SituationsOf(root, num).error.InvalidFloat? &&
      exists k :: 0 <= k < |Visits(root)| &&
        RecordOutcome(Visits(root)[k], num) == Err(SituationsOf(root, num).error) &&
        forall i :: 0 <= i < k ==> RecordOutcome(Visits(root)[i], num).Ok?
  {
    var vs := Visits(root);
    var os := Outcomes(vs, num);
    SituationsOfRaisesOnlyInvalidFloat(root, num);
    if Collect(os).Err? {
      CollectRaisesFromOutcome(os);
      var k :| 0 <= k < |os| && os[k] == Err(Collect(os).error) && forall i :: 0 <= i < k ==> os[i].Ok?;
      assert forall i :: 0 <= i <= k ==> os[i] == RecordOutcome(vs[i], num);
    }
  }

  /**
   * A visit that raises, with no earlier visit raising, makes the whole
   * extraction raise its exception: nothing after it is looked at.
   */
  lemma FirstRaiseAborts(root: Element, num: NumberParser, k: nat)
    requires k < |Visits(root)| && RecordOutcome(Visits(root)[k], num).Err?
    requires forall i :: 0 <= i < k ==> RecordOutcome(Visits(root)[i], num).Ok?
    ensures SituationsOf(root, num) == Err(RecordOutcome(Visits(root)[k], num).error)
  {
    var os := Outcomes(Visits(root), num);
    var before := os[..k];
    CollectOkWhenNoneRaises(before);
    CollectSnoc(before, os[k]);
    assert os == before + [os[k]] + os[k + 1..];
    CollectErrorPersists(before + [os[k]], os[k + 1..]);
  }

  // ---------------------------------------------------------------------------
  // Which records are visited

  /** Every visit pairs one of the groups' situations with one of that group's records. */
  lemma {:induction false} FlattenOrigins(gs: seq<Group>, v: Visit)
    requires v in Flatten(gs)
    ensures exists g :: g in gs && v.situation == g.situation && v.record in g.records
    decreases |gs|
  {
    var last := gs[|gs| - 1];
    if v in Flatten(gs[..|gs| - 1]) {
      FlattenOrigins(gs[..|gs| - 1], v);
      var g :| g in gs[..|gs| - 1] && v.situation == g.situation && v.record in g.records;
      assert g in gs;
    } else {
      RecordVisitsOrigins(last.situation, last.records, v);
      assert last in gs;
    }
  }

  lemma {:induction false} RecordVisitsOrigins(situation: Element, records: seq<Element>, v: Visit)
    requires v in RecordVisits(situation, records)
    ensures v.situation == situation && v.record in records
    decreases |records|
  {
    var prefix := records[..|records| - 1];
    if v in RecordVisits(situation, prefix) {
      RecordVisitsOrigins(situation, prefix, v);
      assert v.record in records;
    }
  }

  /**
   * Every visit is a `situation` element below the root together with a
   * `situationRecord` element below that situation.
   */
  lemma VisitOrigins(root: Element, v: Visit)
    requires v in Visits(root)
    ensures v.situation in Descendants(root) && Matches(v.situation, SIT, "situation")
    ensures v.record in Descendants(v.situation) && Matches(v.record, SIT, "situationRecord")
  {
    var sits := FindAll(root, SIT, "situation");
    FlattenOrigins(GroupsOf(sits), v);
    var g :| g in GroupsOf(sits) && v.situation == g.situation && v.record in g.records;
    var k :| 0 <= k < |sits| && GroupsOf(sits)[k] == g;
    FilterMembers(Descendants(root), SIT, "situation");
    FilterMembers(Descendants(v.situation), SIT, "situationRecord");
    assert sits[k] in sits;
  }

  lemma {:induction false} RecordVisitsComplete(situation: Element, records: seq<Element>, r: Element)
    requires r in records
    ensures Visit(situation, r) in RecordVisits(situation, records)
    decreases |records|
  {
    var prefix := records[..|records| - 1];
    if r != records[|records| - 1] {
      assert r in prefix;
      RecordVisitsComplete(situation, prefix, r);
    }
  }

  lemma {:induction false} FlattenComplete(gs: seq<Group>, g: Group, r: Element)
    requires g in gs && r in g.records
    ensures Visit(g.situation, r) in Flatten(gs)
    decreases |gs|
  {
    var prefix := gs[..|gs| - 1];
    if g == gs[|gs| - 1] {
      RecordVisitsComplete(g.situation, g.records, r);
    } else {
      assert g in prefix;
      FlattenComplete(prefix, g, r);
    }
  }

  /**
   * The converse of `VisitOrigins`: every `situation` element below the root,
   * paired with every `situationRecord` element below it, is visited.
   */
  lemma VisitsComplete(root: Element, s: Element, r: Element)
    requires s in Descendants(root) && Matches(s, SIT, "situation")
    requires r in Descendants(s) && Matches(r, SIT, "situationRecord")
    ensures Visit(s, r) in Visits(root)
  {
    var sits := FindAll(root, SIT, "situation");
    FilterMembers(Descendants(root), SIT, "situation");
    FilterMembers(Descendants(s), SIT, "situationRecord");
    var k :| 0 <= k < |sits| && sits[k] == s;
    assert GroupsOf(sits)[k] == GroupOf(s);
    FlattenComplete(GroupsOf(sits), GroupOf(s), r);
  }

  /** The number of records found below each of `sits`, added up. */
  function RecordCount(sits: seq<Element>): nat
    decreases |sits|
  {
    if sits == [] then 0
    else RecordCount(sits[..|sits| - 1]) + |FindAll(sits[|sits| - 1], SIT, "situationRecord")|
  }

  lemma {:induction false} RecordVisitsLength(situation: Element, records: seq<Element>)
    ensures |RecordVisits(situation, records)| == |records|
    decreases |records|
  {
    if records != [] {
      RecordVisitsLength(situation, records[..|records| - 1]);
    }
  }

  /** The extraction makes one visit per record it finds below each situation. */
  lemma {:induction false} VisitCount(sits: seq<Element>)
    ensures |Flatten(GroupsOf(sits))| == RecordCount(sits)
    decreases |sits|
  {
    if sits != [] {
      var last := |sits| - 1;
      VisitCount(sits[..last]);
      assert GroupsOf(sits)[..last] == GroupsOf(sits[..last]);
      RecordVisitsLength(sits[last], GroupOf(sits[last]).records);
    }
  }

  /** The list is at most as long as the number of records found below the situations. */
  lemma SituationsBound(root: Element, num: NumberParser)
    ensures SituationsOf(root, num).Ok? ==>
      |SituationsOf(root, num).value| <= RecordCount(FindAll(root, SIT, "situation"))
  {
    SituationsOfList(root, num);
    VisitCount(FindAll(root, SIT, "situation"));
  }

  // ---------------------------------------------------------------------------
  // One record

  /**
   * A record is skipped exactly when it has no point, or its point lacks a
   * latitude or a longitude; it raises exactly when its point's numbers do not
   * all convert; otherwise it emits.
   */
  lemma RecordOutcomeCases(v: Visit, num: NumberParser)
    ensures RecordOutcome(v, num) == Ok(None) <==>
      ChosenPoint(v.record).None? ||
      (PointInfoOf(ChosenPoint(v.record).value, num).Ok? &&
       (PointInfoOf(ChosenPoint(v.record).value, num).value.latitude.None? ||
        PointInfoOf(ChosenPoint(v.record).value, num).value.longitude.None?))
    ensures RecordOutcome(v, num).Err? <==>
      ChosenPoint(v.record).Some? && PointInfoOf(ChosenPoint(v.record).value, num).Err?
  {
  }

  /**
   * An emitted situation carries the converted coordinates of the chosen
   * point, the administrative data of that point, the id attribute of its
   * situation element (or `""`), the text of the situation's own
   * `overallSeverity` child, and the texts the record holds at any depth.
   */
  lemma EmittedFields(v: Visit, num: NumberParser, s: Situation)
    requires RecordOutcome(v, num) == Ok(Some(s))
    ensures ChosenPoint(v.record).Some?
    ensures var point := ChosenPoint(v.record).value;
      CoordinateText(point, "latitude").Some? && num(CoordinateText(point, "latitude").value) == Some(s.latitude) &&
      CoordinateText(point, "longitude").Some? && num(CoordinateText(point, "longitude").value) == Some(s.longitude) &&
      s.province == ExtensionText(point, "province") &&
      s.municipality == ExtensionText(point, "municipality") &&
      s.autonomousCommunity == ExtensionText(point, "autonomousCommunity") &&
      (s.kmPoint.Some? <==> KilometerText(point).Some?) &&
      (s.kmPoint.Some? ==> num(KilometerText(point).value) == s.kmPoint)
    ensures s.id == if "id" in v.situation.attrib then v.situation.attrib["id"] else ""
    ensures s.severity == TextOf(Find(v.situation, SIT, "overallSeverity"))
    ensures s.roadName == TextOf(FindDesc(v.record, LOC, "roadName"))
    ensures s.managementType == TextOf(FindDesc(v.record, SIT, "roadOrCarriagewayOrLaneManagementType"))
    ensures s.causeType == TextOf(FindDesc(v.record, SIT, "causeType"))
  {
  }

  /** Two records of the same situation element emit situations with the same id and severity. */
  lemma SharedSituationFields(v1: Visit, v2: Visit, num: NumberParser, s1: Situation, s2: Situation)
    requires v1.situation == v2.situation
    requires RecordOutcome(v1, num) == Ok(Some(s1)) && RecordOutcome(v2, num) == Ok(Some(s2))
    ensures s1.id == s2.id && s1.severity == s2.severity
  {
  }

  /**
   * A record without a direct `locationReference` child is skipped, whatever
   * it holds deeper down.
   */
  lemma NoLocationReferenceSkipped(v: Visit, num: NumberParser)
    requires forall c :: c in v.record.children ==> !Matches(c, SIT, "locationReference")
    ensures RecordOutcome(v, num) == Ok(None)
  {
    FindIsFirstChild(v.record, SIT, "locationReference");
  }

  /** No element strictly below `e` matches. */
  predicate NoneBelow(e: Element, ns: string, tag: string) {
    forall d :: d in Descendants(e) ==> !Matches(d, ns, tag)
  }

  /** `find('.//…')` finds nothing exactly when no element below matches. */
  lemma FindDescNone(e: Element, ns: string, tag: string)
    ensures FindDesc(e, ns, tag).None? <==> NoneBelow(e, ns, tag)
  {
    FindDescIsFirst(e, ns, tag);
    FilterMembers(Descendants(e), ns, tag);
    if FindAll(e, ns, tag) != [] {
      assert FindAll(e, ns, tag)[0] in FindAll(e, ns, tag);
    }
  }

  /**
   * The point of a location reference is its first `from` below it; failing
   * that its first `to`; failing that its first `point`; and there is none
   * exactly when none of the three occurs below it.
   */
  lemma ChoosePointPriority(locationRef: Element)
    ensures var froms, tos, points :=
        FindAll(locationRef, LOC, "from"), FindAll(locationRef, LOC, "to"), FindAll(locationRef, LOC, "point");
      ChoosePoint(locationRef) ==
        if froms != [] then Some(froms[0])
        else if tos != [] then Some(tos[0])
        else First(points)
    ensures ChoosePoint(locationRef).None? <==>
      NoneBelow(locationRef, LOC, "from") && NoneBelow(locationRef, LOC, "to") && NoneBelow(locationRef, LOC, "point")
  {
    FindDescIsFirst(locationRef, LOC, "from");
    FindDescIsFirst(locationRef, LOC, "to");
    FindDescIsFirst(locationRef, LOC, "point");
    FindDescNone(locationRef, LOC, "from");
    FindDescNone(locationRef, LOC, "to");
    FindDescNone(locationRef, LOC, "point");
  }

  /** A record whose location reference holds none of `from`, `to` or `point` is skipped. */
  lemma NoPointSkipped(v: Visit, num: NumberParser, locationRef: Element)
    requires Find(v.record, SIT, "locationReference") == Some(locationRef)
    requires NoneBelow(locationRef, LOC, "from") && NoneBelow(locationRef, LOC, "to") &&
      NoneBelow(locationRef, LOC, "point")
    ensures RecordOutcome(v, num) == Ok(None)
  {
    ChoosePointPriority(locationRef);
  }

  /**
   * Without an `extendedTpegNonJunctionPoint` below the point, province,
   * municipality, autonomous community and kilometre point stay `None`,
   * and the coordinates are still read: the extraction then raises exactly
   * when a coordinate does not convert.
   */
  lemma PointWithoutExtension(point: Element, num: NumberParser)
    requires NoneBelow(point, LOC, "extendedTpegNonJunctionPoint")
    ensures PointInfoOf(point, num).Ok? ==>
      var info := PointInfoOf(point, num).value;
      info.province.None? && info.municipality.None? && info.autonomousCommunity.None? && info.kmPoint.None?
    ensures PointInfoOf(point, num).Ok? <==>
      ParseNumber(CoordinateText(point, "latitude"), num).Ok? &&
      ParseNumber(CoordinateText(point, "longitude"), num).Ok?
  {
    FindDescNone(point, LOC, "extendedTpegNonJunctionPoint");
  }

  /**
   * The coordinates come from the first `pointCoordinates` below the point
   * and nothing else; the administrative data from the first
   * `extendedTpegNonJunctionPoint` below it and nothing else. Without the
   * container, its fields stay `None`.
   */
  lemma PointInfoSources(point: Element, num: NumberParser)
    ensures PointInfoOf(point, num).Ok? ==>
      var info := PointInfoOf(point, num).value;
      var coords := FindAll(point, LOC, "pointCoordinates");
      (coords == [] ==> info.latitude.None? && info.longitude.None?) &&
      (coords != [] ==>
        Ok(info.latitude) == ParseNumber(NumericText(Find(coords[0], LOC, "latitude")), num) &&
        Ok(info.longitude) == ParseNumber(NumericText(Find(coords[0], LOC, "longitude")), num))
    ensures PointInfoOf(point, num).Ok? ==>
      var info := PointInfoOf(point, num).value;
      var exts := FindAll(point, LOC, "extendedTpegNonJunctionPoint");
      (exts == [] ==>
        info.province.None? && info.municipality.None? && info.autonomousCommunity.None? && info.kmPoint.None?) &&
      (exts != [] ==>
        info.province == TextOf(Find(exts[0], LSE, "province")) &&
        info.municipality == TextOf(Find(exts[0], LSE, "municipality")) &&
        info.autonomousCommunity == TextOf(Find(exts[0], LSE, "autonomousCommunity")) &&
        Ok(info.kmPoint) == ParseNumber(NumericText(Find(exts[0], LSE, "kilometerPoint")), num))
  {
    FindDescIsFirst(point, LOC, "pointCoordinates");
    FindDescIsFirst(point, LOC, "extendedTpegNonJunctionPoint");
  }

  /**
   * Two points whose first `pointCoordinates` is the same element get the same
   * latitude and longitude, whatever else they hold.
   */
  lemma SharedCoordinates(p1: Element, p2: Element, num: NumberParser)
    requires FindAll(p1, LOC, "pointCoordinates") != [] && FindAll(p2, LOC, "pointCoordinates") != []
    requires FindAll(p1, LOC, "pointCoordinates")[0] == FindAll(p2, LOC, "pointCoordinates")[0]
    requires PointInfoOf(p1, num).Ok? && PointInfoOf(p2, num).Ok?
    ensures PointInfoOf(p1, num).value.latitude == PointInfoOf(p2, num).value.latitude
    ensures PointInfoOf(p1, num).value.longitude == PointInfoOf(p2, num).value.longitude
  {
    PointInfoSources(p1, num);
    PointInfoSources(p2, num);
  }

  /**
   * A point whose latitude or longitude is missing, empty or without text
   * gives no situation: the record is skipped, unless a number raises.
   */
  lemma MissingCoordinateDrops(v: Visit, num: NumberParser, point: Element)
    requires ChosenPoint(v.record) == Some(point)
    requires CoordinateText(point, "latitude").None? || CoordinateText(point, "longitude").None?
    ensures RecordOutcome(v, num).Ok? ==> RecordOutcome(v, num) == Ok(None)
  {
  }

  /** A latitude text that `float` rejects is not skipped: the record raises with that text. */
  lemma UnparsableLatitudeRaises(v: Visit, num: NumberParser, point: Element, t: string)
    requires ChosenPoint(v.record) == Some(point)
    requires CoordinateText(point, "latitude") == Some(t) && num(t).None?
    ensures RecordOutcome(v, num) == Err(InvalidFloat(t))
  {
  }

  /**
   * A longitude text that `float` rejects, after the latitude converted (or
   * was absent), makes the record raise with that text.
   */
  lemma UnparsableLongitudeRaises(v: Visit, num: NumberParser, point: Element, t: string)
    requires ChosenPoint(v.record) == Some(point)
    requires ParseNumber(CoordinateText(point, "latitude"), num).Ok?
    requires CoordinateText(point, "longitude") == Some(t) && num(t).None?
    ensures RecordOutcome(v, num) == Err(InvalidFloat(t))
  {
  }

  /**
   * A kilometre text that `float` rejects, after both coordinates converted
   * (or were absent), makes the record raise with that text.
   */
  lemma UnparsableKilometreRaises(v: Visit, num: NumberParser, point: Element, t: string)
    requires ChosenPoint(v.record) == Some(point)
    requires ParseNumber(CoordinateText(point, "latitude"), num).Ok?
    requires ParseNumber(CoordinateText(point, "longitude"), num).Ok?
    requires KilometerText(point) == Some(t) && num(t).None?
    ensures RecordOutcome(v, num) == Err(InvalidFloat(t))
  {
  }

  /** An empty latitude text is not converted: the conversion is not attempted, so it cannot raise. */
  lemma EmptyTextNotConverted(e: Element, num: NumberParser)
    requires e.text == Some("") || e.text.None?
    ensures ParseNumber(NumericText(Some(e)), num) == Ok(None)
  {
  }

  // ---------------------------------------------------------------------------
  // A worked record

  function Leaf(ns: string, tag: string, text: string): Element {
    Element(ns, tag, map[], Some(text), [])
  }

  function Node(ns: string, tag: string, children: seq<Element>): Element {
    Element(ns, tag, map[], None, children)
  }

  /** A point at (40.0, -3.5) in the province of Madrid. */
  function MadridPoint(): Element {
    Node(LOC, "point", [
      Node(LOC, "pointCoordinates", [Leaf(LOC, "latitude", "40.0"), Leaf(LOC, "longitude", "-3.5")]),
      Node(LOC, "extendedTpegNonJunctionPoint", [Leaf(LSE, "province", "Madrid")])])
  }

  /** A record located by that point, on road `A-1`. */
  function MadridRecord(): Element {
    Node(SIT, "situationRecord", [Node(SIT, "locationReference", [MadridPoint()]), Leaf(LOC, "roadName", "A-1")])
  }

  lemma MadridPointInfo(num: NumberParser)
    requires num("40.0") == Some(40.0) && num("-3.5") == Some(-3.5)
    ensures PointInfoOf(MadridPoint(), num) == Ok(PointInfo(Some(40.0), Some(-3.5), Some("Madrid"), None, None, None))
  {
  }

  lemma MadridPointDescendants()
    ensures var point := MadridPoint();
      var coords, ext := point.children[0], point.children[1];
      Descendants(point) == [coords, coords.children[0], coords.children[1], ext, ext.children[0]]
  {
    var point := MadridPoint();
    var coords, ext := point.children[0], point.children[1];
    var lat, lon, province := coords.children[0], coords.children[1], ext.children[0];
    assert Descendants(lat) == [] && Descendants(lon) == [] && Descendants(province) == [];
    assert Descendants(coords) == [lat, lon] by {
      assert coords.children[1..][1..] == [];
      assert DescendantsIn(coords.children[1..]) == [lon];
    }
    assert Descendants(ext) == [province] by {
      assert ext.children[1..] == [];
    }
    assert DescendantsIn(point.children[1..]) == [ext, province] by {
      assert point.children[1..][1..] == [];
    }
  }

  lemma MadridRecordDescendants()
    ensures var record := MadridRecord();
      Descendants(record.children[0]) == [MadridPoint()] + Descendants(MadridPoint()) &&
      Descendants(record) == [record.children[0]] + Descendants(record.children[0]) + [record.children[1]]
  {
  }

  lemma MadridRecordPoint()
    ensures ChosenPoint(MadridRecord()) == Some(MadridPoint())
  {
    var locationRef := MadridRecord().children[0];
    MadridPointDescendants();
    MadridRecordDescendants();
    FindDescNone(locationRef, LOC, "from");
    FindDescNone(locationRef, LOC, "to");
    assert Find(MadridRecord(), SIT, "locationReference") == Some(locationRef);
    assert FindDesc(locationRef, LOC, "point") == Some(MadridPoint());
  }

  lemma MadridRecordRoad()
    ensures TextOf(FindDesc(MadridRecord(), LOC, "roadName")) == Some("A-1")
  {
    var record := MadridRecord();
    MadridPointDescendants();
    MadridRecordDescendants();
    FindDescNone(record.children[0], LOC, "roadName");
    assert FindDescIn(record.children[1..], LOC, "roadName") == Some(record.children[1]);
  }

  lemma MadridRecordUntyped(tag: string)
    requires tag == "roadOrCarriagewayOrLaneManagementType" || tag == "causeType"
    ensures FindDesc(MadridRecord(), SIT, tag) == None
  {
    MadridPointDescendants();
    MadridRecordDescendants();
    FindDescNone(MadridRecord(), SIT, tag);
  }

  /**
   * The worked example: any situation element with id `S1` and severity
   * `high` emits, for that record, exactly one situation with the record's
   * road, the point's coordinates and province, and nothing else set.
   */
  lemma MadridRecordEmits(situation: Element, num: NumberParser)
    requires num("40.0") == Some(40.0) && num("-3.5") == Some(-3.5)
    requires Get(situation, "id", "") == "S1" && Severity(situation) == Some("high")
    ensures RecordOutcome(Visit(situation, MadridRecord()), num) ==
      Ok(Some(Situation("S1", Some("high"), 40.0, -3.5, Some("Madrid"), None, None, Some("A-1"), None, None, None)))
  {
    MadridRecordPoint();
    MadridRecordRoad();
    MadridRecordUntyped("roadOrCarriagewayOrLaneManagementType");
    MadridRecordUntyped("causeType");
    MadridPointInfo(num);
  }

  // ---------------------------------------------------------------------------
  // The parser object, from a caller

  /** `get_situations` reads and changes nothing else: calling it twice gives the same answer. */
  method ExtractTwice(p: Datex2Parser, num: NumberParser)
    returns (first: Result<seq<Situation>, Error>, second: Result<seq<Situation>, Error>)
    ensures first == second
    ensures p.root.None? <==> first == Err(NotParsed)
  {
    first := p.GetSituations(num);
    second := p.GetSituations(num);
  }

  /** A new parser has parsed nothing: `get_situations` raises, and so does `parse_xml()`. */
  method FreshParserRaises(fromString: seq<byte> -> Option<Element>, num: NumberParser)
    returns (extracted: Result<seq<Situation>, Error>, parsed: Result<Element, Error>)
    ensures extracted == Err(NotParsed)
    ensures parsed == Err(NoContent)
  {
    var p := new Datex2Parser(None);
    extracted := p.GetSituations(num);
    parsed := p.ParseXml(None, fromString);
  }

  /**
   * The module's own usage: load bytes, parse the stored bytes, extract. The
   * result is the extraction from the parsed tree, or the parser's error.
   */
  method LoadParseExtract(content: seq<byte>, fromString: seq<byte> -> Option<Element>, num: NumberParser)
    returns (r: Result<seq<Situation>, Error>)
    ensures fromString(content).None? ==> r == Err(MalformedXml)
    ensures fromString(content).Some? ==> r == SituationsOf(fromString(content).value, num)
  {
    var p := new Datex2Parser(None);
    var loaded := p.LoadContent(content);
    var parsed := p.ParseXml(None, fromString);
    if parsed.Err? {
      return Err(parsed.error);
    }
    r := p.GetSituations(num);
  }
}
