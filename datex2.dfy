/**
 * The DATEX2 situation extractor: the record it produces, the namespaces and
 * element names it queries, the per-record extraction rules as functions, and
 * the parser object whose methods follow the imperative code.
 */
module Datex2 {
  import opened Wrappers
  import opened ElementTree

  newtype byte = x: int | 0 <= x < 0x100

  /** Namespace URIs, matched exactly. */
  const D2: string := "http://levelC/schema/3/d2Payload"
  const SIT: string := "http://levelC/schema/3/situation"
  const LOC: string := "http://levelC/schema/3/locationReferencing"
  const COM: string := "http://levelC/schema/3/common"
  const LSE: string := "http://levelC/schema/3/locationReferencingSpanishExtension"
  const XSI: string := "http://www.w3.org/2001/XMLSchema-instance"

  /** The prefixes the queries are written with, and the URIs they stand for. */
  const Namespaces: map<string, string> :=
    map["d2" := D2, "sit" := SIT, "loc" := LOC, "com" := COM, "lse" := LSE, "xsi" := XSI]

  const DefaultUrl: string := "https://nap.dgt.es/datex2/v3/dgt/SituationPublication/datex2_v36.xml"

  /** Python's `float(text)`: a number, or `None` where `float` raises `ValueError`. */
  type NumberParser = string -> Option<real>

  /** The exceptions the parser raises. */
  datatype Error =
    | NoContent               // parse_xml with nothing to parse (ValueError)
    | MalformedXml            // the XML parser rejected the bytes
    | NotParsed               // get_situations before parse_xml (ValueError)
    | InvalidFloat(text: string)  // float(text) raised ValueError

  /** One geolocated traffic incident. */
  datatype Situation = Situation(
    id: string,
    severity: Option<string>,
    latitude: real,
    longitude: real,
    province: Option<string>,
    municipality: Option<string>,
    autonomousCommunity: Option<string>,
    roadName: Option<string>,
    managementType: Option<string>,
    causeType: Option<string>,
    kmPoint: Option<real>)

  /** The `info` dictionary of a point: every entry may be `None`. */
  datatype PointInfo = PointInfo(
    latitude: Option<real>,
    longitude: Option<real>,
    province: Option<string>,
    municipality: Option<string>,
    autonomousCommunity: Option<string>,
    kmPoint: Option<real>)

  const EmptyPointInfo: PointInfo := PointInfo(None, None, None, None, None, None)

  /** `elem.text if elem is not None else None` */
  function TextOf(e: Option<Element>): Option<string> {
    if e.Some? then e.value.text else None
  }

  /** The text handed to `float()` under `if elem is not None and elem.text:`. */
  function NumericText(e: Option<Element>): Option<string> {
    if e.Some? && e.value.text.Some? && e.value.text.value != "" then e.value.text else None
  }

  /** `float(text)` when there is a text to convert; a failed conversion raises. */
  function ParseNumber(t: Option<string>, num: NumberParser): (r: Result<Option<real>, Error>)
    ensures r.Ok? ==> (r.value.Some? <==> t.Some?)
    ensures r.Ok? && t.Some? ==> num(t.value) == r.value
    ensures r.Err? <==> t.Some? && num(t.value).None?
    ensures r.Err? ==> r.error == InvalidFloat(t.value)
  {
    match t
    case None => Ok(None)
    case Some(s) =>
      match num(s) {
        case Some(v) => Ok(Some(v))
        case None => Err(InvalidFloat(s))
      }
  }

  // ---------------------------------------------------------------------------
  // _extract_point_info, as functions of the point element

  function Coordinates(point: Element): Option<Element> {
    FindDesc(point, LOC, "pointCoordinates")
  }

  function Extension(point: Element): Option<Element> {
    FindDesc(point, LOC, "extendedTpegNonJunctionPoint")
  }

  /** The text of `pointCoordinates/latitude` (or `/longitude`) that is converted, if any. */
  function CoordinateText(point: Element, tag: string): Option<string> {
    var coords := Coordinates(point);
    if coords.Some? then NumericText(Find(coords.value, LOC, tag)) else None
  }

  /** The text of a direct child of `extendedTpegNonJunctionPoint`, if both exist. */
  function ExtensionText(point: Element, tag: string): Option<string> {
    var ext := Extension(point);
    if ext.Some? then TextOf(Find(ext.value, LSE, tag)) else None
  }

  /** The text of `kilometerPoint` that is converted, if any. */
  function KilometerText(point: Element): Option<string> {
    var ext := Extension(point);
    if ext.Some? then NumericText(Find(ext.value, LSE, "kilometerPoint")) else None
  }

  /**
   * The point information of `point`: coordinates from its `pointCoordinates`,
   * administrative data from its `extendedTpegNonJunctionPoint`. Conversions
   * run latitude, longitude, kilometre point; the first that fails raises.
   */
  function PointInfoOf(point: Element, num: NumberParser): Result<PointInfo, Error> {
    var latitude :- ParseNumber(CoordinateText(point, "latitude"), num);
    var longitude :- ParseNumber(CoordinateText(point, "longitude"), num);
    var km :- ParseNumber(KilometerText(point), num);
    Ok(PointInfo(
      latitude, longitude,
      ExtensionText(point, "province"),
      ExtensionText(point, "municipality"),
      ExtensionText(point, "autonomousCommunity"),
      km))
  }

  // ---------------------------------------------------------------------------
  // get_situations, as functions of the tree

  /** One pass of the inner loop: a situation element and one record found below it. */
  datatype Visit = Visit(situation: Element, record: Element)

  function SituationId(situation: Element): string {
    Get(situation, "id", "")
  }

  /** `overallSeverity` is looked up among the situation's direct children only. */
  function Severity(situation: Element): Option<string> {
    TextOf(Find(situation, SIT, "overallSeverity"))
  }

  /** The point of a location reference: `from`, else `to`, else `point`, each searched at any depth. */
  function ChoosePoint(locationRef: Element): Option<Element> {
    var fromPoint := FindDesc(locationRef, LOC, "from");
    var toPoint := FindDesc(locationRef, LOC, "to");
    var singlePoint := FindDesc(locationRef, LOC, "point");
    if fromPoint.Some? then fromPoint else if toPoint.Some? then toPoint else singlePoint
  }

  /** The point a record is geolocated by, through its direct `locationReference` child. */
  function ChosenPoint(record: Element): Option<Element> {
    var locationRef := Find(record, SIT, "locationReference");
    if locationRef.Some? then ChoosePoint(locationRef.value) else None
  }

  /** What one visit contributes: `Ok(None)` when the record is skipped, `Err` when it raises. */
  function RecordOutcome(v: Visit, num: NumberParser): Outcome {
    match ChosenPoint(v.record)
    case None => Ok(None)
    case Some(point) =>
      var info :- PointInfoOf(point, num);
      if info.latitude.None? || info.longitude.None? then Ok(None)
      else Ok(Some(Situation(
        SituationId(v.situation),
        Severity(v.situation),
        info.latitude.value,
        info.longitude.value,
        info.province,
        info.municipality,
        info.autonomousCommunity,
        TextOf(FindDesc(v.record, LOC, "roadName")),
        TextOf(FindDesc(v.record, SIT, "roadOrCarriagewayOrLaneManagementType")),
        TextOf(FindDesc(v.record, SIT, "causeType")),
        info.kmPoint)))
  }

  /** The visits of one situation element: every record below it, in document order. */
  function RecordVisits(situation: Element, records: seq<Element>): seq<Visit>
    decreases |records|
  {
    if records == [] then []
    else RecordVisits(situation, records[..|records| - 1]) + [Visit(situation, records[|records| - 1])]
  }

  lemma {:induction false} RecordVisitsConcat(situation: Element, a: seq<Element>, b: seq<Element>)
    ensures RecordVisits(situation, a + b) == RecordVisits(situation, a) + RecordVisits(situation, b)
    decreases |b|
  {
    if b == [] {
      assert a + b == a;
    } else {
      var b' := b[..|b| - 1];
      assert (a + b)[..|a + b| - 1] == a + b';
      RecordVisitsConcat(situation, a, b');
    }
  }

  /** A situation element together with the records the inner loop finds below it. */
  datatype Group = Group(situation: Element, records: seq<Element>)

  function GroupOf(situation: Element): Group {
    Group(situation, FindAll(situation, SIT, "situationRecord"))
  }

  function GroupsOf(sits: seq<Element>): seq<Group> {
    seq(|sits|, k requires 0 <= k < |sits| => GroupOf(sits[k]))
  }

  /** The visits of the groups `gs`, group after group. */
  function Flatten(gs: seq<Group>): seq<Visit>
    decreases |gs|
  {
    if gs == [] then []
    else Flatten(gs[..|gs| - 1]) + RecordVisits(gs[|gs| - 1].situation, gs[|gs| - 1].records)
  }

  /** Every (situation, record) pair the extraction visits, in the order it visits them. */
  function Visits(root: Element): seq<Visit> {
    Flatten(GroupsOf(FindAll(root, SIT, "situation")))
  }

  /** What one visit contributes to the list, or the exception it raises. */
  type Outcome = Result<Option<Situation>, Error>

  /** The outcome of every visit, in visiting order. */
  function Outcomes(vs: seq<Visit>, num: NumberParser): seq<Outcome> {
    seq(|vs|, k requires 0 <= k < |vs| => RecordOutcome(vs[k], num))
  }

  /** The list built from a run of outcomes: skips dropped, emitted appended, first raise aborts. */
  function Collect(os: seq<Outcome>): Result<seq<Situation>, Error>
    decreases |os|
  {
    if os == [] then Ok([])
    else
      var out :- Collect(os[..|os| - 1]);
      var emitted :- os[|os| - 1];
      if emitted.Some? then Ok(out + [emitted.value]) else Ok(out)
  }

  /** `get_situations` on a tree: the list the extraction builds from `root`, or what it raises. */
  function SituationsOf(root: Element, num: NumberParser): Result<seq<Situation>, Error> {
    Collect(Outcomes(Visits(root), num))
  }

  lemma CollectSnoc(os: seq<Outcome>, o: Outcome)
    ensures Collect(os + [o]) ==
      match Collect(os)
      case Err(e) => Err(e)
      case Ok(out) =>
        match o
        case Err(e) => Err(e)
        case Ok(None) => Ok(out)
        case Ok(Some(s)) => Ok(out + [s])
  {
    assert (os + [o])[..|os|] == os;
  }

  /** Once an exception is raised, the outcomes after it do not matter. */
  lemma {:induction false} CollectErrorPersists(a: seq<Outcome>, b: seq<Outcome>)
    requires Collect(a).Err?
    ensures Collect(a + b) == Collect(a)
    decreases |b|
  {
    if b == [] {
      assert a + b == a;
    } else {
      var b' := b[..|b| - 1];
      CollectErrorPersists(a, b');
      assert (a + b)[..|a + b| - 1] == a + b';
    }
  }

  /** An exception from the list is the one raised by the first outcome that raises. */
  lemma {:induction false} CollectRaisesFromOutcome(os: seq<Outcome>)
    requires Collect(os).Err?
    ensures exists k :: 0 <= k < |os| && os[k] == Err(Collect(os).error) && forall i :: 0 <= i < k ==> os[i].Ok?
    decreases |os|
  {
    var last := |os| - 1;
    var prefix := os[..last];
    if Collect(prefix).Err? {
      CollectRaisesFromOutcome(prefix);
      var k :| 0 <= k < last && prefix[k] == Err(Collect(prefix).error) && forall i :: 0 <= i < k ==> prefix[i].Ok?;
      assert os[k] == Err(Collect(os).error) && forall i :: 0 <= i < k ==> os[i].Ok?;
    } else {
      CollectOkWhenNoneRaises(prefix);
      assert os[last] == Err(Collect(os).error) && forall i :: 0 <= i < last ==> os[i].Ok?;
    }
  }

  /** The list is built exactly when no outcome raises. */
  lemma {:induction false} CollectOkWhenNoneRaises(os: seq<Outcome>)
    ensures Collect(os).Ok? <==> forall k :: 0 <= k < |os| ==> os[k].Ok?
    decreases |os|
  {
    if os != [] {
      var last := |os| - 1;
      CollectOkWhenNoneRaises(os[..last]);
      assert forall k :: 0 <= k < last ==> os[..last][k] == os[k];
    }
  }

  lemma OutcomesConcat(a: seq<Visit>, b: seq<Visit>, num: NumberParser)
    ensures Outcomes(a + b, num) == Outcomes(a, num) + Outcomes(b, num)
  {
  }

  /** A record raises only when one of its numbers does not convert. */
  lemma RecordOutcomeRaisesOnlyInvalidFloat(v: Visit, num: NumberParser)
    ensures RecordOutcome(v, num).Err? ==> RecordOutcome(v, num).error.InvalidFloat?
  {
  }

  /** Extraction from a tree raises nothing but a failed number conversion. */
  lemma SituationsOfRaisesOnlyInvalidFloat(root: Element, num: NumberParser)
    ensures SituationsOf(root, num).Err? ==> SituationsOf(root, num).error.InvalidFloat?
  {
    var os := Outcomes(Visits(root), num);
    if Collect(os).Err? {
      CollectRaisesFromOutcome(os);
      var k :| 0 <= k < |os| && os[k] == Err(Collect(os).error);
      RecordOutcomeRaisesOnlyInvalidFloat(Visits(root)[k], num);
    }
  }

  lemma {:induction false} FlattenConcat(a: seq<Group>, b: seq<Group>)
    ensures Flatten(a + b) == Flatten(a) + Flatten(b)
    decreases |b|
  {
    if b == [] {
      assert a + b == a;
    } else {
      var b' := b[..|b| - 1];
      assert (a + b)[..|a + b| - 1] == a + b';
      FlattenConcat(a, b');
    }
  }

  lemma RecordVisitsSnoc(situation: Element, records: seq<Element>, j: nat)
    requires j < |records|
    ensures RecordVisits(situation, records[..j + 1]) ==
      RecordVisits(situation, records[..j]) + [Visit(situation, records[j])]
  {
    assert records[..j + 1][..j] == records[..j];
  }

  lemma FlattenSnoc(gs: seq<Group>, i: nat)
    requires i < |gs|
    ensures Flatten(gs[..i + 1]) == Flatten(gs[..i]) + RecordVisits(gs[i].situation, gs[i].records)
  {
    assert gs[..i + 1][..i] == gs[..i];
  }

  /** The list of two runs of outcomes is the list of the first followed by that of the second. */
  lemma {:induction false} CollectConcat(a: seq<Outcome>, b: seq<Outcome>)
    ensures Collect(a + b) ==
      match Collect(a)
      case Err(e) => Err(e)
      case Ok(x) =>
        match Collect(b)
        case Err(e) => Err(e)
        case Ok(y) => Ok(x + y)
    decreases |b|
  {
    if b == [] {
      assert a + b == a;
      if Collect(a).Ok? {
        assert Collect(a).value + [] == Collect(a).value;
      }
    } else {
      var b', last := b[..|b| - 1], b[|b| - 1];
      CollectConcat(a, b');
      assert b == b' + [last];
      assert a + b == (a + b') + [last];
      CollectSnoc(a + b', last);
      CollectSnoc(b', last);
      if Collect(a).Ok? && Collect(b').Ok? && last.Ok? && last.value.Some? {
        assert Collect(a).value + Collect(b').value + [last.value.value] ==
          Collect(a).value + (Collect(b').value + [last.value.value]);
      }
    }
  }

  lemma RecordOutcomesSnoc(situation: Element, records: seq<Element>, j: nat, num: NumberParser)
    requires j < |records|
    ensures Outcomes(RecordVisits(situation, records[..j + 1]), num) ==
      Outcomes(RecordVisits(situation, records[..j]), num) + [RecordOutcome(Visit(situation, records[j]), num)]
  {
    RecordVisitsSnoc(situation, records, j);
    OutcomesConcat(RecordVisits(situation, records[..j]), [Visit(situation, records[j])], num);
  }

  lemma SplitAt<T>(s: seq<T>, i: nat)
    requires i <= |s|
    ensures s == s[..i] + s[i..]
  {
  }

  lemma OutcomesErrorPersists(a: seq<Visit>, b: seq<Visit>, num: NumberParser)
    requires Collect(Outcomes(a, num)).Err?
    ensures Collect(Outcomes(a + b, num)) == Collect(Outcomes(a, num))
  {
    OutcomesConcat(a, b, num);
    CollectErrorPersists(Outcomes(a, num), Outcomes(b, num));
  }

  /** An exception at record `j` is the exception of the whole run over `records`. */
  lemma RecordRaises(situation: Element, records: seq<Element>, j: nat, num: NumberParser)
    requires j < |records|
    requires Collect(Outcomes(RecordVisits(situation, records[..j + 1]), num)).Err?
    ensures Collect(Outcomes(RecordVisits(situation, records), num)) ==
      Collect(Outcomes(RecordVisits(situation, records[..j + 1]), num))
  {
    var done, rest := records[..j + 1], records[j + 1..];
    SplitAt(records, j + 1);
    RecordVisitsConcat(situation, done, rest);
    OutcomesErrorPersists(RecordVisits(situation, done), RecordVisits(situation, rest), num);
  }

  lemma GroupOutcomesSnoc(gs: seq<Group>, i: nat, num: NumberParser)
    requires i < |gs|
    ensures Outcomes(Flatten(gs[..i + 1]), num) ==
      Outcomes(Flatten(gs[..i]), num) + Outcomes(RecordVisits(gs[i].situation, gs[i].records), num)
  {
    FlattenSnoc(gs, i);
    OutcomesConcat(Flatten(gs[..i]), RecordVisits(gs[i].situation, gs[i].records), num);
  }

  /** An exception in group `i` is the exception of the whole run over `gs`. */
  lemma GroupRaises(gs: seq<Group>, i: nat, num: NumberParser)
    requires i < |gs|
    requires Collect(Outcomes(Flatten(gs[..i + 1]), num)).Err?
    ensures Collect(Outcomes(Flatten(gs), num)) == Collect(Outcomes(Flatten(gs[..i + 1]), num))
  {
    SplitAt(gs, i + 1);
    FlattenConcat(gs[..i + 1], gs[i + 1..]);
    OutcomesErrorPersists(Flatten(gs[..i + 1]), Flatten(gs[i + 1..]), num);
  }

  // ---------------------------------------------------------------------------
  // The parser object

  class Datex2Parser {
    var url: string
    var xmlContent: Option<seq<byte>>
    var root: Option<Element>

    /** `url or DEFAULT_URL`: an absent or empty URL falls back to the default. */
    constructor (url: Option<string>)
      ensures this.url == (if url.Some? && url.value != "" then url.value else DefaultUrl)
      ensures xmlContent == None && root == None
    {
      this.url := if url.Some? && url.value != "" then url.value else DefaultUrl;
      xmlContent := None;
      root := None;
    }

    /** The state change of `load_from_file` and `fetch_data` once the bytes are read. */
    method LoadContent(content: seq<byte>) returns (r: seq<byte>)
      modifies this`xmlContent
      ensures xmlContent == Some(content) && r == content
    {
      xmlContent := Some(content);
      r := content;
    }

    /** `xml_content or self._xml_content`: an absent or empty argument falls back to the stored bytes. */
    function ContentToParse(content: Option<seq<byte>>): Option<seq<byte>>
      reads this
    {
      if content.Some? && content.value != [] then content else xmlContent
    }

    /**
     * `parse_xml`: parses the argument or the stored bytes with `fromString`
     * (`None` = the XML parser raises) and keeps the tree as the root.
     */
    method ParseXml(content: Option<seq<byte>>, fromString: seq<byte> -> Option<Element>)
      returns (r: Result<Element, Error>)
      modifies this`root
      ensures ContentToParse(content).None? ==> r == Err(NoContent) && root == old(root)
      ensures ContentToParse(content).Some? && fromString(ContentToParse(content).value).None? ==>
        r == Err(MalformedXml) && root == old(root)
      ensures ContentToParse(content).Some? && fromString(ContentToParse(content).value).Some? ==>
        r == Ok(fromString(ContentToParse(content).value).value) && root == Some(r.value)
    {
      var chosen := if content.Some? && content.value != [] then content else xmlContent;
      if chosen.None? {
        return Err(NoContent);
      }
      var tree := fromString(chosen.value);
      if tree.None? {
        return Err(MalformedXml);
      }
      root := tree;
      return Ok(tree.value);
    }

    /** `if elem is not None and elem.text: float(elem.text)`, the conversion `_extract_point_info` repeats. */
    method ConvertText(e: Option<Element>, num: NumberParser) returns (r: Result<Option<real>, Error>)
      ensures r == ParseNumber(NumericText(e), num)
    {
      if e.Some? && e.value.text.Some? && e.value.text.value != "" {
        var v := num(e.value.text.value);
        if v.None? {
          return Err(InvalidFloat(e.value.text.value));
        }
        return Ok(v);
      }
      return Ok(None);
    }

    /** `_extract_point_info`: fills the point's information entry by entry. */
    method ExtractPointInfo(point: Element, num: NumberParser) returns (r: Result<PointInfo, Error>)
      ensures r == PointInfoOf(point, num)
    {
      var info := EmptyPointInfo;
      var coords := FindDesc(point, LOC, "pointCoordinates");
      if coords.Some? {
        var lat := Find(coords.value, LOC, "latitude");
        var lon := Find(coords.value, LOC, "longitude");
        var latitude := ConvertText(lat, num);
        if latitude.Err? {
          return Err(latitude.error);
        }
        info := info.(latitude := latitude.value);
        var longitude := ConvertText(lon, num);
        if longitude.Err? {
          return Err(longitude.error);
        }
        info := info.(longitude := longitude.value);
      }
      ghost var coordinates := info;
      assert ParseNumber(CoordinateText(point, "latitude"), num) == Ok(coordinates.latitude);
      assert ParseNumber(CoordinateText(point, "longitude"), num) == Ok(coordinates.longitude);
      var ext := FindDesc(point, LOC, "extendedTpegNonJunctionPoint");
      if ext.Some? {
        var province := Find(ext.value, LSE, "province");
        var municipality := Find(ext.value, LSE, "municipality");
        var ac := Find(ext.value, LSE, "autonomousCommunity");
        var km := Find(ext.value, LSE, "kilometerPoint");
        if province.Some? {
          info := info.(province := province.value.text);
        }
        if municipality.Some? {
          info := info.(municipality := municipality.value.text);
        }
        if ac.Some? {
          info := info.(autonomousCommunity := ac.value.text);
        }
        var kmPoint := ConvertText(km, num);
        if kmPoint.Err? {
          return Err(kmPoint.error);
        }
        info := info.(kmPoint := kmPoint.value);
      }
      assert info.latitude == coordinates.latitude && info.longitude == coordinates.longitude;
      assert ParseNumber(KilometerText(point), num) == Ok(info.kmPoint);
      return Ok(info);
    }

    /**
     * One pass of the loop over the records of a situation: the fields read
     * from the record, then the three silent skips, then the point extraction
     * whose exception escapes `get_situations`.
     */
    method ExtractRecord(situation: Element, sitId: string, severity: Option<string>, record: Element, num: NumberParser)
      returns (r: Outcome)
      requires sitId == SituationId(situation) && severity == Severity(situation)
      ensures r == RecordOutcome(Visit(situation, record), num)
    {
      var roadName := TextOf(FindDesc(record, LOC, "roadName"));
      var managementType := TextOf(FindDesc(record, SIT, "roadOrCarriagewayOrLaneManagementType"));
      var causeType := TextOf(FindDesc(record, SIT, "causeType"));

      var locationRef := Find(record, SIT, "locationReference");
      if locationRef.None? {
        return Ok(None);
      }
      var fromPoint := FindDesc(locationRef.value, LOC, "from");
      var toPoint := FindDesc(locationRef.value, LOC, "to");
      var singlePoint := FindDesc(locationRef.value, LOC, "point");
      var point := if fromPoint.Some? then fromPoint else if toPoint.Some? then toPoint else singlePoint;
      assert point == ChosenPoint(record);
      if point.None? {
        return Ok(None);
      }
      var pointInfo := ExtractPointInfo(point.value, num);
      if pointInfo.Err? {
        return Err(pointInfo.error);
      }
      var info := pointInfo.value;
      if info.latitude.None? || info.longitude.None? {
        return Ok(None);
      }
      var emitted := Situation(
        sitId, severity, info.latitude.value, info.longitude.value,
        info.province, info.municipality, info.autonomousCommunity,
        roadName, managementType, causeType, info.kmPoint);
      return Ok(Some(emitted));
    }

    /**
     * The loop over the records below one situation element, with the
     * situation's id and severity already read.
     */
    method ExtractSituationRecords(situation: Element, sitId: string, severity: Option<string>, num: NumberParser)
      returns (r: Result<seq<Situation>, Error>)
      requires sitId == SituationId(situation) && severity == Severity(situation)
      ensures r == Collect(Outcomes(RecordVisits(situation, GroupOf(situation).records), num))
    {
      var emitted: seq<Situation> := [];
      var records := FindAll(situation, SIT, "situationRecord");
      for j := 0 to |records|
        invariant Collect(Outcomes(RecordVisits(situation, records[..j]), num)) == Ok(emitted)
      {
        var outcome := ExtractRecord(situation, sitId, severity, records[j], num);
        RecordOutcomesSnoc(situation, records, j, num);
        CollectSnoc(Outcomes(RecordVisits(situation, records[..j]), num), outcome);
        match outcome
        case Err(e) =>
          RecordRaises(situation, records, j, num);
          return Err(e);
        case Ok(None) =>
        case Ok(Some(s)) =>
          emitted := emitted + [s];
      }
      assert records[..|records|] == records;
      return Ok(emitted);
    }

    /**
     * `get_situations`: for every situation, for every record below it, the
     * record's situation unless it is skipped; raises when the tree was never
     * parsed or a number does not convert. Changes no field.
     */
    method GetSituations(num: NumberParser) returns (r: Result<seq<Situation>, Error>)
      ensures root.None? ==> r == Err(NotParsed)
      ensures root.Some? ==> r == SituationsOf(root.value, num)
      ensures r == Err(NotParsed) <==> root.None?
    {
      if root.None? {
        return Err(NotParsed);
      }
      SituationsOfRaisesOnlyInvalidFloat(root.value, num);
      var situations: seq<Situation> := [];
      var sits := FindAll(root.value, SIT, "situation");
      ghost var groups := GroupsOf(sits);
      for i := 0 to |sits|
        invariant Collect(Outcomes(Flatten(groups[..i]), num)) == Ok(situations)
      {
        var sitElem := sits[i];
        var sitId := Get(sitElem, "id", "");
        var severity := TextOf(Find(sitElem, SIT, "overallSeverity"));
        var emitted := ExtractSituationRecords(sitElem, sitId, severity, num);
        assert groups[i] == GroupOf(sitElem);
        GroupOutcomesSnoc(groups, i, num);
        CollectConcat(Outcomes(Flatten(groups[..i]), num), Outcomes(RecordVisits(sitElem, groups[i].records), num));
        if emitted.Err? {
          GroupRaises(groups, i, num);
          assert groups[..|sits|] == groups;
          return Err(emitted.error);
        }
        situations := situations + emitted.value;
      }
      assert groups[..|sits|] == groups;
      return Ok(situations);
    }
  }
}
