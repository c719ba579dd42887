# DATEX2 situation extractor, modelled in Dafny

This project models the extraction core of a DATEX2 traffic-situation reader.
A parser object holds the raw XML bytes and, once they are parsed, the root of
an element tree. Its `get_situations` walks every `situation` element and every
`situationRecord` below it. Each record is geolocated by one point (`from`, else
`to`, else `point` under the record's own `locationReference`). From each located
record it builds one flat `Situation` record. The record has:

- the situation's `id` attribute and `overallSeverity` text;
- the record's road name, management type and cause type;
- the point's latitude and longitude, its Spanish administrative extension
  (province, municipality, autonomous community) and its kilometre point.

Records without a location reference, without a point, or missing either
coordinate are skipped silently.

Files:

- `wrappers.dfy` — `Option` and `Result`.
- `element_tree.dfy` — an abstract element tree. Each element has a namespace
  URI, a local name, attributes, `.text` and children. It also defines the three
  queries the extractor uses, with their specifications:
  - `find('ns:tag')`: `Find`, the first direct child;
  - `find('.//ns:tag')`: `FindDesc`, a depth-first search;
  - `findall('.//ns:tag')`: `FindAll`, every match below the element in
    document order.
- `datex2.dfy` — the namespace URIs and the `NAMESPACES` table, `DEFAULT_URL`,
  the `Situation` record and the error kinds. It also holds the extraction
  rules as functions, and the class `Datex2Parser` with the fields `url`,
  `xmlContent` and `root` and imperative methods for each operation.
  `get_situations` is specified as `SituationsOf(root)`, built from three parts:
  - `Visits`: every (situation, record) pair the nested loops visit, in
    visiting order;
  - `Outcomes`: what each visit contributes, via `RecordOutcome`: skipped,
    emitted, or raises;
  - `Collect`: the list those outcomes build, where the first exception aborts
    the walk.
- `datex2_properties.dfy` — what the extraction guarantees:
  - the list as a filter of the visits;
  - where visits come from and how many there are;
  - record-level skip, field and priority rules;
  - a worked record;
  - the parser's state protocol seen from a caller.

Python's `float()` is a parameter `num: string -> Option<real>`, where `None`
means `ValueError`. `etree.fromstring` is a parameter `fromString: seq<byte> ->
Option<Element>`, where `None` means a syntax error. Exceptions are `Err` values
of `Result`.

The Python `get_situations` is one method with two nested loops. The model
keeps that structure in three methods:

- `GetSituations` holds the loop over situations.
- `ExtractSituationRecords` holds the loop over one situation's records.
- `ExtractRecord` holds the body of that inner loop. Each `continue` is an
  early `Ok(None)` return.

## Model

| member | source | states |
|---|---|---|
| ElementTree.FindIsFirstChild | datex2_parser.py:91-94 | `find` on a child tag is the first direct child with that namespace and name; it is `None` exactly when no direct child matches |
| ElementTree.FindDescIsFirst | datex2_parser.py:79 | `find('.//…')` returns the first element that `findall('.//…')` lists (depth-first, document order, the element itself excluded) |
| ElementTree.FilterMembers | datex2_parser.py:114 | `findall` keeps exactly the matching elements and never lengthens the list |
| Datex2.ParseNumber | datex2_parser.py:83-86 | a text is converted exactly when present; a conversion yields `float`'s value; it fails exactly when `float` rejects the text, with that text |
| Datex2.CollectRaisesFromOutcome | datex2_parser.py:151 | an exception from the loop is the one raised by the first visit that raises; every earlier visit completed |
| Datex2.CollectOkWhenNoneRaises | datex2_parser.py:112-171 | the list is returned exactly when no visit raises |
| Datex2.CollectConcat | datex2_parser.py:114-169 | the list of two runs of visits is the first run's list followed by the second's, and an exception in either is the result |
| Datex2.RecordOutcomeRaisesOnlyInvalidFloat | datex2_parser.py:151 | a record raises only through a failed number conversion |
| Datex2.SituationsOfRaisesOnlyInvalidFloat | datex2_parser.py:107-171 | extraction from a parsed tree raises nothing but a failed number conversion |
| Datex2.Datex2Parser.constructor | datex2_parser.py:41-44 | `url or DEFAULT_URL`: an absent or empty URL becomes the default; no content and no tree yet |
| Datex2.Datex2Parser.LoadContent | datex2_parser.py:53-57 | the content becomes the stored bytes and is returned; nothing else changes |
| Datex2.Datex2Parser.ParseXml | datex2_parser.py:59-65 | an absent or empty argument falls back to the stored bytes; with neither it raises and keeps the old tree; a rejected document raises and keeps the old tree; otherwise the tree becomes the root and is returned |
| Datex2.Datex2Parser.ConvertText | datex2_parser.py:83-84 | `if elem is not None and elem.text: float(elem.text)`, agreeing with `ParseNumber` on the element's text |
| Datex2.Datex2Parser.ExtractPointInfo | datex2_parser.py:67-105 | the info built field by field equals `PointInfoOf`: the coordinates from `pointCoordinates` at any depth, the administrative data from `extendedTpegNonJunctionPoint` at any depth; the first failed conversion raises |
| Datex2.Datex2Parser.ExtractRecord | datex2_parser.py:123-169 | one pass of the record loop computes `RecordOutcome` for that (situation, record) pair: the three skips, the priority choice, the raise, the emitted fields |
| Datex2.Datex2Parser.ExtractSituationRecords | datex2_parser.py:122-169 | the loop over one situation's records builds the list its visits collect to, or raises their first exception |
| Datex2.Datex2Parser.GetSituations | datex2_parser.py:107-171 | raises the not-parsed error exactly when no tree was parsed; otherwise returns `SituationsOf(root)`, which may raise only a failed conversion; changes no field |
| Datex2Properties.EmittedAtPositions | datex2_parser.py:153-169 | the emitted situations are those of the emitting visits, at strictly increasing visit positions; every emitting visit is included; the list is never longer than the visits |
| Datex2Properties.CollectIsEmitted | datex2_parser.py:137-169 | without an exception the list is exactly the emitted situations in visiting order |
| Datex2Properties.SituationsOfOkIff | datex2_parser.py:107-171 | the extraction returns exactly when no visited record raises |
| Datex2Properties.SituationsOfList | datex2_parser.py:112-171 | a returned list follows visiting order and is at most as long as the visits |
| Datex2Properties.SituationsOfRaise | datex2_parser.py:151 | a raised exception is the first raising record's, and is a failed number conversion |
| Datex2Properties.FirstRaiseAborts | datex2_parser.py:114-151 | a record that raises, with no earlier record raising, makes the whole extraction raise its exception and return no list |
| Datex2Properties.VisitOrigins | datex2_parser.py:114-122 | every visit is a namespaced `situation` below the root with a namespaced `situationRecord` below that situation |
| Datex2Properties.VisitsComplete | datex2_parser.py:114-122 | every namespaced `situation` below the root, paired with every namespaced `situationRecord` below it, is visited |
| Datex2Properties.VisitCount | datex2_parser.py:114-122 | the walk makes one visit per record found below each situation |
| Datex2Properties.SituationsBound | datex2_parser.py:112-169 | the list is at most as long as the total number of records found below the situations |
| Datex2Properties.RecordOutcomeCases | datex2_parser.py:136-154 | a record is skipped exactly when it has no point or its point lacks latitude or longitude; it raises exactly when its point's numbers fail to convert |
| Datex2Properties.EmittedFields | datex2_parser.py:156-168 | an emitted situation has the converted coordinates and the administrative data of the chosen point, the `id` attribute or `""`, the direct `overallSeverity` text, and the record's road, management and cause texts |
| Datex2Properties.SharedSituationFields | datex2_parser.py:115-119 | records of the same situation element emit situations with equal `id` and `severity` |
| Datex2Properties.NoLocationReferenceSkipped | datex2_parser.py:136-138 | a record with no direct `locationReference` child is skipped, whatever lies deeper |
| Datex2Properties.FindDescNone | datex2_parser.py:141-143 | a search at any depth finds nothing exactly when no element below matches |
| Datex2Properties.ChoosePointPriority | datex2_parser.py:141-146 | the point is the first `from` below the location reference, else the first `to`, else the first `point`; none exactly when none of the three occurs |
| Datex2Properties.NoPointSkipped | datex2_parser.py:148-149 | a location reference with no `from`, `to` or `point` below it skips the record |
| Datex2Properties.PointWithoutExtension | datex2_parser.py:89-103 | without an extension element, province, municipality, autonomous community and kilometre point stay `None`; the point then raises exactly when a coordinate fails to convert |
| Datex2Properties.PointInfoSources | datex2_parser.py:78-103 | the coordinates are read from the first `pointCoordinates` below the point (none without it), the administrative data and kilometre point from the direct children of the first `extendedTpegNonJunctionPoint` (all `None` without it) |
| Datex2Properties.SharedCoordinates | datex2_parser.py:79-86 | two points with the same first `pointCoordinates` element get the same latitude and longitude, whatever else they hold |
| Datex2Properties.MissingCoordinateDrops | datex2_parser.py:153-154 | a missing, empty or text-less latitude or longitude skips the record unless a number raises |
| Datex2Properties.UnparsableLatitudeRaises | datex2_parser.py:83-84 | a latitude text `float` rejects makes the record raise with that text |
| Datex2Properties.UnparsableLongitudeRaises | datex2_parser.py:85-86 | once the latitude converted, a longitude text `float` rejects makes the record raise with that text |
| Datex2Properties.UnparsableKilometreRaises | datex2_parser.py:102-103 | once both coordinates converted, a kilometre text `float` rejects makes the record raise with that text |
| Datex2Properties.EmptyTextNotConverted | datex2_parser.py:83 | an empty or absent text is not handed to `float`, so it cannot raise |
| Datex2Properties.MadridPointInfo | datex2_parser.py:78-103 | a concrete point: coordinates (40.0, -3.5), province Madrid, everything else `None` |
| Datex2Properties.MadridRecordPoint | datex2_parser.py:136-146 | in the concrete record, the chosen point is the `point` element |
| Datex2Properties.MadridRecordEmits | datex2_parser.py:156-168 | the concrete record under a situation `S1` of severity `high` emits exactly `Situation(S1, high, 40.0, -3.5, Madrid, …, road A-1)` |
| Datex2Properties.ExtractTwice | datex2_parser.py:107-171 | calling `get_situations` twice gives the same answer; it raises the not-parsed error exactly when there is no tree |
| Datex2Properties.FreshParserRaises | datex2_parser.py:59-63 | on a new parser, `get_situations` and `parse_xml()` both raise |
| Datex2Properties.LoadParseExtract | datex2_parser.py:174-182 | load, parse the stored bytes, extract: the extraction from the parsed tree, or the syntax error |

## Behaviour of the code worth knowing

- **Severity.** It is read from a direct `overallSeverity` child of the
  situation (`find('sit:overallSeverity')`, line 118), not from one at any depth.
- **Conversion failures raise.** A latitude, longitude or kilometre text that
  `float()` rejects raises `ValueError` (lines 84, 86, 103). Nothing catches it,
  so it escapes `get_situations` and no list is returned. It is not swallowed as
  an absent value. `Datex2Properties.UnparsableLatitudeRaises`,
  `Datex2Properties.UnparsableLongitudeRaises` and
  `Datex2Properties.UnparsableKilometreRaises` state this for one record;
  `Datex2Properties.FirstRaiseAborts` lifts it to the whole extraction.
- **Both coordinates required.** A record is dropped when *either* coordinate
  is missing (line 153), not only when both are missing.
- **Records are counted per visit, not per record.** A `situationRecord` below
  two nested `situation` elements is visited once for each of them. The bound is
  therefore the number of records found below each situation
  (`Datex2Properties.SituationsBound`), not the number of distinct records in
  the document.

## Left out

- `fetch_data` (lines 46-51): the HTTP request. Only its state change is modelled, as `Datex2Parser.LoadContent`.
- `load_from_file` (lines 53-57): reading the file. Its state change is `Datex2Parser.LoadContent`.
- `etree.fromstring` (line 64): the XML parser is the parameter `fromString`. Well-formedness, encodings and entities are not modelled; every syntax error is the one error `MalformedXml`.
- `float()`: a parameter `num`. IEEE doubles, rounding and the texts Python accepts (`"nan"`, `"1e3"`, surrounding spaces) are not modelled; coordinates are `real`.
- Exceptions are `Err` values; the messages of the `ValueError`s are not modelled.
- lxml details: comments and processing instructions among children, tail text, and attribute namespaces (the `id` attribute is a plain key).
- `NAMESPACES` is modelled as a map from prefixes to URIs, and the queries use the URIs directly. lxml's resolution of prefixes in the path strings is not modelled.
- `url` is only stored; it is used by `fetch_data` alone.
- The printing in the `__main__` block (lines 183-187) is left out; its calls (lines 176-182) are `Datex2Properties.LoadParseExtract`.
- `main.py`, `map_visualizer.py` and `stats_generator.py` are not part of this model.
- The worked example is at the record level. A whole-document example would need the element-tree searches unrolled by hand at every level of the tree.
