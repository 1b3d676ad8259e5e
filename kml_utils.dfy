/**
 * The KML polygon extractor and the minimal polygon KML builder of
 * `KmlUtils` (app/src/main/java/com/example/atak2drone/utils/KmlUtils.kt).
 *
 * The namespace-aware pull parser is replaced by a sequence of events.
 * Matching is by local name only.  A `coordinates` element is reported as
 * one `Coords` event carrying its raw text, because `nextText()` consumes
 * the text and the end tag together.  Number parsing (`toDoubleOrNull`) and
 * number printing (`StringBuilder.append(Double)`) are parameters.
 */
module KmlUtils {
  import opened Text

  /** A geographic point: the source's `Coordinate(latitude, longitude)`. */
  datatype Coordinate = Coordinate(latitude: real, longitude: real)

  /** What the pull parser reports, reduced to what the scan looks at. */
  datatype Event =
    | Start(localName: string)   // START_TAG of any element but `coordinates`
    | End(localName: string)     // END_TAG
    | Coords(text: string)       // a `coordinates` element, read with nextText()
    | Chars(text: string)        // text and every other event; the scan ignores it

  datatype KmlError =
    | NoUsableGeometry           // nothing captured
    | LineStringOnly             // only a LineString captured
    | TooFewPoints               // fewer than 3 points after parsing
    | TooFewPointsToBuild        // builder given fewer than 3 points

  function Message(e: KmlError): string
  {
    match e
    case NoUsableGeometry => "No usable geometry found in KML (Polygon/LinearRing/LineString not present)."
    case LineStringOnly => "KML contains a LineString but no Polygon/LinearRing. Draw a Polygon in ATAK for mapping."
    case TooFewPoints => "Polygon must have at least 3 unique points."
    case TooFewPointsToBuild => "Polygon must have at least 3 points."
  }

  // ---------------------------------------------------------------------
  // The scan state machine
  // ---------------------------------------------------------------------

  /** The loop variables of `parseSinglePolygonFromKml`. */
  datatype ScanState = ScanState(
    inPolygon: bool, inLinearRing: bool, inLineString: bool, scopeDepth: int,
    polygonCoords: Option<string>, linearRingCoords: Option<string>, lineStringCoords: Option<string>)

  const Initial := ScanState(false, false, false, 0, None, None, None)

  predicate InScope(s: ScanState)
  {
    s.inPolygon || s.inLinearRing || s.inLineString
  }

  /** The three capture slots, and which of them a `coordinates` text goes to. */
  datatype Scope = PolygonScope | LinearRingScope | LineStringScope

  function Slot(s: ScanState, k: Scope): Option<string>
  {
    match k
    case PolygonScope => s.polygonCoords
    case LinearRingScope => s.linearRingCoords
    case LineStringScope => s.lineStringCoords
  }

  /** The first branch of the capture `when` that applies in state `s` selects slot `k`. */
  predicate Wins(s: ScanState, k: Scope)
  {
    var p := s.inPolygon && s.polygonCoords.None?;
    var r := s.inLinearRing && s.linearRingCoords.None?;
    var l := s.inLineString && s.lineStringCoords.None?;
    match k
    case PolygonScope => p
    case LinearRingScope => !p && r
    case LineStringScope => !p && !r && l
  }

  /** Store a non-empty trimmed text in the first open, still empty slot, Polygon first. */
  function Capture(s: ScanState, text: string): ScanState
  {
    if Wins(s, PolygonScope) then s.(polygonCoords := Some(text))
    else if Wins(s, LinearRingScope) then s.(linearRingCoords := Some(text))
    else if Wins(s, LineStringScope) then s.(lineStringCoords := Some(text))
    else s
  }

  function OnCoordinates(s: ScanState, raw: string): ScanState
  {
    var text := Trim(raw);
    if text == [] then s
    else
      var c := Capture(s, text);
      if InScope(s) then c.(scopeDepth := c.scopeDepth - 1) else c
  }

  /** The local names the scan reacts to. */
  datatype ElementKind = PolygonElement | LinearRingElement | LineStringElement | CoordinatesElement | OtherElement

  function KindOf(localName: string): ElementKind
  {
    if localName == "Polygon" then PolygonElement
    else if localName == "LinearRing" then LinearRingElement
    else if localName == "LineString" then LineStringElement
    else if localName == "coordinates" then CoordinatesElement
    else OtherElement
  }

  function OnStart(s: ScanState, name: string): ScanState
  {
    match KindOf(name)
    case PolygonElement => s.(inPolygon := true, scopeDepth := 1)
    case LinearRingElement => s.(inLinearRing := true, scopeDepth := 1)
    case LineStringElement => s.(inLineString := true, scopeDepth := 1)
    case CoordinatesElement => s  // an empty coordinates element
    case OtherElement => if InScope(s) then s.(scopeDepth := s.scopeDepth + 1) else s
  }

  function OnEnd(s: ScanState, name: string): ScanState
  {
    var d := s.scopeDepth - 1;
    match KindOf(name)
    case PolygonElement => if s.inPolygon then s.(scopeDepth := d, inPolygon := d > 0) else s
    case LinearRingElement => if s.inLinearRing then s.(scopeDepth := d, inLinearRing := d > 0) else s
    case LineStringElement => if s.inLineString then s.(scopeDepth := d, inLineString := d > 0) else s
    case _ => if InScope(s) then s.(scopeDepth := d) else s
  }

  /** One iteration of the `while (event != END_DOCUMENT)` loop. */
  function Step(s: ScanState, e: Event): ScanState
  {
    match e
    case Start(n) => OnStart(s, n)
    case End(n) => OnEnd(s, n)
    case Coords(raw) => OnCoordinates(s, raw)
    case Chars(_) => s
  }

  function ScanFrom(s: ScanState, events: seq<Event>): ScanState
    decreases |events|
  {
    if events == [] then s else ScanFrom(Step(s, events[0]), events[1..])
  }

  /** The state after the whole scan. */
  function Scan(events: seq<Event>): ScanState
  {
    ScanFrom(Initial, events)
  }

  lemma {:induction false} ScanFromSnoc(s: ScanState, events: seq<Event>, e: Event)
    ensures ScanFrom(s, events + [e]) == Step(ScanFrom(s, events), e)
    decreases |events|
  {
    if events == [] {
      assert events + [e] == [e];
    } else {
      assert (events + [e])[1..] == events[1..] + [e];
      ScanFromSnoc(Step(s, events[0]), events[1..], e);
    }
  }

  lemma {:induction false} ScanFromAppend(s: ScanState, a: seq<Event>, b: seq<Event>)
    ensures ScanFrom(s, a + b) == ScanFrom(ScanFrom(s, a), b)
    decreases |a|
  {
    if a == [] {
      assert a + b == b;
    } else {
      assert (a + b)[1..] == a[1..] + b;
      ScanFromAppend(Step(s, a[0]), a[1..], b);
    }
  }

  /** Start and end tags never touch the capture slots. */
  lemma TagsKeepSlots(s: ScanState, name: string)
    ensures var t := OnStart(s, name);
      t.polygonCoords == s.polygonCoords && t.linearRingCoords == s.linearRingCoords
      && t.lineStringCoords == s.lineStringCoords
    ensures var t := OnEnd(s, name);
      t.polygonCoords == s.polygonCoords && t.linearRingCoords == s.linearRingCoords
      && t.lineStringCoords == s.lineStringCoords
  {
  }

  lemma CaptureSlot(s: ScanState, text: string, k: Scope)
    ensures Slot(Capture(s, text), k) == if Wins(s, k) then Some(text) else Slot(s, k)
  {
  }

  /** Effect of one event on a capture slot. */
  lemma StepSlot(s: ScanState, e: Event, k: Scope)
    ensures Slot(Step(s, e), k) ==
      if e.Coords? && Trim(e.text) != [] && Wins(s, k) then Some(Trim(e.text)) else Slot(s, k)
  {
    match e
    case Start(n) => TagsKeepSlots(s, n);
    case End(n) => TagsKeepSlots(s, n);
    case Coords(raw) =>
      var text := Trim(raw);
      if text != [] {
        CaptureSlot(s, text, k);
        var c := Capture(s, text);
        assert Slot(c.(scopeDepth := c.scopeDepth - 1), k) == Slot(c, k);
      }
    case Chars(_) =>
  }

  /** A filled slot is never overwritten: the first capture wins. */
  lemma {:induction false} SlotSticky(s: ScanState, events: seq<Event>, k: Scope)
    requires Slot(s, k).Some?
    ensures Slot(ScanFrom(s, events), k) == Slot(s, k)
    decreases |events|
  {
    if events != [] {
      StepSlot(s, events[0], k);
      SlotSticky(Step(s, events[0]), events[1..], k);
    }
  }

  /** Every filled slot holds a text that is not blank. */
  predicate SlotsNotBlank(s: ScanState)
  {
    forall k :: Slot(s, k).Some? ==> !IsBlank(Slot(s, k).value)
  }

  lemma {:induction false} ScanKeepsSlotsNotBlank(s: ScanState, events: seq<Event>)
    requires SlotsNotBlank(s)
    ensures SlotsNotBlank(ScanFrom(s, events))
    decreases |events|
  {
    if events != [] {
      var e := events[0];
      forall k | Slot(Step(s, e), k).Some? ensures !IsBlank(Slot(Step(s, e), k).value) {
        StepSlot(s, e, k);
        if e.Coords? { TrimBlank(e.text); }
      }
      ScanKeepsSlotsNotBlank(Step(s, e), events[1..]);
    }
  }

  /** A captured text is never blank: whitespace-only coordinates are skipped. */
  lemma CapturedTextNotBlank(events: seq<Event>)
    ensures SlotsNotBlank(Scan(events))
  {
    ScanKeepsSlotsNotBlank(Initial, events);
  }

  /**
   * Inside a Polygon whose slot is still empty, a coordinates text fills the
   * Polygon slot even when a LinearRing is open too; the LinearRing slot is untouched.
   */
  lemma PolygonSlotBeforeRingSlot(s: ScanState, raw: string)
    requires s.inPolygon && s.inLinearRing && s.polygonCoords.None? && Trim(raw) != []
    ensures Step(s, Coords(raw)).polygonCoords == Some(Trim(raw))
    ensures Step(s, Coords(raw)).linearRingCoords == s.linearRingCoords
  {
  }

  // ---------------------------------------------------------------------
  // Choosing the winner
  // ---------------------------------------------------------------------

  /** `polygonCoords ?: linearRingCoords ?: lineStringCoords` and the two checks after it. */
  function Choose(s: ScanState): Result<string, KmlError>
  {
    var chosen :=
      if s.polygonCoords.Some? then s.polygonCoords
      else if s.linearRingCoords.Some? then s.linearRingCoords
      else s.lineStringCoords;
    if chosen.None? then Err(NoUsableGeometry)
    else if s.polygonCoords.None? && s.linearRingCoords.None? && s.lineStringCoords.Some? then Err(LineStringOnly)
    else Ok(chosen.value)
  }

  // ---------------------------------------------------------------------
  // Coordinate text
  // ---------------------------------------------------------------------

  predicate IsComma(c: char) { c == ',' }

  /** Keep the tokens that are not blank. */
  function NonBlank(ts: seq<string>): (r: seq<string>)
    ensures |r| <= |ts|
    ensures forall i :: 0 <= i < |r| ==> !IsBlank(r[i])
  {
    if ts == [] then []
    else if IsBlank(ts[0]) then NonBlank(ts[1..])
    else [ts[0]] + NonBlank(ts[1..])
  }

  /**
   * `split(Regex("\\s+"))` followed by the `isBlank` filter.  Splitting at every
   * single `\s` character yields the same non-blank tokens; it only adds empty
   * fields, which the filter drops.
   */
  function Tokens(text: string): seq<string>
  {
    NonBlank(Split(text, IsRegexSpace))
  }

  /** One `lon,lat[,alt...]` token: field 0 is the longitude, field 1 the latitude. */
  function ParseToken(token: string, parseNum: string -> Option<real>): Option<Coordinate>
  {
    var parts := Split(token, IsComma);
    if |parts| >= 2 then
      var lon := parseNum(parts[0]);
      var lat := parseNum(parts[1]);
      if lat.Some? && lon.Some? then Some(Coordinate(lat.value, lon.value)) else None
    else None
  }

  /** `mapNotNull`: tokens that do not parse are dropped. */
  function ParseTokens(ts: seq<string>, parseNum: string -> Option<real>): seq<Coordinate>
  {
    if ts == [] then []
    else match ParseToken(ts[0], parseNum)
      case Some(c) => [c] + ParseTokens(ts[1..], parseNum)
      case None => ParseTokens(ts[1..], parseNum)
  }

  const Eps: real := 0.000000001

  function Abs(x: real): real { if x < 0.0 then -x else x }

  /** Closure detection: both components within 1e-9. */
  predicate AlmostSame(a: Coordinate, b: Coordinate)
  {
    Abs(a.latitude - b.latitude) < Eps && Abs(a.longitude - b.longitude) < Eps
  }

  predicate IsClosed(pts: seq<Coordinate>)
  {
    |pts| >= 2 && AlmostSame(pts[0], pts[|pts| - 1])
  }

  /** Drop an explicit closing point; never reorder. */
  function StripClosure(pts: seq<Coordinate>): (r: seq<Coordinate>)
    ensures |r| == if IsClosed(pts) then |pts| - 1 else |pts|
    ensures r == pts[..|r|]
  {
    if IsClosed(pts) then pts[..|pts| - 1] else pts
  }

  /** `parseCoordinateTextToLatLng`. */
  function ParseCoordinateText(text: string, parseNum: string -> Option<real>): seq<Coordinate>
  {
    StripClosure(ParseTokens(Tokens(text), parseNum))
  }

  /** `validatePolygonOrThrow`. */
  function ValidatePolygon(ring: seq<Coordinate>): (r: Result<seq<Coordinate>, KmlError>)
    ensures r.Ok? <==> |ring| >= 3
    ensures r.Ok? ==> r.value == ring
    ensures r.Err? ==> r.error == TooFewPoints
  {
    if |ring| < 3 then Err(TooFewPoints) else Ok(ring)
  }

  /** The whole of `parseSinglePolygonFromKml`, as a function of the event stream. */
  function ExtractPolygon(events: seq<Event>, parseNum: string -> Option<real>): Result<seq<Coordinate>, KmlError>
  {
    match Choose(Scan(events))
    case Err(e) => Err(e)
    case Ok(text) => ValidatePolygon(ParseCoordinateText(text, parseNum))
  }

  /** The START_TAG branch of the event loop. */
  method OnStartTag(s: ScanState, name: string) returns (t: ScanState)
    ensures t == OnStart(s, name)
  {
    t := s;
    var kind := KindOf(name);
    if kind == PolygonElement {
      t := t.(inPolygon := true, scopeDepth := 1);
    } else if kind == LinearRingElement {
      t := t.(inLinearRing := true, scopeDepth := 1);
    } else if kind == LineStringElement {
      t := t.(inLineString := true, scopeDepth := 1);
    } else if kind == CoordinatesElement {
    } else if t.inPolygon || t.inLinearRing || t.inLineString {
      t := t.(scopeDepth := t.scopeDepth + 1);
    }
  }

  /** The `coordinates` case of the START_TAG branch, after `nextText().trim()`. */
  method OnCoordinatesText(s: ScanState, raw: string) returns (t: ScanState)
    ensures t == OnCoordinates(s, raw)
  {
    t := s;
    var text := Trim(raw);
    if text != [] {
      if t.inPolygon && t.polygonCoords == None {
        t := t.(polygonCoords := Some(text));
      } else if t.inLinearRing && t.linearRingCoords == None {
        t := t.(linearRingCoords := Some(text));
      } else if t.inLineString && t.lineStringCoords == None {
        t := t.(lineStringCoords := Some(text));
      }
      if t.inPolygon || t.inLinearRing || t.inLineString {
        t := t.(scopeDepth := t.scopeDepth - 1);
      }
    }
  }

  /** The END_TAG branch of the event loop. */
  method OnEndTag(s: ScanState, name: string) returns (t: ScanState)
    ensures t == OnEnd(s, name)
  {
    t := s;
    var kind := KindOf(name);
    if kind == PolygonElement {
      if t.inPolygon {
        t := t.(scopeDepth := t.scopeDepth - 1);
        if t.scopeDepth <= 0 { t := t.(inPolygon := false); }
      }
    } else if kind == LinearRingElement {
      if t.inLinearRing {
        t := t.(scopeDepth := t.scopeDepth - 1);
        if t.scopeDepth <= 0 { t := t.(inLinearRing := false); }
      }
    } else if kind == LineStringElement {
      if t.inLineString {
        t := t.(scopeDepth := t.scopeDepth - 1);
        if t.scopeDepth <= 0 { t := t.(inLineString := false); }
      }
    } else if t.inPolygon || t.inLinearRing || t.inLineString {
      t := t.(scopeDepth := t.scopeDepth - 1);
    }
  }

  /** The event loop of `parseSinglePolygonFromKml`, up to END_DOCUMENT. */
  method ScanEvents(events: seq<Event>) returns (s: ScanState)
    ensures s == Scan(events)
  {
    s := Initial;
    var i := 0;
    while i < |events|
      invariant 0 <= i <= |events|
      invariant s == Scan(events[..i])
    {
      ScanFromSnoc(Initial, events[..i], events[i]);
      assert events[..i + 1] == events[..i] + [events[i]];
      match events[i] {
        case Start(name) => s := OnStartTag(s, name);
        case Coords(raw) => s := OnCoordinatesText(s, raw);
        case End(name) => s := OnEndTag(s, name);
        case Chars(_) =>
      }
      i := i + 1;
    }
    assert events[..i] == events;
  }

  /** `parseSinglePolygonFromKml`: scan, pick the winner, parse and validate it. */
  method ParseSinglePolygonFromKml(events: seq<Event>, parseNum: string -> Option<real>)
    returns (r: Result<seq<Coordinate>, KmlError>)
    ensures r == ExtractPolygon(events, parseNum)
    ensures r.Ok? ==> |r.value| >= 3
  {
    var s := ScanEvents(events);
    var polygonCoords, linearRingCoords, lineStringCoords := s.polygonCoords, s.linearRingCoords, s.lineStringCoords;
    var chosen :=
      if polygonCoords.Some? then polygonCoords
      else if linearRingCoords.Some? then linearRingCoords
      else lineStringCoords;
    if chosen == None {
      return Err(NoUsableGeometry);
    }
    if polygonCoords == None && linearRingCoords == None && lineStringCoords != None {
      return Err(LineStringOnly);
    }
    var ring := ParseCoordinateText(chosen.value, parseNum);
    if |ring| < 3 {
      return Err(TooFewPoints);
    }
    r := Ok(ring);
  }

  // ---------------------------------------------------------------------
  // Properties of the extractor
  // ---------------------------------------------------------------------

  /**
   * The outcome by cases of the capture slots: nothing captured is the generic
   * error; a LineString alone is the LineString error, never the generic one;
   * otherwise the Polygon text, else the LinearRing text, is parsed and must
   * give at least 3 points.
   */
  lemma ExtractOutcome(events: seq<Event>, parseNum: string -> Option<real>)
    ensures var s := Scan(events);
      ExtractPolygon(events, parseNum) == Err(NoUsableGeometry) <==>
        s.polygonCoords.None? && s.linearRingCoords.None? && s.lineStringCoords.None?
    ensures var s := Scan(events);
      ExtractPolygon(events, parseNum) == Err(LineStringOnly) <==>
        s.polygonCoords.None? && s.linearRingCoords.None? && s.lineStringCoords.Some?
    ensures var s := Scan(events);
      s.polygonCoords.Some? ==>
        ExtractPolygon(events, parseNum) == ValidatePolygon(ParseCoordinateText(s.polygonCoords.value, parseNum))
    ensures var s := Scan(events);
      s.polygonCoords.None? && s.linearRingCoords.Some? ==>
        ExtractPolygon(events, parseNum) == ValidatePolygon(ParseCoordinateText(s.linearRingCoords.value, parseNum))
    ensures ExtractPolygon(events, parseNum).Ok? ==> |ExtractPolygon(events, parseNum).value| >= 3
  {
  }

  /** Dropping a token that does not parse changes nothing else. */
  lemma {:induction false} ParseTokensAppend(a: seq<string>, b: seq<string>, parseNum: string -> Option<real>)
    ensures ParseTokens(a + b, parseNum) == ParseTokens(a, parseNum) + ParseTokens(b, parseNum)
    decreases |a|
  {
    if a == [] {
      assert a + b == b;
    } else {
      assert (a + b)[1..] == a[1..] + b;
      ParseTokensAppend(a[1..], b, parseNum);
    }
  }

  lemma MalformedTokenDropped(a: seq<string>, t: string, b: seq<string>, parseNum: string -> Option<real>)
    requires ParseToken(t, parseNum).None?
    ensures ParseTokens(a + [t] + b, parseNum) == ParseTokens(a + b, parseNum)
  {
    ParseTokensAppend(a + [t], b, parseNum);
    ParseTokensAppend(a, [t], parseNum);
    ParseTokensAppend(a, b, parseNum);
    assert ParseTokens([t], parseNum) == [];
  }

  /** Fields after the second (the altitude and anything more) are ignored. */
  lemma ExtraFieldsIgnored(lon: string, lat: string, rest: string, parseNum: string -> Option<real>)
    requires NoSep(lon, IsComma) && NoSep(lat, IsComma)
    ensures ParseToken(lon + "," + lat + "," + rest, parseNum) == ParseToken(lon + "," + lat, parseNum)
    ensures ParseToken(lon + "," + lat, parseNum) ==
      if parseNum(lon).Some? && parseNum(lat).Some?
      then Some(Coordinate(parseNum(lat).value, parseNum(lon).value)) else None
  {
    SplitAtSep(lon, ',', lat + "," + rest, IsComma);
    assert lon + "," + lat + "," + rest == lon + [','] + (lat + "," + rest);
    SplitAtSep(lat, ',', rest, IsComma);
    assert lat + "," + rest == lat + [','] + rest;
    SplitAtSep(lon, ',', lat, IsComma);
    assert lon + "," + lat == lon + [','] + lat;
    SplitNoSep(lat, IsComma);
  }

  /** A token with a single field is never a point. */
  lemma SingleFieldDropped(token: string, parseNum: string -> Option<real>)
    requires NoSep(token, IsComma)
    ensures ParseToken(token, parseNum) == None
  {
    SplitNoSep(token, IsComma);
  }

  /** An explicitly closed ring loses exactly its last point. */
  lemma ClosedRingStripped(pts: seq<Coordinate>)
    requires |pts| >= 2 && AlmostSame(pts[0], pts[|pts| - 1])
    ensures StripClosure(pts) == pts[..|pts| - 1]
  {
  }

  /** Whitespace at either end of the text does not change the tokens. */
  lemma {:induction false} LeadingSpacesIgnored(w: string, s: string)
    requires forall i :: 0 <= i < |w| ==> IsRegexSpace(w[i])
    ensures Tokens(w + s) == Tokens(s)
    decreases |w|
  {
    if w != [] {
      var x := w[1..] + s;
      assert w + s == [w[0]] + x;
      assert Split(w + s, IsRegexSpace) == [""] + Split(x, IsRegexSpace);
      NonBlankBlankHead(Split(x, IsRegexSpace));
      LeadingSpacesIgnored(w[1..], s);
    } else {
      assert w + s == s;
    }
  }

  lemma NonBlankBlankHead(ts: seq<string>)
    ensures NonBlank([""] + ts) == NonBlank(ts)
  {
    assert IsBlank("");
    assert ([""] + ts)[1..] == ts;
  }

  lemma {:induction false} NonBlankAppend(a: seq<string>, b: seq<string>)
    ensures NonBlank(a + b) == NonBlank(a) + NonBlank(b)
    decreases |a|
  {
    if a == [] {
      assert a + b == b;
    } else {
      assert (a + b)[1..] == a[1..] + b;
      NonBlankAppend(a[1..], b);
    }
  }

  lemma {:induction false} TrailingSpacesIgnored(s: string, w: string)
    requires forall i :: 0 <= i < |w| ==> IsRegexSpace(w[i])
    ensures Tokens(s + w) == Tokens(s)
    decreases |w|
  {
    if w != [] {
      var w' := w[..|w| - 1];
      assert s + w == (s + w') + [w[|w| - 1]];
      SplitTrailingSep(s + w', w[|w| - 1], IsRegexSpace);
      NonBlankAppend(Split(s + w', IsRegexSpace), [""]);
      NonBlankBlankHead([]);
      assert [""] + [] == [""];
      TrailingSpacesIgnored(s, w');
    } else {
      assert s + w == s;
    }
  }

  /** Every whitespace character of the text is a `\s` character. */
  predicate SpacesAreRegexSpaces(s: string)
  {
    forall i :: 0 <= i < |s| && IsWhitespace(s[i]) ==> IsRegexSpace(s[i])
  }

  lemma TrimStartKeepsTokens(s: string)
    requires SpacesAreRegexSpaces(s)
    ensures Tokens(TrimStart(s)) == Tokens(s)
    ensures SpacesAreRegexSpaces(TrimStart(s))
  {
    var t := TrimStart(s);
    var k := |s| - |t|;
    var w1 := s[..k];
    assert s == w1 + t;
    forall i | 0 <= i < |w1| ensures IsRegexSpace(w1[i]) {
      assert w1[i] == s[i];
    }
    LeadingSpacesIgnored(w1, t);
    forall i | 0 <= i < |t| && IsWhitespace(t[i]) ensures IsRegexSpace(t[i]) {
      assert t[i] == s[k + i];
    }
  }

  lemma TrimEndKeepsTokens(t: string)
    requires SpacesAreRegexSpaces(t)
    ensures Tokens(TrimEnd(t)) == Tokens(t)
  {
    var m := TrimEnd(t);
    var w2 := t[|m|..];
    assert t == m + w2;
    forall i | 0 <= i < |w2| ensures IsRegexSpace(w2[i]) {
      assert w2[i] == t[|m| + i];
    }
    TrailingSpacesIgnored(m, w2);
  }

  /** When every whitespace character of the text is a `\s` character, trimming keeps the tokens. */
  lemma TrimKeepsTokens(s: string)
    requires SpacesAreRegexSpaces(s)
    ensures Tokens(Trim(s)) == Tokens(s)
  {
    TrimStartKeepsTokens(s);
    TrimEndKeepsTokens(TrimStart(s));
  }

  // ---------------------------------------------------------------------
  // escapeXml
  // ---------------------------------------------------------------------

  /** `replace(c, rep)` for a one-character pattern: every occurrence, left to right. */
  function ReplaceChar(s: string, c: char, rep: string): string
  {
    if s == [] then []
    else (if s[0] == c then rep else [s[0]]) + ReplaceChar(s[1..], c, rep)
  }

  /** `escapeXml`: the five replacements, `&` first. */
  function EscapeXml(s: string): string
  {
    ReplaceChar(ReplaceChar(ReplaceChar(ReplaceChar(ReplaceChar(
      s, '&', "&amp;"), '<', "&lt;"), '>', "&gt;"), '"', "&quot;"), '\'', "&apos;")
  }

  /** Reference definition: the entity of each character, one character at a time. */
  function EscapeCharRef(c: char): string
  {
    if c == '&' then "&amp;"
    else if c == '<' then "&lt;"
    else if c == '>' then "&gt;"
    else if c == '"' then "&quot;"
    else if c == '\'' then "&apos;"
    else [c]
  }

  function EscapeRef(s: string): string
  {
    if s == [] then [] else EscapeCharRef(s[0]) + EscapeRef(s[1..])
  }

  lemma {:induction false} ReplaceCharAppend(a: string, b: string, c: char, rep: string)
    ensures ReplaceChar(a + b, c, rep) == ReplaceChar(a, c, rep) + ReplaceChar(b, c, rep)
    decreases |a|
  {
    if a == [] {
      assert a + b == b;
    } else {
      assert (a + b)[1..] == a[1..] + b;
      ReplaceCharAppend(a[1..], b, c, rep);
    }
  }

  /** Because `&` is replaced first, the chain of replacements escapes each character once. */
  lemma {:induction false} EscapeXmlIsPerCharacter(s: string)
    ensures EscapeXml(s) == EscapeRef(s)
    decreases |s|
  {
    if s != [] {
      var head, tail := [s[0]], s[1..];
      assert s == head + tail;
      var s1 := ReplaceChar(head, '&', "&amp;");
      var s2 := ReplaceChar(s1, '<', "&lt;");
      var s3 := ReplaceChar(s2, '>', "&gt;");
      var s4 := ReplaceChar(s3, '"', "&quot;");
      var t1 := ReplaceChar(tail, '&', "&amp;");
      var t2 := ReplaceChar(t1, '<', "&lt;");
      var t3 := ReplaceChar(t2, '>', "&gt;");
      var t4 := ReplaceChar(t3, '"', "&quot;");
      ReplaceCharAppend(head, tail, '&', "&amp;");
      ReplaceCharAppend(s1, t1, '<', "&lt;");
      ReplaceCharAppend(s2, t2, '>', "&gt;");
      ReplaceCharAppend(s3, t3, '"', "&quot;");
      ReplaceCharAppend(s4, t4, '\'', "&apos;");
      assert EscapeXml(s) == EscapeXml(head) + EscapeXml(tail);
      EscapeXmlIsPerCharacter(tail);
      EscapeXmlOne(s[0]);
    }
  }

  lemma {:induction false} ReplaceCharAbsent(s: string, c: char, rep: string)
    requires forall i :: 0 <= i < |s| ==> s[i] != c
    ensures ReplaceChar(s, c, rep) == s
    decreases |s|
  {
    if s != [] {
      ReplaceCharAbsent(s[1..], c, rep);
      assert [s[0]] + s[1..] == s;
    }
  }

  lemma ReplaceCharOne(x: char, c: char, rep: string)
    ensures ReplaceChar([x], c, rep) == if x == c then rep else [x]
  {
    assert [x][1..] == [];
  }

  /** The replacement chain on a single character. */
  lemma EscapeXmlOne(c: char)
    ensures EscapeXml([c]) == EscapeCharRef(c)
  {
    if c == '&' {
      assert ReplaceChar([c], '&', "&amp;") == "&amp;" by { ReplaceCharOne(c, '&', "&amp;"); }
      EntityUnchanged("&amp;");
    } else if c == '<' {
      assert ReplaceChar([c], '&', "&amp;") == [c] by { ReplaceCharOne(c, '&', "&amp;"); }
      assert ReplaceChar([c], '<', "&lt;") == "&lt;" by { ReplaceCharOne(c, '<', "&lt;"); }
      EntityUnchanged("&lt;");
    } else if c == '>' {
      assert ReplaceChar([c], '&', "&amp;") == [c] by { ReplaceCharOne(c, '&', "&amp;"); }
      assert ReplaceChar([c], '<', "&lt;") == [c] by { ReplaceCharOne(c, '<', "&lt;"); }
      assert ReplaceChar([c], '>', "&gt;") == "&gt;" by { ReplaceCharOne(c, '>', "&gt;"); }
      EntityUnchanged("&gt;");
    } else if c == '"' {
      assert ReplaceChar([c], '&', "&amp;") == [c] by { ReplaceCharOne(c, '&', "&amp;"); }
      assert ReplaceChar([c], '<', "&lt;") == [c] by { ReplaceCharOne(c, '<', "&lt;"); }
      assert ReplaceChar([c], '>', "&gt;") == [c] by { ReplaceCharOne(c, '>', "&gt;"); }
      assert ReplaceChar([c], '"', "&quot;") == "&quot;" by { ReplaceCharOne(c, '"', "&quot;"); }
      EntityUnchanged("&quot;");
    } else {
      assert ReplaceChar([c], '&', "&amp;") == [c] by { ReplaceCharOne(c, '&', "&amp;"); }
      assert ReplaceChar([c], '<', "&lt;") == [c] by { ReplaceCharOne(c, '<', "&lt;"); }
      assert ReplaceChar([c], '>', "&gt;") == [c] by { ReplaceCharOne(c, '>', "&gt;"); }
      assert ReplaceChar([c], '"', "&quot;") == [c] by { ReplaceCharOne(c, '"', "&quot;"); }
      assert ReplaceChar([c], '\'', "&apos;") == EscapeCharRef(c) by { ReplaceCharOne(c, '\'', "&apos;"); }
    }
  }

  /** An entity contains none of the characters the later replacements look for. */
  lemma EntityUnchanged(e: string)
    requires forall i :: 0 <= i < |e| ==> !IsMarkupChar(e[i])
    ensures ReplaceChar(e, '<', "&lt;") == e
    ensures ReplaceChar(e, '>', "&gt;") == e
    ensures ReplaceChar(e, '"', "&quot;") == e
    ensures ReplaceChar(e, '\'', "&apos;") == e
  {
    ReplaceCharAbsent(e, '<', "&lt;");
    ReplaceCharAbsent(e, '>', "&gt;");
    ReplaceCharAbsent(e, '"', "&quot;");
    ReplaceCharAbsent(e, '\'', "&apos;");
  }

  predicate IsMarkupChar(c: char)
  {
    c == '<' || c == '>' || c == '"' || c == '\''
  }

  /** The escaped text holds none of the markup characters. */
  lemma {:induction false} EscapeXmlHasNoMarkup(s: string)
    ensures forall i :: 0 <= i < |EscapeXml(s)| ==> !IsMarkupChar(EscapeXml(s)[i])
  {
    EscapeXmlIsPerCharacter(s);
    EscapeRefHasNoMarkup(s);
  }

  lemma {:induction false} EscapeRefHasNoMarkup(s: string)
    ensures forall i :: 0 <= i < |EscapeRef(s)| ==> !IsMarkupChar(EscapeRef(s)[i])
    decreases |s|
  {
    if s != [] {
      EscapeRefHasNoMarkup(s[1..]);
      var h := EscapeCharRef(s[0]);
      assert forall i :: 0 <= i < |h| ==> !IsMarkupChar(h[i]);
      assert EscapeRef(s) == h + EscapeRef(s[1..]);
    }
  }

  /** Decoding of the five predefined entities; any other character stands for itself. */
  function UnescapeXml(s: string): string
    decreases |s|
  {
    if s == [] then []
    else if |s| >= 5 && s[..5] == "&amp;" then "&" + UnescapeXml(s[5..])
    else if |s| >= 4 && s[..4] == "&lt;" then "<" + UnescapeXml(s[4..])
    else if |s| >= 4 && s[..4] == "&gt;" then ">" + UnescapeXml(s[4..])
    else if |s| >= 6 && s[..6] == "&quot;" then "\"" + UnescapeXml(s[6..])
    else if |s| >= 6 && s[..6] == "&apos;" then "'" + UnescapeXml(s[6..])
    else [s[0]] + UnescapeXml(s[1..])
  }

  lemma UnescapeEntity(c: char, rest: string)
    ensures UnescapeXml(EscapeCharRef(c) + rest) == [c] + UnescapeXml(rest)
  {
    var e := EscapeCharRef(c);
    var s := e + rest;
    assert s[..|e|] == e && s[|e|..] == rest;
    assert s[0] == e[0];
    if |e| >= 2 { assert s[1] == e[1]; }
    if |e| >= 3 { assert s[2] == e[2]; }
    if |s| >= 4 { assert s[..4][0] == s[0] && s[..4][1] == s[1]; }
    if |s| >= 5 { assert s[..5][0] == s[0] && s[..5][1] == s[1] && s[..5][2] == s[2]; }
    if |s| >= 6 { assert s[..6][0] == s[0] && s[..6][1] == s[1]; }
  }

  /** Un-escaping the escaped text gives back the input. */
  lemma {:induction false} UnescapeEscapeXml(s: string)
    ensures UnescapeXml(EscapeXml(s)) == s
  {
    EscapeXmlIsPerCharacter(s);
    UnescapeEscapeRef(s);
  }

  lemma {:induction false} UnescapeEscapeRef(s: string)
    ensures UnescapeXml(EscapeRef(s)) == s
    decreases |s|
  {
    if s != [] {
      UnescapeEntity(s[0], EscapeRef(s[1..]));
      UnescapeEscapeRef(s[1..]);
      assert s == [s[0]] + s[1..];
    }
  }

  // ---------------------------------------------------------------------
  // buildMinimalPolygonKml
  // ---------------------------------------------------------------------

  /** The `lon,lat,0` token the builder prints for a vertex. */
  function CoordToken(c: Coordinate, show: real -> string): string
  {
    show(c.longitude) + "," + show(c.latitude) + ",0"
  }

  /** One vertex line of the builder. */
  function CoordinateLine(c: Coordinate, show: real -> string): string
  {
    "              " + CoordToken(c, show) + "\n"
  }

  function CoordinateLines(pts: seq<Coordinate>, show: real -> string): string
  {
    if pts == [] then "" else CoordinateLine(pts[0], show) + CoordinateLines(pts[1..], show)
  }

  lemma {:induction false} CoordinateLinesSnoc(pts: seq<Coordinate>, c: Coordinate, show: real -> string)
    ensures CoordinateLines(pts + [c], show) == CoordinateLines(pts, show) + CoordinateLine(c, show)
    decreases |pts|
  {
    if pts == [] {
      assert pts + [c] == [c];
    } else {
      assert (pts + [c])[1..] == pts[1..] + [c];
      CoordinateLinesSnoc(pts[1..], c, show);
    }
  }

  predicate HasDescription(description: Option<string>)
  {
    description.Some? && !IsBlank(description.value)
  }

  function KmlHeader(name: string, description: Option<string>): string
  {
    "<?xml version=\"1.0\" encoding=\"UTF-8\"?>\n"
    + "<kml xmlns=\"http://www.opengis.net/kml/2.2\">\n"
    + "  <Document>\n"
    + "    <name>" + EscapeXml(name) + "</name>\n"
    + (if HasDescription(description)
       then "    <description>" + EscapeXml(description.value) + "</description>\n" else "")
    + "    <Placemark>\n"
    + "      <name>" + EscapeXml(name) + "</name>\n"
    + "      <Polygon>\n"
    + "        <outerBoundaryIs>\n"
    + "          <LinearRing>\n"
    + "            <coordinates>"
  }

  const KmlFooter: string :=
    "</coordinates>\n"
    + "          </LinearRing>\n"
    + "        </outerBoundaryIs>\n"
    + "      </Polygon>\n"
    + "    </Placemark>\n"
    + "  </Document>\n"
    + "</kml>\n"

  /** The text between `<coordinates>` and `</coordinates>` in the built document. */
  function CoordinatesBlock(pts: seq<Coordinate>, show: real -> string): string
  {
    "\n" + CoordinateLines(pts, show) + "            "
  }

  /** The document the builder emits: its coordinates element holds the vertex block. */
  function MinimalPolygonKml(pts: seq<Coordinate>, name: string, description: Option<string>,
                             show: real -> string): string
  {
    KmlHeader(name, description) + CoordinatesBlock(pts, show) + KmlFooter
  }

  lemma Regroup(a: string, b: string, c: string, d: string, e: string)
    ensures a + b + c + d + e == a + (b + c + d) + e
  {
  }

  /** The vertex loop of `buildMinimalPolygonKml`: one line per vertex, in order. */
  method AppendCoordinateLines(sb: string, polygon: seq<Coordinate>, show: real -> string)
    returns (out: string)
    ensures out == sb + CoordinateLines(polygon, show)
  {
    out := sb;
    var i := 0;
    while i < |polygon|
      invariant 0 <= i <= |polygon|
      invariant out == sb + CoordinateLines(polygon[..i], show)
    {
      var p := polygon[i];
      var token := show(p.longitude) + "," + show(p.latitude) + ",0";
      CoordinateLinesSnoc(polygon[..i], p, show);
      assert polygon[..i + 1] == polygon[..i] + [p];
      out := out + ("              " + token + "\n");
      i := i + 1;
    }
    assert polygon[..i] == polygon;
  }

  /** `buildMinimalPolygonKml`: header, vertex lines, footer. */
  method BuildMinimalPolygonKml(polygon: seq<Coordinate>, name: string, description: Option<string>,
                                show: real -> string)
    returns (r: Result<string, KmlError>)
    ensures |polygon| < 3 <==> r == Err(TooFewPointsToBuild)
    ensures |polygon| >= 3 ==> r == Ok(MinimalPolygonKml(polygon, name, description, show))
  {
    if |polygon| < 3 {
      return Err(TooFewPointsToBuild);
    }
    var header := KmlHeader(name, description);
    var sb := AppendCoordinateLines(header + "\n", polygon, show);
    Regroup(header, "\n", CoordinateLines(polygon, show), "            ", KmlFooter);
    sb := sb + "            " + KmlFooter;
    r := Ok(sb);
  }

  // ---------------------------------------------------------------------
  // Round trip: build, then extract again
  // ---------------------------------------------------------------------

  /** `show` prints `x` as comma- and whitespace-free text that `parseNum` reads as `y`. */
  predicate ReadsBackAs(x: real, show: real -> string, parseNum: string -> Option<real>, y: real)
  {
    && parseNum(show(x)) == Some(y)
    && forall i :: 0 <= i < |show(x)| ==> !IsWhitespace(show(x)[i]) && show(x)[i] != ','
  }

  /** Every coordinate of `pts` prints as text the number parser reads back unchanged. */
  predicate PrintsParsably(pts: seq<Coordinate>, show: real -> string, parseNum: string -> Option<real>)
  {
    forall i :: 0 <= i < |pts| ==>
      && ReadsBackAs(pts[i].longitude, show, parseNum, pts[i].longitude)
      && ReadsBackAs(pts[i].latitude, show, parseNum, pts[i].latitude)
  }

  /** The events a pull parser reports for the built document. */
  function BuiltDocumentEvents(pts: seq<Coordinate>, name: string, description: Option<string>,
                               show: real -> string): seq<Event>
  {
    BuiltHead(name, description) + PolygonEvents(CoordinatesBlock(pts, show)) + BuiltTail
  }

  function BuiltHead(name: string, description: Option<string>): seq<Event>
  {
    [Start("kml"), Start("Document"), Start("name"), Chars(name), End("name")]
    + (if HasDescription(description)
       then [Start("description"), Chars(description.value), End("description")] else [])
    + [Start("Placemark"), Start("name"), Chars(name), End("name")]
  }

  const BuiltTail: seq<Event> := [End("Placemark"), End("Document"), End("kml")]

  /** `Polygon > outerBoundaryIs > LinearRing > coordinates`. */
  function PolygonEvents(raw: string): seq<Event>
  {
    OpenPolygon + [Coords(raw)] + ClosePolygon
  }

  const OpenPolygon: seq<Event> := [Start("Polygon"), Start("outerBoundaryIs"), Start("LinearRing")]
  const ClosePolygon: seq<Event> := [End("LinearRing"), End("outerBoundaryIs"), End("Polygon")]

  /** Events outside every scope that are not coordinates leave an idle state as it is. */
  lemma {:induction false} IdleEvents(s: ScanState, events: seq<Event>)
    requires !InScope(s)
    requires forall i :: 0 <= i < |events| ==>
      && !events[i].Coords?
      && (events[i].Start? ==> KindOf(events[i].localName) !in {PolygonElement, LinearRingElement, LineStringElement})
    ensures ScanFrom(s, events) == s
    decreases |events|
  {
    if events != [] {
      assert Step(s, events[0]) == s;
      IdleEvents(s, events[1..]);
    }
  }

  lemma ScanFromThree(s: ScanState, a: Event, b: Event, c: Event)
    ensures ScanFrom(s, [a, b, c]) == Step(Step(Step(s, a), b), c)
  {
    var s1 := Step(s, a);
    var s2 := Step(s1, b);
    assert [a, b, c][1..] == [b, c];
    assert [b, c][1..] == [c];
    assert [c][1..] == [];
    assert ScanFrom(s, [a, b, c]) == ScanFrom(s1, [b, c]);
    assert ScanFrom(s1, [b, c]) == ScanFrom(s2, [c]);
    assert ScanFrom(s2, [c]) == ScanFrom(Step(s2, c), []);
  }

  /** Opening Polygon, outerBoundaryIs and LinearRing from an idle state. */
  lemma OpenFromIdle(s: ScanState)
    requires !InScope(s)
    ensures ScanFrom(s, OpenPolygon) == s.(inPolygon := true, inLinearRing := true, scopeDepth := 1)
  {
    assert KindOf("Polygon") == PolygonElement;
    assert KindOf("outerBoundaryIs") == OtherElement;
    assert KindOf("LinearRing") == LinearRingElement;
    ScanFromThree(s, Start("Polygon"), Start("outerBoundaryIs"), Start("LinearRing"));
  }

  /** Closing LinearRing, outerBoundaryIs and Polygon after the coordinates. */
  lemma CloseAfterCoordinates(t: ScanState)
    requires t.inPolygon && t.inLinearRing && !t.inLineString && t.scopeDepth == 0
    ensures ScanFrom(t, ClosePolygon) == t.(inPolygon := false, inLinearRing := false, scopeDepth := -3)
  {
    assert KindOf("Polygon") == PolygonElement;
    assert KindOf("outerBoundaryIs") == OtherElement;
    assert KindOf("LinearRing") == LinearRingElement;
    ScanFromThree(t, End("LinearRing"), End("outerBoundaryIs"), End("Polygon"));
  }

  /**
   * A well-nested Polygon from an idle state fills the Polygon slot, not the
   * LinearRing slot, and closes every scope (the depth counter ends at -3,
   * since the coordinates element decrements it without having incremented it).
   */
  lemma PolygonFromIdle(s: ScanState, raw: string)
    requires !InScope(s) && s.polygonCoords.None? && Trim(raw) != []
    ensures var t := ScanFrom(s, PolygonEvents(raw));
      !InScope(t) && t.polygonCoords == Some(Trim(raw)) && t.scopeDepth == -3
      && t.linearRingCoords == s.linearRingCoords && t.lineStringCoords == s.lineStringCoords
  {
    var s1 := s.(inPolygon := true, inLinearRing := true, scopeDepth := 1);
    OpenFromIdle(s);
    var s2 := s1.(polygonCoords := Some(Trim(raw)), scopeDepth := 0);
    assert ScanFrom(s1, [Coords(raw)]) == s2 by {
      assert [Coords(raw)][1..] == [];
    }
    CloseAfterCoordinates(s2);
    ScanFromAppend(s, OpenPolygon, [Coords(raw)]);
    ScanFromAppend(s, OpenPolygon + [Coords(raw)], ClosePolygon);
  }

  predicate NoWhitespace(s: string)
  {
    forall i :: 0 <= i < |s| ==> !IsWhitespace(s[i])
  }

  lemma SpacesConcat(a: string, b: string)
    requires SpacesAreRegexSpaces(a) && SpacesAreRegexSpaces(b)
    ensures SpacesAreRegexSpaces(a + b)
  {
    forall i | 0 <= i < |a + b| && IsWhitespace((a + b)[i]) ensures IsRegexSpace((a + b)[i]) {
      if i < |a| { assert (a + b)[i] == a[i]; } else { assert (a + b)[i] == b[i - |a|]; }
    }
  }

  lemma NoWhitespaceConcat(a: string, b: string)
    requires NoWhitespace(a) && NoWhitespace(b)
    ensures NoWhitespace(a + b)
  {
    forall i | 0 <= i < |a + b| ensures !IsWhitespace((a + b)[i]) {
      if i < |a| { assert (a + b)[i] == a[i]; } else { assert (a + b)[i] == b[i - |a|]; }
    }
  }

  /** The printed token of a vertex is one whitespace-free token that parses to the coordinates read back. */
  lemma TokenFacts(c: Coordinate, read: Coordinate, show: real -> string, parseNum: string -> Option<real>)
    requires ReadsBackAs(c.longitude, show, parseNum, read.longitude)
    requires ReadsBackAs(c.latitude, show, parseNum, read.latitude)
    ensures NoWhitespace(CoordToken(c, show))
    ensures !IsBlank(CoordToken(c, show))
    ensures ParseToken(CoordToken(c, show), parseNum) == Some(read)
  {
    var lon, lat := show(c.longitude), show(c.latitude);
    assert NoWhitespace(lon) && NoWhitespace(lat);
    assert NoWhitespace(",") && NoWhitespace(",0");
    NoWhitespaceConcat(lon, ",");
    NoWhitespaceConcat(lon + ",", lat);
    NoWhitespaceConcat(lon + "," + lat, ",0");
    var tok := CoordToken(c, show);
    assert tok[|lon|] == ',';
    assert NoSep(lon, IsComma) && NoSep(lat, IsComma);
    ExtraFieldsIgnored(lon, lat, "0", parseNum);
    assert tok == lon + "," + lat + "," + "0";
  }

  /** A vertex line contributes exactly its token. */
  lemma LineTokens(c: Coordinate, rest: string, show: real -> string, parseNum: string -> Option<real>)
    requires ReadsBackAs(c.longitude, show, parseNum, c.longitude)
    requires ReadsBackAs(c.latitude, show, parseNum, c.latitude)
    ensures Tokens(CoordinateLine(c, show) + rest) == [CoordToken(c, show)] + Tokens(rest)
  {
    var tok := CoordToken(c, show);
    var indent := "              ";
    TokenFacts(c, c, show, parseNum);
    assert CoordinateLine(c, show) + rest == indent + (tok + ['\n'] + rest);
    LeadingSpacesIgnored(indent, tok + ['\n'] + rest);
    assert NoSep(tok, IsRegexSpace);
    SplitAtSep(tok, '\n', rest, IsRegexSpace);
    var x := Split(rest, IsRegexSpace);
    assert ([tok] + x)[0] == tok && ([tok] + x)[1..] == x;
  }

  lemma PrintsParsablyTail(pts: seq<Coordinate>, show: real -> string, parseNum: string -> Option<real>)
    requires pts != [] && PrintsParsably(pts, show, parseNum)
    ensures PrintsParsably(pts[1..], show, parseNum)
    ensures ReadsBackAs(pts[0].longitude, show, parseNum, pts[0].longitude)
    ensures ReadsBackAs(pts[0].latitude, show, parseNum, pts[0].latitude)
  {
    forall i | 0 <= i < |pts| - 1
      ensures ReadsBackAs(pts[1..][i].longitude, show, parseNum, pts[1..][i].longitude)
      ensures ReadsBackAs(pts[1..][i].latitude, show, parseNum, pts[1..][i].latitude)
    {
      assert pts[1..][i] == pts[i + 1];
    }
  }

  /** The vertex lines parse back to the vertices, in order. */
  lemma {:induction false} LinesParseBack(pts: seq<Coordinate>, show: real -> string, parseNum: string -> Option<real>)
    requires PrintsParsably(pts, show, parseNum)
    ensures ParseTokens(Tokens(CoordinateLines(pts, show)), parseNum) == pts
    decreases |pts|
  {
    if pts != [] {
      var c := pts[0];
      var tok := CoordToken(c, show);
      var rest := CoordinateLines(pts[1..], show);
      PrintsParsablyTail(pts, show, parseNum);
      LinesParseBack(pts[1..], show, parseNum);
      LineTokens(c, rest, show, parseNum);
      TokenFacts(c, c, show, parseNum);
      var ts := Tokens(rest);
      assert ([tok] + ts)[0] == tok && ([tok] + ts)[1..] == ts;
      assert ParseTokens([tok] + ts, parseNum) == [c] + ParseTokens(ts, parseNum);
      assert [c] + pts[1..] == pts;
    }
  }

  /** The only whitespace in the vertex lines is `\s` whitespace. */
  lemma {:induction false} LinesSpaces(pts: seq<Coordinate>, show: real -> string, parseNum: string -> Option<real>)
    requires PrintsParsably(pts, show, parseNum)
    ensures SpacesAreRegexSpaces(CoordinateLines(pts, show))
    decreases |pts|
  {
    if pts != [] {
      var c := pts[0];
      var tok := CoordToken(c, show);
      PrintsParsablyTail(pts, show, parseNum);
      LinesSpaces(pts[1..], show, parseNum);
      TokenFacts(c, c, show, parseNum);
      assert SpacesAreRegexSpaces("              ") && SpacesAreRegexSpaces("\n");
      SpacesConcat("              ", tok);
      SpacesConcat("              " + tok, "\n");
      SpacesConcat(CoordinateLine(c, show), CoordinateLines(pts[1..], show));
    }
  }

  /** The coordinates text of the built document is not blank and parses back to the vertices. */
  lemma BlockParsesBack(pts: seq<Coordinate>, show: real -> string, parseNum: string -> Option<real>)
    requires PrintsParsably(pts, show, parseNum)
    requires pts != []
    ensures Trim(CoordinatesBlock(pts, show)) != []
    ensures ParseCoordinateText(Trim(CoordinatesBlock(pts, show)), parseNum) == StripClosure(pts)
  {
    var raw := CoordinatesBlock(pts, show);
    var lines := CoordinateLines(pts, show);
    var pad := "            ";
    LinesParseBack(pts, show, parseNum);
    LinesSpaces(pts, show, parseNum);
    assert raw == "\n" + (lines + pad);
    LeadingSpacesIgnored("\n", lines + pad);
    TrailingSpacesIgnored(lines, pad);
    assert SpacesAreRegexSpaces("\n") && SpacesAreRegexSpaces(pad);
    SpacesConcat(lines, pad);
    SpacesConcat("\n", lines + pad);
    TrimKeepsTokens(raw);
    assert Tokens([]) == [] by { assert IsBlank(""); }
  }

  lemma HeadIsIdle(name: string, description: Option<string>)
    ensures ScanFrom(Initial, BuiltHead(name, description)) == Initial
  {
    var head := BuiltHead(name, description);
    forall i | 0 <= i < |head|
      ensures !head[i].Coords? && (head[i].Start? ==> KindOf(head[i].localName) !in {PolygonElement, LinearRingElement, LineStringElement})
    {
    }
    IdleEvents(Initial, head);
  }

  lemma TailIsIdle(s: ScanState)
    requires !InScope(s)
    ensures ScanFrom(s, BuiltTail) == s
  {
    assert KindOf("Placemark") == OtherElement;
    assert KindOf("Document") == OtherElement;
    assert KindOf("kml") == OtherElement;
    assert ScanFrom(s, BuiltTail) == ScanFrom(s, BuiltTail[1..]);
    assert BuiltTail[1..][1..] == [End("kml")];
    assert ScanFrom(s, [End("kml")]) == ScanFrom(s, []);
  }

  /** The scan of the built document captures the coordinates text in the Polygon slot. */
  lemma ScanBuiltDocument(pts: seq<Coordinate>, name: string, description: Option<string>, show: real -> string)
    requires Trim(CoordinatesBlock(pts, show)) != []
    ensures Scan(BuiltDocumentEvents(pts, name, description, show)).polygonCoords
         == Some(Trim(CoordinatesBlock(pts, show)))
  {
    var raw := CoordinatesBlock(pts, show);
    var head := BuiltHead(name, description);
    var poly := PolygonEvents(raw);
    var s1 := ScanFrom(Initial, poly);
    assert s1.polygonCoords == Some(Trim(raw)) && !InScope(s1) by {
      PolygonFromIdle(Initial, raw);
    }
    assert ScanFrom(Initial, head + poly) == s1 by {
      HeadIsIdle(name, description);
      ScanFromAppend(Initial, head, poly);
    }
    assert ScanFrom(s1, BuiltTail) == s1 by {
      TailIsIdle(s1);
    }
    assert Scan(BuiltDocumentEvents(pts, name, description, show)) == ScanFrom(s1, BuiltTail) by {
      ScanFromAppend(Initial, head + poly, BuiltTail);
    }
  }

  /**
   * Round trip: extracting from the document the builder emits gives back the
   * input ring, provided it is not itself explicitly closed and the number
   * printer prints parsable, space- and comma-free text.
   */
  lemma BuildThenExtract(pts: seq<Coordinate>, name: string, description: Option<string>,
                         show: real -> string, parseNum: string -> Option<real>)
    requires PrintsParsably(pts, show, parseNum)
    requires |pts| >= 3 && !IsClosed(pts)
    ensures ExtractPolygon(BuiltDocumentEvents(pts, name, description, show), parseNum) == Ok(pts)
  {
    BlockParsesBack(pts, show, parseNum);
    ScanBuiltDocument(pts, name, description, show);
  }

  /** The round trip applies: a unit triangle printed with a matching parser comes back unchanged. */
  lemma BuildThenExtractTriangle(name: string)
    ensures var pts := [Coordinate(0.0, 0.0), Coordinate(0.0, 1.0), Coordinate(1.0, 0.0)];
      var show := (x: real) => if x == 0.0 then "0" else "1";
      var parseNum := (t: string) => if t == "0" then Some(0.0) else if t == "1" then Some(1.0) else None;
      ExtractPolygon(BuiltDocumentEvents(pts, name, None, show), parseNum) == Ok(pts)
  {
    var pts := [Coordinate(0.0, 0.0), Coordinate(0.0, 1.0), Coordinate(1.0, 0.0)];
    var show := (x: real) => if x == 0.0 then "0" else "1";
    var parseNum := (t: string) => if t == "0" then Some(0.0) else if t == "1" then Some(1.0) else None;
    assert PrintsParsably(pts, show, parseNum);
    assert !IsClosed(pts);
    BuildThenExtract(pts, name, None, show, parseNum);
  }
}
