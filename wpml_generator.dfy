/**
 * `WpmlGenerator.generateFromTemplateKmz` and its helpers
 * (app/src/main/java/com/example/atak2drone/utils/WpmlGenerator.kt): choosing
 * the template, setting the identifier and height fields of `waylines.wpml`,
 * locating that file, rewriting the polygon in auxiliary KML and KMZ files,
 * and the whole pipeline.
 *
 * The template package is the list of regular files it unzips to; a nested
 * KMZ is the list of its ZIP entries.  Unzipping, zipping, XML parsing and
 * serialising, and number formatting are parameters.
 */
module WpmlGenerator {
  import opened Text
  import opened XmlTree
  import opened WpmlDocument
  import KmlUtils

  type Bytes = seq<bv8>

  /** The camera the mission is planned for (`com.example.atak2drone.model.CameraType`). */
  datatype CameraType = EO | IR | BOTH

  datatype AltBucket = FT200 | FT400

  function Feet(b: AltBucket): nat
  {
    match b
    case FT200 => 200
    case FT400 => 400
  }

  // ---------------------------------------------------------------------
  // Template choice
  // ---------------------------------------------------------------------

  /** `pickAltitudeBucket`: under 300 ft is the 200 ft template. */
  function PickAltitudeBucket(altitudeMeters: real): AltBucket
  {
    if altitudeMeters / 0.3048 < 300.0 then FT200 else FT400
  }

  /** The threshold in metres is 300 ft = 91.44 m. */
  lemma BucketThreshold(altitudeMeters: real)
    ensures PickAltitudeBucket(altitudeMeters) == FT200 <==> altitudeMeters < 91.44
  {
  }

  /** An altitude given in feet lands in the 200 ft bucket exactly when it is under 300 ft. */
  lemma BucketOfFeet(feet: real)
    ensures PickAltitudeBucket(feet * 0.3048) == FT200 <==> feet < 300.0
    ensures PickAltitudeBucket(200.0 * 0.3048) == FT200 && PickAltitudeBucket(400.0 * 0.3048) == FT400
  {
  }

  function BucketDir(b: AltBucket): string
  {
    match b
    case FT200 => "templates/200ft"
    case FT400 => "templates/400ft"
  }

  function TemplateFile(camera: CameraType): string
  {
    match camera
    case EO => "Test3correct.kmz"
    case IR => "Test3correctIR.kmz"
    case BOTH => "Test3correctBoth.kmz"
  }

  /** `pickTemplateAsset`: the bucket's directory, then the camera's package. */
  function PickTemplateAsset(camera: CameraType, bucket: AltBucket): string
  {
    BucketDir(bucket) + "/" + TemplateFile(camera)
  }

  /** The six (bucket, camera) pairs name six different packages. */
  lemma TemplateAssetsDistinct(c1: CameraType, b1: AltBucket, c2: CameraType, b2: AltBucket)
    ensures PickTemplateAsset(c1, b1) == PickTemplateAsset(c2, b2) ==> c1 == c2 && b1 == b2
  {
    var a1, a2 := PickTemplateAsset(c1, b1), PickTemplateAsset(c2, b2);
    assert |a1| == 16 + |TemplateFile(c1)| && |a2| == 16 + |TemplateFile(c2)|;
    assert a1[10] == if b1 == FT200 then '2' else '4';
    assert a2[10] == if b2 == FT200 then '2' else '4';
  }

  /** Every package is a `.kmz` file in the bucket's directory under `templates/`. */
  lemma TemplateAssetShape(camera: CameraType, bucket: AltBucket)
    ensures var a := PickTemplateAsset(camera, bucket);
      a[..16] == BucketDir(bucket) + "/" && a[..10] == "templates/" && EndsWith(a, ".kmz")
  {
    var a := PickTemplateAsset(camera, bucket);
    var file := TemplateFile(camera);
    assert a[..16] == BucketDir(bucket) + "/";
    assert a[..10] == (BucketDir(bucket) + "/")[..10];
    assert a[|a| - 4..] == file[|file| - 4..];
  }

  // ---------------------------------------------------------------------
  // The waylines descriptor
  // ---------------------------------------------------------------------

  const DroneEnumValue: string := "77"
  const PayloadEnumValue: string := "67"

  /** The payload sub-type: "0" for the EO camera, "2" for IR and for both. */
  function PayloadSubEnumValue(camera: CameraType): string
  {
    match camera
    case EO => "0"
    case IR => "2"
    case BOTH => "2"
  }

  datatype Field = Field(name: string, value: string)

  /** The `setAllTexts` calls, in the order they are made; `h` is the formatted altitude. */
  function WaylinesFields(camera: CameraType, h: string): seq<Field>
  {
    [ Field("droneEnumValue", DroneEnumValue),
      Field("payloadEnumValue", PayloadEnumValue),
      Field("payloadSubEnumValue", PayloadSubEnumValue(camera)),
      Field("executeHeight", h),
      Field("executeHeightMode", "relativeToStartPoint"),
      Field("isUseAbsoluteAltitude", "false"),
      Field("takeOffAlt", h),
      Field("takeOffSecurityHeight", h),
      Field("globalHeight", h),
      Field("height", h),
      Field("uavHeight", h),
      Field("goHomeHeight", h) ]
  }

  /** The calls applied one after the other. */
  function WithFields(n: Node, fields: seq<Field>): Node
  {
    if fields == [] then n
    else
      var last := fields[|fields| - 1];
      WithTexts(WithFields(n, fields[..|fields| - 1]), last.name, last.value)
  }

  predicate DistinctNames(fields: seq<Field>)
  {
    forall i, j :: 0 <= i < j < |fields| ==> fields[i].name != fields[j].name
  }

  /** After the calls, each field holds the value it was given. */
  lemma {:induction false} FieldsSet(n: Node, fields: seq<Field>, k: nat)
    requires DistinctNames(fields) && k < |fields|
    ensures Everywhere(WithFields(n, fields), FieldIs(fields[k].name, fields[k].value))
    decreases |fields|
  {
    var init := fields[..|fields| - 1];
    var last := fields[|fields| - 1];
    if k == |fields| - 1 {
      WithTextsSets(WithFields(n, init), last.name, last.value);
    } else {
      assert init[k] == fields[k];
      FieldsSet(n, init, k);
      WithTextsKeeps(WithFields(n, init), last.name, last.value, fields[k].name, fields[k].value);
    }
  }

  lemma WaylinesFieldNamesDistinct(camera: CameraType, h: string)
    ensures DistinctNames(WaylinesFields(camera, h))
  {
    var fs := WaylinesFields(camera, h);
    forall i, j | 0 <= i < j < |fs|
      ensures fs[i].name != fs[j].name
    {
      if |fs[i].name| == |fs[j].name| {
        assert fs[i].name[1] != fs[j].name[1];
      }
    }
  }

  /** A name whose `j`-th character from the end does not match "height" is not a height name. */
  lemma NotHeightName(s: string, j: nat)
    requires 1 <= j <= 6 && j <= |s|
    requires LowerChar(s[|s| - j]) != "height"[6 - j]
    ensures !IsHeightName(s)
  {
    HeightNameIsSuffix(s);
    if |s| >= 6 {
      assert Lower(s)[|s| - 6..][6 - j] == Lower(s)[|s| - j] != "height"[6 - j];
    }
  }

  /** The waylines document after its fields, heights and Placemarks are rewritten. */
  function MutatedWaylines(root: Node, camera: CameraType, h: string,
                           polygon: seq<Coordinate>, fmt: real -> string): Node
  {
    WithWaypointPlacemarks(WithHeights(WithFields(root, WaylinesFields(camera, h)), h), polygon, fmt)
  }

  /** `FieldIs` only judges WP elements, and only by their children when they have text children. */
  lemma FieldIsLocal(name: string, v: string)
    ensures forall m: Node :: !IsWpElement(m) ==> FieldIs(name, v)(m)
    ensures ChildInsensitive(FieldIs(name, v))
  {
    forall m: Node, cs: seq<Node> | m.Element? && FieldIs(name, v)(m) && HasElementChild(m.children) && HasElementChild(cs)
      ensures FieldIs(name, v)(m.(children := cs))
    {
      if IsNamed(m, WpNs, name) {
        assert false;
      }
    }
  }

  lemma HeightsAreLocal(h: string)
    ensures forall m: Node :: !IsWpElement(m) ==> HeightsAre(h)(m)
    ensures ChildInsensitive(HeightsAre(h))
  {
    forall m: Node, cs: seq<Node> | m.Element? && HeightsAre(h)(m) && HasElementChild(m.children) && HasElementChild(cs)
      ensures HeightsAre(h)(m.(children := cs))
    {
      if IsWpElement(m) && IsHeightName(m.name) {
        assert false;
      }
    }
  }

  /**
   * A field whose name is not a height name (its `j`-th character from the
   * end rules that out) keeps its value through the height sweep and the
   * Placemark rebuild.
   */
  lemma FieldSurvives(root: Node, camera: CameraType, h: string, polygon: seq<Coordinate>,
                      fmt: real -> string, k: nat, name: string, value: string, j: nat)
    requires k < 12 && WaylinesFields(camera, h)[k] == Field(name, value)
    requires 1 <= j <= 6 && j <= |name| && LowerChar(name[|name| - j]) != "height"[6 - j]
    ensures Everywhere(MutatedWaylines(root, camera, h, polygon, fmt), FieldIs(name, value))
  {
    NotHeightName(name, j);
    var fs := WaylinesFields(camera, h);
    WaylinesFieldNamesDistinct(camera, h);
    FieldsSet(root, fs, k);
    WithHeightsKeeps(WithFields(root, fs), h, name, value);
    FieldIsLocal(name, value);
    PlacemarkRebuildKeeps(WithHeights(WithFields(root, fs), h), polygon, fmt, FieldIs(name, value));
  }

  /** The aircraft and payload identifiers hold the values set. */
  lemma IdentifiersSettled(root: Node, camera: CameraType, h: string, polygon: seq<Coordinate>, fmt: real -> string)
    ensures var r := MutatedWaylines(root, camera, h, polygon, fmt);
      && Everywhere(r, FieldIs("droneEnumValue", "77"))
      && Everywhere(r, FieldIs("payloadEnumValue", "67"))
      && Everywhere(r, FieldIs("payloadSubEnumValue", PayloadSubEnumValue(camera)))
  {
    FieldSurvives(root, camera, h, polygon, fmt, 0, "droneEnumValue", "77", 1);
    FieldSurvives(root, camera, h, polygon, fmt, 1, "payloadEnumValue", "67", 1);
    FieldSurvives(root, camera, h, polygon, fmt, 2, "payloadSubEnumValue", PayloadSubEnumValue(camera), 1);
  }

  /** The height mode, the absolute-altitude flag and the take-off altitude hold the values set. */
  lemma ModesSettled(root: Node, camera: CameraType, h: string, polygon: seq<Coordinate>, fmt: real -> string)
    ensures var r := MutatedWaylines(root, camera, h, polygon, fmt);
      && Everywhere(r, FieldIs("executeHeightMode", "relativeToStartPoint"))
      && Everywhere(r, FieldIs("isUseAbsoluteAltitude", "false"))
      && Everywhere(r, FieldIs("takeOffAlt", h))
  {
    FieldSurvives(root, camera, h, polygon, fmt, 4, "executeHeightMode", "relativeToStartPoint", 1);
    FieldSurvives(root, camera, h, polygon, fmt, 5, "isUseAbsoluteAltitude", "false", 1);
    FieldSurvives(root, camera, h, polygon, fmt, 6, "takeOffAlt", h, 2);
  }

  /** Every height field and height attribute of a WP element holds the formatted altitude. */
  lemma HeightsSettled(root: Node, camera: CameraType, h: string, polygon: seq<Coordinate>, fmt: real -> string)
    ensures Everywhere(MutatedWaylines(root, camera, h, polygon, fmt), HeightsAre(h))
  {
    var settled := WithHeights(WithFields(root, WaylinesFields(camera, h)), h);
    WithHeightsSets(WithFields(root, WaylinesFields(camera, h)), h);
    HeightsAreLocal(h);
    PlacemarkRebuildKeeps(settled, polygon, fmt, HeightsAre(h));
  }

  /** Step 1 of `generateFromTemplateKmz`: the descriptor's fields, heights and Placemarks. */
  method MutateWaylines(doc: Document, camera: CameraType, h: string,
                        polygon: seq<Coordinate>, fmt: real -> string)
    modifies doc
    ensures doc.root == MutatedWaylines(old(doc.root), camera, h, polygon, fmt)
  {
    var fields := WaylinesFields(camera, h);
    var i := 0;
    while i < |fields|
      invariant 0 <= i <= |fields|
      invariant doc.root == WithFields(old(doc.root), fields[..i])
    {
      assert fields[..i + 1][..i] == fields[..i];
      doc.SetAllTexts(fields[i].name, Some(fields[i].value));
      i := i + 1;
    }
    assert fields[..i] == fields;
    doc.NormalizeAllHeights(h);
    doc.ReplaceFolderPlacemarks(polygon, fmt);
  }

  // ---------------------------------------------------------------------
  // Locating the descriptor
  // ---------------------------------------------------------------------

  /** Where `waylines.wpml` may sit in an unpacked package, in the order they are tried. */
  const WaylinesCandidates: seq<string> := ["wpmz/waylines.wpml", "wpmz/mission/waylines.wpml", "waylines.wpml"]

  /** `firstOrNull { it.exists() && it.isFile }` over candidate paths. */
  function FirstExisting(candidates: seq<string>, isFile: string -> bool): (r: Option<nat>)
    ensures r.Some? ==> r.value < |candidates| && isFile(candidates[r.value])
    ensures r.Some? ==> forall j :: 0 <= j < r.value ==> !isFile(candidates[j])
    ensures r.None? <==> forall j :: 0 <= j < |candidates| ==> !isFile(candidates[j])
  {
    if candidates == [] then None
    else if isFile(candidates[0]) then Some(0)
    else match FirstExisting(candidates[1..], isFile)
      case None => None
      case Some(k) => Some(k + 1)
  }

  /**
   * `locateWaylines`: the first candidate that is a regular file of the
   * unpacked package, or the error naming the directory searched.
   * `isFile` answers for a path relative to `tmpDir`.
   */
  function LocateWaylines(tmpDir: string, isFile: string -> bool): (r: Result<string, string>)
    ensures r.Ok? ==> r.value in WaylinesCandidates && isFile(r.value)
    ensures r.Err? <==> forall j :: 0 <= j < |WaylinesCandidates| ==> !isFile(WaylinesCandidates[j])
  {
    match FirstExisting(WaylinesCandidates, isFile)
    case Some(k) => Ok(WaylinesCandidates[k])
    case None => Err("waylines.wpml not found under " + tmpDir)
  }

  lemma LocateWaylinesOrder(tmpDir: string, isFile: string -> bool)
    ensures isFile("wpmz/waylines.wpml") ==> LocateWaylines(tmpDir, isFile) == Ok("wpmz/waylines.wpml")
    ensures !isFile("wpmz/waylines.wpml") && isFile("wpmz/mission/waylines.wpml")
      ==> LocateWaylines(tmpDir, isFile) == Ok("wpmz/mission/waylines.wpml")
    ensures !isFile("wpmz/waylines.wpml") && !isFile("wpmz/mission/waylines.wpml") && isFile("waylines.wpml")
      ==> LocateWaylines(tmpDir, isFile) == Ok("waylines.wpml")
    ensures !isFile("wpmz/waylines.wpml") && !isFile("wpmz/mission/waylines.wpml") && !isFile("waylines.wpml")
      ==> LocateWaylines(tmpDir, isFile) == Err("waylines.wpml not found under " + tmpDir)
  {
    var cs := WaylinesCandidates;
    var r := FirstExisting(cs, isFile);
    if r.Some? {
      assert r.value == 0 || !isFile(cs[0]);
      assert r.value <= 1 || !isFile(cs[1]);
    }
  }

  // ---------------------------------------------------------------------
  // Nested KMZ packages
  // ---------------------------------------------------------------------

  /** An entry as the ZIP reader yields it. */
  datatype ZipEntry = ZipEntry(name: string, isDirectory: bool, bytes: Bytes)

  /** An entry kept in memory while the package is rewritten. */
  datatype EntryData = EntryData(name: string, bytes: Bytes)

  /** The external codecs: XML parsing and serialising, ZIP reading and writing, coordinate formatting. */
  datatype Codec = Codec(
    parse: Bytes -> Option<Node>,
    serialize: Node -> Bytes,
    unzip: Bytes -> Option<seq<ZipEntry>>,
    zip: seq<EntryData> -> Bytes,
    formatCoord: real -> string)

  /** The non-directory entries, in the order they were read. */
  function FileEntries(zs: seq<ZipEntry>): (r: seq<EntryData>)
    ensures |r| <= |zs|
    ensures forall e :: e in r <==> exists z :: z in zs && !z.isDirectory && e == EntryData(z.name, z.bytes)
  {
    if zs == [] then []
    else
      var z := zs[|zs| - 1];
      FileEntries(zs[..|zs| - 1]) + (if z.isDirectory then [] else [EntryData(z.name, z.bytes)])
  }

  /** Reading keeps the order: the entries of a split listing are those of its parts, one after the other. */
  lemma {:induction false} FileEntriesAppend(a: seq<ZipEntry>, b: seq<ZipEntry>)
    ensures FileEntries(a + b) == FileEntries(a) + FileEntries(b)
    decreases |b|
  {
    if b != [] {
      var init := b[..|b| - 1];
      assert (a + b)[..|a + b| - 1] == a + init;
      FileEntriesAppend(a, init);
    } else {
      assert a + b == a;
    }
  }

  /** `name.equals("doc.kml", ignoreCase = true)`; the literal is already lower case. */
  predicate IsDocKml(e: EntryData)
  {
    Lower(e.name) == "doc.kml"
  }

  lemma IsDocKmlIgnoresCase(e: EntryData)
    ensures IsDocKml(e) <==> EqualsIgnoreCase(e.name, "doc.kml")
  {
    assert Lower("doc.kml") == "doc.kml";
  }

  predicate IsKmlEntry(e: EntryData)
  {
    EndsWith(Lower(e.name), ".kml")
  }

  /** `preferredIndex`: the last entry called `doc.kml`, in any case, or -1. */
  function LastDocKml(entries: seq<EntryData>): (r: int)
    ensures -1 <= r < |entries|
    ensures r >= 0 ==> IsDocKml(entries[r])
    ensures forall j :: r < j < |entries| ==> !IsDocKml(entries[j])
  {
    if entries == [] then -1
    else if IsDocKml(entries[|entries| - 1]) then |entries| - 1
    else LastDocKml(entries[..|entries| - 1])
  }

  /** `indexOfFirst { it.name.lowercase().endsWith(".kml") }`. */
  function FirstKml(entries: seq<EntryData>): (r: int)
    ensures -1 <= r < |entries|
    ensures r >= 0 ==> IsKmlEntry(entries[r])
    ensures forall j :: 0 <= j < |entries| && (r < 0 || j < r) ==> !IsKmlEntry(entries[j])
  {
    if entries == [] then -1
    else if IsKmlEntry(entries[0]) then 0
    else
      var k := FirstKml(entries[1..]);
      if k < 0 then -1 else k + 1
  }

  /** `kmlIndex`: the preferred `doc.kml`, else the first `.kml` entry, else -1. */
  function TargetIndex(entries: seq<EntryData>): int
  {
    var preferred := LastDocKml(entries);
    if preferred >= 0 then preferred else FirstKml(entries)
  }

  /** A `doc.kml` is also a `.kml` entry. */
  lemma DocKmlIsKml(e: EntryData)
    requires IsDocKml(e)
    ensures IsKmlEntry(e)
  {
    assert Lower(e.name)[|Lower(e.name)| - 4..] == ".kml";
  }

  /**
   * The target is a `.kml` entry; there is one exactly when some entry's
   * name ends in `.kml`; a `doc.kml` wins over every other name, and the
   * last of several `doc.kml` entries wins.
   */
  lemma TargetChoice(entries: seq<EntryData>)
    ensures var t := TargetIndex(entries);
      && (t >= 0 <==> exists j :: 0 <= j < |entries| && IsKmlEntry(entries[j]))
      && (t >= 0 ==> t < |entries| && IsKmlEntry(entries[t]))
      && ((exists j :: 0 <= j < |entries| && IsDocKml(entries[j]))
          ==> IsDocKml(entries[t]) && forall j :: t < j < |entries| ==> !IsDocKml(entries[j]))
      && ((forall j :: 0 <= j < |entries| ==> !IsDocKml(entries[j]))
          ==> t == FirstKml(entries))
  {
    var p := LastDocKml(entries);
    if p >= 0 {
      DocKmlIsKml(entries[p]);
    }
  }

  /**
   * The entries after the rewrite: the target is parsed, and its bytes are
   * replaced only when the coordinate update found something to rewrite.
   * None is the exception a target that does not parse raises.
   */
  function RewrittenEntries(entries: seq<EntryData>, polygon: seq<Coordinate>, io: Codec): Option<seq<EntryData>>
  {
    var t := TargetIndex(entries);
    if t < 0 then Some(entries)
    else
      match io.parse(entries[t].bytes)
      case None => None
      case Some(root) =>
        var (rewritten, updated) := WithPolygonCoordinates(root, polygon, io.formatCoord);
        if updated then Some(entries[t := EntryData(entries[t].name, io.serialize(rewritten))])
        else Some(entries)
  }

  /** `rewriteInnerKmzPolygon` on the package's bytes; None when it throws. */
  function RewrittenKmz(kmzBytes: Bytes, polygon: seq<Coordinate>, io: Codec): Option<Bytes>
  {
    match io.unzip(kmzBytes)
    case None => None
    case Some(zs) =>
      match RewrittenEntries(FileEntries(zs), polygon, io)
      case None => None
      case Some(entries) => Some(io.zip(entries))
  }

  /**
   * The rewritten package lists the same entries under the same names in the
   * same order; only the target's bytes can differ, and they differ only as
   * the serialised result of a successful coordinate update.
   */
  lemma RewrittenEntriesShape(entries: seq<EntryData>, polygon: seq<Coordinate>, io: Codec)
    ensures var r := RewrittenEntries(entries, polygon, io);
      var t := TargetIndex(entries);
      && (r.None? <==> t >= 0 && io.parse(entries[t].bytes).None?)
      && (r.Some? ==>
            && |r.value| == |entries|
            && (forall i :: 0 <= i < |entries| ==> r.value[i].name == entries[i].name)
            && (forall i :: 0 <= i < |entries| && i != t ==> r.value[i] == entries[i])
            && (t >= 0 && r.value[t] != entries[t] ==>
                  var root := io.parse(entries[t].bytes).value;
                  WithPolygonCoordinates(root, polygon, io.formatCoord).1
                  && r.value[t].bytes == io.serialize(WithPolygonCoordinates(root, polygon, io.formatCoord).0)))
  {
    TargetChoice(entries);
  }

  /** The index of the first `.kml` entry, by a scan. */
  method IndexOfFirstKml(entries: seq<EntryData>) returns (r: int)
    ensures r == FirstKml(entries)
  {
    var i := 0;
    while i < |entries|
      invariant 0 <= i <= |entries|
      invariant forall j :: 0 <= j < i ==> !IsKmlEntry(entries[j])
    {
      if IsKmlEntry(entries[i]) {
        return i;
      }
      i := i + 1;
    }
    return -1;
  }

  /** Reads the package's entries, noting the last `doc.kml` as it goes. */
  method ReadEntries(zs: seq<ZipEntry>) returns (entries: seq<EntryData>, preferredIndex: int)
    ensures entries == FileEntries(zs)
    ensures preferredIndex == LastDocKml(entries)
  {
    entries := [];
    preferredIndex := -1;
    var i := 0;
    while i < |zs|
      invariant 0 <= i <= |zs|
      invariant entries == FileEntries(zs[..i])
      invariant preferredIndex == LastDocKml(entries)
    {
      var e := zs[i];
      assert zs[..i + 1][..i] == zs[..i];
      if !e.isDirectory {
        entries := entries + [EntryData(e.name, e.bytes)];
        if Lower(e.name) == "doc.kml" {
          preferredIndex := |entries| - 1;
        }
      }
      i := i + 1;
    }
    assert zs[..i] == zs;
  }

  /** Parses and updates the chosen entry; None when the entry does not parse. */
  method RewriteTarget(entries: seq<EntryData>, kmlIndex: int, polygon: seq<Coordinate>, io: Codec)
    returns (r: Option<seq<EntryData>>)
    requires kmlIndex == TargetIndex(entries)
    ensures r == RewrittenEntries(entries, polygon, io)
  {
    if kmlIndex < 0 {
      return Some(entries);
    }
    var root := io.parse(entries[kmlIndex].bytes);
    if root.None? {
      return None;
    }
    var doc := new Document(root.value);
    var updated := doc.UpdateFirstPolygonCoordinates(polygon, io.formatCoord);
    if updated {
      return Some(entries[kmlIndex := EntryData(entries[kmlIndex].name, io.serialize(doc.root))]);
    }
    return Some(entries);
  }

  /** `rewriteInnerKmzPolygon`: None stands for the exception it lets through. */
  method RewriteInnerKmzPolygon(kmzBytes: Bytes, polygon: seq<Coordinate>, io: Codec) returns (r: Option<Bytes>)
    ensures r == RewrittenKmz(kmzBytes, polygon, io)
  {
    var zs := io.unzip(kmzBytes);
    if zs.None? {
      return None;
    }
    var entries, preferredIndex := ReadEntries(zs.value);
    var kmlIndex := preferredIndex;
    if kmlIndex < 0 {
      kmlIndex := IndexOfFirstKml(entries);
    }
    var rewritten := RewriteTarget(entries, kmlIndex, polygon, io);
    if rewritten.None? {
      return None;
    }
    r := Some(io.zip(rewritten.value));
  }

  // ---------------------------------------------------------------------
  // Auxiliary KML and KMZ files of the package
  // ---------------------------------------------------------------------

  /** A regular file of the unpacked package, by its path relative to the package root. */
  datatype FileItem = FileItem(path: string, bytes: Bytes)

  /** The index of the last `c` in `s`, or -1. */
  function LastIndexOf(s: string, c: char): (r: int)
    ensures -1 <= r < |s|
    ensures r >= 0 ==> s[r] == c
    ensures forall j :: r < j < |s| ==> s[j] != c
  {
    if s == [] then -1
    else if s[|s| - 1] == c then |s| - 1
    else LastIndexOf(s[..|s| - 1], c)
  }

  /** `File.name`: the last path segment, a suffix of the path. */
  function FileName(path: string): (r: string)
    ensures |r| <= |path| && r == path[|path| - |r|..]
  {
    path[LastIndexOf(path, '/') + 1..]
  }

  /** `File.extension`: what follows the last '.' of the file name, or "". */
  function Extension(path: string): string
  {
    var name := FileName(path);
    var dot := LastIndexOf(name, '.');
    if dot < 0 then "" else name[dot + 1..]
  }

  /** A non-empty extension ends the path and follows a '.'. */
  lemma ExtensionSuffix(path: string)
    ensures Extension(path) != "" ==> |Extension(path)| < |path| && path[|path| - |Extension(path)| - 1] == '.'
  {
    var name := FileName(path);
    var dot := LastIndexOf(name, '.');
    if dot >= 0 {
      assert name[dot] == '.';
      assert |name[dot + 1..]| == |name| - dot - 1;
      assert path[|path| - |name| + dot] == name[dot];
    }
  }

  /** The extension of `dir/base.ext` is `ext`, whatever `dir` and `base` hold. */
  lemma ExtensionOf(dir: string, base: string, ext: string)
    requires '/' !in base && '/' !in ext && '.' !in ext
    ensures Extension(dir + "/" + base + "." + ext) == ext
  {
    var path := dir + "/" + base + "." + ext;
    var slash := LastIndexOf(path, '/');
    assert path[|dir|] == '/';
    forall j | |dir| < j < |path|
      ensures path[j] != '/'
    {
      if j > |dir| + |base| {
        assert j == |dir| + |base| + 1 || path[j] == ext[j - |dir| - |base| - 2];
      } else {
        assert path[j] == base[j - |dir| - 1];
      }
    }
    var name := path[slash + 1..];
    assert name == base + "." + ext;
    var dot := LastIndexOf(name, '.');
    assert name[|base|] == '.';
    forall j | |base| < j < |name|
      ensures name[j] != '.'
    {
      assert name[j] == ext[j - |base| - 1];
    }
    assert name[dot + 1..] == ext;
  }

  /** `extension.equals(ext, ignoreCase = true)`, for an extension `ext` written in lower case. */
  predicate HasExtension(f: FileItem, ext: string)
  {
    Lower(Extension(f.path)) == ext
  }

  lemma HasExtensionIgnoresCase(f: FileItem, ext: string)
    requires Lower(ext) == ext
    ensures HasExtension(f, ext) <==> EqualsIgnoreCase(Extension(f.path), ext)
  {
  }

  /**
   * The first pass on one file: a `.kml` file is rewritten only when it
   * parses and the coordinate update reports a change; anything else is
   * left as it was (a parse failure is logged and skipped).
   */
  function RewrittenKmlFile(f: FileItem, polygon: seq<Coordinate>, io: Codec): FileItem
  {
    if !HasExtension(f, "kml") then f
    else
      match io.parse(f.bytes)
      case None => f
      case Some(root) =>
        var (rewritten, updated) := WithPolygonCoordinates(root, polygon, io.formatCoord);
        if updated then f.(bytes := io.serialize(rewritten)) else f
  }

  /** The second pass on one file: a `.kmz` file takes the rewritten package unless the rewrite threw. */
  function RewrittenKmzFile(f: FileItem, polygon: seq<Coordinate>, io: Codec): FileItem
  {
    if !HasExtension(f, "kmz") then f
    else
      match RewrittenKmz(f.bytes, polygon, io)
      case None => f
      case Some(b) => f.(bytes := b)
  }

  function RewrittenFile(f: FileItem, polygon: seq<Coordinate>, io: Codec): FileItem
  {
    RewrittenKmzFile(RewrittenKmlFile(f, polygon, io), polygon, io)
  }

  /**
   * What either pass does to one file: its path is kept; a file that is
   * neither `.kml` nor `.kmz` is untouched; a `.kml` file changes only by a
   * successful update and a `.kmz` only by a rewrite that did not throw.
   */
  lemma RewrittenFileEffect(f: FileItem, polygon: seq<Coordinate>, io: Codec)
    ensures var g := RewrittenFile(f, polygon, io);
      && g.path == f.path
      && (!HasExtension(f, "kml") && !HasExtension(f, "kmz") ==> g == f)
      && (HasExtension(f, "kml") && g != f ==>
            io.parse(f.bytes).Some? && WithPolygonCoordinates(io.parse(f.bytes).value, polygon, io.formatCoord).1)
      && (HasExtension(f, "kmz") && g != f ==> RewrittenKmz(f.bytes, polygon, io) == Some(g.bytes))
  {
    if HasExtension(f, "kml") {
      assert Lower(Extension(f.path))[2] == 'l';
    }
  }

  /** One file of the `.kml` pass. */
  method RewriteKmlFile(f: FileItem, polygon: seq<Coordinate>, io: Codec) returns (g: FileItem)
    ensures g == RewrittenKmlFile(f, polygon, io)
  {
    g := f;
    if HasExtension(f, "kml") {
      var root := io.parse(f.bytes);
      if root.Some? {
        var doc := new Document(root.value);
        var updated := doc.UpdateFirstPolygonCoordinates(polygon, io.formatCoord);
        if updated {
          g := f.(bytes := io.serialize(doc.root));
        }
      }
    }
  }

  /** One file of the `.kmz` pass. */
  method RewriteKmzFile(f: FileItem, polygon: seq<Coordinate>, io: Codec) returns (g: FileItem)
    ensures g == RewrittenKmzFile(f, polygon, io)
  {
    g := f;
    if HasExtension(f, "kmz") {
      var updated := RewriteInnerKmzPolygon(f.bytes, polygon, io);
      if updated.Some? {
        g := f.(bytes := updated.value);
      }
    }
  }

  /** Both passes over the package, file by file. */
  function RewrittenFiles(files: seq<FileItem>, polygon: seq<Coordinate>, io: Codec): (r: seq<FileItem>)
    ensures |r| == |files|
    ensures forall i :: 0 <= i < |files| ==> r[i] == RewrittenFile(files[i], polygon, io)
  {
    seq(|files|, i requires 0 <= i < |files| => RewrittenFile(files[i], polygon, io))
  }

  /** The `.kml` pass. */
  method RewriteKmlFiles(files: seq<FileItem>, polygon: seq<Coordinate>, io: Codec) returns (out: seq<FileItem>)
    ensures |out| == |files|
    ensures forall i :: 0 <= i < |files| ==> out[i] == RewrittenKmlFile(files[i], polygon, io)
  {
    out := files;
    var i := 0;
    while i < |out|
      invariant 0 <= i <= |out| == |files|
      invariant forall j :: 0 <= j < i ==> out[j] == RewrittenKmlFile(files[j], polygon, io)
      invariant forall j :: i <= j < |out| ==> out[j] == files[j]
    {
      var g := RewriteKmlFile(out[i], polygon, io);
      out := out[i := g];
      i := i + 1;
    }
  }

  /** The `.kmz` pass. */
  method RewriteKmzFiles(files: seq<FileItem>, polygon: seq<Coordinate>, io: Codec) returns (out: seq<FileItem>)
    ensures |out| == |files|
    ensures forall i :: 0 <= i < |files| ==> out[i] == RewrittenKmzFile(files[i], polygon, io)
  {
    out := files;
    var i := 0;
    while i < |out|
      invariant 0 <= i <= |out| == |files|
      invariant forall j :: 0 <= j < i ==> out[j] == RewrittenKmzFile(files[j], polygon, io)
      invariant forall j :: i <= j < |out| ==> out[j] == files[j]
    {
      var g := RewriteKmzFile(out[i], polygon, io);
      out := out[i := g];
      i := i + 1;
    }
  }

  /**
   * `rewriteAllTemplateKmls`: the `.kml` pass over every file, then the
   * `.kmz` pass; a file that fails in either pass is left as it was and the
   * others are still rewritten.
   */
  method RewriteAllTemplateKmls(files: seq<FileItem>, polygon: seq<Coordinate>, io: Codec)
    returns (out: seq<FileItem>)
    ensures out == RewrittenFiles(files, polygon, io)
  {
    var kml := RewriteKmlFiles(files, polygon, io);
    out := RewriteKmzFiles(kml, polygon, io);
  }

  // ---------------------------------------------------------------------
  // The pipeline
  // ---------------------------------------------------------------------

  /** Why `generateFromTemplateKmz` throws. */
  datatype GenerateError =
    | UnzipFailed(asset: string)        // "Unzip failed for <asset>: ..."
    | WaylinesNotFound(message: string) // from `locateWaylines`
    | WaylinesUnreadable(path: string)  // the descriptor does not parse

  /** The platform: the bundled template packages as the files they unpack to, the codecs, and `"%.3f"`. */
  datatype Platform = Platform(
    templates: string -> Option<seq<FileItem>>,
    io: Codec,
    formatHeight: real -> string)

  /** The mission package: its path and its bytes. */
  datatype Package = Package(path: string, bytes: Bytes)

  predicate HasFile(files: seq<FileItem>, path: string)
  {
    exists i :: 0 <= i < |files| && files[i].path == path
  }

  /** The position of the file at `path`, or `|files|` when there is none. */
  function FileIndex(files: seq<FileItem>, path: string): (k: nat)
    ensures k <= |files|
    ensures k < |files| ==> files[k].path == path
    ensures k == |files| <==> !HasFile(files, path)
  {
    if files == [] then 0
    else if files[0].path == path then 0
    else
      FileIndex(files[1..], path) + 1
  }

  /** The package is written next to `outDir` (into its parent, when it has one). */
  function OutputPath(outDir: string, outParent: Option<string>, missionName: string): string
  {
    (if outParent.Some? then outParent.value else outDir) + "/" + missionName + ".kmz"
  }

  /** The unpacked directory as ZIP entries, each under its relative path. */
  function AsEntries(files: seq<FileItem>): (r: seq<EntryData>)
    ensures |r| == |files|
  {
    seq(|files|, i requires 0 <= i < |files| => EntryData(files[i].path, files[i].bytes))
  }

  /**
   * The unpacked template after steps 1 and 2 of `generateFromTemplateKmz`:
   * the descriptor rewritten and saved, then every auxiliary KML and KMZ
   * rewritten.
   */
  function StagedFiles(polygon: seq<Coordinate>, altitudeMeters: real, camera: CameraType,
                       tmpDir: string, env: Platform): Result<seq<FileItem>, GenerateError>
  {
    var asset := PickTemplateAsset(camera, PickAltitudeBucket(altitudeMeters));
    match env.templates(asset)
    case None => Err(UnzipFailed(asset))
    case Some(files) =>
      match LocateWaylines(tmpDir, p => HasFile(files, p))
      case Err(message) => Err(WaylinesNotFound(message))
      case Ok(waylines) =>
        var k := FileIndex(files, waylines);
        match env.io.parse(files[k].bytes)
        case None => Err(WaylinesUnreadable(waylines))
        case Some(root) =>
          var h := env.formatHeight(altitudeMeters);
          var mutated := MutatedWaylines(root, camera, h, polygon, env.io.formatCoord);
          Ok(RewrittenFiles(files[k := FileItem(waylines, env.io.serialize(mutated))], polygon, env.io))
  }

  /** `generateFromTemplateKmz`: the package, None when the written file is empty, or the error thrown. */
  function Generated(missionName: string, polygon: seq<Coordinate>, altitudeMeters: real, camera: CameraType,
                     outDir: string, outParent: Option<string>, tmpDir: string, env: Platform)
    : Result<Option<Package>, GenerateError>
  {
    match StagedFiles(polygon, altitudeMeters, camera, tmpDir, env)
    case Err(e) => Err(e)
    case Ok(files) =>
      var bytes := env.io.zip(AsEntries(files));
      Ok(if |bytes| > 0 then Some(Package(OutputPath(outDir, outParent, missionName), bytes)) else None)
  }

  /** A file whose extension is not three characters long is in neither rewrite pass. */
  lemma OtherExtensionUntouched(f: FileItem, polygon: seq<Coordinate>, io: Codec)
    requires |Extension(f.path)| != 3
    ensures RewrittenFile(f, polygon, io) == f
  {
    assert |Lower(Extension(f.path))| == |Extension(f.path)|;
    assert !HasExtension(f, "kml") && !HasExtension(f, "kmz");
  }

  /** The descriptor's own extension keeps it out of both rewrite passes. */
  lemma WaylinesNotRewritten(f: FileItem, polygon: seq<Coordinate>, io: Codec)
    requires f.path in WaylinesCandidates
    ensures RewrittenFile(f, polygon, io) == f
  {
    var path := f.path;
    ExtensionSuffix(path);
    assert path[|path| - 4] == 'w';
    OtherExtensionUntouched(f, polygon, io);
  }

  /**
   * The pipeline's failures: the template chosen from the altitude and
   * camera is the one unpacked, and a package with none of the candidate
   * descriptors fails with the message naming the scratch directory.
   */
  lemma StagedFilesErrors(polygon: seq<Coordinate>, altitudeMeters: real, camera: CameraType,
                          tmpDir: string, env: Platform)
    ensures var asset := PickTemplateAsset(camera, PickAltitudeBucket(altitudeMeters));
      var r := StagedFiles(polygon, altitudeMeters, camera, tmpDir, env);
      && (env.templates(asset).None? <==> r == Err(UnzipFailed(asset)))
      && (env.templates(asset).Some? ==>
            var files := env.templates(asset).value;
            ((forall c :: c in WaylinesCandidates ==> !HasFile(files, c))
             <==> r == Err(WaylinesNotFound("waylines.wpml not found under " + tmpDir))))
  {
    var asset := PickTemplateAsset(camera, PickAltitudeBucket(altitudeMeters));
    if env.templates(asset).Some? {
      var files := env.templates(asset).value;
      var isFile := p => HasFile(files, p);
      var located := LocateWaylines(tmpDir, isFile);
      if located.Err? {
        forall c | c in WaylinesCandidates
          ensures !HasFile(files, c)
        {
          assert isFile(c) == HasFile(files, c);
        }
      }
    }
  }

  /**
   * A successful run leaves the descriptor holding the serialised mutated
   * waylines document, and every other file as the KML/KMZ rewrite made it.
   */
  lemma StagedFilesContent(polygon: seq<Coordinate>, altitudeMeters: real, camera: CameraType,
                           tmpDir: string, env: Platform)
    requires StagedFiles(polygon, altitudeMeters, camera, tmpDir, env).Ok?
    ensures var asset := PickTemplateAsset(camera, PickAltitudeBucket(altitudeMeters));
      var r := StagedFiles(polygon, altitudeMeters, camera, tmpDir, env).value;
      var files := env.templates(asset).value;
      var waylines := LocateWaylines(tmpDir, p => HasFile(files, p)).value;
      var k := FileIndex(files, waylines);
      && k < |files| && |r| == |files| && waylines in WaylinesCandidates
      && r[k] == FileItem(waylines, env.io.serialize(
           MutatedWaylines(env.io.parse(files[k].bytes).value, camera,
                           env.formatHeight(altitudeMeters), polygon, env.io.formatCoord)))
      && forall i :: 0 <= i < |files| && i != k ==> r[i] == RewrittenFile(files[i], polygon, env.io)
  {
    var asset := PickTemplateAsset(camera, PickAltitudeBucket(altitudeMeters));
    var files := env.templates(asset).value;
    var located := LocateWaylines(tmpDir, p => HasFile(files, p));
    var k := FileIndex(files, located.value);
    var root := env.io.parse(files[k].bytes).value;
    var mutated := MutatedWaylines(root, camera, env.formatHeight(altitudeMeters), polygon, env.io.formatCoord);
    WaylinesNotRewritten(FileItem(located.value, env.io.serialize(mutated)), polygon, env.io);
  }

  /** Step 1 on the parsed descriptor, then `saveXml`. */
  method RewriteDescriptor(root: Node, camera: CameraType, h: string, polygon: seq<Coordinate>, io: Codec)
    returns (bytes: Bytes)
    ensures bytes == io.serialize(MutatedWaylines(root, camera, h, polygon, io.formatCoord))
  {
    var doc := new Document(root);
    MutateWaylines(doc, camera, h, polygon, io.formatCoord);
    bytes := io.serialize(doc.root);
  }

  /** Steps 1 and 2: unpack, rewrite and save the descriptor, rewrite the auxiliary files. */
  method StageFiles(polygon: seq<Coordinate>, altitudeMeters: real, camera: CameraType,
                    tmpDir: string, env: Platform)
    returns (r: Result<seq<FileItem>, GenerateError>)
    ensures r == StagedFiles(polygon, altitudeMeters, camera, tmpDir, env)
  {
    var bucket := PickAltitudeBucket(altitudeMeters);
    var templateAsset := PickTemplateAsset(camera, bucket);
    var unpacked := env.templates(templateAsset);
    if unpacked.None? {
      return Err(UnzipFailed(templateAsset));
    }
    var files := unpacked.value;
    var located := LocateWaylines(tmpDir, p => HasFile(files, p));
    if located.Err? {
      return Err(WaylinesNotFound(located.error));
    }
    var k := FileIndex(files, located.value);
    var parsed := env.io.parse(files[k].bytes);
    if parsed.None? {
      return Err(WaylinesUnreadable(located.value));
    }
    var descriptor := RewriteDescriptor(parsed.value, camera, env.formatHeight(altitudeMeters), polygon, env.io);
    files := files[k := FileItem(located.value, descriptor)];
    var rewritten := RewriteAllTemplateKmls(files, polygon, env.io);
    return Ok(rewritten);
  }

  /** `generateFromTemplateKmz`, step by step; the package path and the scratch directory are parameters. */
  method GenerateFromTemplateKmz(missionName: string, polygon: seq<Coordinate>, altitudeMeters: real,
                                 camera: CameraType, outDir: string, outParent: Option<string>,
                                 tmpDir: string, env: Platform)
    returns (r: Result<Option<Package>, GenerateError>)
    ensures r == Generated(missionName, polygon, altitudeMeters, camera, outDir, outParent, tmpDir, env)
  {
    var outKmz := OutputPath(outDir, outParent, missionName);
    var staged := StageFiles(polygon, altitudeMeters, camera, tmpDir, env);
    if staged.Err? {
      return Err(staged.error);
    }
    var rewritten := staged.value;
    var bytes := env.io.zip(AsEntries(rewritten));
    if |bytes| > 0 {
      return Ok(Some(Package(outKmz, bytes)));
    }
    return Ok(None);
  }
}
