/**
 * The input-shaping logic of `MainActivity`
 * (app/src/main/java/com/example/atak2drone/MainActivity.kt): the mission
 * name rule and its error marker, the Generate-button gate kept by the
 * picker and text callbacks, the checks of the Generate click, the file
 * extension guess and the pretty path of a destination tree.
 *
 * Android lookups (MIME type, display name, URI authority, tree document id)
 * and the picked file's content are parameters.
 */
module MainActivity {
  import opened Text
  import KmlUtils
  import WpmlGenerator

  // ---------------------------------------------------------------------
  // The mission name
  // ---------------------------------------------------------------------

  predicate IsAsciiLetter(c: char)
  {
    'A' <= c <= 'Z' || 'a' <= c <= 'z'
  }

  predicate IsNameChar(c: char)
  {
    IsAsciiLetter(c) || '0' <= c <= '9' || c == '_' || c == '-'
  }

  /** The two character classes of the name pattern: `[A-Za-z]` and `[A-Za-z0-9_-]`. */
  datatype CharClass = Letter | NameChar

  predicate InClass(c: char, cls: CharClass)
  {
    match cls
    case Letter => IsAsciiLetter(c)
    case NameChar => IsNameChar(c)
  }

  /** A character class repeated between `min` and `max` times. */
  datatype Piece = Piece(cls: CharClass, min: nat, max: nat)

  /** Whole-string matching (`Regex.matches`) of a sequence of pieces. */
  predicate Matches(ps: seq<Piece>, s: string)
    decreases |s|, |ps|
  {
    if ps == [] then s == []
    else
      var p := ps[0];
      (p.min == 0 && Matches(ps[1..], s))
      || (p.max > 0 && s != [] && InClass(s[0], p.cls)
          && Matches([Piece(p.cls, if p.min > 0 then p.min - 1 else 0, p.max - 1)] + ps[1..], s[1..]))
  }

  /** `NAME_REGEX`: `^[A-Za-z][A-Za-z0-9_-]{0,31}$`. */
  const NameRegex: seq<Piece> := [Piece(Letter, 1, 1), Piece(NameChar, 0, 31)]

  const InvalidNameMessage: string := "Invalid name: Letter first, A–Z/0–9/_/- only, max 32 chars."

  /** The rule the pattern's comment states: 1 to 32 characters, a letter first, then letters, digits, `_` or `-`. */
  predicate NameRule(s: string)
  {
    1 <= |s| <= 32 && IsAsciiLetter(s[0]) && forall i :: 1 <= i < |s| ==> IsNameChar(s[i])
  }

  /** An optional run of one class matches exactly the strings of that class up to its bound. */
  lemma {:induction false} RunMatches(cls: CharClass, m: nat, s: string)
    ensures Matches([Piece(cls, 0, m)], s) <==> |s| <= m && forall i :: 0 <= i < |s| ==> InClass(s[i], cls)
    decreases |s|
  {
    var ps := [Piece(cls, 0, m)];
    assert ps[1..] == [];
    if s != [] {
      if m > 0 {
        assert [Piece(cls, 0, m - 1)] + ps[1..] == [Piece(cls, 0, m - 1)];
        RunMatches(cls, m - 1, s[1..]);
        if |s| <= m && forall i :: 0 <= i < |s| ==> InClass(s[i], cls) {
          forall i | 0 <= i < |s[1..]|
            ensures InClass(s[1..][i], cls)
          {
            assert s[1..][i] == s[i + 1];
          }
        }
        if Matches(ps, s) {
          assert !Matches(ps[1..], s);
          assert InClass(s[0], ps[0].cls);
          forall i | 0 <= i < |s|
            ensures InClass(s[i], cls)
          {
            if i > 0 {
              assert s[i] == s[1..][i - 1];
            }
          }
        }
      }
    }
  }

  /** `NAME_REGEX.matches(s)` holds exactly for the names the rule allows. */
  lemma NameRegexRule(s: string)
    ensures Matches(NameRegex, s) <==> NameRule(s)
  {
    var rest := [Piece(NameChar, 0, 31)];
    assert NameRegex[1..] == rest;
    assert NameRegex[0].min != 0;
    if s != [] {
      var next := [Piece(Letter, 0, 0)] + rest;
      assert [Piece(Letter, 0, 0)] + NameRegex[1..] == next;
      assert next[1..] == rest;
      assert Matches(next, s[1..]) <==> Matches(rest, s[1..]);
      RunMatches(NameChar, 31, s[1..]);
      if NameRule(s) {
        forall i | 0 <= i < |s[1..]|
          ensures InClass(s[1..][i], NameChar)
        {
          assert s[1..][i] == s[i + 1];
        }
      }
      if Matches(NameRegex, s) {
        forall i | 1 <= i < |s|
          ensures IsNameChar(s[i])
        {
          assert s[i] == s[1..][i - 1];
        }
      }
    }
  }

  /** `missionNameValid`: the trimmed text matches the name pattern. */
  predicate MissionNameValid(text: string)
  {
    Matches(NameRegex, Trim(text))
  }

  /** The error marker of `onTextChanged`: a non-empty trimmed name that does not match. */
  predicate ShowsNameError(text: string)
  {
    Trim(text) != [] && !MissionNameValid(text)
  }

  /**
   * A blank name never shows the error marker yet is never valid; any
   * other name shows the marker exactly when it is invalid, and it is valid
   * exactly when its trimmed form follows the name rule.
   */
  lemma NameErrorMarker(text: string)
    ensures IsBlank(text) ==> !ShowsNameError(text) && !MissionNameValid(text)
    ensures !IsBlank(text) ==> (ShowsNameError(text) <==> !MissionNameValid(text))
    ensures MissionNameValid(text) <==> NameRule(Trim(text))
  {
    TrimBlank(text);
    NameRegexRule(Trim(text));
  }

  // ---------------------------------------------------------------------
  // The screen's state and the Generate gate
  // ---------------------------------------------------------------------

  /** Which altitude radio button is checked. */
  datatype AltitudeRadio = Alt200Checked | Alt400Checked | NoAltitudeChecked

  /** Which camera radio button is checked. */
  datatype CameraRadio = EOChecked | IRChecked | BothChecked | NoCameraChecked

  /** What the Generate click hands on to mission generation. */
  datatype Request = Request(kml: string, missionName: string, altitudeFt: real,
                             camera: WpmlGenerator.CameraType, tree: string)

  /** Why the Generate click stops, in the order the checks are made. */
  datatype Refusal = NoKml | InvalidPolygon | InvalidName | InvalidAltitude | NoDestination

  /** `updateGenerateEnabled`'s conjunction. */
  predicate Gate(pickedKml: Option<string>, polygonLooksValid: bool, destTree: Option<string>, nameText: string)
  {
    pickedKml.Some? && polygonLooksValid && destTree.Some? && MissionNameValid(nameText)
  }

  /** The altitude radio group: 200 ft, 400 ft, or nothing usable. */
  function AltitudeFeet(altitude: AltitudeRadio): Option<real>
  {
    match altitude
    case Alt200Checked => Some(200.0)
    case Alt400Checked => Some(400.0)
    case NoAltitudeChecked => None
  }

  /** The camera radio group: both, IR, and EO for anything else. */
  function CameraOf(camera: CameraRadio): WpmlGenerator.CameraType
  {
    match camera
    case BothChecked => WpmlGenerator.BOTH
    case IRChecked => WpmlGenerator.IR
    case _ => WpmlGenerator.EO
  }

  /** The checks of `onGenerateClicked`, on the screen's state. */
  function Decide(pickedKml: Option<string>, polygonLooksValid: bool, nameText: string,
                  altitude: AltitudeRadio, camera: CameraRadio, destTree: Option<string>): Result<Request, Refusal>
  {
    if pickedKml.None? then Err(NoKml)
    else if !polygonLooksValid then Err(InvalidPolygon)
    else if !Matches(NameRegex, Trim(nameText)) then Err(InvalidName)
    else if AltitudeFeet(altitude).None? then Err(InvalidAltitude)
    else if destTree.None? then Err(NoDestination)
    else Ok(Request(pickedKml.value, Trim(nameText), AltitudeFeet(altitude).value, CameraOf(camera), destTree.value))
  }

  /**
   * When the button is enabled, the click can only be refused for a missing
   * altitude selection; an accepted click asks for 200 ft or 400 ft, falls
   * back to the EO camera unless IR or both are checked, and carries a name
   * the rule allows.
   */
  lemma DecideOutcome(pickedKml: Option<string>, polygonLooksValid: bool, nameText: string,
                      altitude: AltitudeRadio, camera: CameraRadio, destTree: Option<string>)
    ensures var r := Decide(pickedKml, polygonLooksValid, nameText, altitude, camera, destTree);
      && (Gate(pickedKml, polygonLooksValid, destTree, nameText) ==> (r.Err? <==> altitude == NoAltitudeChecked))
      && (r.Ok? ==> Gate(pickedKml, polygonLooksValid, destTree, nameText))
      && (r.Ok? ==> (r.value.altitudeFt == 200.0 <==> altitude == Alt200Checked)
                    && (r.value.altitudeFt == 400.0 <==> altitude == Alt400Checked))
      && (r.Ok? ==> (r.value.camera == WpmlGenerator.BOTH <==> camera == BothChecked)
                    && (r.value.camera == WpmlGenerator.IR <==> camera == IRChecked)
                    && (r.value.camera == WpmlGenerator.EO <==> camera == EOChecked || camera == NoCameraChecked))
      && (r.Ok? ==> NameRule(r.value.missionName))
  {
    NameRegexRule(Trim(nameText));
  }

  /** An accepted click's altitude picks the template of the same height once converted to metres. */
  lemma RequestPicksTemplate(r: Request)
    requires r.altitudeFt == 200.0 || r.altitudeFt == 400.0
    ensures WpmlGenerator.PickAltitudeBucket(r.altitudeFt * 0.3048) ==
      (if r.altitudeFt == 200.0 then WpmlGenerator.FT200 else WpmlGenerator.FT400)
  {
    WpmlGenerator.BucketOfFeet(r.altitudeFt);
  }

  /** The activity's fields that the callbacks update in place. */
  class Activity {
    var pickedKml: Option<string>
    var destTree: Option<string>
    var polygonLooksValid: bool
    var nameText: string
    var nameError: Option<string>
    var altitude: AltitudeRadio
    var camera: CameraRadio
    var generateEnabled: bool

    predicate GateOpen()
      reads this
    {
      Gate(pickedKml, polygonLooksValid, destTree, nameText)
    }

    /** The button shows the gate: every callback ends with `updateGenerateEnabled`. */
    predicate Valid()
      reads this
    {
      generateEnabled == GateOpen()
    }

    /** `onCreate` with `setDefaults`: nothing picked, a blank name, EO and 200 ft checked. */
    constructor ()
      ensures pickedKml.None? && destTree.None? && !polygonLooksValid
      ensures nameText == "" && nameError.None?
      ensures altitude == Alt200Checked && camera == EOChecked
      ensures !generateEnabled && Valid()
    {
      pickedKml := None;
      destTree := None;
      polygonLooksValid := false;
      nameText := "";
      nameError := None;
      altitude := Alt200Checked;
      camera := EOChecked;
      generateEnabled := false;
    }

    method UpdateGenerateEnabled()
      modifies this
      ensures generateEnabled == GateOpen()
      ensures pickedKml == old(pickedKml) && destTree == old(destTree)
      ensures polygonLooksValid == old(polygonLooksValid) && nameText == old(nameText)
      ensures nameError == old(nameError) && altitude == old(altitude) && camera == old(camera)
    {
      generateEnabled := pickedKml.Some? && polygonLooksValid && destTree.Some? && MissionNameValid(nameText);
    }

    /**
     * The KML picker's callback: a cancelled pick clears the file and the
     * polygon flag; otherwise the flag records whether the picked file's
     * events give a polygon.  None stands for any exception on the way: a
     * copy that threw, or the pull parser rejecting the bytes (ill-formed
     * XML, a KMZ archive read as raw bytes, or a coordinates element with a
     * child element, on which `nextText` throws).  The size
     * check adds nothing, since a successful parse has at least 3 points.
     */
    method OnKmlPicked(uri: Option<string>, content: Option<seq<KmlUtils.Event>>,
                       parseNum: string -> Option<real>)
      modifies this
      ensures pickedKml == uri
      ensures polygonLooksValid <==>
        uri.Some? && content.Some? && KmlUtils.ExtractPolygon(content.value, parseNum).Ok?
      ensures destTree == old(destTree) && nameText == old(nameText) && nameError == old(nameError)
      ensures altitude == old(altitude) && camera == old(camera)
      ensures Valid()
    {
      if uri.None? {
        pickedKml := None;
        polygonLooksValid := false;
        UpdateGenerateEnabled();
        return;
      }
      pickedKml := uri;
      if content.None? {
        polygonLooksValid := false;
      } else {
        var polygon := KmlUtils.ParseSinglePolygonFromKml(content.value, parseNum);
        if polygon.Err? {
          polygonLooksValid := false;
        } else {
          polygonLooksValid := |polygon.value| >= 3;
        }
      }
      UpdateGenerateEnabled();
    }

    /** The destination picker's callback: a cancelled pick clears the destination. */
    method OnDestPicked(uri: Option<string>)
      modifies this
      ensures destTree == uri
      ensures pickedKml == old(pickedKml) && polygonLooksValid == old(polygonLooksValid)
      ensures nameText == old(nameText) && nameError == old(nameError)
      ensures altitude == old(altitude) && camera == old(camera)
      ensures Valid()
    {
      destTree := uri;
      UpdateGenerateEnabled();
    }

    /** `onTextChanged`: the marker is shown for a non-empty invalid name and cleared otherwise. */
    method OnTextChanged(text: string)
      modifies this
      ensures nameText == text
      ensures nameError == if ShowsNameError(text) then Some(InvalidNameMessage) else None
      ensures pickedKml == old(pickedKml) && destTree == old(destTree)
      ensures polygonLooksValid == old(polygonLooksValid)
      ensures altitude == old(altitude) && camera == old(camera)
      ensures Valid()
    {
      nameText := text;
      var name := Trim(text);
      var ok := Matches(NameRegex, name);
      if name != [] && !ok {
        nameError := Some(InvalidNameMessage);
      } else {
        nameError := None;
      }
      UpdateGenerateEnabled();
    }

    /** Sets the name's error marker, as the Generate click does for an invalid name. */
    method MarkNameInvalid()
      modifies this
      ensures nameError == Some(InvalidNameMessage)
      ensures pickedKml == old(pickedKml) && destTree == old(destTree)
      ensures polygonLooksValid == old(polygonLooksValid) && nameText == old(nameText)
      ensures altitude == old(altitude) && camera == old(camera) && generateEnabled == old(generateEnabled)
    {
      nameError := Some(InvalidNameMessage);
    }

    /** The checks of `onGenerateClicked`; an invalid name also gets the error marker. */
    method OnGenerateClicked() returns (r: Result<Request, Refusal>)
      modifies this
      ensures r == Decide(pickedKml, polygonLooksValid, nameText, altitude, camera, destTree)
      ensures nameError == if r == Err(InvalidName) then Some(InvalidNameMessage) else old(nameError)
      ensures pickedKml == old(pickedKml) && destTree == old(destTree)
      ensures polygonLooksValid == old(polygonLooksValid) && nameText == old(nameText)
      ensures altitude == old(altitude) && camera == old(camera) && generateEnabled == old(generateEnabled)
    {
      if pickedKml.None? {
        return Err(NoKml);
      }
      if !polygonLooksValid {
        return Err(InvalidPolygon);
      }
      var missionNameRaw := Trim(nameText);
      if !Matches(NameRegex, missionNameRaw) {
        MarkNameInvalid();
        return Err(InvalidName);
      }
      var altitudeFt := AltitudeFeet(altitude);
      if altitudeFt.None? {
        return Err(InvalidAltitude);
      }
      var cameraType := CameraOf(camera);
      if destTree.None? {
        return Err(NoDestination);
      }
      r := Ok(Request(pickedKml.value, missionNameRaw, altitudeFt.value, cameraType, destTree.value));
    }
  }

  // ---------------------------------------------------------------------
  // File extensions
  // ---------------------------------------------------------------------

  const KmlMime: string := "application/vnd.google-earth.kml+xml"
  const KmzMime: string := "application/vnd.google-earth.kmz"
  const ZipMime: string := "application/zip"

  /**
   * `guessExtForUri`: the MIME type first (compared ignoring case, so
   * against its lower-case form), then the lower-cased display name's
   * suffix; `.kml` when nothing decides.
   */
  function GuessExt(mime: Option<string>, displayName: Option<string>): (r: string)
    ensures r == ".kml" || r == ".kmz"
  {
    var m := Lower(if mime.Some? then mime.value else "");
    if m == KmlMime then ".kml"
    else if m == KmzMime then ".kmz"
    else if m == ZipMime then ".kmz"
    else
      var n := Lower(if displayName.Some? then displayName.value else "");
      if EndsWith(n, ".kmz") then ".kmz"
      else if EndsWith(n, ".kml") then ".kml"
      else ".kml"
  }

  /**
   * The guess is `.kmz` exactly when the MIME type says KMZ or ZIP, or says
   * none of the three types and the name ends in `.kmz` in any case.
   */
  lemma GuessExtKmz(mime: Option<string>, displayName: Option<string>)
    ensures var m := Lower(if mime.Some? then mime.value else "");
      var n := Lower(if displayName.Some? then displayName.value else "");
      GuessExt(mime, displayName) == ".kmz" <==>
        m == KmzMime || m == ZipMime || (m != KmlMime && m != KmzMime && m != ZipMime && EndsWith(n, ".kmz"))
  {
  }

  /** The suffix of the temporary copy: the suggestion unless it is blank. */
  function TempSuffix(suggestedExt: string): (r: string)
    ensures !IsBlank(r)
    ensures !IsBlank(suggestedExt) ==> r == suggestedExt
  {
    if !IsBlank(suggestedExt) then suggestedExt
    else
      assert !IsWhitespace(".kml"[0]);
      ".kml"
  }

  /** The guessed extension is never blank, so the copy always takes it. */
  lemma GuessedSuffixKept(mime: Option<string>, displayName: Option<string>)
    ensures TempSuffix(GuessExt(mime, displayName)) == GuessExt(mime, displayName)
  {
    var g := GuessExt(mime, displayName);
    assert !IsWhitespace(g[0]);
  }

  // ---------------------------------------------------------------------
  // The destination's pretty path
  // ---------------------------------------------------------------------

  const ExternalStorageAuthority: string := "com.android.externalstorage.documents"

  /** `DocumentsContract.getTreeDocumentId`: it throws, returns null, or returns an id. */
  datatype DocIdLookup = Threw | NullId | DocId(id: string)

  predicate IsColon(c: char)
  {
    c == ':'
  }

  /**
   * `prettyPathForTreeUri`: an external-storage tree is shown as a storage
   * path, anything else as the URI itself.
   */
  function PrettyPath(uri: string, authority: Option<string>, docId: DocIdLookup): string
  {
    if authority != Some(ExternalStorageAuthority) then "URI: " + uri
    else
      match docId
      case Threw => "URI: " + uri
      case NullId => "URI: " + uri
      case DocId(id) =>
        var parts := Split(id, IsColon);
        var volume := parts[0];
        var relPath := if |parts| > 1 then parts[1] else "";
        var base := if Lower(volume) == "primary" then "/storage/emulated/0" else "/storage/" + volume;
        if relPath != "" then base + "/" + relPath else base
  }

  /** The storage root a volume name is shown under. */
  function VolumeRoot(volume: string): string
  {
    if Lower(volume) == "primary" then "/storage/emulated/0" else "/storage/" + volume
  }

  /**
   * For a `volume:path` id the path is the volume's root followed by the
   * relative path, if any; the primary volume, in any case, is the emulated
   * storage.  Anything after a further colon in the id is dropped.
   */
  lemma PrettyPathOfDocId(uri: string, volume: string, relPath: string, rest: string)
    requires NoSep(volume, IsColon) && NoSep(relPath, IsColon)
    requires rest == [] || rest[0] == ':'
    ensures PrettyPath(uri, Some(ExternalStorageAuthority), DocId(volume + ":" + relPath + rest))
      == VolumeRoot(volume) + (if relPath == "" then "" else "/" + relPath)
  {
    assert volume + ":" + relPath + rest == volume + [':'] + (relPath + rest);
    SplitAtSep(volume, ':', relPath + rest, IsColon);
    if rest == [] {
      assert relPath + rest == relPath;
      SplitNoSep(relPath, IsColon);
    } else {
      assert relPath + rest == relPath + [':'] + rest[1..];
      SplitAtSep(relPath, ':', rest[1..], IsColon);
    }
  }

  /** An id without a colon names only a volume. */
  lemma PrettyPathOfVolume(uri: string, volume: string)
    requires NoSep(volume, IsColon)
    ensures PrettyPath(uri, Some(ExternalStorageAuthority), DocId(volume)) == VolumeRoot(volume)
  {
    SplitNoSep(volume, IsColon);
  }

  /** Another authority, a missing id or a lookup that throws shows the URI. */
  lemma PrettyPathFallback(uri: string, authority: Option<string>, docId: DocIdLookup)
    requires authority != Some(ExternalStorageAuthority) || !docId.DocId?
    ensures PrettyPath(uri, authority, docId) == "URI: " + uri
  {
  }
}
