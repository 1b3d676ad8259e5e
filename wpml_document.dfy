/**
 * The DOM rewrites of
 * app/src/main/java/com/example/atak2drone/utils/WpmlGenerator.kt:
 * `setAllTexts`, `normalizeAllHeights`, `replaceFolderPlacemarksInDoc`,
 * `updateFirstPolygonCoordinates` and `buildKmlCoordinatesText`.
 *
 * Each rewrite is a function on trees that says what the document becomes,
 * and a method of `Document` (the parsed `org.w3c.dom.Document`, updated in
 * place) that performs it.  Number formatting (`String.format("%.7f", ...)`)
 * is the parameter `fmt`.
 */
module WpmlDocument {
  import opened Text
  import opened XmlTree
  import KmlUtils

  type Coordinate = KmlUtils.Coordinate

  const WpNs: string := "http://www.dji.com/wpmz/1.0.6"
  const KmlNs: string := "http://www.opengis.net/kml/2.2"

  // ---------------------------------------------------------------------
  // setAllTexts
  // ---------------------------------------------------------------------

  /**
   * Every WP-namespace element called `localName` gets the text `v`.  Its old
   * children go, so a match nested inside another match disappears with it.
   * Android's node list is a snapshot, so the loop ends this way too; over a
   * live list the removed inner match would be a null item and the loop
   * would throw instead.
   */
  function WithTexts(n: Node, localName: string, v: string): Node
    decreases n, 1
  {
    match n
    case TextNode(_) => n
    case Element(ns, name, _, cs) =>
      if ns == WpNs && name == localName then n.(children := TextChildren(v))
      else n.(children := WithTextsAll(cs, localName, v))
  }

  function WithTextsAll(cs: seq<Node>, localName: string, v: string): seq<Node>
    decreases cs, 0
  {
    seq(|cs|, i requires 0 <= i < |cs| => WithTexts(cs[i], localName, v))
  }

  /** A WP-namespace element called `localName` holds exactly the text `v`. */
  predicate HasField(m: Node, localName: string, v: string)
  {
    IsNamed(m, WpNs, localName) ==> m.children == TextChildren(v)
  }

  function FieldIs(localName: string, v: string): Node -> bool
  {
    m => HasField(m, localName, v)
  }

  /** Text children carry no element, so any property of elements holds throughout them. */
  lemma TextChildrenHold(v: string, P: Node -> bool)
    requires forall t: string :: P(TextNode(t))
    ensures forall i :: 0 <= i < |TextChildren(v)| ==> Everywhere(TextChildren(v)[i], P)
  {
  }

  /** After `setAllTexts(localName, v)` every such element holds `v`. */
  lemma {:induction false} WithTextsSets(n: Node, localName: string, v: string)
    ensures Everywhere(WithTexts(n, localName, v), FieldIs(localName, v))
  {
    match n
    case TextNode(_) =>
    case Element(ns, name, _, cs) =>
      if ns == WpNs && name == localName {
        TextChildrenHold(v, FieldIs(localName, v));
      } else {
        var r := WithTexts(n, localName, v);
        forall i | 0 <= i < |cs|
          ensures Everywhere(r.children[i], FieldIs(localName, v))
        {
          WithTextsSets(cs[i], localName, v);
        }
      }
  }

  /** Setting one field leaves what another field holds. */
  lemma {:induction false} WithTextsKeeps(n: Node, localName: string, v: string, other: string, w: string)
    requires other != localName
    requires Everywhere(n, FieldIs(other, w))
    ensures Everywhere(WithTexts(n, localName, v), FieldIs(other, w))
  {
    match n
    case TextNode(_) =>
    case Element(ns, name, _, cs) =>
      if ns == WpNs && name == localName {
        TextChildrenHold(v, FieldIs(other, w));
      } else {
        var r := WithTexts(n, localName, v);
        forall i | 0 <= i < |cs|
          ensures Everywhere(r.children[i], FieldIs(other, w))
        {
          WithTextsKeeps(cs[i], localName, v, other, w);
        }
        if IsNamed(n, WpNs, other) {
          assert FieldIs(other, w)(n);
          TextChildrenFixed(w, "", localName, v);
        }
      }
  }

  /** Neither walk changes text children. */
  lemma TextChildrenFixed(w: string, h: string, localName: string, v: string)
    ensures WithTextsAll(TextChildren(w), localName, v) == TextChildren(w)
    ensures WithHeightsAll(TextChildren(w), h) == TextChildren(w)
  {
  }

  /** A document without such an element is left as it is. */
  lemma {:induction false} WithTextsNoMatch(n: Node, localName: string, v: string)
    requires Everywhere(n, NotNamed(WpNs, localName))
    ensures WithTexts(n, localName, v) == n
  {
    match n
    case TextNode(_) =>
    case Element(ns, name, _, cs) =>
      forall i | 0 <= i < |cs|
        ensures WithTexts(cs[i], localName, v) == cs[i]
      {
        WithTextsNoMatch(cs[i], localName, v);
      }
      assert WithTexts(n, localName, v).children == cs;
  }

  /** Setting the same field twice is setting it once. */
  lemma {:induction false} WithTextsIdempotent(n: Node, localName: string, v: string)
    ensures WithTexts(WithTexts(n, localName, v), localName, v) == WithTexts(n, localName, v)
  {
    match n
    case TextNode(_) =>
    case Element(ns, name, _, cs) =>
      if !(ns == WpNs && name == localName) {
        forall i | 0 <= i < |cs|
          ensures WithTexts(WithTexts(cs[i], localName, v), localName, v) == WithTexts(cs[i], localName, v)
        {
          WithTextsIdempotent(cs[i], localName, v);
        }
        assert WithTexts(WithTexts(n, localName, v), localName, v).children
            == WithTexts(n, localName, v).children;
      }
  }

  // ---------------------------------------------------------------------
  // normalizeAllHeights
  // ---------------------------------------------------------------------

  /** `ln.equals("height", true) || ln.endsWith("Height", true)`. */
  predicate IsHeightName(s: string)
  {
    EqualsIgnoreCase(s, "height") || EndsWithIgnoreCase(s, "Height")
  }

  /** The first test adds nothing: a height name is one ending in "height", in any case. */
  lemma HeightNameIsSuffix(s: string)
    ensures IsHeightName(s) <==> EndsWith(Lower(s), "height")
  {
    assert Lower("Height") == "height";
    assert Lower("height") == "height";
    if EqualsIgnoreCase(s, "height") {
      assert Lower(s)[|Lower(s)| - 6..] == Lower(s);
    }
  }

  function FixAttr(a: Attr, h: string): Attr
  {
    if IsHeightName(a.name) then a.(value := h) else a
  }

  /**
   * The recursive walk: a WP-namespace element with a height name gets the
   * text `h`, and every height-named attribute of a WP-namespace element gets
   * the value `h`; elements of other namespaces are only walked through.
   * Walking the new text node of a height element changes nothing.
   */
  function WithHeights(n: Node, h: string): Node
    decreases n, 1
  {
    match n
    case TextNode(_) => n
    case Element(ns, name, attrs, cs) =>
      if ns == WpNs then
        Element(ns, name, FixAttrs(attrs, h), if IsHeightName(name) then TextChildren(h) else WithHeightsAll(cs, h))
      else n.(children := WithHeightsAll(cs, h))
  }

  function WithHeightsAll(cs: seq<Node>, h: string): seq<Node>
    decreases cs, 0
  {
    seq(|cs|, i requires 0 <= i < |cs| => WithHeights(cs[i], h))
  }

  function FixAttrs(attrs: seq<Attr>, h: string): seq<Attr>
  {
    seq(|attrs|, i requires 0 <= i < |attrs| => FixAttr(attrs[i], h))
  }

  predicate IsWpElement(m: Node)
  {
    m.Element? && m.ns == WpNs
  }

  /** Every height-named WP element holds `h`, and so does every height-named attribute of one. */
  predicate HeightsHold(m: Node, h: string)
  {
    IsWpElement(m) ==>
      (IsHeightName(m.name) ==> m.children == TextChildren(h))
      && forall i :: 0 <= i < |m.attrs| && IsHeightName(m.attrs[i].name) ==> m.attrs[i].value == h
  }

  function HeightsAre(h: string): Node -> bool
  {
    m => HeightsHold(m, h)
  }

  lemma {:induction false} WithHeightsSets(n: Node, h: string)
    ensures Everywhere(WithHeights(n, h), HeightsAre(h))
  {
    match n
    case TextNode(_) =>
    case Element(ns, name, attrs, cs) =>
      var r := WithHeights(n, h);
      if ns == WpNs && IsHeightName(name) {
        TextChildrenHold(h, HeightsAre(h));
      } else {
        forall i | 0 <= i < |cs|
          ensures Everywhere(r.children[i], HeightsAre(h))
        {
          WithHeightsSets(cs[i], h);
        }
      }
  }

  /** The sweep leaves the text of every field whose name is not a height name. */
  lemma {:induction false} WithHeightsKeeps(n: Node, h: string, other: string, w: string)
    requires !IsHeightName(other)
    requires Everywhere(n, FieldIs(other, w))
    ensures Everywhere(WithHeights(n, h), FieldIs(other, w))
  {
    match n
    case TextNode(_) =>
    case Element(ns, name, attrs, cs) =>
      var r := WithHeights(n, h);
      if ns == WpNs && IsHeightName(name) {
        TextChildrenHold(h, FieldIs(other, w));
      } else {
        assert r.children == WithHeightsAll(cs, h);
        forall i | 0 <= i < |cs|
          ensures Everywhere(r.children[i], FieldIs(other, w))
        {
          WithHeightsKeeps(cs[i], h, other, w);
        }
        if IsNamed(n, WpNs, other) {
          assert FieldIs(other, w)(n);
          TextChildrenFixed(w, h, "", "");
        }
      }
  }

  function OutsideWp(): Node -> bool
  {
    m => !IsWpElement(m)
  }

  /** A tree with no WP-namespace element is left as it is. */
  lemma {:induction false} WithHeightsOutsideWp(n: Node, h: string)
    requires Everywhere(n, OutsideWp())
    ensures WithHeights(n, h) == n
  {
    match n
    case TextNode(_) =>
    case Element(ns, name, attrs, cs) =>
      forall i | 0 <= i < |cs|
        ensures WithHeights(cs[i], h) == cs[i]
      {
        WithHeightsOutsideWp(cs[i], h);
      }
      assert WithHeights(n, h).children == cs;
  }

  lemma {:induction false} WithHeightsIdempotent(n: Node, h: string)
    ensures WithHeights(WithHeights(n, h), h) == WithHeights(n, h)
  {
    match n
    case TextNode(_) =>
    case Element(ns, name, attrs, cs) =>
      var r := WithHeights(n, h);
      var rr := WithHeights(r, h);
      if ns == WpNs {
        assert FixAttrs(FixAttrs(attrs, h), h) == FixAttrs(attrs, h);
      }
      if ns == WpNs && IsHeightName(name) {
        TextChildrenFixed(h, h, "", "");
      } else {
        assert r.children == WithHeightsAll(cs, h);
        forall i | 0 <= i < |cs|
          ensures WithHeights(WithHeights(cs[i], h), h) == WithHeights(cs[i], h)
        {
          WithHeightsIdempotent(cs[i], h);
        }
        assert WithHeightsAll(r.children, h) == r.children;
      }
  }

  /** `fixNode`: sets the element's own text and attributes, then walks its children in order. */
  method FixNode(n: Node, h: string) returns (r: Node)
    ensures r == WithHeights(n, h)
    decreases n, 1
  {
    if n.TextNode? {
      return n;
    }
    var attrs := n.attrs;
    var children := n.children;
    if n.ns == WpNs {
      if IsHeightName(n.name) {
        children := TextChildren(h);
      }
      attrs := FixAttributes(attrs, h);
    }
    if !(n.ns == WpNs && IsHeightName(n.name)) {
      children := FixChildren(n.children, h);
    }
    r := Element(n.ns, n.name, attrs, children);
  }

  /** The attribute loop of `fixNode`. */
  method FixAttributes(attrs: seq<Attr>, h: string) returns (r: seq<Attr>)
    ensures r == FixAttrs(attrs, h)
  {
    r := attrs;
    var i := 0;
    while i < |r|
      invariant 0 <= i <= |r| && |r| == |attrs|
      invariant forall k :: 0 <= k < i ==> r[k] == FixAttr(attrs[k], h)
      invariant forall k :: i <= k < |r| ==> r[k] == attrs[k]
    {
      if IsHeightName(r[i].name) {
        r := r[i := r[i].(value := h)];
      }
      i := i + 1;
    }
  }

  /** The sibling loop of `fixNode`: each child is walked in turn. */
  method FixChildren(cs: seq<Node>, h: string) returns (r: seq<Node>)
    ensures r == WithHeightsAll(cs, h)
    decreases cs, 0
  {
    r := cs;
    var j := 0;
    while j < |r|
      invariant 0 <= j <= |r| && |r| == |cs|
      invariant forall k :: 0 <= k < j ==> r[k] == WithHeights(cs[k], h)
      invariant forall k :: j <= k < |r| ==> r[k] == cs[k]
    {
      var fixed := FixNode(cs[j], h);
      r := r[j := fixed];
      j := j + 1;
    }
  }

  // ---------------------------------------------------------------------
  // replaceFolderPlacemarksInDoc
  // ---------------------------------------------------------------------

  function WaypointName(idx: nat): string
  {
    "WP " + NatToString(idx + 1)
  }

  /** The Placemark built for vertex `idx`: a name and a Point holding `lon,lat`. */
  function WaypointPlacemark(idx: nat, c: Coordinate, fmt: real -> string): Node
  {
    NewElement(KmlNs, "Placemark", [
      NewElement(KmlNs, "name", TextChildren(WaypointName(idx))),
      NewElement(KmlNs, "Point", [
        NewElement(KmlNs, "coordinates", TextChildren(fmt(c.longitude) + "," + fmt(c.latitude)))])])
  }

  function WaypointPlacemarks(polygon: seq<Coordinate>, fmt: real -> string): seq<Node>
  {
    seq(|polygon|, i requires 0 <= i < |polygon| => WaypointPlacemark(i, polygon[i], fmt))
  }

  /** The folder with its KML Placemarks removed and one new Placemark per vertex appended. */
  function RebuiltFolder(folder: Node, polygon: seq<Coordinate>, fmt: real -> string): Node
    requires folder.Element?
  {
    folder.(children := Filter(folder.children, NotNamed(KmlNs, "Placemark")) + WaypointPlacemarks(polygon, fmt))
  }

  /** `replaceFolderPlacemarksInDoc`: only the first KML Folder in document order is rebuilt. */
  function WithWaypointPlacemarks(root: Node, polygon: seq<Coordinate>, fmt: real -> string): Node
  {
    match FindFirst(root, Named(KmlNs, "Folder"))
    case None => root
    case Some(p) => ReplaceAt(root, p, RebuiltFolder(At(root, p).value, polygon, fmt))
  }

  /**
   * The rebuilt folder holds exactly one Placemark per vertex, in vertex
   * order, after its other children, which keep their order.
   */
  lemma RebuiltFolderChildren(folder: Node, polygon: seq<Coordinate>, fmt: real -> string)
    requires folder.Element?
    ensures Filter(RebuiltFolder(folder, polygon, fmt).children, Named(KmlNs, "Placemark"))
            == WaypointPlacemarks(polygon, fmt)
    ensures Filter(RebuiltFolder(folder, polygon, fmt).children, NotNamed(KmlNs, "Placemark"))
            == Filter(folder.children, NotNamed(KmlNs, "Placemark"))
    ensures |WaypointPlacemarks(polygon, fmt)| == |polygon|
  {
    var kept := Filter(folder.children, NotNamed(KmlNs, "Placemark"));
    var added := WaypointPlacemarks(polygon, fmt);
    assert RebuiltFolder(folder, polygon, fmt).children == kept + added;
    PlacemarksOnly(kept, added, polygon, fmt);
    OthersOnly(kept, added, polygon, fmt);
  }

  lemma PlacemarksOnly(kept: seq<Node>, added: seq<Node>, polygon: seq<Coordinate>, fmt: real -> string)
    requires forall i :: 0 <= i < |kept| ==> NotNamed(KmlNs, "Placemark")(kept[i])
    requires added == WaypointPlacemarks(polygon, fmt)
    ensures Filter(kept + added, Named(KmlNs, "Placemark")) == added
  {
    var pm := Named(KmlNs, "Placemark");
    FilterAppend(kept, added, pm);
    forall i | 0 <= i < |kept|
      ensures !pm(kept[i])
    {
      assert NotNamed(KmlNs, "Placemark")(kept[i]);
    }
    FilterAllOrNone(kept, pm);
    forall i | 0 <= i < |added|
      ensures pm(added[i])
    {
      assert added[i] == WaypointPlacemark(i, polygon[i], fmt);
    }
    FilterAllOrNone(added, pm);
  }

  lemma OthersOnly(kept: seq<Node>, added: seq<Node>, polygon: seq<Coordinate>, fmt: real -> string)
    requires forall i :: 0 <= i < |kept| ==> NotNamed(KmlNs, "Placemark")(kept[i])
    requires added == WaypointPlacemarks(polygon, fmt)
    ensures Filter(kept + added, NotNamed(KmlNs, "Placemark")) == kept
  {
    var other := NotNamed(KmlNs, "Placemark");
    FilterAppend(kept, added, other);
    FilterAllOrNone(kept, other);
    forall i | 0 <= i < |added|
      ensures !other(added[i])
    {
      assert added[i] == WaypointPlacemark(i, polygon[i], fmt);
    }
    FilterAllOrNone(added, other);
  }

  /** Placemark `i` is named "WP i+1" and its point holds the vertex, longitude first. */
  lemma WaypointPlacemarkContents(polygon: seq<Coordinate>, fmt: real -> string, i: nat)
    requires i < |polygon|
    ensures var pm := WaypointPlacemarks(polygon, fmt)[i];
      && IsNamed(pm, KmlNs, "Placemark")
      && At(pm, [0]).Some? && IsNamed(At(pm, [0]).value, KmlNs, "name")
      && TextContent(At(pm, [0]).value) == "WP " + NatToString(i + 1)
      && At(pm, [1, 0]).Some? && IsNamed(At(pm, [1, 0]).value, KmlNs, "coordinates")
      && TextContent(At(pm, [1, 0]).value)
         == fmt(polygon[i].longitude) + "," + fmt(polygon[i].latitude)
  {
    var pm := WaypointPlacemarks(polygon, fmt)[i];
    SetTextReadsBack(NewElement(KmlNs, "name", []), WaypointName(i));
    SetTextReadsBack(NewElement(KmlNs, "coordinates", []),
                     fmt(polygon[i].longitude) + "," + fmt(polygon[i].latitude));
    assert [1, 0][1..] == [0];
  }

  /** With no KML Folder anywhere, the document is unchanged. */
  lemma NoFolderUnchanged(root: Node, polygon: seq<Coordinate>, fmt: real -> string)
    requires forall q :: At(root, q).Some? ==> !IsNamed(At(root, q).value, KmlNs, "Folder")
    ensures WithWaypointPlacemarks(root, polygon, fmt) == root
  {
    FindFirstNoneIff(root, Named(KmlNs, "Folder"));
  }

  /**
   * Otherwise the first Folder is replaced by its rebuilt form and every
   * node off its branch stays where and as it was.
   */
  lemma FirstFolderRebuilt(root: Node, polygon: seq<Coordinate>, fmt: real -> string, q: Path)
    requires FindFirst(root, Named(KmlNs, "Folder")).Some?
    ensures var p := FindFirst(root, Named(KmlNs, "Folder")).value;
      At(WithWaypointPlacemarks(root, polygon, fmt), p)
        == Some(RebuiltFolder(At(root, p).value, polygon, fmt))
      && (Diverge(p, q) ==> At(WithWaypointPlacemarks(root, polygon, fmt), q) == At(root, q))
  {
    var p := FindFirst(root, Named(KmlNs, "Folder")).value;
    var folder := RebuiltFolder(At(root, p).value, polygon, fmt);
    ReplaceAtHits(root, p, folder);
    if Diverge(p, q) {
      ReplaceAtElsewhere(root, p, q, folder);
    }
  }

  /**
   * A property that holds of every node outside the WP namespace, and that
   * does not look at the children of an element with element children,
   * survives the Placemark rebuild: the rebuild only adds KML elements.
   */
  lemma PlacemarkRebuildKeeps(root: Node, polygon: seq<Coordinate>, fmt: real -> string, P: Node -> bool)
    requires Everywhere(root, P)
    requires forall m: Node :: !IsWpElement(m) ==> P(m)
    requires ChildInsensitive(P)
    ensures Everywhere(WithWaypointPlacemarks(root, polygon, fmt), P)
  {
    match FindFirst(root, Named(KmlNs, "Folder"))
    case None =>
    case Some(p) =>
      var folder := At(root, p).value;
      EverywhereAt(root, P, p);
      var f := RebuiltFolder(folder, polygon, fmt);
      var kept := Filter(folder.children, NotNamed(KmlNs, "Placemark"));
      var added := WaypointPlacemarks(polygon, fmt);
      forall i | 0 <= i < |f.children|
        ensures Everywhere(f.children[i], P)
      {
        if i < |kept| {
          assert f.children[i] == kept[i];
          EverywhereMember(folder.children, P, kept[i]);
        } else {
          assert f.children[i] == added[i - |kept|];
          WaypointPlacemarkHolds(i - |kept|, polygon[i - |kept|], fmt, P);
        }
      }
      EverywhereReplaceAt(root, P, p, f);
  }

  lemma WaypointPlacemarkHolds(idx: nat, c: Coordinate, fmt: real -> string, P: Node -> bool)
    requires forall m: Node :: !IsWpElement(m) ==> P(m)
    ensures Everywhere(WaypointPlacemark(idx, c, fmt), P)
  {
    var coords := NewElement(KmlNs, "coordinates", TextChildren(fmt(c.longitude) + "," + fmt(c.latitude)));
    var name := NewElement(KmlNs, "name", TextChildren(WaypointName(idx)));
    assert Everywhere(coords, P);
    assert Everywhere(NewElement(KmlNs, "Point", [coords]), P);
    assert Everywhere(name, P);
  }

  /** `replaceFolderPlacemarksInDoc` on the folder it found: remove the old Placemarks, append the new ones. */
  method RebuildFolder(folder: Node, polygon: seq<Coordinate>, fmt: real -> string) returns (f: Node)
    requires folder.Element?
    ensures f == RebuiltFolder(folder, polygon, fmt)
  {
    var kept := RemovePlacemarks(folder.children);
    var added := NewPlacemarks(polygon, fmt);
    f := folder.(children := kept + added);
  }

  /** The first loop: every child that is a KML Placemark is removed, the others stay in order. */
  method RemovePlacemarks(children: seq<Node>) returns (kept: seq<Node>)
    ensures kept == Filter(children, NotNamed(KmlNs, "Placemark"))
  {
    kept := [];
    var i := 0;
    while i < |children|
      invariant 0 <= i <= |children|
      invariant kept == Filter(children[..i], NotNamed(KmlNs, "Placemark"))
    {
      assert children[..i + 1][..i] == children[..i];
      if !IsNamed(children[i], KmlNs, "Placemark") {
        kept := kept + [children[i]];
      }
      i := i + 1;
    }
    assert children[..i] == children;
  }

  /** The second loop: one Placemark per vertex, appended in vertex order. */
  method NewPlacemarks(polygon: seq<Coordinate>, fmt: real -> string) returns (added: seq<Node>)
    ensures added == WaypointPlacemarks(polygon, fmt)
  {
    added := [];
    var idx := 0;
    while idx < |polygon|
      invariant 0 <= idx <= |polygon| && |added| == idx
      invariant forall k :: 0 <= k < idx ==> added[k] == WaypointPlacemark(k, polygon[k], fmt)
    {
      var c := polygon[idx];
      var name := NewElement(KmlNs, "name", TextChildren("WP " + NatToString(idx + 1)));
      var coords := NewElement(KmlNs, "coordinates", TextChildren(fmt(c.longitude) + "," + fmt(c.latitude)));
      var point := NewElement(KmlNs, "Point", [coords]);
      added := added + [NewElement(KmlNs, "Placemark", [name, point])];
      idx := idx + 1;
    }
  }

  // ---------------------------------------------------------------------
  // buildKmlCoordinatesText and updateFirstPolygonCoordinates
  // ---------------------------------------------------------------------

  /** One vertex line: two spaces, `lon,lat,0`, a line feed. */
  function VertexLine(c: Coordinate, fmt: real -> string): string
  {
    "  " + KmlUtils.CoordToken(c, fmt) + "\n"
  }

  function VertexLines(pts: seq<Coordinate>, fmt: real -> string): string
  {
    if pts == [] then "" else VertexLine(pts[0], fmt) + VertexLines(pts[1..], fmt)
  }

  lemma {:induction false} VertexLinesSnoc(pts: seq<Coordinate>, c: Coordinate, fmt: real -> string)
    ensures VertexLines(pts + [c], fmt) == VertexLines(pts, fmt) + VertexLine(c, fmt)
    decreases |pts|
  {
    if pts == [] {
      assert pts + [c] == [c];
    } else {
      assert (pts + [c])[1..] == pts[1..] + [c];
      VertexLinesSnoc(pts[1..], c, fmt);
    }
  }

  /** `buildKmlCoordinatesText`: the vertex lines with the trailing whitespace trimmed. */
  function CoordinatesText(pts: seq<Coordinate>, fmt: real -> string): string
  {
    TrimEnd(VertexLines(pts, fmt))
  }

  method BuildKmlCoordinatesText(polygon: seq<Coordinate>, fmt: real -> string) returns (text: string)
    ensures text == CoordinatesText(polygon, fmt)
  {
    var sb := "";
    var i := 0;
    while i < |polygon|
      invariant 0 <= i <= |polygon|
      invariant sb == VertexLines(polygon[..i], fmt)
    {
      var c := polygon[i];
      VertexLinesSnoc(polygon[..i], c, fmt);
      assert polygon[..i + 1] == polygon[..i] + [c];
      var line := "  " + fmt(c.longitude) + "," + fmt(c.latitude) + ",0\n";
      assert line == VertexLine(c, fmt);
      sb := sb + line;
      i := i + 1;
    }
    assert polygon[..i] == polygon;
    text := TrimEnd(sb);
  }

  /** Only the final line feed is trimmed: every line ends in the altitude `0`. */
  lemma {:induction false} CoordinatesTextDropsFinalNewline(pts: seq<Coordinate>, fmt: real -> string)
    ensures pts == [] ==> CoordinatesText(pts, fmt) == ""
    ensures pts != [] ==> CoordinatesText(pts, fmt) + "\n" == VertexLines(pts, fmt)
  {
    if pts != [] {
      var last := pts[|pts| - 1];
      var init := pts[..|pts| - 1];
      assert init + [last] == pts;
      VertexLinesSnoc(init, last, fmt);
      var s := VertexLines(pts, fmt);
      assert s == VertexLines(init, fmt) + ("  " + KmlUtils.CoordToken(last, fmt)) + "\n";
      assert s[|s| - 2] == '0';
      assert s[..|s| - 1] == VertexLines(init, fmt) + ("  " + KmlUtils.CoordToken(last, fmt));
      assert TrimEnd(s[..|s| - 1]) == s[..|s| - 1];
    }
  }

  /** A `coordinates` element as `getElementsByTagNameNS(KML_NS, "coordinates")` finds it. */
  function CoordinatesElement(): Node -> bool
  {
    Named(KmlNs, "coordinates")
  }

  /**
   * A LinearRing with a `coordinates` element below it.  The ring itself is
   * never one, so searching its subtree finds the same first element as
   * searching its descendants.
   */
  function RingWithCoordinates(): Node -> bool
  {
    n => IsNamed(n, KmlNs, "LinearRing") && FindFirst(n, CoordinatesElement()).Some?
  }

  /**
   * The element `updateFirstPolygonCoordinates` rewrites: the first
   * `coordinates` under the first LinearRing that has one, else the first
   * `coordinates` anywhere.
   */
  function CoordinatesTarget(root: Node): (r: Option<Path>)
    ensures r.Some? ==> At(root, r.value).Some? && IsNamed(At(root, r.value).value, KmlNs, "coordinates")
  {
    match FindFirst(root, RingWithCoordinates())
    case Some(rp) =>
      var sub := FindFirst(At(root, rp).value, CoordinatesElement()).value;
      AtAppend(root, rp, sub);
      Some(rp + sub)
    case None => FindFirst(root, CoordinatesElement())
  }

  /** The document after `updateFirstPolygonCoordinates`, and what it returns. */
  function WithPolygonCoordinates(root: Node, polygon: seq<Coordinate>, fmt: real -> string): (Node, bool)
  {
    match CoordinatesTarget(root)
    case None => (root, false)
    case Some(p) =>
      (ReplaceAt(root, p, SetText(At(root, p).value, "\n" + CoordinatesText(polygon, fmt) + "\n")), true)
  }

  /** It reports false, leaving the document as it was, exactly when there is no KML `coordinates` element. */
  lemma UpdateFailsIff(root: Node, polygon: seq<Coordinate>, fmt: real -> string)
    ensures !WithPolygonCoordinates(root, polygon, fmt).1
            <==> forall q :: At(root, q).Some? ==> !IsNamed(At(root, q).value, KmlNs, "coordinates")
    ensures !WithPolygonCoordinates(root, polygon, fmt).1 ==> WithPolygonCoordinates(root, polygon, fmt).0 == root
  {
    FindFirstNoneIff(root, CoordinatesElement());
    var t := CoordinatesTarget(root);
    if t.Some? {
      assert At(root, t.value).Some? && IsNamed(At(root, t.value).value, KmlNs, "coordinates");
    }
  }

  /**
   * Otherwise exactly one element changes: the target `coordinates` element,
   * whose text becomes the vertex lines between two line feeds.
   */
  lemma UpdateRewritesTarget(root: Node, polygon: seq<Coordinate>, fmt: real -> string, q: Path)
    requires CoordinatesTarget(root).Some?
    ensures var p := CoordinatesTarget(root).value;
      var r := WithPolygonCoordinates(root, polygon, fmt).0;
      && At(r, p).Some? && IsNamed(At(r, p).value, KmlNs, "coordinates")
      && At(r, p).value.attrs == At(root, p).value.attrs
      && TextContent(At(r, p).value) == "\n" + CoordinatesText(polygon, fmt) + "\n"
      && (Diverge(p, q) ==> At(r, q) == At(root, q))
  {
    var p := CoordinatesTarget(root).value;
    var e := SetText(At(root, p).value, "\n" + CoordinatesText(polygon, fmt) + "\n");
    ReplaceAtHits(root, p, e);
    SetTextReadsBack(At(root, p).value, "\n" + CoordinatesText(polygon, fmt) + "\n");
    if Diverge(p, q) {
      ReplaceAtElsewhere(root, p, q, e);
    }
  }

  /** When some LinearRing holds a `coordinates` element, the target lies inside the first such ring. */
  lemma RingPreferred(root: Node, q: Path)
    requires At(root, q).Some? && RingWithCoordinates()(At(root, q).value)
    ensures FindFirst(root, RingWithCoordinates()).Some?
    ensures var rp := FindFirst(root, RingWithCoordinates()).value;
      !Before(q, rp) && CoordinatesTarget(root).Some? && CoordinatesTarget(root).value[..|rp|] == rp
  {
    FindFirstNoneIff(root, RingWithCoordinates());
    var rp := FindFirst(root, RingWithCoordinates()).value;
    if Before(q, rp) {
      NothingEarlier(root, RingWithCoordinates(), q);
    }
    var sub := FindFirst(At(root, rp).value, CoordinatesElement()).value;
    assert (rp + sub)[..|rp|] == rp;
  }

  // ---------------------------------------------------------------------
  // The vertex text read back by the KML extractor
  // ---------------------------------------------------------------------

  /** What the number formatter must satisfy for the vertex tokens to be recognised: no whitespace. */
  predicate PrintsTokens(pts: seq<Coordinate>, fmt: real -> string)
  {
    forall i :: 0 <= i < |pts| ==>
      KmlUtils.NoWhitespace(fmt(pts[i].longitude)) && KmlUtils.NoWhitespace(fmt(pts[i].latitude))
  }

  lemma PrintsTokensTail(pts: seq<Coordinate>, fmt: real -> string)
    requires pts != [] && PrintsTokens(pts, fmt)
    ensures PrintsTokens(pts[1..], fmt)
  {
    forall i | 0 <= i < |pts| - 1
      ensures KmlUtils.NoWhitespace(fmt(pts[1..][i].longitude)) && KmlUtils.NoWhitespace(fmt(pts[1..][i].latitude))
    {
      assert pts[1..][i] == pts[i + 1];
    }
  }

  lemma TokenNoSpace(c: Coordinate, fmt: real -> string)
    requires KmlUtils.NoWhitespace(fmt(c.longitude)) && KmlUtils.NoWhitespace(fmt(c.latitude))
    ensures KmlUtils.NoWhitespace(KmlUtils.CoordToken(c, fmt))
  {
    var lon, lat := fmt(c.longitude), fmt(c.latitude);
    assert KmlUtils.NoWhitespace(",") && KmlUtils.NoWhitespace(",0");
    KmlUtils.NoWhitespaceConcat(lon, ",");
    KmlUtils.NoWhitespaceConcat(lon + ",", lat);
    KmlUtils.NoWhitespaceConcat(lon + "," + lat, ",0");
  }

  function VertexTokens(pts: seq<Coordinate>, fmt: real -> string): seq<string>
  {
    seq(|pts|, i requires 0 <= i < |pts| => KmlUtils.CoordToken(pts[i], fmt))
  }

  lemma {:induction false} VertexLinesTokens(pts: seq<Coordinate>, fmt: real -> string)
    requires PrintsTokens(pts, fmt)
    ensures KmlUtils.Tokens(VertexLines(pts, fmt)) == VertexTokens(pts, fmt)
    decreases |pts|
  {
    if pts == [] {
      assert KmlUtils.Tokens("") == [] by { assert IsBlank(""); }
    } else {
      var tok := KmlUtils.CoordToken(pts[0], fmt);
      var rest := VertexLines(pts[1..], fmt);
      PrintsTokensTail(pts, fmt);
      VertexLinesTokens(pts[1..], fmt);
      TokenNoSpace(pts[0], fmt);
      assert VertexLines(pts, fmt) == "  " + (tok + ['\n'] + rest);
      KmlUtils.LeadingSpacesIgnored("  ", tok + ['\n'] + rest);
      assert NoSep(tok, IsRegexSpace);
      SplitAtSep(tok, '\n', rest, IsRegexSpace);
      assert !IsBlank(tok) by { assert !IsWhitespace(tok[0]); }
      var x := Split(rest, IsRegexSpace);
      assert ([tok] + x)[0] == tok && ([tok] + x)[1..] == x;
      assert VertexTokens(pts, fmt) == [tok] + VertexTokens(pts[1..], fmt);
    }
  }

  /** The text written into the target element splits into one `lon,lat,0` token per vertex, in order. */
  lemma WrittenTextTokens(pts: seq<Coordinate>, fmt: real -> string)
    requires PrintsTokens(pts, fmt)
    ensures KmlUtils.Tokens("\n" + CoordinatesText(pts, fmt) + "\n") == VertexTokens(pts, fmt)
  {
    CoordinatesTextDropsFinalNewline(pts, fmt);
    VertexLinesTokens(pts, fmt);
    if pts == [] {
      assert "\n" + CoordinatesText(pts, fmt) + "\n" == "\n\n";
      KmlUtils.LeadingSpacesIgnored("\n\n", "");
      assert "\n\n" + "" == "\n\n";
    } else {
      assert "\n" + CoordinatesText(pts, fmt) + "\n" == "\n" + VertexLines(pts, fmt);
      KmlUtils.LeadingSpacesIgnored("\n", VertexLines(pts, fmt));
    }
  }

  /**
   * `"%.7f"` rounds: `fmt` prints each vertex coordinate as comma- and
   * whitespace-free text that the number parser reads as `round` of it.
   */
  predicate PrintsRounded(pts: seq<Coordinate>, fmt: real -> string, parseNum: string -> Option<real>,
                          round: real -> real)
  {
    forall i :: 0 <= i < |pts| ==>
      && KmlUtils.ReadsBackAs(pts[i].longitude, fmt, parseNum, round(pts[i].longitude))
      && KmlUtils.ReadsBackAs(pts[i].latitude, fmt, parseNum, round(pts[i].latitude))
  }

  /** The vertices as the written text states them: each coordinate rounded. */
  function Rounded(pts: seq<Coordinate>, round: real -> real): (r: seq<Coordinate>)
    ensures |r| == |pts|
  {
    seq(|pts|, i requires 0 <= i < |pts| => KmlUtils.Coordinate(round(pts[i].latitude), round(pts[i].longitude)))
  }

  /**
   * The app's own KML reader recovers the rounded vertices from the written
   * text (minus a closing duplicate), in order.
   */
  lemma WrittenTextParsesBack(pts: seq<Coordinate>, fmt: real -> string, parseNum: string -> Option<real>,
                              round: real -> real)
    requires PrintsRounded(pts, fmt, parseNum, round)
    ensures KmlUtils.ParseCoordinateText("\n" + CoordinatesText(pts, fmt) + "\n", parseNum)
            == KmlUtils.StripClosure(Rounded(pts, round))
  {
    forall i | 0 <= i < |pts|
      ensures KmlUtils.NoWhitespace(fmt(pts[i].longitude)) && KmlUtils.NoWhitespace(fmt(pts[i].latitude))
    {
      assert KmlUtils.ReadsBackAs(pts[i].longitude, fmt, parseNum, round(pts[i].longitude));
      assert KmlUtils.ReadsBackAs(pts[i].latitude, fmt, parseNum, round(pts[i].latitude));
    }
    WrittenTextTokens(pts, fmt);
    ParseVertexTokens(pts, fmt, parseNum, round);
  }

  lemma {:induction false} ParseVertexTokens(pts: seq<Coordinate>, fmt: real -> string,
                                             parseNum: string -> Option<real>, round: real -> real)
    requires PrintsRounded(pts, fmt, parseNum, round)
    ensures KmlUtils.ParseTokens(VertexTokens(pts, fmt), parseNum) == Rounded(pts, round)
    decreases |pts|
  {
    if pts != [] {
      var rest := pts[1..];
      var c := pts[0];
      var read := KmlUtils.Coordinate(round(c.latitude), round(c.longitude));
      PrintsRoundedTail(pts, fmt, parseNum, round);
      ParseVertexTokens(rest, fmt, parseNum, round);
      KmlUtils.TokenFacts(c, read, fmt, parseNum);
      VertexTokensCons(pts, fmt);
      RoundedCons(pts, round);
      KmlUtils.ParseTokensAppend([KmlUtils.CoordToken(c, fmt)], VertexTokens(rest, fmt), parseNum);
    }
  }

  lemma PrintsRoundedTail(pts: seq<Coordinate>, fmt: real -> string, parseNum: string -> Option<real>,
                          round: real -> real)
    requires pts != [] && PrintsRounded(pts, fmt, parseNum, round)
    ensures PrintsRounded(pts[1..], fmt, parseNum, round)
    ensures KmlUtils.ReadsBackAs(pts[0].longitude, fmt, parseNum, round(pts[0].longitude))
    ensures KmlUtils.ReadsBackAs(pts[0].latitude, fmt, parseNum, round(pts[0].latitude))
  {
    var rest := pts[1..];
    forall i | 0 <= i < |rest|
      ensures KmlUtils.ReadsBackAs(rest[i].longitude, fmt, parseNum, round(rest[i].longitude))
      ensures KmlUtils.ReadsBackAs(rest[i].latitude, fmt, parseNum, round(rest[i].latitude))
    {
      assert rest[i] == pts[i + 1];
    }
  }

  lemma VertexTokensCons(pts: seq<Coordinate>, fmt: real -> string)
    requires pts != []
    ensures VertexTokens(pts, fmt) == [KmlUtils.CoordToken(pts[0], fmt)] + VertexTokens(pts[1..], fmt)
  {
  }

  lemma RoundedCons(pts: seq<Coordinate>, round: real -> real)
    requires pts != []
    ensures Rounded(pts, round)
            == [KmlUtils.Coordinate(round(pts[0].latitude), round(pts[0].longitude))] + Rounded(pts[1..], round)
  {
  }

  // ---------------------------------------------------------------------
  // The parsed document, updated in place
  // ---------------------------------------------------------------------

  /** A parsed XML document; the rewrites replace its tree. */
  class Document {
    var root: Node

    constructor (root: Node)
      ensures this.root == root
    {
      this.root := root;
    }

    /** `setAllTexts`: a null value changes nothing. */
    method SetAllTexts(localName: string, value: Option<string>)
      modifies this
      ensures root == if value.Some? then WithTexts(old(root), localName, value.value) else old(root)
    {
      if value.None? {
        return;
      }
      root := WithTexts(root, localName, value.value);
    }

    /** `normalizeAllHeights`, walking from the document element. */
    method NormalizeAllHeights(h: string)
      modifies this
      ensures root == WithHeights(old(root), h)
    {
      root := FixNode(root, h);
    }

    method ReplaceFolderPlacemarks(polygon: seq<Coordinate>, fmt: real -> string)
      modifies this
      ensures root == WithWaypointPlacemarks(old(root), polygon, fmt)
    {
      var found := FindFirst(root, Named(KmlNs, "Folder"));
      if found.None? {
        return;
      }
      var folder := RebuildFolder(At(root, found.value).value, polygon, fmt);
      root := ReplaceAt(root, found.value, folder);
    }

    method UpdateFirstPolygonCoordinates(polygon: seq<Coordinate>, fmt: real -> string) returns (updated: bool)
      modifies this
      ensures (root, updated) == WithPolygonCoordinates(old(root), polygon, fmt)
    {
      var coordText := BuildKmlCoordinatesText(polygon, fmt);
      var target := CoordinatesTarget(root);
      if target.None? {
        return false;
      }
      root := ReplaceAt(root, target.value, SetText(At(root, target.value).value, "\n" + coordText + "\n"));
      return true;
    }
  }
}
