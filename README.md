# ATAK2Drone mission generation, modelled in Dafny

ATAK2Drone turns a polygon drawn in ATAK and exported as KML into a DJI
Pilot 2 mission package. The picker also offers KMZ files, but the picked bytes
go to the KML pull parser unopened, so a KMZ pick is reported as an invalid
polygon. A KMZ template is chosen by altitude bucket and
camera type. Its `waylines.wpml` descriptor is rewritten: aircraft and payload
identifiers, every height field, and one waypoint Placemark per vertex. The
polygon is also written into the template's auxiliary KML files and nested
KMZ archives, and the result is zipped into `<mission>.kmz`. The screen lets
the user pick the KML and a destination folder, type a mission name, and
choose the altitude and camera. The Generate button is enabled only when every
input is acceptable.

The model covers three parts of that code.

- `KmlUtils` (`kml_utils.dfy`) covers the KML side.
  - The single-pass polygon extractor is a `while` loop over an abstract stream of pull-parser events (`Start`, `End`, `Coords`).
  - The loop is proved equal to a fold of a step function, `Scan`. `ExtractPolygon` picks the winner from the scan's three first-capture slots.
  - It also models the coordinate-text tokenizer, the closing-point strip, the 3-vertex check, `escapeXml`, and `buildMinimalPolygonKml` (a `StringBuilder` loop).
  - Build and extract are proved to round-trip.
- `XmlTree` (`xml_tree.dfy`) models the DOM as an immutable tree addressed by child-index paths.
  - `FindFirst` is document order, which is what `getElementsByTagNameNS(..).item(0)` returns.
  - `Everywhere` states that a property holds at every node.
- `WpmlDocument` (`wpml_document.dfy`) covers the in-place DOM edits.
  - The edits are `setAllTexts`, the height sweep, the Placemark rebuild, and the first-ring coordinate update.
  - They are methods of a `Document` class whose `root` they reassign. Each method is tied to a function of the old tree, and the promises are proved about those functions.
- `WpmlGenerator` (`wpml_generator.dfy`) covers the template pipeline.
  - Template choice, the waylines field list, and descriptor location.
  - The nested-KMZ rewrite (a loop that collects entries and the preferred `doc.kml` index), and the two rewrite passes over the unpacked template.
  - `generateFromTemplateKmz` end to end, down to the bytes that are zipped.
- `MainActivity` (`main_activity.dfy`) covers the screen.
  - The mission-name regular expression is a small piece matcher, proved equal to the plain rule.
  - The `Activity` class holds the fields that the picker and text-change callbacks update. It keeps the Generate-button gate as its invariant.
  - It also covers the Generate-click checks, extension guessing, the temp-file suffix default, and the pretty path for a storage tree URI.

`Text` (`text.dfy`) holds the shared string helpers: Kotlin `trim`/`isBlank`,
`split` (which keeps empty fields), and ASCII lower-casing.

The design description speaks of cloning a prototype Placemark for each
waypoint. The code builds fresh minimal Placemarks (name, then Point with
coordinates), and the model follows the code.

## Model

| member | source | states |
|---|---|---|
| Text.SplitAtSep | app/src/main/java/com/example/atak2drone/utils/KmlUtils.kt:164-168 | splitting at the first separator yields the separator-free prefix followed by the split of the rest |
| Text.SplitTrailingSep | app/src/main/java/com/example/atak2drone/utils/KmlUtils.kt:164-168 | a trailing separator yields a trailing empty field, as Kotlin `split` does |
| Text.TrimBlank | app/src/main/java/com/example/atak2drone/MainActivity.kt:200-202 | a string trims to empty exactly when it is blank; a non-empty trim starts with a non-whitespace character |
| KmlUtils.OnStartTag | app/src/main/java/com/example/atak2drone/utils/KmlUtils.kt:41-74 | the start-tag arm of the loop computes the scan step for that tag (scope entry, depth count) |
| KmlUtils.OnCoordinatesText | app/src/main/java/com/example/atak2drone/utils/KmlUtils.kt:55-69 | the `coordinates` arm computes the capture step on the trimmed text |
| KmlUtils.OnEndTag | app/src/main/java/com/example/atak2drone/utils/KmlUtils.kt:75-99 | the end-tag arm computes the scope-exit step |
| KmlUtils.ScanEvents | app/src/main/java/com/example/atak2drone/utils/KmlUtils.kt:26-102 | the event loop ends in exactly the state the step function folded over all events gives |
| KmlUtils.ParseSinglePolygonFromKml | app/src/main/java/com/example/atak2drone/utils/KmlUtils.kt:22-119 | the parser returns the extraction result for the event stream, and a successful parse has at least 3 points |
| KmlUtils.ExtractOutcome | app/src/main/java/com/example/atak2drone/utils/KmlUtils.kt:104-118 | the generic error iff nothing was captured; the LineString error iff only a LineString was captured; otherwise the Polygon capture wins over the LinearRing capture, and a success has at least 3 points |
| KmlUtils.StepSlot | app/src/main/java/com/example/atak2drone/utils/KmlUtils.kt:57-63 | a capture slot changes only on non-blank coordinates text seen while its scope wins, and then takes the trimmed text |
| KmlUtils.CaptureSlot | app/src/main/java/com/example/atak2drone/utils/KmlUtils.kt:59-63 | a capture fills a slot exactly when that slot's scope is the first open and still empty one |
| KmlUtils.TagsKeepSlots | app/src/main/java/com/example/atak2drone/utils/KmlUtils.kt:41-99 | tag events never change the captured texts |
| KmlUtils.SlotSticky | app/src/main/java/com/example/atak2drone/utils/KmlUtils.kt:60-62 | once a slot is filled, no later event changes it: only the first capture per scope is kept |
| KmlUtils.CapturedTextNotBlank | app/src/main/java/com/example/atak2drone/utils/KmlUtils.kt:57-58 | every captured text is non-blank: whitespace-only coordinates are never captured |
| KmlUtils.PolygonSlotBeforeRingSlot | app/src/main/java/com/example/atak2drone/utils/KmlUtils.kt:60-61 | coordinates inside a LinearRing inside a Polygon fill the Polygon slot and leave the LinearRing slot alone |
| KmlUtils.ValidatePolygon | app/src/main/java/com/example/atak2drone/utils/KmlUtils.kt:183-187 | succeeds, returning the ring unchanged, iff it has at least 3 points; otherwise the too-few-points error |
| KmlUtils.StripClosure | app/src/main/java/com/example/atak2drone/utils/KmlUtils.kt:177-180 | the result is the input, or the input minus exactly its last point when the ring is closed; order is kept |
| KmlUtils.ClosedRingStripped | app/src/main/java/com/example/atak2drone/utils/KmlUtils.kt:177-190 | with 2 or more points whose first and last agree within 1e-9 in latitude and longitude, exactly the last point goes |
| KmlUtils.NonBlank | app/src/main/java/com/example/atak2drone/utils/KmlUtils.kt:167 | blank tokens are dropped |
| KmlUtils.ParseTokensAppend | app/src/main/java/com/example/atak2drone/utils/KmlUtils.kt:163-175 | token parsing works token by token and keeps token order |
| KmlUtils.MalformedTokenDropped | app/src/main/java/com/example/atak2drone/utils/KmlUtils.kt:166-173 | a token that fails to parse is dropped without error and without disturbing its neighbours |
| KmlUtils.ExtraFieldsIgnored | app/src/main/java/com/example/atak2drone/utils/KmlUtils.kt:168-172 | fields after the second are ignored; field 0 is the longitude and field 1 the latitude; a field that fails to parse drops the point |
| KmlUtils.SingleFieldDropped | app/src/main/java/com/example/atak2drone/utils/KmlUtils.kt:169-173 | a token without a comma gives no point |
| KmlUtils.LeadingSpacesIgnored | app/src/main/java/com/example/atak2drone/utils/KmlUtils.kt:164-167 | leading whitespace does not change the token list |
| KmlUtils.TrailingSpacesIgnored | app/src/main/java/com/example/atak2drone/utils/KmlUtils.kt:164-167 | trailing whitespace does not change the token list |
| KmlUtils.TrimKeepsTokens | app/src/main/java/com/example/atak2drone/utils/KmlUtils.kt:57 | trimming the captured text before splitting it on whitespace does not change the tokens |
| KmlUtils.EscapeXmlIsPerCharacter | app/src/main/java/com/example/atak2drone/utils/KmlUtils.kt:192-197 | the five chained replacements, `&` first, act as one per-character escape |
| KmlUtils.EscapeXmlOne | app/src/main/java/com/example/atak2drone/utils/KmlUtils.kt:192-197 | each character escapes to its own entity or to itself |
| KmlUtils.EscapeXmlHasNoMarkup | app/src/main/java/com/example/atak2drone/utils/KmlUtils.kt:192-197 | the escaped text contains none of `<`, `>`, `"` or `'` |
| KmlUtils.UnescapeEscapeXml | app/src/main/java/com/example/atak2drone/utils/KmlUtils.kt:192-197 | un-escaping the escaped text gives back the input |
| KmlUtils.AppendCoordinateLines | app/src/main/java/com/example/atak2drone/utils/KmlUtils.kt:143-148 | the loop appends one `lon,lat,0` line per vertex, in input order |
| KmlUtils.CoordinateLinesSnoc | app/src/main/java/com/example/atak2drone/utils/KmlUtils.kt:143-148 | the vertex lines of a list extended by one point end with that point's line |
| KmlUtils.BuildMinimalPolygonKml | app/src/main/java/com/example/atak2drone/utils/KmlUtils.kt:125-157 | fewer than 3 points is refused; otherwise the result is the minimal document around the vertex lines |
| KmlUtils.LinesParseBack | app/src/main/java/com/example/atak2drone/utils/KmlUtils.kt:143-176 | when each vertex's coordinates print as comma- and whitespace-free text the parser reads back exactly, the written vertex lines parse back to the same points |
| KmlUtils.BlockParsesBack | app/src/main/java/com/example/atak2drone/utils/KmlUtils.kt:142-180 | under the same per-vertex printer assumption, the built `coordinates` text is non-blank and parses back to the points minus a closing duplicate |
| KmlUtils.PolygonFromIdle | app/src/main/java/com/example/atak2drone/utils/KmlUtils.kt:43-99 | scanning Polygon/outerBoundaryIs/LinearRing/coordinates from outside every scope captures the text in the Polygon slot and leaves every scope |
| KmlUtils.ScanBuiltDocument | app/src/main/java/com/example/atak2drone/utils/KmlUtils.kt:125-157 | scanning the built document captures its coordinates text in the Polygon slot |
| KmlUtils.BuildThenExtract | app/src/main/java/com/example/atak2drone/utils/KmlUtils.kt:125-157 | under the per-vertex printer assumption, extracting the polygon from a built document returns the original points (3 or more, not closed) |
| KmlUtils.BuildThenExtractTriangle | app/src/main/java/com/example/atak2drone/utils/KmlUtils.kt:125-157 | the round trip holds for a concrete unit triangle with a printer and parser that agree on its coordinates, so its assumption can be met |
| XmlTree.Filter | app/src/main/java/com/example/atak2drone/utils/WpmlGenerator.kt:118-126 | the kept children all satisfy the test, are drawn from the input, and are no more than it |
| XmlTree.FilterAppend | app/src/main/java/com/example/atak2drone/utils/WpmlGenerator.kt:118-126 | filtering keeps relative order across a concatenation |
| XmlTree.SetTextReadsBack | app/src/main/java/com/example/atak2drone/utils/WpmlGenerator.kt:61 | after setting an element's text content, reading it back gives the new text |
| XmlTree.FindFirst | app/src/main/java/com/example/atak2drone/utils/WpmlGenerator.kt:113-115 | a found path leads to a node satisfying the test |
| XmlTree.NothingEarlier | app/src/main/java/com/example/atak2drone/utils/WpmlGenerator.kt:113-115 | no node earlier in document order than the one found satisfies the test |
| XmlTree.FindFirstNoneIff | app/src/main/java/com/example/atak2drone/utils/WpmlGenerator.kt:113-114 | nothing is found iff no node in the tree satisfies the test |
| XmlTree.ReplaceAtHits | app/src/main/java/com/example/atak2drone/utils/WpmlGenerator.kt:156-163 | an in-place edit at a path puts the new node at that path |
| XmlTree.ReplaceAtElsewhere | app/src/main/java/com/example/atak2drone/utils/WpmlGenerator.kt:156-163 | an edit at a path leaves every node on a diverging path as it was |
| WpmlDocument.Document.SetAllTexts | app/src/main/java/com/example/atak2drone/utils/WpmlGenerator.kt:58-62 | a null value leaves the document alone; otherwise the document becomes the one with every such WP element's text set |
| WpmlDocument.WithTextsSets | app/src/main/java/com/example/atak2drone/utils/WpmlGenerator.kt:58-62 | afterwards every WP-namespace element with that local name, anywhere, has the value as its text |
| WpmlDocument.WithTextsKeeps | app/src/main/java/com/example/atak2drone/utils/WpmlGenerator.kt:58-62 | a field with another name keeps the value it had |
| WpmlDocument.WithTextsNoMatch | app/src/main/java/com/example/atak2drone/utils/WpmlGenerator.kt:60-61 | with no matching element the document is unchanged |
| WpmlDocument.WithTextsIdempotent | app/src/main/java/com/example/atak2drone/utils/WpmlGenerator.kt:58-62 | setting the same field twice is the same as once |
| WpmlDocument.HeightNameIsSuffix | app/src/main/java/com/example/atak2drone/utils/WpmlGenerator.kt:306 | a name is a height name iff, lower-cased, it ends in `height` (which covers equality with `height`) |
| WpmlDocument.Document.NormalizeAllHeights | app/src/main/java/com/example/atak2drone/utils/WpmlGenerator.kt:299-326 | the document becomes the height sweep of the old one |
| WpmlDocument.FixNode | app/src/main/java/com/example/atak2drone/utils/WpmlGenerator.kt:300-324 | the recursive walk returns the swept node |
| WpmlDocument.FixAttributes | app/src/main/java/com/example/atak2drone/utils/WpmlGenerator.kt:309-316 | the attribute loop returns the swept attribute list |
| WpmlDocument.FixChildren | app/src/main/java/com/example/atak2drone/utils/WpmlGenerator.kt:319-323 | the sibling loop returns the swept children |
| WpmlDocument.WithHeightsSets | app/src/main/java/com/example/atak2drone/utils/WpmlGenerator.kt:301-316 | afterwards every WP element and attribute with a height name holds the height string |
| WpmlDocument.WithHeightsKeeps | app/src/main/java/com/example/atak2drone/utils/WpmlGenerator.kt:303-308 | a field whose name is not a height name keeps the value it had |
| WpmlDocument.WithHeightsOutsideWp | app/src/main/java/com/example/atak2drone/utils/WpmlGenerator.kt:303-304 | a tree without WP-namespace elements is left unchanged |
| WpmlDocument.WithHeightsIdempotent | app/src/main/java/com/example/atak2drone/utils/WpmlGenerator.kt:299-326 | sweeping twice is the same as once |
| WpmlDocument.Document.ReplaceFolderPlacemarks | app/src/main/java/com/example/atak2drone/utils/WpmlGenerator.kt:112-142 | the document becomes the old one with its first Folder's Placemarks rebuilt |
| WpmlDocument.RebuildFolder | app/src/main/java/com/example/atak2drone/utils/WpmlGenerator.kt:115-141 | the removal and append steps give the rebuilt Folder |
| WpmlDocument.RemovePlacemarks | app/src/main/java/com/example/atak2drone/utils/WpmlGenerator.kt:118-126 | the removal loop keeps exactly the non-Placemark children, in order |
| WpmlDocument.NewPlacemarks | app/src/main/java/com/example/atak2drone/utils/WpmlGenerator.kt:129-141 | the append loop adds one waypoint Placemark per vertex, in order |
| WpmlDocument.RebuiltFolderChildren | app/src/main/java/com/example/atak2drone/utils/WpmlGenerator.kt:117-141 | the rebuilt Folder's Placemarks are exactly one per vertex; its other children keep their relative order |
| WpmlDocument.WaypointPlacemarkContents | app/src/main/java/com/example/atak2drone/utils/WpmlGenerator.kt:129-140 | Placemark i is named `WP i+1` and holds Point/coordinates with the vertex's `lon,lat` |
| WpmlDocument.NoFolderUnchanged | app/src/main/java/com/example/atak2drone/utils/WpmlGenerator.kt:113-114 | with no KML Folder the document is unchanged |
| WpmlDocument.FirstFolderRebuilt | app/src/main/java/com/example/atak2drone/utils/WpmlGenerator.kt:113-115 | only the first Folder in document order changes; nodes off its path stay as they were |
| WpmlDocument.PlacemarkRebuildKeeps | app/src/main/java/com/example/atak2drone/utils/WpmlGenerator.kt:112-142 | the rebuild keeps every WP-namespace field property (it only adds KML nodes) |
| WpmlDocument.VertexLinesSnoc | app/src/main/java/com/example/atak2drone/utils/WpmlGenerator.kt:171-175 | the vertex lines of a list extended by one point end with that point's line |
| WpmlDocument.BuildKmlCoordinatesText | app/src/main/java/com/example/atak2drone/utils/WpmlGenerator.kt:169-177 | the builder loop returns the vertex lines with trailing whitespace trimmed |
| WpmlDocument.CoordinatesTextDropsFinalNewline | app/src/main/java/com/example/atak2drone/utils/WpmlGenerator.kt:176 | no vertices give the empty text; otherwise the text is the vertex lines without the last newline |
| WpmlDocument.Document.UpdateFirstPolygonCoordinates | app/src/main/java/com/example/atak2drone/utils/WpmlGenerator.kt:148-167 | the new document and the returned flag are those of the coordinate update of the old document |
| WpmlDocument.CoordinatesTarget | app/src/main/java/com/example/atak2drone/utils/WpmlGenerator.kt:151-165 | the chosen target, when there is one, is a KML `coordinates` element |
| WpmlDocument.UpdateFailsIff | app/src/main/java/com/example/atak2drone/utils/WpmlGenerator.kt:161-166 | the update returns false iff the document has no KML `coordinates` element, and then leaves it unchanged |
| WpmlDocument.UpdateRewritesTarget | app/src/main/java/com/example/atak2drone/utils/WpmlGenerator.kt:149-164 | exactly the target changes: it keeps its attributes and gets the vertex text framed by newlines |
| WpmlDocument.RingPreferred | app/src/main/java/com/example/atak2drone/utils/WpmlGenerator.kt:151-159 | when some LinearRing has coordinates, the target lies under the first such ring in document order |
| WpmlDocument.WrittenTextParsesBack | app/src/main/java/com/example/atak2drone/utils/WpmlGenerator.kt:156-174 | when each coordinate prints as comma- and whitespace-free text that the parser reads as its rounded value, the written coordinates text parses back to the rounded polygon minus a closing duplicate |
| WpmlGenerator.BucketThreshold | app/src/main/java/com/example/atak2drone/utils/WpmlGenerator.kt:367-370 | the 200 ft bucket is chosen iff the altitude is below 91.44 m (300 ft) |
| WpmlGenerator.BucketOfFeet | app/src/main/java/com/example/atak2drone/utils/WpmlGenerator.kt:367-370 | an altitude given in feet picks the 200 ft bucket iff it is below 300 ft; 200 ft and 400 ft pick their own buckets |
| WpmlGenerator.TemplateAssetsDistinct | app/src/main/java/com/example/atak2drone/utils/WpmlGenerator.kt:372-383 | the six (camera, bucket) pairs give six different asset paths |
| WpmlGenerator.TemplateAssetShape | app/src/main/java/com/example/atak2drone/utils/WpmlGenerator.kt:372-383 | the asset path is `templates/`, the bucket directory, `/`, and a `.kmz` file name |
| WpmlGenerator.WaylinesFieldNamesDistinct | app/src/main/java/com/example/atak2drone/utils/WpmlGenerator.kt:64-84 | the twelve fields written into the descriptor have distinct names |
| WpmlGenerator.FieldsSet | app/src/main/java/com/example/atak2drone/utils/WpmlGenerator.kt:58-84 | after the field writes, every field holds its value everywhere, since no later write touches it |
| WpmlGenerator.FieldSurvives | app/src/main/java/com/example/atak2drone/utils/WpmlGenerator.kt:64-88 | a field whose name is not a height name keeps its value through the height sweep and the Placemark rebuild |
| WpmlGenerator.IdentifiersSettled | app/src/main/java/com/example/atak2drone/utils/WpmlGenerator.kt:64-72 | the finished descriptor has drone 77, payload 67, and payload sub-value 0 for EO and 2 for IR and BOTH |
| WpmlGenerator.ModesSettled | app/src/main/java/com/example/atak2drone/utils/WpmlGenerator.kt:76-85 | `executeHeightMode`, `isUseAbsoluteAltitude` and `takeOffAlt` keep their values through the height sweep |
| WpmlGenerator.HeightsSettled | app/src/main/java/com/example/atak2drone/utils/WpmlGenerator.kt:75-88 | every WP height element and attribute of the finished descriptor holds the height string |
| WpmlGenerator.MutateWaylines | app/src/main/java/com/example/atak2drone/utils/WpmlGenerator.kt:58-88 | the field writes, sweep and rebuild turn the document into the mutated descriptor |
| WpmlGenerator.FirstExisting | app/src/main/java/com/example/atak2drone/utils/WpmlGenerator.kt:258-263 | the first existing candidate is found, with no earlier one existing; none is found iff no candidate exists |
| WpmlGenerator.LocateWaylines | app/src/main/java/com/example/atak2drone/utils/WpmlGenerator.kt:257-267 | a found descriptor is an existing candidate; an error iff no candidate exists |
| WpmlGenerator.LocateWaylinesOrder | app/src/main/java/com/example/atak2drone/utils/WpmlGenerator.kt:257-267 | candidates are tried in the order `wpmz/waylines.wpml`, `wpmz/mission/waylines.wpml`, `waylines.wpml`; the not-found message names the directory |
| WpmlGenerator.FileEntries | app/src/main/java/com/example/atak2drone/utils/WpmlGenerator.kt:217-229 | the collected entries are exactly the non-directory ZIP entries with their names and bytes |
| WpmlGenerator.FileEntriesAppend | app/src/main/java/com/example/atak2drone/utils/WpmlGenerator.kt:218-228 | collection keeps archive order |
| WpmlGenerator.IsDocKmlIgnoresCase | app/src/main/java/com/example/atak2drone/utils/WpmlGenerator.kt:223 | the `doc.kml` test is an ignore-case comparison |
| WpmlGenerator.LastDocKml | app/src/main/java/com/example/atak2drone/utils/WpmlGenerator.kt:215-225 | the preferred index is the last `doc.kml` entry, or -1 when there is none |
| WpmlGenerator.FirstKml | app/src/main/java/com/example/atak2drone/utils/WpmlGenerator.kt:234 | the fallback index is the first entry whose lower-cased name ends in `.kml`, or -1 |
| WpmlGenerator.DocKmlIsKml | app/src/main/java/com/example/atak2drone/utils/WpmlGenerator.kt:232-235 | a `doc.kml` entry is a `.kml` entry, so a target exists whenever a preferred one does |
| WpmlGenerator.TargetChoice | app/src/main/java/com/example/atak2drone/utils/WpmlGenerator.kt:231-235 | a target exists iff some entry is a `.kml`; it is the last `doc.kml` when there is one, else the first `.kml` |
| WpmlGenerator.RewrittenEntriesShape | app/src/main/java/com/example/atak2drone/utils/WpmlGenerator.kt:236-241 | failure iff the target does not parse; otherwise names, order and every non-target entry are kept, and a changed target holds the serialised updated document |
| WpmlGenerator.IndexOfFirstKml | app/src/main/java/com/example/atak2drone/utils/WpmlGenerator.kt:234 | the search loop returns the first `.kml` index |
| WpmlGenerator.ReadEntries | app/src/main/java/com/example/atak2drone/utils/WpmlGenerator.kt:214-229 | the reading loop collects the file entries and the last `doc.kml` index |
| WpmlGenerator.RewriteTarget | app/src/main/java/com/example/atak2drone/utils/WpmlGenerator.kt:236-241 | the target update step gives the rewritten entry list |
| WpmlGenerator.RewriteInnerKmzPolygon | app/src/main/java/com/example/atak2drone/utils/WpmlGenerator.kt:211-253 | the result is the rewritten archive, or failure when it does not unzip or its target does not parse |
| WpmlGenerator.LastIndexOf | app/src/main/java/com/example/atak2drone/utils/WpmlGenerator.kt:182 | the index is the last occurrence of the character, or -1 |
| WpmlGenerator.FileName | app/src/main/java/com/example/atak2drone/utils/WpmlGenerator.kt:182 | a file's name is a suffix of its path |
| WpmlGenerator.ExtensionSuffix | app/src/main/java/com/example/atak2drone/utils/WpmlGenerator.kt:182 | a non-empty extension is the part of the path after a dot |
| WpmlGenerator.ExtensionOf | app/src/main/java/com/example/atak2drone/utils/WpmlGenerator.kt:182 | `dir/base.ext` has extension `ext` |
| WpmlGenerator.HasExtensionIgnoresCase | app/src/main/java/com/example/atak2drone/utils/WpmlGenerator.kt:182 | the extension test is an ignore-case comparison |
| WpmlGenerator.RewrittenFileEffect | app/src/main/java/com/example/atak2drone/utils/WpmlGenerator.kt:179-205 | paths are kept and other files are untouched; a changed `.kml` had a coordinates element; a changed `.kmz` holds the rewritten archive, and a failing file is skipped |
| WpmlGenerator.RewriteKmlFile | app/src/main/java/com/example/atak2drone/utils/WpmlGenerator.kt:183-192 | one step of the KML pass gives the file's KML rewrite |
| WpmlGenerator.RewriteKmzFile | app/src/main/java/com/example/atak2drone/utils/WpmlGenerator.kt:197-204 | one step of the KMZ pass gives the file's KMZ rewrite |
| WpmlGenerator.RewrittenFiles | app/src/main/java/com/example/atak2drone/utils/WpmlGenerator.kt:179-205 | every file is rewritten on its own, in place, and the list keeps its length |
| WpmlGenerator.RewriteKmlFiles | app/src/main/java/com/example/atak2drone/utils/WpmlGenerator.kt:180-192 | the KML pass rewrites each file independently |
| WpmlGenerator.RewriteKmzFiles | app/src/main/java/com/example/atak2drone/utils/WpmlGenerator.kt:194-204 | the KMZ pass rewrites each file independently |
| WpmlGenerator.RewriteAllTemplateKmls | app/src/main/java/com/example/atak2drone/utils/WpmlGenerator.kt:179-205 | the two passes together give the per-file rewrite of every file |
| WpmlGenerator.FileIndex | app/src/main/java/com/example/atak2drone/utils/WpmlGenerator.kt:55-56 | the index of the file at a path, or the list length iff there is none |
| WpmlGenerator.OtherExtensionUntouched | app/src/main/java/com/example/atak2drone/utils/WpmlGenerator.kt:182-196 | a file whose extension is not three characters long is in neither pass |
| WpmlGenerator.WaylinesNotRewritten | app/src/main/java/com/example/atak2drone/utils/WpmlGenerator.kt:91-97 | the saved descriptor is not touched by the auxiliary passes |
| WpmlGenerator.StagedFilesErrors | app/src/main/java/com/example/atak2drone/utils/WpmlGenerator.kt:46-55 | the unzip error iff the chosen asset cannot be unpacked; the not-found error iff no descriptor candidate exists |
| WpmlGenerator.StagedFilesContent | app/src/main/java/com/example/atak2drone/utils/WpmlGenerator.kt:53-97 | on success the descriptor holds the serialised mutated document and every other file its auxiliary rewrite |
| WpmlGenerator.RewriteDescriptor | app/src/main/java/com/example/atak2drone/utils/WpmlGenerator.kt:56-91 | the parsed descriptor is mutated and serialised |
| WpmlGenerator.StageFiles | app/src/main/java/com/example/atak2drone/utils/WpmlGenerator.kt:42-97 | unpacking, descriptor rewrite and auxiliary passes give the staged files or the error thrown |
| WpmlGenerator.GenerateFromTemplateKmz | app/src/main/java/com/example/atak2drone/utils/WpmlGenerator.kt:30-108 | the generator returns the package zipped from the staged files, none when the archive is empty, or the error thrown |
| MainActivity.RunMatches | app/src/main/java/com/example/atak2drone/MainActivity.kt:47 | a `{0,m}` run of a class matches exactly the strings of at most m characters from that class |
| MainActivity.NameRegexRule | app/src/main/java/com/example/atak2drone/MainActivity.kt:47 | the name pattern matches iff the string has 1 to 32 characters, an ASCII letter first, and letters, digits, `_` or `-` after it |
| MainActivity.NameErrorMarker | app/src/main/java/com/example/atak2drone/MainActivity.kt:199-216 | a blank name never shows the error marker but is still invalid; otherwise the marker shows iff the name is invalid; validity is the rule on the trimmed text |
| MainActivity.DecideOutcome | app/src/main/java/com/example/atak2drone/MainActivity.kt:227-266 | with the gate open, refusal iff no altitude is checked; a request passed every check, has 200 or 400 ft as checked, the camera as checked (EO as fallback), and a valid name |
| MainActivity.RequestPicksTemplate | app/src/main/java/com/example/atak2drone/MainActivity.kt:247-249 | a 200 ft request uses the 200 ft templates and a 400 ft request the 400 ft ones |
| MainActivity.Activity.constructor | app/src/main/java/com/example/atak2drone/MainActivity.kt:182-191 | starts with nothing picked, an empty name without error, 200 ft and EO checked, and Generate disabled |
| MainActivity.Activity.UpdateGenerateEnabled | app/src/main/java/com/example/atak2drone/MainActivity.kt:218-224 | Generate is enabled iff a KML is picked, the polygon looks valid, a destination is chosen and the name is valid |
| MainActivity.Activity.OnKmlPicked | app/src/main/java/com/example/atak2drone/MainActivity.kt:50-87 | the picked URI is stored; the polygon looks valid iff the pick was not cancelled, the file was read and it parsed; the gate is updated |
| MainActivity.Activity.OnDestPicked | app/src/main/java/com/example/atak2drone/MainActivity.kt:89-112 | the destination is stored (cleared on cancel) and the gate is updated |
| MainActivity.Activity.OnTextChanged | app/src/main/java/com/example/atak2drone/MainActivity.kt:199-209 | the error marker is set iff the trimmed name is non-empty and invalid; the gate is updated |
| MainActivity.Activity.MarkNameInvalid | app/src/main/java/com/example/atak2drone/MainActivity.kt:239-241 | shows the invalid-name message and changes nothing else |
| MainActivity.Activity.OnGenerateClicked | app/src/main/java/com/example/atak2drone/MainActivity.kt:227-266 | the click yields the decision on the current screen state: no KML, then invalid polygon, then invalid name, then no altitude, then no destination are refused in that order; only an invalid name sets the error marker, and no other field changes |
| MainActivity.GuessExt | app/src/main/java/com/example/atak2drone/MainActivity.kt:396-411 | the guess is always `.kml` or `.kmz` |
| MainActivity.GuessExtKmz | app/src/main/java/com/example/atak2drone/MainActivity.kt:396-411 | `.kmz` iff the MIME type, ignoring case, is the KMZ or zip type, or it is no known type and the lower-cased display name ends in `.kmz` |
| MainActivity.TempSuffix | app/src/main/java/com/example/atak2drone/MainActivity.kt:388 | the suffix is never blank, and a non-blank suggestion is kept |
| MainActivity.GuessedSuffixKept | app/src/main/java/com/example/atak2drone/MainActivity.kt:70 | the guessed extension is used unchanged as the temp-file suffix |
| MainActivity.PrettyPathOfDocId | app/src/main/java/com/example/atak2drone/MainActivity.kt:366-377 | an external-storage tree `volume:rel` or `volume:rel:…` shows as the volume root, plus `/rel` when rel is non-empty; anything after a second colon is dropped |
| MainActivity.PrettyPathOfVolume | app/src/main/java/com/example/atak2drone/MainActivity.kt:368-377 | a document id without a colon shows as the volume root |
| MainActivity.PrettyPathFallback | app/src/main/java/com/example/atak2drone/MainActivity.kt:364-384 | another authority, a null document id or an exception shows as `URI: <uri>` |

## Left out

- XML parsing and serialisation, ZIP reading and writing, and reading the bundled assets are parameters (`Codec`, `Platform`). The model assumes nothing about them beyond what they return. Serialisation and zipping are total, so a failure in `saveXml` or `zipDir` is not modelled.
- Number formatting and parsing (`String.format("%.3f")`, `"%.7f"`, `Double.toString`, `toDoubleOrNull`) are function parameters. Round trips through them are proved per vertex, under the stated assumption that each printed coordinate contains no comma or whitespace and parses back exactly (KML writer) or to its rounded value (`%.7f` in the WPML writer, with rounding a parameter).
- `String.format` at WpmlGenerator.kt:75, 135 and 174 uses the device's default locale. On a decimal-comma locale the written `lon,lat,0` text has extra commas and is misread (for example `12,3456789,48,1234567,0` reads as longitude 12 and latitude 3456789). The model covers only formatters that print no comma.
- KmlUtils.ParseSinglePolygonFromKml: the event sequence is always well formed. The `XmlPullParserException` for ill-formed input, and the one `nextText()` raises on a `coordinates` element with a child element (KmlUtils.kt:56), are not modelled; in `OnKmlPicked` they appear only as content `None`.
- A KMZ file picked for the polygon is read as raw bytes (MainActivity.kt:70-71) and never unzipped; the model does not represent ZIP input to the parser, only the resulting `None`.
- Coordinates are `real`. Binary floating point rounding at the 300 ft boundary and in the 1e-9 comparison is not modelled.
- Case-insensitive comparison and `lowercase()` fold ASCII letters only. Kotlin folds all of Unicode.
- The pull parser is a sequence of `Start`/`End`/`Coords` events matched by local name. XML comments, processing instructions, entity expansion, and `documentElement.normalize` are not modelled.
- The DOM is an immutable tree, and each in-place edit is modelled by its net effect. Node identity, aliasing, and a live `NodeList` shrinking while it is walked are not modelled.
- WpmlGenerator.GenerateFromTemplateKmz: the unpacked template is a list of files in a fixed order. The order of `walkTopDown` and `listFiles`, which fixes the rewrite order and the entry order in the output ZIP, is not specified by the platform.
- WpmlGenerator.StageFiles: the temporary directory's name (from the clock), its creation, and its recursive deletion are left out. The directory is a parameter.
- WpmlGenerator.LocateWaylines: the not-found message uses the directory string as given, not the absolute path.
- WpmlGenerator.GenerateFromTemplateKmz: the unzip error carries the asset path but not the underlying exception's message, and logging is left out.
- `readLatLon`'s reflective field lookup is replaced by the `Coordinate(latitude, longitude)` record.
- The work after the checks in `onGenerateClicked` is not part of this model: mission generation through `MissionController`, copying to the destination, dialogs, and launching DJI Pilot 2. `MissionController` only converts feet to metres (covered by `BucketOfFeet`) and wraps results.
- View binding, toasts, the KML status label, permission grants, and content-resolver copying are left out. Reading the picked file is a parameter that may fail, and the MIME type, display name, authority, and document-id lookup are parameters.
