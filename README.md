# bike-map core, modelled in Dafny

bike-map is a web map of bicycle infrastructure. The model covers six parts of it:

- **The curated-map classifier** (`MyMapsMapData`). The curated map is exported as KML and converted to GeoJSON. Each converted feature is then given three things:
  - a *feature group*, read from its stroke colour, fill colour, marker icon, status, kind (`סוג`) and name;
  - a *layer type*;
  - a *highlightable* flag.

  A collection that holds a null geometry is rejected as a whole. An unsupported geometry type fails with its type name.
- **The feature-group catalogue** (`FeatureGroups`):
  - the line, polygon and point group lists and the layer type of each group;
  - the singular and plural Hebrew display names;
  - the optional descriptions.
- **The legend style table** (`GroupIcon`): the line, polygon or icon style of each group. `StyleConsistency` relates it to the classifier: a group recognised by a colour is drawn in that colour.
- **The layer-selection panel** (`FeatureGroupSelection`):
  - the three curated sections;
  - the debug section, computed from the catalogue;
  - the section list shown with debugging on or off.
- **The route builder** (`UseRoute`):
  - Two state cells: `pastSegments` and the pending `segment`.
  - The operations `clear`, `addStop` and `removeStop`, and the update made when a directions fetch resolves.
  - The derived views: segments, drawn features, `canRemoveStop` and origin.
  - The class `RouteBuilder` performs each transition in place. Its `ensures` ties the new state to a pure transition function of the old state, and the lemmas are stated about those functions.
- **`groupBy` and `compact`** (`Utils`). `groupBy` is an imperative loop over a map. It is proved equal to a per-key filter of the input.

`Wrappers` (Option, Result), `GeoJson` (positions and the seven geometry types of section 3.1 of RFC 7946) and `JsStrings` are shared helpers. `JsStrings` holds JavaScript's `trim`, `includes` and the bus-line-name regular expression `/^קו \d+$/`.

## Model

| member | source | states |
|---|---|---|
| FeatureGroups.FeatureGroupLayerType | src/featureGroups.ts:53-61 | a group is a point group iff it is in the point list and a polygon group iff it is in the polygon list; every other group is a line group |
| FeatureGroups.EveryGroupListed | src/featureGroups.ts:3-45 | every group is in one of the three curated lists or is `osmBikePath` |
| FeatureGroups.GroupListsPartition | src/featureGroups.ts:3-32 | the three lists have no duplicates, are pairwise disjoint, and the catalogue does not hold `osmBikePath` |
| FeatureGroups.MyMapsFeatureGroupsComplete | src/featureGroups.ts:47-51 | the concatenated catalogue has no duplicates and holds exactly the groups other than `osmBikePath` |
| FeatureGroups.NoDuplicatesAppend | src/featureGroups.ts:47-51 | concatenating two duplicate-free, disjoint lists gives a duplicate-free list |
| FeatureGroups.FeatureGroupSingularDisplayName | src/featureGroups.ts:63-112 | every group has a non-empty singular name |
| FeatureGroups.FeatureGroupPluralDisplayName | src/featureGroups.ts:114-163 | every group has a non-empty plural name |
| FeatureGroups.PluralEqualsSingularExactly | src/featureGroups.ts:63-163 | the plural name equals the singular name exactly for `ofney dan` and `unknown` |
| FeatureGroups.FeatureGroupDescription | src/featureGroups.ts:165-186 | a description, when present, is non-empty |
| FeatureGroups.DescriptionDefinedExactly | src/featureGroups.ts:165-186 | exactly the seven listed groups carry a description |
| GroupIcon.StyleForGroup | src/GroupIcon.tsx:25-74 | the style kind of every group belongs to that group's layer type |
| GroupIcon.RawStyleExactlyForCatchAllGroups | src/GroupIcon.tsx:49-54 | the raw fallback styles are used exactly for `unknown`, `mistake`, `unknownPolygon` and `generalNote` |
| GroupIcon.BikePathStylesAgree | src/GroupIcon.tsx:27-30 | the curated and the OSM bike-path layers are drawn with the same style |
| JsStrings.SkipLeading | src/myMapsMapData.ts:106-120 | the index of the first non-whitespace character at or after `i` |
| JsStrings.SkipTrailing | src/myMapsMapData.ts:106-120 | the index just past the last non-whitespace character, and no lower than `lo` |
| JsStrings.Trim | src/myMapsMapData.ts:106-120 | the result is a slice of the input with only whitespace removed on both sides, and neither end is whitespace |
| JsStrings.TrimIdempotent | src/myMapsMapData.ts:106-120 | trimming twice is the same as trimming once |
| JsStrings.TrimOfPadded | src/myMapsMapData.ts:106-120 | `trim` removes exactly the whitespace around a string that neither starts nor ends with whitespace |
| JsStrings.Includes | src/myMapsMapData.ts:130 | true iff the fragment occurs at some index of the string |
| JsStrings.AllAsciiDigits | src/myMapsMapData.ts:98 | true iff every character is an ASCII digit |
| JsStrings.LineNumberNameExamples | src/myMapsMapData.ts:98 | bus-line names match the pattern; a street name, a bare prefix and a trailing space do not |
| JsStrings.LineNumberNameRejectsNonDigit | src/myMapsMapData.ts:98 | any character after the prefix that is not an ASCII digit rejects the name, wherever it occurs |
| JsStrings.LineNumberNameExtends | src/myMapsMapData.ts:98 | appending a digit to a bus-line name gives a bus-line name |
| MyMapsMapData.ParseLineFeature | src/myMapsMapData.ts:91-125 | the group is a line group; the feature is non-highlightable iff the stroke is a recommended-road colour and the name is a bus-line name, and then the group is `recommendedRoad` |
| MyMapsMapData.ParsePolygonFeature | src/myMapsMapData.ts:127-141 | the group is a polygon group and the feature is highlightable |
| MyMapsMapData.ParsePointFeature | src/myMapsMapData.ts:143-169 | the group is a point group and the feature is highlightable |
| MyMapsMapData.TrimmedEqualsIgnoresPadding | src/myMapsMapData.ts:106-120 | `TrimmedEquals` (the `?.trim() ===` test) is false for an absent property and ignores whitespace around a present one |
| MyMapsMapData.ParseFeature | src/myMapsMapData.ts:74-89 | a LineString is classified by the line rules, a Polygon or GeometryCollection by the polygon rules, a Point by the point rules; every other type fails with its type name; so the group belongs to the geometry's layer (`GeometryLayerType`) and is never `osmBikePath` |
| MyMapsMapData.OnlyDirectionArrowsAreNotHighlightable | src/myMapsMapData.ts:74-125 | a classified feature is non-highlightable iff it is a line with a recommended-road stroke and a bus-line name |
| MyMapsMapData.DangerousStrokeWins | src/myMapsMapData.ts:95-96 | the dangerous-road stroke decides the group ahead of every other rule |
| MyMapsMapData.DirectionArrowExamples | src/myMapsMapData.ts:97-103 | a bus-line name under the alternative recommended stroke is non-highlightable; street names are highlightable |
| MyMapsMapData.FirstMatchPicksFirstFiring | src/myMapsMapData.ts:91-169 | a rule table returns the group of its first rule that fires |
| MyMapsMapData.FirstMatchFallsBack | src/myMapsMapData.ts:122-124 | a rule table returns the fallback when no rule fires |
| MyMapsMapData.FirstMatchStep | src/myMapsMapData.ts:91-169 | one step of the table: fire rule `i` or continue with the rest |
| MyMapsMapData.FiresOne | src/myMapsMapData.ts:91-169 | a one-condition rule fires iff its condition holds |
| MyMapsMapData.FiresTwo | src/myMapsMapData.ts:97-111 | a two-condition rule fires iff either condition holds |
| MyMapsMapData.ParseLineFeatureIsFirstMatch | src/myMapsMapData.ts:91-125 | the line if-chain picks the same group as the eleven-rule table in source order, falling back to `unknown` |
| MyMapsMapData.LineChainFromPlanned | src/myMapsMapData.ts:106-125 | the tail of the line chain from the planned rule agrees with the rule table |
| MyMapsMapData.LineChainFromMissing | src/myMapsMapData.ts:110-125 | the tail of the line chain from the missing rule agrees with the rule table |
| MyMapsMapData.LineChainFromDirtRoad | src/myMapsMapData.ts:114-125 | the tail of the line chain from the dirt-road rule agrees with the rule table |
| MyMapsMapData.LineChainFromBikePath | src/myMapsMapData.ts:118-125 | the tail of the line chain from the bike-path rule agrees with the rule table |
| MyMapsMapData.ParsePolygonFeatureIsFirstMatch | src/myMapsMapData.ts:127-141 | the polygon chain agrees with its four-rule table, falling back to `unknownPolygon` |
| MyMapsMapData.ParsePointFeatureIsFirstMatch | src/myMapsMapData.ts:143-169 | the point chain agrees with its four-rule table, falling back to `generalNote` |
| MyMapsMapData.AnnotateAll | src/myMapsMapData.ts:52-66 | for a null-free collection: succeeds iff every geometry is supported, keeping count, order, geometry and raw properties, with each feature's group, flag and layer type from the classifier; otherwise fails with the error of the first unsupported feature |
| MyMapsMapData.ClassifyFetchedFeatures | src/myMapsMapData.ts:43-71 | fails with the null-geometry error iff some geometry is null; otherwise it is exactly `AnnotateAll`, so it fails with the first unsupported feature's error or succeeds iff every geometry is supported |
| MyMapsMapData.NullGeometryRejectsBatch | src/myMapsMapData.ts:43-45 | one null geometry anywhere rejects the whole collection |
| MyMapsMapData.AnnotatedLayerMatchesGeometry | src/myMapsMapData.ts:52-59 | each annotated feature's layer type is the layer of its geometry type |
| StyleConsistency.LineDrawnInItsStroke | src/myMapsMapData.ts:91-125 | a line recognised by a styled stroke colour, which no earlier status or kind rule claims, is drawn as a line in that same colour |
| StyleConsistency.AlternativeStrokesDrawnInMainColour | src/GroupIcon.tsx:31-42 | the alternative recommended and missing strokes are drawn in their group's main colour, not their own |
| StyleConsistency.PolygonDrawnInItsFill | src/myMapsMapData.ts:127-141 | a polygon recognised by its fill, and not named as an isochrone, is drawn as a polygon in that fill colour |
| FeatureGroupSelection.InSomeSectionExactly | src/FeatureGroupSelection.tsx:56-60 | `InSomeSection` (the `some`/`includes` test) holds iff some section's group list holds the group |
| FeatureGroupSelection.FilterMembers | src/FeatureGroupSelection.tsx:56-60 | `Filter` keeps exactly the members that satisfy the predicate and never grows the list |
| FeatureGroupSelection.FilterAppend | src/FeatureGroupSelection.tsx:56-60 | `filter` distributes over concatenation |
| FeatureGroupSelection.FilterConcat | src/FeatureGroupSelection.tsx:56-60 | filtering three concatenated lists concatenates their filtered pieces |
| FeatureGroupSelection.FilterKeepsNoDuplicates | src/FeatureGroupSelection.tsx:56-60 | filtering a duplicate-free list gives a duplicate-free list |
| FeatureGroupSelection.FilterAgrees | src/FeatureGroupSelection.tsx:56-60 | two predicates that agree everywhere filter alike |
| FeatureGroupSelection.NonDebugSectionGroups | src/FeatureGroupSelection.tsx:29-54 | a group is in a non-debug section iff it is one of the ten curated groups |
| FeatureGroupSelection.DebugOnlyIff | src/FeatureGroupSelection.tsx:56-60 | the debug-only test holds iff the group is not `bikePath` and is in no fixed section (`HiddenUnlessDebugging`) |
| FeatureGroupSelection.Sections | src/FeatureGroupSelection.tsx:68-71 | the three fixed sections come first, in order, followed by the debug section iff debugging is on |
| FeatureGroupSelection.DebugOnlyGroupsByMembership | src/FeatureGroupSelection.tsx:56-60 | the debug list is the catalogue filtered by "is not `bikePath` and is in no fixed section" |
| FeatureGroupSelection.DebugOnlyGroupsAre | src/FeatureGroupSelection.tsx:56-60 | `DebugOnlyGroups` is `missing`, `unknown`, `mistake`, then three polygon groups, then all five point groups, in catalogue order |
| FeatureGroupSelection.DebugOnlyGroupsExactly | src/FeatureGroupSelection.tsx:56-60 | a group is in the debug list iff it is in the catalogue, is not `bikePath`, and is in no fixed section |
| FeatureGroupSelection.FixedSectionsDisjoint | src/FeatureGroupSelection.tsx:29-54 | the fixed sections hold only curated groups, share none, and repeat none |
| FeatureGroupSelection.DebugSectionDisjoint | src/FeatureGroupSelection.tsx:56-62 | the debug section shares no group with a fixed section and repeats none |
| FeatureGroupSelection.SectionsDisjoint | src/FeatureGroupSelection.tsx:68-71 | in either mode, no group appears in two sections or twice in one |
| FeatureGroupSelection.DebuggingShowsEachGroupOnce | src/FeatureGroupSelection.tsx:50-71 | with debugging on, every catalogue group except `bikePath` appears in exactly one section |
| FeatureGroupSelection.BikePathGroupsInNoSection | src/FeatureGroupSelection.tsx:68-80 | neither bike-path group is listed in any section; they have their own radio |
| FeatureGroupSelection.NotDebuggingHidesDebugOnlyGroups | src/FeatureGroupSelection.tsx:68-71 | with debugging off, no debug-only group is offered |
| Utils.At | src/useRoute.tsx:77-78 | `Array.prototype.at`: defined iff `-len <= i < len`, counting from the end for negative `i` |
| Utils.Compact | src/useRoute.tsx:103-110 | `compact` keeps the present values and drops the missing ones: never longer, nothing invented, nothing present lost |
| Utils.CompactAppend | src/useRoute.tsx:103-110 | `compact` distributes over concatenation |
| Utils.CompactAllPresent | src/useRoute.tsx:103-106 | on a list with no missing value, `compact` unwraps element by element |
| Utils.GroupBy | src/utils.ts:1-16 | the loop builds exactly `Grouped`: the map from each key of an item to that key's `Bucket`, its items in list order |
| Utils.BucketEmptyOutsideKeys | src/utils.ts:1-16 | a key that no item has collects nothing |
| Utils.ItemInOwnBucket | src/utils.ts:6-13 | every item lands in the bucket of its own key |
| Utils.BucketAppend | src/utils.ts:6-13 | the bucket of a concatenation is the concatenation of the buckets |
| Utils.BucketItemsHaveKey | src/utils.ts:6-13 | every item in a bucket has that bucket's key |
| Utils.GroupedKeysAndBuckets | src/utils.ts:1-16 | the map's keys are exactly the keys of the items, no bucket is empty, and an empty list gives an empty map |
| Utils.SumSizesRemove | src/utils.ts:1-16 | the total bucket size splits into one bucket plus the rest |
| Utils.SumSizesPush | src/utils.ts:9-13 | pushing one item adds one to the total size, whether the key is new or not |
| Utils.KeysOfSnoc | src/utils.ts:6-7 | appending an item adds its key to the key set |
| Utils.GroupedSnoc | src/utils.ts:6-13 | appending an item creates its key's bucket `[item]` or pushes onto it, leaving every other bucket alone |
| Utils.GroupedSizesSumToLength | src/utils.ts:1-16 | the buckets together hold exactly as many items as the list |
| UseRoute.PositionPointRoundTrip | src/useRoute.tsx:79-81 | converting a position to a point and back is the identity, in both directions |
| UseRoute.MakePointFeature | src/useRoute.tsx:172-181 | a position is used as it is; a point becomes `[longitude, latitude]` |
| UseRoute.AfterAddStop | src/useRoute.tsx:70-88 | a segment is pending and unresolved afterwards; the state is unchanged iff a fetch is pending; otherwise the segment list grows by one new segment that ends at the center |
| UseRoute.AfterRemoveStop | src/useRoute.tsx:90-101 | with a past segment, the route keeps every segment before the last past one, drops the pending one, and reopens the last past segment from its origin to the center, unresolved |
| UseRoute.AfterClear | src/useRoute.tsx:65-68 | afterwards there are no segments, nothing is drawn and no stop can be removed |
| UseRoute.AfterFetch | src/useRoute.tsx:51-57 | the past segments and `canRemoveStop` are unchanged, the earlier segments stay, and the last segment carries the fetched line, so `addStop` is enabled again |
| UseRoute.FetchRequest | src/useRoute.tsx:42-58 | a request is sent iff tracking, a segment exists and the center moved far enough; it asks for the segment's origin to the throttled center |
| UseRoute.AnsweredRequestKeepsChain | src/useRoute.tsx:42-58 | the response to the request the effect sends keeps the chain, and the resolved segment ends at the throttled center |
| UseRoute.SegmentsIsCompact | src/useRoute.tsx:103-106 | `Segments` is the compacted list of the past segments followed by the pending one |
| UseRoute.LineFeatures | src/useRoute.tsx:108-110 | there is at most one line per segment |
| UseRoute.LineFeaturesIsCompact | src/useRoute.tsx:108-110 | the lines are the compacted list of the segments' features |
| UseRoute.LineFeaturesAppend | src/useRoute.tsx:108-110 | lines of concatenated segment lists concatenate |
| UseRoute.LineFeaturesExactly | src/useRoute.tsx:108-110 | a line is drawn iff it is the line of some segment |
| UseRoute.SegmentEndpointsIsCompact | src/useRoute.tsx:114-119 | a segment has no endpoints without a line, and otherwise the compacted first and last coordinates of its line |
| UseRoute.PointFeaturesAppend | src/useRoute.tsx:112-123 | markers of concatenated segment lists concatenate |
| UseRoute.AtMostTwoMarkersPerLine | src/useRoute.tsx:112-123 | there are at most twice as many markers as lines |
| UseRoute.MarkersAreEndpoints | src/useRoute.tsx:112-123 | every marker is the first or last coordinate of some segment's line |
| UseRoute.FeaturesAreLinesThenMarkers | src/useRoute.tsx:107-129 | `FeaturesOf` lists the lines first, each the line of a segment and every resolved segment's line among them, then the markers, each an endpoint of some segment's line (with `PointFeatures` described by the three rows above) |
| UseRoute.UnresolvedSegmentDrawsNothing | src/useRoute.tsx:107-129 | a pending segment without a line adds nothing to the drawn features |
| UseRoute.ResolvedSegmentDrawsLineAndEnds | src/useRoute.tsx:107-129 | a resolved pending segment adds its line after the earlier lines and its two end markers after the earlier markers |
| UseRoute.Origin | src/useRoute.tsx:133-146 | there is no origin iff there are no segments |
| UseRoute.OriginOfFirstSegment | src/useRoute.tsx:133-146 | the origin is the first coordinate of the first segment's line, or else that segment's origin as `[longitude, latitude]` |
| UseRoute.OriginIsFirstMarker | src/useRoute.tsx:112-146 | when the first segment has a line with coordinates, the origin is the first marker drawn |
| UseRoute.TransitionsKeepConsistent | src/useRoute.tsx:65-101 | starting from the initial state, every transition keeps the rule that a missing pending segment means no past segments |
| UseRoute.AddStopNoOpWhilePending | src/useRoute.tsx:71-73 | `addStop` does nothing while a fetch is pending |
| UseRoute.AddStopCommitsResolved | src/useRoute.tsx:74-87 | with a resolved segment, `addStop` commits it and opens a new segment from its line's last coordinate to the center |
| UseRoute.FirstStopStartsAtCenter | src/useRoute.tsx:77-87 | the first stop opens a segment from the center to the center |
| UseRoute.RemoveStopNoOpWithoutPast | src/useRoute.tsx:91-93 | `removeStop` does nothing without past segments |
| UseRoute.RemoveStopReopensLast | src/useRoute.tsx:94-100 | `removeStop` drops the last past segment and reopens it from its origin to the center, unresolved |
| UseRoute.AddThenRemoveRestores | src/useRoute.tsx:70-101 | a stop after a resolved segment, then its removal, gives back the past segments and reopens the last segment to the new center |
| UseRoute.ClearIdempotent | src/useRoute.tsx:65-68 | `clear` gives the initial state, so there are no segments and no origin, nothing can be removed, and clearing twice is clearing once |
| UseRoute.CanRemoveStopIffRemoveChanges | src/useRoute.tsx:90-101 | `CanRemoveStop` holds iff `removeStop` changes the state |
| UseRoute.AddStopKeepsChain | src/useRoute.tsx:70-88 | `addStop` keeps each segment starting where the previous line ended |
| UseRoute.RemoveStopKeepsChain | src/useRoute.tsx:90-101 | `removeStop` keeps the chain |
| UseRoute.FetchKeepsChain | src/useRoute.tsx:51-57 | a fetch for the current segment's origin keeps the chain |
| UseRoute.StaleFetchResponseBreaksChain | src/useRoute.tsx:51-57 | a response for an older request that lands after the next `addStop` replaces the new pending segment with one that does not start where the committed line ends |
| UseRoute.RouteScenario | src/useRoute.tsx:65-146 | a worked session of stops, a fetch and a removal, with its segments and origin |
| UseRoute.RouteBuilder.constructor | src/useRoute.tsx:37-40 | the builder starts with no segments, in a consistent state |
| UseRoute.RouteBuilder.Clear | src/useRoute.tsx:65-68 | the new state is the `clear` transition of the old, and it is consistent |
| UseRoute.RouteBuilder.AddStop | src/useRoute.tsx:70-88 | the new state is the `addStop` transition of the old, and it is consistent |
| UseRoute.RouteBuilder.RemoveStop | src/useRoute.tsx:90-101 | the new state is the `removeStop` transition of the old, and consistency is kept |
| UseRoute.RouteBuilder.TrackingRequest | src/useRoute.tsx:42-58 | the request is `FetchRequest` of the current state, and the state is unchanged |
| UseRoute.RouteBuilder.ResolveFetch | src/useRoute.tsx:51-57 | the new state is the fetch-resolution update of the old, and it is consistent |

## Left out

- Fetching the KML, `DOMParser` and the `togeojson` conversion: I/O and foreign code. The model starts from the converted features, whose geometry may be null.
- The random numeric `id` (`nanoid`) added to each annotated feature: randomness.
- The `stroke-width`, `stroke-opacity` and `description` properties: the classifier never reads them. They pass through in `raw`.
- The directions request (`fetchRoute`, the Mapbox URL and token): network I/O. A resolved fetch is the `ResolveFetch` update, with the line given as a parameter.
- The 250 ms throttle and the `distanceSortOf` (`Math.hypot`) test against 0.001: timing and floating point. They appear as the `throttledCenter` and `movedFarEnough` parameters of `TrackingRequest`.
- React's render cycle and effect dependencies: the state cells are fields updated one call at a time. The late-response race is stated as a lemma, not prevented.
- Altitude in positions: only longitude and latitude are modelled.
- Real numbers: coordinates, widths and opacities are exact `real`s, not IEEE doubles.
- Strings are sequences of code points, not UTF-16 code units. This does not matter for the comparisons and `trim` here.
- `Utils.GroupBy`: a `map` has no insertion order, so the order of keys in the JavaScript `Map` is not modelled. The order of items within each bucket is modelled.
- The icon components in `GroupIcon` and all JSX rendering, including the toggles and `toggleSetRecordMember`: UI code. `IconKind` names the three icons.
- ParseLineFeature, ParsePolygonFeature: the properties are cast without a check, so a feature without a `name` throws at `name.trim()` or `name.includes(...)` in the source; the model's `name` is always a string, so every feature classifies.
- GroupBy: JavaScript's `Map` compares keys by SameValueZero, so two distinct objects are two keys; the model groups by Dafny's structural equality, which agrees for strings and numbers.
- `isDebugging` is a `bool`: the source's absent value reads as false.
- Environment configuration (`env`): it supplies only URLs and tokens.
