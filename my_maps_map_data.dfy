/** The classifier of the curated ("My Maps") KML layer: each converted
    GeoJSON feature is assigned a feature group and a highlightable flag by a
    first-match-wins chain of rules over its geometry type and properties,
    and a whole collection is annotated with the result. */
module MyMapsMapData {
  import opened Wrappers
  import opened GeoJson
  import opened JsStrings
  import opened FeatureGroups

  /** The properties the KML converter produces; `kind` is the Hebrew
      property `סוג` ("type"). */
  datatype RawMyMapsProperties = RawMyMapsProperties(
    name: string,
    description: string,
    stroke: string,
    fill: Option<string>,
    strokeWidth: real,
    strokeOpacity: real,
    kind: Option<string>,
    status: Option<string>,
    icon: Option<string>)

  /** A feature as the converter emits it; its geometry may be null. */
  datatype RawFeature = RawFeature(geometry: Option<Geometry>, properties: RawMyMapsProperties)

  datatype Classification = Classification(group: FeatureGroup, highlightable: bool)

  /** The raw properties with the three fields the classifier adds. */
  datatype MyMapsProperties = MyMapsProperties(
    raw: RawMyMapsProperties,
    featureGroup: FeatureGroup,
    layerType: LayerType,
    highlightable: bool)

  datatype MyMapsFeature = MyMapsFeature(geometry: Geometry, properties: MyMapsProperties)

  /** The two errors the loader throws. */
  datatype LoadError = NullGeometry | UnknownGeometryType(typeName: string)

  // The palette and texts the rules compare against.
  const DangerousRoadStroke: string := "#ff5252"
  const RecommendedRoadStroke: string := "#0ba9cc"
  const RecommendedRoadAltStroke: string := "#4186f0"
  const OfneyDanStroke: string := "#c6a4cf"
  const PlannedStroke: string := "#fad199"
  const MissingStroke: string := "#f8971b"
  const MissingAltStroke: string := "#ffdd5e"
  const BridgeStroke: string := "#7c3592"
  const BikePathStroke: string := "#3f5ba9"
  const PlanningStatus: string := "תכנון"
  const InProgressStatus: string := "בביצוע"
  const DirtRoadKind: string := "דרך עפר"
  const DirtPathKind: string := "שביל עפר"
  const MistakeName: string := "קו 121"
  const IsochroneNameFragment: string := "דקות רכיבה מ"
  const CoveredAreaFill: string := "#009d57"
  const HillFill: string := "#ee9c96"
  const CalmedTrafficAreaFill: string := "#93d7e8"
  const JunctionIcon: string := "https://www.gstatic.com/mapspro/images/stock/962-wht-diamond-blank.png"
  const CalmedJunctionIcon: string := "https://www.gstatic.com/mapspro/images/stock/1269-poi-hospital-cross.png"
  const BlockedPathIcon: string := "https://www.gstatic.com/mapspro/images/stock/1145-crisis-explosion.png"
  const TrainStationIcon: string := "https://www.gstatic.com/mapspro/images/stock/1459-trans-train.png"

  /** `field?.trim() === text`: false when the property is absent. */
  predicate TrimmedEquals(field: Option<string>, text: string)
  {
    field.Some? && Trim(field.value) == text
  }

  /** An absent property never matches, and whitespace around a present one
      is ignored. */
  lemma TrimmedEqualsIgnoresPadding(lead: string, text: string, trail: string)
    requires forall k :: 0 <= k < |lead| ==> IsJsWhitespace(lead[k])
    requires forall k :: 0 <= k < |trail| ==> IsJsWhitespace(trail[k])
    requires text != [] && !IsJsWhitespace(text[0]) && !IsJsWhitespace(text[|text| - 1])
    ensures !TrimmedEquals(None, text)
    ensures TrimmedEquals(Some(lead + text + trail), text)
  {
    TrimOfPadded(lead, text, trail);
  }

  predicate IsRecommendedStroke(stroke: string)
  {
    stroke == RecommendedRoadStroke || stroke == RecommendedRoadAltStroke
  }

  /** The layer a geometry type is classified for, or None for the types
      the classifier rejects. */
  function GeometryLayerType(g: Geometry): Option<LayerType>
  {
    match g
    case LineString(_) => Some(LineLayer)
    case Polygon(_) => Some(PolygonLayer)
    case GeometryCollection(_) => Some(PolygonLayer)
    case PointGeometry(_) => Some(PointLayer)
    case _ => None
  }

  /** The line rules. A bus-line name under a recommended-road stroke marks a
      direction arrow, the only feature that is not highlightable. */
  function ParseLineFeature(p: RawMyMapsProperties): (r: Classification)
    ensures r.group in MyMapsLineGroups
    ensures !r.highlightable <==> IsRecommendedStroke(p.stroke) && IsLineNumberName(p.name)
    ensures !r.highlightable ==> r.group == RecommendedRoad
  {
    if p.stroke == DangerousRoadStroke then Classification(DangerousRoad, true)
    else if IsRecommendedStroke(p.stroke) then
      if IsLineNumberName(p.name) then Classification(RecommendedRoad, false)
      else Classification(RecommendedRoad, true)
    else if p.stroke == OfneyDanStroke then Classification(OfneyDan, true)
    else if p.stroke == PlannedStroke || TrimmedEquals(p.status, PlanningStatus) then Classification(Planned, true)
    else if TrimmedEquals(p.status, InProgressStatus) then Classification(InProgress, true)
    else if p.stroke == MissingStroke || p.stroke == MissingAltStroke then Classification(Missing, true)
    else if p.stroke == BridgeStroke then Classification(Bridge, true)
    else if TrimmedEquals(p.kind, DirtRoadKind) then Classification(DirtRoad, true)
    else if TrimmedEquals(p.kind, DirtPathKind) then Classification(DirtPath, true)
    else if p.stroke == BikePathStroke then Classification(BikePath, true)
    else if Trim(p.name) == MistakeName then Classification(Mistake, true)
    else Classification(Unknown, true)
  }

  /** The polygon rules: the isochrone name wins over any fill. */
  function ParsePolygonFeature(p: RawMyMapsProperties): (r: Classification)
    ensures r.group in MyMapsPolygonGroups && r.highlightable
  {
    if Includes(p.name, IsochroneNameFragment) then Classification(TrainStationIsochrone, true)
    else if p.fill == Some(CoveredAreaFill) then Classification(CoveredArea, true)
    else if p.fill == Some(HillFill) then Classification(Hill, true)
    else if p.fill == Some(CalmedTrafficAreaFill) then Classification(CalmedTrafficArea, true)
    else Classification(UnknownPolygon, true)
  }

  /** The point rules: four known marker images, anything else a note. */
  function ParsePointFeature(p: RawMyMapsProperties): (r: Classification)
    ensures r.group in MyMapsPointGroups && r.highlightable
  {
    if p.icon == Some(JunctionIcon) then Classification(Junction, true)
    else if p.icon == Some(CalmedJunctionIcon) then Classification(CalmedJunction, true)
    else if p.icon == Some(BlockedPathIcon) then Classification(BlockedPath, true)
    else if p.icon == Some(TrainStationIcon) then Classification(TrainStation, true)
    else Classification(GeneralNote, true)
  }

  /** Dispatch on the geometry type. The group always belongs to the layer
      of the geometry, and the unsupported types fail with their name. */
  function ParseFeature(geometry: Geometry, p: RawMyMapsProperties): (r: Result<Classification, LoadError>)
    ensures r.Success? <==> GeometryLayerType(geometry).Some?
    ensures r.Success? ==> FeatureGroupLayerType(r.value.group) == GeometryLayerType(geometry).value
    ensures r.Success? ==> r.value.group != OsmBikePath
    ensures r.Failure? ==> r.error == UnknownGeometryType(TypeName(geometry))
    ensures geometry.LineString? ==> r == Success(ParseLineFeature(p))
    ensures geometry.Polygon? || geometry.GeometryCollection? ==> r == Success(ParsePolygonFeature(p))
    ensures geometry.PointGeometry? ==> r == Success(ParsePointFeature(p))
  {
    GroupListsPartition();
    match geometry
    case LineString(_) => Success(ParseLineFeature(p))
    case Polygon(_) => Success(ParsePolygonFeature(p))
    case GeometryCollection(_) => Success(ParsePolygonFeature(p))
    case PointGeometry(_) => Success(ParsePointFeature(p))
    case _ => Failure(UnknownGeometryType(TypeName(geometry)))
  }

  /** The direction arrow is the only non-highlightable outcome of the
      whole classifier. */
  lemma OnlyDirectionArrowsAreNotHighlightable(geometry: Geometry, p: RawMyMapsProperties)
    requires ParseFeature(geometry, p).Success?
    ensures !ParseFeature(geometry, p).value.highlightable <==>
            geometry.LineString? && IsRecommendedStroke(p.stroke) && IsLineNumberName(p.name)
  {
  }

  /** The dangerous-road stroke decides alone. */
  lemma DangerousStrokeWins(p: RawMyMapsProperties)
    requires p.stroke == DangerousRoadStroke
    ensures ParseLineFeature(p) == Classification(DangerousRoad, true)
  {
  }

  /** Direction-arrow examples under the two recommended-road colours. */
  lemma DirectionArrowExamples(p: RawMyMapsProperties)
    ensures ParseLineFeature(p.(stroke := RecommendedRoadAltStroke, name := "קו 42"))
            == Classification(RecommendedRoad, false)
    ensures ParseLineFeature(p.(stroke := RecommendedRoadAltStroke, name := "Main St"))
            == Classification(RecommendedRoad, true)
    ensures ParseLineFeature(p.(stroke := RecommendedRoadStroke, name := "Ibn Gvirol"))
            == Classification(RecommendedRoad, true)
  {
    LineNumberNameExamples();
    assert !IsLineNumberName("Ibn Gvirol") by {
      assert "Ibn Gvirol"[..3] != LinePrefix by {
        assert "Ibn Gvirol"[0] == 'I';
      }
    }
  }

  // ---------------------------------------------------------------------
  // The rule chains as data: an independent statement of the priority order.

  /** One test a rule can make of a feature's properties. */
  datatype Condition =
    | StrokeIs(stroke: string)
    | FillIs(fill: string)
    | IconIs(icon: string)
    | StatusIs(status: string)
    | KindIs(kind: string)
    | TrimmedNameIs(name: string)
    | NameIncludes(fragment: string)

  predicate Holds(c: Condition, p: RawMyMapsProperties)
  {
    match c
    case StrokeIs(s) => p.stroke == s
    case FillIs(f) => p.fill == Some(f)
    case IconIs(i) => p.icon == Some(i)
    case StatusIs(s) => TrimmedEquals(p.status, s)
    case KindIs(k) => TrimmedEquals(p.kind, k)
    case TrimmedNameIs(n) => Trim(p.name) == n
    case NameIncludes(f) => Includes(p.name, f)
  }

  /** A rule fires when any one of its conditions holds. */
  datatype Rule = Rule(anyOf: seq<Condition>, group: FeatureGroup)

  predicate Fires(rule: Rule, p: RawMyMapsProperties)
  {
    exists c :: c in rule.anyOf && Holds(c, p)
  }

  /** The group of the first rule that fires, or the fallback. */
  function FirstMatch(rules: seq<Rule>, p: RawMyMapsProperties, fallback: FeatureGroup): FeatureGroup
  {
    if rules == [] then fallback
    else if Fires(rules[0], p) then rules[0].group
    else FirstMatch(rules[1..], p, fallback)
  }

  /** First match wins: the rule at index `k` decides exactly when it fires
      and no earlier rule does. */
  lemma {:induction false} FirstMatchPicksFirstFiring(rules: seq<Rule>, p: RawMyMapsProperties, fallback: FeatureGroup, k: nat)
    requires k < |rules| && Fires(rules[k], p)
    requires forall j :: 0 <= j < k ==> !Fires(rules[j], p)
    ensures FirstMatch(rules, p, fallback) == rules[k].group
  {
    if k > 0 {
      assert !Fires(rules[0], p);
      assert forall j :: 0 <= j < k - 1 ==> rules[1..][j] == rules[j + 1];
      FirstMatchPicksFirstFiring(rules[1..], p, fallback, k - 1);
    }
  }

  /** When no rule fires the fallback is returned. */
  lemma {:induction false} FirstMatchFallsBack(rules: seq<Rule>, p: RawMyMapsProperties, fallback: FeatureGroup)
    requires forall j :: 0 <= j < |rules| ==> !Fires(rules[j], p)
    ensures FirstMatch(rules, p, fallback) == fallback
  {
    if rules != [] {
      assert !Fires(rules[0], p);
      assert forall j :: 0 <= j < |rules| - 1 ==> rules[1..][j] == rules[j + 1];
      FirstMatchFallsBack(rules[1..], p, fallback);
    }
  }

  /** One step of the chain at position `i`. */
  lemma FirstMatchStep(rules: seq<Rule>, i: nat, p: RawMyMapsProperties, fallback: FeatureGroup)
    requires i < |rules|
    ensures FirstMatch(rules[i..], p, fallback) ==
            if Fires(rules[i], p) then rules[i].group else FirstMatch(rules[i + 1..], p, fallback)
  {
    assert rules[i..][0] == rules[i];
    assert rules[i..][1..] == rules[i + 1..];
  }

  lemma FiresOne(c: Condition, group: FeatureGroup, p: RawMyMapsProperties)
    ensures Fires(Rule([c], group), p) <==> Holds(c, p)
  {
    if Holds(c, p) { assert c in [c]; }
  }

  lemma FiresTwo(c: Condition, d: Condition, group: FeatureGroup, p: RawMyMapsProperties)
    ensures Fires(Rule([c, d], group), p) <==> Holds(c, p) || Holds(d, p)
  {
    if Holds(c, p) { assert c in [c, d]; }
    if Holds(d, p) { assert d in [c, d]; }
  }

  /** The line chain in priority order; `Unknown` is its fallback. */
  const LineRules: seq<Rule> := [
    Rule([StrokeIs(DangerousRoadStroke)], DangerousRoad),
    Rule([StrokeIs(RecommendedRoadStroke), StrokeIs(RecommendedRoadAltStroke)], RecommendedRoad),
    Rule([StrokeIs(OfneyDanStroke)], OfneyDan),
    Rule([StrokeIs(PlannedStroke), StatusIs(PlanningStatus)], Planned),
    Rule([StatusIs(InProgressStatus)], InProgress),
    Rule([StrokeIs(MissingStroke), StrokeIs(MissingAltStroke)], Missing),
    Rule([StrokeIs(BridgeStroke)], Bridge),
    Rule([KindIs(DirtRoadKind)], DirtRoad),
    Rule([KindIs(DirtPathKind)], DirtPath),
    Rule([StrokeIs(BikePathStroke)], BikePath),
    Rule([TrimmedNameIs(MistakeName)], Mistake)
  ]

  /** The polygon chain; `UnknownPolygon` is its fallback. */
  const PolygonRules: seq<Rule> := [
    Rule([NameIncludes(IsochroneNameFragment)], TrainStationIsochrone),
    Rule([FillIs(CoveredAreaFill)], CoveredArea),
    Rule([FillIs(HillFill)], Hill),
    Rule([FillIs(CalmedTrafficAreaFill)], CalmedTrafficArea)
  ]

  /** The point chain; `GeneralNote` is its fallback. */
  const PointRules: seq<Rule> := [
    Rule([IconIs(JunctionIcon)], Junction),
    Rule([IconIs(CalmedJunctionIcon)], CalmedJunction),
    Rule([IconIs(BlockedPathIcon)], BlockedPath),
    Rule([IconIs(TrainStationIcon)], TrainStation)
  ]

  /** The line classifier is the first match over the line chain. */
  lemma ParseLineFeatureIsFirstMatch(p: RawMyMapsProperties)
    ensures ParseLineFeature(p).group == FirstMatch(LineRules, p, Unknown)
  {
    var rs := LineRules;
    assert rs[0..] == rs;
    LineChainFromPlanned(p);
    LineChainFromMissing(p);
    LineChainFromDirtRoad(p);
    LineChainFromBikePath(p);
    FiresOne(StrokeIs(DangerousRoadStroke), DangerousRoad, p);
    FiresTwo(StrokeIs(RecommendedRoadStroke), StrokeIs(RecommendedRoadAltStroke), RecommendedRoad, p);
    FiresOne(StrokeIs(OfneyDanStroke), OfneyDan, p);
    FirstMatchStep(rs, 2, p, Unknown);
    FirstMatchStep(rs, 1, p, Unknown);
    FirstMatchStep(rs, 0, p, Unknown);
  }

  // The line chain, two rules at a time from the `planned` rule on.

  lemma LineChainFromPlanned(p: RawMyMapsProperties)
    ensures FirstMatch(LineRules[3..], p, Unknown) ==
      if p.stroke == PlannedStroke || TrimmedEquals(p.status, PlanningStatus) then Planned
      else if TrimmedEquals(p.status, InProgressStatus) then InProgress
      else FirstMatch(LineRules[5..], p, Unknown)
  {
    var rs := LineRules;
    FiresTwo(StrokeIs(PlannedStroke), StatusIs(PlanningStatus), Planned, p);
    FiresOne(StatusIs(InProgressStatus), InProgress, p);
    FirstMatchStep(rs, 4, p, Unknown);
    FirstMatchStep(rs, 3, p, Unknown);
  }

  lemma LineChainFromMissing(p: RawMyMapsProperties)
    ensures FirstMatch(LineRules[5..], p, Unknown) ==
      if p.stroke == MissingStroke || p.stroke == MissingAltStroke then Missing
      else if p.stroke == BridgeStroke then Bridge
      else FirstMatch(LineRules[7..], p, Unknown)
  {
    var rs := LineRules;
    FiresTwo(StrokeIs(MissingStroke), StrokeIs(MissingAltStroke), Missing, p);
    FiresOne(StrokeIs(BridgeStroke), Bridge, p);
    FirstMatchStep(rs, 6, p, Unknown);
    FirstMatchStep(rs, 5, p, Unknown);
  }

  lemma LineChainFromDirtRoad(p: RawMyMapsProperties)
    ensures FirstMatch(LineRules[7..], p, Unknown) ==
      if TrimmedEquals(p.kind, DirtRoadKind) then DirtRoad
      else if TrimmedEquals(p.kind, DirtPathKind) then DirtPath
      else FirstMatch(LineRules[9..], p, Unknown)
  {
    var rs := LineRules;
    FiresOne(KindIs(DirtRoadKind), DirtRoad, p);
    FiresOne(KindIs(DirtPathKind), DirtPath, p);
    FirstMatchStep(rs, 8, p, Unknown);
    FirstMatchStep(rs, 7, p, Unknown);
  }

  lemma LineChainFromBikePath(p: RawMyMapsProperties)
    ensures FirstMatch(LineRules[9..], p, Unknown) ==
      if p.stroke == BikePathStroke then BikePath
      else if Trim(p.name) == MistakeName then Mistake
      else Unknown
  {
    var rs := LineRules;
    assert rs[11..] == [];
    FiresOne(StrokeIs(BikePathStroke), BikePath, p);
    FiresOne(TrimmedNameIs(MistakeName), Mistake, p);
    FirstMatchStep(rs, 10, p, Unknown);
    FirstMatchStep(rs, 9, p, Unknown);
  }

  /** The polygon classifier is the first match over the polygon chain. */
  lemma ParsePolygonFeatureIsFirstMatch(p: RawMyMapsProperties)
    ensures ParsePolygonFeature(p).group == FirstMatch(PolygonRules, p, UnknownPolygon)
  {
    var rs := PolygonRules;
    FiresOne(NameIncludes(IsochroneNameFragment), TrainStationIsochrone, p);
    FiresOne(FillIs(CoveredAreaFill), CoveredArea, p);
    FiresOne(FillIs(HillFill), Hill, p);
    FiresOne(FillIs(CalmedTrafficAreaFill), CalmedTrafficArea, p);
    FirstMatchStep(rs, 0, p, UnknownPolygon);
    FirstMatchStep(rs, 1, p, UnknownPolygon);
    FirstMatchStep(rs, 2, p, UnknownPolygon);
    FirstMatchStep(rs, 3, p, UnknownPolygon);
    assert rs[0..] == rs;
    assert rs[4..] == [];
  }

  /** The point classifier is the first match over the point chain. */
  lemma ParsePointFeatureIsFirstMatch(p: RawMyMapsProperties)
    ensures ParsePointFeature(p).group == FirstMatch(PointRules, p, GeneralNote)
  {
    var rs := PointRules;
    FiresOne(IconIs(JunctionIcon), Junction, p);
    FiresOne(IconIs(CalmedJunctionIcon), CalmedJunction, p);
    FiresOne(IconIs(BlockedPathIcon), BlockedPath, p);
    FiresOne(IconIs(TrainStationIcon), TrainStation, p);
    FirstMatchStep(rs, 0, p, GeneralNote);
    FirstMatchStep(rs, 1, p, GeneralNote);
    FirstMatchStep(rs, 2, p, GeneralNote);
    FirstMatchStep(rs, 3, p, GeneralNote);
    assert rs[0..] == rs;
    assert rs[4..] == [];
  }

  // ---------------------------------------------------------------------
  // Annotating a converted collection.

  predicate HasNullGeometry(features: seq<RawFeature>)
  {
    exists i :: 0 <= i < |features| && features[i].geometry.None?
  }

  /** `out` is `f` with the classifier's three fields added. */
  predicate AnnotatedFrom(f: RawFeature, out: MyMapsFeature)
  {
    && f.geometry == Some(out.geometry)
    && out.properties.raw == f.properties
    && ParseFeature(out.geometry, f.properties)
       == Success(Classification(out.properties.featureGroup, out.properties.highlightable))
    && out.properties.layerType == FeatureGroupLayerType(out.properties.featureGroup)
  }

  /** A geometry the classifier accepts. */
  predicate Supported(f: RawFeature)
  {
    f.geometry.Some? && GeometryLayerType(f.geometry.value).Some?
  }

  /** The `map` over a null-free collection. It succeeds exactly when every
      geometry type is supported, keeping count, order and raw properties;
      otherwise the first unsupported feature's error is thrown. */
  function AnnotateAll(features: seq<RawFeature>): (r: Result<seq<MyMapsFeature>, LoadError>)
    requires forall i :: 0 <= i < |features| ==> features[i].geometry.Some?
    ensures r.Success? <==> forall i :: 0 <= i < |features| ==> Supported(features[i])
    ensures r.Success? ==> |r.value| == |features|
                           && forall i :: 0 <= i < |features| ==> AnnotatedFrom(features[i], r.value[i])
    ensures r.Failure? ==> exists i :: 0 <= i < |features| && !Supported(features[i])
                                     && (forall j :: 0 <= j < i ==> Supported(features[j]))
                                     && r.error == UnknownGeometryType(TypeName(features[i].geometry.value))
  {
    if features == [] then Success([])
    else
      var f := features[0];
      match ParseFeature(f.geometry.value, f.properties)
      case Failure(e) => Failure(e)
      case Success(c) =>
        var out := MyMapsFeature(f.geometry.value,
          MyMapsProperties(f.properties, c.group, FeatureGroupLayerType(c.group), c.highlightable));
        match AnnotateAll(features[1..])
        case Failure(e) =>
          assert forall j :: 1 <= j < |features| ==> features[j] == features[1..][j - 1];
          Failure(e)
        case Success(rest) =>
          assert forall j :: 1 <= j < |features| ==> features[j] == features[1..][j - 1];
          Success([out] + rest)
  }

  /** What the loader does with the converted GeoJSON: a collection holding
      any null geometry is rejected whole, otherwise it is annotated. */
  function ClassifyFetchedFeatures(features: seq<RawFeature>): (r: Result<seq<MyMapsFeature>, LoadError>)
    ensures HasNullGeometry(features) <==> r == Failure(NullGeometry)
    ensures !HasNullGeometry(features) ==> r == AnnotateAll(features)
    ensures r.Success? <==> forall i :: 0 <= i < |features| ==> Supported(features[i])
    ensures r.Success? ==> |r.value| == |features|
                           && forall i :: 0 <= i < |features| ==> AnnotatedFrom(features[i], r.value[i])
  {
    if HasNullGeometry(features) then Failure(NullGeometry)
    else AnnotateAll(features)
  }

  /** A null geometry anywhere rejects the batch, whatever the other
      features are. */
  lemma NullGeometryRejectsBatch(before: seq<RawFeature>, f: RawFeature, after: seq<RawFeature>)
    requires f.geometry.None?
    ensures ClassifyFetchedFeatures(before + [f] + after) == Failure(NullGeometry)
  {
    assert (before + [f] + after)[|before|] == f;
  }

  /** Each annotated feature's layer type is the layer of its geometry. */
  lemma AnnotatedLayerMatchesGeometry(features: seq<RawFeature>, i: nat)
    requires ClassifyFetchedFeatures(features).Success? && i < |features|
    ensures ClassifyFetchedFeatures(features).value[i].properties.layerType
            == GeometryLayerType(features[i].geometry.value).value
  {
  }
}
