/** How the style table and the classifier fit together: a feature
    recognised by its colour is drawn in that same colour. */
module StyleConsistency {
  import opened Wrappers
  import opened JsStrings
  import opened FeatureGroups
  import opened GroupIcon
  import opened MyMapsMapData

  /** The stroke colours that name a group and are also that group's line
      colour. The alternative recommended and missing strokes are drawn in
      the main colour of their group instead. */
  predicate IsStyledStroke(stroke: string)
  {
    stroke == DangerousRoadStroke || stroke == RecommendedRoadStroke || stroke == OfneyDanStroke
    || stroke == PlannedStroke || stroke == MissingStroke || stroke == BridgeStroke
    || stroke == BikePathStroke
  }

  /** A line whose stroke is one of the styled colours, and which no
      status or kind rule ahead of that colour's rule claims, is drawn as a
      line of its own stroke colour. */
  lemma LineDrawnInItsStroke(p: RawMyMapsProperties)
    requires IsStyledStroke(p.stroke)
    requires p.stroke in [MissingStroke, BridgeStroke, BikePathStroke] ==>
      !TrimmedEquals(p.status, PlanningStatus) && !TrimmedEquals(p.status, InProgressStatus)
    requires p.stroke == BikePathStroke ==>
      !TrimmedEquals(p.kind, DirtRoadKind) && !TrimmedEquals(p.kind, DirtPathKind)
    ensures StyleForGroup(ParseLineFeature(p).group).LineStyle?
    ensures StyleForGroup(ParseLineFeature(p).group).color == p.stroke
  {
  }

  /** The two alternative strokes are drawn in their group's main colour. */
  lemma AlternativeStrokesDrawnInMainColour(p: RawMyMapsProperties)
    requires p.stroke == RecommendedRoadAltStroke ||
      (p.stroke == MissingAltStroke && !TrimmedEquals(p.status, PlanningStatus)
       && !TrimmedEquals(p.status, InProgressStatus))
    ensures StyleForGroup(ParseLineFeature(p).group) ==
      if p.stroke == RecommendedRoadAltStroke then StyleForGroup(RecommendedRoad)
      else StyleForGroup(Missing)
    ensures StyleForGroup(ParseLineFeature(p).group).color != p.stroke
  {
  }

  /** A polygon recognised by its fill, and not named as an isochrone, is
      drawn in its own fill colour. */
  lemma PolygonDrawnInItsFill(p: RawMyMapsProperties, fill: string)
    requires p.fill == Some(fill)
    requires fill == CoveredAreaFill || fill == HillFill || fill == CalmedTrafficAreaFill
    requires !Includes(p.name, IsochroneNameFragment)
    ensures StyleForGroup(ParsePolygonFeature(p).group).PolygonStyle?
    ensures StyleForGroup(ParsePolygonFeature(p).group).color == fill
  {
  }
}
