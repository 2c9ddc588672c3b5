/** The closed catalog of feature groups: the line, polygon and point groups
    of the curated map, the one OpenStreetMap group, the layer type of each,
    and the display-name and description tables. */
module FeatureGroups {
  import opened Wrappers

  datatype LayerType = LineLayer | PointLayer | PolygonLayer

  /** Every category a map feature can be drawn in. `OfneyDan` is the group
      the source spells 'ofney dan'. */
  datatype FeatureGroup =
    // line groups of the curated map
    | BikePath | RecommendedRoad | DangerousRoad | OfneyDan | Planned
    | InProgress | Missing | DirtRoad | DirtPath | Bridge | Unknown | Mistake
    // polygon groups of the curated map
    | UnknownPolygon | TrainStationIsochrone | CoveredArea | Hill | CalmedTrafficArea
    // point groups of the curated map
    | Junction | CalmedJunction | BlockedPath | TrainStation | GeneralNote
    // the OpenStreetMap group
    | OsmBikePath

  const MyMapsLineGroups: seq<FeatureGroup> :=
    [BikePath, RecommendedRoad, DangerousRoad, OfneyDan, Planned, InProgress,
     Missing, DirtRoad, DirtPath, Bridge, Unknown, Mistake]

  const MyMapsPolygonGroups: seq<FeatureGroup> :=
    [UnknownPolygon, TrainStationIsochrone, CoveredArea, Hill, CalmedTrafficArea]

  const MyMapsPointGroups: seq<FeatureGroup> :=
    [Junction, CalmedJunction, BlockedPath, TrainStation, GeneralNote]

  /** All groups of the curated map, lines first, then polygons, then points. */
  const MyMapsFeatureGroups: seq<FeatureGroup> :=
    MyMapsLineGroups + MyMapsPolygonGroups + MyMapsPointGroups

  predicate NoDuplicates<T(==)>(s: seq<T>)
  {
    forall i, j :: 0 <= i < j < |s| ==> s[i] != s[j]
  }

  /** The layer a group is drawn on: point and polygon groups by list
      membership, every other group (the OpenStreetMap one included) on the
      line layer. */
  function FeatureGroupLayerType(g: FeatureGroup): (t: LayerType)
    ensures t == PointLayer <==> g in MyMapsPointGroups
    ensures t == PolygonLayer <==> g in MyMapsPolygonGroups
    ensures t == LineLayer <==> g in MyMapsLineGroups || g == OsmBikePath
  {
    if g in MyMapsPointGroups then PointLayer
    else if g in MyMapsPolygonGroups then PolygonLayer
    else EveryGroupListed(g); LineLayer
  }

  /** The enumeration is closed: each group is in one of the three lists or
      is the OpenStreetMap group. */
  lemma EveryGroupListed(g: FeatureGroup)
    ensures g in MyMapsLineGroups || g in MyMapsPolygonGroups || g in MyMapsPointGroups || g == OsmBikePath
  {
    match g
    case BikePath => assert MyMapsLineGroups[0] == g;
    case _ =>
  }

  /** The three group lists are duplicate-free, pairwise disjoint, and leave
      out the OpenStreetMap group. */
  lemma GroupListsPartition()
    ensures NoDuplicates(MyMapsLineGroups)
    ensures NoDuplicates(MyMapsPolygonGroups)
    ensures NoDuplicates(MyMapsPointGroups)
    ensures forall g :: g in MyMapsLineGroups ==> g !in MyMapsPolygonGroups && g !in MyMapsPointGroups
    ensures forall g :: g in MyMapsPolygonGroups ==> g !in MyMapsPointGroups
    ensures OsmBikePath !in MyMapsFeatureGroups
  {
  }

  /** The curated map's groups are every group but the OpenStreetMap one,
      each listed once. */
  lemma MyMapsFeatureGroupsComplete()
    ensures forall g :: g in MyMapsFeatureGroups <==> g != OsmBikePath
    ensures |MyMapsFeatureGroups| == 22 && NoDuplicates(MyMapsFeatureGroups)
  {
    GroupListsPartition();
    forall g ensures g in MyMapsFeatureGroups <==> g != OsmBikePath {
      match g
      case OsmBikePath =>
      case _ => assert g in MyMapsLineGroups || g in MyMapsPolygonGroups || g in MyMapsPointGroups;
    }
    NoDuplicatesAppend(MyMapsLineGroups, MyMapsPolygonGroups);
    NoDuplicatesAppend(MyMapsLineGroups + MyMapsPolygonGroups, MyMapsPointGroups);
  }

  /** Two duplicate-free lists with no common member concatenate to a
      duplicate-free list. */
  lemma NoDuplicatesAppend<T>(xs: seq<T>, ys: seq<T>)
    requires NoDuplicates(xs) && NoDuplicates(ys)
    requires forall x :: x in xs ==> x !in ys
    ensures NoDuplicates(xs + ys)
  {
    var zs := xs + ys;
    forall i, j | 0 <= i < j < |zs| ensures zs[i] != zs[j] {
      if j < |xs| {
        assert zs[i] == xs[i] && zs[j] == xs[j];
      } else if i >= |xs| {
        assert zs[i] == ys[i - |xs|] && zs[j] == ys[j - |xs|];
      } else {
        assert zs[i] == xs[i] && zs[j] == ys[j - |xs|];
        assert xs[i] in xs;
      }
    }
  }

  function FeatureGroupSingularDisplayName(g: FeatureGroup): (name: string)
    ensures |name| > 0
  {
    match g
    case OsmBikePath => "שביל אופניים (OSM)"
    case BikePath => "שביל אופניים"
    case RecommendedRoad => "כביש סביר"
    case DangerousRoad => "כביש מסוכן"
    case OfneyDan => "אופנידן"
    case Planned => "שביל מתוכנן"
    case InProgress => "שביל בביצוע"
    case Missing => "שביל חסר"
    case DirtRoad => "דרך עפר"
    case DirtPath => "שביל עפר"
    case Bridge => "גשר"
    case Unknown => "???"
    case Mistake => "טעות"
    case UnknownPolygon => "שטח כלשהו"
    case TrainStationIsochrone => "איזוכרון תחנת רכבת"
    case CoveredArea => "שטח מכוסה"
    case Hill => "גבעה"
    case CalmedTrafficArea => "איזור מיתון תנועה"
    case Junction => "צומת"
    case CalmedJunction => "צומת עם מיתון תנועה"
    case BlockedPath => "דרך חסומה"
    case TrainStation => "תחנת רכבת"
    case GeneralNote => "הערה כללית"
  }

  function FeatureGroupPluralDisplayName(g: FeatureGroup): (name: string)
    ensures |name| > 0
  {
    match g
    case OsmBikePath => "שבילי אופניים (OSM)"
    case BikePath => "שבילי אופניים (מפה ציבורית)"
    case RecommendedRoad => "כבישים סבירים"
    case DangerousRoad => "כבישים מסוכנים"
    case OfneyDan => "אופנידן"
    case Planned => "שבילים מתוכננים"
    case InProgress => "שבילים בביצוע"
    case Missing => "שבילים חסרים"
    case DirtRoad => "דרכי עפר"
    case DirtPath => "שבילי עפר"
    case Bridge => "גשרים"
    case Unknown => "???"
    case Mistake => "טעויות"
    case UnknownPolygon => "שטחים כלשהם"
    case TrainStationIsochrone => "איזוכרוני תחנת רכבת"
    case CoveredArea => "שטחים מכוסים"
    case Hill => "גבעות"
    case CalmedTrafficArea => "איזורי מיתון תנועה"
    case Junction => "צמתים"
    case CalmedJunction => "צמתים עם מיתון תנועה"
    case BlockedPath => "דרכים חסומות"
    case TrainStation => "תחנות רכבת"
    case GeneralNote => "הערות כלליות"
  }

  /** The plural name differs from the singular one for every group but
      'ofney dan' and 'unknown'. */
  lemma PluralEqualsSingularExactly(g: FeatureGroup)
    ensures FeatureGroupPluralDisplayName(g) == FeatureGroupSingularDisplayName(g)
            <==> g == OfneyDan || g == Unknown
  {
  }

  /** The optional description shown under a group's toggle. */
  function FeatureGroupDescription(g: FeatureGroup): (d: Option<string>)
    ensures d.Some? ==> |d.value| > 0
  {
    match g
    case BikePath => Some("עם הערות אבל פחות מעודכן")
    case OsmBikePath => Some("בלי הערות אבל יותר מעודכן")
    case RecommendedRoad => Some("כבישים שלא סיוט לרכוב עליהם")
    case DirtPath => Some("לא מומלץ לאופני כביש")
    case DirtRoad => Some("לא מומלץ לאופני כביש או עיר")
    case OfneyDan => Some("פרוייקט שאמור לקשר את תל אביב לשאר ערי גוש דן")
    case CalmedTrafficArea => Some("המהירות המותרת למכוניות היא עד 30 קמ״ש")
    case _ => None
  }

  /** Exactly seven groups carry a description. */
  lemma DescriptionDefinedExactly(g: FeatureGroup)
    ensures FeatureGroupDescription(g).Some? <==>
            g in [BikePath, OsmBikePath, RecommendedRoad, DirtPath, DirtRoad, OfneyDan, CalmedTrafficArea]
  {
  }
}
