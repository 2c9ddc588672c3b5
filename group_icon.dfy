/** The style table behind each group's legend icon. The drawing itself is
    not modelled; the three icon components are named by `IconKind`. */
module GroupIcon {
  import opened FeatureGroups

  /** The icon components a point style draws (traffic light, no-entry
      sign, train). */
  datatype IconKind = TrafficIcon | BlockIcon | TrainIcon

  datatype FeatureGroupStyle =
    | PolygonStyle(color: string, opacity: real)
    | LineStyle(color: string, width: real)
    | IconStyle(color: string, icon: IconKind)
    | RawPolygon
    | RawLine
    | RawIcon
  {
    /** The layer a style kind belongs to. */
    function Layer(): LayerType
    {
      match this
      case PolygonStyle(_, _) => PolygonLayer
      case RawPolygon => PolygonLayer
      case LineStyle(_, _) => LineLayer
      case RawLine => LineLayer
      case IconStyle(_, _) => PointLayer
      case RawIcon => PointLayer
    }

    predicate IsRaw()
    {
      RawPolygon? || RawLine? || RawIcon?
    }
  }

  /** The style of every group. Its kind always belongs to the group's layer
      type. */
  function StyleForGroup(g: FeatureGroup): (st: FeatureGroupStyle)
    ensures st.Layer() == FeatureGroupLayerType(g)
  {
    match g
    case BikePath => LineStyle("#3f5ba9", 4.0)
    case OsmBikePath => LineStyle("#3f5ba9", 4.0)
    case RecommendedRoad => LineStyle("#0ba9cc", 2.35)
    case DangerousRoad => LineStyle("#ff5252", 1.75)
    case OfneyDan => LineStyle("#c6a4cf", 7.0)
    case Planned => LineStyle("#fad199", 3.1)
    case InProgress => LineStyle("#f8971b", 2.9)
    case Missing => LineStyle("#f8971b", 4.0)
    case DirtRoad => LineStyle("#009d57", 2.9)
    case DirtPath => LineStyle("#62af44", 2.1)
    case Bridge => LineStyle("#7c3592", 3.7)
    case Unknown => RawLine
    case Mistake => RawLine
    case UnknownPolygon => RawPolygon
    case TrainStationIsochrone => PolygonStyle("#f8971b", 0.2)
    case CoveredArea => PolygonStyle("#009d57", 0.8)
    case Hill => PolygonStyle("#ee9c96", 0.5)
    case CalmedTrafficArea => PolygonStyle("#93d7e8", 0.5)
    case Junction => IconStyle("red", TrafficIcon)
    case CalmedJunction => IconStyle("green", TrafficIcon)
    case BlockedPath => IconStyle("green", BlockIcon)
    case TrainStation => IconStyle("blue", TrainIcon)
    case GeneralNote => RawIcon
  }

  /** The raw (unstyled) fallbacks are used for exactly the four catch-all
      groups. */
  lemma RawStyleExactlyForCatchAllGroups(g: FeatureGroup)
    ensures StyleForGroup(g).IsRaw() <==> g in [Unknown, Mistake, UnknownPolygon, GeneralNote]
  {
  }

  /** Both bike-path layers are drawn alike, so the radio between them swaps
      the data source and not the look. */
  lemma BikePathStylesAgree()
    ensures StyleForGroup(BikePath) == StyleForGroup(OsmBikePath)
  {
  }
}
