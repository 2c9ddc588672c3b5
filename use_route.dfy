/** The route builder: a chain of directions segments, the last of which may
    still be pending. Its two state cells are `pastSegments` and `segment`;
    the transitions are stated as functions from the old state to the new
    one, and the `RouteBuilder` class performs them step by step. */
module UseRoute {
  import opened Wrappers
  import opened GeoJson
  import opened Utils

  datatype Point = Point(latitude: real, longitude: real)

  /** A fetched route line (a GeoJSON Feature holding a LineString). */
  datatype LineFeature = LineFeature(coordinates: seq<Position>)

  datatype Segment = Segment(origin: Point, destination: Point, feature: LineFeature)

  /** A segment whose line may not have been fetched yet. */
  datatype PartialSegment = PartialSegment(origin: Point, destination: Point, feature: Option<LineFeature>)

  datatype RouteState = RouteState(pastSegments: seq<Segment>, segment: Option<PartialSegment>)

  /** A point marker on the route layer (a GeoJSON Feature holding a Point). */
  datatype PointFeature = PointFeature(coordinates: Position)

  /** What the route layer draws. */
  datatype RouteFeature = LineOut(line: LineFeature) | PointOut(point: PointFeature)

  /** The argument of `pointFeature`: a `Point` object or a GeoJSON position. */
  datatype PointOrPosition = FromPoint(point: Point) | FromPosition(position: Position)

  const Initial: RouteState := RouteState([], None)

  function Partial(s: Segment): PartialSegment
  {
    PartialSegment(s.origin, s.destination, Some(s.feature))
  }

  /** `segment as Segment`, for a segment whose line is present. */
  function Committed(s: PartialSegment): Segment
    requires s.feature.Some?
  {
    Segment(s.origin, s.destination, s.feature.value)
  }

  /** `{ longitude: p[0], latitude: p[1] }`. */
  function PositionToPoint(p: Position): Point
  {
    Point(p.latitude, p.longitude)
  }

  /** `[point.longitude, point.latitude]`. */
  function PointToPosition(p: Point): Position
  {
    Position(p.longitude, p.latitude)
  }

  lemma PositionPointRoundTrip(p: Position, q: Point)
    ensures PointToPosition(PositionToPoint(p)) == p
    ensures PositionToPoint(PointToPosition(q)) == q
  {
  }

  /** `pointFeature`: a position is used as it is, a point is turned into
      `[longitude, latitude]`. */
  function MakePointFeature(p: PointOrPosition): (f: PointFeature)
    ensures p.FromPosition? ==> f.coordinates == p.position
    ensures p.FromPoint? ==> PositionToPoint(f.coordinates) == p.point
  {
    match p
    case FromPosition(pos) => PointFeature(pos)
    case FromPoint(pt) => PointFeature(PointToPosition(pt))
  }

  /** The last coordinate of a segment's line, when it has one. */
  function LastCoordinate(s: Option<PartialSegment>): Option<Position>
  {
    if s.Some? && s.value.feature.Some? then At(s.value.feature.value.coordinates, -1) else None
  }

  /** The segment `addStop` continues from: the pending one, or else the
      last past one. */
  function LastSegment(st: RouteState): Option<PartialSegment>
  {
    if st.segment.Some? then st.segment
    else match At(st.pastSegments, -1)
      case Some(s) => Some(Partial(s))
      case None => None
  }

  /** The origin of the segment `addStop` opens. */
  function NextOrigin(st: RouteState, center: Point): Point
  {
    match LastCoordinate(LastSegment(st))
    case Some(pos) => PositionToPoint(pos)
    case None => center
  }

  predicate IsBlockedByPending(st: RouteState)
  {
    st.segment.Some? && st.segment.value.feature.None?
  }

  /** `addStop`. It does nothing while a fetch is pending; otherwise it
      extends the route by one unresolved segment that ends at the center.
      Either way a segment is pending afterwards. */
  function AfterAddStop(st: RouteState, center: Point): (r: RouteState)
    ensures r.segment.Some? && r.segment.value.feature.None?
    ensures r == st <==> IsBlockedByPending(st)
    ensures !IsBlockedByPending(st) ==>
              Segments(r) == Segments(st) + [r.segment.value] && r.segment.value.destination == center
  {
    if IsBlockedByPending(st) then st
    else
      var past := if st.segment.Some? then st.pastSegments + [Committed(st.segment.value)] else st.pastSegments;
      RouteState(past, Some(PartialSegment(NextOrigin(st, center), center, None)))
  }

  /** `removeStop`. With a past segment, the route keeps every segment
      before the last past one, drops the pending one, and reopens the last
      past segment from its origin to the center, unresolved. */
  function AfterRemoveStop(st: RouteState, center: Point): (r: RouteState)
    ensures |st.pastSegments| > 0 ==>
              var n := |st.pastSegments|;
              && |Segments(r)| == n
              && Segments(r)[..n - 1] == Segments(st)[..n - 1]
              && Segments(r)[n - 1] == PartialSegment(Segments(st)[n - 1].origin, center, None)
  {
    if |st.pastSegments| == 0 then st
    else
      var last := st.pastSegments[|st.pastSegments| - 1];
      RouteState(st.pastSegments[..|st.pastSegments| - 1], Some(PartialSegment(last.origin, center, None)))
  }

  /** `clear`: no segment is left, nothing is drawn and no stop can be
      removed. */
  function AfterClear(st: RouteState): (r: RouteState)
    ensures Segments(r) == [] && Features(r) == [] && !CanRemoveStop(r)
  {
    Initial
  }

  /** The update a resolved directions fetch makes: the segment becomes the
      request's origin and destination with the fetched line. */
  function AfterFetch(st: RouteState, origin: Point, destination: Point, feature: LineFeature): (r: RouteState)
    ensures r.pastSegments == st.pastSegments && CanRemoveStop(r) == CanRemoveStop(st)
    ensures !IsBlockedByPending(r)
    ensures var n := |st.pastSegments|;
            && Segments(r)[..n] == Segments(st)[..n]
            && |Segments(r)| == n + 1
            && Segments(r)[n].feature == Some(feature)
  {
    RouteState(st.pastSegments, Some(PartialSegment(origin, destination, Some(feature))))
  }

  /** The tracking effect's guard: the request `(origin, throttled center)`
      it sends, if any. Whether the center moved at least 0.001 degrees from
      the origin is given as `movedFarEnough`. */
  function FetchRequest(st: RouteState, isTracking: bool, movedFarEnough: bool, throttledCenter: Point): (r: Option<(Point, Point)>)
    ensures r.Some? <==> isTracking && st.segment.Some? && movedFarEnough
    ensures r.Some? ==> r.value.0 == st.segment.value.origin && r.value.1 == throttledCenter
  {
    if !isTracking || st.segment.None? || !movedFarEnough then None
    else Some((st.segment.value.origin, throttledCenter))
  }

  predicate CanRemoveStop(st: RouteState)
  {
    |st.pastSegments| > 0
  }

  // ---------------------------------------------------------------------
  // Derived views

  function Partials(past: seq<Segment>): seq<PartialSegment>
  {
    seq(|past|, i requires 0 <= i < |past| => Partial(past[i]))
  }

  /** `segments`: the past segments followed by the pending one, if any. */
  function Segments(st: RouteState): seq<PartialSegment>
  {
    Partials(st.pastSegments) + (if st.segment.Some? then [st.segment.value] else [])
  }

  /** `segments` is `compact([...pastSegments, segment])`. */
  lemma SegmentsIsCompact(st: RouteState)
    ensures Segments(st) == Compact(seq(|st.pastSegments|, i requires 0 <= i < |st.pastSegments| =>
                                          Some(Partial(st.pastSegments[i]))) + [st.segment])
  {
    var lifted := seq(|st.pastSegments|, i requires 0 <= i < |st.pastSegments| => Some(Partial(st.pastSegments[i])));
    CompactAppend(lifted, [st.segment]);
    CompactAllPresent(lifted);
    assert Compact(lifted) == Partials(st.pastSegments);
    assert [st.segment][1..] == [];
    assert Compact([st.segment]) == if st.segment.Some? then [st.segment.value] else [];
  }

  /** The lines of the segments that have one, in segment order. */
  function LineFeatures(segs: seq<PartialSegment>): (r: seq<LineFeature>)
    ensures |r| <= |segs|
  {
    if segs == [] then []
    else
      var rest := LineFeatures(segs[1..]);
      (if segs[0].feature.Some? then [segs[0].feature.value] else []) + rest
  }

  /** The endpoint markers of one segment: its first and last coordinate
      when it has a non-empty line, none otherwise. */
  function SegmentEndpoints(s: PartialSegment): seq<Position>
  {
    if s.feature.Some? && s.feature.value.coordinates != [] then
      var c := s.feature.value.coordinates;
      [c[0], c[|c| - 1]]
    else []
  }

  /** The endpoints are `compact([c.at(0), c.at(-1)])` of the segment's
      coordinates `c`, and none without a line. */
  lemma SegmentEndpointsIsCompact(s: PartialSegment)
    ensures s.feature.None? ==> SegmentEndpoints(s) == []
    ensures s.feature.Some? ==>
      var c := s.feature.value.coordinates;
      SegmentEndpoints(s) == Compact([At(c, 0), At(c, -1)])
  {
    if s.feature.Some? {
      var c := s.feature.value.coordinates;
      if c != [] {
        CompactAllPresent([At(c, 0), At(c, -1)]);
      }
    }
  }

  /** Every marker a segment gets is on its own line. */
  predicate IsEndpointOf(pos: Position, s: PartialSegment)
  {
    s.feature.Some? && |s.feature.value.coordinates| > 0 &&
    (pos == s.feature.value.coordinates[0] ||
     pos == s.feature.value.coordinates[|s.feature.value.coordinates| - 1])
  }

  /** `points.map(pointFeature)` for positions. */
  function Markers(ends: seq<Position>): seq<PointFeature>
  {
    seq(|ends|, k requires 0 <= k < |ends| => MakePointFeature(FromPosition(ends[k])))
  }

  /** The endpoint markers of all segments (the `flatMap`). */
  function PointFeatures(segs: seq<PartialSegment>): seq<PointFeature>
  {
    if segs == [] then []
    else Markers(SegmentEndpoints(segs[0])) + PointFeatures(segs[1..])
  }

  /** At most two markers per drawn line. */
  lemma {:induction false} AtMostTwoMarkersPerLine(segs: seq<PartialSegment>)
    ensures |PointFeatures(segs)| <= 2 * |LineFeatures(segs)|
  {
    if segs != [] {
      AtMostTwoMarkersPerLine(segs[1..]);
    }
  }

  /** Every marker is an endpoint of some segment's line. */
  lemma {:induction false} MarkersAreEndpoints(segs: seq<PartialSegment>, k: nat)
    requires k < |PointFeatures(segs)|
    ensures exists i :: 0 <= i < |segs| && IsEndpointOf(PointFeatures(segs)[k].coordinates, segs[i])
  {
    var here := Markers(SegmentEndpoints(segs[0]));
    if k < |here| {
      assert IsEndpointOf(PointFeatures(segs)[k].coordinates, segs[0]);
    } else {
      MarkersAreEndpoints(segs[1..], k - |here|);
      var i :| 0 <= i < |segs[1..]| && IsEndpointOf(PointFeatures(segs[1..])[k - |here|].coordinates, segs[1..][i]);
      assert segs[1..][i] == segs[i + 1];
    }
  }

  function LinesOut(lines: seq<LineFeature>): seq<RouteFeature>
  {
    seq(|lines|, i requires 0 <= i < |lines| => LineOut(lines[i]))
  }

  function PointsOut(points: seq<PointFeature>): seq<RouteFeature>
  {
    seq(|points|, i requires 0 <= i < |points| => PointOut(points[i]))
  }

  /** `features`: the drawn lines in segment order, then the markers. */
  function FeaturesOf(segs: seq<PartialSegment>): seq<RouteFeature>
  {
    LinesOut(LineFeatures(segs)) + PointsOut(PointFeatures(segs))
  }

  function Features(st: RouteState): seq<RouteFeature>
  {
    FeaturesOf(Segments(st))
  }

  /** Every drawn line is the line of some segment and every resolved
      segment's line is drawn. */
  lemma LineFeaturesExactly(segs: seq<PartialSegment>, x: LineFeature)
    ensures x in LineFeatures(segs) <==> exists j :: 0 <= j < |segs| && segs[j].feature == Some(x)
  {
    var fs := seq(|segs|, i requires 0 <= i < |segs| => segs[i].feature);
    LineFeaturesIsCompact(segs);
    if x in LineFeatures(segs) {
      assert Some(x) in fs;
      var j :| 0 <= j < |fs| && fs[j] == Some(x);
      assert segs[j].feature == Some(x);
    }
    if exists j :: 0 <= j < |segs| && segs[j].feature == Some(x) {
      var j :| 0 <= j < |segs| && segs[j].feature == Some(x);
      assert fs[j] == Some(x);
    }
  }

  /** Where each drawn feature comes from: position `i` holds line `i`, and
      the markers follow the lines. */
  lemma FeaturesOfIndex(segs: seq<PartialSegment>)
    ensures var f := FeaturesOf(segs); var lines := LineFeatures(segs); var n := |lines|;
            && |f| == n + |PointFeatures(segs)|
            && (forall i :: 0 <= i < n ==> f[i] == LineOut(lines[i]))
            && (forall i :: n <= i < |f| ==> f[i] == PointOut(PointFeatures(segs)[i - n]))
  {
  }

  /** `features`: the lines come first, each the line of a segment, and
      every resolved segment's line is among them; the markers follow, each
      an endpoint of some segment's line. */
  lemma FeaturesAreLinesThenMarkers(segs: seq<PartialSegment>)
    ensures var f := FeaturesOf(segs); var n := |LineFeatures(segs)|;
            && |f| == n + |PointFeatures(segs)|
            && (forall i :: 0 <= i < n ==>
                  f[i].LineOut? && exists j :: 0 <= j < |segs| && segs[j].feature == Some(f[i].line))
            && (forall j :: 0 <= j < |segs| && segs[j].feature.Some? ==> LineOut(segs[j].feature.value) in f[..n])
            && (forall i :: n <= i < |f| ==>
                  f[i].PointOut? && exists j :: 0 <= j < |segs| && IsEndpointOf(f[i].point.coordinates, segs[j]))
  {
    var f := FeaturesOf(segs);
    var lines := LineFeatures(segs);
    var n := |lines|;
    FeaturesOfIndex(segs);
    forall i | 0 <= i < n
      ensures f[i].LineOut? && exists j :: 0 <= j < |segs| && segs[j].feature == Some(f[i].line)
    {
      LineFeaturesExactly(segs, lines[i]);
    }
    forall j | 0 <= j < |segs| && segs[j].feature.Some?
      ensures LineOut(segs[j].feature.value) in f[..n]
    {
      LineFeaturesExactly(segs, segs[j].feature.value);
      var i :| 0 <= i < n && lines[i] == segs[j].feature.value;
      assert f[..n][i] == f[i];
    }
    forall i | n <= i < |f|
      ensures f[i].PointOut? && exists j :: 0 <= j < |segs| && IsEndpointOf(f[i].point.coordinates, segs[j])
    {
      MarkersAreEndpoints(segs, i - n);
    }
  }

  /** `origin`: where the route starts, or none without segments. */
  function Origin(st: RouteState): (r: Option<Position>)
    ensures r.None? <==> Segments(st) == []
  {
    var segs := Segments(st);
    match At(segs, 0)
    case None => None
    case Some(first) =>
      var firstRoutePoint := if first.feature.Some? then At(first.feature.value.coordinates, 0) else None;
      match firstRoutePoint
      case Some(pos) => Some(pos)
      case None => Some(PointToPosition(first.origin))
  }

  // ---------------------------------------------------------------------
  // Properties of the transitions

  /** The pending segment is null only when there are no past segments. */
  predicate Consistent(st: RouteState)
  {
    st.segment.None? ==> st.pastSegments == []
  }

  /** Every transition keeps the state consistent. */
  lemma TransitionsKeepConsistent(st: RouteState, center: Point, origin: Point, destination: Point, feature: LineFeature)
    requires Consistent(st)
    ensures Consistent(Initial)
    ensures Consistent(AfterAddStop(st, center))
    ensures Consistent(AfterRemoveStop(st, center))
    ensures Consistent(AfterClear(st))
    ensures Consistent(AfterFetch(st, origin, destination, feature))
  {
  }

  /** A pending segment whose line has not arrived blocks `addStop`. */
  lemma AddStopNoOpWhilePending(st: RouteState, center: Point)
    requires st.segment.Some? && st.segment.value.feature.None?
    ensures AfterAddStop(st, center) == st
  {
  }

  /** `addStop` on a resolved segment appends it after the unchanged past
      segments and opens a new pending segment at the center, starting where
      the committed line ends (or at the center if the line is empty). */
  lemma AddStopCommitsResolved(st: RouteState, center: Point)
    requires st.segment.Some? && st.segment.value.feature.Some?
    ensures var r := AfterAddStop(st, center); var n := |st.pastSegments|;
      && |r.pastSegments| == n + 1
      && r.pastSegments[..n] == st.pastSegments
      && r.pastSegments[n] == Committed(st.segment.value)
      && r.segment.Some? && r.segment.value.feature.None? && r.segment.value.destination == center
      && var c := st.segment.value.feature.value.coordinates;
         r.segment.value.origin == if c == [] then center else PositionToPoint(c[|c| - 1])
  {
    var r := AfterAddStop(st, center);
    assert r.pastSegments[..|st.pastSegments|] == st.pastSegments;
  }

  /** The first stop of a route starts at the center. */
  lemma FirstStopStartsAtCenter(center: Point)
    ensures AfterAddStop(Initial, center) == RouteState([], Some(PartialSegment(center, center, None)))
  {
  }

  /** `removeStop` without past segments does nothing. */
  lemma RemoveStopNoOpWithoutPast(st: RouteState, center: Point)
    requires st.pastSegments == []
    ensures AfterRemoveStop(st, center) == st
  {
  }

  /** `removeStop` drops exactly the last past segment and reopens it. */
  lemma RemoveStopReopensLast(st: RouteState, center: Point)
    requires |st.pastSegments| > 0
    ensures var n := |st.pastSegments|; var r := AfterRemoveStop(st, center);
      && r.pastSegments == st.pastSegments[..n - 1]
      && r.segment == Some(PartialSegment(st.pastSegments[n - 1].origin, center, None))
  {
  }

  /** `addStop` then `removeStop` restores the past segments and reopens the
      segment that was committed, at its own origin. */
  lemma AddThenRemoveRestores(st: RouteState, center: Point, center': Point)
    requires st.segment.Some? && st.segment.value.feature.Some?
    ensures AfterRemoveStop(AfterAddStop(st, center), center')
            == RouteState(st.pastSegments, Some(PartialSegment(st.segment.value.origin, center', None)))
  {
    var r := AfterAddStop(st, center);
    assert r.pastSegments[..|r.pastSegments| - 1] == st.pastSegments;
  }

  /** Clearing twice is clearing once, and leaves nothing to draw. */
  lemma ClearIdempotent(st: RouteState)
    ensures AfterClear(AfterClear(st)) == AfterClear(st)
    ensures AfterClear(st) == Initial
    ensures Segments(AfterClear(st)) == [] && Origin(AfterClear(st)).None?
    ensures !CanRemoveStop(AfterClear(st))
  {
  }

  /** The remove button is enabled exactly when `removeStop` would change
      the state. */
  lemma CanRemoveStopIffRemoveChanges(st: RouteState, center: Point)
    ensures CanRemoveStop(st) <==> AfterRemoveStop(st, center) != st
  {
    if CanRemoveStop(st) {
      assert |AfterRemoveStop(st, center).pastSegments| < |st.pastSegments|;
    }
  }

  // ---------------------------------------------------------------------
  // Contiguity

  /** `b` starts where `a`'s line ends, when `a` has a non-empty line. */
  predicate LinksTo(a: PartialSegment, b: PartialSegment)
  {
    match LastCoordinate(Some(a))
    case Some(pos) => b.origin == PositionToPoint(pos)
    case None => true
  }

  predicate Chained(segs: seq<PartialSegment>)
  {
    forall i :: 0 <= i < |segs| - 1 ==> LinksTo(segs[i], segs[i + 1])
  }

  lemma AddStopKeepsChain(st: RouteState, center: Point)
    requires Chained(Segments(st))
    ensures Chained(Segments(AfterAddStop(st, center)))
  {
    var r := AfterAddStop(st, center);
    if !IsBlockedByPending(st) {
      var before := Segments(st);
      var after := Segments(r);
      assert |after| == |before| + 1;
      assert forall i :: 0 <= i < |before| ==> after[i] == before[i];
      if |before| > 0 {
        assert LinksTo(after[|before| - 1], after[|before|]);
      }
    }
  }

  lemma RemoveStopKeepsChain(st: RouteState, center: Point)
    requires Chained(Segments(st))
    ensures Chained(Segments(AfterRemoveStop(st, center)))
  {
    var n := |st.pastSegments|;
    if n > 0 {
      var before := Segments(st);
      var after := Segments(AfterRemoveStop(st, center));
      assert |after| == n;
      assert forall i :: 0 <= i < n - 1 ==> after[i] == before[i];
      assert after[n - 1].origin == before[n - 1].origin;
      if n > 1 {
        assert LinksTo(before[n - 2], before[n - 1]);
      }
    }
  }

  /** A response for the current pending segment's origin keeps the chain. */
  lemma FetchKeepsChain(st: RouteState, destination: Point, feature: LineFeature)
    requires Chained(Segments(st)) && st.segment.Some?
    ensures Chained(Segments(AfterFetch(st, st.segment.value.origin, destination, feature)))
  {
    var before := Segments(st);
    var after := Segments(AfterFetch(st, st.segment.value.origin, destination, feature));
    assert |after| == |before|;
    assert forall i :: 0 <= i < |before| - 1 ==> after[i] == before[i];
    if |before| > 1 {
      assert LinksTo(before[|before| - 2], before[|before| - 1]);
    }
  }

  /** The response to the request the tracking effect sends keeps the
      chain, and the resolved segment ends at the throttled center. */
  lemma AnsweredRequestKeepsChain(st: RouteState, isTracking: bool, movedFarEnough: bool,
                                  throttledCenter: Point, feature: LineFeature)
    requires Chained(Segments(st))
    requires FetchRequest(st, isTracking, movedFarEnough, throttledCenter).Some?
    ensures var (origin, destination) := FetchRequest(st, isTracking, movedFarEnough, throttledCenter).value;
            var after := Segments(AfterFetch(st, origin, destination, feature));
            && Chained(after)
            && after[|after| - 1] == PartialSegment(origin, throttledCenter, Some(feature))
  {
    FetchKeepsChain(st, throttledCenter, feature);
  }

  /** A late response for a segment that has since been committed replaces
      the new pending segment with one that does not start where the
      committed line ends. */
  lemma StaleFetchResponseBreaksChain()
    ensures var a := Point(32.08, 34.78);
            var b := Point(32.09, 34.79);
            var c := Point(32.10, 34.80);
            var line := LineFeature([Position(34.78, 32.08), Position(34.79, 32.09)]);
            var late := LineFeature([Position(34.78, 32.08), Position(34.80, 32.10)]);
            var st := AfterAddStop(AfterFetch(AfterAddStop(Initial, a), a, b, line), c);
            Chained(Segments(st)) && !Chained(Segments(AfterFetch(st, a, c, late)))
  {
    var a := Point(32.08, 34.78);
    var b := Point(32.09, 34.79);
    var c := Point(32.10, 34.80);
    var line := LineFeature([Position(34.78, 32.08), Position(34.79, 32.09)]);
    var late := LineFeature([Position(34.78, 32.08), Position(34.80, 32.10)]);
    var st := AfterAddStop(AfterFetch(AfterAddStop(Initial, a), a, b, line), c);
    var segs := Segments(AfterFetch(st, a, c, late));
    assert segs[0] == Partial(Segment(a, b, line));
    assert !LinksTo(segs[0], segs[1]);
  }

  // ---------------------------------------------------------------------
  // Properties of the views

  lemma {:induction false} LineFeaturesAppend(a: seq<PartialSegment>, b: seq<PartialSegment>)
    ensures LineFeatures(a + b) == LineFeatures(a) + LineFeatures(b)
  {
    if a == [] {
      assert a + b == b;
    } else {
      assert (a + b)[0] == a[0] && (a + b)[1..] == a[1..] + b;
      LineFeaturesAppend(a[1..], b);
      var h := if a[0].feature.Some? then [a[0].feature.value] else [];
      assert LineFeatures(a + b) == h + LineFeatures(a[1..] + b);
      assert LineFeatures(a) == h + LineFeatures(a[1..]);
      assert h + (LineFeatures(a[1..]) + LineFeatures(b)) == (h + LineFeatures(a[1..])) + LineFeatures(b);
    }
  }

  lemma {:induction false} PointFeaturesAppend(a: seq<PartialSegment>, b: seq<PartialSegment>)
    ensures PointFeatures(a + b) == PointFeatures(a) + PointFeatures(b)
  {
    if a == [] {
      assert a + b == b;
    } else {
      assert (a + b)[0] == a[0] && (a + b)[1..] == a[1..] + b;
      PointFeaturesAppend(a[1..], b);
      var h := Markers(SegmentEndpoints(a[0]));
      var x, y := PointFeatures(a[1..]), PointFeatures(b);
      assert PointFeatures(a + b) == h + (x + y);
      assert PointFeatures(a) == h + x;
      assert h + (x + y) == (h + x) + y;
    }
  }

  /** The lines are `compact(segments.map(s => s.feature))`. */
  lemma {:induction false} LineFeaturesIsCompact(segs: seq<PartialSegment>)
    ensures LineFeatures(segs) == Compact(seq(|segs|, i requires 0 <= i < |segs| => segs[i].feature))
  {
    var fs := seq(|segs|, i requires 0 <= i < |segs| => segs[i].feature);
    if segs != [] {
      LineFeaturesIsCompact(segs[1..]);
      assert fs[1..] == seq(|segs[1..]|, i requires 0 <= i < |segs[1..]| => segs[1..][i].feature);
    }
  }

  /** A pending segment without a line adds nothing to the route layer. */
  lemma UnresolvedSegmentDrawsNothing(past: seq<Segment>, pending: PartialSegment)
    requires pending.feature.None?
    ensures Features(RouteState(past, Some(pending))) == Features(RouteState(past, None))
  {
    var withIt := Segments(RouteState(past, Some(pending)));
    var without := Segments(RouteState(past, None));
    assert withIt == without + [pending];
    LineFeaturesAppend(without, [pending]);
    PointFeaturesAppend(without, [pending]);
    assert [pending][1..] == [];
    assert LineFeatures([pending]) == [];
    assert PointFeatures([pending]) == [];
    assert LineFeatures(withIt) == LineFeatures(without);
    assert PointFeatures(withIt) == PointFeatures(without);
  }

  /** A resolved segment adds its line after the earlier lines and its two
      endpoint markers after the earlier markers. */
  lemma ResolvedSegmentDrawsLineAndEnds(past: seq<Segment>, pending: PartialSegment)
    requires pending.feature.Some? && |pending.feature.value.coordinates| > 0
    ensures var before := Segments(RouteState(past, None));
            var c := pending.feature.value.coordinates;
            && LineFeatures(Segments(RouteState(past, Some(pending)))) == LineFeatures(before) + [pending.feature.value]
            && PointFeatures(Segments(RouteState(past, Some(pending))))
               == PointFeatures(before) + [PointFeature(c[0]), PointFeature(c[|c| - 1])]
  {
    var withIt := Segments(RouteState(past, Some(pending)));
    var without := Segments(RouteState(past, None));
    assert withIt == without + [pending];
    LineFeaturesAppend(without, [pending]);
    PointFeaturesAppend(without, [pending]);
    assert [pending][1..] == [];
  }

  /** The route origin sits on the first segment: its first line coordinate,
      else its own origin as `[longitude, latitude]`. */
  lemma OriginOfFirstSegment(st: RouteState)
    requires Segments(st) != []
    ensures var first := Segments(st)[0];
            Origin(st) == Some(
              if first.feature.Some? && |first.feature.value.coordinates| > 0
              then first.feature.value.coordinates[0]
              else PointToPosition(first.origin))
  {
  }

  /** When the first segment has a line, the start marker is the first
      endpoint marker drawn. */
  lemma OriginIsFirstMarker(st: RouteState)
    requires Segments(st) != [] && Segments(st)[0].feature.Some?
    requires |Segments(st)[0].feature.value.coordinates| > 0
    ensures var segs := Segments(st);
            Features(st)[|LineFeatures(segs)|] == PointOut(PointFeature(Origin(st).value))
  {
    var segs := Segments(st);
    assert segs == [segs[0]] + segs[1..];
    PointFeaturesAppend([segs[0]], segs[1..]);
    assert [segs[0]][1..] == [];
  }

  /** A worked session: the first stop starts at the center,
      and the next stop starts at the end of the fetched line rather than at
      the requested destination. */
  lemma RouteScenario()
    ensures var center := Point(32.08, 34.78);
            var s1 := AfterAddStop(Initial, center);
            var line := LineFeature([Position(34.78, 32.08), Position(34.79, 32.09)]);
            var s2 := AfterFetch(s1, s1.segment.value.origin, Point(32.0901, 34.7902), line);
            var s3 := AfterAddStop(s2, Point(32.1, 34.8));
            && s1.segment.value.origin == center
            && s3.segment.value.origin == Point(32.09, 34.79)
            && |s3.pastSegments| == 1
            && Origin(s3) == Some(Position(34.78, 32.08))
  {
  }

  // ---------------------------------------------------------------------
  // The state cells

  class RouteBuilder {
    var pastSegments: seq<Segment>
    var segment: Option<PartialSegment>

    function State(): RouteState
      reads this
    {
      RouteState(pastSegments, segment)
    }

    constructor ()
      ensures State() == Initial
      ensures Consistent(State())
    {
      pastSegments := [];
      segment := None;
    }

    method Clear()
      modifies this
      ensures State() == AfterClear(old(State()))
      ensures Consistent(State())
    {
      pastSegments := [];
      segment := None;
    }

    method AddStop(center: Point)
      modifies this
      ensures State() == AfterAddStop(old(State()), center)
      ensures Consistent(State())
    {
      if segment.Some? && segment.value.feature.None? {
        return;
      }
      var previous := State();
      if segment.Some? {
        pastSegments := pastSegments + [Committed(segment.value)];
      }
      var lastSegment := LastSegment(previous);
      var lastDestination := LastCoordinate(lastSegment);
      var origin := if lastDestination.Some? then PositionToPoint(lastDestination.value) else center;
      segment := Some(PartialSegment(origin, center, None));
    }

    method RemoveStop(center: Point)
      modifies this
      ensures State() == AfterRemoveStop(old(State()), center)
      ensures old(Consistent(State())) ==> Consistent(State())
    {
      if |pastSegments| == 0 {
        return;
      }
      var lastSegment := pastSegments[|pastSegments| - 1];
      pastSegments := pastSegments[..|pastSegments| - 1];
      segment := Some(PartialSegment(lastSegment.origin, center, None));
    }

    /** The tracking effect's guard; it changes nothing. */
    method TrackingRequest(isTracking: bool, movedFarEnough: bool, throttledCenter: Point)
      returns (request: Option<(Point, Point)>)
      ensures request == FetchRequest(State(), isTracking, movedFarEnough, throttledCenter)
    {
      if !isTracking {
        return None;
      }
      if segment.None? || !movedFarEnough {
        return None;
      }
      request := Some((segment.value.origin, throttledCenter));
    }

    /** The `.then` of the directions fetch for `(origin, destination)`. */
    method ResolveFetch(origin: Point, destination: Point, feature: LineFeature)
      modifies this
      ensures State() == AfterFetch(old(State()), origin, destination, feature)
      ensures Consistent(State())
    {
      segment := Some(PartialSegment(origin, destination, Some(feature)));
    }
  }
}
