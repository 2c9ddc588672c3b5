/** The layer-selection panel's sections: three fixed sections of curated
    groups, and a fourth "hidden layers" section, shown only while
    debugging, holding every curated group that no fixed section lists
    (the bike-path group excepted, which has its own toggles). */
module FeatureGroupSelection {
  import opened FeatureGroups

  datatype Section = Section(title: string, groups: seq<FeatureGroup>)

  const RecommendedGroups: seq<FeatureGroup> :=
    [RecommendedRoad, DangerousRoad, Bridge, Hill]

  const OtherGroups: seq<FeatureGroup> :=
    [DirtPath, DirtRoad, CalmedTrafficArea]

  const NotThereGroups: seq<FeatureGroup> :=
    [OfneyDan, Planned, InProgress]

  const RecommendedTitle: string := "המומלצים שלנו"
  const OtherTitle: string := "שונות"
  const NotThereTitle: string := "שבילים שלא קיימים כרגע"
  const DebugTitle: string := "שכבות חבויות"

  const NonDebugSections: seq<Section> := [
    Section(RecommendedTitle, RecommendedGroups),
    Section(OtherTitle, OtherGroups),
    Section(NotThereTitle, NotThereGroups)
  ]

  /** `sections.some(section => section.groups.includes(g))` */
  predicate InSomeSection(sections: seq<Section>, g: FeatureGroup)
  {
    sections != [] && (g in sections[0].groups || InSomeSection(sections[1..], g))
  }

  /** `InSomeSection` holds exactly when some section lists the group. */
  lemma {:induction false} InSomeSectionExactly(sections: seq<Section>, g: FeatureGroup)
    ensures InSomeSection(sections, g) <==> exists i :: 0 <= i < |sections| && g in sections[i].groups
  {
    if sections != [] {
      InSomeSectionExactly(sections[1..], g);
      assert forall i :: 1 <= i < |sections| ==> sections[i] == sections[1..][i - 1];
    }
  }

  /** The order-preserving filter of a group list. */
  function Filter(gs: seq<FeatureGroup>, keep: FeatureGroup -> bool): seq<FeatureGroup>
  {
    if gs == [] then []
    else if keep(gs[0]) then [gs[0]] + Filter(gs[1..], keep)
    else Filter(gs[1..], keep)
  }

  /** The filter keeps exactly the members that satisfy the predicate. */
  lemma {:induction false} FilterMembers(gs: seq<FeatureGroup>, keep: FeatureGroup -> bool)
    ensures forall g :: g in Filter(gs, keep) <==> g in gs && keep(g)
    ensures |Filter(gs, keep)| <= |gs|
  {
    if gs != [] {
      FilterMembers(gs[1..], keep);
      assert forall g :: g in gs <==> g == gs[0] || g in gs[1..];
    }
  }

  /** Filtering distributes over concatenation. */
  lemma {:induction false} FilterAppend(xs: seq<FeatureGroup>, ys: seq<FeatureGroup>, keep: FeatureGroup -> bool)
    ensures Filter(xs + ys, keep) == Filter(xs, keep) + Filter(ys, keep)
  {
    if xs == [] {
      assert xs + ys == ys;
    } else {
      assert (xs + ys)[0] == xs[0] && (xs + ys)[1..] == xs[1..] + ys;
      FilterAppend(xs[1..], ys, keep);
      var rest := Filter(xs[1..], keep);
      assert [xs[0]] + (rest + Filter(ys, keep)) == ([xs[0]] + rest) + Filter(ys, keep);
    }
  }

  /** Filtering three concatenated lists whose filters are known. */
  lemma FilterConcat(xs: seq<FeatureGroup>, ys: seq<FeatureGroup>, zs: seq<FeatureGroup>,
                     keep: FeatureGroup -> bool,
                     fx: seq<FeatureGroup>, fy: seq<FeatureGroup>, fz: seq<FeatureGroup>)
    requires Filter(xs, keep) == fx && Filter(ys, keep) == fy && Filter(zs, keep) == fz
    ensures Filter(xs + ys + zs, keep) == fx + fy + fz
  {
    FilterAppend(xs, ys, keep);
    FilterAppend(xs + ys, zs, keep);
  }

  /** Filtering a list without duplicates keeps it without duplicates. */
  lemma {:induction false} FilterKeepsNoDuplicates(gs: seq<FeatureGroup>, keep: FeatureGroup -> bool)
    requires NoDuplicates(gs)
    ensures NoDuplicates(Filter(gs, keep))
  {
    if gs != [] {
      assert NoDuplicates(gs[1..]) by {
        forall i, j | 0 <= i < j < |gs[1..]| ensures gs[1..][i] != gs[1..][j] {
          assert gs[1..][i] == gs[i + 1] && gs[1..][j] == gs[j + 1];
        }
      }
      FilterKeepsNoDuplicates(gs[1..], keep);
      var rest := Filter(gs[1..], keep);
      FilterMembers(gs[1..], keep);
      if keep(gs[0]) {
        assert gs[0] !in gs[1..] by {
          forall k | 0 <= k < |gs[1..]| ensures gs[1..][k] != gs[0] {
            assert gs[1..][k] == gs[k + 1];
          }
        }
        assert gs[0] !in rest;
        var r := [gs[0]] + rest;
        forall i, j | 0 <= i < j < |r| ensures r[i] != r[j] {
          if i == 0 {
            assert r[j] == rest[j - 1];
          } else {
            assert r[i] == rest[i - 1] && r[j] == rest[j - 1];
          }
        }
      }
    }
  }

  /** The condition the hidden section's groups are filtered by. */
  predicate IsDebugOnly(g: FeatureGroup)
  {
    g != BikePath && !InSomeSection(NonDebugSections, g)
  }

  /** The fixed sections list exactly these ten groups. */
  lemma NonDebugSectionGroups(g: FeatureGroup)
    ensures InSomeSection(NonDebugSections, g) <==>
      g in RecommendedGroups || g in OtherGroups || g in NotThereGroups
  {
    InSomeSectionExactly(NonDebugSections, g);
    assert NonDebugSections[0].groups == RecommendedGroups;
    assert NonDebugSections[1].groups == OtherGroups;
    assert NonDebugSections[2].groups == NotThereGroups;
  }

  /** The groups no fixed section lists, the bike-path group excepted,
      written as one membership test. */
  predicate HiddenUnlessDebugging(g: FeatureGroup)
  {
    match g
    case BikePath | RecommendedRoad | DangerousRoad | Bridge | Hill
       | DirtPath | DirtRoad | CalmedTrafficArea | OfneyDan | Planned | InProgress => false
    case _ => true
  }

  lemma DebugOnlyIff(g: FeatureGroup)
    ensures IsDebugOnly(g) <==> HiddenUnlessDebugging(g)
  {
    NonDebugSectionGroups(g);
    assert HiddenUnlessDebugging(g) <==>
      g != BikePath && g !in RecommendedGroups && g !in OtherGroups && g !in NotThereGroups;
  }

  /** Filters by two predicates that agree everywhere give the same list. */
  lemma {:induction false} FilterAgrees(gs: seq<FeatureGroup>, p: FeatureGroup -> bool, q: FeatureGroup -> bool)
    requires forall g :: p(g) == q(g)
    ensures Filter(gs, p) == Filter(gs, q)
  {
    if gs != [] {
      FilterAgrees(gs[1..], p, q);
    }
  }

  /** The curated groups that only the debugging section lists. */
  const DebugOnlyGroups: seq<FeatureGroup> := Filter(MyMapsFeatureGroups, IsDebugOnly)

  const DebugSection: Section := Section(DebugTitle, DebugOnlyGroups)

  /** The sections the panel shows; `isDebugging` is the locally stored
      flag, an absent value read as false. */
  function Sections(isDebugging: bool): (r: seq<Section>)
    ensures |r| == |NonDebugSections| + (if isDebugging then 1 else 0)
    ensures r[..|NonDebugSections|] == NonDebugSections
    ensures isDebugging ==> r[|NonDebugSections|] == DebugSection
  {
    if isDebugging then NonDebugSections + [DebugSection] else NonDebugSections
  }

  /** The hidden groups, filtered by the plain membership test. */
  lemma DebugOnlyGroupsByMembership()
    ensures DebugOnlyGroups == Filter(MyMapsFeatureGroups, HiddenUnlessDebugging)
  {
    forall g ensures IsDebugOnly(g) == HiddenUnlessDebugging(g) {
      DebugOnlyIff(g);
    }
    FilterAgrees(MyMapsFeatureGroups, IsDebugOnly, HiddenUnlessDebugging);
  }

  // The filter over the catalog, a few groups at a time.

  lemma LineGroupsHeadFiltered()
    ensures Filter([BikePath, RecommendedRoad, DangerousRoad, OfneyDan], HiddenUnlessDebugging) == []
  {
  }

  lemma LineGroupsMiddleFiltered()
    ensures Filter([Planned, InProgress, Missing, DirtRoad], HiddenUnlessDebugging) == [Missing]
  {
  }

  lemma LineGroupsLastFiltered()
    ensures Filter([DirtPath, Bridge, Unknown, Mistake], HiddenUnlessDebugging) == [Unknown, Mistake]
  {
  }

  lemma LineGroupsFiltered()
    ensures Filter(MyMapsLineGroups, HiddenUnlessDebugging) == [Missing, Unknown, Mistake]
  {
    var a := [BikePath, RecommendedRoad, DangerousRoad, OfneyDan];
    var b := [Planned, InProgress, Missing, DirtRoad];
    var c := [DirtPath, Bridge, Unknown, Mistake];
    assert MyMapsLineGroups == a + (b + c);
    LineGroupsHeadFiltered();
    LineGroupsMiddleFiltered();
    LineGroupsLastFiltered();
    FilterAppend(b, c, HiddenUnlessDebugging);
    FilterAppend(a, b + c, HiddenUnlessDebugging);
  }

  lemma PolygonGroupsFiltered()
    ensures Filter(MyMapsPolygonGroups, HiddenUnlessDebugging) ==
      [UnknownPolygon, TrainStationIsochrone, CoveredArea]
  {
  }

  lemma PointGroupsFiltered()
    ensures Filter(MyMapsPointGroups, HiddenUnlessDebugging) == MyMapsPointGroups
  {
  }

  lemma CatalogFiltered()
    ensures Filter(MyMapsFeatureGroups, HiddenUnlessDebugging) ==
      [Missing, Unknown, Mistake] + [UnknownPolygon, TrainStationIsochrone, CoveredArea] +
      MyMapsPointGroups
  {
    LineGroupsFiltered();
    PolygonGroupsFiltered();
    PointGroupsFiltered();
    FilterConcat(MyMapsLineGroups, MyMapsPolygonGroups, MyMapsPointGroups, HiddenUnlessDebugging,
      [Missing, Unknown, Mistake], [UnknownPolygon, TrainStationIsochrone, CoveredArea],
      MyMapsPointGroups);
  }

  /** The hidden section holds, in catalog order, the eleven curated groups
      no fixed section names: three line groups, three polygon groups and
      every point group. */
  lemma DebugOnlyGroupsAre()
    ensures DebugOnlyGroups ==
      [Missing, Unknown, Mistake] + [UnknownPolygon, TrainStationIsochrone, CoveredArea] +
      MyMapsPointGroups
  {
    DebugOnlyGroupsByMembership();
    CatalogFiltered();
  }

  /** A group is in the hidden section exactly when it is a curated group,
      not the bike-path group, and in no fixed section. */
  lemma DebugOnlyGroupsExactly(g: FeatureGroup)
    ensures g in DebugOnlyGroups <==>
      g in MyMapsFeatureGroups && g != BikePath &&
      forall i :: 0 <= i < |NonDebugSections| ==> g !in NonDebugSections[i].groups
  {
    FilterMembers(MyMapsFeatureGroups, IsDebugOnly);
    InSomeSectionExactly(NonDebugSections, g);
  }

  /** The three fixed sections list only curated groups, share no group
      and repeat none. */
  lemma FixedSectionsDisjoint()
    ensures forall i, g :: 0 <= i < |NonDebugSections| && g in NonDebugSections[i].groups ==>
      g in MyMapsFeatureGroups
    ensures forall i, j, g ::
      0 <= i < j < |NonDebugSections| && g in NonDebugSections[i].groups ==>
        g !in NonDebugSections[j].groups
    ensures forall i :: 0 <= i < |NonDebugSections| ==> NoDuplicates(NonDebugSections[i].groups)
  {
    assert NonDebugSections[0].groups == RecommendedGroups;
    assert NonDebugSections[1].groups == OtherGroups;
    assert NonDebugSections[2].groups == NotThereGroups;
    MyMapsFeatureGroupsComplete();
  }

  /** The hidden section repeats no group and shares none with a fixed one. */
  lemma DebugSectionDisjoint()
    ensures forall i, g :: 0 <= i < |NonDebugSections| && g in NonDebugSections[i].groups ==>
      g !in DebugOnlyGroups
    ensures NoDuplicates(DebugOnlyGroups)
  {
    forall g | g in DebugOnlyGroups
      ensures forall i :: 0 <= i < |NonDebugSections| ==> g !in NonDebugSections[i].groups
    {
      DebugOnlyGroupsExactly(g);
    }
    MyMapsFeatureGroupsComplete();
    FilterKeepsNoDuplicates(MyMapsFeatureGroups, IsDebugOnly);
  }

  /** No two sections shown, in either mode, share a group, and no section
      lists a group twice. */
  lemma SectionsDisjoint(isDebugging: bool)
    ensures forall i, j, g ::
      0 <= i < j < |Sections(isDebugging)| && g in Sections(isDebugging)[i].groups ==>
        g !in Sections(isDebugging)[j].groups
    ensures forall i :: 0 <= i < |Sections(isDebugging)| ==>
      NoDuplicates(Sections(isDebugging)[i].groups)
  {
    FixedSectionsDisjoint();
    DebugSectionDisjoint();
    var s := Sections(isDebugging);
    assert forall i :: 0 <= i < |NonDebugSections| ==> s[i] == NonDebugSections[i];
  }

  /** While debugging, every curated group other than the bike-path group
      appears in exactly one section. */
  lemma DebuggingShowsEachGroupOnce(g: FeatureGroup)
    requires g in MyMapsFeatureGroups && g != BikePath
    ensures exists i ::
      && 0 <= i < |Sections(true)|
      && g in Sections(true)[i].groups
      && forall j :: 0 <= j < |Sections(true)| && j != i ==> g !in Sections(true)[j].groups
  {
    var s := Sections(true);
    SectionsDisjoint(true);
    InSomeSectionExactly(NonDebugSections, g);
    if InSomeSection(NonDebugSections, g) {
      var i :| 0 <= i < |NonDebugSections| && g in NonDebugSections[i].groups;
      assert s[i] == NonDebugSections[i];
    } else {
      DebugOnlyGroupsExactly(g);
      assert s[3] == DebugSection;
    }
  }

  /** The bike-path group, which has toggles of its own, and the
      OpenStreetMap group are in no section, in either mode. */
  lemma BikePathGroupsInNoSection(isDebugging: bool, g: FeatureGroup)
    requires g == BikePath || g == OsmBikePath
    ensures forall i :: 0 <= i < |Sections(isDebugging)| ==> g !in Sections(isDebugging)[i].groups
  {
    var s := Sections(isDebugging);
    DebugOnlyGroupsExactly(g);
    NonDebugSectionGroups(g);
    InSomeSectionExactly(NonDebugSections, g);
    assert forall i :: 0 <= i < |NonDebugSections| ==> s[i] == NonDebugSections[i];
  }

  /** Without debugging, the groups of the hidden section are not shown. */
  lemma NotDebuggingHidesDebugOnlyGroups(g: FeatureGroup)
    requires g in DebugOnlyGroups
    ensures forall i :: 0 <= i < |Sections(false)| ==> g !in Sections(false)[i].groups
  {
    DebugOnlyGroupsExactly(g);
  }
}
