/** Properties of the add visitor of source/kraken/apply_disruption.cpp that
    follow one impact through its fan-out and through the journeys it
    derives: a NO_SERVICE impact on a network, a line or a route reaches
    every meta trip running there; a closed stop point, a line section and
    replacement stop times each give the hit journey a derived journey with
    the stops and days the source computes. `create_discrete_vj` is not part
    of the model; what these lemmas need of it is the hypothesis
    `CreatesAsAsked`. */
module VisitorProperties {
  import opened Wrappers
  import opened ValidityPattern
  import opened Schedule
  import opened Message
  import opened EngineState
  import opened Engine = ApplyDisruption
  import opened DisruptionProperties
  import opened Sequences
  import Text

  // ---- the network, line and route cases ---------------------------------

  /** What cancelling leaves of the route index: the same routes, the same
      meta trips in the same order, the same journeys of the same meta
      trips. */
  predicate SameRoutes(a: Trips, b: Trips) {
    && b.routeVjs == a.routeVjs && b.mvjOrder == a.mvjOrder
    && b.vjs.Keys == a.vjs.Keys && b.mvjs.Keys == a.mvjs.Keys
    && forall v :: v in a.vjs ==> b.vjs[v].metaVj == a.vjs[v].metaVj
  }

  /** Every impact a meta trip of `a` records is still recorded in `b`. */
  predicate MarksKept(a: map<string, MetaVJ>, b: map<string, MetaVJ>) {
    forall m, i :: m in a && i in a[m].modifiedBy ==> m in b && i in b[m].modifiedBy
  }

  /** Every meta trip of `ms` that exists records `id`. */
  predicate AllMarked(mvjs: map<string, MetaVJ>, ms: seq<string>, id: ImpactId) {
    forall m :: m in ms && m in mvjs ==> id in mvjs[m].modifiedBy
  }

  lemma SameRoutesTransitive(a: Trips, b: Trips, c: Trips)
    requires SameRoutes(a, b) && SameRoutes(b, c)
    ensures SameRoutes(a, c)
  {
  }

  lemma MarksKeptTransitive(a: map<string, MetaVJ>, b: map<string, MetaVJ>, c: map<string, MetaVJ>)
    requires MarksKept(a, b) && MarksKept(b, c)
    ensures MarksKept(a, c)
  {
  }

  /** A meta trip runs on a route in `a` exactly when it does in `b`. */
  lemma RunsOnKept(a: Trips, b: Trips, route: string, m: string)
    requires SameRoutes(a, b)
    ensures RunsOn(a, route, m) <==> RunsOn(b, route, m)
  {
    if RunsOn(a, route, m) {
      var v :| v in Lookup(a.routeVjs, route) && v in a.vjs && a.vjs[v].metaVj == m;
      assert v in Lookup(b.routeVjs, route) && v in b.vjs && b.vjs[v].metaVj == m;
    }
    if RunsOn(b, route, m) {
      var v :| v in Lookup(b.routeVjs, route) && v in b.vjs && b.vjs[v].metaVj == m;
      assert v in Lookup(a.routeVjs, route) && v in a.vjs && a.vjs[v].metaVj == m;
    }
  }

  /** A NO_SERVICE impact on one meta trip keeps the route index and every
      mark, and the meta trip, when it exists, records the impact. */
  lemma CancelKeepsRoutes(s: PtData, v: Visitor, m: string, route: Option<string>)
    requires CancelConfined(v.c) && v.impact.effect == NoService
    ensures var r := AddMetaVj(s, v, m, route);
      && SameRoutes(s.trips, r.trips)
      && MarksKept(s.trips.mvjs, r.trips.mvjs)
      && (m in s.trips.mvjs ==> v.id in r.trips.mvjs[m].modifiedBy)
  {
    var r := AddMetaVj(s, v, m, route);
    if m in s.trips.mvjs {
      assert PatternsOnly(s.trips.vjs, r.trips.vjs, ListsOf(s.trips.mvjs[m]));
      forall x | x in s.trips.vjs
        ensures r.trips.vjs[x].metaVj == s.trips.vjs[x].metaVj
      {
        assert r.trips.vjs[x].(adaptedVp := s.trips.vjs[x].adaptedVp, realtimeVp := s.trips.vjs[x].realtimeVp)
               == s.trips.vjs[x];
      }
    }
  }

  /** Cancelling meta trips in turn marks each of them and loses no mark. */
  lemma {:induction false} MvjsMarked(s: PtData, v: Visitor, ms: seq<string>, route: Option<string>)
    requires CancelConfined(v.c) && v.impact.effect == NoService
    ensures var r := AddMvjs(s, v, ms, route);
      && SameRoutes(s.trips, r.trips)
      && MarksKept(s.trips.mvjs, r.trips.mvjs)
      && AllMarked(r.trips.mvjs, ms, v.id)
    decreases |ms|
  {
    if |ms| > 0 {
      var s1 := AddMetaVj(s, v, ms[0], route);
      CancelKeepsRoutes(s, v, ms[0], route);
      MvjsMarked(s1, v, ms[1..], route);
      var r := AddMvjs(s1, v, ms[1..], route);
      SameRoutesTransitive(s.trips, s1.trips, r.trips);
      MarksKeptTransitive(s.trips.mvjs, s1.trips.mvjs, r.trips.mvjs);
      assert forall m :: m in ms ==> m == ms[0] || m in ms[1..];
    }
  }

  /** The route case: a NO_SERVICE impact on a route marks every meta trip
      with a journey on the route. */
  lemma RouteMarksEach(s: PtData, v: Visitor, route: string)
    requires CancelConfined(v.c) && v.impact.effect == NoService
    ensures var r := AddRoute(s, v, route);
      && SameRoutes(s.trips, r.trips)
      && MarksKept(s.trips.mvjs, r.trips.mvjs)
      && forall m :: m in s.trips.mvjOrder && m in s.trips.mvjs && RunsOn(s.trips, route, m) ==>
           v.id in r.trips.mvjs[m].modifiedBy
  {
    MvjsMarked(s, v, MvjsOfRoute(s.trips, route), Some(route));
  }

  /** The line case: every meta trip running on one of the routes. */
  lemma {:induction false} RoutesMarkEach(s: PtData, v: Visitor, routes: seq<string>)
    requires CancelConfined(v.c) && v.impact.effect == NoService
    ensures var r := AddRoutes(s, v, routes);
      && SameRoutes(s.trips, r.trips)
      && MarksKept(s.trips.mvjs, r.trips.mvjs)
      && forall route, m :: route in routes && m in s.trips.mvjOrder && m in s.trips.mvjs && RunsOn(s.trips, route, m) ==>
           v.id in r.trips.mvjs[m].modifiedBy
    decreases |routes|
  {
    if |routes| > 0 {
      var s1 := AddRoute(s, v, routes[0]);
      RouteMarksEach(s, v, routes[0]);
      RoutesMarkEach(s1, v, routes[1..]);
      var r := AddRoutes(s1, v, routes[1..]);
      SameRoutesTransitive(s.trips, s1.trips, r.trips);
      MarksKeptTransitive(s.trips.mvjs, s1.trips.mvjs, r.trips.mvjs);
      forall route, m | route in routes && m in s.trips.mvjOrder && m in s.trips.mvjs && RunsOn(s.trips, route, m)
        ensures v.id in r.trips.mvjs[m].modifiedBy
      {
        if route != routes[0] {
          assert route in routes[1..];
          RunsOnKept(s.trips, s1.trips, route, m);
        }
      }
    }
  }

  /** The network case: every meta trip running on a route of one of the
      lines. */
  lemma {:induction false} LinesMarkEach(s: PtData, v: Visitor, lines: seq<string>)
    requires CancelConfined(v.c) && v.impact.effect == NoService
    ensures var r := AddLines(s, v, lines);
      && SameRoutes(s.trips, r.trips)
      && MarksKept(s.trips.mvjs, r.trips.mvjs)
      && forall l, route, m :: l in lines && route in Lookup(s.topo.lineRoutes, l) && m in s.trips.mvjOrder
                               && m in s.trips.mvjs && RunsOn(s.trips, route, m) ==>
           v.id in r.trips.mvjs[m].modifiedBy
    decreases |lines|
  {
    if |lines| > 0 {
      var s1 := AddRoutes(s, v, Lookup(s.topo.lineRoutes, lines[0]));
      RoutesMarkEach(s, v, Lookup(s.topo.lineRoutes, lines[0]));
      LinesMarkEach(s1, v, lines[1..]);
      var r := AddLines(s1, v, lines[1..]);
      SameRoutesTransitive(s.trips, s1.trips, r.trips);
      MarksKeptTransitive(s.trips.mvjs, s1.trips.mvjs, r.trips.mvjs);
      forall l, route, m | l in lines && route in Lookup(s.topo.lineRoutes, l) && m in s.trips.mvjOrder
                           && m in s.trips.mvjs && RunsOn(s.trips, route, m)
        ensures v.id in r.trips.mvjs[m].modifiedBy
      {
        if l != lines[0] {
          assert l in lines[1..];
          RunsOnKept(s.trips, s1.trips, route, m);
        }
      }
    }
  }

  // ---- derived journeys ---------------------------------------------------

  /** What the lemmas below need of `create_discrete_vj`, whose body is not
      part of the model. Asked for a journey of an existing meta trip, it
      returns a new handle whose journey has the uri, the meta trip, the days
      at the level and the stop times asked for and is listed by the meta
      trip at that level; it adds no other journey; the journeys it keeps
      keep their meta trip, day shift and stop times (it may drop others or
      take days from them); the meta trips stay, each recording the same
      impacts. */
  ghost predicate CreatesAsAsked(c: Collaborators) {
    forall t: Trips, mvj: string, uri: string, l: RTLevel, vp: Days, route: Option<string>, sts: seq<StopTime> ::
      mvj in t.mvjs ==> Created(t, c.createDiscreteVj(t, mvj, uri, l, vp, route, sts), mvj, uri, l, vp, sts)
  }

  /** `made` is `t` with a new journey of `mvj` at level `l` as asked. */
  ghost predicate Created(t: Trips, made: (Trips, VjId), mvj: string, uri: string, l: RTLevel, vp: Days, sts: seq<StopTime>) {
    var u := made.0;
    var n := made.1;
    && n !in t.vjs && n in u.vjs
    && u.vjs.Keys <= t.vjs.Keys + {n}
    && u.vjs[n].uri == uri && u.vjs[n].metaVj == mvj && u.vjs[n].Vp(l) == vp && u.vjs[n].stopTimes == sts
    && u.mvjs.Keys == t.mvjs.Keys
    && mvj in u.mvjs && n in u.mvjs[mvj].VjsAt(l)
    && (forall m :: m in t.mvjs ==> u.mvjs[m].modifiedBy == t.mvjs[m].modifiedBy)
    && (forall x :: x in t.vjs && x in u.vjs ==> StopsKept(t.vjs[x], u.vjs[x]))
  }

  /** `d` holds the days of `want` that are days of `vj` at the level once
      the journey's day shift is taken off. */
  ghost predicate PlannedDays(d: Days, want: Days, vj: VehicleJourney, level: RTLevel) {
    forall x :: x in d <==> x in want && x >= 0 && x + vj.shift in vj.Vp(level)
  }

  /** A journey kept its meta trip, its day shift and its stops. */
  predicate StopsKept(a: VehicleJourney, b: VehicleJourney) {
    b.metaVj == a.metaVj && b.shift == a.shift && b.stopTimes == a.stopTimes
  }

  /** `create_vj_from_old_vj` under the hypothesis: a new journey with the
      uri, meta trip, days at the level and stop times asked for, and the
      attributes of the journey it derives from; the meta trips and their
      marks stay, and the journeys that stay keep their stops. */
  lemma DerivedJourney(s: PtData, c: Collaborators, mvjUri: string, source: VehicleJourney,
                       newUri: string, level: RTLevel, vp: Days, sts: seq<StopTime>) returns (n: VjId)
    requires CreatesAsAsked(c) && mvjUri in s.trips.mvjs
    ensures var r := CreateVjFromOldVj(s, c, mvjUri, source, newUri, level, vp, sts).0;
      && n !in s.trips.vjs && n in r.trips.vjs
      && r.trips.vjs[n].uri == newUri && r.trips.vjs[n].metaVj == mvjUri
      && r.trips.vjs[n].Vp(level) == vp && r.trips.vjs[n].stopTimes == sts
      && r.trips.vjs[n].attributes == source.attributes
      && n in r.trips.mvjs[mvjUri].VjsAt(level)
      && r.trips.mvjs.Keys == s.trips.mvjs.Keys
      && (forall m :: m in s.trips.mvjs ==> r.trips.mvjs[m].modifiedBy == s.trips.mvjs[m].modifiedBy)
      && r.trips.vjs.Keys <= s.trips.vjs.Keys + {n}
      && (forall x :: x in s.trips.vjs && x in r.trips.vjs ==> StopsKept(s.trips.vjs[x], r.trips.vjs[x]))
  {
    var made := c.createDiscreteVj(s.trips, mvjUri, newUri, level, vp, Some(source.route), sts);
    assert Created(s.trips, made, mvjUri, newUri, level, vp, sts);
    n := made.1;
  }

  /** Marking a meta trip with an impact and deriving one of its journeys:
      the new journey `DerivedJourney` describes, and the meta trip records
      the impact. */
  lemma MarkedDerived(s: PtData, c: Collaborators, id: ImpactId, vj: VehicleJourney, newUri: string,
                      level: RTLevel, vp: Days, sts: seq<StopTime>) returns (n: VjId)
    requires CreatesAsAsked(c) && vj.metaVj in s.trips.mvjs
    ensures var r := CreateVjFromOldVj(Mark(s, vj.metaVj, id), c, vj.metaVj, vj, newUri, level, vp, sts).0;
      && n !in s.trips.vjs && n in r.trips.vjs
      && r.trips.vjs[n].uri == newUri && r.trips.vjs[n].metaVj == vj.metaVj
      && r.trips.vjs[n].Vp(level) == vp && r.trips.vjs[n].stopTimes == sts
      && r.trips.vjs[n].attributes == vj.attributes
      && vj.metaVj in r.trips.mvjs
      && n in r.trips.mvjs[vj.metaVj].VjsAt(level)
      && id in r.trips.mvjs[vj.metaVj].modifiedBy
  {
    n := DerivedJourney(Mark(s, vj.metaVj, id), c, vj.metaVj, vj, newUri, level, vp, sts);
  }

  /** The stop-point case for one candidate whose journey exists: a new
      journey of its meta trip at the level, listed there, with every stop
      of the journey but the closed one, shifted by the journey's day shift,
      on the candidate's days that are days of the journey at the level,
      with the journey's attributes and a uri under the meta trip's; and the
      meta trip records the impact. */
  lemma ClosureDerives(s: PtData, v: Visitor, sp: string, cand: Candidate) returns (n: VjId)
    requires CreatesAsAsked(v.c)
    requires cand.vj in s.trips.vjs && s.trips.vjs[cand.vj].metaVj in s.trips.mvjs
    ensures var r := AddClosure(s, v, sp, cand);
      var vj := s.trips.vjs[cand.vj];
      && n !in s.trips.vjs && n in r.trips.vjs
      && r.trips.vjs[n].metaVj == vj.metaVj
      && r.trips.vjs[n].stopTimes == KeptStops(vj.stopTimes, {sp}, vj.shift)
      && (forall st :: st in r.trips.vjs[n].stopTimes ==> st.stopPoint != sp)
      && PlannedDays(r.trips.vjs[n].Vp(v.level), cand.vp, vj, v.level)
      && r.trips.vjs[n].attributes == vj.attributes
      && vj.metaVj + ":" + LevelName(v.level) + ":" <= r.trips.vjs[n].uri
      && n in r.trips.mvjs[vj.metaVj].VjsAt(v.level)
      && v.id in r.trips.mvjs[vj.metaVj].modifiedBy
  {
    var vj := s.trips.vjs[cand.vj];
    var s1 := Mark(s, vj.metaVj, v.id);
    var m := s1.trips.mvjs[vj.metaVj];
    var tail := Text.NatToString(|m.VjsAt(v.level)|) + ConcatenateImpactUris(s1.impacts, m.modifiedBy);
    var p := ClosurePlan(vj, cand, sp, v.level, vj.metaVj, tail);
    assert PlannedDays(p.vp, cand.vp, vj, v.level);
    n := MarkedDerived(s, v.c, v.id, vj, p.uri, v.level, p.vp, p.stopTimes);
    var r := AddClosure(s, v, sp, cand);
    assert r == CreateVjFromOldVj(s1, v.c, vj.metaVj, vj, p.uri, v.level, p.vp, p.stopTimes).0;
    assert r.trips.vjs[n].Vp(v.level) == p.vp;
    Prefix(vj.metaVj + ":" + LevelName(v.level) + ":", tail);
  }

  lemma Prefix(a: string, b: string)
    ensures a <= a + b
  {
  }

  lemma PrefixGrows(a: string, b: string, c: string)
    requires a <= b
    ensures a <= b + c
  {
    assert (b + c)[..|b|] == b;
  }

  /** The line-section case for one hit journey that stops somewhere outside
      the section: a new journey of its meta trip at the level, listed
      there, with the stops outside the section, shifted by the journey's
      day shift, on the section's days that are days of the journey at the
      level, with the journey's attributes and a uri under the journey's;
      and the meta trip records the impact. (A journey stopping only inside
      the section is cancelled in place: `SectionCancelsInPlace`.) */
  lemma SectionDerives(s: PtData, v: Visitor, iv: ImpactedVJ) returns (n: VjId)
    requires CreatesAsAsked(v.c)
    requires iv.vj in s.trips.vjs && s.trips.vjs[iv.vj].metaVj in s.trips.mvjs
    requires exists st :: st in s.trips.vjs[iv.vj].stopTimes && st.stopPoint !in iv.impactedStops
    ensures n !in s.trips.vjs && n in AddImpactedVj(s, v, iv).trips.vjs
    ensures var r := AddImpactedVj(s, v, iv); var vj := s.trips.vjs[iv.vj];
      r.trips.vjs[n].metaVj == vj.metaVj && r.trips.vjs[n].attributes == vj.attributes
    ensures var r := AddImpactedVj(s, v, iv); var vj := s.trips.vjs[iv.vj];
      r.trips.vjs[n].stopTimes == KeptStops(vj.stopTimes, iv.impactedStops, vj.shift)
    ensures var r := AddImpactedVj(s, v, iv);
      forall st :: st in r.trips.vjs[n].stopTimes ==> st.stopPoint !in iv.impactedStops
    ensures var r := AddImpactedVj(s, v, iv);
      PlannedDays(r.trips.vjs[n].Vp(v.level), iv.newVp, s.trips.vjs[iv.vj], v.level)
    ensures var r := AddImpactedVj(s, v, iv); var vj := s.trips.vjs[iv.vj];
      vj.uri + ":" + LevelName(v.level) + ":" <= r.trips.vjs[n].uri
    ensures var r := AddImpactedVj(s, v, iv); var vj := s.trips.vjs[iv.vj];
      n in r.trips.mvjs[vj.metaVj].VjsAt(v.level) && v.id in r.trips.mvjs[vj.metaVj].modifiedBy
  {
    var vj := s.trips.vjs[iv.vj];
    var s1 := Mark(s, vj.metaVj, v.id);
    var m := s1.trips.mvjs[vj.metaVj];
    var count := |m.VjsAt(v.level)|;
    var p := SectionPlan(vj, iv, v.level, count, v.impact.disruption);
    assert |p.stopTimes| != 0;
    assert PlannedDays(p.vp, iv.newVp, vj, v.level);
    n := MarkedDerived(s, v.c, v.id, vj, p.uri, v.level, p.vp, p.stopTimes);
    var r := AddImpactedVj(s, v, iv);
    assert r == CreateVjFromOldVj(s1, v.c, vj.metaVj, vj, p.uri, v.level, p.vp, p.stopTimes).0;
    assert r.trips.vjs[n].Vp(v.level) == p.vp;
    var a := vj.uri + ":" + LevelName(v.level) + ":";
    Prefix(a, Text.NatToString(count));
    PrefixGrows(a, a + Text.NatToString(count), ":");
    PrefixGrows(a, a + Text.NatToString(count) + ":", v.impact.disruption);
    assert r.trips.vjs[n].uri == p.uri;
  }

  /** The rescheduling case of a meta trip: a new realtime journey of the
      meta trip, listed there, running on the base days the application
      periods start on, calling at the impact's stops in the impact's order
      with the impact's arrival and departure times, taking the impact's
      company when it exists, under the uri `<meta trip>:modified:<count>:
      <disruption>`; and the meta trip records the impact. */
  lemma RescheduleDerives(s: PtData, v: Visitor, m: string, route: Option<string>) returns (n: VjId)
    requires CreatesAsAsked(v.c)
    requires m in s.trips.mvjs && IsRescheduling(v.impact.effect) && |v.impact.stopTimes| > 0
    ensures var r := AddMetaVj(s, v, m, route);
      var stus := v.impact.stopTimes;
      && n !in s.trips.vjs && n in r.trips.vjs
      && r.trips.vjs[n].metaVj == m
      && r.trips.vjs[n].uri == m + ":modified:" + Text.NatToString(|s.trips.mvjs[m].rtVjs|) + ":" + v.impact.disruption
      && r.trips.vjs[n].realtimeVp == ComputeBaseDisruptedVp(v.impact.periods, v.meta)
      && |r.trips.vjs[n].stopTimes| == |stus|
      && (forall k :: 0 <= k < |stus| ==>
            && r.trips.vjs[n].stopTimes[k].stopPoint == stus[k].stopTime.stopPoint
            && r.trips.vjs[n].stopTimes[k].arrival == stus[k].stopTime.arrival
            && r.trips.vjs[n].stopTimes[k].departure == stus[k].stopTime.departure)
      && (v.impact.companyId != "" && v.impact.companyId in s.topo.companies ==>
            r.trips.vjs[n].attributes.company == Some(v.impact.companyId))
      && n in r.trips.mvjs[m].rtVjs
      && v.id in r.trips.mvjs[m].modifiedBy
  {
    n := RescheduleMakes(s, v, m, route);
  }

  /** `Reschedule` alone: the journey `RescheduleDerives` describes, before
      the meta trip is marked. */
  lemma RescheduleMakes(s: PtData, v: Visitor, m: string, route: Option<string>) returns (n: VjId)
    requires CreatesAsAsked(v.c)
    requires m in s.trips.mvjs
    ensures RescheduleMade(s, v, m, Reschedule(s, v, m, route), n)
  {
    var mv := s.trips.mvjs[m];
    var imp := v.impact;
    var canceledVp := ComputeBaseDisruptedVp(imp.periods, v.meta);
    var r0 := if route.Some? then route
              else if HasBase(s.trips, m) then Some(s.trips.vjs[mv.baseVjs[0]].route)
              else None;
    var newUri := m + ":modified:" + Text.NatToString(|mv.rtVjs|) + ":" + imp.disruption;
    var sts := UpdatedStopTimes(imp.stopTimes);
    var made := v.c.createDiscreteVj(s.trips, m, newUri, RealTime, canceledVp, r0, sts);
    assert Created(s.trips, made, m, newUri, RealTime, canceledVp, sts);
    n := made.1;
    RescheduleSettles(s, v, m, route, r0, made);
  }

  /** What `RescheduleDerives` states of the journey `n` of `r`, but the
      mark. */
  ghost predicate RescheduleMade(s: PtData, v: Visitor, m: string, r: PtData, n: VjId)
    requires m in s.trips.mvjs
  {
    && n !in s.trips.vjs && n in r.trips.vjs
    && m in r.trips.mvjs
    && RescheduledJourney(s, v, m, r.trips, n)
    && RescheduledStops(s, v, r.trips.vjs[n])
  }

  /** The journey `n` of `t` is the new realtime journey of the meta trip. */
  ghost predicate RescheduledJourney(s: PtData, v: Visitor, m: string, t: Trips, n: VjId)
    requires m in s.trips.mvjs && n in t.vjs && m in t.mvjs
  {
    && t.vjs[n].metaVj == m
    && t.vjs[n].uri == m + ":modified:" + Text.NatToString(|s.trips.mvjs[m].rtVjs|) + ":" + v.impact.disruption
    && t.vjs[n].realtimeVp == ComputeBaseDisruptedVp(v.impact.periods, v.meta)
    && n in t.mvjs[m].rtVjs
    && t.mvjs[m].modifiedBy == s.trips.mvjs[m].modifiedBy
  }

  /** The journey calls at the impact's stops with the impact's times and
      takes the impact's company when it exists. */
  ghost predicate RescheduledStops(s: PtData, v: Visitor, nv: VehicleJourney) {
    var stus := v.impact.stopTimes;
    && |nv.stopTimes| == |stus|
    && (forall k :: 0 <= k < |stus| ==>
          && nv.stopTimes[k].stopPoint == stus[k].stopTime.stopPoint
          && nv.stopTimes[k].arrival == stus[k].stopTime.arrival
          && nv.stopTimes[k].departure == stus[k].stopTime.departure)
    && (v.impact.companyId != "" && v.impact.companyId in s.topo.companies ==>
          nv.attributes.company == Some(v.impact.companyId))
  }

  /** The settling half of `RescheduleMakes`, given the created journey. */
  lemma RescheduleSettles(s: PtData, v: Visitor, m: string, route: Option<string>, r0: Option<string>, made: (Trips, VjId))
    requires m in s.trips.mvjs
    requires r0 == if route.Some? then route
                   else if HasBase(s.trips, m) then Some(s.trips.vjs[s.trips.mvjs[m].baseVjs[0]].route)
                   else None
    requires made == v.c.createDiscreteVj(s.trips, m,
                       m + ":modified:" + Text.NatToString(|s.trips.mvjs[m].rtVjs|) + ":" + v.impact.disruption,
                       RealTime, ComputeBaseDisruptedVp(v.impact.periods, v.meta), r0, UpdatedStopTimes(v.impact.stopTimes))
    requires Created(s.trips, made, m,
                     m + ":modified:" + Text.NatToString(|s.trips.mvjs[m].rtVjs|) + ":" + v.impact.disruption,
                     RealTime, ComputeBaseDisruptedVp(v.impact.periods, v.meta), UpdatedStopTimes(v.impact.stopTimes))
    ensures RescheduleMade(s, v, m, Reschedule(s, v, m, route), made.1)
  {
    var n := made.1;
    var t := made.0;
    var nv := t.vjs[n];
    var bases := BaseStops(v.c, t, n);
    var nv1 := Rescheduled(nv, v.impact.companyId, s.topo.companies, bases);
    var r := Settle(s, t.(vjs := t.vjs[n := nv1]), m, m + ":modified:" + Text.NatToString(|s.trips.mvjs[m].rtVjs|) + ":" + v.impact.disruption, n, nv1.attributes);
    assert Reschedule(s, v, m, route) == r;
    assert r.trips.vjs[n].(attributes := nv1.attributes, physicalMode := nv1.physicalMode, name := nv1.name) == nv1;
    assert nv1.(attributes := nv.attributes, stopTimes := nv.stopTimes) == nv;
    assert RescheduledJourney(s, v, m, r.trips, n);
    RescheduledKeepsStops(s, v, nv, nv1, r.trips.vjs[n], bases);
  }

  /** Replacement stop times through `Rescheduled` and `Settle`. */
  lemma RescheduledKeepsStops(s: PtData, v: Visitor, nv: VehicleJourney, nv1: VehicleJourney, nv2: VehicleJourney,
                              bases: seq<Option<StopTime>>)
    requires nv.stopTimes == UpdatedStopTimes(v.impact.stopTimes) && |bases| == |nv.stopTimes|
    requires nv1 == Rescheduled(nv, v.impact.companyId, s.topo.companies, bases)
    requires nv2.stopTimes == nv1.stopTimes && nv2.attributes == nv1.attributes
    ensures RescheduledStops(s, v, nv2)
  {
  }

  // ---- the candidates of a closed stop point ------------------------------

  /** The journeys of a list of candidates. */
  function CandidateVjs(cs: seq<Candidate>): (r: seq<VjId>)
    ensures |r| == |cs|
    ensures forall k :: 0 <= k < |cs| ==> r[k] == cs[k].vj
  {
    seq(|cs|, k requires 0 <= k < |cs| => cs[k].vj)
  }

  /** The candidates come in the order of `order`, each journey once when
      `order` lists it once. */
  lemma CandidatesInOrder(t: Trips, v: Visitor, sp: string, impactVp: Days, order: seq<VjId>)
    ensures IsSubseq(CandidateVjs(Candidates(t, v, sp, impactVp, order)), order)
    ensures NoDup(order) ==> NoDup(CandidateVjs(Candidates(t, v, sp, impactVp, order)))
  {
    CandidatesSubseq(t, v, sp, impactVp, order);
    SubseqNoDup(CandidateVjs(Candidates(t, v, sp, impactVp, order)), order);
  }

  lemma {:induction false} CandidatesSubseq(t: Trips, v: Visitor, sp: string, impactVp: Days, order: seq<VjId>)
    ensures IsSubseq(CandidateVjs(Candidates(t, v, sp, impactVp, order)), order)
    decreases |order|
  {
    if |order| > 0 {
      var r := CandidateVjs(Candidates(t, v, sp, impactVp, order));
      var rest := Candidates(t, v, sp, impactVp, order[1..]);
      CandidatesSubseq(t, v, sp, impactVp, order[1..]);
      if Hit(t, v, sp, impactVp, order[0]) {
        assert r[0] == order[0];
        assert r[1..] == CandidateVjs(rest);
      } else {
        assert r == CandidateVjs(rest);
      }
    }
  }

  // ---- a closed stop point over all its candidates -------------------------

  /** The journey does not call at the stop point. */
  predicate Avoids(vj: VehicleJourney, sp: string) {
    forall st :: st in vj.stopTimes ==> st.stopPoint != sp
  }

  /** Every journey of `b` is a journey of `a` with its stops, or does not
      call at `sp`; the meta trips stay and lose no mark. */
  predicate ServedOnlyAsBefore(a: Trips, b: Trips, sp: string) {
    && b.mvjs.Keys == a.mvjs.Keys
    && MarksKept(a.mvjs, b.mvjs)
    && forall x :: x in b.vjs ==> (x in a.vjs && StopsKept(a.vjs[x], b.vjs[x])) || Avoids(b.vjs[x], sp)
  }

  lemma ServedOnlyAsBeforeTransitive(a: Trips, b: Trips, c: Trips, sp: string)
    requires ServedOnlyAsBefore(a, b, sp) && ServedOnlyAsBefore(b, c, sp)
    ensures ServedOnlyAsBefore(a, c, sp)
  {
    MarksKeptTransitive(a.mvjs, b.mvjs, c.mvjs);
    forall x | x in c.vjs
      ensures (x in a.vjs && StopsKept(a.vjs[x], c.vjs[x])) || Avoids(c.vjs[x], sp)
    {
      if x in b.vjs && StopsKept(b.vjs[x], c.vjs[x]) && !(x in a.vjs && StopsKept(a.vjs[x], b.vjs[x])) {
        assert Avoids(b.vjs[x], sp);
      }
    }
  }

  /** One candidate: no journey the closure derives calls at the stop. */
  lemma ClosureAvoids(s: PtData, v: Visitor, sp: string, cand: Candidate)
    requires CreatesAsAsked(v.c)
    ensures ServedOnlyAsBefore(s.trips, AddClosure(s, v, sp, cand).trips, sp)
  {
    if cand.vj in s.trips.vjs && s.trips.vjs[cand.vj].metaVj in s.trips.mvjs {
      var vj := s.trips.vjs[cand.vj];
      var s1 := Mark(s, vj.metaVj, v.id);
      var m := s1.trips.mvjs[vj.metaVj];
      var tail := Text.NatToString(|m.VjsAt(v.level)|) + ConcatenateImpactUris(s1.impacts, m.modifiedBy);
      var p := ClosurePlan(vj, cand, sp, v.level, vj.metaVj, tail);
      DerivedAvoids(s, v.c, v.id, vj, p.uri, v.level, p.vp, p.stopTimes, sp);
    } else {
      assert forall x :: x in s.trips.vjs ==> StopsKept(s.trips.vjs[x], s.trips.vjs[x]);
    }
  }

  /** Marking a meta trip and deriving one of its journeys with stops that
      avoid `sp`. */
  lemma DerivedAvoids(s: PtData, c: Collaborators, id: ImpactId, vj: VehicleJourney, newUri: string,
                      level: RTLevel, vp: Days, sts: seq<StopTime>, sp: string)
    requires CreatesAsAsked(c) && vj.metaVj in s.trips.mvjs
    requires forall st :: st in sts ==> st.stopPoint != sp
    ensures ServedOnlyAsBefore(s.trips, CreateVjFromOldVj(Mark(s, vj.metaVj, id), c, vj.metaVj, vj, newUri, level, vp, sts).0.trips, sp)
  {
    var s1 := Mark(s, vj.metaVj, id);
    var n := DerivedJourney(s1, c, vj.metaVj, vj, newUri, level, vp, sts);
    var r := CreateVjFromOldVj(s1, c, vj.metaVj, vj, newUri, level, vp, sts).0;
    forall x | x in r.trips.vjs
      ensures (x in s.trips.vjs && StopsKept(s.trips.vjs[x], r.trips.vjs[x])) || Avoids(r.trips.vjs[x], sp)
    {
      if x == n {
        assert Avoids(r.trips.vjs[n], sp);
      }
    }
    assert MarksKept(s.trips.mvjs, s1.trips.mvjs);
  }

  /** All the candidates in turn. */
  lemma {:induction false} ClosuresAvoid(s: PtData, v: Visitor, sp: string, cands: seq<Candidate>)
    requires CreatesAsAsked(v.c)
    ensures ServedOnlyAsBefore(s.trips, AddClosures(s, v, sp, cands).trips, sp)
    decreases |cands|
  {
    if |cands| > 0 {
      var s1 := AddClosure(s, v, sp, cands[0]);
      ClosureAvoids(s, v, sp, cands[0]);
      ClosuresAvoid(s1, v, sp, cands[1..]);
      ServedOnlyAsBeforeTransitive(s.trips, s1.trips, AddClosures(s1, v, sp, cands[1..]).trips, sp);
    } else {
      assert forall x :: x in s.trips.vjs ==> StopsKept(s.trips.vjs[x], s.trips.vjs[x]);
    }
  }

  /** The stop-point case: after a stop point is closed, every journey is
      one of before, calling at the same stops, or a journey that does not
      call at the closed stop point; no meta trip is lost and no mark. */
  lemma StopPointNeverServed(s: PtData, v: Visitor, sp: string)
    requires CreatesAsAsked(v.c)
    ensures ServedOnlyAsBefore(s.trips, AddStopPoint(s, v, sp).trips, sp)
  {
    if v.impact.effect == NoService || v.impact.effect == Detour {
      ClosuresAvoid(s, v, sp, Candidates(s.trips, v, sp, v.c.impactVp(v.impact, v.meta), s.trips.vjOrder));
    } else {
      assert forall x :: x in s.trips.vjs ==> StopsKept(s.trips.vjs[x], s.trips.vjs[x]);
    }
  }
}
