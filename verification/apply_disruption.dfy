/** Applying an impact to the schedule and taking it back
    (source/kraken/apply_disruption.cpp). The add visitor walks the informed
    entities of an impact down to meta trips, stop points and line sections,
    cancels days or derives new journeys; the delete visitor resets the meta
    trips an impact touched and replays the other impacts that were modifying
    them. */
module ApplyDisruption {
  import opened Wrappers
  import opened StringOrder
  import opened ValidityPattern
  import opened Schedule
  import opened Message
  import opened EngineState
  import Text

  /** `is_modifying_effect`: the effects that change the schedule. */
  predicate IsModifyingEffect(e: Effect) {
    e == NoService || e == SignificantDelays || e == ModifiedService || e == ReducedService || e == Detour
  }

  /** The effects for which a meta trip is given replacement stop times. */
  predicate IsRescheduling(e: Effect) {
    e == SignificantDelays || e == ModifiedService || e == ReducedService || e == Detour
  }

  /** Impacts no visitor acts on: a non-modifying effect, or a delay, a
      modified or a reduced service that comes without replacement stop
      times. (A detour without stop times still closes stop points.) */
  predicate Inert(imp: Impact) {
    || !IsModifyingEffect(imp.effect)
    || ((imp.effect == SignificantDelays || imp.effect == ModifiedService || imp.effect == ReducedService)
        && |imp.stopTimes| == 0)
  }

  /** The visitor: the impact being applied or deleted, its handle, the level
      of its disruption, the production period and the helpers. */
  datatype Visitor = Visitor(c: Collaborators, meta: Meta, impact: Impact, id: ImpactId, level: RTLevel)

  /** What applying an impact leaves alone. */
  predicate AddFrame(s: PtData, r: PtData) {
    Frame(s, r) && r.objectImpacts == s.objectImpacts
  }

  // ---- small pieces --------------------------------------------------------

  /** `compute_base_disrupted_vp`: for each application period whose start
      date lies in the production period, the day of that date counted from
      the start of production; days `add` refuses are dropped. */
  function ComputeBaseDisruptedVp(periods: seq<Period>, meta: Meta): (r: Days)
    ensures forall d :: d in r <==>
              IsValid(d) &&
              exists k :: 0 <= k < |periods| && InProduction(meta, StartDay(periods[k]))
                          && d == StartDay(periods[k]) - meta.productionBegin
  {
    if |periods| == 0 then {}
    else
      var n := |periods| - 1;
      var front := ComputeBaseDisruptedVp(periods[..n], meta);
      assert forall k :: 0 <= k < n ==> periods[..n][k] == periods[k];
      var start := StartDay(periods[n]);
      if !InProduction(meta, start) then front
      else Add(Pattern(meta.productionBegin, front), start - meta.productionBegin).days
  }

  /** The stop list of a derived journey: the stops not in `closed`, in order,
      each with its four times moved by `shift` days. */
  function KeptStops(sts: seq<StopTime>, closed: set<string>, shift: nat): (r: seq<StopTime>)
    ensures |r| <= |sts|
    ensures forall x :: x in r ==> x.stopPoint !in closed
    ensures forall x :: x in r <==>
              exists st :: st in sts && st.stopPoint !in closed && x == ShiftTimes(st, SecondsPerDay * shift)
    ensures |r| == 0 <==> forall st :: st in sts ==> st.stopPoint in closed
  {
    if |sts| == 0 then []
    else
      var rest := KeptStops(sts[1..], closed, shift);
      assert forall st :: st in sts <==> st == sts[0] || st in sts[1..];
      if sts[0].stopPoint in closed then rest
      else [ShiftTimes(sts[0], SecondsPerDay * shift)] + rest
  }

  /** A single stop is kept, shifted, exactly when it is not closed. */
  lemma KeptStopsOne(st: StopTime, closed: set<string>, shift: nat)
    ensures st.stopPoint in closed ==> KeptStops([st], closed, shift) == []
    ensures st.stopPoint !in closed ==> KeptStops([st], closed, shift) == [ShiftTimes(st, SecondsPerDay * shift)]
  {
    assert [st][1..] == [];
  }

  /** The kept stops of a concatenation are the kept stops of each part, in
      the same order: with `KeptStopsOne`, the stop list is the old one in
      order, closed stops dropped. */
  lemma {:induction false} KeptStopsAppend(a: seq<StopTime>, b: seq<StopTime>, closed: set<string>, shift: nat)
    ensures KeptStops(a + b, closed, shift) == KeptStops(a, closed, shift) + KeptStops(b, closed, shift)
    decreases |a|
  {
    if |a| == 0 {
      assert a + b == b;
    } else {
      assert (a + b)[0] == a[0] && (a + b)[1..] == a[1..] + b;
      KeptStopsAppend(a[1..], b, closed, shift);
    }
  }

  /** `u` occurs in `s` (`s.find(u) != npos`). */
  predicate Occurs(u: string, s: string) {
    exists i :: 0 <= i <= |s| && u <= s[i..]
  }

  /** What occurs in a text occurs in every extension of it. */
  lemma OccursPrefix(u: string, a: string, b: string)
    requires Occurs(u, a) && a <= b
    ensures Occurs(u, b)
  {
    var i :| 0 <= i <= |a| && u <= a[i..];
    assert b[i..][..|a| - i] == a[i..];
  }

  lemma OccursAfterColon(u: string, a: string)
    ensures Occurs(u, a + ":" + u)
  {
    var s := a + ":" + u;
    assert s[|a| + 1..] == u;
  }

  /** `concatenate_impact_uris`: ":" and the disruption uri of each live
      impact of `modifiedBy`, skipping a uri the text already contains. */
  function ConcatenateImpactUris(impacts: map<ImpactId, Impact>, modifiedBy: seq<ImpactId>): (r: string)
    ensures forall i :: i in modifiedBy && i in impacts ==> Occurs(impacts[i].disruption, r)
  {
    AppendUrisCovers(impacts, modifiedBy, "");
    AppendUris(impacts, modifiedBy, "")
  }

  /** The step of `concatenate_impact_uris` for one impact. */
  function NextUris(impacts: map<ImpactId, Impact>, i: ImpactId, acc: string): (r: string)
    ensures acc <= r
    ensures i in impacts ==> Occurs(impacts[i].disruption, r)
  {
    if i in impacts && !Occurs(impacts[i].disruption, acc) then
      OccursAfterColon(impacts[i].disruption, acc);
      acc + ":" + impacts[i].disruption
    else acc
  }

  function AppendUris(impacts: map<ImpactId, Impact>, ids: seq<ImpactId>, acc: string): (r: string)
    ensures acc <= r
    decreases |ids|
  {
    if |ids| == 0 then acc
    else AppendUris(impacts, ids[1..], NextUris(impacts, ids[0], acc))
  }

  /** Reading one more impact extends the text by that impact's step. */
  lemma {:induction false} AppendUrisLast(impacts: map<ImpactId, Impact>, ids: seq<ImpactId>, i: ImpactId, acc: string)
    ensures AppendUris(impacts, ids + [i], acc) == NextUris(impacts, i, AppendUris(impacts, ids, acc))
    decreases |ids|
  {
    if |ids| == 0 {
      assert ids + [i] == [i] && [i][1..] == [];
    } else {
      assert (ids + [i])[0] == ids[0] && (ids + [i])[1..] == ids[1..] + [i];
      AppendUrisLast(impacts, ids[1..], i, NextUris(impacts, ids[0], acc));
    }
  }

  /** The exact text `concatenate_impact_uris` builds: nothing for no
      impact, and for one more impact `":"` and its disruption uri appended
      when the impact is live and that uri does not occur yet, else nothing
      appended. */
  lemma ImpactUrisShape(impacts: map<ImpactId, Impact>, ids: seq<ImpactId>, i: ImpactId)
    ensures ConcatenateImpactUris(impacts, []) == ""
    ensures var before := ConcatenateImpactUris(impacts, ids);
      ConcatenateImpactUris(impacts, ids + [i])
        == if i in impacts && !Occurs(impacts[i].disruption, before) then before + ":" + impacts[i].disruption
           else before
  {
    AppendUrisLast(impacts, ids, i, "");
  }

  /** As written, a uri that occurs inside an earlier one is skipped: the
      disruptions "d10" then "d1" give ":d10". */
  lemma ImpactUrisSkipContained()
    ensures var imp := Impact("i", "", 0, [], NoService, [], "", []);
      ConcatenateImpactUris(map[0 := imp.(disruption := "d10"), 1 := imp.(disruption := "d1")], [0, 1]) == ":d10"
  {
    var imp := Impact("i", "", 0, [], NoService, [], "", []);
    var impacts := map[0 := imp.(disruption := "d10"), 1 := imp.(disruption := "d1")];
    ImpactUrisShape(impacts, [], 0);
    assert [] + [0] == [0];
    assert ConcatenateImpactUris(impacts, [0]) == ":d10";
    ImpactUrisShape(impacts, [0], 1);
    assert [0] + [1] == [0, 1];
    assert ":d10"[1..] == "d10" && "d1" <= ":d10"[1..];
    assert Occurs("d1", ":d10");
  }

  /** Every live impact's disruption uri occurs in the result. */
  lemma {:induction false} AppendUrisCovers(impacts: map<ImpactId, Impact>, ids: seq<ImpactId>, acc: string)
    ensures forall i :: i in ids && i in impacts ==> Occurs(impacts[i].disruption, AppendUris(impacts, ids, acc))
    decreases |ids|
  {
    if |ids| > 0 {
      var next := NextUris(impacts, ids[0], acc);
      var r := AppendUris(impacts, ids, acc);
      AppendUrisCovers(impacts, ids[1..], next);
      if ids[0] in impacts {
        OccursPrefix(impacts[ids[0]].disruption, next, r);
      }
      assert forall i :: i in ids ==> i == ids[0] || i in ids[1..];
    }
  }

  /** The days on which a journey calls at a stop point during at least one
      of the periods: the union of `get_vp_of_sp` over the periods. */
  function SpUnion(c: Collaborators, vj: VehicleJourney, sp: string, level: RTLevel, periods: seq<Period>): (r: Days)
    ensures forall x :: x in r <==> exists k :: 0 <= k < |periods| && x in c.vpOfSp(vj, sp, level, periods[k])
  {
    if |periods| == 0 then {}
    else
      var n := |periods| - 1;
      assert forall k :: 0 <= k < n ==> periods[..n][k] == periods[k];
      Or(SpUnion(c, vj, sp, level, periods[..n]), c.vpOfSp(vj, sp, level, periods[n]))
  }

  /** `push_unique_impact` on a meta trip. */
  function Mark(s: PtData, mvjUri: string, id: ImpactId): (r: PtData)
    requires mvjUri in s.trips.mvjs
    ensures AddFrame(s, r)
    ensures r.trips.mvjs.Keys == s.trips.mvjs.Keys
    ensures r.trips.mvjs[mvjUri] == s.trips.mvjs[mvjUri].(modifiedBy := PushUnique(s.trips.mvjs[mvjUri].modifiedBy, id))
    ensures forall m :: m in s.trips.mvjs && m != mvjUri ==> r.trips.mvjs[m] == s.trips.mvjs[m]
    ensures r.trips.vjs == s.trips.vjs && r.modeVjs == s.modeVjs
  {
    var m := s.trips.mvjs[mvjUri];
    s.(trips := s.trips.(mvjs := s.trips.mvjs[mvjUri := m.(modifiedBy := PushUnique(m.modifiedBy, id))]))
  }

  // ---- creating a derived journey -----------------------------------------

  /** The meta trip has a first base journey. */
  predicate HasBase(t: Trips, mvjUri: string) {
    mvjUri in t.mvjs && |t.mvjs[mvjUri].baseVjs| > 0 && t.mvjs[mvjUri].baseVjs[0] in t.vjs
  }

  /** Physical mode and name of a new journey: those of the meta trip's first
      base journey, otherwise the first physical mode and the new uri. */
  function ModeAndName(t: Trips, topo: Topology, mvjUri: string, newUri: string): (r: (string, string))
    ensures HasBase(t, mvjUri) ==>
              var b := t.vjs[t.mvjs[mvjUri].baseVjs[0]];
              r == (b.physicalMode, b.name)
    ensures !HasBase(t, mvjUri) ==>
              r.1 == newUri && (|topo.physicalModes| > 0 ==> r.0 == topo.physicalModes[0])
  {
    if HasBase(t, mvjUri) then
      var b := t.vjs[t.mvjs[mvjUri].baseVjs[0]];
      (b.physicalMode, b.name)
    else
      (if |topo.physicalModes| > 0 then topo.physicalModes[0] else "", newUri)
  }

  /** Give the journey `id` of `t` (when it exists) a mode and a name and list
      it under its mode. */
  function Settle(s: PtData, t: Trips, mvjUri: string, newUri: string, id: VjId, attrs: VjAttributes): (r: PtData)
    ensures AddFrame(s, r)
    ensures r.trips.mvjs == t.mvjs && r.trips.vjs.Keys == t.vjs.Keys
    ensures forall v :: v in t.vjs && v != id ==> r.trips.vjs[v] == t.vjs[v]
    ensures id in t.vjs ==>
              var nv := r.trips.vjs[id];
              && nv.attributes == attrs
              && (nv.physicalMode, nv.name) == ModeAndName(t, s.topo, mvjUri, newUri)
              && id in Lookup(r.modeVjs, nv.physicalMode)
              && nv.(attributes := t.vjs[id].attributes, physicalMode := t.vjs[id].physicalMode,
                     name := t.vjs[id].name) == t.vjs[id]
  {
    if id in t.vjs then
      var mn := ModeAndName(t, s.topo, mvjUri, newUri);
      var nv := t.vjs[id].(attributes := attrs, physicalMode := mn.0, name := mn.1);
      s.(trips := t.(vjs := t.vjs[id := nv]), modeVjs := AppendAt(s.modeVjs, mn.0, id))
    else s.(trips := t)
  }

  /** `create_vj_from_old_vj`: derive a journey of the meta trip at `level`
      from `old`, which lends it its route, company, type, on-demand message
      and vehicle properties. */
  function CreateVjFromOldVj(s: PtData, c: Collaborators, mvjUri: string, source: VehicleJourney,
                             newUri: string, level: RTLevel, vp: Days, sts: seq<StopTime>): (r: (PtData, VjId))
    ensures AddFrame(s, r.0)
    ensures var made := c.createDiscreteVj(s.trips, mvjUri, newUri, level, vp, Some(source.route), sts);
      && r.1 == made.1
      && r.0.trips.mvjs == made.0.mvjs
      && r.0.trips.vjs.Keys == made.0.vjs.Keys
      && (r.1 in made.0.vjs ==>
            var nv := r.0.trips.vjs[r.1];
            && nv.attributes == source.attributes
            && (nv.physicalMode, nv.name) == ModeAndName(made.0, s.topo, mvjUri, newUri)
            && r.1 in Lookup(r.0.modeVjs, nv.physicalMode)
            && nv.(attributes := made.0.vjs[r.1].attributes, physicalMode := made.0.vjs[r.1].physicalMode,
                   name := made.0.vjs[r.1].name) == made.0.vjs[r.1])
      && (forall x :: x in made.0.vjs && x != r.1 ==> r.0.trips.vjs[x] == made.0.vjs[x])
  {
    var made := c.createDiscreteVj(s.trips, mvjUri, newUri, level, vp, Some(source.route), sts);
    (Settle(s, made.0, mvjUri, newUri, made.1, source.attributes), made.1)
  }

  /** The replacement stop times of a rescheduled journey keep the boarding
      and alighting durations of the base stop they replace, when there is
      one; the arrival and departure times are the replacement's. */
  function WithBaseDurations(sts: seq<StopTime>, bases: seq<Option<StopTime>>): (r: seq<StopTime>)
    requires |bases| == |sts|
    ensures |r| == |sts|
    ensures forall k :: 0 <= k < |r| ==>
              && r[k].stopPoint == sts[k].stopPoint
              && r[k].arrival == sts[k].arrival && r[k].departure == sts[k].departure
              && (bases[k].None? ==> r[k] == sts[k])
              && (bases[k].Some? ==>
                    && r[k].BoardingDuration() == bases[k].value.BoardingDuration()
                    && r[k].AlightingDuration() == bases[k].value.AlightingDuration())
  {
    seq(|sts|, k requires 0 <= k < |sts| =>
      match bases[k]
      case None => sts[k]
      case Some(b) =>
        sts[k].(boarding := sts[k].departure - b.BoardingDuration(),
                alighting := sts[k].arrival + b.AlightingDuration()))
  }

  // ---- the add visitor -----------------------------------------------------

  /** The meta-trip case of the add visitor: cancellation for NO_SERVICE, a
      rescheduled realtime journey for a delay, a modified or reduced service
      or a detour that carries replacement stop times, nothing otherwise. */
  function AddMetaVj(s: PtData, v: Visitor, mvjUri: string, route: Option<string>): (r: PtData)
    ensures AddFrame(s, r)
    ensures Inert(v.impact) || mvjUri !in s.trips.mvjs ==> r == s
    ensures v.impact.effect != NoService && !(IsRescheduling(v.impact.effect) && |v.impact.stopTimes| > 0) ==> r == s
    ensures mvjUri in s.trips.mvjs && v.impact.effect == NoService ==>
              var m := s.trips.mvjs[mvjUri];
              && r.trips == s.trips.(vjs := v.c.cancelVj(s.trips.vjs, ListsOf(m), v.level, v.impact.periods, route),
                                     mvjs := s.trips.mvjs[mvjUri := m.(modifiedBy := PushUnique(m.modifiedBy, v.id))])
              && r.modeVjs == s.modeVjs
  {
    if mvjUri !in s.trips.mvjs then s
    else
      var m := s.trips.mvjs[mvjUri];
      var imp := v.impact;
      if imp.effect == NoService then
        var s1 := s.(trips := s.trips.(vjs := v.c.cancelVj(s.trips.vjs, ListsOf(m), v.level, imp.periods, route)));
        Mark(s1, mvjUri, v.id)
      else if IsRescheduling(imp.effect) && |imp.stopTimes| > 0 then
        var s1 := Reschedule(s, v, mvjUri, route);
        if mvjUri in s1.trips.mvjs then Mark(s1, mvjUri, v.id) else s1
      else s
  }

  /** The stop times an impact's replacement stop-time updates carry. */
  function UpdatedStopTimes(stus: seq<StopTimeUpdate>): (r: seq<StopTime>)
    ensures |r| == |stus|
    ensures forall k :: 0 <= k < |r| ==> r[k] == stus[k].stopTime
  {
    seq(|stus|, k requires 0 <= k < |stus| => stus[k].stopTime)
  }

  /** A rescheduled realtime journey of the meta trip: it runs on the base
      days the application periods start on and follows the impact's stop
      times (`create_discrete_vj`), then is finished by `Rescheduled`. */
  function Reschedule(s: PtData, v: Visitor, mvjUri: string, route: Option<string>): (r: PtData)
    requires mvjUri in s.trips.mvjs
    ensures AddFrame(s, r)
  {
    var m := s.trips.mvjs[mvjUri];
    var imp := v.impact;
    var canceledVp := ComputeBaseDisruptedVp(imp.periods, v.meta);
    var r0 := if route.Some? then route
              else if HasBase(s.trips, mvjUri) then Some(s.trips.vjs[m.baseVjs[0]].route)
              else None;
    var newUri := mvjUri + ":modified:" + Text.NatToString(|m.rtVjs|) + ":" + imp.disruption;
    var made := v.c.createDiscreteVj(s.trips, mvjUri, newUri, RealTime, canceledVp, r0, UpdatedStopTimes(imp.stopTimes));
    var t := made.0;
    var id := made.1;
    if id !in t.vjs then s.(trips := t)
    else
      var nv := t.vjs[id];
      var nv1 := Rescheduled(nv, imp.companyId, s.topo.companies, BaseStops(v.c, t, id));
      Settle(s, t.(vjs := t.vjs[id := nv1]), mvjUri, newUri, id, nv1.attributes)
  }

  /** `get_base_stop_time` for each stop of the journey `id`. */
  function BaseStops(c: Collaborators, t: Trips, id: VjId): (r: seq<Option<StopTime>>)
    requires id in t.vjs
    ensures |r| == |t.vjs[id].stopTimes|
    ensures forall k :: 0 <= k < |r| ==> r[k] == c.baseStopTime(t, id, k)
  {
    seq(|t.vjs[id].stopTimes|, k requires 0 <= k < |t.vjs[id].stopTimes| => c.baseStopTime(t, id, k))
  }

  /** A freshly created rescheduled journey takes the impact's company when
      the impact names one that exists, and its stops keep the base stops'
      boarding and alighting durations; nothing else changes. */
  function Rescheduled(nv: VehicleJourney, companyId: string, companies: set<string>,
                       bases: seq<Option<StopTime>>): (r: VehicleJourney)
    requires |bases| == |nv.stopTimes|
    ensures companyId != "" && companyId in companies ==> r.attributes.company == Some(companyId)
    ensures companyId == "" || companyId !in companies ==> r.attributes == nv.attributes
    ensures r.attributes.(company := nv.attributes.company) == nv.attributes
    ensures r.stopTimes == WithBaseDurations(nv.stopTimes, bases)
    ensures r.(attributes := nv.attributes, stopTimes := nv.stopTimes) == nv
  {
    var attrs := if companyId != "" && companyId in companies
                 then nv.attributes.(company := Some(companyId))
                 else nv.attributes;
    nv.(attributes := attrs, stopTimes := WithBaseDurations(nv.stopTimes, bases))
  }

  /** The journeys of the meta trips of `ms`, in turn. */
  function AddMvjs(s: PtData, v: Visitor, ms: seq<string>, route: Option<string>): (r: PtData)
    ensures AddFrame(s, r)
    ensures Inert(v.impact) ==> r == s
    decreases |ms|
  {
    if |ms| == 0 then s
    else AddMvjs(AddMetaVj(s, v, ms[0], route), v, ms[1..], route)
  }

  /** The route case: every meta trip with a journey on the route, told the
      route. */
  function AddRoute(s: PtData, v: Visitor, route: string): (r: PtData)
    ensures AddFrame(s, r)
    ensures Inert(v.impact) ==> r == s
  {
    AddMvjs(s, v, MvjsOfRoute(s.trips, route), Some(route))
  }

  function AddRoutes(s: PtData, v: Visitor, routes: seq<string>): (r: PtData)
    ensures AddFrame(s, r)
    ensures Inert(v.impact) ==> r == s
    decreases |routes|
  {
    if |routes| == 0 then s
    else AddRoutes(AddRoute(s, v, routes[0]), v, routes[1..])
  }

  /** The network case: each line, and through it each route. */
  function AddLines(s: PtData, v: Visitor, lines: seq<string>): (r: PtData)
    ensures AddFrame(s, r)
    ensures Inert(v.impact) ==> r == s
    decreases |lines|
  {
    if |lines| == 0 then s
    else AddLines(AddRoutes(s, v, Lookup(s.topo.lineRoutes, lines[0])), v, lines[1..])
  }

  /** A journey closed by a line section, as computed before any change. */
  function AddImpactedVj(s: PtData, v: Visitor, iv: ImpactedVJ): (r: PtData)
    ensures AddFrame(s, r)
  {
    if iv.vj !in s.trips.vjs || s.trips.vjs[iv.vj].metaVj !in s.trips.mvjs then s
    else
      var vj := s.trips.vjs[iv.vj];
      var mvjUri := vj.metaVj;
      var s1 := Mark(s, mvjUri, v.id);
      var m := s1.trips.mvjs[mvjUri];
      var p := SectionPlan(vj, iv, v.level, |m.VjsAt(v.level)|, v.impact.disruption);
      if |p.stopTimes| == 0 then
        s1.(trips := s1.trips.(vjs := v.c.cancelVj(s1.trips.vjs, ListsOf(m), v.level, v.impact.periods, None)))
      else
        CreateVjFromOldVj(s1, v.c, mvjUri, vj, p.uri, v.level, p.vp, p.stopTimes).0
  }

  /** What a derived journey is made of. */
  datatype VjPlan = VjPlan(uri: string, vp: Days, stopTimes: seq<StopTime>)

  /** The journey a line section leaves: the stops outside the section,
      shifted by the journey's day shift, running on the section's days
      that are also days of the journey at the level. */
  function SectionPlan(vj: VehicleJourney, iv: ImpactedVJ, level: RTLevel, count: nat, disruption: string): (p: VjPlan)
    ensures p.stopTimes == KeptStops(vj.stopTimes, iv.impactedStops, vj.shift)
    ensures forall x :: x in p.vp <==> x in iv.newVp && x >= 0 && x + vj.shift in vj.Vp(level)
    ensures p.uri == vj.uri + ":" + LevelName(level) + ":" + Text.NatToString(count) + ":" + disruption
  {
    VjPlan(vj.uri + ":" + LevelName(level) + ":" + Text.NatToString(count) + ":" + disruption,
           And(iv.newVp, ShiftRight(vj.Vp(level), vj.shift)),
           KeptStops(vj.stopTimes, iv.impactedStops, vj.shift))
  }

  function AddImpactedVjs(s: PtData, v: Visitor, ivs: seq<ImpactedVJ>): (r: PtData)
    ensures AddFrame(s, r)
    decreases |ivs|
  {
    if |ivs| == 0 then s
    else AddImpactedVjs(AddImpactedVj(s, v, ivs[0]), v, ivs[1..])
  }

  /** The line-section case: only NO_SERVICE acts. */
  function AddLineSection(s: PtData, v: Visitor, ls: LineSection): (r: PtData)
    ensures AddFrame(s, r)
    ensures v.impact.effect != NoService ==> r == s
  {
    if v.impact.effect != NoService then s
    else AddImpactedVjs(s, v, v.c.impactedVjs(s, ls, v.impact, v.meta, v.level))
  }

  /** A journey a stop-point closure hits, and the days of its derived
      journey before the level's days are taken into account. */
  datatype Candidate = Candidate(vj: VjId, vp: Days)

  /** The journey runs on a day of the impact at the level and calls at the
      stop point during some application period. */
  predicate Hit(t: Trips, v: Visitor, sp: string, impactVp: Days, id: VjId) {
    && id in t.vjs
    && And(t.vjs[id].Vp(v.level), impactVp) != {}
    && SpUnion(v.c, t.vjs[id], sp, v.level, v.impact.periods) != {}
  }

  /** The first loop of the stop-point case: the journeys of `order` the
      closure hits, each with the union of its calls at the stop point over
      the periods, shifted back by its day shift. */
  function Candidates(t: Trips, v: Visitor, sp: string, impactVp: Days, order: seq<VjId>): (r: seq<Candidate>)
    ensures forall k :: 0 <= k < |r| ==>
              && r[k].vj in order && Hit(t, v, sp, impactVp, r[k].vj)
              && r[k].vp == ShiftRight(SpUnion(v.c, t.vjs[r[k].vj], sp, v.level, v.impact.periods),
                                       t.vjs[r[k].vj].shift)
    ensures forall id :: id in order && Hit(t, v, sp, impactVp, id) ==> exists k :: 0 <= k < |r| && r[k].vj == id
  {
    if |order| == 0 then []
    else
      var rest := Candidates(t, v, sp, impactVp, order[1..]);
      assert forall id :: id in order <==> id == order[0] || id in order[1..];
      if Hit(t, v, sp, impactVp, order[0]) then
        var vj := t.vjs[order[0]];
        var r := [Candidate(order[0], ShiftRight(SpUnion(v.c, vj, sp, v.level, v.impact.periods), vj.shift))] + rest;
        assert forall k :: 0 <= k < |rest| ==> r[k + 1] == rest[k];
        forall id | id in order && Hit(t, v, sp, impactVp, id)
          ensures exists k :: 0 <= k < |r| && r[k].vj == id
        {
          if id == order[0] {
            assert r[0].vj == id;
          } else {
            var k :| 0 <= k < |rest| && rest[k].vj == id;
            assert r[k + 1].vj == id;
          }
        }
        r
      else rest
  }

  /** The journey a closed stop point leaves: every stop but that one,
      shifted by the journey's day shift, running on the candidate's days
      that are also days of the journey at the level. */
  function ClosurePlan(vj: VehicleJourney, cand: Candidate, sp: string, level: RTLevel, prefix: string, uris: string): (p: VjPlan)
    ensures p.stopTimes == KeptStops(vj.stopTimes, {sp}, vj.shift)
    ensures forall x :: x in p.vp <==> x in cand.vp && x >= 0 && x + vj.shift in vj.Vp(level)
    ensures p.uri == prefix + ":" + LevelName(level) + ":" + uris
  {
    VjPlan(prefix + ":" + LevelName(level) + ":" + uris,
           And(cand.vp, ShiftRight(vj.Vp(level), vj.shift)),
           KeptStops(vj.stopTimes, {sp}, vj.shift))
  }

  /** The second loop of the stop-point case, for one candidate. */
  function AddClosure(s: PtData, v: Visitor, sp: string, cand: Candidate): (r: PtData)
    ensures AddFrame(s, r)
  {
    if cand.vj !in s.trips.vjs || s.trips.vjs[cand.vj].metaVj !in s.trips.mvjs then s
    else
      var vj := s.trips.vjs[cand.vj];
      var mvjUri := vj.metaVj;
      var s1 := Mark(s, mvjUri, v.id);
      var m := s1.trips.mvjs[mvjUri];
      var tail := Text.NatToString(|m.VjsAt(v.level)|) + ConcatenateImpactUris(s1.impacts, m.modifiedBy);
      var p := ClosurePlan(vj, cand, sp, v.level, mvjUri, tail);
      CreateVjFromOldVj(s1, v.c, mvjUri, vj, p.uri, v.level, p.vp, p.stopTimes).0
  }

  function AddClosures(s: PtData, v: Visitor, sp: string, cands: seq<Candidate>): (r: PtData)
    ensures AddFrame(s, r)
    decreases |cands|
  {
    if |cands| == 0 then s
    else AddClosures(AddClosure(s, v, sp, cands[0]), v, sp, cands[1..])
  }

  /** The stop-point case: only NO_SERVICE and DETOUR act. */
  function AddStopPoint(s: PtData, v: Visitor, sp: string): (r: PtData)
    ensures AddFrame(s, r)
    ensures v.impact.effect != NoService && v.impact.effect != Detour ==> r == s
  {
    if v.impact.effect != NoService && v.impact.effect != Detour then s
    else
      var impactVp := v.c.impactVp(v.impact, v.meta);
      AddClosures(s, v, sp, Candidates(s.trips, v, sp, impactVp, s.trips.vjOrder))
  }

  /** The stop-area case: each of its stop points. */
  function AddStopPoints(s: PtData, v: Visitor, sps: seq<string>): (r: PtData)
    ensures AddFrame(s, r)
    ensures v.impact.effect != NoService && v.impact.effect != Detour ==> r == s
    decreases |sps|
  {
    if |sps| == 0 then s
    else AddStopPoints(AddStopPoint(s, v, sps[0]), v, sps[1..])
  }

  /** `add_impacts_visitor` on one informed entity. */
  function AddEntity(s: PtData, v: Visitor, e: PtObj): (r: PtData)
    ensures AddFrame(s, r)
    ensures Inert(v.impact) ==> r == s
  {
    match e
    case UnknownPtObj => s
    case NetworkObj(n) => AddLines(s, v, Lookup(s.topo.networkLines, n))
    case LineObj(l) => AddRoutes(s, v, Lookup(s.topo.lineRoutes, l))
    case RouteObj(r) => AddRoute(s, v, r)
    case MetaVjObj(m) => AddMetaVj(s, v, m, None)
    case StopAreaObj(a) => AddStopPoints(s, v, Lookup(s.topo.stopAreaPoints, a))
    case StopPointObj(p) => AddStopPoint(s, v, p)
    case LineSectionObj(ls) => AddLineSection(s, v, ls)
  }

  function AddEntities(s: PtData, v: Visitor, es: seq<PtObj>): (r: PtData)
    ensures AddFrame(s, r)
    ensures Inert(v.impact) ==> r == s
    decreases |es|
  {
    if |es| == 0 then s
    else AddEntities(AddEntity(s, v, es[0]), v, es[1..])
  }

  /** `apply_impact`: an impact with a non-modifying effect changes nothing;
      otherwise every informed entity is visited at the disruption's level. */
  function ApplyImpact(s: PtData, c: Collaborators, meta: Meta, level: RTLevel, id: ImpactId): (r: PtData)
    ensures AddFrame(s, r)
    ensures id !in s.impacts || Inert(s.impacts[id]) ==> r == s
  {
    if id !in s.impacts then s
    else
      var imp := s.impacts[id];
      if !IsModifyingEffect(imp.effect) then s
      else AddEntities(s, Visitor(c, meta, imp, id, level), imp.entities)
  }

  /** `apply_disruption`: apply each impact of the disruption in turn. */
  function ApplyDisruption(s: PtData, c: Collaborators, meta: Meta, d: Disruption): (r: PtData)
    ensures AddFrame(s, r)
    ensures (forall i :: i in d.impacts && i in s.impacts ==> Inert(s.impacts[i])) ==> r == s
  {
    ApplyImpacts(s, c, meta, d.rtLevel, d.impacts)
  }

  function ApplyImpacts(s: PtData, c: Collaborators, meta: Meta, level: RTLevel, ids: seq<ImpactId>): (r: PtData)
    ensures AddFrame(s, r)
    ensures (forall i :: i in ids && i in s.impacts ==> Inert(s.impacts[i])) ==> r == s
    decreases |ids|
  {
    if |ids| == 0 then s
    else
      assert forall i :: i in ids[1..] ==> i in ids;
      ApplyImpacts(ApplyImpact(s, c, meta, level, ids[0]), c, meta, level, ids[1..])
  }

  // ---- the delete visitor --------------------------------------------------

  /** An impact kept for replay, with the key `comp` orders by. */
  datatype Collected = Collected(id: ImpactId, updatedAt: int, uri: string)

  /** `comp`: by update time, then by uri. */
  predicate Comp(a: Collected, b: Collected) {
    if a.updatedAt != b.updatedAt then a.updatedAt < b.updatedAt else Less(a.uri, b.uri)
  }

  predicate SameKey(a: Collected, b: Collected) {
    a.updatedAt == b.updatedAt && a.uri == b.uri
  }

  /** `comp` is a strict weak order whose equivalence is equality of keys, so
      the collection keeps one impact per (update time, uri). */
  lemma CompStrictWeakOrder(a: Collected, b: Collected, c: Collected)
    ensures !Comp(a, a)
    ensures Comp(a, b) ==> !Comp(b, a)
    ensures Comp(a, b) && Comp(b, c) ==> Comp(a, c)
    ensures !Comp(a, b) && !Comp(b, a) <==> SameKey(a, b)
  {
    StrictTotal(a.uri, b.uri, c.uri);
  }

  /** Ordered strictly by `comp`. */
  predicate Ordered(xs: seq<Collected>) {
    forall i, j :: 0 <= i < j < |xs| ==> Comp(xs[i], xs[j])
  }

  /** `std::set<impact_sptr, comp>::insert`: an impact whose key is already
      present is dropped; otherwise it takes its place in the order. */
  function Insert(xs: seq<Collected>, x: Collected): (r: seq<Collected>)
    ensures forall z :: z in r ==> z in xs || z == x
    ensures forall y :: y in xs ==> y in r
    ensures exists z :: z in r && SameKey(z, x)
    ensures (forall y :: y in xs ==> !SameKey(x, y)) ==> x in r
    decreases |xs|
  {
    if |xs| == 0 then [x]
    else if Comp(x, xs[0]) then
      assert x in [x] + xs && SameKey(x, x);
      [x] + xs
    else if Comp(xs[0], x) then
      var rest := Insert(xs[1..], x);
      assert forall y :: y in xs <==> y == xs[0] || y in xs[1..];
      [xs[0]] + rest
    else
      assert SameKey(x, xs[0]) by { CompStrictWeakOrder(x, xs[0], x); }
      assert xs[0] in xs && SameKey(xs[0], x);
      xs
  }

  /** Inserting into an ordered collection keeps it ordered. */
  lemma {:induction false} InsertOrdered(xs: seq<Collected>, x: Collected)
    requires Ordered(xs)
    ensures Ordered(Insert(xs, x))
    decreases |xs|
  {
    if |xs| == 0 {
    } else if Comp(x, xs[0]) {
      InsertFront(xs, x);
    } else if Comp(xs[0], x) {
      assert Ordered(xs[1..]);
      InsertOrdered(xs[1..], x);
      ConsOrdered(xs[0], Insert(xs[1..], x));
    }
  }

  /** A head below every element of an ordered tail keeps it ordered. */
  lemma ConsOrdered(h: Collected, rest: seq<Collected>)
    requires Ordered(rest) && forall z :: z in rest ==> Comp(h, z)
    ensures Ordered([h] + rest)
  {
    var r := [h] + rest;
    forall i, j | 0 <= i < j < |r| ensures Comp(r[i], r[j]) {
      if i == 0 {
        assert r[j] in rest;
      } else {
        assert r[i] == rest[i - 1] && r[j] == rest[j - 1];
      }
    }
  }

  /** An impact whose key is already in an ordered collection leaves it as
      it was. */
  lemma {:induction false} InsertPresent(xs: seq<Collected>, x: Collected, y: Collected)
    requires Ordered(xs) && y in xs && SameKey(x, y)
    ensures Insert(xs, x) == xs
    decreases |xs|
  {
    if Comp(x, xs[0]) {
      InsertFront(xs, x);
    } else if Comp(xs[0], x) {
      assert !SameKey(x, xs[0]) by { CompStrictWeakOrder(xs[0], x, x); }
      assert y in xs[1..];
      assert Ordered(xs[1..]);
      InsertPresent(xs[1..], x, y);
      assert [xs[0]] + xs[1..] == xs;
    }
  }

  /** An impact that sorts before the first of an ordered collection sorts
      before all of it and shares no key with it. */
  lemma InsertFront(xs: seq<Collected>, x: Collected)
    requires |xs| > 0 && Comp(x, xs[0])
    ensures Ordered(xs) ==> Ordered([x] + xs) && forall y :: y in xs ==> !SameKey(x, y)
  {
    if Ordered(xs) {
      var r := [x] + xs;
      forall i, j | 0 <= i < j < |r| ensures Comp(r[i], r[j]) {
        if i == 0 {
          if j > 1 { CompStrictWeakOrder(x, xs[0], r[j]); }
        } else {
          assert r[i] == xs[i - 1] && r[j] == xs[j - 1];
        }
      }
      forall y | y in xs ensures !SameKey(x, y) {
        var j :| 0 <= j < |xs| && xs[j] == y;
        if j > 0 { CompStrictWeakOrder(x, xs[0], y); }
        CompStrictWeakOrder(x, y, y);
      }
    }
  }

  /** The key `comp` reads from an impact. */
  function KeyOf(id: ImpactId, imp: Impact): Collected {
    Collected(id, imp.updatedAt, imp.uri)
  }

  /** Insert the live impacts of `ids` into the collection, in turn. */
  function Collect(coll: seq<Collected>, impacts: map<ImpactId, Impact>, ids: seq<ImpactId>): (r: seq<Collected>)
    ensures Ordered(coll) ==> Ordered(r)
    ensures forall z :: z in coll ==> z in r
    ensures forall z :: z in r ==> z in coll || (z.id in ids && z.id in impacts && z == KeyOf(z.id, impacts[z.id]))
    ensures forall i :: i in ids && i in impacts ==> exists z :: z in r && SameKey(z, KeyOf(i, impacts[i]))
    decreases |ids|
  {
    if |ids| == 0 then coll
    else
      var next := if ids[0] in impacts then Insert(coll, KeyOf(ids[0], impacts[ids[0]])) else coll;
      assert Ordered(coll) ==> Ordered(next) by {
        if Ordered(coll) && ids[0] in impacts { InsertOrdered(coll, KeyOf(ids[0], impacts[ids[0]])); }
      }
      var r := Collect(next, impacts, ids[1..]);
      assert forall i :: i in ids ==> i == ids[0] || i in ids[1..];
      r
  }

  /** The delete visitor's state: the schedule and the impacts collected
      for replay (`disruptions_collection`). */
  datatype Deletion = Deletion(s: PtData, collected: seq<Collected>)

  /** What deleting an impact leaves alone, and the collection staying in
      `comp` order. */
  predicate DelFrame(d: Deletion, r: Deletion) {
    Frame(d.s, r.s) && (Ordered(d.collected) ==> Ordered(r.collected))
  }

  /** The journeys of a meta trip put back to the theoretical schedule: each
      base journey runs again at every level on its base days, and each
      derived journey runs on no day at any level. */
  function Reset(vjs: map<VjId, VehicleJourney>, ls: VjLists): (r: map<VjId, VehicleJourney>)
    ensures r.Keys == vjs.Keys
    ensures forall v :: v in vjs && v in ls.base && v !in ls.adapted && v !in ls.realtime ==>
              && r[v].baseVp == vjs[v].baseVp
              && r[v].adaptedVp == vjs[v].baseVp && r[v].realtimeVp == vjs[v].baseVp
    ensures forall v :: v in vjs && (v in ls.adapted || v in ls.realtime) ==>
              r[v].baseVp == {} && r[v].adaptedVp == {} && r[v].realtimeVp == {}
    ensures forall v :: v in vjs ==>
              r[v].(baseVp := vjs[v].baseVp, adaptedVp := vjs[v].adaptedVp, realtimeVp := vjs[v].realtimeVp) == vjs[v]
    ensures forall v :: v in vjs && v !in ls.base && v !in ls.adapted && v !in ls.realtime ==> r[v] == vjs[v]
  {
    map v | v in vjs ::
      if v in ls.adapted || v in ls.realtime then vjs[v].(baseVp := {}, adaptedVp := {}, realtimeVp := {})
      else if v in ls.base then vjs[v].(adaptedVp := vjs[v].baseVp, realtimeVp := vjs[v].baseVp)
      else vjs[v]
  }

  /** The meta trip after the delete visitor's changes and before clean-up:
      its journeys reset, the impact removed from the impacts informing it
      and `modified_by` emptied. */
  function Cleared(t: Trips, mvjUri: string, id: ImpactId): (r: Trips)
    requires mvjUri in t.mvjs
    ensures r.vjs == Reset(t.vjs, ListsOf(t.mvjs[mvjUri]))
    ensures r.mvjs.Keys == t.mvjs.Keys
    ensures forall k :: k in t.mvjs && k != mvjUri ==> r.mvjs[k] == t.mvjs[k]
    ensures ListsOf(r.mvjs[mvjUri]) == ListsOf(t.mvjs[mvjUri])
    ensures r.mvjs[mvjUri].modifiedBy == []
    ensures forall i :: i in r.mvjs[mvjUri].impacts <==> i in t.mvjs[mvjUri].impacts && i != id
    ensures r.vjOrder == t.vjOrder && r.mvjOrder == t.mvjOrder && r.routeVjs == t.routeVjs
  {
    var m := t.mvjs[mvjUri];
    t.(vjs := Reset(t.vjs, ListsOf(m)), mvjs := t.mvjs[mvjUri := m.(impacts := RemoveAll(m.impacts, id), modifiedBy := [])])
  }

  /** The meta-trip case of the delete visitor: forget the impact, reset the
      journeys, collect the other live impacts that were modifying the trip
      for replay, empty `modified_by` and clean up. */
  function DeleteMvj(d: Deletion, v: Visitor, mvjUri: string): (r: Deletion)
    ensures DelFrame(d, r)
    ensures mvjUri !in d.s.trips.mvjs ==> r == d
    ensures mvjUri in d.s.trips.mvjs ==>
              var m := d.s.trips.mvjs[mvjUri];
              && (forall z :: z in d.collected ==> z in r.collected)
              && (forall z :: z in r.collected ==>
                    z in d.collected || (z.id in m.modifiedBy && z.id != v.id && z.id in d.s.impacts))
              && (forall i :: i in m.modifiedBy && i != v.id && i in d.s.impacts ==>
                    exists z :: z in r.collected && SameKey(z, KeyOf(i, d.s.impacts[i])))
              && r.s == d.s.(trips := v.c.cleanUp(Cleared(d.s.trips, mvjUri, v.id), mvjUri))
  {
    if mvjUri !in d.s.trips.mvjs then d
    else
      var s := d.s;
      var m := s.trips.mvjs[mvjUri];
      var others := Keep(RemoveAll(m.modifiedBy, v.id), s.impacts.Keys);
      Deletion(s.(trips := v.c.cleanUp(Cleared(s.trips, mvjUri, v.id), mvjUri)),
               Collect(d.collected, s.impacts, others))
  }

  /** `remove_impact` on an informed object other than a meta trip. */
  function Unlink(d: Deletion, obj: PtObj, id: ImpactId): (r: Deletion)
    ensures DelFrame(d, r) && r.collected == d.collected && r.s.trips == d.s.trips
    ensures r.s.objectImpacts.Keys == d.s.objectImpacts.Keys
    ensures obj in d.s.objectImpacts ==>
              forall i :: i in r.s.objectImpacts[obj] <==> i in d.s.objectImpacts[obj] && i != id
    ensures forall o :: o in d.s.objectImpacts && o != obj ==> r.s.objectImpacts[o] == d.s.objectImpacts[o]
  {
    if obj !in d.s.objectImpacts then d
    else d.(s := d.s.(objectImpacts := d.s.objectImpacts[obj := RemoveAll(d.s.objectImpacts[obj], id)]))
  }

  /** Some live impact modifying the meta trip has the uri. */
  predicate ModifiedByUri(s: PtData, m: MetaVJ, uri: string) {
    exists i :: i in m.modifiedBy && i in s.impacts && s.impacts[i].uri == uri
  }

  /** The stop-point and line-section cases of the delete visitor: every meta
      trip that a live impact with the same uri is modifying, in `meta_vjs`
      order. */
  function DeleteMatching(d: Deletion, v: Visitor, ms: seq<string>): (r: Deletion)
    ensures DelFrame(d, r)
    decreases |ms|
  {
    if |ms| == 0 then d
    else
      var next := if ms[0] in d.s.trips.mvjs && ModifiedByUri(d.s, d.s.trips.mvjs[ms[0]], v.impact.uri)
                  then DeleteMvj(d, v, ms[0]) else d;
      DeleteMatching(next, v, ms[1..])
  }

  function DeleteStopPoint(d: Deletion, v: Visitor, sp: string): (r: Deletion)
    ensures DelFrame(d, r)
  {
    var d1 := Unlink(d, StopPointObj(sp), v.id);
    DeleteMatching(d1, v, d1.s.trips.mvjOrder)
  }

  function DeleteStopPoints(d: Deletion, v: Visitor, sps: seq<string>): (r: Deletion)
    ensures DelFrame(d, r)
    decreases |sps|
  {
    if |sps| == 0 then d
    else DeleteStopPoints(DeleteStopPoint(d, v, sps[0]), v, sps[1..])
  }

  function DeleteMvjs(d: Deletion, v: Visitor, ms: seq<string>): (r: Deletion)
    ensures DelFrame(d, r)
    decreases |ms|
  {
    if |ms| == 0 then d
    else DeleteMvjs(DeleteMvj(d, v, ms[0]), v, ms[1..])
  }

  /** The shared route walk, reached from a network or a line: it does not
      unlink the impact from the routes. */
  function DeleteRoutes(d: Deletion, v: Visitor, routes: seq<string>): (r: Deletion)
    ensures DelFrame(d, r)
    decreases |routes|
  {
    if |routes| == 0 then d
    else DeleteRoutes(DeleteMvjs(d, v, MvjsOfRoute(d.s.trips, routes[0])), v, routes[1..])
  }

  /** The shared line walk, reached from a network: it does not unlink the
      impact from the lines. */
  function DeleteLines(d: Deletion, v: Visitor, lines: seq<string>): (r: Deletion)
    ensures DelFrame(d, r)
    decreases |lines|
  {
    if |lines| == 0 then d
    else DeleteLines(DeleteRoutes(d, v, Lookup(d.s.topo.lineRoutes, lines[0])), v, lines[1..])
  }

  /** `delete_impacts_visitor` on one informed entity. */
  function DeleteEntity(d: Deletion, v: Visitor, e: PtObj): (r: Deletion)
    ensures DelFrame(d, r)
  {
    match e
    case UnknownPtObj => d
    case NetworkObj(n) => DeleteLines(Unlink(d, e, v.id), v, Lookup(d.s.topo.networkLines, n))
    case LineObj(l) => DeleteRoutes(Unlink(d, e, v.id), v, Lookup(d.s.topo.lineRoutes, l))
    case RouteObj(rt) =>
      var d1 := Unlink(d, e, v.id);
      DeleteMvjs(d1, v, MvjsOfRoute(d1.s.trips, rt))
    case MetaVjObj(m) => DeleteMvj(d, v, m)
    case StopAreaObj(a) => DeleteStopPoints(Unlink(d, e, v.id), v, Lookup(d.s.topo.stopAreaPoints, a))
    case StopPointObj(p) => DeleteStopPoint(d, v, p)
    case LineSectionObj(_) => DeleteMatching(d, v, d.s.trips.mvjOrder)
  }

  function DeleteEntities(d: Deletion, v: Visitor, es: seq<PtObj>): (r: Deletion)
    ensures DelFrame(d, r)
    decreases |es|
  {
    if |es| == 0 then d
    else DeleteEntities(DeleteEntity(d, v, es[0]), v, es[1..])
  }

  /** The disruption an impact belongs to: the one being deleted, which is no
      longer in the registry but still alive, or a registered one. */
  function OwnerOf(s: PtData, deleting: Disruption, uri: string): (r: Option<Disruption>)
    ensures uri == deleting.uri ==> r == Some(deleting)
    ensures uri != deleting.uri ==> (r.Some? <==> uri in s.holder.disruptions)
  {
    if uri == deleting.uri then Some(deleting)
    else if uri in s.holder.disruptions then Some(s.holder.disruptions[uri])
    else None
  }

  /** The visitor's destructor: apply again, in collection order, the whole
      disruption of each collected impact. With `replayOwn` false, impacts
      of the disruption being deleted are not replayed. */
  function Replay(s: PtData, c: Collaborators, meta: Meta, deleting: Disruption,
                  coll: seq<Collected>, replayOwn: bool): (r: PtData)
    ensures AddFrame(s, r)
    ensures |coll| == 0 ==> r == s
    decreases |coll|
  {
    if |coll| == 0 then s
    else
      var i := coll[0].id;
      var owner := if i in s.impacts then OwnerOf(s, deleting, s.impacts[i].disruption) else None;
      var next := if owner.Some? && (replayOwn || owner.value.uri != deleting.uri)
                  then ApplyDisruption(s, c, meta, owner.value) else s;
      Replay(next, c, meta, deleting, coll[1..], replayOwn)
  }

  /** `delete_impact`: an impact with a non-modifying effect changes nothing;
      otherwise every informed entity is visited, then the collected impacts
      are replayed. */
  function DeleteImpact(s: PtData, c: Collaborators, meta: Meta, deleting: Disruption,
                        id: ImpactId, replayOwn: bool): (r: PtData)
    ensures Frame(s, r)
    ensures id !in s.impacts || !IsModifyingEffect(s.impacts[id].effect) ==> r == s
  {
    if id !in s.impacts then s
    else
      var imp := s.impacts[id];
      if !IsModifyingEffect(imp.effect) then s
      else
        var d := DeleteEntities(Deletion(s, []), Visitor(c, meta, imp, id, deleting.rtLevel), imp.entities);
        Replay(d.s, c, meta, deleting, d.collected, replayOwn)
  }

  function DeleteImpacts(s: PtData, c: Collaborators, meta: Meta, deleting: Disruption,
                         ids: seq<ImpactId>, replayOwn: bool): (r: PtData)
    ensures Frame(s, r)
    decreases |ids|
  {
    if |ids| == 0 then s
    else DeleteImpacts(DeleteImpact(s, c, meta, deleting, ids[0], replayOwn), c, meta, deleting, ids[1..], replayOwn)
  }

  /** The impacts of a destroyed disruption cease to exist. */
  function Release(s: PtData, ids: seq<ImpactId>): (r: PtData)
    ensures r.impacts.Keys == s.impacts.Keys - set i | i in ids
    ensures forall i :: i in r.impacts ==> r.impacts[i] == s.impacts[i]
    ensures r == s.(impacts := r.impacts)
  {
    s.(impacts := map i | i in s.impacts && i !in ids :: s.impacts[i])
  }

  /** `delete_disruption`, with the replay switch: take the disruption out of
      the registry, delete each of its impacts, let the disruption and its
      impacts die, and forget the references to dead impacts. */
  function DeleteDisruptionWith(s: PtData, c: Collaborators, meta: Meta, uri: string, replayOwn: bool): (r: PtData)
    ensures r.topo == s.topo
    ensures r.holder.disruptions.Keys == s.holder.disruptions.Keys - {uri}
    ensures forall k :: k in r.holder.disruptions ==> r.holder.disruptions[k] == s.holder.disruptions[k]
    ensures forall i :: i in r.holder.weakImpacts <==> i in s.holder.weakImpacts && i in r.impacts
    ensures uri in s.holder.disruptions ==>
              r.impacts.Keys == s.impacts.Keys - set i | i in s.holder.disruptions[uri].impacts
    ensures uri !in s.holder.disruptions ==> r == s.(holder := CleanWeakImpacts(s.holder, s.impacts.Keys))
  {
    var popped := PopDisruption(s.holder, uri);
    var s1 := s.(holder := popped.1);
    var s2 := if popped.0.Some?
              then Release(DeleteImpacts(s1, c, meta, popped.0.value, popped.0.value.impacts, replayOwn),
                           popped.0.value.impacts)
              else s1;
    s2.(holder := CleanWeakImpacts(s2.holder, s2.impacts.Keys))
  }

  /** `delete_disruption` as written: the replay after each impact includes
      the disruption being deleted whenever another of its impacts still
      modifies the same meta trip. */
  function DeleteDisruptionAsWritten(s: PtData, c: Collaborators, meta: Meta, uri: string): (r: PtData)
    ensures r.holder.disruptions.Keys == s.holder.disruptions.Keys - {uri}
    ensures uri !in s.holder.disruptions ==> r == s.(holder := CleanWeakImpacts(s.holder, s.impacts.Keys))
  {
    DeleteDisruptionWith(s, c, meta, uri, true)
  }

  /** `delete_disruption`, replaying only the other disruptions. */
  function DeleteDisruption(s: PtData, c: Collaborators, meta: Meta, uri: string): (r: PtData)
    ensures r.holder.disruptions.Keys == s.holder.disruptions.Keys - {uri}
    ensures forall k :: k in r.holder.disruptions ==> r.holder.disruptions[k] == s.holder.disruptions[k]
    ensures forall i :: i in r.holder.weakImpacts ==> i in r.impacts
    ensures uri in s.holder.disruptions ==>
              forall i :: i in s.holder.disruptions[uri].impacts ==> i !in r.impacts
    ensures uri !in s.holder.disruptions ==> r == s.(holder := CleanWeakImpacts(s.holder, s.impacts.Keys))
    ensures uri !in s.holder.disruptions && (forall i :: i in s.holder.weakImpacts ==> i in s.impacts) ==> r == s
  {
    DeleteDisruptionWith(s, c, meta, uri, false)
  }
}
