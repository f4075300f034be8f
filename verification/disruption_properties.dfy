/** Properties of applying and deleting disruptions
    (source/kraken/apply_disruption.cpp) that relate several calls. The
    helpers whose bodies are not part of the model are constrained here by
    named hypotheses, each the behaviour the engine's tests rely on. */
module DisruptionProperties {
  import opened Wrappers
  import opened ValidityPattern
  import opened Schedule
  import opened Message
  import opened EngineState
  import opened Engine = ApplyDisruption

  // ---- hypotheses on the helpers ---------------------------------------

  /** `cancel_vj` changes nothing but the Adapted and RealTime days of the
      journeys the meta trip lists. */
  ghost predicate CancelConfined(c: Collaborators) {
    forall vjs, ls, l, ps, rt ::
      PatternsOnly(vjs, c.cancelVj(vjs, ls, l, ps, rt), ls)
  }

  /** Cancelling the same periods twice is cancelling them once. */
  ghost predicate CancelIdempotent(c: Collaborators) {
    forall vjs, ls, l, ps, rt ::
      c.cancelVj(c.cancelVj(vjs, ls, l, ps, rt), ls, l, ps, rt) == c.cancelVj(vjs, ls, l, ps, rt)
  }

  /** `clean_up_useless_vjs` only removes derived journeys, so a meta trip
      without any is left as it is. */
  ghost predicate CleanUpQuiet(c: Collaborators) {
    forall t: Trips, m: string :: m in t.mvjs && t.mvjs[m].adaptedVjs == [] && t.mvjs[m].rtVjs == [] ==> c.cleanUp(t, m) == t
  }

  /** `x` differs from `vjs` at most in the Adapted and RealTime days of the
      journeys `ls` lists. */
  ghost predicate PatternsOnly(vjs: map<VjId, VehicleJourney>, x: map<VjId, VehicleJourney>, ls: VjLists) {
    && x.Keys == vjs.Keys
    && (forall v :: v in vjs && v !in ls.base && v !in ls.adapted && v !in ls.realtime ==> x[v] == vjs[v])
    && (forall v :: v in vjs ==> x[v].(adaptedVp := vjs[v].adaptedVp, realtimeVp := vjs[v].realtimeVp) == vjs[v])
  }

  /** A meta trip with no derived journey, whose base journeys run at every
      level on their base days. */
  ghost predicate Clean(vjs: map<VjId, VehicleJourney>, ls: VjLists) {
    && ls.adapted == [] && ls.realtime == []
    && forall v :: v in vjs && v in ls.base ==> vjs[v].adaptedVp == vjs[v].baseVp && vjs[v].realtimeVp == vjs[v].baseVp
  }

  /** The impact cancels one meta trip. */
  ghost predicate CancelsMetaVj(s: PtData, id: ImpactId, m: string) {
    && id in s.impacts
    && s.impacts[id].effect == NoService
    && s.impacts[id].entities == [MetaVjObj(m)]
    && m in s.trips.mvjs
  }

  // ---- patterns ---------------------------------------------------------

  lemma PatternsOnlyTransitive(a: map<VjId, VehicleJourney>, b: map<VjId, VehicleJourney>,
                               x: map<VjId, VehicleJourney>, ls: VjLists)
    requires PatternsOnly(a, b, ls) && PatternsOnly(b, x, ls)
    ensures PatternsOnly(a, x, ls)
  {
    forall v | v in a
      ensures x[v].(adaptedVp := a[v].adaptedVp, realtimeVp := a[v].realtimeVp) == a[v]
    {
      assert x[v].(adaptedVp := b[v].adaptedVp, realtimeVp := b[v].realtimeVp) == b[v];
      assert b[v].(adaptedVp := a[v].adaptedVp, realtimeVp := a[v].realtimeVp) == a[v];
    }
  }

  /** Deletion's reset undoes any cancellation of a clean meta trip. */
  lemma ResetRestores(vjs: map<VjId, VehicleJourney>, x: map<VjId, VehicleJourney>, ls: VjLists)
    requires Clean(vjs, ls) && PatternsOnly(vjs, x, ls)
    ensures Reset(x, ls) == vjs
  {
    var r := Reset(x, ls);
    forall v | v in vjs ensures r[v] == vjs[v] {
      if v in ls.base {
        assert x[v].(adaptedVp := vjs[v].adaptedVp, realtimeVp := vjs[v].realtimeVp) == vjs[v];
      }
    }
  }

  // ---- one impact on one meta trip ---------------------------------------

  /** Applying an impact that cancels one meta trip: the journeys are
      cancelled and the impact is recorded in `modified_by`; nothing else
      changes. */
  lemma {:induction false} ApplyCancelsMetaVj(s: PtData, c: Collaborators, meta: Meta, level: RTLevel,
                                              id: ImpactId, m: string)
    requires CancelsMetaVj(s, id, m)
    ensures var mv := s.trips.mvjs[m];
      ApplyImpact(s, c, meta, level, id) ==
        s.(trips := s.trips.(vjs := c.cancelVj(s.trips.vjs, ListsOf(mv), level, s.impacts[id].periods, None),
                             mvjs := s.trips.mvjs[m := mv.(modifiedBy := PushUnique(mv.modifiedBy, id))]))
  {
    var imp := s.impacts[id];
    var v := Visitor(c, meta, imp, id, level);
    assert imp.entities[1..] == [];
    assert AddEntities(s, v, imp.entities) == AddEntities(AddEntity(s, v, imp.entities[0]), v, []);
  }

  /** Deleting an impact that cancels one meta trip: the trip is cleared, its
      other live impacts are collected, and those are replayed. */
  lemma {:induction false} DeleteCancelsMetaVj(s: PtData, c: Collaborators, meta: Meta, deleting: Disruption,
                                               id: ImpactId, m: string, replayOwn: bool)
    requires CancelsMetaVj(s, id, m)
    ensures var mv := s.trips.mvjs[m];
      DeleteImpact(s, c, meta, deleting, id, replayOwn) ==
        Replay(s.(trips := c.cleanUp(Cleared(s.trips, m, id), m)), c, meta, deleting,
               Collect([], s.impacts, Keep(RemoveAll(mv.modifiedBy, id), s.impacts.Keys)), replayOwn)
  {
    var imp := s.impacts[id];
    var v := Visitor(c, meta, imp, id, deleting.rtLevel);
    assert imp.entities[1..] == [];
    DeleteOneMetaVj(Deletion(s, []), v, m);
  }

  /** The delete visitor on a single meta trip is the meta-trip case. */
  lemma DeleteOneMetaVj(d: Deletion, v: Visitor, m: string)
    ensures DeleteEntities(d, v, [MetaVjObj(m)]) == DeleteMvj(d, v, m)
  {
    assert [MetaVjObj(m)][1..] == [];
  }

  /** Applying a disruption made of a single impact is applying the impact. */
  lemma ApplySingle(s: PtData, c: Collaborators, meta: Meta, d: Disruption)
    requires |d.impacts| == 1
    ensures ApplyDisruption(s, c, meta, d) == ApplyImpact(s, c, meta, d.rtLevel, d.impacts[0])
  {
    assert d.impacts[1..] == [];
  }

  /** Applying a disruption made of two impacts applies them in order. */
  lemma ApplyPair(s: PtData, c: Collaborators, meta: Meta, d: Disruption)
    requires |d.impacts| == 2
    ensures ApplyDisruption(s, c, meta, d) ==
              ApplyImpact(ApplyImpact(s, c, meta, d.rtLevel, d.impacts[0]), c, meta, d.rtLevel, d.impacts[1])
  {
    var s1 := ApplyImpact(s, c, meta, d.rtLevel, d.impacts[0]);
    var rest := d.impacts[1..];
    assert rest[0] == d.impacts[1] && rest[1..] == [];
    assert ApplyImpacts(s1, c, meta, d.rtLevel, rest)
           == ApplyImpacts(ApplyImpact(s1, c, meta, d.rtLevel, rest[0]), c, meta, d.rtLevel, []);
  }

  // ---- idempotence ------------------------------------------------------

  /** Applying a disruption that cancels one meta trip a second time changes
      nothing: the cancellation is already in place and the impact is
      already recorded. */
  lemma {:induction false} ApplyTwiceIsApplyOnce(s: PtData, c: Collaborators, meta: Meta, d: Disruption, m: string)
    requires CancelIdempotent(c)
    requires |d.impacts| == 1 && CancelsMetaVj(s, d.impacts[0], m)
    ensures var once := ApplyDisruption(s, c, meta, d);
      ApplyDisruption(once, c, meta, d) == once
  {
    var id := d.impacts[0];
    var once := ApplyDisruption(s, c, meta, d);
    ApplySingle(s, c, meta, d);
    ApplyCancelsMetaVj(s, c, meta, d.rtLevel, id, m);
    ApplySingle(once, c, meta, d);
    ApplyCancelsMetaVj(once, c, meta, d.rtLevel, id, m);
    var mv := s.trips.mvjs[m];
    assert ListsOf(once.trips.mvjs[m]) == ListsOf(mv);
    assert once.trips.mvjs[m := once.trips.mvjs[m].(modifiedBy := PushUnique(once.trips.mvjs[m].modifiedBy, id))]
           == once.trips.mvjs;
  }

  // ---- apply then delete ------------------------------------------------

  /** After applying a disruption whose one impact cancels a clean meta trip
      and then deleting it, every journey is back as it was and the trip is
      no longer modified. This holds with and without the replay of the
      disruption being deleted, since nothing else modifies the trip. */
  lemma {:induction false} ApplyThenDeleteRestores(s0: PtData, c: Collaborators, meta: Meta, uri: string,
                                                   m: string, replayOwn: bool)
    requires CancelConfined(c) && CleanUpQuiet(c)
    requires uri in s0.holder.disruptions
    requires var d := s0.holder.disruptions[uri];
      |d.impacts| == 1 && CancelsMetaVj(s0, d.impacts[0], m)
    requires s0.trips.mvjs[m].modifiedBy == []
    requires Clean(s0.trips.vjs, ListsOf(s0.trips.mvjs[m]))
    ensures var s2 := DeleteDisruptionWith(ApplyDisruption(s0, c, meta, s0.holder.disruptions[uri]), c, meta, uri, replayOwn);
      && s2.trips.vjs == s0.trips.vjs
      && s2.trips.mvjs.Keys == s0.trips.mvjs.Keys
      && s2.trips.mvjs[m].modifiedBy == []
      && ListsOf(s2.trips.mvjs[m]) == ListsOf(s0.trips.mvjs[m])
  {
    var d := s0.holder.disruptions[uri];
    var id := d.impacts[0];
    var ls := ListsOf(s0.trips.mvjs[m]);
    ApplyOneCancel(s0, c, meta, d, m);
    var s1 := ApplyDisruption(s0, c, meta, d);
    DeleteDisruptionTrips(s1, c, meta, uri, replayOwn);
    var s1' := s1.(holder := PopDisruption(s1.holder, uri).1);
    DeleteOnlyImpact(s1', c, meta, d, m, replayOwn);
    ResetRestores(s0.trips.vjs, s1.trips.vjs, ls);
  }

  /** Applying a disruption whose one impact cancels a meta trip nothing
      modifies yet: only the journeys' patterns and the trip's record change. */
  lemma ApplyOneCancel(s0: PtData, c: Collaborators, meta: Meta, d: Disruption, m: string)
    requires CancelConfined(c)
    requires |d.impacts| == 1 && CancelsMetaVj(s0, d.impacts[0], m)
    requires s0.trips.mvjs[m].modifiedBy == []
    ensures var s1 := ApplyDisruption(s0, c, meta, d);
      && s1 == s0.(trips := s0.trips.(vjs := s1.trips.vjs,
                                      mvjs := s0.trips.mvjs[m := s0.trips.mvjs[m].(modifiedBy := d.impacts)]))
      && PatternsOnly(s0.trips.vjs, s1.trips.vjs, ListsOf(s0.trips.mvjs[m]))
  {
    ApplySingle(s0, c, meta, d);
    ApplyCancelsMetaVj(s0, c, meta, d.rtLevel, d.impacts[0], m);
    assert PushUnique([], d.impacts[0]) == d.impacts;
  }

  /** Deleting the one impact of a disruption that alone modifies a meta
      trip clears the trip and replays nothing. */
  lemma DeleteOnlyImpact(s: PtData, c: Collaborators, meta: Meta, d: Disruption, m: string, replayOwn: bool)
    requires CleanUpQuiet(c)
    requires |d.impacts| == 1 && CancelsMetaVj(s, d.impacts[0], m)
    requires s.trips.mvjs[m].modifiedBy == d.impacts
    requires s.trips.mvjs[m].adaptedVjs == [] && s.trips.mvjs[m].rtVjs == []
    ensures DeleteImpacts(s, c, meta, d, d.impacts, replayOwn).trips == Cleared(s.trips, m, d.impacts[0])
  {
    var id := d.impacts[0];
    assert d.impacts[1..] == [];
    assert DeleteImpacts(s, c, meta, d, d.impacts, replayOwn) == DeleteImpact(s, c, meta, d, id, replayOwn);
    DeleteCancelsMetaVj(s, c, meta, d, id, m, replayOwn);
    QuietAfterClear(c, s.trips, m, id);
    assert RemoveAll([id], id) == [];
  }

  // ---- two impacts of one disruption on the same meta trip ------------

  /** The state after applying a disruption of two impacts that cancel the
      same clean meta trip. */
  lemma {:induction false} ApplyTwoCancels(s0: PtData, c: Collaborators, meta: Meta, d: Disruption, m: string)
    requires CancelConfined(c)
    requires |d.impacts| == 2 && d.impacts[0] != d.impacts[1]
    requires CancelsMetaVj(s0, d.impacts[0], m) && CancelsMetaVj(s0, d.impacts[1], m)
    requires s0.trips.mvjs[m].modifiedBy == []
    ensures var s1 := ApplyDisruption(s0, c, meta, d);
      && s1 == s0.(trips := s1.trips)
      && s1.trips == s0.trips.(vjs := s1.trips.vjs, mvjs := s1.trips.mvjs)
      && s1.trips.mvjs == s0.trips.mvjs[m := s0.trips.mvjs[m].(modifiedBy := d.impacts)]
      && s1.trips.vjs == Cancel2(c, s0.trips.vjs, ListsOf(s0.trips.mvjs[m]), d.rtLevel,
                                 s0.impacts[d.impacts[0]].periods, s0.impacts[d.impacts[1]].periods)
      && PatternsOnly(s0.trips.vjs, s1.trips.vjs, ListsOf(s0.trips.mvjs[m]))
  {
    var i1 := d.impacts[0];
    var i2 := d.impacts[1];
    ApplyPair(s0, c, meta, d);
    CancelStep(s0, c, meta, d.rtLevel, i1, m);
    var sa := ApplyImpact(s0, c, meta, d.rtLevel, i1);
    CancelStep(sa, c, meta, d.rtLevel, i2, m);
    PatternsOnlyTransitive(s0.trips.vjs, sa.trips.vjs, ApplyImpact(sa, c, meta, d.rtLevel, i2).trips.vjs,
                           ListsOf(s0.trips.mvjs[m]));
    PushSecond(d.impacts);
    var mv := s0.trips.mvjs[m];
    RecordTwice(s0.trips.mvjs, m, mv.(modifiedBy := [i1]), mv.(modifiedBy := d.impacts));
  }

  /** Recording the second of two distinct impacts after the first. */
  lemma PushSecond(ids: seq<ImpactId>)
    requires |ids| == 2 && ids[0] != ids[1]
    ensures PushUnique(PushUnique([], ids[0]), ids[1]) == ids
  {
    assert [ids[0]] + [ids[1]] == ids;
  }

  /** Updating the same meta trip twice keeps the second value. */
  lemma RecordTwice(mvjs: map<string, MetaVJ>, m: string, a: MetaVJ, b: MetaVJ)
    ensures mvjs[m := a][m := b] == mvjs[m := b]
  {
  }

  /** One impact cancelling a meta trip: its journeys' patterns are
      cancelled, the impact is recorded on the trip, nothing else changes. */
  lemma CancelStep(s: PtData, c: Collaborators, meta: Meta, level: RTLevel, id: ImpactId, m: string)
    requires CancelConfined(c) && CancelsMetaVj(s, id, m)
    ensures var r := ApplyImpact(s, c, meta, level, id);
      var mv := s.trips.mvjs[m];
      && r == s.(trips := s.trips.(vjs := r.trips.vjs, mvjs := s.trips.mvjs[m := mv.(modifiedBy := PushUnique(mv.modifiedBy, id))]))
      && r.trips.vjs == c.cancelVj(s.trips.vjs, ListsOf(mv), level, s.impacts[id].periods, None)
      && PatternsOnly(s.trips.vjs, r.trips.vjs, ListsOf(mv))
  {
    ApplyCancelsMetaVj(s, c, meta, level, id, m);
  }

  /** Cancelling the periods of two impacts in turn. */
  ghost function Cancel2(c: Collaborators, vjs: map<VjId, VehicleJourney>, ls: VjLists, level: RTLevel,
                         p1: seq<Period>, p2: seq<Period>): map<VjId, VehicleJourney>
  {
    c.cancelVj(c.cancelVj(vjs, ls, level, p1, None), ls, level, p2, None)
  }

  lemma Cancel2Confined(c: Collaborators, vjs: map<VjId, VehicleJourney>, ls: VjLists, level: RTLevel,
                        p1: seq<Period>, p2: seq<Period>)
    requires CancelConfined(c)
    ensures PatternsOnly(vjs, Cancel2(c, vjs, ls, level, p1, p2), ls)
  {
    var x1 := c.cancelVj(vjs, ls, level, p1, None);
    PatternsOnlyTransitive(vjs, x1, c.cancelVj(x1, ls, level, p2, None), ls);
  }

  /** Deleting the impacts of a disruption two at a time. */
  lemma DeleteImpactsPair(s: PtData, c: Collaborators, meta: Meta, deleting: Disruption,
                          ids: seq<ImpactId>, replayOwn: bool)
    requires |ids| == 2
    ensures DeleteImpacts(s, c, meta, deleting, ids, replayOwn) ==
              DeleteImpact(DeleteImpact(s, c, meta, deleting, ids[0], replayOwn), c, meta, deleting, ids[1], replayOwn)
  {
    var s1 := DeleteImpact(s, c, meta, deleting, ids[0], replayOwn);
    var rest := ids[1..];
    assert rest[0] == ids[1] && rest[1..] == [];
    assert DeleteImpacts(s1, c, meta, deleting, rest, replayOwn)
           == DeleteImpacts(DeleteImpact(s1, c, meta, deleting, rest[0], replayOwn), c, meta, deleting, [], replayOwn);
  }

  /** A disruption `d` registered under its own uri whose two distinct
      impacts both cancel the meta trip `m`. */
  ghost predicate TwoCancels(s: PtData, d: Disruption, m: string) {
    && |d.impacts| == 2 && d.impacts[0] != d.impacts[1]
    && CancelsMetaVj(s, d.impacts[0], m) && CancelsMetaVj(s, d.impacts[1], m)
    && s.impacts[d.impacts[0]].disruption == d.uri && s.impacts[d.impacts[1]].disruption == d.uri
  }

  /** The other impact of a two-impact disruption. */
  function Other(d: Disruption, k: nat): ImpactId
    requires |d.impacts| == 2 && k < 2
  {
    d.impacts[1 - k]
  }

  /** Deleting one of the two impacts while both are recorded on the meta
      trip: the journeys are reset, the other impact is the only one
      collected, and it belongs to the disruption being deleted. */
  lemma DeleteOneOfTwo(s: PtData, c: Collaborators, meta: Meta, d: Disruption, m: string,
                       k: nat, replayOwn: bool, base: map<VjId, VehicleJourney>)
    requires CleanUpQuiet(c)
    requires TwoCancels(s, d, m) && k < 2
    requires s.trips.mvjs[m].modifiedBy == d.impacts
    requires Clean(base, ListsOf(s.trips.mvjs[m])) && PatternsOnly(base, s.trips.vjs, ListsOf(s.trips.mvjs[m]))
    ensures var sa := s.(trips := Cleared(s.trips, m, d.impacts[k]));
      && sa.trips.vjs == base
      && DeleteImpact(s, c, meta, d, d.impacts[k], replayOwn) ==
           (if replayOwn then ApplyDisruption(sa, c, meta, d) else sa)
  {
    ResetRestores(base, s.trips.vjs, ListsOf(s.trips.mvjs[m]));
    DeleteOneOfTwoReplays(s, c, meta, d, m, k, replayOwn);
  }

  /** Deleting one of the two impacts: the trip is cleared and the other
      impact, the only one collected, replays its own disruption. */
  lemma DeleteOneOfTwoReplays(s: PtData, c: Collaborators, meta: Meta, d: Disruption, m: string,
                              k: nat, replayOwn: bool)
    requires CleanUpQuiet(c)
    requires TwoCancels(s, d, m) && k < 2
    requires s.trips.mvjs[m].modifiedBy == d.impacts
    requires s.trips.mvjs[m].adaptedVjs == [] && s.trips.mvjs[m].rtVjs == []
    ensures var sa := s.(trips := Cleared(s.trips, m, d.impacts[k]));
      DeleteImpact(s, c, meta, d, d.impacts[k], replayOwn) ==
        (if replayOwn then ApplyDisruption(sa, c, meta, d) else sa)
  {
    var id := d.impacts[k];
    var j := Other(d, k);
    DeleteCancelsMetaVj(s, c, meta, d, id, m, replayOwn);
    var t := Cleared(s.trips, m, id);
    QuietAfterClear(c, s.trips, m, id);
    OtherCollected(s.impacts, d, k);
    ReplayOwnOne(s.(trips := t), c, meta, d, KeyOf(j, s.impacts[j]), replayOwn);
  }

  /** Clearing a meta trip with no adapted or real-time journeys leaves the
      cleanup nothing to do. */
  lemma QuietAfterClear(c: Collaborators, t: Trips, m: string, id: ImpactId)
    requires CleanUpQuiet(c) && m in t.mvjs
    requires t.mvjs[m].adaptedVjs == [] && t.mvjs[m].rtVjs == []
    ensures c.cleanUp(Cleared(t, m, id), m) == Cleared(t, m, id)
  {
    var r := Cleared(t, m, id);
    assert ListsOf(r.mvjs[m]) == ListsOf(t.mvjs[m]);
  }

  /** When one of two recorded impacts is deleted, the other, if live, is
      the only one collected. */
  lemma OtherCollected(impacts: map<ImpactId, Impact>, d: Disruption, k: nat)
    requires |d.impacts| == 2 && d.impacts[0] != d.impacts[1] && k < 2
    requires Other(d, k) in impacts
    ensures Collect([], impacts, Keep(RemoveAll(d.impacts, d.impacts[k]), impacts.Keys))
              == [KeyOf(Other(d, k), impacts[Other(d, k)])]
  {
    var j := Other(d, k);
    assert d.impacts == [d.impacts[0], d.impacts[1]];
    RemoveOfPair(d.impacts[0], d.impacts[1], d.impacts[k]);
    assert Keep([j], impacts.Keys) == [j];
    CollectOne(impacts, j);
  }

  /** Removing one of two distinct impacts leaves the other. */
  lemma RemoveOfPair(a: ImpactId, b: ImpactId, id: ImpactId)
    requires a != b && (id == a || id == b)
    ensures RemoveAll([a, b], id) == [if id == a then b else a]
  {
    var xs := [a, b];
    assert xs[1..] == [b] && [b][1..] == [];
  }

  /** Collecting one live impact into an empty collection. */
  lemma CollectOne(impacts: map<ImpactId, Impact>, j: ImpactId)
    requires j in impacts
    ensures Collect([], impacts, [j]) == [KeyOf(j, impacts[j])]
  {
    assert [j][1..] == [];
  }

  /** Replaying one collected impact of the disruption being deleted applies
      that disruption again exactly when its own impacts are replayed. */
  lemma ReplayOwnOne(s: PtData, c: Collaborators, meta: Meta, d: Disruption, z: Collected, replayOwn: bool)
    requires z.id in s.impacts && s.impacts[z.id].disruption == d.uri
    ensures Replay(s, c, meta, d, [z], replayOwn) == if replayOwn then ApplyDisruption(s, c, meta, d) else s
  {
    var next := if replayOwn then ApplyDisruption(s, c, meta, d) else s;
    assert [z][1..] == [];
    assert Replay(s, c, meta, d, [z], replayOwn) == Replay(next, c, meta, d, [], replayOwn);
  }

  /** Deleting a cancelling impact from a meta trip that nothing modifies
      any more leaves the schedule's journeys as they are. */
  lemma {:induction false} DeleteFromCleanTrip(s: PtData, c: Collaborators, meta: Meta, d: Disruption, id: ImpactId,
                                               m: string, replayOwn: bool)
    requires CleanUpQuiet(c)
    requires CancelsMetaVj(s, id, m)
    requires s.trips.mvjs[m].modifiedBy == []
    requires Clean(s.trips.vjs, ListsOf(s.trips.mvjs[m]))
    ensures var r := DeleteImpact(s, c, meta, d, id, replayOwn);
      && r.trips.vjs == s.trips.vjs
      && r.trips.mvjs.Keys == s.trips.mvjs.Keys
      && r.trips.mvjs[m].modifiedBy == []
      && ListsOf(r.trips.mvjs[m]) == ListsOf(s.trips.mvjs[m])
      && r.impacts == s.impacts
  {
    DeleteCancelsMetaVj(s, c, meta, d, id, m, replayOwn);
    var ls := ListsOf(s.trips.mvjs[m]);
    ResetRestores(s.trips.vjs, s.trips.vjs, ls);
    var t := Cleared(s.trips, m, id);
    assert c.cleanUp(t, m) == t;
    assert Keep(RemoveAll([], id), s.impacts.Keys) == [];
  }

  // ---- the finding: two impacts of one disruption on one meta trip -------

  /** The meta trip `m` carries both impacts of `d`, and its journeys are
      the clean journeys `base` with both impacts' periods cancelled. */
  ghost predicate CancelledByBoth(c: Collaborators, s: PtData, d: Disruption, m: string, base: map<VjId, VehicleJourney>) {
    && TwoCancels(s, d, m)
    && s.trips.mvjs[m].modifiedBy == d.impacts
    && Clean(base, ListsOf(s.trips.mvjs[m]))
    && s.trips.vjs == Cancel2(c, base, ListsOf(s.trips.mvjs[m]), d.rtLevel,
                              s.impacts[d.impacts[0]].periods, s.impacts[d.impacts[1]].periods)
  }

  /** The meta trip `m` carries no impact and its journeys are `base`. */
  ghost predicate Restored(s: PtData, d: Disruption, m: string, base: map<VjId, VehicleJourney>) {
    && TwoCancels(s, d, m)
    && s.trips.mvjs[m].modifiedBy == []
    && Clean(base, ListsOf(s.trips.mvjs[m]))
    && s.trips.vjs == base
  }

  /** Applying `d` to a restored trip cancels it by both impacts again. */
  lemma Reapply(s: PtData, c: Collaborators, meta: Meta, d: Disruption, m: string, base: map<VjId, VehicleJourney>)
    requires CancelConfined(c)
    requires Restored(s, d, m, base)
    ensures CancelledByBoth(c, ApplyDisruption(s, c, meta, d), d, m, base)
    ensures ApplyDisruption(s, c, meta, d).impacts == s.impacts
    ensures ListsOf(ApplyDisruption(s, c, meta, d).trips.mvjs[m]) == ListsOf(s.trips.mvjs[m])
  {
    ApplyTwoCancels(s, c, meta, d, m);
  }

  /** As written, deleting either impact of a trip cancelled by both leaves
      it cancelled by both. */
  lemma AsWrittenStep(s: PtData, c: Collaborators, meta: Meta, d: Disruption, m: string, k: nat,
                      base: map<VjId, VehicleJourney>)
    requires CancelConfined(c) && CleanUpQuiet(c) && k < 2
    requires CancelledByBoth(c, s, d, m, base)
    ensures var r := DeleteImpact(s, c, meta, d, d.impacts[k], true);
      && CancelledByBoth(c, r, d, m, base) && r.impacts == s.impacts
      && ListsOf(r.trips.mvjs[m]) == ListsOf(s.trips.mvjs[m])
  {
    var ls := ListsOf(s.trips.mvjs[m]);
    Cancel2Confined(c, base, ls, d.rtLevel, s.impacts[d.impacts[0]].periods, s.impacts[d.impacts[1]].periods);
    DeleteOneOfTwo(s, c, meta, d, m, k, true, base);
    var sa := s.(trips := Cleared(s.trips, m, d.impacts[k]));
    assert ListsOf(sa.trips.mvjs[m]) == ls;
    Reapply(sa, c, meta, d, m, base);
  }

  /** With the replay of the disruption being deleted left out, deleting
      one impact of a trip cancelled by both restores it. */
  lemma CorrectedFirstStep(s: PtData, c: Collaborators, meta: Meta, d: Disruption, m: string,
                           base: map<VjId, VehicleJourney>)
    requires CancelConfined(c) && CleanUpQuiet(c)
    requires CancelledByBoth(c, s, d, m, base)
    ensures var r := DeleteImpact(s, c, meta, d, d.impacts[0], false);
      Restored(r, d, m, base) && r.impacts == s.impacts
  {
    var ls := ListsOf(s.trips.mvjs[m]);
    Cancel2Confined(c, base, ls, d.rtLevel, s.impacts[d.impacts[0]].periods, s.impacts[d.impacts[1]].periods);
    DeleteOneOfTwo(s, c, meta, d, m, 0, false, base);
    var sa := s.(trips := Cleared(s.trips, m, d.impacts[0]));
    assert ListsOf(sa.trips.mvjs[m]) == ls;
  }

  /** Deleting the other impact of a restored trip keeps it restored. */
  lemma CorrectedSecondStep(s: PtData, c: Collaborators, meta: Meta, d: Disruption, m: string,
                            base: map<VjId, VehicleJourney>)
    requires CleanUpQuiet(c)
    requires Restored(s, d, m, base)
    ensures var r := DeleteImpact(s, c, meta, d, d.impacts[1], false);
      Restored(r, d, m, base) && r.impacts == s.impacts
  {
    DeleteFromCleanTrip(s, c, meta, d, d.impacts[1], m, false);
  }

  /** What `delete_disruption` does to the trips: delete each impact of the
      popped disruption in turn. */
  lemma DeleteDisruptionTrips(s: PtData, c: Collaborators, meta: Meta, uri: string, replayOwn: bool)
    requires uri in s.holder.disruptions
    ensures var d := s.holder.disruptions[uri];
      DeleteDisruptionWith(s, c, meta, uri, replayOwn).trips ==
        DeleteImpacts(s.(holder := PopDisruption(s.holder, uri).1), c, meta, d, d.impacts, replayOwn).trips
  {
  }

  /** As written, deleting a registered disruption whose two impacts
      cancel a trip leaves the trip cancelled by both. */
  lemma DeleteCancelledAsWritten(s: PtData, c: Collaborators, meta: Meta, uri: string, m: string,
                                 base: map<VjId, VehicleJourney>)
    requires CancelConfined(c) && CleanUpQuiet(c)
    requires uri in s.holder.disruptions
    requires CancelledByBoth(c, s, s.holder.disruptions[uri], m, base)
    ensures var r := DeleteDisruptionAsWritten(s, c, meta, uri);
      r.trips.vjs == s.trips.vjs && m in r.trips.mvjs && r.trips.mvjs[m].modifiedBy == s.trips.mvjs[m].modifiedBy
  {
    var d := s.holder.disruptions[uri];
    var s' := s.(holder := PopDisruption(s.holder, uri).1);
    assert CancelledByBoth(c, s', d, m, base);
    DeleteImpactsPair(s', c, meta, d, d.impacts, true);
    AsWrittenStep(s', c, meta, d, m, 0, base);
    var sa := DeleteImpact(s', c, meta, d, d.impacts[0], true);
    AsWrittenStep(sa, c, meta, d, m, 1, base);
    var sb := DeleteImpact(sa, c, meta, d, d.impacts[1], true);
    assert DeleteImpacts(s', c, meta, d, d.impacts, true) == sb;
    DeleteDisruptionTrips(s, c, meta, uri, true);
    assert DeleteDisruptionAsWritten(s, c, meta, uri).trips == sb.trips;
    assert sb.trips.vjs == s.trips.vjs;
  }

  /** Without the replay of its own disruption, deleting a registered
      disruption whose two impacts cancel a trip restores the trip. */
  lemma DeleteCancelledCorrected(s: PtData, c: Collaborators, meta: Meta, uri: string, m: string,
                                 base: map<VjId, VehicleJourney>)
    requires CancelConfined(c) && CleanUpQuiet(c)
    requires uri in s.holder.disruptions
    requires CancelledByBoth(c, s, s.holder.disruptions[uri], m, base)
    ensures var r := DeleteDisruption(s, c, meta, uri);
      r.trips.vjs == base && m in r.trips.mvjs && r.trips.mvjs[m].modifiedBy == []
  {
    var d := s.holder.disruptions[uri];
    var s' := s.(holder := PopDisruption(s.holder, uri).1);
    assert CancelledByBoth(c, s', d, m, base);
    DeleteImpactsPair(s', c, meta, d, d.impacts, false);
    CorrectedFirstStep(s', c, meta, d, m, base);
    var sa := DeleteImpact(s', c, meta, d, d.impacts[0], false);
    CorrectedSecondStep(sa, c, meta, d, m, base);
    var sb := DeleteImpact(sa, c, meta, d, d.impacts[1], false);
    assert DeleteImpacts(s', c, meta, d, d.impacts, false) == sb;
    DeleteDisruptionTrips(s, c, meta, uri, false);
    assert DeleteDisruption(s, c, meta, uri).trips == sb.trips;
  }

  /** As written, deleting a disruption whose two impacts cancel the same
      meta trip leaves the trip cancelled: deleting each impact collects the
      other one, whose disruption is the one being deleted, and replaying
      that disruption cancels the trip again. The trip also keeps recording
      both impacts, which no longer exist. */
  lemma {:induction false} DeleteTwoCancelsAsWritten(s0: PtData, c: Collaborators, meta: Meta, uri: string, m: string)
    requires CancelConfined(c) && CleanUpQuiet(c)
    requires uri in s0.holder.disruptions && s0.holder.disruptions[uri].uri == uri
    requires TwoCancels(s0, s0.holder.disruptions[uri], m)
    requires s0.trips.mvjs[m].modifiedBy == []
    requires Clean(s0.trips.vjs, ListsOf(s0.trips.mvjs[m]))
    ensures var d := s0.holder.disruptions[uri];
      var s1 := ApplyDisruption(s0, c, meta, d);
      var s2 := DeleteDisruptionAsWritten(s1, c, meta, uri);
      && s2.trips.vjs == s1.trips.vjs
      && m in s2.trips.mvjs && s2.trips.mvjs[m].modifiedBy == d.impacts
      && (forall i :: i in d.impacts ==> i !in s2.impacts)
  {
    var d := s0.holder.disruptions[uri];
    var s1 := ApplyDisruption(s0, c, meta, d);
    Reapply(s0, c, meta, d, m, s0.trips.vjs);
    assert s1.holder == s0.holder;
    DeleteCancelledAsWritten(s1, c, meta, uri, m, s0.trips.vjs);
  }

  /** With the replay of the disruption being deleted left out, deleting
      the same disruption puts every journey back as it was before the
      disruption was applied, and the meta trip is no longer modified. */
  lemma {:induction false} DeleteTwoCancelsRestores(s0: PtData, c: Collaborators, meta: Meta, uri: string, m: string)
    requires CancelConfined(c) && CleanUpQuiet(c)
    requires uri in s0.holder.disruptions && s0.holder.disruptions[uri].uri == uri
    requires TwoCancels(s0, s0.holder.disruptions[uri], m)
    requires s0.trips.mvjs[m].modifiedBy == []
    requires Clean(s0.trips.vjs, ListsOf(s0.trips.mvjs[m]))
    ensures var d := s0.holder.disruptions[uri];
      var s2 := DeleteDisruption(ApplyDisruption(s0, c, meta, d), c, meta, uri);
      && s2.trips.vjs == s0.trips.vjs
      && m in s2.trips.mvjs && s2.trips.mvjs[m].modifiedBy == []
      && (forall i :: i in d.impacts ==> i !in s2.impacts)
  {
    var d := s0.holder.disruptions[uri];
    var s1 := ApplyDisruption(s0, c, meta, d);
    Reapply(s0, c, meta, d, m, s0.trips.vjs);
    assert s1.holder == s0.holder;
    DeleteCancelledCorrected(s1, c, meta, uri, m, s0.trips.vjs);
  }

  // ---- line sections ------------------------------------------------------

  /** `b` has the journeys of `a`, each differing at most in its Adapted and
      RealTime days. */
  ghost predicate OnlyDaysChange(a: map<VjId, VehicleJourney>, b: map<VjId, VehicleJourney>) {
    && b.Keys == a.Keys
    && forall v :: v in a ==> b[v].(adaptedVp := a[v].adaptedVp, realtimeVp := a[v].realtimeVp) == a[v]
  }

  /** Every journey a line section hits stops only inside the section. */
  ghost predicate ClosesEveryStop(t: Trips, ivs: seq<ImpactedVJ>) {
    forall k, st :: 0 <= k < |ivs| && ivs[k].vj in t.vjs && st in t.vjs[ivs[k].vj].stopTimes ==>
      st.stopPoint in ivs[k].impactedStops
  }

  /** When a line section closes every stop of every journey it hits, no
      journey is derived: the hit journeys are cancelled in place, so the
      journeys and the meta trips stay the same and only days change. */
  lemma {:induction false} SectionCancelsInPlace(s: PtData, v: Visitor, ivs: seq<ImpactedVJ>)
    requires CancelConfined(v.c)
    requires ClosesEveryStop(s.trips, ivs)
    ensures var r := AddImpactedVjs(s, v, ivs);
      OnlyDaysChange(s.trips.vjs, r.trips.vjs) && r.trips.mvjs.Keys == s.trips.mvjs.Keys
    decreases |ivs|
  {
    if |ivs| > 0 {
      var s1 := AddImpactedVj(s, v, ivs[0]);
      var iv := ivs[0];
      if iv.vj in s.trips.vjs && s.trips.vjs[iv.vj].metaVj in s.trips.mvjs {
        var vj := s.trips.vjs[iv.vj];
        var sm := Mark(s, vj.metaVj, v.id);
        var m := sm.trips.mvjs[vj.metaVj];
        var p := SectionPlan(vj, iv, v.level, |m.VjsAt(v.level)|, v.impact.disruption);
        assert forall st :: st in vj.stopTimes ==> st.stopPoint in iv.impactedStops;
        assert |p.stopTimes| == 0;
        assert PatternsOnly(sm.trips.vjs, s1.trips.vjs, ListsOf(m));
      }
      assert OnlyDaysChange(s.trips.vjs, s1.trips.vjs);
      assert ClosesEveryStop(s1.trips, ivs[1..]) by {
        forall k, st | 0 <= k < |ivs[1..]| && ivs[1..][k].vj in s1.trips.vjs && st in s1.trips.vjs[ivs[1..][k].vj].stopTimes
          ensures st.stopPoint in ivs[1..][k].impactedStops
        {
          var id := ivs[1..][k].vj;
          assert s1.trips.vjs[id].stopTimes == s.trips.vjs[id].stopTimes by {
            assert s1.trips.vjs[id].(adaptedVp := s.trips.vjs[id].adaptedVp, realtimeVp := s.trips.vjs[id].realtimeVp)
                   == s.trips.vjs[id];
          }
          assert ivs[1..][k] == ivs[k + 1];
        }
      }
      SectionCancelsInPlace(s1, v, ivs[1..]);
      var r := AddImpactedVjs(s1, v, ivs[1..]);
      forall id | id in s.trips.vjs
        ensures r.trips.vjs[id].(adaptedVp := s.trips.vjs[id].adaptedVp, realtimeVp := s.trips.vjs[id].realtimeVp)
                == s.trips.vjs[id]
      {
        assert r.trips.vjs[id].(adaptedVp := s1.trips.vjs[id].adaptedVp, realtimeVp := s1.trips.vjs[id].realtimeVp)
               == s1.trips.vjs[id];
        assert s1.trips.vjs[id].(adaptedVp := s.trips.vjs[id].adaptedVp, realtimeVp := s.trips.vjs[id].realtimeVp)
               == s.trips.vjs[id];
      }
    }
  }
}
