/** Closing a stop point again with the same impact changes nothing
    (source/kraken/apply_disruption.cpp, the stop-point case of the add
    visitor). The first pass takes the closed days away from every hit
    journey, so on the next pass `get_vp_of_sp` finds no closed day left and
    no journey is a candidate; the journeys it derived do not call at the
    stop point at all. The code of `create_discrete_vj` and `get_vp_of_sp` is
    not part of the model; what this needs of them are the hypotheses
    `FreesTakenDays` and `VpOfSpFaithful`, next to `CreatesAsAsked`. */
module ClosureRepeat {
  import opened Wrappers
  import opened ValidityPattern
  import opened Schedule
  import opened Message
  import opened EngineState
  import opened Engine = ApplyDisruption
  import opened VisitorProperties
  import opened DisruptionProperties
  import Text

  // ---- what the unseen helpers must do ------------------------------------

  /** The days of `vp`, each moved `n` days later. */
  function Later(vp: Days, n: nat): (r: Days)
    ensures forall x :: x in r <==> x - n in vp
  {
    var r := set y | y in vp :: y + n;
    assert forall x :: x - n in vp ==> x in r by {
      forall x | x - n in vp ensures x in r {
        assert x == (x - n) + n;
      }
    }
    r
  }

  /** `create_discrete_vj` hands the new journey's days over to it: no other
      journey gains a day at the level, and a journey of the same meta trip
      no longer runs on any of those days, moved by its own day shift. */
  ghost predicate FreesTakenDays(c: Collaborators) {
    forall t: Trips, mvj: string, uri: string, l: RTLevel, vp: Days, route: Option<string>, sts: seq<StopTime> ::
      mvj in t.mvjs ==> Frees(t, c.createDiscreteVj(t, mvj, uri, l, vp, route, sts).0, mvj, l, vp)
  }

  ghost predicate Frees(t: Trips, u: Trips, mvj: string, l: RTLevel, vp: Days) {
    forall x :: x in t.vjs && x in u.vjs ==>
      && u.vjs[x].Vp(l) <= t.vjs[x].Vp(l)
      && (t.vjs[x].metaVj == mvj ==> Later(vp, t.vjs[x].shift) !! u.vjs[x].Vp(l))
  }

  /** `get_vp_of_sp` gives days the journey runs at the level; none when it
      does not call at the stop point; and no more when the same stops, with
      the same day shift, run on fewer days. */
  ghost predicate VpOfSpFaithful(c: Collaborators) {
    && (forall vj: VehicleJourney, sp: string, l: RTLevel, p: Period :: c.vpOfSp(vj, sp, l, p) <= vj.Vp(l))
    && (forall vj: VehicleJourney, sp: string, l: RTLevel, p: Period ::
          Avoids(vj, sp) ==> c.vpOfSp(vj, sp, l, p) == {})
    && (forall a: VehicleJourney, b: VehicleJourney, sp: string, l: RTLevel, p: Period ::
          b.stopTimes == a.stopTimes && b.shift == a.shift && b.Vp(l) <= a.Vp(l) ==>
          c.vpOfSp(b, sp, l, p) <= c.vpOfSp(a, sp, l, p))
  }

  /** What `PT_Data` guarantees: every journey is in `vehicle_journeys` and
      has its meta trip. */
  predicate Listed(t: Trips) {
    forall x :: x in t.vjs ==> x in t.vjOrder && t.vjs[x].metaVj in t.mvjs
  }

  /** No call at the stop point falls on a day that the journey's day shift
      pushes below day 0 (`new_vp.days >>= vj->shift` would drop it). */
  predicate NoCallBeforeShift(t: Trips, v: Visitor, sp: string) {
    forall x :: x in t.vjs ==>
      forall d :: d in SpUnion(v.c, t.vjs[x], sp, v.level, v.impact.periods) ==> d >= t.vjs[x].shift
  }

  // ---- get_vp_of_sp over the periods --------------------------------------

  lemma SpUnionAvoids(c: Collaborators, vj: VehicleJourney, sp: string, l: RTLevel, ps: seq<Period>)
    requires VpOfSpFaithful(c) && Avoids(vj, sp)
    ensures SpUnion(c, vj, sp, l, ps) == {}
  {
    assert forall k :: 0 <= k < |ps| ==> c.vpOfSp(vj, sp, l, ps[k]) == {};
  }

  lemma SpUnionShrinks(c: Collaborators, a: VehicleJourney, b: VehicleJourney, sp: string, l: RTLevel, ps: seq<Period>)
    requires VpOfSpFaithful(c)
    requires b.stopTimes == a.stopTimes && b.shift == a.shift && b.Vp(l) <= a.Vp(l)
    ensures SpUnion(c, b, sp, l, ps) <= SpUnion(c, a, sp, l, ps) * b.Vp(l)
  {
    forall x | x in SpUnion(c, b, sp, l, ps) ensures x in SpUnion(c, a, sp, l, ps) && x in b.Vp(l) {
      var k :| 0 <= k < |ps| && x in c.vpOfSp(b, sp, l, ps[k]);
      assert c.vpOfSp(b, sp, l, ps[k]) <= c.vpOfSp(a, sp, l, ps[k]);
      assert c.vpOfSp(b, sp, l, ps[k]) <= b.Vp(l);
    }
  }

  // ---- the closure loop, candidate by candidate ---------------------------

  /** The journeys of a list of candidates. */
  function VjSet(cs: seq<Candidate>): (r: set<VjId>)
    ensures forall x :: x in r <==> exists k :: 0 <= k < |cs| && cs[k].vj == x
    decreases |cs|
  {
    if |cs| == 0 then {}
    else
      var rest := VjSet(cs[1..]);
      assert forall k :: 0 < k < |cs| ==> cs[k] == cs[1..][k - 1];
      {cs[0].vj} + rest
  }

  /** A journey of `b` that is journey `x` of `a` with its stops, on no new
      day at the level, and, once its candidate is done, on none of the days
      it called at `sp` in `a`. */
  ghost predicate Shrunk(a: Trips, b: Trips, x: VjId, v: Visitor, sp: string, done: set<VjId>) {
    && x in a.vjs && x in b.vjs
    && StopsKept(a.vjs[x], b.vjs[x])
    && b.vjs[x].Vp(v.level) <= a.vjs[x].Vp(v.level)
    && (x in done ==> SpUnion(v.c, a.vjs[x], sp, v.level, v.impact.periods) !! b.vjs[x].Vp(v.level))
  }

  /** The closure loop so far, from `a` to `b`, with the candidates of `done`
      treated: every journey is a derived one that does not call at `sp`, or
      an old one that shrank. */
  ghost predicate Progress(a: Trips, b: Trips, v: Visitor, sp: string, done: set<VjId>) {
    && b.mvjs.Keys == a.mvjs.Keys
    && forall x :: x in b.vjs ==> Avoids(b.vjs[x], sp) || Shrunk(a, b, x, v, sp, done)
  }

  /** A candidate of `a`: a journey of `a` with its calls at `sp` shifted
      back by its day shift. */
  ghost predicate CandidateOf(a: Trips, v: Visitor, sp: string, cand: Candidate) {
    && cand.vj in a.vjs
    && cand.vp == ShiftRight(SpUnion(v.c, a.vjs[cand.vj], sp, v.level, v.impact.periods), a.vjs[cand.vj].shift)
  }

  /** Deriving the candidate's journey takes every day it called at `sp`
      away from it. */
  lemma CandidateFreed(a: Trips, vj: VehicleJourney, cand: Candidate, v: Visitor, sp: string, p: VjPlan, after: VehicleJourney)
    requires NoCallBeforeShift(a, v, sp) && CandidateOf(a, v, sp, cand)
    requires StopsKept(a.vjs[cand.vj], vj) && vj.Vp(v.level) <= a.vjs[cand.vj].Vp(v.level)
    requires PlannedDays(p.vp, cand.vp, vj, v.level)
    requires after.Vp(v.level) <= vj.Vp(v.level) && Later(p.vp, vj.shift) !! after.Vp(v.level)
    ensures SpUnion(v.c, a.vjs[cand.vj], sp, v.level, v.impact.periods) !! after.Vp(v.level)
  {
    var u := SpUnion(v.c, a.vjs[cand.vj], sp, v.level, v.impact.periods);
    forall d | d in u ensures d !in after.Vp(v.level) {
      if d in vj.Vp(v.level) {
        assert d - vj.shift in cand.vp;
        assert d - vj.shift in p.vp;
        assert d in Later(p.vp, vj.shift);
      }
    }
  }

  /** One step of the loop on the trips: `u` is `t` with a journey `n` that
      does not call at `sp`, with the other journeys shrunk, and with
      candidate `x0`, if it still calls at `sp`, off every day it called
      there in `a`. */
  lemma StepProgress(a: Trips, t: Trips, u: Trips, n: VjId, x0: VjId, v: Visitor, sp: string, done: set<VjId>)
    requires Progress(a, t, v, sp, done)
    requires u.mvjs.Keys == t.mvjs.Keys && u.vjs.Keys <= t.vjs.Keys + {n}
    requires n in u.vjs ==> Avoids(u.vjs[n], sp)
    requires forall x :: x in u.vjs && x != n ==>
               x in t.vjs && StopsKept(t.vjs[x], u.vjs[x]) && u.vjs[x].Vp(v.level) <= t.vjs[x].Vp(v.level)
    requires x0 in u.vjs && x0 != n && !Avoids(u.vjs[x0], sp) ==>
               x0 in a.vjs && SpUnion(v.c, a.vjs[x0], sp, v.level, v.impact.periods) !! u.vjs[x0].Vp(v.level)
    ensures Progress(a, u, v, sp, done + {x0})
  {
    forall x | x in u.vjs && !Avoids(u.vjs[x], sp)
      ensures Shrunk(a, u, x, v, sp, done + {x0})
    {
      if x != n {
        assert !Avoids(t.vjs[x], sp);
        assert Shrunk(a, t, x, v, sp, done);
      }
    }
  }

  /** What a derived journey `u` settles into, as `create_vj_from_old_vj`
      leaves it: the meta trips and the other journeys as the creation made
      them, and the new journey away from `sp`. */
  lemma SettledStep(t: Trips, made: (Trips, VjId), u: Trips, mvj: string, uri: string, l: RTLevel, vp: Days,
                    sts: seq<StopTime>, sp: string)
    requires Created(t, made, mvj, uri, l, vp, sts) && Frees(t, made.0, mvj, l, vp)
    requires forall st :: st in sts ==> st.stopPoint != sp
    requires u.mvjs.Keys == made.0.mvjs.Keys && u.vjs.Keys == made.0.vjs.Keys
    requires made.1 in u.vjs && u.vjs[made.1].stopTimes == sts
    requires forall x :: x in made.0.vjs && x != made.1 ==> u.vjs[x] == made.0.vjs[x]
    ensures u.mvjs.Keys == t.mvjs.Keys && u.vjs.Keys <= t.vjs.Keys + {made.1}
    ensures Avoids(u.vjs[made.1], sp)
    ensures forall x :: x in u.vjs && x != made.1 ==>
              x in t.vjs && StopsKept(t.vjs[x], u.vjs[x]) && u.vjs[x].Vp(l) <= t.vjs[x].Vp(l)
    ensures forall x :: x in u.vjs && x in t.vjs && x != made.1 && t.vjs[x].metaVj == mvj ==>
              Later(vp, t.vjs[x].shift) !! u.vjs[x].Vp(l)
  {
  }

  /** The plan of a closure runs on the candidate's days the journey runs. */
  lemma PlanDays(vj: VehicleJourney, cand: Candidate, sp: string, l: RTLevel, prefix: string, uris: string)
    ensures PlannedDays(ClosurePlan(vj, cand, sp, l, prefix, uris).vp, cand.vp, vj, l)
  {
  }

  /** A candidate whose journey and meta trip are still there: the plan
      `p` of its derived journey `n`, and what deriving it did to the
      journeys. */
  lemma ClosureStep(s: PtData, v: Visitor, sp: string, cand: Candidate) returns (p: VjPlan, n: VjId)
    requires CreatesAsAsked(v.c) && FreesTakenDays(v.c)
    requires cand.vj in s.trips.vjs && s.trips.vjs[cand.vj].metaVj in s.trips.mvjs
    ensures var r := AddClosure(s, v, sp, cand).trips; var vj := s.trips.vjs[cand.vj];
      && PlannedDays(p.vp, cand.vp, vj, v.level)
      && r.mvjs.Keys == s.trips.mvjs.Keys && r.vjs.Keys <= s.trips.vjs.Keys + {n}
      && (n in r.vjs ==> Avoids(r.vjs[n], sp))
      && (forall x :: x in r.vjs && x != n ==>
            x in s.trips.vjs && StopsKept(s.trips.vjs[x], r.vjs[x]) && r.vjs[x].Vp(v.level) <= s.trips.vjs[x].Vp(v.level))
      && (cand.vj in r.vjs && cand.vj != n ==> Later(p.vp, vj.shift) !! r.vjs[cand.vj].Vp(v.level))
  {
    var r := AddClosure(s, v, sp, cand);
    var vj := s.trips.vjs[cand.vj];
    var s1 := Mark(s, vj.metaVj, v.id);
    var m := s1.trips.mvjs[vj.metaVj];
    var tail := Text.NatToString(|m.VjsAt(v.level)|) + ConcatenateImpactUris(s1.impacts, m.modifiedBy);
    p := ClosurePlan(vj, cand, sp, v.level, vj.metaVj, tail);
    PlanDays(vj, cand, sp, v.level, vj.metaVj, tail);
    var made := v.c.createDiscreteVj(s1.trips, vj.metaVj, p.uri, v.level, p.vp, Some(vj.route), p.stopTimes);
    n := made.1;
    assert r == CreateVjFromOldVj(s1, v.c, vj.metaVj, vj, p.uri, v.level, p.vp, p.stopTimes).0;
    SettledStep(s1.trips, made, r.trips, vj.metaVj, p.uri, v.level, p.vp, p.stopTimes, sp);
  }

  /** A candidate whose journey and meta trip are still there: its derived
      journey keeps the loop's progress. */
  lemma DerivedProgress(a: Trips, s: PtData, v: Visitor, sp: string, cand: Candidate, done: set<VjId>)
    requires CreatesAsAsked(v.c) && FreesTakenDays(v.c)
    requires NoCallBeforeShift(a, v, sp) && CandidateOf(a, v, sp, cand)
    requires cand.vj in s.trips.vjs && s.trips.vjs[cand.vj].metaVj in s.trips.mvjs
    requires Progress(a, s.trips, v, sp, done)
    ensures Progress(a, AddClosure(s, v, sp, cand).trips, v, sp, done + {cand.vj})
  {
    var r := AddClosure(s, v, sp, cand).trips;
    var x0 := cand.vj;
    var vj := s.trips.vjs[x0];
    var p, n := ClosureStep(s, v, sp, cand);
    if x0 in r.vjs && x0 != n && !Avoids(r.vjs[x0], sp) {
      assert Shrunk(a, s.trips, x0, v, sp, done);
      CandidateFreed(a, vj, cand, v, sp, p, r.vjs[x0]);
    }
    StepProgress(a, s.trips, r, n, x0, v, sp, done);
  }

  /** One candidate keeps the loop's progress and is done afterwards. */
  lemma ClosureProgress(a: Trips, s: PtData, v: Visitor, sp: string, cand: Candidate, done: set<VjId>)
    requires CreatesAsAsked(v.c) && FreesTakenDays(v.c)
    requires Listed(a) && NoCallBeforeShift(a, v, sp) && CandidateOf(a, v, sp, cand)
    requires Progress(a, s.trips, v, sp, done)
    ensures Progress(a, AddClosure(s, v, sp, cand).trips, v, sp, done + {cand.vj})
  {
    var x0 := cand.vj;
    if x0 !in s.trips.vjs || s.trips.vjs[x0].metaVj !in s.trips.mvjs {
      assert x0 in s.trips.vjs ==> Avoids(s.trips.vjs[x0], sp) || Shrunk(a, s.trips, x0, v, sp, done);
      StepProgress(a, s.trips, s.trips, x0, x0, v, sp, done);
    } else {
      DerivedProgress(a, s, v, sp, cand, done);
    }
  }

  /** The whole candidate list keeps the progress, and all its journeys are
      done afterwards. */
  lemma {:induction false} ClosuresProgress(a: Trips, s: PtData, v: Visitor, sp: string, cands: seq<Candidate>,
                                            done: set<VjId>)
    requires CreatesAsAsked(v.c) && FreesTakenDays(v.c) && Listed(a) && NoCallBeforeShift(a, v, sp)
    requires forall k :: 0 <= k < |cands| ==> CandidateOf(a, v, sp, cands[k])
    requires Progress(a, s.trips, v, sp, done)
    ensures Progress(a, AddClosures(s, v, sp, cands).trips, v, sp, done + VjSet(cands))
    decreases |cands|
  {
    if |cands| == 0 {
      assert done + VjSet(cands) == done;
    } else {
      ClosureProgress(a, s, v, sp, cands[0], done);
      assert forall k :: 0 <= k < |cands[1..]| ==> cands[1..][k] == cands[k + 1];
      ClosuresProgress(a, AddClosure(s, v, sp, cands[0]), v, sp, cands[1..], done + {cands[0].vj});
      assert done + {cands[0].vj} + VjSet(cands[1..]) == done + VjSet(cands);
    }
  }

  /** With no journey hit, there is no candidate. */
  lemma NoHitNoCandidates(t: Trips, v: Visitor, sp: string, impactVp: Days, order: seq<VjId>)
    requires forall x :: x in t.vjs ==> !Hit(t, v, sp, impactVp, x)
    ensures Candidates(t, v, sp, impactVp, order) == []
  {
    var r := Candidates(t, v, sp, impactVp, order);
    assert |r| > 0 ==> Hit(t, v, sp, impactVp, r[0].vj);
  }

  /** After the whole loop, no journey is hit any more. */
  lemma NothingLeftToClose(a: Trips, b: Trips, v: Visitor, sp: string, impactVp: Days, x: VjId)
    requires VpOfSpFaithful(v.c) && Listed(a)
    requires Progress(a, b, v, sp, VjSet(Candidates(a, v, sp, impactVp, a.vjOrder)))
    requires x in b.vjs
    ensures !Hit(b, v, sp, impactVp, x)
  {
    var ps := v.impact.periods;
    if Avoids(b.vjs[x], sp) {
      SpUnionAvoids(v.c, b.vjs[x], sp, v.level, ps);
    } else {
      SpUnionShrinks(v.c, a.vjs[x], b.vjs[x], sp, v.level, ps);
      if x !in VjSet(Candidates(a, v, sp, impactVp, a.vjOrder)) {
        assert !Hit(a, v, sp, impactVp, x);
      }
    }
  }

  // ---- the stop-point case, twice ----------------------------------------

  /** Closing a stop point a second time with the same impact leaves the
      trips as the first time left them: every journey the first pass hit
      has lost its closed days, and every journey it derived skips the stop
      point, so the second pass finds no candidate. */
  lemma StopPointTwiceIsOnce(s: PtData, v: Visitor, sp: string)
    requires CreatesAsAsked(v.c) && FreesTakenDays(v.c) && VpOfSpFaithful(v.c)
    requires Listed(s.trips) && NoCallBeforeShift(s.trips, v, sp)
    ensures AddStopPoint(AddStopPoint(s, v, sp), v, sp) == AddStopPoint(s, v, sp)
  {
    if v.impact.effect == NoService || v.impact.effect == Detour {
      var a := s.trips;
      var impactVp := v.c.impactVp(v.impact, v.meta);
      var cands := Candidates(a, v, sp, impactVp, a.vjOrder);
      var once := AddStopPoint(s, v, sp);
      assert once == AddClosures(s, v, sp, cands);
      assert Progress(a, a, v, sp, {});
      ClosuresProgress(a, s, v, sp, cands, {});
      assert {} + VjSet(cands) == VjSet(cands);
      forall x | x in once.trips.vjs ensures !Hit(once.trips, v, sp, impactVp, x) {
        NothingLeftToClose(a, once.trips, v, sp, impactVp, x);
      }
      NoHitNoCandidates(once.trips, v, sp, impactVp, once.trips.vjOrder);
    }
  }

  /** A one-impact disruption that closes one stop point. */
  ghost predicate ClosesStopPoint(s: PtData, d: Disruption, sp: string) {
    && |d.impacts| == 1
    && d.impacts[0] in s.impacts
    && (s.impacts[d.impacts[0]].effect == NoService || s.impacts[d.impacts[0]].effect == Detour)
    && s.impacts[d.impacts[0]].entities == [StopPointObj(sp)]
  }

  /** The visitor `apply_impact` builds for the disruption's impact. */
  function VisitorOf(s: PtData, c: Collaborators, meta: Meta, d: Disruption): (v: Visitor)
    requires |d.impacts| == 1 && d.impacts[0] in s.impacts
    ensures v.impact == s.impacts[d.impacts[0]] && v.id == d.impacts[0] && v.level == d.rtLevel && v.c == c
  {
    Visitor(c, meta, s.impacts[d.impacts[0]], d.impacts[0], d.rtLevel)
  }

  /** Applying a disruption that closes a stop point a second time, or any
      further time, changes nothing. */
  lemma ApplyClosureTwiceIsOnce(s: PtData, c: Collaborators, meta: Meta, d: Disruption, sp: string)
    requires CreatesAsAsked(c) && FreesTakenDays(c) && VpOfSpFaithful(c)
    requires ClosesStopPoint(s, d, sp)
    requires Listed(s.trips) && NoCallBeforeShift(s.trips, VisitorOf(s, c, meta, d), sp)
    ensures var once := ApplyDisruption(s, c, meta, d);
      ApplyDisruption(once, c, meta, d) == once
  {
    var v := VisitorOf(s, c, meta, d);
    var once := ApplyDisruption(s, c, meta, d);
    ApplyThroughStopPoint(s, c, meta, d, sp);
    assert once == AddStopPoint(s, v, sp);
    assert ClosesStopPoint(once, d, sp) && VisitorOf(once, c, meta, d) == v;
    ApplyThroughStopPoint(once, c, meta, d, sp);
    StopPointTwiceIsOnce(s, v, sp);
  }

  /** A disruption that closes a stop point is its stop-point case. */
  lemma ApplyThroughStopPoint(s: PtData, c: Collaborators, meta: Meta, d: Disruption, sp: string)
    requires ClosesStopPoint(s, d, sp)
    ensures ApplyDisruption(s, c, meta, d) == AddStopPoint(s, VisitorOf(s, c, meta, d), sp)
  {
    var v := VisitorOf(s, c, meta, d);
    var es := v.impact.entities;
    ApplySingle(s, c, meta, d);
    assert IsModifyingEffect(v.impact.effect);
    assert ApplyImpact(s, c, meta, d.rtLevel, d.impacts[0]) == AddEntities(s, v, es);
    assert es[0] == StopPointObj(sp) && es[1..] == [];
    assert AddEntities(s, v, es) == AddEntities(AddEntity(s, v, es[0]), v, []);
  }
}
