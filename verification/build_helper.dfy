/** The arithmetic of the test-data builder (source/ed/build_helper.cpp):
    stop-time times, the one-day shift of trips that start before midnight,
    the end of a frequency window, memoised trip creation, the severity
    pool, line sections, block linking and the final pick-up/drop-off
    fix-up. */
module BuildHelper {
  import opened Wrappers
  import opened ValidityPattern
  import opened Schedule
  import opened Message
  import opened Text
  import opened Sequences

  // ---- stop times --------------------------------------------------------

  /** `VJ::operator()(stop, arrival, departure, …)`: a departure of -1 means
      "same as the arrival"; alighting and boarding are offset from arrival
      and departure by their durations. */
  function MakeStopTime(stopPoint: string, arrival: int, departure: int,
                        dropOffAllowed: bool, pickUpAllowed: bool,
                        alightingDuration: int, boardingDuration: int): (st: StopTime)
    ensures st.stopPoint == stopPoint && st.arrival == arrival
    ensures st.departure == (if departure == -1 then arrival else departure)
    ensures st.AlightingDuration() == alightingDuration
    ensures st.BoardingDuration() == boardingDuration
    ensures st.dropOffAllowed == dropOffAllowed && st.pickUpAllowed == pickUpAllowed
  {
    var dep := if departure == -1 then arrival else departure;
    StopTime(stopPoint, arrival, dep, dep - boardingDuration, arrival + alightingDuration,
             pickUpAllowed, dropOffAllowed)
  }

  /** The text overload: an empty departure means "same as the arrival";
      `None` stands for the empty string, the other times are already
      converted to seconds. */
  function MakeStopTimeFromText(stopPoint: string, arrival: int, departure: Option<int>,
                                dropOffAllowed: bool, pickUpAllowed: bool,
                                alightingDuration: int, boardingDuration: int): (st: StopTime)
    ensures departure.None? ==> st.departure == arrival
    ensures st.AlightingDuration() == alightingDuration
    ensures st.BoardingDuration() == boardingDuration
  {
    MakeStopTime(stopPoint, arrival, departure.GetOr(arrival), dropOffAllowed, pickUpAllowed,
                 alightingDuration, boardingDuration)
  }

  // ---- trips starting before midnight -------------------------------------

  /** The earliest of a stop's boarding and arrival times. */
  function EarliestOf(st: StopTime): int {
    if st.boarding < st.arrival then st.boarding else st.arrival
  }

  /** `std::min_element` over the stops, compared by `EarliestOf`. */
  function MinEarliest(sts: seq<StopTime>): (m: int)
    requires |sts| > 0
    ensures exists k :: 0 <= k < |sts| && m == EarliestOf(sts[k])
    ensures forall k :: 0 <= k < |sts| ==> m <= EarliestOf(sts[k])
  {
    if |sts| == 1 then EarliestOf(sts[0])
    else
      var rest := MinEarliest(sts[1..]);
      assert forall k :: 1 <= k < |sts| ==> sts[k] == sts[1..][k - 1];
      if EarliestOf(sts[0]) <= rest then EarliestOf(sts[0]) else rest
  }

  /** Some stop boards or arrives before the midnight of the trip's day. */
  predicate StartsBeforeMidnight(sts: seq<StopTime>) {
    exists k :: 0 <= k < |sts| && EarliestOf(sts[k]) < 0
  }

  /** The day shift `VJ::make` applies: 1 when some stop's earliest time is
      negative, else 0. */
  function DayShift(sts: seq<StopTime>): (shift: nat)
    ensures shift <= 1
    ensures shift == 1 <==> StartsBeforeMidnight(sts)
  {
    if |sts| > 0 && MinEarliest(sts) < 0 then 1 else 0
  }

  function ShiftAll(sts: seq<StopTime>, seconds: int): (r: seq<StopTime>)
    ensures |r| == |sts|
    ensures forall k :: 0 <= k < |sts| ==> r[k] == ShiftTimes(sts[k], seconds)
  {
    seq(|sts|, k requires 0 <= k < |sts| => ShiftTimes(sts[k], seconds))
  }

  /** A trip that boards before midnight runs one day earlier with every
      time pushed 24h later: the pattern is shifted right by one and the four
      times of every stop gain 86400 s. Otherwise nothing changes. */
  function PrepareTrip(sts: seq<StopTime>, vp: Days): (r: (seq<StopTime>, Days))
    ensures !StartsBeforeMidnight(sts) ==> r == (sts, vp)
    ensures StartsBeforeMidnight(sts) ==>
              r.1 == ShiftRight(vp, 1) &&
              |r.0| == |sts| &&
              forall k :: 0 <= k < |sts| ==> r.0[k] == ShiftTimes(sts[k], SecondsPerDay)
    ensures forall k :: 0 <= k < |r.0| ==> EarliestOf(r.0[k]) >= EarliestOf(sts[k])
  {
    var shift := DayShift(sts);
    if shift == 1 then (ShiftAll(sts, SecondsPerDay), ShiftRight(vp, 1))
    else
      assert ShiftAll(sts, 0) == sts;
      (sts, vp)
  }

  // ---- frequency windows -------------------------------------------------

  const Two32: int := 0x1_0000_0000

  predicate IsU32(x: int) {
    0 <= x < Two32
  }

  /** The end of a frequency window: `start + ((end - start) / headway) *
      headway` in unsigned 32-bit arithmetic; the division truncates before
      `ceil` sees it. */
  function FrequencyEnd(start: int, end: int, headway: int): (r: int)
    requires IsU32(start) && IsU32(end) && IsU32(headway) && headway > 0
    ensures IsU32(r)
    ensures start <= end ==> start <= r <= end && end - r < headway
    ensures start <= end ==> r - start == ((end - start) / headway) * headway
  {
    var diff := (end - start) % Two32;
    var span := (diff / headway) * headway;
    WindowFits(start, end, headway, diff, span);
    (start + span) % Two32
  }

  /** Without wrap-around the window is a whole number of headways that
      fits between `start` and `end`. */
  lemma WindowFits(start: int, end: int, headway: int, diff: int, span: int)
    requires IsU32(start) && IsU32(end) && headway > 0
    requires diff == (end - start) % Two32 && span == (diff / headway) * headway
    ensures start <= end ==> diff == end - start && 0 <= span <= diff && diff - span < headway
    ensures start <= end ==> (start + span) % Two32 == start + span
  {
    if start <= end {
      assert diff == end - start;
      WholeHeadways(diff, headway);
    }
  }

  /** Truncating division leaves less than one headway over. */
  lemma WholeHeadways(diff: nat, headway: int)
    requires headway > 0
    ensures 0 <= (diff / headway) * headway <= diff
    ensures diff - (diff / headway) * headway < headway
  {
    var q := diff / headway;
    var m := diff % headway;
    assert 0 <= m < headway;
    assert diff == q * headway + m;
  }

  /** When the window is not a whole number of headways the last partial
      headway is dropped, so the computed end falls before the given one. */
  lemma FrequencyEndRoundsDown(start: int, end: int, headway: int)
    requires IsU32(start) && IsU32(end) && IsU32(headway) && headway > 0
    requires start <= end && (end - start) % headway != 0
    ensures FrequencyEnd(start, end, headway) < end
  {
  }

  // ---- memoised trip creation -------------------------------------------

  datatype Frequency = Frequency(start: int, end: int, headway: int)

  /** What a `VJ` builder hands to the journey list. */
  datatype BuiltVj = BuiltVj(
    uri: string,
    metaVj: string,
    stopTimes: seq<StopTime>,
    baseVp: Days,
    frequency: Option<Frequency>)

  /** A `VJ` builder: its settings, its stops, and the journey it made, if any. */
  datatype VjDraft = VjDraft(
    lineName: string,
    uri: string,
    metaVjName: string,
    stops: seq<StopTime>,
    vp: Days,
    isFrequency: bool,
    start: int,
    end: int,
    headway: int,
    made: Option<VjId>)

  predicate ValidDraft(d: VjDraft) {
    d.isFrequency ==> IsU32(d.start) && IsU32(d.end) && IsU32(d.headway) && d.headway > 0
  }

  /** The uri of the trip: the given one, else "vj:<line>:<count>". */
  function TripUri(d: VjDraft, count: nat): string {
    if d.uri == "" then "vj:" + d.lineName + ":" + NatToString(count) else d.uri
  }

  /** The meta trip name: the given one, else the uri, else
      "vehicle_journey <count>". */
  function MetaVjName(d: VjDraft, count: nat): string {
    if d.metaVjName != "" then d.metaVjName
    else if d.uri != "" then d.uri
    else "vehicle_journey " + NatToString(count)
  }

  /** `VJ::make`: the first call appends a journey to the list and remembers
      its handle; later calls return that handle and change nothing. */
  function Make(d: VjDraft, vjs: seq<BuiltVj>): (r: (VjDraft, seq<BuiltVj>, VjId))
    requires ValidDraft(d)
    ensures ValidDraft(r.0)
    ensures d.made.Some? ==> r == (d, vjs, d.made.value)
    ensures d.made.None? ==>
              && r.0 == d.(made := Some(r.2))
              && r.2 == |vjs|
              && |r.1| == |vjs| + 1 && r.1[..|vjs|] == vjs
              && r.1[r.2].stopTimes == PrepareTrip(d.stops, d.vp).0
              && r.1[r.2].baseVp == PrepareTrip(d.stops, d.vp).1
              && r.1[r.2].uri == TripUri(d, |vjs|)
              && r.1[r.2].metaVj == MetaVjName(d, |vjs|)
              && (r.1[r.2].frequency.Some? <==> d.isFrequency)
  {
    if d.made.Some? then (d, vjs, d.made.value)
    else
      var prepared := PrepareTrip(d.stops, d.vp);
      var freq := if d.isFrequency
                  then Some(Frequency(d.start, FrequencyEnd(d.start, d.end, d.headway), d.headway))
                  else None;
      var vj := BuiltVj(TripUri(d, |vjs|), MetaVjName(d, |vjs|), prepared.0, prepared.1, freq);
      (d.(made := Some(|vjs|)), vjs + [vj], |vjs|)
  }

  /** Calling `make` again returns the same journey and creates nothing. */
  lemma MakeMemoised(d: VjDraft, vjs: seq<BuiltVj>)
    requires ValidDraft(d)
    ensures var first := Make(d, vjs);
            Make(first.0, first.1) == first
  {
  }

  // ---- severities --------------------------------------------------------

  datatype Severity = Severity(uri: string, wording: string, color: string, priority: int, effect: Effect)

  /** The registry's severity pool; `None` is a weak reference whose
      severity no longer exists. */
  type SeverityPool = map<string, Option<Severity>>

  /** The uri `severity(e, uri, …)` uses: the given one, else the effect's name. */
  function SeverityUri(e: Effect, uri: string): string {
    if uri == "" then EffectName(e) else uri
  }

  predicate LiveIn(pool: SeverityPool, uri: string) {
    uri in pool && pool[uri].Some?
  }

  /** `Impacter::severity(effect, uri, wording, color, priority)`: reuse the
      live pooled severity with that uri, otherwise register a new one. */
  function SeverityForEffect(pool: SeverityPool, e: Effect, uri: string, wording: string,
                             color: string, priority: int): (r: (Severity, SeverityPool))
    ensures var u := SeverityUri(e, uri);
            && LiveIn(r.1, u) && r.1[u] == Some(r.0)
            && (LiveIn(pool, u) ==> r == (pool[u].value, pool))
            && (!LiveIn(pool, u) ==>
                  && r.0.uri == u && r.0.effect == e && r.0.color == color && r.0.priority == priority
                  && r.0.wording == (if wording != "" then wording else u + " severity")
                  && r.1 == pool[u := Some(r.0)])
  {
    var u := SeverityUri(e, uri);
    if LiveIn(pool, u) then (pool[u].value, pool)
    else
      var sev := Severity(u, if wording != "" then wording else u + " severity", color, priority, e);
      (sev, pool[u := Some(sev)])
  }

  /** Asking twice for the same severity gives the same one and leaves the
      pool as the first call left it. */
  lemma SeverityReused(pool: SeverityPool, e: Effect, uri: string, wording: string,
                       wording2: string, color: string, priority: int)
    ensures var first := SeverityForEffect(pool, e, uri, wording, color, priority);
            SeverityForEffect(first.1, e, uri, wording2, color, priority) == first
  {
  }

  /** `Impacter::severity(uri)`: the pooled severity, which is null when its
      weak reference has expired; an unregistered uri raises. */
  function SeverityByUri(pool: SeverityPool, uri: string): (r: Result<Option<Severity>, string>)
    ensures r.Err? <==> uri !in pool
    ensures r.Err? ==> r.error == "unknown severity " + uri + ", create it first"
    ensures r.Ok? ==> r.value == pool[uri]
  {
    if uri !in pool then Err("unknown severity " + uri + ", create it first")
    else Ok(pool[uri])
  }

  /** A severity registered by effect can then be fetched by its uri. */
  lemma SeverityRegisteredThenFound(pool: SeverityPool, e: Effect, uri: string, wording: string,
                                    color: string, priority: int)
    ensures var first := SeverityForEffect(pool, e, uri, wording, color, priority);
            SeverityByUri(first.1, SeverityUri(e, uri)) == Ok(Some(first.0))
  {
  }

  // ---- impacts -----------------------------------------------------------

  /** `on_line_section`: route uris that do not resolve are dropped, the
      others kept in order. */
  function OnLineSection(known: set<string>, line: string, start: string, end: string,
                         routeUris: seq<string>): (ls: LineSection)
    ensures ls.line == line && ls.startPoint == start && ls.endPoint == end
    ensures forall u :: u in ls.routes <==> u in routeUris && u in known
    ensures |ls.routes| <= |routeUris|
  {
    if |routeUris| == 0 then LineSection(line, start, end, [])
    else
      var rest := OnLineSection(known, line, start, end, routeUris[1..]);
      if routeUris[0] in known then rest.(routes := [routeUris[0]] + rest.routes) else rest
  }

  /** `builder::impact(level, uri)`: a disruption whose single impact bears
      the disruption's uri, a random one when none is given. */
  function ImpactUris(disruptionUri: string, randomId: string): (r: (string, string))
    ensures r.0 == r.1
    ensures disruptionUri != "" ==> r.0 == disruptionUri
    ensures disruptionUri == "" ==> r.0 == randomId
  {
    var u := if disruptionUri == "" then randomId else disruptionUri;
    (u, u)
  }

  // ---- blocks ------------------------------------------------------------

  /** A journey without its block links. */
  function Unlinked(vj: VehicleJourney): VehicleJourney {
    vj.(prevVj := None, nextVj := None)
  }

  /** Two journeys that differ at most in their block links. */
  predicate SameButLinks(a: VehicleJourney, b: VehicleJourney) {
    Unlinked(a) == Unlinked(b)
  }

  lemma StopTimesKept(a: VehicleJourney, b: VehicleJourney)
    requires SameButLinks(a, b)
    ensures a.stopTimes == b.stopTimes
  {
    assert Unlinked(a).stopTimes == a.stopTimes;
    assert Unlinked(b).stopTimes == b.stopTimes;
  }

  /** One step of `build_blocks`: `a` is followed by `b`. */
  function LinkPair(vjs: map<VjId, VehicleJourney>, a: VjId, b: VjId): (r: map<VjId, VehicleJourney>)
    requires a in vjs && b in vjs && a != b
    ensures r.Keys == vjs.Keys
    ensures r[a].nextVj == Some(b) && r[b].prevVj == Some(a)
    ensures r[a].prevVj == vjs[a].prevVj && r[b].nextVj == vjs[b].nextVj
    ensures forall id :: id in vjs ==> SameButLinks(vjs[id], r[id]) && r[id].stopTimes == vjs[id].stopTimes
    ensures forall id :: id in vjs && id != a && id != b ==> r[id] == vjs[id]
  {
    var r1 := vjs[a := vjs[a].(nextVj := Some(b))];
    r1[b := r1[b].(prevVj := Some(a))]
  }

  /** `r` is `vjs` with the journeys of `order` linked one after the
      other: each is preceded by the one before it and followed by the one
      after it, the block's outer links and every other journey are kept,
      and nothing but links changes. */
  predicate Chained(vjs: map<VjId, VehicleJourney>, order: seq<VjId>, r: map<VjId, VehicleJourney>)
    requires forall k :: 0 <= k < |order| ==> order[k] in vjs
  {
    && r.Keys == vjs.Keys
    && (forall k :: 1 <= k < |order| ==>
          r[order[k]].prevVj == Some(order[k - 1]) && r[order[k - 1]].nextVj == Some(order[k]))
    && (|order| > 0 ==> r[order[0]].prevVj == vjs[order[0]].prevVj)
    && (|order| > 0 ==> r[order[|order| - 1]].nextVj == vjs[order[|order| - 1]].nextVj)
    && (forall id :: id in vjs ==> SameButLinks(vjs[id], r[id]) && r[id].stopTimes == vjs[id].stopTimes)
    && (forall id :: id in vjs && id !in order ==> r[id] == vjs[id])
  }

  /** `build_blocks` on one block, given in its sorted order: each journey
      is linked to the next one. */
  function LinkBlock(vjs: map<VjId, VehicleJourney>, order: seq<VjId>): (r: map<VjId, VehicleJourney>)
    requires forall k :: 0 <= k < |order| ==> order[k] in vjs
    requires NoDup(order)
    ensures Chained(vjs, order, r)
    decreases |order|
  {
    if |order| < 2 then vjs
    else
      var step := LinkPair(vjs, order[0], order[1]);
      var rest := order[1..];
      NoDupTail(order);
      assert forall k :: 0 <= k < |rest| ==> rest[k] in step by {
        forall k | 0 <= k < |rest| ensures rest[k] in step {
          assert rest[k] == order[k + 1];
        }
      }
      var r := LinkBlock(step, rest);
      LinkStep(vjs, order, step, rest, r);
      r
  }

  /** Linking the first pair, then the rest of the block, links the whole
      block. */
  lemma LinkStep(vjs: map<VjId, VehicleJourney>, order: seq<VjId>, step: map<VjId, VehicleJourney>,
                 rest: seq<VjId>, r: map<VjId, VehicleJourney>)
    requires forall k :: 0 <= k < |order| ==> order[k] in vjs
    requires NoDup(order) && |order| >= 2
    requires step == LinkPair(vjs, order[0], order[1]) && rest == order[1..]
    requires forall k :: 0 <= k < |rest| ==> rest[k] in step
    requires Chained(step, rest, r)
    ensures Chained(vjs, order, r)
  {
    var a, b := order[0], order[1];
    NoDupTail(order);
    forall k | 1 <= k < |order|
      ensures r[order[k]].prevVj == Some(order[k - 1]) && r[order[k - 1]].nextVj == Some(order[k])
    {
      if k == 1 {
        assert r[a] == step[a];
      } else {
        assert order[k] == rest[k - 1] && order[k - 1] == rest[k - 2];
      }
    }
    forall id | id in vjs ensures SameButLinks(vjs[id], r[id]) && r[id].stopTimes == vjs[id].stopTimes {
      assert SameButLinks(vjs[id], step[id]) && SameButLinks(step[id], r[id]);
    }
    forall id | id in vjs && id !in order ensures r[id] == vjs[id] {
      assert id !in rest && id != a && id != b;
    }
    assert order[|order| - 1] == rest[|rest| - 1];
  }

  // ---- finish ------------------------------------------------------------

  /** The first loop of `finish` on one journey: nobody can get off at the
      first stop of a journey nobody arrives from, nor on at the last stop
      of a journey that continues nowhere. */
  function FinishVj(vj: VehicleJourney): (r: VehicleJourney)
    ensures r.(stopTimes := vj.stopTimes) == vj
    ensures |r.stopTimes| == |vj.stopTimes|
    ensures |vj.stopTimes| > 0 && vj.prevVj.None? ==> !r.stopTimes[0].dropOffAllowed
    ensures |vj.stopTimes| > 0 && vj.nextVj.None? ==> !r.stopTimes[|vj.stopTimes| - 1].pickUpAllowed
    ensures |vj.stopTimes| > 0 && vj.prevVj.Some? && (|vj.stopTimes| > 1 || vj.nextVj.Some?) ==>
              r.stopTimes[0] == vj.stopTimes[0]
    ensures |vj.stopTimes| > 0 && vj.nextVj.Some? && (|vj.stopTimes| > 1 || vj.prevVj.Some?) ==>
              r.stopTimes[|vj.stopTimes| - 1] == vj.stopTimes[|vj.stopTimes| - 1]
    ensures forall k :: 0 < k < |vj.stopTimes| - 1 ==> r.stopTimes[k] == vj.stopTimes[k]
  {
    if |vj.stopTimes| == 0 then vj
    else
      var sts := vj.stopTimes;
      var sts1 := if vj.prevVj.None? then sts[0 := sts[0].(dropOffAllowed := false)] else sts;
      var n := |sts1| - 1;
      var sts2 := if vj.nextVj.None? then sts1[n := sts1[n].(pickUpAllowed := false)] else sts1;
      vj.(stopTimes := sts2)
  }

  /** `finish` over every journey. */
  function FinishAll(vjs: map<VjId, VehicleJourney>): (r: map<VjId, VehicleJourney>)
    ensures r.Keys == vjs.Keys
    ensures forall id :: id in vjs ==> r[id] == FinishVj(vjs[id])
  {
    map id | id in vjs :: FinishVj(vjs[id])
  }

  /** Inside a block, transfers stay possible: after linking and `finish`,
      every journey but the first keeps its first stop's drop-off and every
      journey but the last keeps its last stop's pick-up, while the block's
      ends lose them when they had no links before. */
  lemma BlockKeepsTransfers(vjs: map<VjId, VehicleJourney>, order: seq<VjId>)
    requires forall k :: 0 <= k < |order| ==> order[k] in vjs && |vjs[order[k]].stopTimes| > 1
    requires NoDup(order)
    ensures var r := FinishAll(LinkBlock(vjs, order));
            && (forall k :: 1 <= k < |order| ==>
                  r[order[k]].stopTimes[0] == vjs[order[k]].stopTimes[0])
            && (forall k :: 0 <= k < |order| - 1 ==>
                  var n := |vjs[order[k]].stopTimes| - 1;
                  r[order[k]].stopTimes[n] == vjs[order[k]].stopTimes[n])
            && (|order| > 0 && vjs[order[0]].prevVj.None? ==>
                  !r[order[0]].stopTimes[0].dropOffAllowed)
  {
    var linked := LinkBlock(vjs, order);
    var r := FinishAll(linked);
    forall k | 1 <= k < |order|
      ensures r[order[k]].stopTimes[0] == vjs[order[k]].stopTimes[0]
    {
      var id := order[k];
      assert linked[id].prevVj == Some(order[k - 1]);
      StopTimesKept(vjs[id], linked[id]);
    }
    forall k | 0 <= k < |order| - 1
      ensures var n := |vjs[order[k]].stopTimes| - 1;
              r[order[k]].stopTimes[n] == vjs[order[k]].stopTimes[n]
    {
      var id := order[k];
      assert linked[order[k + 1]].prevVj == Some(order[k]) && linked[id].nextVj == Some(order[k + 1]);
      StopTimesKept(vjs[id], linked[id]);
    }
    if |order| > 0 && vjs[order[0]].prevVj.None? {
      var id := order[0];
      StopTimesKept(vjs[id], linked[id]);
    }
  }

  /** The frequency part of `finish`: stop times become offsets from the
      trip's earliest time `earliest`, and when the window opened after that
      time while the first arrival was inside it, the window is moved to
      start at `earliest`, keeping its length. */
  function RebaseFrequency(f: Frequency, sts: seq<StopTime>, earliest: int): (r: (Frequency, seq<StopTime>))
    requires |sts| > 0
    ensures |r.1| == |sts|
    ensures forall k :: 0 <= k < |sts| ==> r.1[k] == ShiftTimes(sts[k], -earliest)
    ensures r.0.end - r.0.start == f.end - f.start && r.0.headway == f.headway
    ensures f.start <= sts[0].arrival && earliest < f.start ==> r.0.start == earliest
    ensures !(f.start <= sts[0].arrival && earliest < f.start) ==> r.0 == f
  {
    var f' := if f.start <= sts[0].arrival && earliest < f.start
              then f.(end := f.end - (f.start - earliest), start := earliest)
              else f;
    (f', ShiftAll(sts, -earliest))
  }
}
