/** The state the disruption engine rewrites (source/kraken/apply_disruption.cpp):
    an arena of vehicle journeys and meta vehicle journeys addressed by
    handle and uri, the network structure the visitors walk, the impacts
    alive in memory and the disruption registry. The engine's helpers whose
    bodies are not part of this model are the fields of `Collaborators`. */
module EngineState {
  import opened Wrappers
  import opened ValidityPattern
  import opened Schedule
  import opened Message
  import opened Sequences

  /** The trips: journeys by handle, their order in `pt_data.vehicle_journeys`,
      meta trips by uri, their order in `pt_data.meta_vjs`, and each route's
      journeys. */
  datatype Trips = Trips(
    vjs: map<VjId, VehicleJourney>,
    vjOrder: seq<VjId>,
    mvjs: map<string, MetaVJ>,
    mvjOrder: seq<string>,
    routeVjs: map<string, seq<VjId>>)

  /** What the engine walks but never changes: the lines of each network,
      the routes of each line, the stop points of each stop area, the
      physical modes and the known companies. */
  datatype Topology = Topology(
    networkLines: map<string, seq<string>>,
    lineRoutes: map<string, seq<string>>,
    stopAreaPoints: map<string, seq<string>>,
    physicalModes: seq<string>,
    companies: set<string>)

  /** `PT_Data` as the engine sees it. `objectImpacts` holds the impacts each
      informed object lists; an impact handle absent from `impacts` is an
      impact that no longer exists. */
  datatype PtData = PtData(
    trips: Trips,
    topo: Topology,
    modeVjs: map<string, seq<VjId>>,
    objectImpacts: map<PtObj, seq<ImpactId>>,
    impacts: map<ImpactId, Impact>,
    holder: DisruptionHolder)

  /** The production period `[begin, end)`, in days since the epoch. */
  datatype Meta = Meta(productionBegin: int, productionEnd: int)

  predicate InProduction(meta: Meta, day: int) {
    meta.productionBegin <= day < meta.productionEnd
  }

  /** The journeys a meta trip owns at each level. */
  datatype VjLists = VjLists(base: seq<VjId>, adapted: seq<VjId>, realtime: seq<VjId>)

  function ListsOf(m: MetaVJ): VjLists {
    VjLists(m.baseVjs, m.adaptedVjs, m.rtVjs)
  }

  /** The helpers the engine calls:
      - `cancelVj`: `MetaVehicleJourney::cancel_vj`, cancelling the days of
        the periods at a level for the journeys of one meta trip, optionally
        only those of one route;
      - `vpOfSp`: `VehicleJourney::get_vp_of_sp`, the days on which a journey
        calls at a stop point within a period;
      - `createDiscreteVj`: `MetaVehicleJourney::create_discrete_vj`, which
        adds a journey at a level and returns its handle;
      - `cleanUp`: `MetaVehicleJourney::clean_up_useless_vjs`;
      - `impactedVjs`: `get_impacted_vehicle_journeys` for a line section;
      - `baseStopTime`: `get_base_stop_time` of a journey's k-th stop;
      - `impactVp`: `Impact::get_impact_vp`, the days an impact touches. */
  datatype Collaborators = Collaborators(
    cancelVj: (map<VjId, VehicleJourney>, VjLists, RTLevel, seq<Period>, Option<string>) -> map<VjId, VehicleJourney>,
    vpOfSp: (VehicleJourney, string, RTLevel, Period) -> Days,
    createDiscreteVj: (Trips, string, string, RTLevel, Days, Option<string>, seq<StopTime>) -> (Trips, VjId),
    cleanUp: (Trips, string) -> Trips,
    impactedVjs: (PtData, LineSection, Impact, Meta, RTLevel) -> seq<ImpactedVJ>,
    baseStopTime: (Trips, VjId, nat) -> Option<StopTime>,
    impactVp: (Impact, Meta) -> Days)

  /** The list stored under a key, empty for an absent key. */
  function Lookup<K, V>(m: map<K, seq<V>>, k: K): seq<V> {
    if k in m then m[k] else []
  }

  /** Append a handle to the list stored under a key. */
  function AppendAt<K>(m: map<K, seq<VjId>>, k: K, v: VjId): (r: map<K, seq<VjId>>)
    ensures r.Keys == m.Keys + {k}
    ensures r[k] == Lookup(m, k) + [v]
    ensures forall o :: o in m && o != k ==> r[o] == m[o]
  {
    m[k := Lookup(m, k) + [v]]
  }

  /** The meta trips with a journey on `route`, in `meta_vjs` order, each
      once when that order lists it once. */
  function MvjsOfRoute(t: Trips, route: string): (r: seq<string>)
    ensures forall m :: m in r <==> m in t.mvjOrder && RunsOn(t, route, m)
    ensures IsSubseq(r, t.mvjOrder)
    ensures NoDup(t.mvjOrder) ==> NoDup(r)
  {
    SubseqNoDup(FilterRunning(t, route, t.mvjOrder), t.mvjOrder);
    FilterRunning(t, route, t.mvjOrder)
  }

  predicate RunsOn(t: Trips, route: string, mvj: string) {
    exists v :: v in Lookup(t.routeVjs, route) && v in t.vjs && t.vjs[v].metaVj == mvj
  }

  function FilterRunning(t: Trips, route: string, ms: seq<string>): (r: seq<string>)
    ensures forall m :: m in r <==> m in ms && RunsOn(t, route, m)
    ensures IsSubseq(r, ms)
  {
    if |ms| == 0 then []
    else
      var rest := FilterRunning(t, route, ms[1..]);
      if RunsOn(t, route, ms[0]) then
        assert ([ms[0]] + rest)[1..] == rest;
        [ms[0]] + rest
      else rest
  }

  /** What neither applying nor deleting an impact touches. */
  predicate Frame(s: PtData, r: PtData) {
    r.topo == s.topo && r.impacts == s.impacts && r.holder == s.holder
  }
}
