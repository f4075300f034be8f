/** The schedule entities the disruption engine reads and rewrites: realtime
    levels, stop times, vehicle journeys (VJs) and meta vehicle journeys
    (MetaVJs). Pointers between objects become handles: a VJ is named by a
    `VjId` into the schedule's arena, a MetaVJ, line, route or stop by its
    uri, an impact by an `ImpactId`. */
module Schedule {
  import opened Wrappers
  import opened ValidityPattern

  const SecondsPerDay: int := 86400

  datatype RTLevel = Base | Adapted | RealTime

  /** `get_string_from_rt_level`, used to build derived VJ uris. */
  function LevelName(l: RTLevel): (s: string)
    ensures |s| > 0
  {
    match l
    case Base => "Base"
    case Adapted => "Adapted"
    case RealTime => "RealTime"
  }

  lemma LevelNameInjective(a: RTLevel, b: RTLevel)
    ensures LevelName(a) == LevelName(b) ==> a == b
  {
  }

  type VjId = nat
  type ImpactId = nat

  /** One stop of a trip. Times are seconds after the midnight of the
      trip's reference day and may exceed one day. */
  datatype StopTime = StopTime(
    stopPoint: string,
    arrival: int,
    departure: int,
    boarding: int,
    alighting: int,
    pickUpAllowed: bool,
    dropOffAllowed: bool)
  {
    /** Time needed to board before departure. */
    function BoardingDuration(): int {
      departure - boarding
    }

    /** Time needed to alight after arrival. */
    function AlightingDuration(): int {
      alighting - arrival
    }
  }

  /** The same stop with its four times moved by `seconds`. */
  function ShiftTimes(st: StopTime, seconds: int): (r: StopTime)
    ensures r.stopPoint == st.stopPoint
    ensures r.pickUpAllowed == st.pickUpAllowed && r.dropOffAllowed == st.dropOffAllowed
    ensures r.arrival - st.arrival == seconds && r.departure - st.departure == seconds
    ensures r.boarding - st.boarding == seconds && r.alighting - st.alighting == seconds
  {
    st.(arrival := st.arrival + seconds, departure := st.departure + seconds,
        boarding := st.boarding + seconds, alighting := st.alighting + seconds)
  }

  /** Attributes a derived VJ copies from the VJ it is derived from. */
  datatype VjAttributes = VjAttributes(
    company: Option<string>,
    vjType: string,
    odtMessage: string,
    vehicleProperties: set<string>)

  datatype VehicleJourney = VehicleJourney(
    uri: string,
    metaVj: string,
    route: string,
    shift: nat,
    stopTimes: seq<StopTime>,
    baseVp: Days,
    adaptedVp: Days,
    realtimeVp: Days,
    attributes: VjAttributes,
    physicalMode: string,
    name: string,
    prevVj: Option<VjId>,
    nextVj: Option<VjId>)
  {
    /** `validity_patterns[level]` */
    function Vp(l: RTLevel): Days {
      match l
      case Base => baseVp
      case Adapted => adaptedVp
      case RealTime => realtimeVp
    }

    function WithVp(l: RTLevel, d: Days): (r: VehicleJourney)
      ensures r.Vp(l) == d
      ensures forall o :: o != l ==> r.Vp(o) == Vp(o)
    {
      match l
      case Base => this.(baseVp := d)
      case Adapted => this.(adaptedVp := d)
      case RealTime => this.(realtimeVp := d)
    }
  }

  /** The stable identity of a trip: its base VJs, the VJs derived from them
      at each realtime level, the impacts currently modifying it
      (`modified_by`) and the impacts informing it (`impacts`). */
  datatype MetaVJ = MetaVJ(
    uri: string,
    baseVjs: seq<VjId>,
    adaptedVjs: seq<VjId>,
    rtVjs: seq<VjId>,
    modifiedBy: seq<ImpactId>,
    impacts: seq<ImpactId>)
  {
    /** `get_vjs_at(level)` */
    function VjsAt(l: RTLevel): seq<VjId> {
      match l
      case Base => baseVjs
      case Adapted => adaptedVjs
      case RealTime => rtVjs
    }
  }

  /** `push_unique_impact`: append an impact to a de-duplicating list. */
  function PushUnique(xs: seq<ImpactId>, i: ImpactId): (r: seq<ImpactId>)
    ensures i in r
    ensures forall x :: x in r <==> x in xs || x == i
    ensures i in xs ==> r == xs
    ensures i !in xs ==> |r| == |xs| + 1 && r[..|xs|] == xs
  {
    if i in xs then xs else xs + [i]
  }

  /** `remove_impact`: drop every occurrence of an impact, keeping the order
      of the others. */
  function RemoveAll(xs: seq<ImpactId>, i: ImpactId): (r: seq<ImpactId>)
    ensures forall x :: x in r <==> x in xs && x != i
    ensures |r| <= |xs|
  {
    if |xs| == 0 then []
    else if xs[0] == i then RemoveAll(xs[1..], i)
    else [xs[0]] + RemoveAll(xs[1..], i)
  }
}
