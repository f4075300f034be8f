/** Disruption messages (source/type/message.h): the effect taxonomy and its
    string form, channel types, disruption properties and their order,
    stop-time update statuses, impacts, disruptions and the registry that
    owns them. Shared pointers become handles: an impact is named by an
    `ImpactId` into the schedule's impact arena and points to its disruption
    by the disruption's uri. */
module Message {
  import opened Wrappers
  import opened StringOrder
  import opened Schedule

  // ---- effects -----------------------------------------------------------

  datatype Effect =
    | NoService
    | ReducedService
    | SignificantDelays
    | Detour
    | AdditionalService
    | ModifiedService
    | OtherEffect
    | UnknownEffect
    | StopMoved

  /** `to_string(Effect)` */
  function EffectName(e: Effect): string {
    match e
    case NoService => "NO_SERVICE"
    case ReducedService => "REDUCED_SERVICE"
    case SignificantDelays => "SIGNIFICANT_DELAYS"
    case Detour => "DETOUR"
    case AdditionalService => "ADDITIONAL_SERVICE"
    case ModifiedService => "MODIFIED_SERVICE"
    case OtherEffect => "OTHER_EFFECT"
    case UnknownEffect => "UNKNOWN_EFFECT"
    case StopMoved => "STOP_MOVED"
  }

  const UnhandledEffect: string := "unhandled effect case"

  /** `from_string`: the effect whose name is `s`; any other string raises
      "unhandled effect case". */
  function EffectFromString(s: string): (r: Result<Effect, string>)
    ensures r.Ok? ==> EffectName(r.value) == s
    ensures r.Err? ==> r.error == UnhandledEffect
  {
    if s == "NO_SERVICE" then Ok(NoService)
    else if s == "REDUCED_SERVICE" then Ok(ReducedService)
    else if s == "SIGNIFICANT_DELAYS" then Ok(SignificantDelays)
    else if s == "DETOUR" then Ok(Detour)
    else if s == "ADDITIONAL_SERVICE" then Ok(AdditionalService)
    else if s == "MODIFIED_SERVICE" then Ok(ModifiedService)
    else if s == "OTHER_EFFECT" then Ok(OtherEffect)
    else if s == "UNKNOWN_EFFECT" then Ok(UnknownEffect)
    else if s == "STOP_MOVED" then Ok(StopMoved)
    else Err(UnhandledEffect)
  }

  /** Every effect survives the trip through its name, and a string that is
      no effect's name is refused. */
  lemma EffectRoundTrip(e: Effect, s: string)
    ensures EffectFromString(EffectName(e)) == Ok(e)
    ensures (forall x: Effect :: EffectName(x) != s) ==> EffectFromString(s).Err?
  {
  }

  lemma EffectNameInjective(a: Effect, b: Effect)
    ensures EffectName(a) == EffectName(b) ==> a == b
  {
    EffectRoundTrip(a, "");
    EffectRoundTrip(b, "");
  }

  // ---- channel types -----------------------------------------------------

  datatype ChannelType =
    | Web | Sms | Email | Mobile | Notification | Twitter | Facebook
    | UnknownType | Title | Beacon

  /** `to_string(ChannelType)` */
  function ChannelName(c: ChannelType): string {
    match c
    case Web => "web"
    case Sms => "sms"
    case Email => "email"
    case Mobile => "mobile"
    case Notification => "notification"
    case Twitter => "twitter"
    case Facebook => "facebook"
    case UnknownType => "unknown_type"
    case Title => "title"
    case Beacon => "beacon"
  }

  /** Distinct channel types render as distinct strings. */
  lemma ChannelNameInjective(a: ChannelType, b: ChannelType)
    ensures a != b ==> ChannelName(a) != ChannelName(b)
  {
  }

  // ---- properties --------------------------------------------------------

  datatype Property = Property(key: string, kind: string, value: string)

  /** `Property::operator<`: compare keys, then types, then values. */
  predicate PropertyLess(a: Property, b: Property) {
    if a.key != b.key then Less(a.key, b.key)
    else if a.kind != b.kind then Less(a.kind, b.kind)
    else Less(a.value, b.value)
  }

  /** The property order is a strict total order, so a `std::set<Property>`
      keeps one copy of each distinct property. */
  lemma PropertyLessStrictTotal(a: Property, b: Property, c: Property)
    ensures !PropertyLess(a, a)
    ensures PropertyLess(a, b) ==> !PropertyLess(b, a)
    ensures PropertyLess(a, b) && PropertyLess(b, c) ==> PropertyLess(a, c)
    ensures a != b ==> PropertyLess(a, b) || PropertyLess(b, a)
  {
    StrictTotal(a.key, b.key, c.key);
    StrictTotal(a.kind, b.kind, c.kind);
    StrictTotal(a.value, b.value, c.value);
  }

  // ---- stop-time updates -------------------------------------------------

  /** Ordered from least to most important. */
  datatype Status = Unchanged | Added | AddedForDetour | Deleted | DeletedForDetour | Delayed

  /** The underlying `uint8_t` value of a status. */
  function StatusValue(s: Status): nat {
    match s
    case Unchanged => 0
    case Added => 1
    case AddedForDetour => 2
    case Deleted => 3
    case DeletedForDetour => 4
    case Delayed => 5
  }

  /** `operator<(Status, Status)`: compare the underlying values. */
  predicate StatusLess(a: Status, b: Status) {
    StatusValue(a) < StatusValue(b)
  }

  /** Statuses are totally ordered in declaration order: UNCHANGED is the
      least and DELAYED the greatest. */
  lemma StatusOrder(a: Status, b: Status)
    ensures a != b ==> StatusLess(a, b) != StatusLess(b, a)
    ensures !StatusLess(a, a)
    ensures a != Unchanged ==> StatusLess(Unchanged, a)
    ensures a != Delayed ==> StatusLess(a, Delayed)
    ensures StatusLess(Added, AddedForDetour) && StatusLess(AddedForDetour, Deleted)
    ensures StatusLess(Deleted, DeletedForDetour)
  {
  }

  datatype StopTimeUpdate = StopTimeUpdate(
    stopTime: StopTime,
    cause: string,
    departureStatus: Status,
    arrivalStatus: Status)

  // ---- impacts and disruptions ------------------------------------------

  /** A `time_period` in seconds since the epoch: `[begin, end)`. */
  datatype Period = Period(begin: int, end: int)

  /** The calendar day (days since the epoch) on which a period starts. */
  function StartDay(p: Period): int {
    p.begin / SecondsPerDay
  }

  /** A line section: the stops of `line` from one stop area to another,
      restricted to some routes. */
  datatype LineSection = LineSection(line: string, startPoint: string, endPoint: string, routes: seq<string>)

  /** The informed entity of an impact. */
  datatype PtObj =
    | UnknownPtObj
    | NetworkObj(network: string)
    | StopAreaObj(stopArea: string)
    | StopPointObj(stopPoint: string)
    | LineSectionObj(section: LineSection)
    | LineObj(line: string)
    | RouteObj(route: string)
    | MetaVjObj(metaVj: string)

  /** An impact; `effect` is its severity's effect and `stopTimes` the
      replacement stop times of its auxiliary information. */
  datatype Impact = Impact(
    uri: string,
    companyId: string,
    updatedAt: int,
    periods: seq<Period>,
    effect: Effect,
    stopTimes: seq<StopTimeUpdate>,
    disruption: string,
    entities: seq<PtObj>)

  datatype Disruption = Disruption(uri: string, rtLevel: RTLevel, impacts: seq<ImpactId>)

  /** The registry: disruptions by uri, and the weak references to every
      impact ever added. */
  datatype DisruptionHolder = DisruptionHolder(
    disruptions: map<string, Disruption>,
    weakImpacts: seq<ImpactId>)

  /** `nb_disruptions()` */
  function NbDisruptions(h: DisruptionHolder): (n: nat)
    ensures n == |h.disruptions.Keys|
  {
    |h.disruptions|
  }

  /** `pop_disruption(uri)`: take the disruption out of the registry and hand
      it to the caller; nothing when no disruption has that uri. */
  function PopDisruption(h: DisruptionHolder, uri: string): (r: (Option<Disruption>, DisruptionHolder))
    ensures r.0.Some? <==> uri in h.disruptions
    ensures r.0.Some? ==> r.0.value == h.disruptions[uri]
    ensures r.1.disruptions.Keys == h.disruptions.Keys - {uri}
    ensures forall k :: k in r.1.disruptions ==> r.1.disruptions[k] == h.disruptions[k]
    ensures r.1.weakImpacts == h.weakImpacts
    ensures NbDisruptions(r.1) == NbDisruptions(h) - (if uri in h.disruptions then 1 else 0)
  {
    if uri in h.disruptions then
      (Some(h.disruptions[uri]), h.(disruptions := h.disruptions - {uri}))
    else
      (None, h)
  }

  /** `clean_weak_impacts()`: forget the references to impacts that are gone. */
  function CleanWeakImpacts(h: DisruptionHolder, live: set<ImpactId>): (r: DisruptionHolder)
    ensures r.disruptions == h.disruptions
    ensures forall i :: i in r.weakImpacts <==> i in h.weakImpacts && i in live
  {
    h.(weakImpacts := Keep(h.weakImpacts, live))
  }

  function Keep(xs: seq<ImpactId>, live: set<ImpactId>): (r: seq<ImpactId>)
    ensures forall i :: i in r <==> i in xs && i in live
    ensures |r| <= |xs|
    ensures (forall i :: i in xs ==> i in live) ==> r == xs
  {
    if |xs| == 0 then []
    else if xs[0] in live then [xs[0]] + Keep(xs[1..], live)
    else Keep(xs[1..], live)
  }

  /** A vehicle journey hit by a line section: the journey before the impact,
      the days its replacement runs, and the stops the section closes. */
  datatype ImpactedVJ = ImpactedVJ(vj: VjId, newVp: set<int>, impactedStops: set<string>)
}
