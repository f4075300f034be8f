/** Request handling in the administration API (tyr): checking a POI type
    configuration, the traveler-type guard, the user shape update, the
    instance and user listings and the dataset deletion. Database access
    enters as data or as function parameters. */
module TyrResources {
  import opened Wrappers
  import opened Sequences

  /** An HTTP error reply: its status and message. */
  datatype ApiError = ApiError(status: int, message: string)

  /** Python's `'{}'.format(x)` of a value that may be None. */
  function Show(x: Option<string>): string {
    if x.Some? then x.value else "None"
  }

  // ---- POI type configuration --------------------------------------------------

  /** One entry of `poi_types` and one of `rules`, as `p.get(...)` sees
      them: a missing key is None. */
  datatype PoiTypeEntry = PoiTypeEntry(id: Option<string>, name: Option<string>)
  datatype Rule = Rule(poiTypeId: Option<string>)
  datatype PoiTypeConf = PoiTypeConf(poiTypes: seq<PoiTypeEntry>, rules: seq<Rule>)

  const Parking := "amenity:parking"
  const BicycleRental := "amenity:bicycle_rental"
  const MissingRequired := "The 2 POI types id=amenity:parking and id=amenity:bicycle_rental must be defined"

  /** Some entry has the id. */
  predicate Defines(ps: seq<PoiTypeEntry>, id: Option<string>) {
    exists i :: 0 <= i < |ps| && ps[i].id == id
  }

  /** No two entries share an id. */
  predicate UniqueIds(ps: seq<PoiTypeEntry>) {
    forall i, j :: 0 <= i < j < |ps| ==> ps[i].id != ps[j].id
  }

  /** None of the entries' ids is already a key of `acc`. */
  predicate AllNew(ps: seq<PoiTypeEntry>, acc: map<Option<string>, Option<string>>) {
    forall i :: 0 <= i < |ps| ==> ps[i].id !in acc
  }

  /** The loop building `poi_types_map`: the first id met a second time
      aborts with 400; otherwise each id maps to its name, a later entry
      never overwriting (there is none with the same id). */
  function PoiTypesMap(ps: seq<PoiTypeEntry>, acc: map<Option<string>, Option<string>>): (r: Result<map<Option<string>, Option<string>>, ApiError>)
    ensures r.Ok? <==> UniqueIds(ps) && AllNew(ps, acc)
    ensures r.Ok? ==> forall k :: k in r.value <==> k in acc || Defines(ps, k)
    ensures r.Ok? ==> forall i :: 0 <= i < |ps| ==> ps[i].id in r.value && r.value[ps[i].id] == ps[i].name
    ensures r.Ok? ==> forall k :: k in acc ==> r.value[k] == acc[k]
    ensures r.Err? ==>
      (r.error.status == 400
       && exists i :: 0 <= i < |ps| && r.error.message == "POI type id " + Show(ps[i].id) + " is defined multiple times")
    decreases |ps|
  {
    if |ps| == 0 then Ok(acc)
    else if ps[0].id in acc then
      Err(ApiError(400, "POI type id " + Show(ps[0].id) + " is defined multiple times"))
    else
      var acc' := acc[ps[0].id := ps[0].name];
      var r := PoiTypesMap(ps[1..], acc');
      UniqueStep(ps, acc);
      if r.Err? then
        var k :| 0 <= k < |ps[1..]| && r.error.message == "POI type id " + Show(ps[1..][k].id) + " is defined multiple times";
        assert ps[k + 1] == ps[1..][k];
        r
      else
        assert forall i :: 1 <= i < |ps| ==> ps[i] == ps[1..][i - 1];
        r
  }

  /** One step of the loop: the rest is unique and new for the extended
      map exactly when the whole is unique and new for the original. */
  lemma UniqueStep(ps: seq<PoiTypeEntry>, acc: map<Option<string>, Option<string>>)
    requires |ps| > 0 && ps[0].id !in acc
    ensures UniqueIds(ps) && AllNew(ps, acc)
        <==> UniqueIds(ps[1..]) && AllNew(ps[1..], acc[ps[0].id := ps[0].name])
  {
    var acc' := acc[ps[0].id := ps[0].name];
    if UniqueIds(ps[1..]) && AllNew(ps[1..], acc') {
      forall i, j | 0 <= i < j < |ps| ensures ps[i].id != ps[j].id {
        assert ps[j] == ps[1..][j - 1];
        if i > 0 { assert ps[i] == ps[1..][i - 1]; }
      }
      forall i | 0 <= i < |ps| ensures ps[i].id !in acc {
        if i > 0 { assert ps[i] == ps[1..][i - 1]; }
      }
    }
    if UniqueIds(ps) && AllNew(ps, acc) {
      forall i | 0 <= i < |ps[1..]| ensures ps[1..][i].id !in acc' {
        assert ps[1..][i] == ps[i + 1];
        assert ps[0].id != ps[i + 1].id;
      }
    }
  }

  /** The first rule naming an undefined POI type, if any. */
  function UndefinedRule(rules: seq<Rule>, defined: set<Option<string>>): (r: Option<nat>)
    ensures r.None? <==> forall i :: 0 <= i < |rules| ==> rules[i].poiTypeId in defined
    ensures r.Some? ==>
      (r.value < |rules| && rules[r.value].poiTypeId !in defined
       && forall i :: 0 <= i < r.value ==> rules[i].poiTypeId in defined)
  {
    if |rules| == 0 then None
    else if rules[0].poiTypeId !in defined then Some(0)
    else
      var r := UndefinedRule(rules[1..], defined);
      assert forall i :: 1 <= i < |rules| ==> rules[i] == rules[1..][i - 1];
      if r.None? then None else Some(r.value + 1)
  }

  /** `PoiType.post` once the body is JSON: the schema check (its verdict
      given as `schemaError`), then unique ids, then the two required
      types, then every rule's type defined. Ok carries the id-to-name map
      of the configuration that is stored. */
  function CheckPoiTypes(conf: PoiTypeConf, schemaError: Option<string>): (r: Result<map<Option<string>, Option<string>>, ApiError>)
    ensures r.Ok? <==>
      (schemaError.None? && UniqueIds(conf.poiTypes)
       && Defines(conf.poiTypes, Some(Parking)) && Defines(conf.poiTypes, Some(BicycleRental))
       && forall i :: 0 <= i < |conf.rules| ==> Defines(conf.poiTypes, conf.rules[i].poiTypeId))
    ensures r.Err? ==> r.error.status == 400
    ensures schemaError.Some? ==> r == Err(ApiError(400, schemaError.value))
    ensures schemaError.None? && UniqueIds(conf.poiTypes)
      && !(Defines(conf.poiTypes, Some(Parking)) && Defines(conf.poiTypes, Some(BicycleRental)))
      ==> r == Err(ApiError(400, MissingRequired))
    ensures r.Ok? ==> forall k :: k in r.value <==> Defines(conf.poiTypes, k)
    ensures r.Ok? ==> forall i :: 0 <= i < |conf.poiTypes| ==> conf.poiTypes[i].id in r.value && r.value[conf.poiTypes[i].id] == conf.poiTypes[i].name
  {
    if schemaError.Some? then Err(ApiError(400, schemaError.value))
    else
      var m := PoiTypesMap(conf.poiTypes, map[]);
      if m.Err? then Err(m.error)
      else if Some(Parking) !in m.value || Some(BicycleRental) !in m.value then
        Err(ApiError(400, MissingRequired))
      else
        var bad := UndefinedRule(conf.rules, m.value.Keys);
        if bad.Some? then
          Err(ApiError(400, "Using an undefined POI type id (" + Show(conf.rules[bad.value].poiTypeId) + ") forbidden in rules"))
        else Ok(m.value)
  }

  /** A configuration defining the same id twice is refused, whatever
      else it holds. */
  lemma DuplicateIdRefused(conf: PoiTypeConf, i: nat, j: nat)
    requires i < j < |conf.poiTypes| && conf.poiTypes[i].id == conf.poiTypes[j].id
    ensures CheckPoiTypes(conf, None).Err?
    ensures CheckPoiTypes(conf, None).error.status == 400
  {
  }

  // ---- traveler profiles ----------------------------------------------------------

  datatype Guarded<T> = Called(value: T) | Refused(error: ApiError)

  /** `check_resources`: the wrapped handler runs only for an acceptable
      traveler type; anything else, a missing one included, is a 400 whose
      message names the type and the accepted list (its rendering given as
      `listText`). */
  function CheckResources<T>(travelerType: Option<string>, acceptable: seq<string>, listText: string,
                             handler: Option<string> -> T): (r: Guarded<T>)
    ensures r.Called? <==> travelerType.Some? && travelerType.value in acceptable
    ensures r.Called? ==> r.value == handler(travelerType)
    ensures r.Refused? ==>
      (r.error.status == 400
       && r.error.message == "traveler profile: " + Show(travelerType) + " is not one of in " + listText)
  {
    if travelerType.Some? && travelerType.value in acceptable then Called(handler(travelerType))
    else Refused(ApiError(400, "traveler profile: " + Show(travelerType) + " is not one of in " + listText))
  }

  // ---- user shape -------------------------------------------------------------------

  /** A user's shape: none (JSON null), the empty object, or a GeoJSON
      geometry (kept as its text). */
  datatype Shape = NullShape | EmptyObject | Geometry(geojson: string)

  /** `User.put`'s new shape: an absent argument defaults to the stored
      shape, and the empty object keeps the stored shape too. */
  function PutShape(given: Option<Shape>, stored: Shape): (r: Shape)
    ensures given.None? || given == Some(EmptyObject) ==> r == stored
    ensures given.Some? && given.value != EmptyObject ==> r == given.value
  {
    match given
    case None => stored
    case Some(EmptyObject) => stored
    case Some(s) => s
  }

  /** What GET shows of a shape: the shape, or the empty object when
      geometries are hidden from the response and there is one. */
  function ShownShape(stored: Shape, hideGeometry: bool): Shape {
    if hideGeometry && stored.Geometry? then EmptyObject else stored
  }

  /** Giving back to PUT the shape GET showed changes nothing, hidden or
      not; and only the empty object is read as "keep". */
  lemma GetThenPutKeepsShape(stored: Shape, hideGeometry: bool)
    ensures PutShape(Some(ShownShape(stored, hideGeometry)), stored) == stored
    ensures forall s :: s != EmptyObject ==> PutShape(Some(s), stored) == s
  {
  }

  // ---- listings -----------------------------------------------------------------------

  datatype Instance = Instance(id: int, name: string, isFree: bool, discarded: bool)

  /** One `filter_by` criterion: None does not filter. */
  predicate Matches<T(==)>(criterion: Option<T>, value: T) {
    criterion.None? || criterion.value == value
  }

  predicate InstanceSelected(i: Instance, isFree: Option<bool>, id: Option<int>, name: Option<string>) {
    !i.discarded && Matches(isFree, i.isFree) && Matches(id, i.id) && Matches(name, i.name)
  }

  /** `Instance.get`: the instances not discarded (`query_existing`),
      filtered on every argument that is not None, in the stored order. */
  function GetInstances(all: seq<Instance>, isFree: Option<bool>, id: Option<int>, name: Option<string>): (r: seq<Instance>)
    ensures forall x :: x in r <==> x in all && InstanceSelected(x, isFree, id, name)
    ensures |r| <= |all|
    ensures IsSubseq(r, all)
    ensures NoDup(all) ==> NoDup(r)
  {
    if |all| == 0 then []
    else
      var rest := GetInstances(all[1..], isFree, id, name);
      if InstanceSelected(all[0], isFree, id, name) then
        assert ([all[0]] + rest)[1..] == rest;
        SubseqNoDup([all[0]] + rest, all);
        [all[0]] + rest
      else
        SubseqNoDup(rest, all);
        rest
  }

  /** With no argument every existing instance is listed; `is_free=false`
      is a criterion (it is not None) and lists the private ones only. */
  lemma {:induction false} InstanceFilters(all: seq<Instance>)
    ensures forall x :: x in GetInstances(all, None, None, None) <==> x in all && !x.discarded
    ensures forall x :: x in GetInstances(all, Some(false), None, None) <==> x in all && !x.discarded && !x.isFree
  {
  }

  datatype User = User(login: string, email: string, key: string, endPointId: int, blockUntil: Option<int>)

  /** The listing arguments of `User.get`. */
  datatype UserQuery = UserQuery(login: Option<string>, email: Option<string>, key: Option<string>,
                                 endPointId: Option<int>, blockUntil: Option<int>)

  /** Python truthiness of an argument: None, "" and 0 are false. */
  predicate TruthyText(x: Option<string>) {
    x.Some? && x.value != ""
  }

  predicate TruthyInt(x: Option<int>) {
    x.Some? && x.value != 0
  }

  /** One truthy-filter criterion: a falsy argument does not filter. */
  predicate TextMatches(criterion: Option<string>, value: string) {
    !TruthyText(criterion) || criterion.value == value
  }

  predicate IntMatches(criterion: Option<int>, value: int) {
    !TruthyInt(criterion) || criterion.value == value
  }

  predicate UserSelected(u: User, q: UserQuery) {
    TextMatches(q.login, u.login) && TextMatches(q.email, u.email)
    && IntMatches(q.endPointId, u.endPointId)
    && (q.blockUntil.None? || u.blockUntil == q.blockUntil)
  }

  /** `User.get` without a user id: a truthy `key` looks the users up by
      token (`fromToken`, the token table as of now); otherwise the users
      are filtered on every truthy argument. */
  function GetUsers(all: seq<User>, q: UserQuery, fromToken: string -> seq<User>): (r: seq<User>)
    ensures TruthyText(q.key) ==> r == fromToken(q.key.value)
    ensures !TruthyText(q.key) ==> forall u :: u in r <==> u in all && UserSelected(u, q)
  {
    if TruthyText(q.key) then fromToken(q.key.value)
    else FilterUsers(all, q)
  }

  function FilterUsers(all: seq<User>, q: UserQuery): (r: seq<User>)
    ensures forall u :: u in r <==> u in all && UserSelected(u, q)
  {
    if |all| == 0 then []
    else
      var rest := FilterUsers(all[1..], q);
      if UserSelected(all[0], q) then [all[0]] + rest else rest
  }

  /** Unlike the instance listing, an empty or zero argument is no
      criterion at all: `email=""` or `end_point_id=0` lists every user. A
      `block_until` argument is a datetime, which is always truthy, so it
      filters whatever its value. */
  lemma UserFalsyArgumentsIgnored(all: seq<User>, fromToken: string -> seq<User>)
    ensures forall u :: u in GetUsers(all, UserQuery(None, Some(""), None, Some(0), None), fromToken) <==> u in all
    ensures forall u :: u in GetUsers(all, UserQuery(None, None, None, None, Some(0)), fromToken) <==>
                        u in all && u.blockUntil == Some(0)
  {
  }

  // ---- dataset deletion -----------------------------------------------------------------

  datatype Reply = Reply(action: string, status: int)

  /** `DeleteDataset.delete`: `deleted` is what the instance's
      `delete_dataset` returns (the count of datasets removed), asked only
      when the instance exists. */
  function DeleteDataset(instanceName: string, kind: string, instance: Option<Instance>, deleted: Instance -> nat): (r: Reply)
    ensures r.status == 404 <==> instance.None?
    ensures r.status == 200 <==> instance.Some?
    ensures instance.None? ==> r.action == "No instance found for : " + instanceName
    ensures instance.Some? && deleted(instance.value) > 0 ==>
      r.action == "All " + kind + " datasets deleted for instance " + instanceName
    ensures instance.Some? && deleted(instance.value) == 0 ==>
      r.action == "No " + kind + " dataset to be deleted for instance " + instanceName
  {
    if instance.Some? then
      if deleted(instance.value) > 0 then Reply("All " + kind + " datasets deleted for instance " + instanceName, 200)
      else Reply("No " + kind + " dataset to be deleted for instance " + instanceName, 200)
    else Reply("No instance found for : " + instanceName, 404)
  }
}
