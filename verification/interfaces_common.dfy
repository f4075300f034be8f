/** Request parameters shared by the journey and places interfaces: the
    on-demand-transport levels and the extra POI information to add. */
module InterfacesCommon {
  import opened PtRefRequest

  /** `odt_levels`: the level names a request may give. */
  const OdtLevels: set<string> := {"scheduled", "with_stops", "zonal", "all"}

  /** `pb_odt_level`: each name to the level sent to the backend. */
  const PbOdtLevel: map<string, OdtLevel> :=
    map["scheduled" := Scheduled, "with_stops" := WithStops, "zonal" := Zonal, "all" := AnyLevel]

  /** The accepted names are exactly the ones with a backend level, each
      is the name the backend gives that level, and every level has one. */
  lemma OdtLevelsAgree()
    ensures PbOdtLevel.Keys == OdtLevels
    ensures forall k :: k in PbOdtLevel ==> OdtLevelName(PbOdtLevel[k]) == k
    ensures forall k :: k in PbOdtLevel ==> OdtLevelFromString(k) == PbOdtLevel[k]
    ensures forall l: OdtLevel :: OdtLevelName(l) in PbOdtLevel && PbOdtLevel[OdtLevelName(l)] == l
  {
    assert PbOdtLevel.Keys == OdtLevels by {
      assert forall k :: k in PbOdtLevel <==> k in OdtLevels;
    }
  }

  const BssStands := "bss_stands"
  const CarPark := "car_park"

  /** `add_poi_infos_types`: the accepted values; the empty string and
      "none" switch every extra information off. */
  const AddPoiInfosTypes: seq<string> := [BssStands, CarPark, "", "none"]

  function Count(xs: seq<string>, x: string): nat {
    multiset(xs)[x]
  }

  /** `handle_poi_infos`: the deprecated `bss_stands` flag adds
      "bss_stands" to the requested informations unless it is there, and the
      result says whether any information the places serializer knows is
      requested. */
  function HandlePoiInfos(infos: seq<string>, bssStands: bool): (r: (seq<string>, bool))
    ensures infos <= r.0 && |r.0| <= |infos| + 1
    ensures BssStands in r.0 <==> bssStands || BssStands in infos
    ensures Count(r.0, BssStands) == if bssStands && BssStands !in infos then 1 else Count(infos, BssStands)
    ensures forall x :: x != BssStands ==> Count(r.0, x) == Count(infos, x)
    ensures r.1 <==> BssStands in r.0 || CarPark in r.0
  {
    var updated := if bssStands && BssStands !in infos then infos + [BssStands] else infos;
    (updated, BssStands in updated || CarPark in updated)
  }

  /** Handling the parameters twice is handling them once. */
  lemma HandlePoiInfosIdempotent(infos: seq<string>, bssStands: bool)
    ensures HandlePoiInfos(HandlePoiInfos(infos, bssStands).0, bssStands) == HandlePoiInfos(infos, bssStands)
  {
  }

  /** "bss_stands" is never listed twice unless the caller already did. */
  lemma NeverDuplicated(infos: seq<string>, bssStands: bool)
    requires Count(infos, BssStands) <= 1
    ensures Count(HandlePoiInfos(infos, bssStands).0, BssStands) <= 1
  {
  }
}
