/** Turning geocoding features (GeocodeJSON, as returned by the Bragi
    autocompletion service) into places: coordinates, administrative
    regions, comments, the list of places and the list of feed publishers. */
module GeocodeJson {
  import opened Wrappers
  import opened Text
  import opened StringOrder
  import opened PtRefGrammar
  import opened PtRefEval

  datatype Comment = Comment(name: Option<string>)

  datatype FeedPublisher = FeedPublisher(id: string, name: string, license: string, url: string)

  /** What the model reads of a feature: `geometry.coordinates` and, under
      `properties.geocoding`, the type, the feed publishers and the
      comments. A missing key is None. */
  datatype Feature = Feature(
    coords: Option<seq<real>>,
    kind: Option<string>,
    feedPublishers: Option<seq<FeedPublisher>>,
    comments: Option<seq<Comment>>)

  // ---- coordinates -----------------------------------------------------------

  /** The coordinates are there: a list of at least two numbers, longitude
      first. */
  predicate HasPoint(coords: Option<seq<real>>) {
    coords.Some? && |coords.value| >= 2
  }

  datatype CoordText = CoordText(lat: Option<string>, lon: Option<string>)

  /** `CoordField`: latitude and longitude as text (Python's `str` on a
      number, given as `str`), both null without a point. */
  function CoordField(coords: Option<seq<real>>, str: real -> string): (r: CoordText)
    ensures r.lat.Some? <==> HasPoint(coords)
    ensures r.lon.Some? <==> HasPoint(coords)
    ensures HasPoint(coords) ==> r.lat == Some(str(coords.value[1])) && r.lon == Some(str(coords.value[0]))
  {
    if HasPoint(coords) then CoordText(Some(str(coords.value[1])), Some(str(coords.value[0])))
    else CoordText(None, None)
  }

  /** `CoordId`: the point as "lon;lat" (`'{}'.format` on each number,
      given as `fmt`), or null. */
  function CoordId(coords: Option<seq<real>>, fmt: real -> string): (r: Option<string>)
    ensures r.Some? <==> HasPoint(coords)
  {
    if HasPoint(coords) then Some(fmt(coords.value[0]) + ";" + fmt(coords.value[1])) else None
  }

  /** When the two number renderings agree, the id is the coordinate
      field's longitude and latitude joined by ';'. */
  lemma CoordIdIsCoordField(coords: Option<seq<real>>, str: real -> string, fmt: real -> string)
    requires HasPoint(coords) ==>
      str(coords.value[0]) == fmt(coords.value[0]) && str(coords.value[1]) == fmt(coords.value[1])
    ensures CoordId(coords, fmt).Some? <==> CoordField(coords, str).lon.Some?
    ensures CoordId(coords, fmt).Some? ==>
      CoordId(coords, fmt).value == CoordField(coords, str).lon.value + ";" + CoordField(coords, str).lat.value
  {
  }

  /** An address id is a point that the `within` filter of the public
      transport referential reads back as the same coordinates. */
  lemma CoordIdReadBack(coords: Option<seq<real>>, fmt: real -> string, dist: string, toNumber: string -> Option<real>)
    requires HasPoint(coords)
    requires ';' !in fmt(coords.value[0]) && ';' !in fmt(coords.value[1])
    requires toNumber(fmt(coords.value[0])) == Some(coords.value[0])
    requires toNumber(fmt(coords.value[1])) == Some(coords.value[1])
    requires toNumber(dist).Some?
    ensures WithinArgs([dist, CoordId(coords, fmt).value], toNumber)
      == Ok((toNumber(dist).value, Coord(coords.value[0], coords.value[1])))
  {
    WithinPointRoundTrip(dist, fmt(coords.value[0]), fmt(coords.value[1]), toNumber);
  }

  // ---- administrative regions --------------------------------------------------

  predicate AllEmpty(codes: seq<string>) {
    forall i :: 0 <= i < |codes| ==> codes[i] == ""
  }

  /** The `zip_code` of an administrative region as written: left out when
      every code is empty, the code itself when there is one, and else
      "min-max" of all the codes. */
  function ZipCodeAsWritten(codes: seq<string>): (r: Option<string>)
    ensures r.None? <==> AllEmpty(codes)
    ensures |codes| == 1 && r.Some? ==> r.value == codes[0]
    ensures |codes| >= 2 && r.Some? ==>
      exists lo, hi :: lo in codes && hi in codes && r.value == lo + "-" + hi
        && forall k :: 0 <= k < |codes| ==> LessEq(lo, codes[k]) && LessEq(codes[k], hi)
  {
    if AllEmpty(codes) then None
    else if |codes| == 1 then Some(codes[0])
    else Some(Min(codes) + "-" + Max(codes))
  }

  /** An empty code next to a real one gives a range with no lower end. */
  lemma ZipCodeEmptyLowerEnd()
    ensures ZipCodeAsWritten(["", "75001"]) == Some("-75001")
  {
    var codes := ["", "75001"];
    assert !AllEmpty(codes) by { assert codes[1] != ""; }
    var lo, hi := Min(codes), Max(codes);
    assert LessEq(lo, "");
    assert lo == "";
    assert LessEq("75001", hi);
    assert hi != "" by {
      assert !LessEq("75001", "");
    }
    assert ZipCodeAsWritten(codes) == Some(lo + "-" + hi);
    assert lo + "-" + hi == "-75001";
  }

  function NonEmpty(codes: seq<string>): (r: seq<string>)
    ensures forall i :: 0 <= i < |r| ==> r[i] != "" && r[i] in codes
    ensures forall i :: 0 <= i < |codes| && codes[i] != "" ==> codes[i] in r
    ensures |r| == 0 <==> AllEmpty(codes)
  {
    if |codes| == 0 then []
    else if codes[0] == "" then NonEmpty(codes[1..])
    else [codes[0]] + NonEmpty(codes[1..])
  }

  /** The zip code with empty codes ignored, as the all-empty test means:
      the range runs between real codes. */
  function ZipCode(codes: seq<string>): (r: Option<string>)
    ensures r.None? <==> AllEmpty(codes)
  {
    ZipCodeAsWritten(NonEmpty(codes))
  }

  /** The corrected range has real codes at both ends, the smallest and
      the largest, and a single real code stands alone. */
  lemma ZipCodeBounds(codes: seq<string>)
    ensures |NonEmpty(codes)| == 1 ==> ZipCode(codes) == Some(NonEmpty(codes)[0])
    ensures |NonEmpty(codes)| >= 2 ==> exists lo, hi ::
      ZipCode(codes) == Some(lo + "-" + hi) && lo != "" && hi != "" && lo in codes && hi in codes
      && (forall i :: 0 <= i < |codes| && codes[i] != "" ==> LessEq(lo, codes[i]) && LessEq(codes[i], hi))
  {
    var ne := NonEmpty(codes);
    if |ne| >= 2 {
      assert !AllEmpty(ne) by { assert ne[0] != ""; }
      var lo, hi := Min(ne), Max(ne);
      assert ZipCode(codes) == Some(lo + "-" + hi);
      forall i | 0 <= i < |codes| && codes[i] != ""
        ensures LessEq(lo, codes[i]) && LessEq(codes[i], hi)
      {
        var k :| 0 <= k < |ne| && ne[k] == codes[i];
      }
    }
  }

  datatype Admin = Admin(
    id: Option<string>, insee: Option<string>, name: string, labelText: Option<string>,
    level: int, lat: Option<string>, lon: Option<string>, zipCode: Option<string>)

  /** Python's `s.replace(pat, "")`: every occurrence of `pat`, scanning
      from the left without overlap, removed. */
  function RemoveAll(s: string, pat: string): (r: string)
    requires |pat| > 0
    ensures |r| <= |s|
    decreases |s|
  {
    if |s| < |pat| then s
    else if pat <= s then RemoveAll(s[|pat|..], pat)
    else [s[0]] + RemoveAll(s[1..], pat)
  }

  /** An administrative region of the older `admin` form, a map from
      "levelN" to a name: the level is the key without "level" read as an
      integer, and the other fields are null. None is the `ValueError` a
      key that is not a number raises. */
  function LegacyAdmin(key: string, name: string): (r: Option<Admin>)
    ensures r.Some? <==> ParseInt(RemoveAll(key, "level")).Some?
    ensures r.Some? ==> r.value.level == ParseInt(RemoveAll(key, "level")).value && r.value.name == name
    ensures r.Some? ==>
      (r.value.id.None? && r.value.insee.None? && r.value.labelText.None?
       && r.value.lat.None? && r.value.lon.None? && r.value.zipCode.None?)
  {
    var level := ParseInt(RemoveAll(key, "level"));
    if level.None? then None
    else Some(Admin(None, None, name, None, level.value, None, None, None))
  }

  /** Every entry of the older form in order; one bad key fails them all. */
  function LegacyAdmins(entries: seq<(string, string)>): (r: Option<seq<Admin>>)
    ensures r.Some? <==> forall i :: 0 <= i < |entries| ==> LegacyAdmin(entries[i].0, entries[i].1).Some?
    ensures r.Some? ==>
      (|r.value| == |entries|
       && forall i :: 0 <= i < |entries| ==> Some(r.value[i]) == LegacyAdmin(entries[i].0, entries[i].1))
  {
    if |entries| == 0 then Some([])
    else
      var head := LegacyAdmin(entries[0].0, entries[0].1);
      var tail := LegacyAdmins(entries[1..]);
      if head.None? || tail.None? then None
      else
        assert forall i :: 1 <= i < |entries| ==> entries[i] == entries[1..][i - 1];
        Some([head.value] + tail.value)
  }

  /** A digit string has nothing to remove. */
  lemma {:induction false} RemoveFromDigits(d: string)
    requires AllDigits(d)
    ensures RemoveAll(d, "level") == d
    decreases |d|
  {
    if |d| >= 5 {
      assert d[0] != 'l';
      assert !("level" <= d);
      RemoveFromDigits(d[1..]);
      assert [d[0]] + d[1..] == d;
    }
  }

  /** The key "levelN" names level N. */
  lemma LevelKeyRoundTrip(n: nat, name: string)
    ensures LegacyAdmin("level" + NatToString(n), name).Some?
    ensures LegacyAdmin("level" + NatToString(n), name).value.level == n
  {
    var d := NatToString(n);
    assert ("level" + d)[|"level"|..] == d;
    assert "level" <= "level" + d;
    RemoveFromDigits(d);
    ParseRendered(n);
  }

  // ---- stop area comment ---------------------------------------------------------

  /** `get_comment`: the name of the first comment, kept for clients of the
      older single `comment` field; null without comments. */
  function GetComment(comments: Option<seq<Comment>>): (r: Option<string>)
    ensures comments.None? || comments.value == [] ==> r.None?
    ensures comments.Some? && comments.value != [] ==> r == comments.value[0].name
  {
    if comments.Some? && |comments.value| > 0 then comments.value[0].name else None
  }

  // ---- places --------------------------------------------------------------------

  /** The serializers of the geocoding types. */
  datatype Serializer = GeocodeAdmin | GeocodeAddress | GeocodePoi | GeocodeStopArea

  const MapSerializer: map<string, Serializer> := map[
    "city" := GeocodeAdmin,
    "administrative_region" := GeocodeAdmin,
    "street" := GeocodeAddress,
    "house" := GeocodeAddress,
    "poi" := GeocodePoi,
    "public_transport:stop_area" := GeocodeStopArea]

  /** The `embedded_type` each serializer writes. */
  function EmbeddedType(s: Serializer): string {
    match s
    case GeocodeAdmin => "administrative_region"
    case GeocodeAddress => "address"
    case GeocodePoi => "poi"
    case GeocodeStopArea => "stop_area"
  }

  /** Cities and regions both come out as administrative regions, streets
      and houses as addresses; the four embedded types are distinct. */
  lemma EmbeddedTypes()
    ensures EmbeddedType(MapSerializer["city"]) == EmbeddedType(MapSerializer["administrative_region"]) == "administrative_region"
    ensures EmbeddedType(MapSerializer["street"]) == EmbeddedType(MapSerializer["house"]) == "address"
    ensures forall a, b :: EmbeddedType(a) == EmbeddedType(b) ==> a == b
  {
  }

  /** A feature whose type has a serializer. */
  predicate Known(f: Feature) {
    f.kind.Some? && f.kind.value != "" && f.kind.value in MapSerializer
  }

  datatype Place = Place(serializer: Serializer, feature: Feature)

  /** The places of the features, in order, unknown types skipped. */
  function Places(features: seq<Feature>): (r: seq<Place>)
    ensures |r| <= |features|
    ensures forall i :: 0 <= i < |r| ==> Known(r[i].feature) && r[i].serializer == MapSerializer[r[i].feature.kind.value]
  {
    if |features| == 0 then []
    else if Known(features[0]) then
      [Place(MapSerializer[features[0].kind.value], features[0])] + Places(features[1..])
    else Places(features[1..])
  }

  /** `get_places`. */
  method GetPlaces(features: seq<Feature>) returns (res: seq<Place>)
    ensures res == Places(features)
  {
    res := [];
    var i := 0;
    while i < |features|
      invariant 0 <= i <= |features|
      invariant res + Places(features[i..]) == Places(features)
    {
      var f := features[i];
      assert features[i..][1..] == features[i + 1..];
      if !Known(f) {
        // the place is not serialized: its type is missing or unknown
      } else {
        res := res + [Place(MapSerializer[f.kind.value], f)];
      }
      i := i + 1;
    }
    assert features[i..] == [];
  }

  /** A feature gives a place exactly when its type is known, and the
      places keep the features' order. */
  lemma {:induction false} PlacesExactly(features: seq<Feature>, f: Feature)
    ensures (exists s :: Place(s, f) in Places(features)) <==> f in features && Known(f)
    decreases |features|
  {
    if |features| > 0 {
      PlacesExactly(features[1..], f);
      if f != features[0] {
        assert f in features <==> f in features[1..];
      }
    }
  }

  lemma {:induction false} PlacesAppend(a: seq<Feature>, b: seq<Feature>)
    ensures Places(a + b) == Places(a) + Places(b)
    decreases |a|
  {
    if |a| > 0 {
      assert (a + b)[1..] == a[1..] + b;
      PlacesAppend(a[1..], b);
    } else {
      assert a + b == b;
    }
  }

  // ---- feed publishers -------------------------------------------------------------

  /** The publishers the features list, in order, repeats included. */
  function AllPublishers(features: seq<Feature>): seq<FeedPublisher> {
    if |features| == 0 then []
    else AllPublishers(features[..|features| - 1]) + features[|features| - 1].feedPublishers.GetOr([])
  }

  /** Each publisher once, where it is first seen. */
  function Dedup(xs: seq<FeedPublisher>): (r: seq<FeedPublisher>)
    ensures forall x :: x in r <==> x in xs
  {
    if |xs| == 0 then []
    else
      var d := Dedup(xs[..|xs| - 1]);
      assert forall x :: x in xs <==> x in xs[..|xs| - 1] || x == xs[|xs| - 1];
      if xs[|xs| - 1] in d then d else d + [xs[|xs| - 1]]
  }

  predicate NoDuplicates(xs: seq<FeedPublisher>) {
    forall i, j :: 0 <= i < j < |xs| ==> xs[i] != xs[j]
  }

  /** The index of the first occurrence of `x`. */
  function First(xs: seq<FeedPublisher>, x: FeedPublisher): (k: nat)
    requires x in xs
    ensures k < |xs| && xs[k] == x && forall j :: 0 <= j < k ==> xs[j] != x
  {
    if xs[0] == x then 0 else 1 + First(xs[1..], x)
  }

  /** The deduplicated list has no repeats and lists the publishers by
      where they are first seen. */
  lemma {:induction false} DedupOrder(xs: seq<FeedPublisher>)
    ensures NoDuplicates(Dedup(xs))
    ensures forall i, j :: 0 <= i < j < |Dedup(xs)| ==> First(xs, Dedup(xs)[i]) < First(xs, Dedup(xs)[j])
    decreases |xs|
  {
    if |xs| > 0 {
      var p := xs[..|xs| - 1];
      var x := xs[|xs| - 1];
      var d := Dedup(p);
      assert xs == p + [x];
      DedupOrder(p);
      FirstOfPrefix(p, x);
      if x !in d {
        forall i | 0 <= i < |d| ensures First(xs, d[i]) < |xs| - 1 {
          FirstOfPrefix(p, d[i]);
        }
      }
      forall i | 0 <= i < |d| ensures First(xs, d[i]) == First(p, d[i]) {
        FirstOfPrefix(p, d[i]);
      }
    }
  }

  /** What is seen in a prefix is first seen there. */
  lemma {:induction false} FirstOfPrefix(p: seq<FeedPublisher>, x: FeedPublisher)
    ensures forall y :: y in p ==> First(p + [x], y) == First(p, y)
    ensures x !in p ==> First(p + [x], x) == |p|
    decreases |p|
  {
    if |p| > 0 {
      assert (p + [x])[1..] == p[1..] + [x];
      FirstOfPrefix(p[1..], x);
    }
  }

  /** One feature's publishers added to those seen so far, each publisher
      not yet listed appended in turn. */
  method AddPublishers(fp0: seq<FeedPublisher>, seen: seq<FeedPublisher>, pubs: seq<FeedPublisher>)
    returns (fp: seq<FeedPublisher>)
    requires fp0 == Dedup(seen)
    ensures fp == Dedup(seen + pubs)
  {
    fp := fp0;
    var j := 0;
    assert seen + pubs[..j] == seen;
    while j < |pubs|
      invariant 0 <= j <= |pubs|
      invariant fp == Dedup(seen + pubs[..j])
    {
      assert (seen + pubs[..j + 1])[..|seen + pubs[..j + 1]| - 1] == seen + pubs[..j];
      if pubs[j] !in fp {
        fp := fp + [pubs[j]];
      }
      j := j + 1;
    }
    assert pubs[..j] == pubs;
  }

  /** `get_feed_publishers`: the features' publishers without repeats, in
      the order first seen, then BANO and OSM, always. */
  method GetFeedPublishers(features: seq<Feature>, bano: FeedPublisher, osm: FeedPublisher)
    returns (fp: seq<FeedPublisher>)
    ensures fp == Dedup(AllPublishers(features)) + [bano, osm]
  {
    fp := [];
    var i := 0;
    while i < |features|
      invariant 0 <= i <= |features|
      invariant fp == Dedup(AllPublishers(features[..i]))
    {
      var pubs := features[i].feedPublishers.GetOr([]);
      assert features[..i + 1][..i] == features[..i];
      assert AllPublishers(features[..i + 1]) == AllPublishers(features[..i]) + pubs;
      fp := AddPublishers(fp, AllPublishers(features[..i]), pubs);
      i := i + 1;
    }
    assert features[..i] == features;
    fp := fp + [bano, osm];
  }

  /** The list always ends with BANO then OSM, and before them no
      publisher is repeated and every listed one comes from a feature. */
  lemma FeedPublishersShape(features: seq<Feature>, bano: FeedPublisher, osm: FeedPublisher, fp: seq<FeedPublisher>)
    requires fp == Dedup(AllPublishers(features)) + [bano, osm]
    ensures |fp| >= 2 && fp[|fp| - 2] == bano && fp[|fp| - 1] == osm
    ensures NoDuplicates(fp[..|fp| - 2])
    ensures forall x :: x in fp[..|fp| - 2] <==> x in AllPublishers(features)
  {
    DedupOrder(AllPublishers(features));
    assert fp[..|fp| - 2] == Dedup(AllPublishers(features));
  }
}
