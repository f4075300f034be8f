/** The index-relation helpers of the public-transport data
    (source/type/pt_data.cpp): every object of a collection is named by its
    index; `get(target)` on one object, whose body is not part of this model,
    is the `related` field of `Collections`. */
module PtIndex {

  /** `Type_e`, with every kind the helpers do not list folded into `Other`. */
  datatype TypeE =
    | Line | JourneyPattern | VehicleJourney | StopPoint | StopArea | Network
    | PhysicalMode | CommercialMode | City | District | Department | Company
    | ValidityPattern | Connection | Country | JourneyPatternPoint | Route
    | StopTime | Other

  /** `invalid_idx`: the largest 32-bit index. */
  const InvalidIdx: nat := 0xFFFF_FFFF

  datatype Collections = Collections(
    size: TypeE -> nat,
    related: (TypeE, nat, TypeE) -> seq<nat>)

  /** Kinds whose objects know how to reach other kinds. */
  predicate HasRelations(t: TypeE) {
    t != StopTime && t != Other
  }

  /** Kinds `get_all_index` can count. */
  predicate Countable(t: TypeE) {
    t != Other
  }

  /** `get_target_by_one_source`: nothing for the invalid index, the index
      itself when source and target kinds agree, otherwise the source
      object's related indexes; nothing for a kind the switch omits. */
  function GetTargetByOneSource(c: Collections, source: TypeE, target: TypeE, idx: nat): (r: seq<nat>)
    ensures idx == InvalidIdx ==> r == []
    ensures idx != InvalidIdx && source == target ==> r == [idx]
    ensures idx != InvalidIdx && source != target && !HasRelations(source) ==> r == []
    ensures idx != InvalidIdx && source != target && HasRelations(source) ==> r == c.related(source, idx, target)
  {
    if idx == InvalidIdx then []
    else if source == target then [idx]
    else if HasRelations(source) then c.related(source, idx, target)
    else []
  }

  /** The concatenation of a sequence of index lists, in order. */
  function Concat(ss: seq<seq<nat>>): seq<nat> {
    if |ss| == 0 then [] else Concat(ss[..|ss| - 1]) + ss[|ss| - 1]
  }

  /** `get_target_by_source`: the targets of every source index, in order. */
  method GetTargetBySource(c: Collections, source: TypeE, target: TypeE, sourceIdx: seq<nat>)
    returns (result: seq<nat>)
    ensures result == Concat(seq(|sourceIdx|, k requires 0 <= k < |sourceIdx| =>
                              GetTargetByOneSource(c, source, target, sourceIdx[k])))
  {
    ghost var parts := seq(|sourceIdx|, k requires 0 <= k < |sourceIdx| =>
                           GetTargetByOneSource(c, source, target, sourceIdx[k]));
    result := [];
    var i := 0;
    while i < |sourceIdx|
      invariant 0 <= i <= |sourceIdx|
      invariant result == Concat(parts[..i])
    {
      var tmp := GetTargetByOneSource(c, source, target, sourceIdx[i]);
      assert parts[..i + 1][..i] == parts[..i];
      result := result + tmp;
      i := i + 1;
    }
    assert parts[..|sourceIdx|] == parts;
  }

  /** When source and target kinds agree, the valid input indexes come back
      unchanged and in order. */
  lemma {:induction false} SameKindIsIdentity(c: Collections, t: TypeE, sourceIdx: seq<nat>)
    requires forall k :: 0 <= k < |sourceIdx| ==> sourceIdx[k] != InvalidIdx
    ensures Concat(seq(|sourceIdx|, k requires 0 <= k < |sourceIdx| =>
                   GetTargetByOneSource(c, t, t, sourceIdx[k]))) == sourceIdx
  {
    var parts := seq(|sourceIdx|, k requires 0 <= k < |sourceIdx| =>
                     GetTargetByOneSource(c, t, t, sourceIdx[k]));
    if |sourceIdx| > 0 {
      var n := |sourceIdx| - 1;
      var front := sourceIdx[..n];
      SameKindIsIdentity(c, t, front);
      assert parts[..n] == seq(|front|, k requires 0 <= k < |front| =>
                               GetTargetByOneSource(c, t, t, front[k]));
      assert sourceIdx == front + [sourceIdx[n]];
    }
  }

  /** `get_all_index`: `[0, 1, …, n-1]` for a countable kind with `n`
      objects, nothing for any other kind. */
  method GetAllIndex(c: Collections, t: TypeE) returns (indexes: seq<nat>)
    ensures |indexes| == (if Countable(t) then c.size(t) else 0)
    ensures forall i :: 0 <= i < |indexes| ==> indexes[i] == i
  {
    var n := if Countable(t) then c.size(t) else 0;
    indexes := [];
    var i := 0;
    while i < n
      invariant 0 <= i <= n
      invariant |indexes| == i
      invariant forall j :: 0 <= j < i ==> indexes[j] == j
    {
      indexes := indexes + [i];
      i := i + 1;
    }
  }

  // ---- connections -------------------------------------------------------

  datatype ConnectionType = StopAreaConnection | WalkingConnection

  datatype StopPointRec = StopPointRec(idx: nat, stopArea: nat)

  datatype ConnectionRec = ConnectionRec(departure: nat, destination: nat, kind: ConnectionType)

  /** Both ends of every connection name a stop point, and every stop
      point's own index is a position of the stop-point list. */
  predicate WellIndexed(stopPoints: seq<StopPointRec>, conns: seq<ConnectionRec>) {
    && (forall k :: 0 <= k < |conns| ==>
          conns[k].departure < |stopPoints| && conns[k].destination < |stopPoints|)
    && (forall i :: 0 <= i < |stopPoints| ==> stopPoints[i].idx < |stopPoints|)
  }

  /** The type `build_connections` gives a connection. */
  function Typed(stopPoints: seq<StopPointRec>, c: ConnectionRec): (r: ConnectionRec)
    requires c.departure < |stopPoints| && c.destination < |stopPoints|
    ensures r.departure == c.departure && r.destination == c.destination
    ensures r.kind == StopAreaConnection <==>
              stopPoints[c.departure].stopArea == stopPoints[c.destination].stopArea
  {
    if stopPoints[c.departure].stopArea == stopPoints[c.destination].stopArea
    then c.(kind := StopAreaConnection)
    else c.(kind := WalkingConnection)
  }

  /** The connections of `conns` whose departure stop point has index `i`,
      in order. */
  function DepartingFrom(stopPoints: seq<StopPointRec>, conns: seq<ConnectionRec>, i: nat): seq<ConnectionRec>
    requires forall k :: 0 <= k < |conns| ==> conns[k].departure < |stopPoints|
  {
    if |conns| == 0 then []
    else
      var last := conns[|conns| - 1];
      DepartingFrom(stopPoints, conns[..|conns| - 1], i)
        + (if stopPoints[last.departure].idx == i then [last] else [])
  }

  /** `std::vector::resize`: keep the first `n` lists, padding with empty ones. */
  function Resize(lists: seq<seq<ConnectionRec>>, n: nat): (r: seq<seq<ConnectionRec>>)
    ensures |r| == n
    ensures forall i :: 0 <= i < n ==> r[i] == (if i < |lists| then lists[i] else [])
  {
    if n <= |lists| then lists[..n]
    else lists + seq(n - |lists|, _ => [])
  }

  /** `build_connections`: type each connection and append it, in order, to
      the list of its departure stop point. */
  method BuildConnections(stopPoints: seq<StopPointRec>, conns: seq<ConnectionRec>,
                          existing: seq<seq<ConnectionRec>>)
    returns (typed: seq<ConnectionRec>, spConnections: seq<seq<ConnectionRec>>)
    requires WellIndexed(stopPoints, conns)
    ensures |typed| == |conns|
    ensures forall k :: 0 <= k < |conns| ==> typed[k] == Typed(stopPoints, conns[k])
    ensures forall k :: 0 <= k < |typed| ==> typed[k].departure < |stopPoints|
    ensures |spConnections| == |stopPoints|
    ensures forall i :: 0 <= i < |stopPoints| ==>
              spConnections[i] == Resize(existing, |stopPoints|)[i] + DepartingFrom(stopPoints, typed, i)
  {
    spConnections := Resize(existing, |stopPoints|);
    ghost var start := spConnections;
    typed := [];
    var k := 0;
    while k < |conns|
      invariant 0 <= k <= |conns|
      invariant |typed| == k
      invariant forall j :: 0 <= j < k ==> typed[j] == Typed(stopPoints, conns[j])
      invariant |spConnections| == |stopPoints|
      invariant forall i :: 0 <= i < |stopPoints| ==>
                  spConnections[i] == start[i] + DepartingFrom(stopPoints, typed, i)
    {
      var conn := Typed(stopPoints, conns[k]);
      var dep := stopPoints[conn.departure].idx;
      var typed' := typed + [conn];
      assert typed'[..|typed'| - 1] == typed;
      spConnections := spConnections[dep := spConnections[dep] + [conn]];
      typed := typed';
      k := k + 1;
    }
  }
}
