/** What a filter selects (source/ptreferential/ptreferential_ng.cpp,
    `Eval`): the set of indexes of objects of the target kind. The
    operators are the set operations, a predicate looks objects up through
    the data, and `get kind <- e` moves a selection from one kind to another.
    The lookups themselves (`get_corresponding`, `filter_on_period`,
    `get_within` and the like) are functions of the data whose bodies are not
    part of this model; they are the fields of `EvalData`. */
module PtRefEval {
  import opened Wrappers
  import opened PtRefGrammar
  import opened PtRefRoundTrip
  import opened PtRefRequest

  /** A line as the `odt_level` predicate sees it: its index, its code, and
      what its ODT properties say. */
  datatype LineRec = LineRec(idx: nat, code: string, scheduled: bool, withStops: bool, zonal: bool)

  datatype Coord = Coord(lon: real, lat: real)

  /** The data an evaluation reads. */
  datatype EvalData = EvalData(
    allIndex: ObjectType -> set<nat>,
    typeByCaption: string -> Option<ObjectType>,
    corresponding: (set<nat>, ObjectType, ObjectType) -> set<nat>,
    vjsByHeadsign: string -> set<nat>,
    vjsWithImpacts: set<nat>,
    lines: seq<LineRec>,
    impactsByTags: seq<string> -> set<nat>,
    onPeriod: (set<nat>, ObjectType, Option<int>, Option<int>) -> set<nat>,
    within: (ObjectType, Coord, real) -> set<nat>,
    byId: (ObjectType, string) -> set<nat>,
    byName: (ObjectType, string) -> set<nat>,
    byCode: (ObjectType, string, string) -> set<nat>,
    fromIso: string -> Option<int>,
    toNumber: string -> Option<real>)

  // ---- which predicate a call is -----------------------------------------

  datatype Branch =
    | Headsign | HasDisruption | LineCode | LineOdt | Tags
    | Period | Within | ById | ByName | ByCode | UnknownCall

  /** The predicate a call names, tried in the order of the source: the
      first five only for their kind, the others for any kind. */
  function BranchOf(kind: string, call: string, arity: nat): Branch {
    if kind == "vehicle_journey" && call == "has_headsign" && arity == 1 then Headsign
    else if kind == "vehicle_journey" && call == "has_disruption" && arity == 0 then HasDisruption
    else if kind == "line" && call == "code" && arity == 1 then LineCode
    else if kind == "line" && call == "odt_level" && arity == 1 then LineOdt
    else if kind == "disruption" && ((call == "tag" && arity == 1) || (call == "tags" && arity >= 1)) then Tags
    else if (call == "since" && arity == 1) || (call == "until" && arity == 1) || (call == "between" && arity == 2) then Period
    else if call == "within" && arity == 2 then Within
    else if (call == "id" || call == "uri") && arity == 1 then ById
    else if call == "name" && arity == 1 then ByName
    else if call == "has_code" && arity == 2 then ByCode
    else UnknownCall
  }

  /** `type_by_caption`, whose lookup throws `std::out_of_range` for a
      caption it does not know. */
  function KindOf(d: EvalData, caption: string): (r: Result<ObjectType, PtRefError>)
    ensures r.Ok? <==> d.typeByCaption(caption).Some?
    ensures r.Err? ==> r.error == OutOfRange
  {
    if d.typeByCaption(caption).None? then Err(OutOfRange) else Ok(d.typeByCaption(caption).value)
  }

  // ---- the lines predicates -------------------------------------------------

  /** The lines whose code is `code`. */
  function LinesWithCode(lines: seq<LineRec>, code: string): (r: set<nat>)
    ensures forall x :: x in r <==> exists l :: l in lines && l.code == code && l.idx == x
  {
    set l | l in lines && l.code == code :: l.idx
  }

  /** Whether a line's ODT properties meet a level; every line meets `all`. */
  predicate OdtMatches(l: LineRec, level: OdtLevel) {
    match level
    case Scheduled => l.scheduled
    case WithStops => l.withStops
    case Zonal => l.zonal
    case AnyLevel => true
  }

  /** The lines at the level named `name`. */
  function LinesAtLevel(lines: seq<LineRec>, name: string): (r: set<nat>)
    ensures forall x :: x in r <==> exists l :: l in lines && OdtMatches(l, OdtLevelFromString(name)) && l.idx == x
  {
    var level := OdtLevelFromString(name);
    set l | l in lines && OdtMatches(l, level) :: l.idx
  }

  // ---- the period predicate ------------------------------------------------

  /** The bounds of `since(t)`, `until(t)` and `between(t1, t2)`, read in
      that order; the first date-time that fails is the error. */
  function PeriodBounds(call: string, args: seq<string>, fromIso: string -> Option<int>): (r: Result<(Option<int>, Option<int>), PtRefError>)
    requires (call == "since" && |args| == 1) || (call == "until" && |args| == 1) || (call == "between" && |args| == 2)
    ensures r.Ok? <==> FromDatetime(args[0], fromIso).Ok? && (call == "between" ==> FromDatetime(args[1], fromIso).Ok?)
    ensures r.Ok? ==> (r.value.0.Some? <==> call != "until")
    ensures r.Ok? ==> (r.value.1.Some? <==> call != "since")
    ensures r.Ok? && call != "until" ==> r.value.0.value == FromDatetime(args[0], fromIso).value
    ensures r.Ok? && call == "until" ==> r.value.1.value == FromDatetime(args[0], fromIso).value
    ensures r.Ok? && call == "between" ==> r.value.1.value == FromDatetime(args[1], fromIso).value
    ensures FromDatetime(args[0], fromIso).Err? ==> r == Err(FromDatetime(args[0], fromIso).error)
  {
    var first := FromDatetime(args[0], fromIso);
    if first.Err? then Err(first.error)
    else if call == "since" then Ok((Some(first.value), None))
    else if call == "until" then Ok((None, Some(first.value)))
    else
      var second := FromDatetime(args[1], fromIso);
      if second.Err? then Err(second.error) else Ok((Some(first.value), Some(second.value)))
  }

  // ---- the within predicate ------------------------------------------------

  /** `boost::algorithm::split` on one separator: the pieces between
      separators, empty ones included. */
  function SplitOn(s: string, sep: char): (r: seq<string>)
    ensures |r| > 0
    ensures forall i :: 0 <= i < |r| ==> sep !in r[i]
  {
    if |s| == 0 then [""]
    else
      var rest := SplitOn(s[1..], sep);
      if s[0] == sep then [""] + rest
      else [[s[0]] + rest[0]] + rest[1..]
  }

  /** The pieces joined back with the separator. */
  function JoinWith(parts: seq<string>, sep: char): string
    requires |parts| > 0
  {
    if |parts| == 1 then parts[0] else parts[0] + [sep] + JoinWith(parts[1..], sep)
  }

  /** Splitting loses nothing: the pieces, joined, are the string. */
  lemma {:induction false} JoinSplit(s: string, sep: char)
    ensures JoinWith(SplitOn(s, sep), sep) == s
  {
    if |s| > 0 {
      var rest := SplitOn(s[1..], sep);
      JoinSplit(s[1..], sep);
      if s[0] == sep {
        assert ([""] + rest)[1..] == rest;
        assert s == [s[0]] + s[1..];
      } else {
        var r := [[s[0]] + rest[0]] + rest[1..];
        if |rest| == 1 {
          assert s == [s[0]] + rest[0];
        } else {
          assert r[1..] == rest[1..];
          assert JoinWith(rest, sep) == rest[0] + [sep] + JoinWith(rest[1..], sep);
          assert s == [s[0]] + (rest[0] + [sep] + JoinWith(rest[1..], sep));
        }
      }
    }
  }

  /** A piece without the separator, then the separator, starts a split. */
  lemma {:induction false} SplitAfter(x: string, sep: char, y: string)
    requires sep !in x
    ensures SplitOn(x + [sep] + y, sep) == [x] + SplitOn(y, sep)
  {
    var s := x + [sep] + y;
    if |x| == 0 {
      assert s == [sep] + y;
      assert s[1..] == y;
    } else {
      assert s[0] == x[0] && s[1..] == x[1..] + [sep] + y;
      SplitAfter(x[1..], sep, y);
      assert [x[0]] + x[1..] == x;
    }
  }

  lemma {:induction false} SplitWhole(x: string, sep: char)
    requires sep !in x
    ensures SplitOn(x, sep) == [x]
  {
    if |x| > 0 {
      SplitWhole(x[1..], sep);
      assert [x[0]] + x[1..] == x;
    }
  }

  /** Pieces without the separator are recovered by splitting their join. */
  lemma {:induction false} SplitJoin(parts: seq<string>, sep: char)
    requires |parts| > 0 && forall i :: 0 <= i < |parts| ==> sep !in parts[i]
    ensures SplitOn(JoinWith(parts, sep), sep) == parts
  {
    if |parts| == 1 {
      SplitWhole(parts[0], sep);
    } else {
      SplitJoin(parts[1..], sep);
      SplitAfter(parts[0], sep, JoinWith(parts[1..], sep));
      assert [parts[0]] + parts[1..] == parts;
    }
  }

  /** The distance and the `lon;lat` point of `within`, each read as a
      number; a bad distance or point is a partial error naming it. */
  function WithinArgs(args: seq<string>, toNumber: string -> Option<real>): (r: Result<(real, Coord), PtRefError>)
    requires |args| == 2
    ensures toNumber(args[0]).None? ==> r == Err(ParsingError(PartialError, "invalid distance " + args[0]))
    ensures r.Ok? ==> Some(r.value.0) == toNumber(args[0])
    ensures r.Ok? ==> |SplitOn(args[1], ';')| == 2
    ensures r.Ok? ==> var parts := SplitOn(args[1], ';');
      Some(r.value.1.lon) == toNumber(parts[0]) && Some(r.value.1.lat) == toNumber(parts[1])
  {
    var distance := toNumber(args[0]);
    if distance.None? then Err(ParsingError(PartialError, "invalid distance " + args[0]))
    else
      var parts := SplitOn(args[1], ';');
      var bad := Err(ParsingError(PartialError, "invalid coord " + args[1]));
      if |parts| != 2 then bad
      else
        var lon := toNumber(parts[0]);
        var lat := toNumber(parts[1]);
        if lon.None? || lat.None? then bad
        else Ok((distance.value, Coord(lon.value, lat.value)))
  }

  /** The point `coord DWITHIN(lon, lat, d)` packs as `lon;lat` is read back
      as the two numbers. */
  lemma WithinPointRoundTrip(dist: string, lon: string, lat: string, toNumber: string -> Option<real>)
    requires ';' !in lon && ';' !in lat
    requires toNumber(dist).Some? && toNumber(lon).Some? && toNumber(lat).Some?
    ensures WithinArgs([dist, lon + ";" + lat], toNumber)
              == Ok((toNumber(dist).value, Coord(toNumber(lon).value, toNumber(lat).value)))
  {
    SplitJoin([lon, lat], ';');
    assert JoinWith([lon, lat], ';') == lon + ";" + lat;
  }

  // ---- evaluation ------------------------------------------------------------

  const NoSelection: set<nat> := {}

  /** The indexes a call selects, before they move to the target kind. */
  function CallIndexes(kind: string, call: string, args: seq<string>, d: EvalData): (r: Result<set<nat>, PtRefError>)
    ensures BranchOf(kind, call, |args|) == UnknownCall ==> r == Err(UnknownFunction(Fun(kind, call, args)))
  {
    match BranchOf(kind, call, |args|)
    case Headsign => Ok(d.vjsByHeadsign(args[0]))
    case HasDisruption => Ok(d.vjsWithImpacts)
    case LineCode => Ok(LinesWithCode(d.lines, args[0]))
    case LineOdt => Ok(LinesAtLevel(d.lines, args[0]))
    case Tags => Ok(d.impactsByTags(args))
    case Period =>
      var bounds := PeriodBounds(call, args, d.fromIso);
      if bounds.Err? then Err(bounds.error)
      else
        var k := KindOf(d, kind);
        if k.Err? then Err(k.error)
        else Ok(d.onPeriod(d.allIndex(k.value), k.value, bounds.value.0, bounds.value.1))
    case Within =>
      var w := WithinArgs(args, d.toNumber);
      if w.Err? then Err(w.error)
      else
        var k := KindOf(d, kind);
        if k.Err? then Err(k.error)
        else Ok(d.within(k.value, w.value.1, w.value.0))
    case ById =>
      var k := KindOf(d, kind);
      if k.Err? then Err(k.error) else Ok(d.byId(k.value, args[0]))
    case ByName =>
      var k := KindOf(d, kind);
      if k.Err? then Err(k.error) else Ok(d.byName(k.value, args[0]))
    case ByCode =>
      var k := KindOf(d, kind);
      if k.Err? then Err(k.error) else Ok(d.byCode(k.value, args[0], args[1]))
    case UnknownCall => Err(UnknownFunction(Fun(kind, call, args)))
  }

  /** A call's selection, moved from the call's kind to the target. */
  function EvalCall(kind: string, call: string, args: seq<string>, target: ObjectType, d: EvalData): (r: Result<set<nat>, PtRefError>)
    ensures r.Ok? ==> CallIndexes(kind, call, args, d).Ok? && d.typeByCaption(kind).Some?
    ensures r.Ok? ==> r.value == d.corresponding(CallIndexes(kind, call, args, d).value, d.typeByCaption(kind).value, target)
  {
    var indexes := CallIndexes(kind, call, args, d);
    if indexes.Err? then indexes
    else
      var from := KindOf(d, kind);
      if from.Err? then Err(from.error)
      else Ok(d.corresponding(indexes.value, from.value, target))
  }

  /** `get_corresponding` gives objects of the kind asked for. */
  ghost predicate CorrespondingInKind(d: EvalData) {
    forall xs: set<nat>, from: ObjectType, to: ObjectType :: d.corresponding(xs, from, to) <= d.allIndex(to)
  }

  /** `Eval`: the indexes of target objects a filter selects. Of two
      operands the left one is evaluated first. When `get_corresponding`
      stays within the kind it is asked for, a filter selects only objects
      of the target kind. */
  function Eval(e: Expr, target: ObjectType, d: EvalData): (r: Result<set<nat>, PtRefError>)
    ensures CorrespondingInKind(d) && r.Ok? ==> r.value <= d.allIndex(target)
    decreases e
  {
    match e
    case All => Ok(d.allIndex(target))
    case Empty => Ok(NoSelection)
    case Fun(kind, call, args) => EvalCall(kind, call, args, target, d)
    case GetCorresponding(kind, x) =>
      var from := KindOf(d, kind);
      if from.Err? then Err(from.error)
      else
        var inner := Eval(x, from.value, d);
        if inner.Err? then inner
        else Ok(d.corresponding(inner.value, from.value, target))
    case And(a, b) => Combine(Eval(a, target, d), Eval(b, target, d), Intersect)
    case Or(a, b) => Combine(Eval(a, target, d), Eval(b, target, d), Unite)
    case Diff(a, b) => Combine(Eval(a, target, d), Eval(b, target, d), Subtract)
  }

  /** The set operation an operator stands for. */
  datatype SetOp = Intersect | Unite | Subtract

  function Apply(op: SetOp, x: set<nat>, y: set<nat>): set<nat> {
    match op
    case Intersect => x * y
    case Unite => x + y
    case Subtract => x - y
  }

  /** Two operands' results combined; the left error wins. */
  function Combine(a: Result<set<nat>, PtRefError>, b: Result<set<nat>, PtRefError>, op: SetOp): (r: Result<set<nat>, PtRefError>)
    ensures r.Ok? <==> a.Ok? && b.Ok?
    ensures a.Err? ==> r == a
    ensures a.Ok? && b.Err? ==> r == b
  {
    if a.Err? then a else if b.Err? then b else Ok(Apply(op, a.value, b.value))
  }

  // ---- what evaluation promises --------------------------------------------

  /** `all` is every object of the target kind, `empty` none, and the
      operators are intersection, union and difference of their operands'
      selections. */
  lemma EvalSetAlgebra(a: Expr, b: Expr, target: ObjectType, d: EvalData)
    requires Eval(a, target, d).Ok? && Eval(b, target, d).Ok?
    ensures Eval(All, target, d) == Ok(d.allIndex(target)) && Eval(Empty, target, d) == Ok({})
    ensures Eval(And(a, b), target, d).Ok? && Eval(Or(a, b), target, d).Ok? && Eval(Diff(a, b), target, d).Ok?
    ensures forall x :: x in Eval(And(a, b), target, d).value <==> x in Eval(a, target, d).value && x in Eval(b, target, d).value
    ensures forall x :: x in Eval(Or(a, b), target, d).value <==> x in Eval(a, target, d).value || x in Eval(b, target, d).value
    ensures forall x :: x in Eval(Diff(a, b), target, d).value <==> x in Eval(a, target, d).value && x !in Eval(b, target, d).value
  {
    EvalAnd(a, b, target, d);
    EvalOr(a, b, target, d);
    EvalDiff(a, b, target, d);
  }

  /** Each operator combines its operands' results. */
  lemma AndCombines(a: Expr, b: Expr, target: ObjectType, d: EvalData)
    ensures Eval(And(a, b), target, d) == Combine(Eval(a, target, d), Eval(b, target, d), Intersect)
  {
  }

  lemma OrCombines(a: Expr, b: Expr, target: ObjectType, d: EvalData)
    ensures Eval(Or(a, b), target, d) == Combine(Eval(a, target, d), Eval(b, target, d), Unite)
  {
  }

  lemma DiffCombines(a: Expr, b: Expr, target: ObjectType, d: EvalData)
    ensures Eval(Diff(a, b), target, d) == Combine(Eval(a, target, d), Eval(b, target, d), Subtract)
  {
  }

  lemma EvalAnd(a: Expr, b: Expr, target: ObjectType, d: EvalData)
    requires Eval(a, target, d).Ok? && Eval(b, target, d).Ok?
    ensures Eval(And(a, b), target, d) == Ok(Eval(a, target, d).value * Eval(b, target, d).value)
  {
    AndCombines(a, b, target, d);
  }

  lemma EvalOr(a: Expr, b: Expr, target: ObjectType, d: EvalData)
    requires Eval(a, target, d).Ok? && Eval(b, target, d).Ok?
    ensures Eval(Or(a, b), target, d) == Ok(Eval(a, target, d).value + Eval(b, target, d).value)
  {
    OrCombines(a, b, target, d);
  }

  lemma EvalDiff(a: Expr, b: Expr, target: ObjectType, d: EvalData)
    requires Eval(a, target, d).Ok? && Eval(b, target, d).Ok?
    ensures Eval(Diff(a, b), target, d) == Ok(Eval(a, target, d).value - Eval(b, target, d).value)
  {
    DiffCombines(a, b, target, d);
  }

  /** An operand that fails makes the operator fail, the left one first. */
  lemma EvalErrors(a: Expr, b: Expr, target: ObjectType, d: EvalData)
    ensures Eval(a, target, d).Err? ==> Eval(And(a, b), target, d) == Eval(a, target, d)
    ensures Eval(a, target, d).Err? ==> Eval(Diff(a, b), target, d) == Eval(a, target, d)
    ensures Eval(a, target, d).Err? ==> Eval(Or(a, b), target, d) == Eval(a, target, d)
    ensures Eval(a, target, d).Ok? && Eval(b, target, d).Err? ==> Eval(Or(a, b), target, d) == Eval(b, target, d)
  {
    AndCombines(a, b, target, d);
    OrCombines(a, b, target, d);
    DiffCombines(a, b, target, d);
  }

  /** A call the referential does not know is refused, whatever its
      kind. */
  lemma UnknownCallRefused(kind: string, call: string, args: seq<string>, target: ObjectType, d: EvalData)
    requires BranchOf(kind, call, |args|) == UnknownCall
    ensures Eval(Fun(kind, call, args), target, d) == Err(UnknownFunction(Fun(kind, call, args)))
  {
  }

  /** A few laws of the algebra: a selection minus itself is empty, `OR
      empty` changes nothing, and `AND` and `OR` do not depend on the order of
      operands that both succeed. */
  lemma EvalLaws(a: Expr, b: Expr, target: ObjectType, d: EvalData)
    requires Eval(a, target, d).Ok? && Eval(b, target, d).Ok?
    ensures Eval(Diff(a, a), target, d) == Ok({})
    ensures Eval(Or(a, Empty), target, d) == Eval(a, target, d)
    ensures Eval(And(a, b), target, d) == Eval(And(b, a), target, d)
    ensures Eval(Or(a, b), target, d) == Eval(Or(b, a), target, d)
  {
    var x := Eval(a, target, d).value;
    var y := Eval(b, target, d).value;
    EvalDiff(a, a, target, d);
    assert x - x == {};
    EvalOr(a, Empty, target, d);
    assert x + {} == x;
    EvalAnd(a, b, target, d);
    EvalAnd(b, a, target, d);
    assert x * y == y * x;
    EvalOr(a, b, target, d);
    EvalOr(b, a, target, d);
    assert x + y == y + x;
  }

  /** Each operand of an `OR` chain selects part of what the chain
      selects. */
  lemma {:induction false} OrOfCovers(es: seq<Expr>, target: ObjectType, d: EvalData)
    requires |es| > 0 && Eval(OrOf(es), target, d).Ok?
    ensures forall i :: 0 <= i < |es| ==> Eval(es[i], target, d).Ok? && Eval(es[i], target, d).value <= Eval(OrOf(es), target, d).value
  {
    if |es| > 1 {
      OrOfCovers(es[1..], target, d);
      forall i | 1 <= i < |es| ensures Eval(es[i], target, d).Ok? && Eval(es[i], target, d).value <= Eval(OrOf(es), target, d).value {
        assert es[i] == es[1..][i - 1];
      }
    }
  }

  /** What `make_request` builds never selects a forbidden object of a
      known kind: whatever the request, the objects its text selects and the
      objects the forbidden id's filter selects are disjoint. */
  lemma ForbiddenNeverSelected(t: ObjectType, request: string, e: Expr, forbidden: seq<string>, odt: OdtLevel,
                               since: Option<string>, until: Option<string>, n: Naming,
                               target: ObjectType, d: EvalData, id: string)
    requires Means(request, e)
    requires PlainCaptions(n) && QuoteParses(n.quote) && IsoText(since) && IsoText(until)
    requires MakeRequest(t, request, forbidden, odt, since, until, n).Ok?
    requires id in forbidden && n.typeOfId(id) != Unknown
    ensures Parse(MakeRequest(t, request, forbidden, odt, since, until, n).value).Ok?
    ensures var sel := Eval(Parse(MakeRequest(t, request, forbidden, odt, since, until, n).value).value, target, d);
      var f := Eval(Fun(n.caption(n.typeOfId(id)).value, "id", [id]), target, d);
      sel.Ok? ==> f.Ok? && sel.value !! f.value
  {
    MakeRequestParses(t, request, e, forbidden, odt, since, until, n);
    ForbiddenExcluded(RestrictedExpr(t, e, odt, since, until, n), forbidden, n, id, target, d);
  }

  /** Taking away the `OR` chain of the forbidden filters from any base
      expression leaves nothing a forbidden id's filter selects. */
  lemma ForbiddenExcluded(base: Expr, forbidden: seq<string>, n: Naming, id: string, target: ObjectType, d: EvalData)
    requires Nameable(forbidden, n) && id in forbidden && n.typeOfId(id) != Unknown
    ensures Kept(forbidden, n) != []
    ensures var sel := Eval(Diff(base, OrOf(ForbiddenExprs(Kept(forbidden, n), n))), target, d);
      var f := Eval(Fun(n.caption(n.typeOfId(id)).value, "id", [id]), target, d);
      sel.Ok? ==> f.Ok? && sel.value !! f.value
  {
    var kept := Kept(forbidden, n);
    assert id in kept;
    var es := ForbiddenExprs(kept, n);
    if Eval(Diff(base, OrOf(es)), target, d).Ok? {
      ForbiddenCovered(kept, n, id, target, d);
      DiffDisjoint(base, OrOf(es), Fun(n.caption(n.typeOfId(id)).value, "id", [id]), target, d);
    }
  }

  /** What a forbidden id's filter selects is part of what the `OR` chain of
      the forbidden filters selects. */
  lemma ForbiddenCovered(kept: seq<string>, n: Naming, id: string, target: ObjectType, d: EvalData)
    requires Nameable(kept, n) && Known(kept, n) && id in kept
    requires Eval(OrOf(ForbiddenExprs(kept, n)), target, d).Ok?
    ensures var f := Eval(Fun(n.caption(n.typeOfId(id)).value, "id", [id]), target, d);
      f.Ok? && f.value <= Eval(OrOf(ForbiddenExprs(kept, n)), target, d).value
  {
    var i :| 0 <= i < |kept| && kept[i] == id;
    ForbiddenExprsAt(kept, n, i);
    OrOfCovers(ForbiddenExprs(kept, n), target, d);
  }

  /** A difference selects nothing that a part of its right operand
      selects. */
  lemma DiffDisjoint(a: Expr, b: Expr, f: Expr, target: ObjectType, d: EvalData)
    requires Eval(Diff(a, b), target, d).Ok?
    requires Eval(f, target, d).Ok? && Eval(b, target, d).Ok? && Eval(f, target, d).value <= Eval(b, target, d).value
    ensures Eval(Diff(a, b), target, d).value !! Eval(f, target, d).value
  {
    EvalDiff(a, b, target, d);
  }

  lemma {:induction false} ForbiddenExprsAt(ids: seq<string>, n: Naming, i: nat)
    requires Nameable(ids, n) && Known(ids, n) && i < |ids|
    ensures ids[i] in ids
    ensures ForbiddenExprs(ids, n)[i] == Fun(n.caption(n.typeOfId(ids[i])).value, "id", [ids[i]])
  {
    if i > 0 {
      assert Nameable(ids[1..], n) && Known(ids[1..], n) by {
        forall v | v in ids[1..] ensures v in ids {
        }
      }
      ForbiddenExprsAt(ids[1..], n, i - 1);
      assert ids[1..][i - 1] == ids[i];
    }
  }

  /** The instant option as `make_request` writes it. */
  function IsoOf(x: Option<int>, toIso: int -> string): (r: Option<string>)
    ensures r.Some? <==> x.Some?
  {
    if x.Some? then Some(toIso(x.value)) else None
  }

  /** The period filter `make_request` adds for a vehicle journey or an
      impact selects, through `from_datetime`, exactly the instants it was
      given, when the ISO reader inverts the ISO writer and the caption
      names the kind back. */
  lemma PeriodFilterSelects(t: ObjectType, e: Expr, since: Option<int>, until: Option<int>,
                            toIso: int -> string, n: Naming, target: ObjectType, d: EvalData)
    requires (t == VehicleJourney || t == Impact) && (since.Some? || until.Some?)
    requires n.caption(t).Some? && d.typeByCaption(n.caption(t).value) == Some(t)
    requires since.Some? ==> d.fromIso(toIso(since.value)) == since
    requires until.Some? ==> d.fromIso(toIso(until.value)) == until
    ensures var f := RestrictedExpr(t, e, AnyLevel, IsoOf(since, toIso), IsoOf(until, toIso), n);
      f.And? && Eval(f.rhs, target, d) == Ok(d.corresponding(d.onPeriod(d.allIndex(t), t, since, until), t, target))
  {
    var c := n.caption(t).value;
    if since.Some? && until.Some? {
      var args := [toIso(since.value) + "Z", toIso(until.value) + "Z"];
      ZuluRoundTrip(since.value, toIso, d.fromIso);
      ZuluRoundTrip(until.value, toIso, d.fromIso);
      PeriodCall(c, "between", args, t, target, d, since, until);
    } else if since.Some? {
      var args := [toIso(since.value) + "Z"];
      ZuluRoundTrip(since.value, toIso, d.fromIso);
      PeriodCall(c, "since", args, t, target, d, since, until);
    } else {
      var args := [toIso(until.value) + "Z"];
      ZuluRoundTrip(until.value, toIso, d.fromIso);
      PeriodCall(c, "until", args, t, target, d, since, until);
    }
  }

  /** A period call whose bounds read as `lo` and `hi` selects the objects
      of its kind on that period. */
  lemma PeriodCall(c: string, call: string, args: seq<string>, t: ObjectType, target: ObjectType, d: EvalData,
                   lo: Option<int>, hi: Option<int>)
    requires (call == "since" && |args| == 1) || (call == "until" && |args| == 1) || (call == "between" && |args| == 2)
    requires PeriodBounds(call, args, d.fromIso) == Ok((lo, hi)) && d.typeByCaption(c) == Some(t)
    ensures Eval(Fun(c, call, args), target, d) == Ok(d.corresponding(d.onPeriod(d.allIndex(t), t, lo, hi), t, target))
  {
    PeriodBranch(c, call, |args|);
  }

  lemma PeriodBranch(kind: string, call: string, arity: nat)
    requires (call == "since" && arity == 1) || (call == "until" && arity == 1) || (call == "between" && arity == 2)
    ensures BranchOf(kind, call, arity) == Period
  {
  }

  /** The ODT filter `make_request` adds for lines selects exactly the lines
      with the requested property. */
  lemma OdtFilterSelects(l: OdtLevel, target: ObjectType, d: EvalData)
    requires d.typeByCaption("line") == Some(Line)
    ensures Eval(Fun("line", "odt_level", [OdtLevelName(l)]), target, d)
              == Ok(d.corresponding(set ln | ln in d.lines && OdtMatches(ln, l) :: ln.idx, Line, target))
  {
    OdtLevelRoundTrip(l, "");
  }
}
