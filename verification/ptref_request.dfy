/** How the public-transport referential assembles the filter it evaluates
    (source/ptreferential/ptreferential_ng.cpp, `to_string`,
    `odt_level_from_string`, `from_datetime` and `make_request`): the
    caller's request, restricted to an ODT level or a period and stripped of
    forbidden objects, written in the filter language, and the proof that the
    parser reads that text back as the intended expression. */
module PtRefRequest {
  import opened Wrappers
  import opened PtRefGrammar
  import opened PtRefRoundTrip

  // ---- ODT levels --------------------------------------------------------

  datatype OdtLevel = Scheduled | WithStops | Zonal | AnyLevel

  /** `to_string(OdtLevel_e)` */
  function OdtLevelName(l: OdtLevel): string {
    match l
    case Scheduled => "scheduled"
    case WithStops => "with_stops"
    case Zonal => "zonal"
    case AnyLevel => "all"
  }

  /** `odt_level_from_string`: a level's name gives the level back; every
      other string means all levels. */
  function OdtLevelFromString(s: string): (r: OdtLevel)
    ensures r != AnyLevel ==> OdtLevelName(r) == s
  {
    if s == "scheduled" then Scheduled
    else if s == "with_stops" then WithStops
    else if s == "zonal" then Zonal
    else AnyLevel
  }

  /** The two conversions are inverse, and an unknown name is `all`. */
  lemma OdtLevelRoundTrip(l: OdtLevel, s: string)
    ensures OdtLevelFromString(OdtLevelName(l)) == l
    ensures (forall x :: x != AnyLevel ==> OdtLevelName(x) != s) ==> OdtLevelFromString(s) == AnyLevel
  {
  }

  // ---- UTC date-times ----------------------------------------------------

  const EmptyDatetime: string := "empty datetime is illegal"
  const NotUtc: string := "only UTC datetime are allowed (must finish with `Z`): "
  const BadDatetime: string := "failed to parse datetime: "

  /** `from_datetime`: a date-time must end in `Z`; what comes before it is
      read by `fromIso`, Boost's `from_iso_string`, which yields nothing
      where that function throws. Every failure is a partial error. */
  function FromDatetime(s: string, fromIso: string -> Option<int>): (r: Result<int, PtRefError>)
    ensures r.Ok? <==> |s| > 0 && s[|s| - 1] == 'Z' && fromIso(s[..|s| - 1]).Some?
    ensures r.Ok? ==> Some(r.value) == fromIso(s[..|s| - 1])
    ensures r.Err? ==> r.error.ParsingError? && r.error.kind == PartialError
    ensures |s| > 0 && s[|s| - 1] != 'Z' ==> r == Err(ParsingError(PartialError, NotUtc + s))
  {
    if |s| == 0 then Err(ParsingError(PartialError, EmptyDatetime))
    else if s[|s| - 1] != 'Z' then Err(ParsingError(PartialError, NotUtc + s))
    else
      var t := fromIso(s[..|s| - 1]);
      if t.None? then Err(ParsingError(PartialError, BadDatetime + s))
      else Ok(t.value)
  }

  /** The text `make_request` writes for an instant, its ISO form followed by
      `Z`, is read back as that instant whenever the ISO reader inverts the
      ISO writer. */
  lemma ZuluRoundTrip(instant: int, toIso: int -> string, fromIso: string -> Option<int>)
    requires fromIso(toIso(instant)) == Some(instant)
    ensures FromDatetime(toIso(instant) + "Z", fromIso) == Ok(instant)
  {
    var s := toIso(instant) + "Z";
    assert s[..|s| - 1] == toIso(instant);
  }

  /** Without a time zone designator, or with none at all, a date-time is
      refused before it is read. */
  lemma NoZuluRefused(s: string, fromIso: string -> Option<int>)
    requires |s| == 0 || s[|s| - 1] != 'Z'
    ensures FromDatetime(s, fromIso) == Err(ParsingError(PartialError, if |s| == 0 then EmptyDatetime else NotUtc + s))
  {
  }

  // ---- what make_request consults ---------------------------------------

  /** The kinds of objects `make_request` tells apart; every other kind of
      `Type_e` is an `OtherKind`. */
  datatype ObjectType = Line | VehicleJourney | Impact | Unknown | OtherKind(tag: nat)

  /** The data `make_request` reads: the caption of a kind
      (`static_data::captionByType`, nothing where it throws
      `std::out_of_range`), the kind of an object id (`get_type_of_id`), and
      `print_quoted_string`. */
  datatype Naming = Naming(
    caption: ObjectType -> Option<string>,
    typeOfId: string -> ObjectType,
    quote: string -> string)

  /** Captions the printer can write as a kind. */
  ghost predicate PlainCaptions(n: Naming) {
    forall k :: n.caption(k).Some? ==> PlainKind(n.caption(k).value)
  }

  /** An instant as `to_iso_string` writes it: digits, letters and
      separators the grammar reads as one unquoted string. */
  predicate IsoText(s: Option<string>) {
    s.Some? ==> PlainArg(s.value)
  }

  // ---- the text of the request ------------------------------------------

  function Paren(y: string): string {
    "(" + y + ")"
  }

  /** `kind.call(a, b)`, two arguments with a space after the comma. */
  function PairText(kind: string, call: string, a: string, b: string): string {
    kind + "." + call + "(" + a + ", " + b + ")"
  }

  /** The request itself, `all` when it is empty. */
  function BaseRequest(request: string): (r: string)
    ensures |r| > 0
    ensures request != "" ==> r == request
  {
    if request == "" then "all" else request
  }

  /** The period a vehicle journey or an impact must meet. */
  function PeriodText(caption: string, since: Option<string>, until: Option<string>): string
    requires since.Some? || until.Some?
  {
    if since.Some? && until.Some? then PairText(caption, "between", since.value + "Z", until.value + "Z")
    else if since.Some? then CallText(caption, "since", [since.value + "Z"])
    else CallText(caption, "until", [until.value + "Z"])
  }

  /** The period filter needs a caption for the requested kind, and
      `captionByType` throws when it has none. */
  predicate PeriodUncaptioned(t: ObjectType, since: Option<string>, until: Option<string>, n: Naming) {
    (t == VehicleJourney || t == Impact) && (since.Some? || until.Some?) && n.caption(t).None?
  }

  /** The request restricted by ODT level (lines) or by period (vehicle
      journeys and impacts). */
  function Restricted(t: ObjectType, res: string, odt: OdtLevel, since: Option<string>, until: Option<string>, n: Naming): (r: Result<string, PtRefError>)
    ensures r.Err? <==> PeriodUncaptioned(t, since, until, n)
    ensures r.Err? ==> r.error == OutOfRange
    ensures r.Ok? && r.value != res ==> Paren(res) <= r.value
  {
    match t
    case Line =>
      if odt != AnyLevel then Ok(Paren(res) + " AND " + CmpText("line", "odt_level", OdtLevelName(odt)))
      else Ok(res)
    case VehicleJourney | Impact =>
      if since.None? && until.None? then Ok(res)
      else if n.caption(t).None? then Err(OutOfRange)
      else Ok(Paren(res) + " AND " + PeriodText(n.caption(t).value, since, until))
    case _ => Ok(res)
  }

  /** A forbidden object whose kind has no caption. */
  predicate Unnamed(id: string, n: Naming) {
    n.typeOfId(id) != Unknown && n.caption(n.typeOfId(id)).None?
  }

  const UnknownObjectType: string := "Filter Unknown object type: "

  /** `kind.id = "id"` for one forbidden object. */
  function IdFilter(id: string, n: Naming): string
    requires !Unnamed(id, n) && n.typeOfId(id) != Unknown
  {
    QuotedCmpText(n.caption(n.typeOfId(id)).value, "id", id, n.quote)
  }

  /** Every id has a kind with a caption, or an unknown kind. */
  predicate Nameable(ids: seq<string>, n: Naming) {
    forall x :: x in ids ==> !Unnamed(x, n)
  }

  /** Every id is of a known kind. */
  predicate Known(ids: seq<string>, n: Naming) {
    forall x :: x in ids ==> n.typeOfId(x) != Unknown
  }

  /** The filters of ids of known, captioned kinds. */
  function IdFilters(ids: seq<string>, n: Naming): (r: seq<string>)
    requires Nameable(ids, n) && Known(ids, n)
    ensures |r| == |ids|
  {
    if ids == [] then [] else [IdFilter(ids[0], n)] + IdFilters(ids[1..], n)
  }

  /** The forbidden ids `make_request` keeps: those of a known kind. */
  function Kept(ids: seq<string>, n: Naming): (r: seq<string>)
    ensures forall x :: x in r <==> x in ids && n.typeOfId(x) != Unknown
    ensures |r| <= |ids|
    ensures Known(r, n)
  {
    if ids == [] then []
    else if n.typeOfId(ids[0]) == Unknown then Kept(ids[1..], n)
    else [ids[0]] + Kept(ids[1..], n)
  }

  /** One filter per forbidden id of a known kind, in order; the first id
      whose kind has no caption is an unknown-object error. */
  function ForbiddenFilters(ids: seq<string>, n: Naming): (r: Result<seq<string>, PtRefError>)
    ensures r.Ok? <==> Nameable(ids, n)
    ensures r.Ok? ==> Nameable(Kept(ids, n), n) && r.value == IdFilters(Kept(ids, n), n)
    ensures r.Err? ==> r.error.ParsingError? && r.error.kind == UnknownObject
  {
    if ids == [] then Ok([])
    else
      var t := n.typeOfId(ids[0]);
      if t == Unknown then ForbiddenFilters(ids[1..], n)
      else if n.caption(t).None? then
        assert ids[0] in ids && Unnamed(ids[0], n);
        Err(ParsingError(UnknownObject, UnknownObjectType + ids[0]))
      else
        var rest := ForbiddenFilters(ids[1..], n);
        if rest.Err? then rest
        else
          assert ([ids[0]] + Kept(ids[1..], n))[1..] == Kept(ids[1..], n);
          Ok([IdFilter(ids[0], n)] + rest.value)
  }

  /** `f1 OR f2 OR …` */
  function JoinOr(fs: seq<string>): string
    requires |fs| > 0
  {
    if |fs| == 1 then fs[0] else fs[0] + " OR " + JoinOr(fs[1..])
  }

  /** `make_request`: the request (`all` when empty), restricted to the ODT
      level or the period, and minus the forbidden objects. */
  function MakeRequest(t: ObjectType, request: string, forbidden: seq<string>, odt: OdtLevel,
                       since: Option<string>, until: Option<string>, n: Naming): (r: Result<string, PtRefError>)
    ensures r.Err? <==> PeriodUncaptioned(t, since, until, n) || !Nameable(forbidden, n)
    ensures PeriodUncaptioned(t, since, until, n) ==> r == Err(OutOfRange)
  {
    var res := Restricted(t, BaseRequest(request), odt, since, until, n);
    if res.Err? then Err(res.error)
    else
      var fs := ForbiddenFilters(forbidden, n);
      if fs.Err? then Err(fs.error)
      else if fs.value == [] then Ok(res.value)
      else Ok(Paren(res.value) + " - " + Paren(JoinOr(fs.value)))
  }

  /** The forbidden filters fail with the first id whose kind has no
      caption. */
  lemma {:induction false} ForbiddenFiltersErr(ids: seq<string>, n: Naming)
    ensures ForbiddenFilters(ids, n).Err? ==>
      exists i :: 0 <= i < |ids| && Unnamed(ids[i], n) && (forall j :: 0 <= j < i ==> !Unnamed(ids[j], n)) &&
        ForbiddenFilters(ids, n).error == ParsingError(UnknownObject, UnknownObjectType + ids[i])
  {
    if ids != [] {
      ForbiddenFiltersErr(ids[1..], n);
      if !Unnamed(ids[0], n) {
        if ForbiddenFilters(ids, n).Err? {
          var i :| 0 <= i < |ids[1..]| && Unnamed(ids[1..][i], n) && (forall j :: 0 <= j < i ==> !Unnamed(ids[1..][j], n)) &&
            ForbiddenFilters(ids[1..], n).error == ParsingError(UnknownObject, UnknownObjectType + ids[1..][i]);
          assert ids[i + 1] == ids[1..][i];
          forall j | 0 <= j < i + 1 ensures !Unnamed(ids[j], n) {
            if j > 0 {
              assert ids[j] == ids[1..][j - 1];
            }
          }
        }
      }
    }
  }

  /** An empty request is the request `all`. */
  lemma EmptyRequestIsAll(t: ObjectType, forbidden: seq<string>, odt: OdtLevel,
                          since: Option<string>, until: Option<string>, n: Naming)
    ensures MakeRequest(t, "", forbidden, odt, since, until, n) == MakeRequest(t, "all", forbidden, odt, since, until, n)
  {
  }

  // ---- what the request means --------------------------------------------

  /** `f1 OR (f2 OR …)` */
  function OrOf(es: seq<Expr>): Expr
    requires |es| > 0
  {
    if |es| == 1 then es[0] else Or(es[0], OrOf(es[1..]))
  }

  /** The expression a restricted request stands for. */
  function RestrictedExpr(t: ObjectType, e: Expr, odt: OdtLevel, since: Option<string>, until: Option<string>, n: Naming): Expr
    requires !PeriodUncaptioned(t, since, until, n)
  {
    if t == Line && odt != AnyLevel then And(e, Fun("line", "odt_level", [OdtLevelName(odt)]))
    else if (t == VehicleJourney || t == Impact) && (since.Some? || until.Some?) then
      var c := n.caption(t).value;
      And(e, if since.Some? && until.Some? then Fun(c, "between", [since.value + "Z", until.value + "Z"])
             else if since.Some? then Fun(c, "since", [since.value + "Z"])
             else Fun(c, "until", [until.value + "Z"]))
    else e
  }

  function ForbiddenExprs(ids: seq<string>, n: Naming): (r: seq<Expr>)
    requires Nameable(ids, n) && Known(ids, n)
    ensures |r| == |ids|
  {
    if ids == [] then []
    else [Fun(n.caption(n.typeOfId(ids[0])).value, "id", [ids[0]])] + ForbiddenExprs(ids[1..], n)
  }

  /** The objects a request selects: the request's expression `e`,
      restricted, minus every forbidden object of a known kind. */
  function IntendedExpr(t: ObjectType, e: Expr, forbidden: seq<string>, odt: OdtLevel,
                        since: Option<string>, until: Option<string>, n: Naming): Expr
    requires !PeriodUncaptioned(t, since, until, n) && Nameable(forbidden, n)
  {
    var base := RestrictedExpr(t, e, odt, since, until, n);
    var kept := Kept(forbidden, n);
    if kept == [] then base else Diff(base, OrOf(ForbiddenExprs(kept, n)))
  }

  // ---- the parser reads the request back ---------------------------------

  lemma PairShape(kind: string, call: string, a: string, b: string, t: string)
    ensures PairText(kind, call, a, b) + t == kind + ("." + (call + ("(" + (a + (", " + (b + (")" + t)))))))
  {
  }

  /** `, b)`: the second and last argument. */
  lemma PairTail(a: string, b: string, t: string)
    requires PlainArg(b)
    ensures StrListTail("," + (" " + (b + (")" + t))), [a]) == Match([a, b], ")" + t)
  {
    PairSeq(a, b);
    ListClosed([a, b], t);
    NextArg([a], b, ")" + t);
  }

  lemma PairSeq(a: string, b: string)
    ensures [a] + [b] == [a, b]
  {
  }

  /** `, b` followed by a separator: one more argument. */
  lemma NextArg(acc: seq<string>, b: string, tail: string)
    requires PlainArg(b) && |tail| > 0 && tail[0] == ')'
    ensures StrListTail("," + (" " + (b + tail)), acc) == StrListTail(tail, acc + [b])
  {
    var second := " " + (b + tail);
    assert Sep(tail);
    assert Blank(" ");
    LitOf(",", second);
    BareStrAt(" ", b, tail);
    StrListTailStep("," + second, acc, second, b, tail);
  }

  /** A closing parenthesis ends the argument list. */
  lemma ListClosed(acc: seq<string>, t: string)
    ensures StrListTail(")" + t, acc) == Match(acc, ")" + t)
  {
    SkipNothing(")" + t);
    NotLit(")" + t, ",");
    StrListTailEnd(")" + t, acc);
  }

  lemma PairArgsOf(a: string, b: string, t: string)
    requires PlainArg(a) && PlainArg(b)
    ensures Args(a + (", " + (b + (")" + t)))) == Match([a, b], ")" + t)
  {
    var rest := "," + (" " + (b + (")" + t)));
    assert ", " + (b + (")" + t)) == rest;
    BareStrOf(a, rest);
    ArgsStep(a + rest, a, rest);
    PairTail(a, b, t);
  }

  lemma PairArgsAt(a: string, b: string, t: string)
    requires PlainArg(a) && PlainArg(b)
    ensures CallArgs("(" + (a + (", " + (b + (")" + t))))) == Match([a, b], t)
  {
    PairArgsOf(a, b, t);
    Parenthesized(a + (", " + (b + (")" + t))), [a, b], t);
  }

  lemma PairFunAt(p: string, kind: string, call: string, a: string, b: string, t: string)
    requires Blank(p) && IsIdentifier(kind) && IsIdentifier(call) && PlainArg(a) && PlainArg(b)
    ensures FunCall(p + (kind + ("." + (call + ("(" + (a + (", " + (b + (")" + t)))))))))
              == Match(Fun(kind, call, [a, b]), t)
  {
    PairArgsAt(a, b, t);
    FunCallWith(p, kind, call, "(" + (a + (", " + (b + (")" + t)))), [a, b], t);
  }

  lemma PairAt(p: string, kind: string, call: string, a: string, b: string, t: string)
    requires Blank(p) && PlainKind(kind) && IsIdentifier(call) && PlainArg(a) && PlainArg(b)
    ensures Leaf(p + (PairText(kind, call, a, b) + t)) == Match(Fun(kind, call, [a, b]), t)
  {
    var c := "(" + (a + (", " + (b + (")" + t))));
    var s := p + (kind + ("." + (call + c)));
    PairShape(kind, call, a, b, t);
    PairFunAt(p, kind, call, a, b, t);
    KindStart(p, kind, call + c);
    PredOfFun(s);
    LeafOfPred(s);
  }

  /** `kind.call(a, b)` reads as the two-argument call. */
  lemma PairRendered(kind: string, call: string, a: string, b: string)
    requires PlainKind(kind) && IsIdentifier(call) && PlainArg(a) && PlainArg(b)
    ensures RendersLeaf(PairText(kind, call, a, b), Fun(kind, call, [a, b]))
  {
    forall p, t | Blank(p) && Sep(t)
      ensures Leaf(p + (PairText(kind, call, a, b) + t)) == Match(Fun(kind, call, [a, b]), t)
    {
      PairAt(p, kind, call, a, b, t);
    }
  }

  lemma ZuluArg(s: string)
    requires PlainArg(s)
    ensures PlainArg(s + "Z")
  {
  }

  /** The period filter reads as the call `RestrictedExpr` names. */
  lemma PeriodRendered(c: string, since: Option<string>, until: Option<string>)
    requires PlainKind(c) && IsoText(since) && IsoText(until) && (since.Some? || until.Some?)
    ensures RendersLeaf(PeriodText(c, since, until),
      if since.Some? && until.Some? then Fun(c, "between", [since.value + "Z", until.value + "Z"])
      else if since.Some? then Fun(c, "since", [since.value + "Z"])
      else Fun(c, "until", [until.value + "Z"]))
  {
    if since.Some? && until.Some? {
      ZuluArg(since.value);
      ZuluArg(until.value);
      PairRendered(c, "between", since.value + "Z", until.value + "Z");
    } else if since.Some? {
      ZuluArg(since.value);
      CallRendered(c, "since", [since.value + "Z"]);
    } else {
      ZuluArg(until.value);
      CallRendered(c, "until", [until.value + "Z"]);
    }
  }

  /** `(y) AND z`, with `z` a leaf. */
  lemma ConjoinedRendered(y: string, e: Expr, z: string, f: Expr)
    requires RendersOr(y, e) && RendersLeaf(z, f)
    ensures RendersOr(Paren(y) + " AND " + z, And(e, f))
  {
    ParenRendered(y, e);
    LeafIsDiff(Paren(y), e);
    LeafIsDiff(z, f);
    DiffIsAnd(z, f);
    AndRendered(Paren(y), e, z, f);
    AndIsOr(Paren(y) + " AND " + z, And(e, f));
  }

  lemma OdtRendered(l: OdtLevel)
    ensures RendersLeaf(CmpText("line", "odt_level", OdtLevelName(l)), Fun("line", "odt_level", [OdtLevelName(l)]))
  {
    LineIdentifier();
    OdtNamePlain(l);
    CmpRendered("line", "odt_level", OdtLevelName(l));
  }

  lemma LineIdentifier()
    ensures IsIdentifier("line")
  {
    var line := "line";
    assert forall k :: 0 <= k < |line| ==> line[k] in "line";
  }

  /** A level's name is an unquoted argument. */
  lemma OdtNamePlain(l: OdtLevel)
    ensures PlainArg(OdtLevelName(l))
  {
    var name := OdtLevelName(l);
    match l
    case Scheduled => assert forall k :: 0 <= k < |name| ==> name[k] in "scheduled";
    case WithStops => assert forall k :: 0 <= k < |name| ==> name[k] in "with_stops";
    case Zonal => assert forall k :: 0 <= k < |name| ==> name[k] in "zonal";
    case AnyLevel => assert forall k :: 0 <= k < |name| ==> name[k] in "all";
  }

  /** The restricted request reads as the restricted expression. */
  lemma RestrictedRendered(t: ObjectType, y: string, e: Expr, odt: OdtLevel,
                           since: Option<string>, until: Option<string>, n: Naming)
    requires RendersOr(y, e) && PlainCaptions(n) && IsoText(since) && IsoText(until)
    requires !PeriodUncaptioned(t, since, until, n)
    ensures RendersOr(Restricted(t, y, odt, since, until, n).value, RestrictedExpr(t, e, odt, since, until, n))
  {
    if t == Line && odt != AnyLevel {
      OdtRendered(odt);
      ConjoinedRendered(y, e, CmpText("line", "odt_level", OdtLevelName(odt)), Fun("line", "odt_level", [OdtLevelName(odt)]));
    } else if (t == VehicleJourney || t == Impact) && (since.Some? || until.Some?) {
      var c := n.caption(t).value;
      PeriodRendered(c, since, until);
      ConjoinedRendered(y, e, PeriodText(c, since, until), RestrictedExpr(t, e, odt, since, until, n).rhs);
    }
  }

  /** The forbidden filters, joined by `OR`, read as the `OR` of their
      expressions. */
  lemma {:induction false} ForbiddenRendered(ids: seq<string>, n: Naming)
    requires |ids| > 0 && Nameable(ids, n) && Known(ids, n)
    requires PlainCaptions(n) && QuoteParses(n.quote)
    ensures RendersOr(JoinOr(IdFilters(ids, n)), OrOf(ForbiddenExprs(ids, n)))
  {
    assert ids[0] in ids;
    var c := n.caption(n.typeOfId(ids[0])).value;
    QuotedCmpRendered(c, "id", ids[0], n.quote);
    var f := IdFilter(ids[0], n);
    var x := Fun(c, "id", [ids[0]]);
    if |ids| == 1 {
      LeafIsOr(f, x);
    } else {
      assert Nameable(ids[1..], n) && Known(ids[1..], n) by {
        forall v | v in ids[1..] ensures v in ids {
        }
      }
      ForbiddenRendered(ids[1..], n);
      LeafIsDiff(f, x);
      DiffIsAnd(f, x);
      OrRendered(f, x, JoinOr(IdFilters(ids[1..], n)), OrOf(ForbiddenExprs(ids[1..], n)));
      assert IdFilters(ids, n)[1..] == IdFilters(ids[1..], n);
      assert ForbiddenExprs(ids, n)[1..] == ForbiddenExprs(ids[1..], n);
    }
  }

  /** What a caller's request means: the empty request means `all`, any
      other is the printed form of a filter. */
  predicate Means(request: string, e: Expr) {
    if request == "" then e == All else Printable(e) && request == ShowOr(e)
  }

  lemma BaseRendered(request: string, e: Expr)
    requires Means(request, e)
    ensures RendersOr(BaseRequest(request), e)
  {
    if request == "" {
      AllRendered();
      LeafIsOr("all", All);
    } else {
      OrRoundTrip(e);
    }
  }

  /** Whatever `make_request` writes, the grammar reads back as the request
      restricted to the ODT level or period and minus every forbidden object
      of a known kind. */
  lemma MakeRequestParses(t: ObjectType, request: string, e: Expr, forbidden: seq<string>, odt: OdtLevel,
                          since: Option<string>, until: Option<string>, n: Naming)
    requires Means(request, e)
    requires PlainCaptions(n) && QuoteParses(n.quote) && IsoText(since) && IsoText(until)
    ensures var r := MakeRequest(t, request, forbidden, odt, since, until, n);
      r.Ok? ==> Parse(r.value) == Ok(IntendedExpr(t, e, forbidden, odt, since, until, n))
  {
    var r := MakeRequest(t, request, forbidden, odt, since, until, n);
    if r.Ok? {
      var y := BaseRequest(request);
      BaseRendered(request, e);
      RestrictedRendered(t, y, e, odt, since, until, n);
      var res := Restricted(t, y, odt, since, until, n).value;
      var base := RestrictedExpr(t, e, odt, since, until, n);
      var kept := Kept(forbidden, n);
      if kept == [] {
        ParseRendered(res, base);
      } else {
        var fs := IdFilters(kept, n);
        var ors := OrOf(ForbiddenExprs(kept, n));
        ForbiddenRendered(kept, n);
        ParenRendered(res, base);
        ParenRendered(JoinOr(fs), ors);
        LeafIsDiff(Paren(JoinOr(fs)), ors);
        DiffRendered(Paren(res), base, Paren(JoinOr(fs)), ors);
        DiffIsAnd(Paren(res) + " - " + Paren(JoinOr(fs)), Diff(base, ors));
        AndIsOr(Paren(res) + " - " + Paren(JoinOr(fs)), Diff(base, ors));
        ParseRendered(Paren(res) + " - " + Paren(JoinOr(fs)), Diff(base, ors));
      }
    }
  }
}
