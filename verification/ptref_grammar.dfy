/** The filter language of the public-transport referential
    (source/ptreferential/ptreferential_ng.cpp, `PtRefGrammar` and `parse`),
    as a parser over the remaining input. Every primitive first skips ASCII
    white space, as the space skipper does; `lexeme` rules do not skip inside
    a token. Alternatives are ordered and a failing alternative gives its
    input back, while an expectation failure (`>`) aborts the whole parse. */
module PtRefGrammar {
  import opened Wrappers

  /** `ast::Expr` */
  datatype Expr =
    | All
    | Empty
    | Fun(kind: string, call: string, args: seq<string>)
    | GetCorresponding(kind: string, expr: Expr)
    | And(lhs: Expr, rhs: Expr)
    | Or(lhs: Expr, rhs: Expr)
    | Diff(lhs: Expr, rhs: Expr)

  /** The outcome of a rule: what it built and the input it left, a soft
      failure, or an expectation failure. */
  datatype Parsed<T> = Match(value: T, rest: string) | NoMatch | Thrown

  // ---- characters ----------------------------------------------------------

  predicate IsSpace(c: char) {
    c == ' ' || 9 <= c as int <= 13
  }

  predicate IsAlpha(c: char) {
    'a' <= c <= 'z' || 'A' <= c <= 'Z'
  }

  predicate IsAlnum(c: char) {
    IsAlpha(c) || '0' <= c <= '9'
  }

  predicate IsIdentChar(c: char) {
    IsAlnum(c) || c == '_'
  }

  /** The characters of an unquoted string: `alnum | char_("_.:;|-")`. */
  predicate IsStrChar(c: char) {
    IsAlnum(c) || c == '_' || c == '.' || c == ':' || c == ';' || c == '|' || c == '-'
  }

  /** The skipper: drop leading white space. */
  function SkipSpaces(s: string): (r: string)
    ensures |r| <= |s| && r == s[|s| - |r|..]
    ensures |r| > 0 ==> !IsSpace(r[0])
    ensures forall k :: 0 <= k < |s| - |r| ==> IsSpace(s[k])
  {
    if |s| > 0 && IsSpace(s[0]) then SkipSpaces(s[1..]) else s
  }

  /** A literal character or string, after skipping. */
  function Lit(s: string, w: string): (r: Option<string>)
    ensures r.Some? <==> w <= SkipSpaces(s)
    ensures r.Some? ==> r.value == SkipSpaces(s)[|w|..] && |r.value| + |w| <= |s|
  {
    var t := SkipSpaces(s);
    if w <= t then Some(t[|w|..]) else None
  }

  /** The length of the longest prefix of identifier characters. */
  function SpanIdent(s: string): (n: nat)
    ensures n <= |s|
    ensures forall k :: 0 <= k < n ==> IsIdentChar(s[k])
    ensures n < |s| ==> !IsIdentChar(s[n])
  {
    if |s| > 0 && IsIdentChar(s[0]) then 1 + SpanIdent(s[1..]) else 0
  }

  /** The length of the longest prefix of unquoted-string characters. */
  function SpanStr(s: string): (n: nat)
    ensures n <= |s|
    ensures forall k :: 0 <= k < n ==> IsStrChar(s[k])
    ensures n < |s| ==> !IsStrChar(s[n])
  {
    if |s| > 0 && IsStrChar(s[0]) then 1 + SpanStr(s[1..]) else 0
  }

  // ---- lexemes -------------------------------------------------------------

  /** `ident`: a letter followed by letters, digits and underscores. */
  function Ident(s: string): (r: Parsed<string>)
    ensures r != Thrown
    ensures r.Match? ==> |r.rest| < |s| && |r.value| > 0 && IsAlpha(r.value[0])
    ensures r.Match? ==> forall k :: 0 <= k < |r.value| ==> IsIdentChar(r.value[k])
  {
    var t := SkipSpaces(s);
    if |t| > 0 && IsAlpha(t[0]) then
      var n := 1 + SpanIdent(t[1..]);
      Match(t[..n], t[n..])
    else NoMatch
  }

  /** The unquoted form of `str`: one or more string characters. */
  function BareStr(s: string): (r: Parsed<string>)
    ensures r != Thrown
    ensures r.Match? ==> |r.rest| < |s| && |r.value| > 0
    ensures r.Match? ==> forall k :: 0 <= k < |r.value| ==> IsStrChar(r.value[k])
  {
    var t := SkipSpaces(s);
    var n := SpanStr(t);
    if n > 0 then Match(t[..n], t[n..]) else NoMatch
  }

  /** The body of a quoted string after its opening quote: any character
      but a quote or a backslash, or a backslash and the character it
      escapes, up to the closing quote. Running out of input before the
      closing quote, or right after a backslash, is an expectation failure. */
  function QuotedBody(s: string): (r: Parsed<string>)
    ensures r != NoMatch
    ensures r.Match? ==> |r.rest| < |s|
  {
    if |s| == 0 then Thrown
    else if s[0] == '"' then Match([], s[1..])
    else if s[0] == '\\' then
      if |s| == 1 then Thrown
      else
        var b := QuotedBody(s[2..]);
        if b.Match? then Match([s[1]] + b.value, b.rest) else b
    else
      var b := QuotedBody(s[1..]);
      if b.Match? then Match([s[0]] + b.value, b.rest) else b
  }

  /** `str`: an unquoted string, else a quoted one. */
  function Str(s: string): (r: Parsed<string>)
    ensures r.Match? ==> |r.rest| < |s|
  {
    var b := BareStr(s);
    if b.Match? then b
    else
      var t := SkipSpaces(s);
      if |t| > 0 && t[0] == '"' then QuotedBody(t[1..]) else NoMatch
  }

  /** The `(',' str)*` tail of `str % ','`: a comma not followed by a string
      is given back. */
  function StrListTail(s: string, acc: seq<string>): (r: Parsed<seq<string>>)
    ensures r != NoMatch
    ensures r.Match? ==> |r.rest| <= |s|
    decreases |s|
  {
    var comma := Lit(s, ",");
    if comma.None? then Match(acc, s)
    else
      var v := Str(comma.value);
      if v.Thrown? then Thrown
      else if v.NoMatch? then Match(acc, s)
      else StrListTail(v.rest, acc + [v.value])
  }

  /** `-(str % ',')`: possibly empty. */
  function Args(s: string): (r: Parsed<seq<string>>)
    ensures r != NoMatch
    ensures r.Match? ==> |r.rest| <= |s|
  {
    var v := Str(s);
    if v.Thrown? then Thrown
    else if v.NoMatch? then Match([], s)
    else StrListTail(v.rest, [v.value])
  }

  // ---- predicates ----------------------------------------------------------

  /** `'(' -(str % ',') ')'` */
  function CallArgs(s: string): (r: Parsed<seq<string>>)
    ensures r.Match? ==> |r.rest| < |s|
  {
    var lpar := Lit(s, "(");
    if lpar.None? then NoMatch else
    var args := Args(lpar.value);
    if !args.Match? then args else
    var close := Lit(args.rest, ")");
    if close.None? then NoMatch else Match(args.value, close.value)
  }

  /** `fun`: `ident '.' ident '(' -(str % ',') ')'`. */
  function FunCall(s: string): (r: Parsed<Expr>)
    ensures r.Match? ==> |r.rest| < |s| && r.value.Fun?
  {
    var kind := Ident(s);
    if !kind.Match? then NoMatch else
    var dot := Lit(kind.rest, ".");
    if dot.None? then NoMatch else
    var call := Ident(dot.value);
    if !call.Match? then NoMatch else
    var args := CallArgs(call.rest);
    if args.Match? then Match(Fun(kind.value, call.value, args.value), args.rest)
    else if args.Thrown? then Thrown
    else NoMatch
  }

  /** `cmp`: `ident '.' ident '=' str`, the function with that one argument. */
  function Cmp(s: string): (r: Parsed<Expr>)
    ensures r.Match? ==> |r.rest| < |s| && r.value.Fun?
  {
    var kind := Ident(s);
    if !kind.Match? then NoMatch else
    var dot := Lit(kind.rest, ".");
    if dot.None? then NoMatch else
    var call := Ident(dot.value);
    if !call.Match? then NoMatch else
    var eq := Lit(call.rest, "=");
    if eq.None? then NoMatch else
    var v := Str(eq.value);
    if v.Match? then Match(Fun(kind.value, call.value, [v.value]), v.rest)
    else if v.Thrown? then Thrown
    else NoMatch
  }

  /** `'(' lon ',' lat ',' distance ')'`, all three strings. */
  function CoordArgs(s: string): (r: Parsed<(string, string, string)>)
    ensures r.Match? ==> |r.rest| < |s|
  {
    var lpar := Lit(s, "(");
    if lpar.None? then NoMatch else
    var lon := Str(lpar.value);
    if !lon.Match? then (if lon.Thrown? then Thrown else NoMatch) else
    var c1 := Lit(lon.rest, ",");
    if c1.None? then NoMatch else
    var lat := Str(c1.value);
    if !lat.Match? then (if lat.Thrown? then Thrown else NoMatch) else
    var c2 := Lit(lat.rest, ",");
    if c2.None? then NoMatch else
    var dist := Str(c2.value);
    if !dist.Match? then (if dist.Thrown? then Thrown else NoMatch) else
    var close := Lit(dist.rest, ")");
    if close.None? then NoMatch else Match((lon.value, lat.value, dist.value), close.value)
  }

  /** `dwithin`: `ident '.' "coord" "DWITHIN" '(' lon ',' lat ',' distance ')'`,
      the function `within` with the distance and "lon;lat". */
  function DWithin(s: string): (r: Parsed<Expr>)
    ensures r.Match? ==> |r.rest| < |s| && r.value.Fun?
  {
    var kind := Ident(s);
    if !kind.Match? then NoMatch else
    var dot := Lit(kind.rest, ".");
    if dot.None? then NoMatch else
    var coord := Lit(dot.value, "coord");
    if coord.None? then NoMatch else
    var op := Lit(coord.value, "DWITHIN");
    if op.None? then NoMatch else
    var c := CoordArgs(op.value);
    if c.Match? then Match(Fun(kind.value, "within", [c.value.2, c.value.0 + ";" + c.value.1]), c.rest)
    else if c.Thrown? then Thrown
    else NoMatch
  }

  /** `pred`: `all | empty | fun | cmp | dwithin`, first match wins. */
  function Pred(s: string): (r: Parsed<Expr>)
    ensures r.Match? ==> |r.rest| < |s|
  {
    var all := Lit(s, "all");
    if all.Some? then Match(All, all.value) else
    var empty := Lit(s, "empty");
    if empty.Some? then Match(Empty, empty.value) else
    var f := FunCall(s);
    if !f.NoMatch? then f else
    var c := Cmp(s);
    if !c.NoMatch? then c else
    DWithin(s)
  }

  // ---- expressions ---------------------------------------------------------

  /** `get_corresponding`: `("get" | "GET") ident "<-" expr`. */
  function GetCorr(s: string): (r: Parsed<Expr>)
    ensures r.Match? ==> |r.rest| < |s|
    decreases |s|, 0
  {
    var lower := Lit(s, "get");
    var kw := if lower.Some? then lower else Lit(s, "GET");
    if kw.None? then NoMatch else
    var kind := Ident(kw.value);
    if !kind.Match? then NoMatch else
    var arrow := Lit(kind.rest, "<-");
    if arrow.None? then NoMatch else
    var e := OrExpr(arrow.value);
    if e.Match? then Match(GetCorresponding(kind.value, e.value), e.rest) else e
  }

  /** `expr_leaf`: `'(' expr ')' | pred | get_corresponding`. */
  function Leaf(s: string): (r: Parsed<Expr>)
    ensures r.Match? ==> |r.rest| < |s|
    decreases |s|, 1
  {
    var lpar := Lit(s, "(");
    var paren :=
      if lpar.None? then NoMatch
      else
        var inner := OrExpr(lpar.value);
        if !inner.Match? then inner
        else
          var close := Lit(inner.rest, ")");
          if close.None? then NoMatch else Match(inner.value, close.value);
    if !paren.NoMatch? then paren else
    var p := Pred(s);
    if !p.NoMatch? then p else
    GetCorr(s)
  }

  /** `expr_diff`: `expr_leaf '-' expr_diff | expr_leaf`. */
  function DiffExpr(s: string): (r: Parsed<Expr>)
    ensures r.Match? ==> |r.rest| < |s|
    decreases |s|, 2
  {
    var lhs := Leaf(s);
    if !lhs.Match? then lhs else
    var op := Lit(lhs.rest, "-");
    if op.None? then lhs else
    var rhs := DiffExpr(op.value);
    if rhs.Match? then Match(Diff(lhs.value, rhs.value), rhs.rest)
    else if rhs.Thrown? then Thrown
    else lhs
  }

  /** `expr_and`: `expr_diff ("AND" | "and") expr_and | expr_diff`. */
  function AndExpr(s: string): (r: Parsed<Expr>)
    ensures r.Match? ==> |r.rest| < |s|
    decreases |s|, 3
  {
    var lhs := DiffExpr(s);
    if !lhs.Match? then lhs else
    var upper := Lit(lhs.rest, "AND");
    var op := if upper.Some? then upper else Lit(lhs.rest, "and");
    if op.None? then lhs else
    var rhs := AndExpr(op.value);
    if rhs.Match? then Match(And(lhs.value, rhs.value), rhs.rest)
    else if rhs.Thrown? then Thrown
    else lhs
  }

  /** `expr_or` (= `expr`): `expr_and ("OR" | "or") expr_or | expr_and`. */
  function OrExpr(s: string): (r: Parsed<Expr>)
    ensures r.Match? ==> |r.rest| < |s|
    decreases |s|, 4
  {
    var lhs := AndExpr(s);
    if !lhs.Match? then lhs else
    var upper := Lit(lhs.rest, "OR");
    var op := if upper.Some? then upper else Lit(lhs.rest, "or");
    if op.None? then lhs else
    var rhs := OrExpr(op.value);
    if rhs.Match? then Match(Or(lhs.value, rhs.value), rhs.rest)
    else if rhs.Thrown? then Thrown
    else lhs
  }

  // ---- the entry point -----------------------------------------------------

  datatype ErrorKind = GlobalError | PartialError | UnknownObject

  /** What a filter can fail with: a `parsing_error`, or an exception the
      parser does not turn into one. */
  datatype PtRefError =
    | ParsingError(kind: ErrorKind, msg: string)
    | UnknownFunction(fun: Expr)
    | ExpectationFailure
    | OutOfRange

  /** `parse`: the whole request must be an expression, up to trailing
      white space. A request that does not start with an expression is a
      global error; one with text left over is a partial error naming it. */
  function Parse(request: string): (r: Result<Expr, PtRefError>)
    ensures r.Ok? <==> OrExpr(request).Match? && SkipSpaces(OrExpr(request).rest) == []
    ensures r.Ok? ==> r.value == OrExpr(request).value
    ensures OrExpr(request).NoMatch? ==> r == Err(ParsingError(GlobalError, "Filter: unable to parse " + request))
    ensures OrExpr(request).Match? && SkipSpaces(OrExpr(request).rest) != [] ==>
              r == Err(ParsingError(PartialError,
                     "Filter: Unable to parse the whole string. Not parsed: >>" + SkipSpaces(OrExpr(request).rest) + "<<"))
  {
    var p := OrExpr(request);
    if p.Thrown? then Err(ExpectationFailure)
    else if p.NoMatch? then Err(ParsingError(GlobalError, "Filter: unable to parse " + request))
    else
      var unparsed := SkipSpaces(p.rest);
      if |unparsed| > 0 then
        Err(ParsingError(PartialError, "Filter: Unable to parse the whole string. Not parsed: >>" + unparsed + "<<"))
      else Ok(p.value)
  }
}
