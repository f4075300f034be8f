/** What the filter grammar of source/ptreferential/ptreferential_ng.cpp
    reads back: a printer for filters, and the proof that the parser
    recovers every printable filter from its text. The printer puts a space
    around each operator and parenthesises an operand only where the
    grammar's precedence (`-` over `AND` over `OR`, each nested to the right)
    requires it, so the round trip is also a statement of that precedence. */
module PtRefRoundTrip {
  import opened Wrappers
  import opened PtRefGrammar

  // ---- what may follow a rendering ---------------------------------------

  /** White space only. */
  predicate Blank(p: string) {
    forall k :: 0 <= k < |p| ==> IsSpace(p[k])
  }

  /** Text that does not continue an unquoted string. */
  predicate Sep(t: string) {
    |t| == 0 || !IsStrChar(t[0])
  }

  /** Text after which a `-` chain ends. */
  predicate StopDiff(t: string) {
    Sep(t) && !("-" <= SkipSpaces(t))
  }

  /** Text after which an `AND` chain ends. */
  predicate StopAnd(t: string) {
    StopDiff(t) && !("AND" <= SkipSpaces(t)) && !("and" <= SkipSpaces(t))
  }

  /** Text after which an `OR` chain ends: the end, or a closing
      parenthesis. */
  predicate StopOr(t: string) {
    StopAnd(t) && !("OR" <= SkipSpaces(t)) && !("or" <= SkipSpaces(t))
  }

  /** `y`, after any white space, is read as the leaf `e`, whatever
      follows it. */
  ghost predicate RendersLeaf(y: string, e: Expr) {
    forall p, t {:trigger Leaf(p + (y + t))} :: Blank(p) && Sep(t) ==> Leaf(p + (y + t)) == Match(e, t)
  }

  ghost predicate RendersDiff(y: string, e: Expr) {
    forall p, t {:trigger DiffExpr(p + (y + t))} :: Blank(p) && StopDiff(t) ==> DiffExpr(p + (y + t)) == Match(e, t)
  }

  ghost predicate RendersAnd(y: string, e: Expr) {
    forall p, t {:trigger AndExpr(p + (y + t))} :: Blank(p) && StopAnd(t) ==> AndExpr(p + (y + t)) == Match(e, t)
  }

  ghost predicate RendersOr(y: string, e: Expr) {
    forall p, t {:trigger OrExpr(p + (y + t))} :: Blank(p) && StopOr(t) ==> OrExpr(p + (y + t)) == Match(e, t)
  }

  // ---- strings -----------------------------------------------------------------

  lemma Nil(x: string)
    ensures "" + x == x && x + "" == x
  {
  }

  lemma Assoc(a: string, b: string, c: string)
    ensures a + b + c == a + (b + c)
  {
  }

  lemma Snoc(acc: seq<string>, xs: seq<string>)
    requires |xs| > 0
    ensures acc + [xs[0]] + xs[1..] == acc + xs
  {
    assert [xs[0]] + xs[1..] == xs;
  }

  lemma Tail(w: string, t: string)
    requires |w| > 0
    ensures (w + t)[1..] == w[1..] + t
  {
  }

  lemma Split(w: string, t: string)
    ensures (w + t)[..|w|] == w && (w + t)[|w|..] == t
  {
  }

  // ---- white space and spans -------------------------------------------------

  lemma {:induction false} SkipBlank(p: string, s: string)
    requires Blank(p)
    ensures SkipSpaces(p + s) == SkipSpaces(s)
  {
    if |p| > 0 {
      Tail(p, s);
      assert (p + s)[0] == p[0];
      assert Blank(p[1..]) by {
        forall k | 0 <= k < |p[1..]| ensures IsSpace(p[1..][k]) {
          assert p[1..][k] == p[k + 1];
        }
      }
      SkipBlank(p[1..], s);
    } else {
      Nil(s);
    }
  }

  lemma SkipNothing(x: string)
    requires |x| > 0 && !IsSpace(x[0])
    ensures SkipSpaces(x) == x
  {
  }

  /** What a rule sees of `p + (w + t)`: `w + t`. */
  lemma SkipTo(p: string, w: string, t: string)
    requires Blank(p) && |w| > 0 && !IsSpace(w[0])
    ensures SkipSpaces(p + (w + t)) == w + t
  {
    SkipBlank(p, w + t);
    SkipNothing(w + t);
  }

  lemma SpanIdentOf(w: string, t: string)
    requires forall k :: 0 <= k < |w| ==> IsIdentChar(w[k])
    requires |t| == 0 || !IsIdentChar(t[0])
    ensures SpanIdent(w + t) == |w|
  {
    if |w| > 0 {
      Tail(w, t);
      SpanIdentOf(w[1..], t);
    }
  }

  lemma SpanStrOf(w: string, t: string)
    requires forall k :: 0 <= k < |w| ==> IsStrChar(w[k])
    requires Sep(t)
    ensures SpanStr(w + t) == |w|
  {
    if |w| > 0 {
      Tail(w, t);
      SpanStrOf(w[1..], t);
    }
  }

  // ---- lexemes ---------------------------------------------------------------

  predicate IsIdentifier(w: string) {
    |w| > 0 && IsAlpha(w[0]) && forall k :: 0 <= k < |w| ==> IsIdentChar(w[k])
  }

  /** An object kind that `pred` does not mistake for `all` or `empty`. */
  predicate PlainKind(w: string) {
    IsIdentifier(w) && !("all" <= w) && !("empty" <= w)
  }

  /** An argument written without quotes. */
  predicate PlainArg(a: string) {
    |a| > 0 && forall k :: 0 <= k < |a| ==> IsStrChar(a[k])
  }

  predicate PlainArgs(args: seq<string>) {
    forall i :: 0 <= i < |args| ==> PlainArg(args[i])
  }

  lemma IdentAt(p: string, w: string, t: string)
    requires Blank(p) && IsIdentifier(w)
    requires |t| == 0 || !IsIdentChar(t[0])
    ensures Ident(p + (w + t)) == Match(w, t)
  {
    SkipTo(p, w, t);
    Tail(w, t);
    SpanIdentOf(w[1..], t);
    Split(w, t);
  }

  lemma IdentOf(w: string, t: string)
    requires IsIdentifier(w)
    requires |t| == 0 || !IsIdentChar(t[0])
    ensures Ident(w + t) == Match(w, t)
  {
    IdentAt("", w, t);
    Nil(w + t);
  }

  lemma BareStrAt(p: string, a: string, t: string)
    requires Blank(p) && PlainArg(a) && Sep(t)
    ensures Str(p + (a + t)) == Match(a, t)
  {
    assert !IsSpace(a[0]);
    SkipTo(p, a, t);
    SpanStrOf(a, t);
    Split(a, t);
  }

  lemma BareStrOf(a: string, t: string)
    requires PlainArg(a) && Sep(t)
    ensures Str(a + t) == Match(a, t)
  {
    BareStrAt("", a, t);
    Nil(a + t);
  }

  lemma LitAt(p: string, w: string, t: string)
    requires Blank(p) && |w| > 0 && !IsSpace(w[0])
    ensures Lit(p + (w + t), w) == Some(t)
  {
    SkipTo(p, w, t);
    Split(w, t);
  }

  lemma LitOf(w: string, t: string)
    requires |w| > 0 && !IsSpace(w[0])
    ensures Lit(w + t, w) == Some(t)
  {
    LitAt("", w, t);
    Nil(w + t);
  }

  lemma NotLit(s: string, w: string)
    requires |SkipSpaces(s)| > 0 && |w| > 0 && SkipSpaces(s)[0] != w[0]
    ensures Lit(s, w).None?
  {
  }

  lemma StrSpace(x: string)
    ensures Str(" " + x) == Str(x)
  {
    assert Blank(" ");
    SkipBlank(" ", x);
    assert BareStr(" " + x) == BareStr(x);
  }

  /** A word without dots is not a prefix of `k.` + anything unless it is a
      prefix of `k`. */
  lemma NoWordBeforeDot(w: string, k: string, rest: string)
    requires forall i :: 0 <= i < |w| ==> w[i] != '.'
    requires !(w <= k)
    ensures !(w <= k + ("." + rest))
  {
    var s := k + ("." + rest);
    if |w| <= |k| {
      assert s[..|w|] == k[..|w|];
    } else {
      assert s[|k|] == '.';
      assert w[|k|] != '.';
    }
  }

  // ---- quoting ---------------------------------------------------------------

  /** Backslash before each quote and backslash. */
  function Escape(v: string): (r: string)
    ensures |r| >= |v|
  {
    if |v| == 0 then []
    else (if v[0] == '"' || v[0] == '\\' then ['\\', v[0]] else [v[0]]) + Escape(v[1..])
  }

  /** A quoted string. */
  function Quote(v: string): string {
    "\"" + Escape(v) + "\""
  }

  lemma {:induction false} QuotedBodyOf(v: string, t: string)
    ensures QuotedBody(Escape(v) + "\"" + t) == Match(v, t)
  {
    if |v| == 0 {
      assert Escape(v) + "\"" + t == "\"" + t;
      assert ("\"" + t)[1..] == t;
    } else {
      var x := Escape(v[1..]) + "\"" + t;
      QuotedBodyOf(v[1..], t);
      if v[0] == '"' || v[0] == '\\' {
        assert Escape(v) + "\"" + t == ['\\', v[0]] + x;
        QuotedEscaped(v[0], x, v[1..], t);
      } else {
        assert Escape(v) + "\"" + t == [v[0]] + x;
        QuotedPlain(v[0], x, v[1..], t);
      }
      ConsSplit(v);
    }
  }

  /** An escaped character stands for itself. */
  lemma QuotedEscaped(c: char, x: string, w: string, t: string)
    requires QuotedBody(x) == Match(w, t)
    ensures QuotedBody(['\\', c] + x) == Match([c] + w, t)
  {
    assert (['\\', c] + x)[2..] == x;
  }

  /** Any other character but the closing quote stands for itself. */
  lemma QuotedPlain(c: char, x: string, w: string, t: string)
    requires c != '"' && c != '\\' && QuotedBody(x) == Match(w, t)
    ensures QuotedBody([c] + x) == Match([c] + w, t)
  {
    assert ([c] + x)[1..] == x;
  }

  /** Every string survives quoting and the grammar's quoted form. */
  lemma QuoteOf(v: string, t: string)
    ensures Str(Quote(v) + t) == Match(v, t)
  {
    var s := Quote(v) + t;
    assert s[0] == '"';
    SkipNothing(s);
    assert s[1..] == Escape(v) + "\"" + t;
    QuotedBodyOf(v, t);
  }

  /** A quoting function the grammar reads back. */
  ghost predicate QuoteParses(quote: string -> string) {
    forall v, t :: Str(quote(v) + t) == Match(v, t)
  }

  lemma QuoteIsRead()
    ensures QuoteParses(Quote)
  {
    forall v, t ensures Str(Quote(v) + t) == Match(v, t) {
      QuoteOf(v, t);
    }
  }

  // ---- one step of each rule -------------------------------------------------

  lemma CallArgsOf(b: string, d: string, args: seq<string>, c: string, t: string)
    requires Lit(b, "(") == Some(d) && Args(d) == Match(args, c) && Lit(c, ")") == Some(t)
    ensures CallArgs(b) == Match(args, t)
  {
  }

  lemma FunCallOf(s: string, kind: string, a: string, call: string, b: string, args: seq<string>, t: string)
    requires Ident(s) == Match(kind, a)
    requires Lit(a, ".").Some? && Ident(Lit(a, ".").value) == Match(call, b)
    requires CallArgs(b) == Match(args, t)
    ensures FunCall(s) == Match(Fun(kind, call, args), t)
  {
  }

  lemma FunCallNoParen(s: string, kind: string, a: string, call: string, b: string)
    requires Ident(s) == Match(kind, a)
    requires Lit(a, ".").Some? && Ident(Lit(a, ".").value) == Match(call, b)
    requires Lit(b, "(").None?
    ensures FunCall(s) == NoMatch
  {
  }

  lemma CmpOf(s: string, kind: string, a: string, call: string, b: string, v: string, t: string)
    requires Ident(s) == Match(kind, a)
    requires Lit(a, ".").Some? && Ident(Lit(a, ".").value) == Match(call, b)
    requires Lit(b, "=").Some? && Str(Lit(b, "=").value) == Match(v, t)
    ensures Cmp(s) == Match(Fun(kind, call, [v]), t)
  {
  }

  /** An identifier with no dot after it starts no predicate but `all` and
      `empty`. */
  lemma NoDot(s: string, kind: string, a: string)
    requires Ident(s) == Match(kind, a) && Lit(a, ".").None?
    ensures FunCall(s) == NoMatch && Cmp(s) == NoMatch && DWithin(s) == NoMatch
  {
  }

  lemma PredOfFun(s: string)
    requires Lit(s, "all").None? && Lit(s, "empty").None? && FunCall(s).Match?
    ensures Pred(s) == FunCall(s)
  {
  }

  lemma PredOfCmp(s: string)
    requires Lit(s, "all").None? && Lit(s, "empty").None? && FunCall(s).NoMatch? && Cmp(s).Match?
    ensures Pred(s) == Cmp(s)
  {
  }

  lemma PredNone(s: string)
    requires Lit(s, "all").None? && Lit(s, "empty").None?
    requires FunCall(s) == NoMatch && Cmp(s) == NoMatch && DWithin(s) == NoMatch
    ensures Pred(s) == NoMatch
  {
  }

  lemma LeafOfPred(s: string)
    requires Lit(s, "(").None? && Pred(s).Match?
    ensures Leaf(s) == Pred(s)
  {
  }

  lemma LeafOfGet(s: string)
    requires Lit(s, "(").None? && Pred(s) == NoMatch
    ensures Leaf(s) == GetCorr(s)
  {
  }

  lemma GetCorrOf(s: string, g: string, kind: string, k: string, r: string, e: Expr, t: string)
    requires Lit(s, "get") == Some(g) && Ident(g) == Match(kind, k)
    requires Lit(k, "<-") == Some(r) && OrExpr(r) == Match(e, t)
    ensures GetCorr(s) == Match(GetCorresponding(kind, e), t)
  {
  }

  lemma StrListTailStep(s: string, acc: seq<string>, u: string, v: string, rest: string)
    requires Lit(s, ",") == Some(u) && Str(u) == Match(v, rest)
    ensures StrListTail(s, acc) == StrListTail(rest, acc + [v])
  {
  }

  lemma StrListTailEnd(s: string, acc: seq<string>)
    requires Lit(s, ",").None?
    ensures StrListTail(s, acc) == Match(acc, s)
  {
  }

  // ---- leaves ------------------------------------------------------------------

  lemma AllRendered()
    ensures RendersLeaf("all", All)
  {
    forall p, t | Blank(p) && Sep(t) ensures Leaf(p + ("all" + t)) == Match(All, t) {
      LitAt(p, "all", t);
      SkipTo(p, "all", t);
      NotLit(p + ("all" + t), "(");
    }
  }

  lemma EmptyRendered()
    ensures RendersLeaf("empty", Empty)
  {
    forall p, t | Blank(p) && Sep(t) ensures Leaf(p + ("empty" + t)) == Match(Empty, t) {
      LitAt(p, "empty", t);
      SkipTo(p, "empty", t);
      NotLit(p + ("empty" + t), "(");
      NotLit(p + ("empty" + t), "all");
    }
  }

  /** The arguments of a call, comma-separated. */
  function JoinArgs(args: seq<string>): string {
    if |args| == 0 then "" else if |args| == 1 then args[0] else args[0] + "," + JoinArgs(args[1..])
  }

  /** What follows an argument: a comma and the other arguments, if any. */
  function MoreArgs(args: seq<string>): string {
    if |args| == 0 then "" else "," + JoinArgs(args)
  }

  lemma JoinFirst(args: seq<string>)
    requires |args| > 0
    ensures JoinArgs(args) == args[0] + MoreArgs(args[1..])
  {
    if |args| == 1 {
      assert MoreArgs(args[1..]) == "";
      Nil(args[0]);
    } else {
      Assoc(args[0], ",", JoinArgs(args[1..]));
    }
  }

  lemma JoinShape(args: seq<string>, t: string)
    requires |args| > 0
    ensures JoinArgs(args) + t == args[0] + (MoreArgs(args[1..]) + t)
    ensures MoreArgs(args) + t == "," + (args[0] + (MoreArgs(args[1..]) + t))
  {
    JoinFirst(args);
    Assoc(args[0], MoreArgs(args[1..]), t);
    Assoc(",", JoinArgs(args), t);
  }

  /** What follows an argument cannot continue it. */
  lemma MoreArgsSep(args: seq<string>, t: string)
    requires |t| > 0 && t[0] == ')'
    ensures Sep(MoreArgs(args) + t)
  {
    if |args| == 0 {
      Nil(t);
    } else {
      assert (MoreArgs(args) + t)[0] == ',';
    }
  }

  /** One more `,arg` of the list. */
  lemma ArgsTailStep(args: seq<string>, acc: seq<string>, t: string)
    requires PlainArgs(args) && |args| > 0
    requires |t| > 0 && t[0] == ')'
    ensures StrListTail(MoreArgs(args) + t, acc) == StrListTail(MoreArgs(args[1..]) + t, acc + [args[0]])
  {
    var rest := MoreArgs(args[1..]) + t;
    JoinShape(args, t);
    LitOf(",", args[0] + rest);
    MoreArgsSep(args[1..], t);
    BareStrOf(args[0], rest);
    StrListTailStep(MoreArgs(args) + t, acc, args[0] + rest, args[0], rest);
  }

  lemma {:induction false} ArgsTailOf(args: seq<string>, acc: seq<string>, t: string)
    requires PlainArgs(args)
    requires |t| > 0 && t[0] == ')'
    ensures StrListTail(MoreArgs(args) + t, acc) == Match(acc + args, t)
  {
    if |args| == 0 {
      assert MoreArgs(args) == "";
      Nil(t);
      NotLit(t, ",");
      StrListTailEnd(t, acc);
      assert acc + args == acc;
    } else {
      ArgsTailStep(args, acc, t);
      ArgsTailOf(args[1..], acc + [args[0]], t);
      Snoc(acc, args);
    }
  }

  lemma ArgsOf(args: seq<string>, t: string)
    requires PlainArgs(args)
    requires |t| > 0 && t[0] == ')'
    ensures Args(JoinArgs(args) + t) == Match(args, t)
  {
    if |args| == 0 {
      ArgsEmpty(t);
    } else {
      ArgsFirst(args, t);
      ArgsTailOf(args[1..], [args[0]], t);
      ConsSplit(args);
    }
  }

  /** `()`: no argument. */
  lemma ArgsEmpty(t: string)
    requires |t| > 0 && t[0] == ')'
    ensures Args(JoinArgs([]) + t) == Match([], t)
  {
    Nil(t);
    SkipNothing(t);
    assert SpanStr(t) == 0;
  }

  /** The first argument, and the list's tail after it. */
  lemma ArgsFirst(args: seq<string>, t: string)
    requires PlainArgs(args) && |args| > 0
    requires |t| > 0 && t[0] == ')'
    ensures Args(JoinArgs(args) + t) == StrListTail(MoreArgs(args[1..]) + t, [args[0]])
  {
    var rest := MoreArgs(args[1..]) + t;
    JoinShape(args, t);
    MoreArgsSep(args[1..], t);
    BareStrOf(args[0], rest);
    ArgsStep(args[0] + rest, args[0], rest);
  }

  lemma ArgsStep(d: string, v: string, rest: string)
    requires Str(d) == Match(v, rest)
    ensures Args(d) == StrListTail(rest, [v])
  {
  }

  lemma ConsSplit<T>(xs: seq<T>)
    requires |xs| > 0
    ensures [xs[0]] + xs[1..] == xs
  {
  }

  /** `kind.call(a1,a2,…)` */
  function CallText(kind: string, call: string, args: seq<string>): string {
    kind + "." + call + "(" + JoinArgs(args) + ")"
  }

  lemma CallShape(kind: string, call: string, args: seq<string>, t: string)
    ensures CallText(kind, call, args) + t == kind + ("." + (call + ("(" + (JoinArgs(args) + (")" + t)))))
  {
  }

  /** A word without dots that does not start a kind is not found before
      `kind.`. */
  lemma WordNotBeforeKind(p: string, kind: string, rest: string, w: string)
    requires Blank(p) && IsIdentifier(kind) && !(w <= kind)
    requires forall i :: 0 <= i < |w| ==> w[i] != '.'
    ensures Lit(p + (kind + ("." + rest)), w).None?
  {
    SkipTo(p, kind, "." + rest);
    NoWordBeforeDot(w, kind, rest);
  }

  /** The text after a kind that `pred` reads: neither `all` nor `empty`,
      and not a parenthesis. */
  lemma KindStart(p: string, kind: string, rest: string)
    requires Blank(p) && PlainKind(kind)
    ensures var s := p + (kind + ("." + rest));
      Lit(s, "all").None? && Lit(s, "empty").None? && Lit(s, "(").None?
  {
    WordNotBeforeKind(p, kind, rest, "all");
    WordNotBeforeKind(p, kind, rest, "empty");
    SkipTo(p, kind, "." + rest);
    NotLit(p + (kind + ("." + rest)), "(");
  }

  lemma CallArgsAt(args: seq<string>, t: string)
    requires PlainArgs(args)
    ensures CallArgs("(" + (JoinArgs(args) + (")" + t))) == Match(args, t)
  {
    ArgsOf(args, ")" + t);
    Parenthesized(JoinArgs(args) + (")" + t), args, t);
  }

  /** Arguments read between `(` and `)` are the call's arguments. */
  lemma Parenthesized(d: string, args: seq<string>, t: string)
    requires Args(d) == Match(args, ")" + t)
    ensures CallArgs("(" + d) == Match(args, t)
  {
    LitOf("(", d);
    LitOf(")", t);
    CallArgsOf("(" + d, d, args, ")" + t, t);
  }

  lemma CallFunAt(p: string, kind: string, call: string, args: seq<string>, t: string)
    requires Blank(p) && IsIdentifier(kind) && IsIdentifier(call) && PlainArgs(args)
    ensures FunCall(p + (kind + ("." + (call + ("(" + (JoinArgs(args) + (")" + t))))))) == Match(Fun(kind, call, args), t)
  {
    CallArgsAt(args, t);
    FunCallWith(p, kind, call, "(" + (JoinArgs(args) + (")" + t)), args, t);
  }

  /** `kind.call` followed by a parenthesised argument list. */
  lemma FunCallWith(p: string, kind: string, call: string, c: string, args: seq<string>, t: string)
    requires Blank(p) && IsIdentifier(kind) && IsIdentifier(call)
    requires |c| > 0 && c[0] == '(' && CallArgs(c) == Match(args, t)
    ensures FunCall(p + (kind + ("." + (call + c)))) == Match(Fun(kind, call, args), t)
  {
    DotCall(p, kind, call, c);
    FunCallOf(p + (kind + ("." + (call + c))), kind, "." + (call + c), call, c, args, t);
  }

  /** `kind.call` read up to the parenthesis or space after the call's
      name. */
  lemma DotCall(p: string, kind: string, call: string, c: string)
    requires Blank(p) && IsIdentifier(kind) && IsIdentifier(call)
    requires |c| > 0 && (c[0] == '(' || c[0] == ' ')
    ensures Ident(p + (kind + ("." + (call + c)))) == Match(kind, "." + (call + c))
    ensures Lit("." + (call + c), ".") == Some(call + c)
    ensures Ident(call + c) == Match(call, c)
  {
    IdentBefore(p, kind, "." + (call + c));
    LitOf(".", call + c);
    IdentBefore("", call, c);
    Nil(call + c);
  }

  /** An identifier followed by a character no identifier holds. */
  lemma IdentBefore(p: string, w: string, t: string)
    requires Blank(p) && IsIdentifier(w) && |t| > 0 && (t[0] == '.' || t[0] == '(' || t[0] == ' ')
    ensures Ident(p + (w + t)) == Match(w, t)
  {
    IdentAt(p, w, t);
  }

  lemma CallAt(p: string, kind: string, call: string, args: seq<string>, t: string)
    requires Blank(p) && PlainKind(kind) && IsIdentifier(call) && PlainArgs(args)
    ensures Leaf(p + (CallText(kind, call, args) + t)) == Match(Fun(kind, call, args), t)
  {
    var c := "(" + (JoinArgs(args) + (")" + t));
    var s := p + (kind + ("." + (call + c)));
    CallShape(kind, call, args, t);
    CallFunAt(p, kind, call, args, t);
    KindStart(p, kind, call + c);
    PredOfFun(s);
    LeafOfPred(s);
  }

  lemma CallRendered(kind: string, call: string, args: seq<string>)
    requires PlainKind(kind) && IsIdentifier(call) && PlainArgs(args)
    ensures RendersLeaf(CallText(kind, call, args), Fun(kind, call, args))
  {
    forall p, t | Blank(p) && Sep(t)
      ensures Leaf(p + (CallText(kind, call, args) + t)) == Match(Fun(kind, call, args), t)
    {
      CallAt(p, kind, call, args, t);
    }
  }

  /** `kind.call = ` and the value's text: `fun` fails at the `=`, and `cmp`
      reads the value with `str`. */
  lemma CmpFunAt(p: string, kind: string, call: string, vt: string, v: string, t: string)
    requires Blank(p) && IsIdentifier(kind) && IsIdentifier(call)
    requires Str(" " + vt) == Match(v, t)
    ensures var s := p + (kind + ("." + (call + (" " + ("=" + (" " + vt))))));
      FunCall(s) == NoMatch && Cmp(s) == Match(Fun(kind, call, [v]), t)
  {
    var b := " " + ("=" + (" " + vt));
    var a := "." + (call + b);
    var s := p + (kind + a);
    DotCall(p, kind, call, b);
    EqualsSign(vt);
    FunCallNoParen(s, kind, a, call, b);
    CmpOf(s, kind, a, call, b, v, t);
  }

  /** ` = vt`: an equals sign, and no parenthesis. */
  lemma EqualsSign(vt: string)
    ensures Lit(" " + ("=" + (" " + vt)), "(").None?
    ensures Lit(" " + ("=" + (" " + vt)), "=") == Some(" " + vt)
  {
    assert Blank(" ");
    SkipTo(" ", "=", " " + vt);
    NotLit(" " + ("=" + (" " + vt)), "(");
    LitAt(" ", "=", " " + vt);
  }

  lemma CmpAt(p: string, kind: string, call: string, vt: string, v: string, t: string)
    requires Blank(p) && PlainKind(kind) && IsIdentifier(call)
    requires Str(" " + vt) == Match(v, t)
    ensures Leaf(p + (kind + ("." + (call + (" " + ("=" + (" " + vt))))))) == Match(Fun(kind, call, [v]), t)
  {
    var b := " " + ("=" + (" " + vt));
    var s := p + (kind + ("." + (call + b)));
    CmpFunAt(p, kind, call, vt, v, t);
    KindStart(p, kind, call + b);
    PredOfCmp(s);
    LeafOfPred(s);
  }

  /** `kind.call = v`, the comparison form. */
  function CmpText(kind: string, call: string, v: string): string {
    kind + "." + call + " = " + v
  }

  lemma CmpShape(kind: string, call: string, v: string, t: string)
    ensures CmpText(kind, call, v) + t == kind + ("." + (call + (" " + ("=" + (" " + (v + t))))))
  {
  }

  lemma CmpRendered(kind: string, call: string, v: string)
    requires PlainKind(kind) && IsIdentifier(call) && PlainArg(v)
    ensures RendersLeaf(CmpText(kind, call, v), Fun(kind, call, [v]))
  {
    forall p, t | Blank(p) && Sep(t)
      ensures Leaf(p + (CmpText(kind, call, v) + t)) == Match(Fun(kind, call, [v]), t)
    {
      assert Blank(" ");
      BareStrAt(" ", v, t);
      CmpShape(kind, call, v, t);
      CmpAt(p, kind, call, v + t, v, t);
    }
  }

  /** The comparison form, its value written by `quote`. */
  function QuotedCmpText(kind: string, call: string, v: string, quote: string -> string): string {
    CmpText(kind, call, quote(v))
  }

  lemma QuotedCmpRendered(kind: string, call: string, v: string, quote: string -> string)
    requires PlainKind(kind) && IsIdentifier(call) && QuoteParses(quote)
    ensures RendersLeaf(QuotedCmpText(kind, call, v, quote), Fun(kind, call, [v]))
  {
    forall p, t | Blank(p) && Sep(t)
      ensures Leaf(p + (QuotedCmpText(kind, call, v, quote) + t)) == Match(Fun(kind, call, [v]), t)
    {
      assert Str(quote(v) + t) == Match(v, t);
      StrSpace(quote(v) + t);
      CmpShape(kind, call, quote(v), t);
      CmpAt(p, kind, call, quote(v) + t, v, t);
    }
  }

  // ---- operators -----------------------------------------------------------------

  lemma LeafIsDiff(y: string, e: Expr)
    requires RendersLeaf(y, e)
    ensures RendersDiff(y, e)
  {
    forall p, t | Blank(p) && StopDiff(t) ensures DiffExpr(p + (y + t)) == Match(e, t) {
      assert Leaf(p + (y + t)) == Match(e, t);
    }
  }

  lemma DiffIsAnd(y: string, e: Expr)
    requires RendersDiff(y, e)
    ensures RendersAnd(y, e)
  {
    forall p, t | Blank(p) && StopAnd(t) ensures AndExpr(p + (y + t)) == Match(e, t) {
      assert DiffExpr(p + (y + t)) == Match(e, t);
    }
  }

  lemma AndIsOr(y: string, e: Expr)
    requires RendersAnd(y, e)
    ensures RendersOr(y, e)
  {
    forall p, t | Blank(p) && StopOr(t) ensures OrExpr(p + (y + t)) == Match(e, t) {
      assert AndExpr(p + (y + t)) == Match(e, t);
    }
  }

  lemma LeafIsOr(y: string, e: Expr)
    requires RendersLeaf(y, e)
    ensures RendersOr(y, e)
  {
    LeafIsDiff(y, e);
    DiffIsAnd(y, e);
    AndIsOr(y, e);
  }

  /** The operator text `op` is the word `w` between two spaces. */
  lemma OpShape(y: string, op: string, w: string, z: string, t: string)
    requires op == " " + w + " "
    ensures (y + op + z) + t == y + (" " + (w + (" " + (z + t))))
  {
  }

  /** After a left operand comes ` w`: the operator is found, and the chain
      below it stops there. */
  lemma OperatorAt(w: string, rest: string)
    requires |w| > 0 && !IsSpace(w[0])
    ensures SkipSpaces(" " + (w + rest)) == w + rest
    ensures Lit(" " + (w + rest), w) == Some(rest)
    ensures Sep(" " + (w + rest))
  {
    assert Blank(" ");
    LitAt(" ", w, rest);
    SkipTo(" ", w, rest);
  }

  /** `-` takes a leaf on its left and a `-` chain on its right. */
  lemma DiffRendered(y: string, a: Expr, z: string, b: Expr)
    requires RendersLeaf(y, a) && RendersDiff(z, b)
    ensures RendersDiff(y + " - " + z, Diff(a, b))
  {
    forall p, t | Blank(p) && StopDiff(t) ensures DiffExpr(p + ((y + " - " + z) + t)) == Match(Diff(a, b), t) {
      OpShape(y, " - ", "-", z, t);
      DiffAt(p, y, a, z, b, t);
    }
  }

  lemma DiffAt(p: string, y: string, a: Expr, z: string, b: Expr, t: string)
    requires RendersLeaf(y, a) && RendersDiff(z, b) && Blank(p) && StopDiff(t)
    ensures DiffExpr(p + (y + (" " + ("-" + (" " + (z + t)))))) == Match(Diff(a, b), t)
  {
    var r := " " + (z + t);
    var after := " " + ("-" + r);
    OperatorAt("-", r);
    assert Leaf(p + (y + after)) == Match(a, after);
    assert Blank(" ");
    assert DiffExpr(" " + (z + t)) == Match(b, t);
    DiffStep(p + (y + after), a, after, r, b, t);
  }

  lemma DiffStep(s: string, a: Expr, after: string, r: string, b: Expr, t: string)
    requires Leaf(s) == Match(a, after) && Lit(after, "-") == Some(r) && DiffExpr(r) == Match(b, t)
    ensures DiffExpr(s) == Match(Diff(a, b), t)
  {
  }

  /** `AND` takes a `-` chain on its left and an `AND` chain on its right. */
  lemma AndRendered(y: string, a: Expr, z: string, b: Expr)
    requires RendersDiff(y, a) && RendersAnd(z, b)
    ensures RendersAnd(y + " AND " + z, And(a, b))
  {
    forall p, t | Blank(p) && StopAnd(t) ensures AndExpr(p + ((y + " AND " + z) + t)) == Match(And(a, b), t) {
      OpShape(y, " AND ", "AND", z, t);
      AndAt(p, y, a, z, b, t);
    }
  }

  lemma AndAt(p: string, y: string, a: Expr, z: string, b: Expr, t: string)
    requires RendersDiff(y, a) && RendersAnd(z, b) && Blank(p) && StopAnd(t)
    ensures AndExpr(p + (y + (" " + ("AND" + (" " + (z + t)))))) == Match(And(a, b), t)
  {
    var r := " " + (z + t);
    var after := " " + ("AND" + r);
    OperatorAt("AND", r);
    assert StopDiff(after);
    assert DiffExpr(p + (y + after)) == Match(a, after);
    assert Blank(" ");
    assert AndExpr(" " + (z + t)) == Match(b, t);
    AndStep(p + (y + after), a, after, r, b, t);
  }

  lemma AndStep(s: string, a: Expr, after: string, r: string, b: Expr, t: string)
    requires DiffExpr(s) == Match(a, after) && Lit(after, "AND") == Some(r) && AndExpr(r) == Match(b, t)
    ensures AndExpr(s) == Match(And(a, b), t)
  {
  }

  /** `OR` takes an `AND` chain on its left and an `OR` chain on its right. */
  lemma OrRendered(y: string, a: Expr, z: string, b: Expr)
    requires RendersAnd(y, a) && RendersOr(z, b)
    ensures RendersOr(y + " OR " + z, Or(a, b))
  {
    forall p, t | Blank(p) && StopOr(t) ensures OrExpr(p + ((y + " OR " + z) + t)) == Match(Or(a, b), t) {
      OpShape(y, " OR ", "OR", z, t);
      OrAt(p, y, a, z, b, t);
    }
  }

  lemma OrAt(p: string, y: string, a: Expr, z: string, b: Expr, t: string)
    requires RendersAnd(y, a) && RendersOr(z, b) && Blank(p) && StopOr(t)
    ensures OrExpr(p + (y + (" " + ("OR" + (" " + (z + t)))))) == Match(Or(a, b), t)
  {
    var r := " " + (z + t);
    var after := " " + ("OR" + r);
    OperatorAt("OR", r);
    assert StopAnd(after);
    assert AndExpr(p + (y + after)) == Match(a, after);
    assert Blank(" ");
    assert OrExpr(" " + (z + t)) == Match(b, t);
    OrStep(p + (y + after), a, after, r, b, t);
  }

  lemma OrStep(s: string, a: Expr, after: string, r: string, b: Expr, t: string)
    requires AndExpr(s) == Match(a, after) && Lit(after, "OR") == Some(r) && OrExpr(r) == Match(b, t)
    ensures OrExpr(s) == Match(Or(a, b), t)
  {
  }

  lemma ParenShape(y: string, t: string)
    ensures ("(" + y + ")") + t == "(" + (y + (")" + t))
  {
  }

  lemma ParenAt(p: string, y: string, e: Expr, t: string)
    requires Blank(p) && RendersOr(y, e)
    ensures Leaf(p + (("(" + y + ")") + t)) == Match(e, t)
  {
    var inner := y + (")" + t);
    ParenShape(y, t);
    LitAt(p, "(", inner);
    assert StopOr(")" + t) by {
      SkipNothing(")" + t);
    }
    assert Blank("");
    Nil(inner);
    assert OrExpr("" + inner) == Match(e, ")" + t);
    LitOf(")", t);
  }

  /** A parenthesised expression is a leaf. */
  lemma ParenRendered(y: string, e: Expr)
    requires RendersOr(y, e)
    ensures RendersLeaf("(" + y + ")", e)
  {
    forall p, t | Blank(p) && Sep(t) ensures Leaf(p + (("(" + y + ")") + t)) == Match(e, t) {
      ParenAt(p, y, e, t);
    }
  }

  /** `get kind <- y` */
  function GetText(kind: string, y: string): string {
    "get " + kind + " <- " + y
  }

  lemma GetShape(kind: string, y: string, t: string)
    ensures GetText(kind, y) + t == "get" + (" " + (kind + (" " + ("<-" + (" " + (y + t))))))
  {
  }

  lemma GetAt(p: string, kind: string, y: string, e: Expr, t: string)
    requires Blank(p) && IsIdentifier(kind) && RendersOr(y, e) && StopOr(t)
    ensures Leaf(p + (GetText(kind, y) + t)) == Match(GetCorresponding(kind, e), t)
  {
    var afterArrow := " " + (y + t);
    var afterKind := " " + ("<-" + afterArrow);
    var afterGet := " " + (kind + afterKind);
    var s := p + ("get" + afterGet);
    GetShape(kind, y, t);
    GetStart(p, kind, afterKind);
    GetTail(kind, y, e, t);
    GetCorrOf(s, afterGet, kind, afterKind, afterArrow, e, t);
  }

  /** `pred` fails on `get kind`: "get" is an identifier not followed by a
      dot, so the leaf is read by `get_corresponding`. */
  lemma GetStart(p: string, kind: string, k: string)
    requires Blank(p) && IsIdentifier(kind)
    ensures Leaf(p + ("get" + (" " + (kind + k)))) == GetCorr(p + ("get" + (" " + (kind + k))))
    ensures Lit(p + ("get" + (" " + (kind + k))), "get") == Some(" " + (kind + k))
  {
    var afterGet := " " + (kind + k);
    var s := p + ("get" + afterGet);
    GetLits(p, afterGet);
    GetNoDot(p, kind, k);
    NoDot(s, "get", afterGet);
    PredNone(s);
    LeafOfGet(s);
  }

  /** Text starting `get` is not `(`, `all` or `empty`, and is `get`. */
  lemma GetLits(p: string, rest: string)
    requires Blank(p)
    ensures Lit(p + ("get" + rest), "(").None?
    ensures Lit(p + ("get" + rest), "all").None?
    ensures Lit(p + ("get" + rest), "empty").None?
    ensures Lit(p + ("get" + rest), "get") == Some(rest)
  {
    var s := p + ("get" + rest);
    SkipTo(p, "get", rest);
    NotLit(s, "(");
    NotLit(s, "all");
    NotLit(s, "empty");
    LitAt(p, "get", rest);
  }

  /** `get` is an identifier with a space and no dot after it. */
  lemma GetNoDot(p: string, kind: string, k: string)
    requires Blank(p) && IsIdentifier(kind)
    ensures Ident(p + ("get" + (" " + (kind + k)))) == Match("get", " " + (kind + k))
    ensures Lit(" " + (kind + k), ".").None?
  {
    assert Blank(" ");
    assert IsIdentifier("get");
    IdentBefore(p, "get", " " + (kind + k));
    SkipTo(" ", kind, k);
    NotLit(" " + (kind + k), ".");
  }

  /** ` kind <- y` after `get`: the kind, the arrow, and the expression. */
  lemma GetTail(kind: string, y: string, e: Expr, t: string)
    requires IsIdentifier(kind) && RendersOr(y, e) && StopOr(t)
    ensures Ident(" " + (kind + (" " + ("<-" + (" " + (y + t)))))) == Match(kind, " " + ("<-" + (" " + (y + t))))
    ensures Lit(" " + ("<-" + (" " + (y + t))), "<-") == Some(" " + (y + t))
    ensures OrExpr(" " + (y + t)) == Match(e, t)
  {
    assert Blank(" ");
    IdentBefore(" ", kind, " " + ("<-" + (" " + (y + t))));
    LitAt(" ", "<-", " " + (y + t));
    assert OrExpr(" " + (y + t)) == Match(e, t);
  }

  /** `get kind <- e` reads to the end of the enclosing expression. */
  lemma GetRendered(kind: string, y: string, e: Expr)
    requires IsIdentifier(kind) && RendersOr(y, e)
    ensures RendersOr(GetText(kind, y), GetCorresponding(kind, e))
  {
    var g := GetCorresponding(kind, e);
    forall p, t | Blank(p) && StopOr(t) ensures OrExpr(p + (GetText(kind, y) + t)) == Match(g, t) {
      GetAt(p, kind, y, e, t);
      var s := p + (GetText(kind, y) + t);
      assert DiffExpr(s) == Match(g, t);
      assert AndExpr(s) == Match(g, t);
    }
  }

  // ---- the printer -----------------------------------------------------------

  /** The filters the printer writes out: plain kinds, identifiers and
      unquoted arguments. */
  predicate Printable(e: Expr) {
    match e
    case All => true
    case Empty => true
    case Fun(k, c, args) => PlainKind(k) && IsIdentifier(c) && PlainArgs(args)
    case GetCorresponding(k, x) => IsIdentifier(k) && Printable(x)
    case And(a, b) => Printable(a) && Printable(b)
    case Or(a, b) => Printable(a) && Printable(b)
    case Diff(a, b) => Printable(a) && Printable(b)
  }

  predicate Compound(e: Expr) {
    e.And? || e.Or? || e.Diff?
  }

  function ShowLeaf(e: Expr): string
    decreases e, if Compound(e) then 4 else 0
  {
    match e
    case All => "all"
    case Empty => "empty"
    case Fun(k, c, args) => CallText(k, c, args)
    case GetCorresponding(k, x) => "(" + GetText(k, ShowOr(x)) + ")"
    case _ => "(" + ShowOr(e) + ")"
  }

  function ShowDiff(e: Expr): string
    decreases e, if e.And? || e.Or? then 5 else 1
  {
    if e.Diff? then ShowLeaf(e.lhs) + " - " + ShowDiff(e.rhs) else ShowLeaf(e)
  }

  function ShowAnd(e: Expr): string
    decreases e, if e.Or? then 6 else 2
  {
    if e.And? then ShowDiff(e.lhs) + " AND " + ShowAnd(e.rhs) else ShowDiff(e)
  }

  function ShowOr(e: Expr): string
    decreases e, 3
  {
    if e.Or? then ShowAnd(e.lhs) + " OR " + ShowOr(e.rhs) else ShowAnd(e)
  }

  lemma {:induction false} LeafRoundTrip(e: Expr)
    requires Printable(e)
    ensures RendersLeaf(ShowLeaf(e), e)
    decreases e, if Compound(e) then 4 else 0
  {
    match e
    case All => AllRendered();
    case Empty => EmptyRendered();
    case Fun(k, c, args) => CallRendered(k, c, args);
    case GetCorresponding(k, x) =>
      OrRoundTrip(x);
      GetRendered(k, ShowOr(x), x);
      ParenRendered(GetText(k, ShowOr(x)), e);
    case _ =>
      OrRoundTrip(e);
      ParenRendered(ShowOr(e), e);
  }

  lemma {:induction false} DiffRoundTrip(e: Expr)
    requires Printable(e)
    ensures RendersDiff(ShowDiff(e), e)
    decreases e, if e.And? || e.Or? then 5 else 1
  {
    if e.Diff? {
      LeafRoundTrip(e.lhs);
      DiffRoundTrip(e.rhs);
      DiffRendered(ShowLeaf(e.lhs), e.lhs, ShowDiff(e.rhs), e.rhs);
    } else {
      LeafRoundTrip(e);
      LeafIsDiff(ShowLeaf(e), e);
    }
  }

  lemma {:induction false} AndRoundTrip(e: Expr)
    requires Printable(e)
    ensures RendersAnd(ShowAnd(e), e)
    decreases e, if e.Or? then 6 else 2
  {
    if e.And? {
      DiffRoundTrip(e.lhs);
      AndRoundTrip(e.rhs);
      AndRendered(ShowDiff(e.lhs), e.lhs, ShowAnd(e.rhs), e.rhs);
    } else {
      DiffRoundTrip(e);
      DiffIsAnd(ShowDiff(e), e);
    }
  }

  lemma {:induction false} OrRoundTrip(e: Expr)
    requires Printable(e)
    ensures RendersOr(ShowOr(e), e)
    decreases e, 3
  {
    if e.Or? {
      AndRoundTrip(e.lhs);
      OrRoundTrip(e.rhs);
      OrRendered(ShowAnd(e.lhs), e.lhs, ShowOr(e.rhs), e.rhs);
    } else {
      AndRoundTrip(e);
      AndIsOr(ShowAnd(e), e);
    }
  }

  // ---- what `parse` gives ----------------------------------------------------

  /** A whole request that renders an expression parses to it, with or
      without white space in front. */
  lemma ParseRendered(y: string, e: Expr)
    requires RendersOr(y, e)
    ensures Parse(y) == Ok(e)
    ensures forall p :: Blank(p) ==> Parse(p + y) == Ok(e)
  {
    assert StopOr("");
    Nil(y);
    forall p | Blank(p) ensures Parse(p + y) == Ok(e) {
      assert OrExpr(p + (y + "")) == Match(e, "");
    }
    assert Blank("");
    assert OrExpr("" + (y + "")) == Match(e, "");
  }

  /** Every printable filter is read back from its text. */
  lemma ParseShow(e: Expr)
    requires Printable(e)
    ensures Parse(ShowOr(e)) == Ok(e)
  {
    OrRoundTrip(e);
    ParseRendered(ShowOr(e), e);
  }

  /** Text left after a whole expression is a partial error that names it. */
  lemma ParseTrailing(y: string, e: Expr, t: string)
    requires RendersOr(y, e) && StopOr(t) && SkipSpaces(t) != []
    ensures Parse(y + t) == Err(ParsingError(PartialError,
              "Filter: Unable to parse the whole string. Not parsed: >>" + SkipSpaces(t) + "<<"))
  {
    assert Blank("");
    Nil(y + t);
    assert OrExpr("" + (y + t)) == Match(e, t);
  }

  /** A blank request is a global error. */
  lemma ParseBlank(s: string)
    requires Blank(s)
    ensures Parse(s) == Err(ParsingError(GlobalError, "Filter: unable to parse " + s))
  {
    Nil(s);
    SkipBlank(s, "");
    assert SkipSpaces(s) == [];
    assert Ident(s) == NoMatch;
    assert FunCall(s) == NoMatch && Cmp(s) == NoMatch && DWithin(s) == NoMatch;
    PredNone(s);
    assert GetCorr(s) == NoMatch;
    assert Leaf(s) == NoMatch;
    assert DiffExpr(s) == NoMatch;
    assert AndExpr(s) == NoMatch;
    assert OrExpr(s) == NoMatch;
  }

  /** The text of `x op1 y op2 z` with the right-hand part built first. */
  lemma RightFirst(x: string, op1: string, y: string, op2: string, z: string)
    ensures x + op1 + (y + op2 + z) == x + op1 + y + op2 + z
  {
  }

  /** `-` binds tighter than `AND`, on either side. */
  lemma DiffUnderAnd(x: string, a: Expr, y: string, b: Expr, z: string, c: Expr)
    requires RendersLeaf(x, a) && RendersLeaf(y, b) && RendersLeaf(z, c)
    ensures Parse(x + " - " + y + " AND " + z) == Ok(And(Diff(a, b), c))
    ensures Parse(x + " AND " + y + " - " + z) == Ok(And(a, Diff(b, c)))
  {
    LeafIsDiff(x, a);
    LeafIsDiff(y, b);
    LeafIsDiff(z, c);
    DiffIsAnd(z, c);
    DiffRendered(x, a, y, b);
    AndRendered(x + " - " + y, Diff(a, b), z, c);
    AndIsOr(x + " - " + y + " AND " + z, And(Diff(a, b), c));
    ParseRendered(x + " - " + y + " AND " + z, And(Diff(a, b), c));
    DiffRendered(y, b, z, c);
    DiffIsAnd(y + " - " + z, Diff(b, c));
    AndRendered(x, a, y + " - " + z, Diff(b, c));
    AndIsOr(x + " AND " + (y + " - " + z), And(a, Diff(b, c)));
    ParseRendered(x + " AND " + (y + " - " + z), And(a, Diff(b, c)));
    RightFirst(x, " AND ", y, " - ", z);
  }

  /** `AND` binds tighter than `OR`, on either side. */
  lemma AndUnderOr(x: string, a: Expr, y: string, b: Expr, z: string, c: Expr)
    requires RendersLeaf(x, a) && RendersLeaf(y, b) && RendersLeaf(z, c)
    ensures Parse(x + " AND " + y + " OR " + z) == Ok(Or(And(a, b), c))
    ensures Parse(x + " OR " + y + " AND " + z) == Ok(Or(a, And(b, c)))
  {
    LeafIsDiff(x, a);
    DiffIsAnd(x, a);
    LeafIsDiff(y, b);
    DiffIsAnd(y, b);
    LeafIsDiff(z, c);
    DiffIsAnd(z, c);
    AndIsOr(z, c);
    AndRendered(x, a, y, b);
    OrRendered(x + " AND " + y, And(a, b), z, c);
    ParseRendered(x + " AND " + y + " OR " + z, Or(And(a, b), c));
    AndRendered(y, b, z, c);
    AndIsOr(y + " AND " + z, And(b, c));
    OrRendered(x, a, y + " AND " + z, And(b, c));
    ParseRendered(x + " OR " + (y + " AND " + z), Or(a, And(b, c)));
    RightFirst(x, " OR ", y, " AND ", z);
  }

  /** A chain of one operator nests to the right. */
  lemma RightNested(x: string, a: Expr, y: string, b: Expr, z: string, c: Expr)
    requires RendersLeaf(x, a) && RendersLeaf(y, b) && RendersLeaf(z, c)
    ensures Parse(x + " - " + y + " - " + z) == Ok(Diff(a, Diff(b, c)))
    ensures Parse(x + " AND " + y + " AND " + z) == Ok(And(a, And(b, c)))
    ensures Parse(x + " OR " + y + " OR " + z) == Ok(Or(a, Or(b, c)))
  {
    LeafIsDiff(x, a);
    DiffIsAnd(x, a);
    LeafIsDiff(y, b);
    DiffIsAnd(y, b);
    LeafIsDiff(z, c);
    DiffIsAnd(z, c);
    AndIsOr(x, a);
    AndIsOr(y, b);
    AndIsOr(z, c);
    DiffRendered(y, b, z, c);
    DiffRendered(x, a, y + " - " + z, Diff(b, c));
    DiffIsAnd(x + " - " + (y + " - " + z), Diff(a, Diff(b, c)));
    AndIsOr(x + " - " + (y + " - " + z), Diff(a, Diff(b, c)));
    ParseRendered(x + " - " + (y + " - " + z), Diff(a, Diff(b, c)));
    RightFirst(x, " - ", y, " - ", z);
    AndRendered(y, b, z, c);
    AndRendered(x, a, y + " AND " + z, And(b, c));
    AndIsOr(x + " AND " + (y + " AND " + z), And(a, And(b, c)));
    ParseRendered(x + " AND " + (y + " AND " + z), And(a, And(b, c)));
    RightFirst(x, " AND ", y, " AND ", z);
    OrRendered(y, b, z, c);
    OrRendered(x, a, y + " OR " + z, Or(b, c));
    ParseRendered(x + " OR " + (y + " OR " + z), Or(a, Or(b, c)));
    RightFirst(x, " OR ", y, " OR ", z);
  }
}
