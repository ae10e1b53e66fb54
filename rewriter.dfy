/** effers-derive/src/lib.rs:127-229: `rewrite_func` and `FuncRewriter`,
    which turn the annotated function into the `run` method of the last
    layer, rewriting every call of a declared operation into a qualified
    call on the handler that serves it. */
module Rewriter {
  import opened Wrappers
  import opened Syntax
  import opened Letters
  import opened Parse
  import opened IntermediateStructs

  /** The name call sites use for an operation: its alias when it has one,
      its own name otherwise (`alias.unwrap_or(ident)`). */
  function CallName(f: EffectFunction): Ident {
    match f.alias
    case Some(a) => a
    case None => f.ident
  }

  /** The callee path `p` calls operation `f`: `p.is_ident(CallName(f))`. */
  predicate Names(p: Path, f: EffectFunction) {
    IsIdent(p, CallName(f))
  }

  /** The first of the first `n` operations that `p` calls. */
  function FindBelow(fs: seq<EffectFunction>, p: Path, n: nat): (r: Option<nat>)
    requires n <= |fs|
    ensures r.Some? ==> r.value < n && Names(p, fs[r.value])
    ensures r.Some? ==> forall k :: 0 <= k < r.value ==> !Names(p, fs[k])
    ensures r.None? <==> forall k :: 0 <= k < n ==> !Names(p, fs[k])
    decreases n
  {
    if n == 0 then None
    else
      match FindBelow(fs, p, n - 1)
      case Some(j) => Some(j)
      case None => if Names(p, fs[n - 1]) then Some(n - 1) else None
  }

  /** The first operation, among the first `n` effects, that `p` calls: the
      effect's index and the operation's index within it. Effects are tried
      in declaration order, and within one effect its operations in order. */
  function LookupBelow(es: seq<Effect>, p: Path, n: nat): (r: Option<(nat, nat)>)
    requires n <= |es|
    ensures r.Some? ==> r.value.0 < n && r.value.1 < |es[r.value.0].functions|
    ensures r.Some? ==> Names(p, es[r.value.0].functions[r.value.1])
    ensures r.Some? ==> forall k :: 0 <= k < r.value.1 ==> !Names(p, es[r.value.0].functions[k])
    ensures r.Some? ==> forall i, k :: 0 <= i < r.value.0 && 0 <= k < |es[i].functions| ==> !Names(p, es[i].functions[k])
    ensures r.None? <==> forall i, k :: 0 <= i < n && 0 <= k < |es[i].functions| ==> !Names(p, es[i].functions[k])
    decreases n
  {
    if n == 0 then None
    else
      match LookupBelow(es, p, n - 1)
      case Some(m) => Some(m)
      case None =>
        var fs := es[n - 1].functions;
        match FindBelow(fs, p, |fs|)
        case Some(j) => Some((n - 1, j))
        case None => None
  }

  /** The operation a bare callee `p` resolves to, if any. */
  function Lookup(es: seq<Effect>, p: Path): Option<(nat, nat)> {
    LookupBelow(es, p, |es|)
  }

  /** The callee path of a call never rewritten, or of a rewritten one:
      every effect path has a segment, and at most 26 effects are declared
      (the layer builder has already panicked on a 27th). */
  predicate Rewritable(es: seq<Effect>) {
    |es| <= MaxEffects && forall k :: 0 <= k < |es| ==> |es[k].path.segments| > 0
  }

  /** `<L as path::to::Effect>::ident`: the effect's path with the canonical
      name appended, qualified by the label of slot `i`, the trait being the
      first `|e.path.segments|` segments. */
  function QualifiedCallee(e: Effect, f: EffectFunction, i: nat): Expr
    requires i < MaxEffects
  {
    PathExpr(Some(QSelf([Label(i)], |e.path.segments|)), Path(e.path.global, e.path.segments + [f.ident]))
  }

  /** `n` times the projection `.0`. */
  function Zeros(n: nat): (z: seq<nat>)
    ensures |z| == n && forall k :: 0 <= k < n ==> z[k] == 0
  {
    if n == 0 then [] else Zeros(n - 1) + [0]
  }

  /** The projections from the full composite to handler `i` of `total`:
      `total - i - 1` steps into the previous layer, one into the handler. */
  function AccessPath(total: nat, i: nat): seq<nat>
    requires i < total
  {
    Zeros(total - i - 1) + [1]
  }

  /** `e.s0.s1...`: the tuple fields `steps` taken in order from `e`. */
  function Descend(e: Expr, steps: seq<nat>): Expr
    decreases |steps|
  {
    if |steps| == 0 then e else Descend(Field(e, Unnamed(steps[0])), steps[1..])
  }

  lemma {:induction false} DescendSnoc(e: Expr, steps: seq<nat>, m: nat)
    ensures Descend(e, steps + [m]) == Field(Descend(e, steps), Unnamed(m))
    decreases |steps|
  {
    if |steps| > 0 {
      assert (steps + [m])[1..] == steps[1..] + [m];
      DescendSnoc(Field(e, Unnamed(steps[0])), steps[1..], m);
    }
  }

  /** The call to operation `f` of effect `i` (of `total`) once rewritten:
      the qualified callee, and the handler receiver as first argument when
      the operation takes `self` in some form. */
  function ResolvedCall(e: Effect, f: EffectFunction, i: nat, total: nat, args: seq<Expr>): Expr
    requires i < total <= MaxEffects
  {
    var callee := QualifiedCallee(e, f, i);
    match f.selfReference
    case None => Call(callee, args)
    case Some(m) => Call(callee, [Descend(SelfExpr(m), AccessPath(total, i))] + args)
  }

  /** `visit_expr_call_mut` on `func(args)`: a bare-identifier callee that
      names a declared operation is resolved, any other call is left as it
      is. The arguments are not visited. */
  function RewriteCall(es: seq<Effect>, func: Expr, args: seq<Expr>): Expr
    requires Rewritable(es)
  {
    if func.PathExpr? then
      match Lookup(es, func.path)
      case None => Call(func, args)
      case Some((i, j)) => ResolvedCall(es[i], es[i].functions[j], i, |es|, args)
    else
      Call(func, args)
  }

  /** syn's default `visit_expr_mut` with `visit_expr_call_mut` overridden:
      every call reached is rewritten by `RewriteCall`, which does not
      descend further; every other expression has its parts visited. */
  function RewriteExpr(es: seq<Effect>, e: Expr): Expr
    requires Rewritable(es)
    decreases e
  {
    match e
    case Call(f, a) => RewriteCall(es, f, a)
    case PathExpr(_, _) => e
    case Field(b, m) => Field(RewriteExpr(es, b), m)
    case Reference(m, b) => Reference(m, RewriteExpr(es, b))
    case MethodCall(r, n, a) =>
      MethodCall(RewriteExpr(es, r), n, seq(|a|, k requires 0 <= k < |a| => RewriteExpr(es, a[k])))
    case Binary(op, l, r) => Binary(op, RewriteExpr(es, l), RewriteExpr(es, r))
    case If(c, t, None) => If(RewriteExpr(es, c), RewriteExpr(es, t), None)
    case If(c, t, Some(x)) => If(RewriteExpr(es, c), RewriteExpr(es, t), Some(RewriteExpr(es, x)))
    case Block(ss) => Block(seq(|ss|, k requires 0 <= k < |ss| => RewriteExpr(es, ss[k])))
    case Let(n, None) => e
    case Let(n, Some(x)) => Let(n, Some(RewriteExpr(es, x)))
    case Lit(_) => e
  }

  /** The statements of a function body, each visited. */
  function RewriteBody(es: seq<Effect>, body: seq<Expr>): (r: seq<Expr>)
    requires Rewritable(es)
    ensures |r| == |body| && forall k :: 0 <= k < |body| ==> r[k] == RewriteExpr(es, body[k])
  {
    seq(|body|, k requires 0 <= k < |body| => RewriteExpr(es, body[k]))
  }

  /** `syn::ExprCall`, which the rewriter updates in place. */
  class ExprCall {
    var func: Expr
    var args: seq<Expr>

    constructor (func: Expr, args: seq<Expr>)
      ensures this.func == func && this.args == args
    {
      this.func := func;
      this.args := args;
    }
  }

  /** A one-step `Next` of a counter below `'Z'` returns the next letter. */
  lemma NextLabel(i: nat)
    requires i < MaxEffects
    ensures Step(Start + i) == (Start + i + 1, Some(Label(i)))
  {
  }

  /** Once found, the first match among a prefix is the first match overall. */
  lemma {:induction false} LookupSettled(es: seq<Effect>, p: Path, n: nat, m: nat)
    requires n <= m <= |es| && LookupBelow(es, p, n).Some?
    ensures LookupBelow(es, p, m) == LookupBelow(es, p, n)
    decreases m - n
  {
    if m > n {
      LookupSettled(es, p, n, m - 1);
    }
  }

  lemma {:induction false} FindSettled(fs: seq<EffectFunction>, p: Path, n: nat, m: nat)
    requires n <= m <= |fs| && FindBelow(fs, p, n).Some?
    ensures FindBelow(fs, p, m) == FindBelow(fs, p, n)
    decreases m - n
  {
    if m > n {
      FindSettled(fs, p, n, m - 1);
    }
  }

  /** The first operation a bare callee names, after no earlier one did,
      is the one the call resolves to. */
  lemma FirstMatch(es: seq<Effect>, p: Path, i: nat, j: nat, func: Expr, args: seq<Expr>)
    requires Rewritable(es) && func.PathExpr? && func.path == p
    requires i < |es| && j < |es[i].functions|
    requires LookupBelow(es, p, i).None? && FindBelow(es[i].functions, p, j).None?
    requires Names(p, es[i].functions[j])
    ensures RewriteCall(es, func, args) == ResolvedCall(es[i], es[i].functions[j], i, |es|, args)
  {
    var fs := es[i].functions;
    FindSettled(fs, p, j + 1, |fs|);
    assert LookupBelow(es, p, i + 1) == Some((i, j));
    LookupSettled(es, p, i + 1, |es|);
  }

  /** The handler receiver: `self_reference`, then `eff_len - (i + 1)`
      times `.0`, then `.1`. */
  method BuildReceiver(selfReference: Expr, effLen: nat, i: nat) returns (expr: Expr)
    requires i < effLen
    ensures expr == Descend(selfReference, AccessPath(effLen, i))
  {
    var idx := effLen - (i + 1);
    expr := selfReference;
    for k := 0 to idx
      invariant expr == Descend(selfReference, Zeros(k))
    {
      DescendSnoc(selfReference, Zeros(k), 0);
      expr := Field(expr, Unnamed(0));
    }
    DescendSnoc(selfReference, Zeros(idx), 1);
    expr := Field(expr, Unnamed(1));
  }

  /** The edit `visit_expr_call_mut` makes on a match: the callee becomes
      the effect path plus the operation's name, qualified by `letter` at the
      effect path's length, and the receiver, if any, goes first. */
  method Resolve(node: ExprCall, e: Effect, f: EffectFunction, i: nat, total: nat, letter: char)
    requires i < total <= MaxEffects && letter == Label(i) && |e.path.segments| > 0
    requires node.func.PathExpr?
    modifies node
    ensures Call(node.func, node.args) == ResolvedCall(e, f, i, total, old(node.args))
    ensures node.func.PathExpr? && |node.func.path.segments| >= 2
  {
    var effectPath := e.path;
    effectPath := effectPath.(segments := effectPath.segments + [f.ident]);
    node.func := node.func.(path := effectPath);
    node.func := node.func.(qself := Some(QSelf([letter], |node.func.path.segments| - 1)));
    if f.selfReference.Some? {
      var expr := BuildReceiver(SelfExpr(f.selfReference.value), total, i);
      node.args := [expr] + node.args;
    }
  }

  /** `FuncRewriter`: the visitor, holding the parsed attribute arguments. */
  class FuncRewriter {
    const args: Args

    constructor (args: Args)
      ensures this.args == args
    {
      this.args := args;
    }

    /** `visit_expr_call_mut`: walk the effects alongside a fresh label
        iterator and each effect's operations; on a callee that is the bare
        call name of an operation, replace it by the qualified path and
        insert the handler receiver. Once rewritten, the callee has two
        segments or more and matches nothing further. */
    method VisitExprCallMut(node: ExprCall)
      requires Rewritable(args.effects)
      modifies node
      ensures Call(node.func, node.args) == RewriteCall(args.effects, old(node.func), old(node.args))
    {
      var es := args.effects;
      var effLen := |es|;
      if !node.func.PathExpr? {
        return;
      }
      ghost var p := node.func.path;
      ghost var func0, args0 := node.func, node.args;
      ghost var target := RewriteCall(es, func0, args0);
      var letters := new LettersIter();
      for i := 0 to effLen
        invariant letters.idx == Start + i
        invariant node.func.PathExpr?
        invariant LookupBelow(es, p, i).None? ==> node.func == func0 && node.args == args0
        invariant LookupBelow(es, p, i).Some? ==> Call(node.func, node.args) == target && |node.func.path.segments| >= 2
      {
        var l := letters.Next();
        NextLabel(i);
        var effect := es[i];
        ghost var before := LookupBelow(es, p, i).None?;
        for j := 0 to |effect.functions|
          invariant letters.idx == Start + i + 1
          invariant node.func.PathExpr?
          invariant before && FindBelow(effect.functions, p, j).None? ==> node.func == func0 && node.args == args0
          invariant !before || FindBelow(effect.functions, p, j).Some? ==>
            Call(node.func, node.args) == target && |node.func.path.segments| >= 2
        {
          var f := effect.functions[j];
          var ident := CallName(f);
          if IsIdent(node.func.path, ident) {
            FirstMatch(es, p, i, j, func0, args0);
            Resolve(node, effect, f, i, effLen, l.value);
            assert FindBelow(effect.functions, p, j + 1) == Some(j);
          }
        }
      }
    }

    /** The visitor's walk over an expression, with `VisitExprCallMut` in
        place of the default at every call. */
    method VisitExprMut(e: Expr) returns (r: Expr)
      requires Rewritable(args.effects)
      ensures r == RewriteExpr(args.effects, e)
      decreases e
    {
      match e
      case Call(f, a) =>
        var node := new ExprCall(f, a);
        VisitExprCallMut(node);
        r := Call(node.func, node.args);
      case PathExpr(_, _) =>
        r := e;
      case Field(b, m) =>
        var b' := VisitExprMut(b);
        r := Field(b', m);
      case Reference(m, b) =>
        var b' := VisitExprMut(b);
        r := Reference(m, b');
      case MethodCall(recv, n, a) =>
        var recv' := VisitExprMut(recv);
        var a' := [];
        for k := 0 to |a|
          invariant |a'| == k && forall t :: 0 <= t < k ==> a'[t] == RewriteExpr(args.effects, a[t])
        {
          var x := VisitExprMut(a[k]);
          a' := a' + [x];
        }
        r := MethodCall(recv', n, a');
      case Binary(op, lhs, rhs) =>
        var lhs' := VisitExprMut(lhs);
        var rhs' := VisitExprMut(rhs);
        r := Binary(op, lhs', rhs');
      case If(c, t, x) =>
        var c' := VisitExprMut(c);
        var t' := VisitExprMut(t);
        if x.Some? {
          var x' := VisitExprMut(x.value);
          r := If(c', t', Some(x'));
        } else {
          r := If(c', t', None);
        }
      case Block(ss) =>
        var ss' := [];
        for k := 0 to |ss|
          invariant |ss'| == k && forall t :: 0 <= t < k ==> ss'[t] == RewriteExpr(args.effects, ss[t])
        {
          var x := VisitExprMut(ss[k]);
          ss' := ss' + [x];
        }
        r := Block(ss');
      case Let(n, x) =>
        if x.Some? {
          var x' := VisitExprMut(x.value);
          r := Let(n, Some(x'));
        } else {
          r := e;
        }
      case Lit(_) =>
        r := e;
    }

    /** `visit_item_fn_mut`: the statements of the body, in order. */
    method VisitItemFnMut(func: ItemFn) returns (r: ItemFn)
      requires Rewritable(args.effects)
      ensures r == func.(body := RewriteBody(args.effects, func.body))
    {
      var body := [];
      for k := 0 to |func.body|
        invariant |body| == k && forall t :: 0 <= t < k ==> body[t] == RewriteExpr(args.effects, func.body[t])
      {
        var x := VisitExprMut(func.body[k]);
        body := body + [x];
      }
      r := func.(body := body);
    }
  }

  /** The `run` method made of the annotated function. */
  function RunFn(es: seq<Effect>, func: ItemFn): ItemFn
    requires Rewritable(es)
  {
    ItemFn("run", [SelfReceiver(true)] + func.inputs, func.output, RewriteBody(es, func.body))
  }

  /** `rewrite_func`: the function renamed `run`, `mut self` inserted as its
      first parameter with the other parameters shifted by one, the return
      type kept and the body rewritten. */
  method RewriteFunc(func: ItemFn, args: Args) returns (r: ItemFn)
    requires Rewritable(args.effects)
    ensures r.ident == "run" && r.output == func.output
    ensures |r.inputs| == |func.inputs| + 1 && r.inputs[0] == SelfReceiver(true)
    ensures forall k :: 0 <= k < |func.inputs| ==> r.inputs[k + 1] == func.inputs[k]
    ensures r.body == RewriteBody(args.effects, func.body)
    ensures r == RunFn(args.effects, func)
  {
    r := func.(ident := "run");
    r := r.(inputs := [SelfReceiver(true)] + r.inputs);
    var rewriter := new FuncRewriter(args);
    r := rewriter.VisitItemFnMut(r);
  }

  // ---------------------------------------------------------------------
  // What a rewritten call is.

  /** A call is left as it is unless its callee is a bare identifier naming
      a declared operation; calls nested in its arguments are not visited. */
  lemma UnmatchedCallUntouched(es: seq<Effect>, func: Expr, args: seq<Expr>)
    requires Rewritable(es)
    requires !func.PathExpr? || forall i, k :: 0 <= i < |es| && 0 <= k < |es[i].functions| ==> !Names(func.path, es[i].functions[k])
    ensures RewriteExpr(es, Call(func, args)) == Call(func, args)
  {
  }

  /** First declared match wins: a call naming operation `j` of effect `i`,
      where no operation of an earlier effect and no earlier operation of
      effect `i` has that call name, becomes the qualified call of
      operation `j` through slot `i`. */
  lemma FirstDeclaredMatchWins(es: seq<Effect>, func: Expr, args: seq<Expr>, i: nat, j: nat)
    requires Rewritable(es) && func.PathExpr?
    requires i < |es| && j < |es[i].functions| && Names(func.path, es[i].functions[j])
    requires forall k :: 0 <= k < j ==> !Names(func.path, es[i].functions[k])
    requires forall i', k :: 0 <= i' < i && 0 <= k < |es[i'].functions| ==> !Names(func.path, es[i'].functions[k])
    ensures RewriteExpr(es, Call(func, args)) == ResolvedCall(es[i], es[i].functions[j], i, |es|, args)
  {
    FirstMatch(es, func.path, i, j, func, args);
  }

  /** With an alias only the alias is matched: a call by the canonical name
      does not name the operation. */
  lemma AliasHidesName(f: EffectFunction, p: Path)
    requires f.alias.Some? && f.alias.value != f.ident
    ensures Names(p, f) <==> IsIdent(p, f.alias.value)
    ensures !Names(Path(false, [f.ident]), f)
  {
  }

  /** The rewritten call: the effect's path with the canonical name
      appended, qualified by slot `i`'s label with the trait ending at
      segment `|effect path|`; the receiver, when the operation takes one,
      in front of the original arguments, which are kept as they are. */
  lemma ResolvedCallShape(e: Effect, f: EffectFunction, i: nat, total: nat, args: seq<Expr>)
    requires i < total <= MaxEffects
    ensures
      var r := ResolvedCall(e, f, i, total, args);
      r.Call? && r.func.PathExpr? && r.func.qself == Some(QSelf([Label(i)], |e.path.segments|)) &&
      r.func.path.global == e.path.global &&
      r.func.path.segments[..|e.path.segments|] == e.path.segments &&
      r.func.path.segments[|e.path.segments|..] == [f.ident] &&
      (f.selfReference.None? ==> r.args == args) &&
      (f.selfReference.Some? ==>
        |r.args| == |args| + 1 && r.args[1..] == args &&
        r.args[0] == Descend(SelfExpr(f.selfReference.value), AccessPath(total, i)))
  {
    var r := ResolvedCall(e, f, i, total, args);
    assert r.func.path.segments == e.path.segments + [f.ident];
    if f.selfReference.Some? {
      var recv := Descend(SelfExpr(f.selfReference.value), AccessPath(total, i));
      assert r.args == [recv] + args;
      assert ([recv] + args)[1..] == args;
    }
  }

  /** A rewritten callee has two segments or more, so it names nothing. */
  lemma QualifiedNamesNothing(es: seq<Effect>, e: Effect, f: EffectFunction, i: nat)
    requires i < MaxEffects && |e.path.segments| > 0
    ensures QualifiedCallee(e, f, i).PathExpr?
    ensures Lookup(es, QualifiedCallee(e, f, i).path).None?
  {
    var p := QualifiedCallee(e, f, i).path;
    assert |p.segments| >= 2;
  }

  /** Rewriting a rewritten call changes nothing. */
  lemma RewriteCallIdempotent(es: seq<Effect>, func: Expr, args: seq<Expr>)
    requires Rewritable(es)
    ensures
      var r := RewriteCall(es, func, args);
      r.Call? && RewriteCall(es, r.func, r.args) == r
  {
    if func.PathExpr? && Lookup(es, func.path).Some? {
      var (i, j) := Lookup(es, func.path).value;
      QualifiedNamesNothing(es, es[i], es[i].functions[j], i);
    }
  }

  /** Rewriting a whole expression twice is rewriting it once: generation
      is stable on its own output. */
  lemma {:induction false} RewriteIdempotent(es: seq<Effect>, e: Expr)
    requires Rewritable(es)
    ensures RewriteExpr(es, RewriteExpr(es, e)) == RewriteExpr(es, e)
    decreases e
  {
    match e
    case Call(f, a) =>
      RewriteCallIdempotent(es, f, a);
    case PathExpr(_, _) =>
    case Field(b, m) =>
      RewriteIdempotent(es, b);
    case Reference(m, b) =>
      RewriteIdempotent(es, b);
    case MethodCall(r, n, a) =>
      RewriteIdempotent(es, r);
      forall k | 0 <= k < |a| ensures RewriteExpr(es, RewriteExpr(es, a[k])) == RewriteExpr(es, a[k]) {
        RewriteIdempotent(es, a[k]);
      }
    case Binary(op, l, r) =>
      RewriteIdempotent(es, l);
      RewriteIdempotent(es, r);
    case If(c, t, x) =>
      RewriteIdempotent(es, c);
      RewriteIdempotent(es, t);
      if x.Some? {
        RewriteIdempotent(es, x.value);
      }
    case Block(ss) =>
      forall k | 0 <= k < |ss| ensures RewriteExpr(es, RewriteExpr(es, ss[k])) == RewriteExpr(es, ss[k]) {
        RewriteIdempotent(es, ss[k]);
      }
    case Let(n, x) =>
      if x.Some? {
        RewriteIdempotent(es, x.value);
      }
    case Lit(_) =>
  }

  // ---------------------------------------------------------------------
  // Where the receiver leads at run time.

  /** A run-time value of the generated types: the program struct, a layer
      pairing the previous value (`.0`) with a handler (`.1`), or handler
      number `id`. */
  datatype Value = Root | Pair(prev: Value, handler: Value) | Handler(id: nat)

  /** `Prog.add(h0).add(h1)...`: each `add` wraps the value so far and the
      new handler in one more pair. */
  function Attach(hs: seq<nat>): Value {
    if |hs| == 0 then Root else Pair(Attach(hs[..|hs| - 1]), Handler(hs[|hs| - 1]))
  }

  /** The tuple field `.k` of `v`. */
  function FieldOf(v: Option<Value>, k: nat): Option<Value> {
    match v
    case Some(Pair(p, h)) => if k == 0 then Some(p) else if k == 1 then Some(h) else None
    case _ => None
  }

  /** The tuple fields `steps`, taken in order from `v`. */
  function Project(v: Option<Value>, steps: seq<nat>): Option<Value>
    decreases |steps|
  {
    if |steps| == 0 then v else Project(FieldOf(v, steps[0]), steps[1..])
  }

  /** The place a receiver expression denotes when `self` is `v`; a borrow
      denotes the place it borrows. */
  function Eval(e: Expr, v: Value): Option<Value> {
    match e
    case PathExpr(None, p) => if p == Path(false, ["self"]) then Some(v) else None
    case Field(b, Unnamed(k)) => FieldOf(Eval(b, v), k)
    case Reference(_, b) => Eval(b, v)
    case _ => None
  }

  lemma {:induction false} EvalDescend(e: Expr, steps: seq<nat>, v: Value)
    ensures Eval(Descend(e, steps), v) == Project(Eval(e, v), steps)
    decreases |steps|
  {
    if |steps| > 0 {
      EvalDescend(Field(e, Unnamed(steps[0])), steps[1..], v);
    }
  }

  lemma {:induction false} AccessPathReachesHandler(hs: seq<nat>, i: nat)
    requires i < |hs|
    ensures Project(Some(Attach(hs)), AccessPath(|hs|, i)) == Some(Handler(hs[i]))
    decreases |hs|
  {
    var n := |hs|;
    var prev := hs[..n - 1];
    assert Attach(hs) == Pair(Attach(prev), Handler(hs[n - 1]));
    if i < n - 1 {
      var path := AccessPath(n, i);
      assert path == [0] + AccessPath(n - 1, i) by {
        assert Zeros(n - i - 1) == [0] + Zeros(n - i - 2);
      }
      assert path[1..] == AccessPath(n - 1, i);
      AccessPathReachesHandler(prev, i);
      assert prev[i] == hs[i];
    } else {
      assert AccessPath(n, i) == [1];
    }
  }

  /** The receiver the rewriter inserts for effect `i` of `n` denotes, in
      the composite `Prog.add(h0)...add(h(n-1))`, exactly handler `i`:
      handlers attached earlier sit deeper, behind more `.0` steps. */
  lemma ReceiverIsHandler(m: SelfMode, hs: seq<nat>, i: nat)
    requires i < |hs|
    ensures Eval(Descend(SelfExpr(m), AccessPath(|hs|, i)), Attach(hs)) == Some(Handler(hs[i]))
  {
    EvalSelf(m, Attach(hs));
    EvalDescend(SelfExpr(m), AccessPath(|hs|, i), Attach(hs));
    AccessPathReachesHandler(hs, i);
  }

  /** Every self mode denotes `self` itself. */
  lemma EvalSelf(m: SelfMode, v: Value)
    ensures Eval(SelfExpr(m), v) == Some(v)
  {
  }
}
