/** effers-derive/src/parse.rs: the grammar of the attribute arguments
    `Name => Path(op, op(&mut self) as alias, ...), ...`.

    syn's `ParseStream` is modelled twice: as pure functions over a token
    sequence and a position (the specification, used by the lemmas), and as
    the class `ParseStream`, a cursor the parse methods advance, proved to
    agree with those functions. */
module Parse {
  import opened Wrappers
  import opened Syntax

  /** How an operation takes its handler: `(&mut self)`, `(&self)` or
      `(self)`. */
  datatype SelfMode = ByMutRef | ByRef | ByValue

  /** `EffectFunction`: an operation of an effect. The receiver expression
      syn stores in `self_reference` is `SelfExpr` of the mode. */
  datatype EffectFunction = EffectFunction(ident: Ident, alias: Option<Ident>, selfReference: Option<SelfMode>)

  /** `Effect`: the trait path, its display name and its operations. */
  datatype Effect = Effect(name: Ident, path: Path, functions: seq<EffectFunction>)

  /** `Args`: the optional program name and the effects in declaration order. */
  datatype Args = Args(name: Option<Ident>, effects: seq<Effect>)

  /** The expression `self_reference` holds for a mode. */
  function SelfExpr(m: SelfMode): (e: Expr)
    ensures IsPlace(e)
  {
    match m
    case ByMutRef => Reference(true, SelfPath)
    case ByRef => Reference(false, SelfPath)
    case ByValue => SelfPath
  }

  /** Words syn's `Ident` parser refuses: the list of syn 1.0, that is the
      Rust 2018 strict and reserved keywords and `_` (releases before 1.0
      still took `async`, `await`, `dyn` and `try` as identifiers). */
  predicate Reserved(s: string) {
    s in {
    "_", "abstract", "as", "async", "await", "become", "box", "break", "const", "continue",
    "crate", "do", "dyn", "else", "enum", "extern", "false", "final", "fn", "for", "if",
    "impl", "in", "let", "loop", "macro", "match", "mod", "move", "mut", "override", "priv",
    "pub", "ref", "return", "Self", "self", "static", "struct", "super", "trait", "true",
    "try", "type", "typeof", "unsafe", "unsized", "use", "virtual", "where", "while", "yield"}
  }

  predicate PathKeyword(s: string) {
    s in {"super", "self", "crate", "try", "Self"}
  }

  /** A parse result: the value and the position after it. */
  type Parsed<T> = Result<(T, nat), Error>

  /** `peek`, `peek2`, `peek3`: the token `k` places after the cursor. */
  function PeekAt(ts: seq<Token>, p: nat, k: nat): Option<Token> {
    if p + k < |ts| then Some(ts[p + k]) else None
  }

  /** `Ident::peek`: a word that is not reserved. */
  predicate IsIdentToken(t: Option<Token>) {
    t.Some? && t.value.Word? && !Reserved(t.value.text)
  }

  predicate IsGroup(t: Option<Token>) {
    t.Some? && t.value.Parens?
  }

  /** `input.parse::<Ident>()`. */
  function IdentAt(ts: seq<Token>, p: nat): (r: Parsed<Ident>)
    ensures r.Ok? <==> IsIdentToken(PeekAt(ts, p, 0))
    ensures r.Ok? ==> r.value.1 == p + 1 && p < |ts| && ts[p] == Word(r.value.0)
  {
    if IsIdentToken(PeekAt(ts, p, 0)) then Ok((ts[p].text, p + 1)) else Err(ExpectedIdent)
  }

  /** `input.parse::<Token![op]>()`. */
  function PunctAt(ts: seq<Token>, p: nat, op: string): (r: Parsed<()>)
    ensures r.Ok? <==> PeekAt(ts, p, 0) == Some(Punct(op))
    ensures r.Ok? ==> r.value.1 == p + 1
  {
    if PeekAt(ts, p, 0) == Some(Punct(op)) then Ok(((), p + 1)) else Err(ExpectedPunct(op))
  }

  /** `PathSegment::parse`: `super`, `self`, `crate`, `try` and `Self` are
      taken as they are, anything else must be an identifier. */
  function SegmentAt(ts: seq<Token>, p: nat): (r: Parsed<Ident>)
    ensures r.Ok? ==> r.value.1 == p + 1 && p < |ts| && ts[p] == Word(r.value.0)
    ensures r.Ok? ==> !Reserved(r.value.0) || PathKeyword(r.value.0)
  {
    if p < |ts| && ts[p].Word? && PathKeyword(ts[p].text) then Ok((ts[p].text, p + 1))
    else IdentAt(ts, p)
  }

  /** `Path::parse_rest`: more segments while the cursor is at `::` that is
      not followed by a parenthesised group. */
  function PathRestAt(ts: seq<Token>, p: nat, segs: seq<Ident>): (r: Parsed<seq<Ident>>)
    requires p <= |ts|
    ensures r.Ok? ==> |segs| <= |r.value.0| && p <= r.value.1 <= |ts|
    decreases |ts| - p
  {
    if PeekAt(ts, p, 0) == Some(Punct("::")) && !IsGroup(PeekAt(ts, p, 1)) then
      var s :- SegmentAt(ts, p + 1);
      PathRestAt(ts, s.1, segs + [s.0])
    else
      Ok((segs, p))
  }

  /** `input.parse::<Path>()`: an optional leading `::` and at least one
      segment. */
  function PathAt(ts: seq<Token>, p: nat): (r: Parsed<Path>)
    requires p <= |ts|
    ensures r.Ok? ==> p < r.value.1 <= |ts| && |r.value.0.segments| > 0
  {
    var global := PeekAt(ts, p, 0) == Some(Punct("::"));
    var q := if global then p + 1 else p;
    var first :- SegmentAt(ts, q);
    var rest :- PathRestAt(ts, first.1, [first.0]);
    Ok((Path(global, rest.0), rest.1))
  }

  /** The effect's display name: the last segment of its path. */
  function EffectName(path: Path): (r: Result<Ident, Error>)
    ensures r.Ok? <==> |path.segments| > 0
    ensures r.Ok? ==> r.value == path.segments[|path.segments| - 1]
  {
    if |path.segments| == 0 then Err(EmptyPath) else Ok(path.segments[|path.segments| - 1])
  }

  const AmpMutSelf: seq<Token> := [Punct("&"), Word("mut"), Word("self")]
  const AmpSelf: seq<Token> := [Punct("&"), Word("self")]
  const JustSelf: seq<Token> := [Word("self")]

  /** The contents of `ident( ... )`: classified by peeking at the first
      three tokens; whatever the chosen branch leaves unparsed is an
      "unexpected token" error. Only the bare receivers are modelled: the
      longer expressions syn's expression parsers would also read after
      `&self`, `&mut self` or `self` (a field access, a `self::` path) are
      errors here. */
  function SelfModeOf(content: seq<Token>): Result<Option<SelfMode>, Error> {
    var t0, t1, t2 := PeekAt(content, 0, 0), PeekAt(content, 0, 1), PeekAt(content, 0, 2);
    var (mode, used) :=
      if t0 == Some(Punct("&")) && t1 == Some(Word("mut")) && t2 == Some(Word("self")) then (Some(ByMutRef), 3)
      else if t0 == Some(Punct("&")) && t1 == Some(Word("self")) then (Some(ByRef), 2)
      else if t0 == Some(Word("self")) then (Some(ByValue), 1)
      else (None, 0);
    if used < |content| then Err(UnexpectedToken) else Ok(mode)
  }

  /** The four accepted forms, each read back as its mode; anything else
      inside the parentheses is an error. */
  lemma SelfModeOfSpec(content: seq<Token>)
    ensures SelfModeOf(content) == Ok(Some(ByMutRef)) <==> content == AmpMutSelf
    ensures SelfModeOf(content) == Ok(Some(ByRef)) <==> content == AmpSelf
    ensures SelfModeOf(content) == Ok(Some(ByValue)) <==> content == JustSelf
    ensures SelfModeOf(content) == Ok(None) <==> content == []
    ensures SelfModeOf(content).Err? ==> SelfModeOf(content).error == UnexpectedToken
  {
  }

  /** The optional `(...)` after an operation's name. */
  function SelfReferenceAt(ts: seq<Token>, p: nat): (r: Parsed<Option<SelfMode>>)
    requires p <= |ts|
    ensures r.Ok? ==> r.value.1 == (if IsGroup(PeekAt(ts, p, 0)) then p + 1 else p)
  {
    if IsGroup(PeekAt(ts, p, 0)) then
      var mode :- SelfModeOf(ts[p].inner);
      Ok((mode, p + 1))
    else
      Ok((None, p))
  }

  /** The optional `as alias`: after `as` the alias is parsed as an
      `Option<Ident>`, so `as` followed by anything but an identifier gives
      no alias and consumes only `as`. */
  function AliasAt(ts: seq<Token>, p: nat): (r: (Option<Ident>, nat))
    requires p <= |ts|
    ensures r.0.Some? <==> PeekAt(ts, p, 0) == Some(Word("as")) && IsIdentToken(PeekAt(ts, p, 1))
    ensures r.0.Some? ==> ts[p + 1] == Word(r.0.value) && r.1 == p + 2
    ensures r.0.None? ==> r.1 == if PeekAt(ts, p, 0) == Some(Word("as")) then p + 1 else p
  {
    if PeekAt(ts, p, 0) == Some(Word("as")) then
      if IsIdentToken(PeekAt(ts, p, 1)) then (Some(ts[p + 1].text), p + 2) else (None, p + 1)
    else
      (None, p)
  }

  /** `EffectFunction::parse`: `ident`, then the optional self mode, then the
      optional alias. */
  function EffectFunctionAt(ts: seq<Token>, p: nat): (r: Parsed<EffectFunction>)
    requires p <= |ts|
    ensures r.Ok? ==> p < r.value.1 <= |ts|
  {
    var id :- IdentAt(ts, p);
    var sr :- SelfReferenceAt(ts, id.1);
    var al := AliasAt(ts, sr.1);
    Ok((EffectFunction(id.0, al.0, sr.0), al.1))
  }

  /** `Punctuated::<EffectFunction, Token![,]>::parse_terminated`: items
      separated by commas, an optional trailing comma, up to the end. */
  function FunctionsFrom(ts: seq<Token>, p: nat): Result<seq<EffectFunction>, Error>
    requires p <= |ts|
    decreases |ts| - p
  {
    if p == |ts| then Ok([])
    else
      var f :- EffectFunctionAt(ts, p);
      if f.1 == |ts| then Ok([f.0])
      else
        var c :- PunctAt(ts, f.1, ",");
        var rest :- FunctionsFrom(ts, c.1);
        Ok([f.0] + rest)
  }

  /** `Effect::parse`: a path, then a parenthesised operation list. */
  function EffectAt(ts: seq<Token>, p: nat): (r: Parsed<Effect>)
    requires p <= |ts|
    ensures r.Ok? ==> p < r.value.1 <= |ts|
  {
    var path :- PathAt(ts, p);
    if IsGroup(PeekAt(ts, path.1, 0)) then
      var functions :- FunctionsFrom(ts[path.1].inner, 0);
      // the `expect` cannot fire: a parsed path has a segment
      var name := EffectName(path.0).value;
      Ok((Effect(name, path.0, functions), path.1 + 1))
    else
      Err(ExpectedParens)
  }

  /** `Punctuated::<Effect, Token![,]>::parse_terminated`. */
  function EffectsFrom(ts: seq<Token>, p: nat): Result<seq<Effect>, Error>
    requires p <= |ts|
    decreases |ts| - p
  {
    if p == |ts| then Ok([])
    else
      var e :- EffectAt(ts, p);
      if e.1 == |ts| then Ok([e.0])
      else
        var c :- PunctAt(ts, e.1, ",");
        var rest :- EffectsFrom(ts, c.1);
        Ok([e.0] + rest)
  }

  /** `Args::parse`: a program name is present exactly when the second
      token is `=>`, and it is then the first token. */
  function ArgsOf(ts: seq<Token>): (r: Result<Args, Error>)
    ensures r.Ok? ==> (r.value.name.Some? <==> |ts| >= 2 && ts[1] == Punct("=>"))
    ensures r.Ok? && r.value.name.Some? ==> ts[0] == Word(r.value.name.value) && !Reserved(r.value.name.value)
  {
    if PeekAt(ts, 0, 1) == Some(Punct("=>")) then
      var name :- IdentAt(ts, 0);
      // the peeked `=>` is consumed
      var effects :- EffectsFrom(ts, PunctAt(ts, name.1, "=>").value.1);
      Ok(Args(Some(name.0), effects))
    else
      var effects :- EffectsFrom(ts, 0);
      Ok(Args(None, effects))
  }

  /** A method result agrees with the specification: the same value and
      the cursor just after it, or the same error. */
  predicate Follows<T(==)>(spec: Parsed<T>, r: Result<T, Error>, pos: nat) {
    match spec
    case Ok(v) => r == Ok(v.0) && pos == v.1
    case Err(e) => r == Err(e)
  }

  /** `xs` followed by the items of `r`, or the error of `r`. */
  function Prepend<T>(xs: seq<T>, r: Result<seq<T>, Error>): Result<seq<T>, Error> {
    match r
    case Ok(ys) => Ok(xs + ys)
    case Err(e) => Err(e)
  }

  /** A list is its head followed by its tail. */
  lemma Cons<T>(xs: seq<T>, r: Result<seq<T>, Error>, tail: Result<seq<T>, Error>)
    requires |xs| > 0 && r == Prepend([xs[0]], tail) && tail == Ok(xs[1..])
    ensures r == Ok(xs)
  {
    assert [xs[0]] + xs[1..] == xs;
  }

  lemma PrependAppend<T>(xs: seq<T>, ys: seq<T>, r: Result<seq<T>, Error>)
    ensures Prepend(xs, Prepend(ys, r)) == Prepend(xs + ys, r)
    ensures Prepend([], r) == r
  {
    match r
    case Ok(zs) =>
      assert xs + (ys + zs) == (xs + ys) + zs;
      assert [] + zs == zs;
    case Err(_) =>
  }

  /** The path built from an optional leading `::` and the parsed segments. */
  function PathFrom(global: bool, segs: Parsed<seq<Ident>>): Parsed<Path> {
    match segs
    case Ok(v) => Ok((Path(global, v.0), v.1))
    case Err(e) => Err(e)
  }

  /** syn's `ParseStream`: a cursor into a token sequence. */
  class ParseStream {
    const tokens: seq<Token>
    var pos: nat

    ghost predicate Valid()
      reads this
    {
      pos <= |tokens|
    }

    constructor (ts: seq<Token>)
      ensures Valid() && tokens == ts && pos == 0
    {
      tokens := ts;
      pos := 0;
    }

    /** `peek`, `peek2`, `peek3`. */
    method Peek(k: nat) returns (t: Option<Token>)
      ensures t == PeekAt(tokens, pos, k)
    {
      t := if pos + k < |tokens| then Some(tokens[pos + k]) else None;
    }

    method IsEmpty() returns (b: bool)
      requires Valid()
      ensures b <==> pos == |tokens|
    {
      b := pos == |tokens|;
    }

    /** Consumes `k` tokens already inspected with `Peek`. */
    method Skip(k: nat)
      requires pos + k <= |tokens|
      modifies this
      ensures Valid() && pos == old(pos) + k
    {
      pos := pos + k;
    }

    /** `parse::<Ident>()`. */
    method ParseIdent() returns (r: Result<Ident, Error>)
      requires Valid()
      modifies this
      ensures Valid() && Follows(IdentAt(tokens, old(pos)), r, pos)
    {
      var t := Peek(0);
      if IsIdentToken(t) {
        pos := pos + 1;
        r := Ok(t.value.text);
      } else {
        r := Err(ExpectedIdent);
      }
    }

    /** `parse::<Token![op]>()`. */
    method ParsePunct(op: string) returns (r: Result<(), Error>)
      requires Valid()
      modifies this
      ensures Valid() && Follows(PunctAt(tokens, old(pos), op), r, pos)
    {
      var t := Peek(0);
      if t == Some(Punct(op)) {
        pos := pos + 1;
        r := Ok(());
      } else {
        r := Err(ExpectedPunct(op));
      }
    }

    /** `PathSegment::parse`. */
    method ParseSegment() returns (r: Result<Ident, Error>)
      requires Valid()
      modifies this
      ensures Valid() && Follows(SegmentAt(tokens, old(pos)), r, pos)
    {
      var t := Peek(0);
      if t.Some? && t.value.Word? && PathKeyword(t.value.text) {
        pos := pos + 1;
        r := Ok(t.value.text);
      } else {
        r := ParseIdent();
      }
    }

    /** `parse::<Path>()`. */
    method ParsePath() returns (r: Result<Path, Error>)
      requires Valid()
      modifies this
      ensures Valid() && Follows(PathAt(tokens, old(pos)), r, pos)
    {
      var t := Peek(0);
      var global := t == Some(Punct("::"));
      if global {
        pos := pos + 1;
      }
      var first :- ParseSegment();
      var segs := [first];
      while true
        invariant Valid() && pos >= old(pos)
        invariant PathAt(tokens, old(pos)) == PathFrom(global, PathRestAt(tokens, pos, segs))
        decreases |tokens| - pos
      {
        var a := Peek(0);
        var b := Peek(1);
        if !(a == Some(Punct("::")) && !IsGroup(b)) {
          break;
        }
        pos := pos + 1;
        var s :- ParseSegment();
        segs := segs + [s];
      }
      return Ok(Path(global, segs));
    }

    /** `parenthesized!(content in input)`: a fresh stream over the group's
        contents. */
    method Parenthesized() returns (r: Result<ParseStream, Error>)
      requires Valid()
      modifies this
      ensures Valid()
      ensures IsGroup(PeekAt(tokens, old(pos), 0)) ==>
        r.Ok? && fresh(r.value) && r.value.Valid() && r.value.pos == 0 &&
        r.value.tokens == tokens[old(pos)].inner && pos == old(pos) + 1
      ensures !IsGroup(PeekAt(tokens, old(pos), 0)) ==>
        r == Err(ExpectedParens) && pos == old(pos)
    {
      var t := Peek(0);
      if IsGroup(t) {
        pos := pos + 1;
        var content := new ParseStream(t.value.inner);
        r := Ok(content);
      } else {
        r := Err(ExpectedParens);
      }
    }
  }

  /** The self-mode part of `EffectFunction::parse`. */
  method ParseSelfReference(input: ParseStream) returns (r: Result<Option<SelfMode>, Error>)
    requires input.Valid()
    modifies input
    ensures input.Valid() && Follows(SelfReferenceAt(input.tokens, old(input.pos)), r, input.pos)
  {
    var t := input.Peek(0);
    if !IsGroup(t) {
      return Ok(None);
    }
    var group := input.Parenthesized();
    var content := group.value;
    var a := content.Peek(0);
    var b := content.Peek(1);
    var c := content.Peek(2);
    var mode: Option<SelfMode>;
    if a == Some(Punct("&")) && b == Some(Word("mut")) && c == Some(Word("self")) {
      content.Skip(3);
      mode := Some(ByMutRef);
    } else if a == Some(Punct("&")) && b == Some(Word("self")) {
      content.Skip(2);
      mode := Some(ByRef);
    } else if a == Some(Word("self")) {
      content.Skip(1);
      mode := Some(ByValue);
    } else {
      mode := None;
    }
    var done := content.IsEmpty();
    if !done {
      return Err(UnexpectedToken);
    }
    return Ok(mode);
  }

  /** `EffectFunction::parse`. */
  method ParseEffectFunction(input: ParseStream) returns (r: Result<EffectFunction, Error>)
    requires input.Valid()
    modifies input
    ensures input.Valid() && Follows(EffectFunctionAt(input.tokens, old(input.pos)), r, input.pos)
  {
    var ident :- input.ParseIdent();
    var selfReference :- ParseSelfReference(input);
    var alias: Option<Ident> := None;
    var t := input.Peek(0);
    if t == Some(Word("as")) {
      input.Skip(1);
      var u := input.Peek(0);
      if IsIdentToken(u) {
        input.Skip(1);
        alias := Some(u.value.text);
      }
    }
    return Ok(EffectFunction(ident, alias, selfReference));
  }

  /** `Punctuated::<EffectFunction, Token![,]>::parse_terminated`. */
  method ParseFunctionList(input: ParseStream) returns (r: Result<seq<EffectFunction>, Error>)
    requires input.Valid()
    modifies input
    ensures input.Valid() && r == FunctionsFrom(input.tokens, old(input.pos))
  {
    var fs := [];
    PrependAppend(fs, fs, FunctionsFrom(input.tokens, input.pos));
    while true
      invariant input.Valid() && input.pos >= old(input.pos)
      invariant FunctionsFrom(input.tokens, old(input.pos)) == Prepend(fs, FunctionsFrom(input.tokens, input.pos))
      decreases |input.tokens| - input.pos
    {
      var empty := input.IsEmpty();
      if empty {
        assert fs + [] == fs;
        return Ok(fs);
      }
      ghost var start := input.pos;
      var f :- ParseEffectFunction(input);
      empty := input.IsEmpty();
      if empty {
        PrependAppend(fs, [f], Ok([]));
        return Ok(fs + [f]);
      }
      var comma :- input.ParsePunct(",");
      assert FunctionsFrom(input.tokens, start) == Prepend([f], FunctionsFrom(input.tokens, input.pos));
      PrependAppend(fs, [f], FunctionsFrom(input.tokens, input.pos));
      fs := fs + [f];
    }
  }

  /** `Effect::parse`. */
  method ParseEffect(input: ParseStream) returns (r: Result<Effect, Error>)
    requires input.Valid()
    modifies input
    ensures input.Valid() && Follows(EffectAt(input.tokens, old(input.pos)), r, input.pos)
  {
    var path :- input.ParsePath();
    var content :- input.Parenthesized();
    var functions :- ParseFunctionList(content);
    var name := EffectName(path).value;
    return Ok(Effect(name, path, functions));
  }

  /** `Punctuated::<Effect, Token![,]>::parse_terminated`. */
  method ParseEffectList(input: ParseStream) returns (r: Result<seq<Effect>, Error>)
    requires input.Valid()
    modifies input
    ensures input.Valid() && r == EffectsFrom(input.tokens, old(input.pos))
  {
    var es := [];
    PrependAppend(es, es, EffectsFrom(input.tokens, input.pos));
    while true
      invariant input.Valid() && input.pos >= old(input.pos)
      invariant EffectsFrom(input.tokens, old(input.pos)) == Prepend(es, EffectsFrom(input.tokens, input.pos))
      decreases |input.tokens| - input.pos
    {
      var empty := input.IsEmpty();
      if empty {
        assert es + [] == es;
        return Ok(es);
      }
      ghost var start := input.pos;
      var e :- ParseEffect(input);
      empty := input.IsEmpty();
      if empty {
        PrependAppend(es, [e], Ok([]));
        return Ok(es + [e]);
      }
      var comma :- input.ParsePunct(",");
      assert EffectsFrom(input.tokens, start) == Prepend([e], EffectsFrom(input.tokens, input.pos));
      PrependAppend(es, [e], EffectsFrom(input.tokens, input.pos));
      es := es + [e];
    }
  }

  /** `Args::parse`, run on the whole attribute stream. */
  method ParseArgs(input: ParseStream) returns (r: Result<Args, Error>)
    requires input.Valid() && input.pos == 0
    modifies input
    ensures r == ArgsOf(input.tokens)
  {
    var second := input.Peek(1);
    var name: Option<Ident> := None;
    if second == Some(Punct("=>")) {
      var n :- input.ParseIdent();
      var arrow := input.ParsePunct("=>");  // cannot fail: `=>` was peeked
      name := Some(n);
    }
    var effects :- ParseEffectList(input);
    return Ok(Args(name, effects));
  }

  // ---------------------------------------------------------------------
  // What the parser produces, and the declaration syntax it inverts.

  /** An identifier syn's `Ident` parser returns from a well-lexed stream. */
  predicate UsableIdent(s: string) {
    ValidIdent(s) && !Reserved(s)
  }

  /** A path segment syn's path parser returns from a well-lexed stream. */
  predicate SegmentWord(s: string) {
    ValidIdent(s) && (!Reserved(s) || PathKeyword(s))
  }

  predicate WellFormedFunction(f: EffectFunction) {
    UsableIdent(f.ident) && (f.alias.Some? ==> UsableIdent(f.alias.value))
  }

  predicate WellFormedEffect(e: Effect) {
    |e.path.segments| > 0 &&
    (forall k :: 0 <= k < |e.path.segments| ==> SegmentWord(e.path.segments[k])) &&
    e.name == e.path.segments[|e.path.segments| - 1] &&
    forall k :: 0 <= k < |e.functions| ==> WellFormedFunction(e.functions[k])
  }

  /** The shape of every `Args` the parser returns. */
  predicate WellFormedArgs(a: Args) {
    (a.name.Some? ==> UsableIdent(a.name.value)) &&
    forall k :: 0 <= k < |a.effects| ==> WellFormedEffect(a.effects[k])
  }

  function ModeTokens(m: SelfMode): seq<Token> {
    match m
    case ByMutRef => AmpMutSelf
    case ByRef => AmpSelf
    case ByValue => JustSelf
  }

  /** The declaration syntax of one operation: `ident`, `(mode)`, `as alias`. */
  function RenderFunction(f: EffectFunction): (ts: seq<Token>)
    ensures |ts| > 0 && ts[0] == Word(f.ident)
  {
    [Word(f.ident)]
    + (match f.selfReference case None => [] case Some(m) => [Parens(ModeTokens(m))])
    + (match f.alias case None => [] case Some(a) => [Word("as"), Word(a)])
  }

  function RenderFunctions(fs: seq<EffectFunction>): seq<Token> {
    if |fs| == 0 then []
    else if |fs| == 1 then RenderFunction(fs[0])
    else RenderFunction(fs[0]) + [Punct(",")] + RenderFunctions(fs[1..])
  }

  function RenderEffect(e: Effect): (ts: seq<Token>)
    ensures |ts| > 0
  {
    PrintPath(e.path) + [Parens(RenderFunctions(e.functions))]
  }

  function RenderEffects(es: seq<Effect>): seq<Token> {
    if |es| == 0 then []
    else if |es| == 1 then RenderEffect(es[0])
    else RenderEffect(es[0]) + [Punct(",")] + RenderEffects(es[1..])
  }

  /** The attribute arguments that declare `a`. */
  function RenderArgs(a: Args): seq<Token> {
    (match a.name case None => [] case Some(n) => [Word(n), Punct("=>")]) + RenderEffects(a.effects)
  }

  /** `r` lies in `ts` at position `p`. */
  predicate At(ts: seq<Token>, p: nat, r: seq<Token>) {
    p + |r| <= |ts| && ts[p..p + |r|] == r
  }

  /** Position `q` ends a list item: the end of the stream or a comma. */
  predicate ItemEnd(ts: seq<Token>, q: nat) {
    q == |ts| || (q < |ts| && ts[q] == Punct(","))
  }

  lemma AtIndex(ts: seq<Token>, p: nat, r: seq<Token>, k: nat)
    requires At(ts, p, r) && k < |r|
    ensures ts[p + k] == r[k]
  {
    assert ts[p..p + |r|][k] == ts[p + k];
  }

  lemma {:induction false} EffectFunctionRendered(ts: seq<Token>, p: nat, f: EffectFunction)
    requires WellFormedFunction(f)
    requires At(ts, p, RenderFunction(f)) && ItemEnd(ts, p + |RenderFunction(f)|)
    ensures EffectFunctionAt(ts, p) == Ok((f, p + |RenderFunction(f)|))
  {
    var r := RenderFunction(f);
    AtIndex(ts, p, r, 0);
    var q := p + 1;
    if f.selfReference.Some? {
      AtIndex(ts, p, r, 1);
      assert ts[q] == Parens(ModeTokens(f.selfReference.value));
      SelfModeOfSpec(ModeTokens(f.selfReference.value));
      q := q + 1;
    } else if f.alias.Some? {
      AtIndex(ts, p, r, 1);
    }
    assert SelfReferenceAt(ts, p + 1) == Ok((f.selfReference, q));
    if f.alias.Some? {
      AtIndex(ts, p, r, q - p);
      AtIndex(ts, p, r, q - p + 1);
      assert AliasAt(ts, q) == (f.alias, q + 2);
    } else {
      assert AliasAt(ts, q) == (None, q);
    }
  }

  /** Tokens at `p` made of two parts: each part lies where it should. */
  lemma AtSplit(ts: seq<Token>, p: nat, a: seq<Token>, b: seq<Token>)
    requires At(ts, p, a + b)
    ensures At(ts, p, a) && At(ts, p + |a|, b)
  {
    var whole := ts[p..p + |a| + |b|];
    assert ts[p..p + |a|] == whole[..|a|];
    assert ts[p + |a|..p + |a| + |b|] == whole[|a|..];
  }

  /** The tokens from `p` to the end. */
  lemma AtEnd(ts: seq<Token>, p: nat, r: seq<Token>)
    requires p <= |ts| && ts[p..] == r
    ensures At(ts, p, r) && p + |r| == |ts|
  {
  }

  /** A list rendering that fills `ts` from `p`: its first item, the comma
      after it and the rest each lie where they should. */
  lemma CommaLayout(ts: seq<Token>, p: nat, whole: seq<Token>, first: seq<Token>, rest: seq<Token>)
    returns (q: nat)
    requires whole == first + [Punct(",")] + rest
    requires At(ts, p, whole) && p + |whole| == |ts|
    ensures q == p + |first| && q < |ts| && ts[q] == Punct(",")
    ensures At(ts, p, first) && At(ts, q + 1, rest) && q + 1 + |rest| == |ts|
  {
    q := p + |first|;
    assert whole == first + ([Punct(",")] + rest);
    AtSplit(ts, p, first, [Punct(",")] + rest);
    AtSplit(ts, q, [Punct(",")], rest);
    AtIndex(ts, q, [Punct(",")], 0);
  }

  /** One step of `FunctionsFrom` once the item at `p` is known. */
  lemma FunctionsFromStep(ts: seq<Token>, p: nat, f: EffectFunction, q: nat)
    requires p < |ts| && EffectFunctionAt(ts, p) == Ok((f, q))
    ensures q == |ts| ==> FunctionsFrom(ts, p) == Ok([f])
    ensures q < |ts| && ts[q] == Punct(",") ==> FunctionsFrom(ts, p) == Prepend([f], FunctionsFrom(ts, q + 1))
  {
  }

  /** The operation list `fs`, well formed and rendered, fills `ts` from
      `p` to the end. */
  predicate FunctionsLaidOut(ts: seq<Token>, p: nat, fs: seq<EffectFunction>) {
    (forall k :: 0 <= k < |fs| ==> WellFormedFunction(fs[k])) &&
    At(ts, p, RenderFunctions(fs)) && p + |RenderFunctions(fs)| == |ts|
  }

  lemma {:induction false} FunctionsRendered(ts: seq<Token>, p: nat, fs: seq<EffectFunction>)
    requires FunctionsLaidOut(ts, p, fs)
    ensures FunctionsFrom(ts, p) == Ok(fs)
    decreases |fs|, 1
  {
    if |fs| == 0 {
      assert fs == [] && p == |ts|;
    } else if |fs| == 1 {
      LastFunctionRendered(ts, p, fs);
    } else {
      NextFunctionRendered(ts, p, fs);
    }
  }

  lemma LastFunctionRendered(ts: seq<Token>, p: nat, fs: seq<EffectFunction>)
    requires |fs| == 1 && FunctionsLaidOut(ts, p, fs)
    ensures FunctionsFrom(ts, p) == Ok(fs)
  {
    EffectFunctionRendered(ts, p, fs[0]);
    FunctionsFromStep(ts, p, fs[0], |ts|);
    assert [fs[0]] == fs;
  }

  lemma {:induction false} NextFunctionRendered(ts: seq<Token>, p: nat, fs: seq<EffectFunction>)
    requires |fs| > 1 && FunctionsLaidOut(ts, p, fs)
    ensures FunctionsFrom(ts, p) == Ok(fs)
    decreases |fs|, 0
  {
    var q := FunctionsLayout(ts, p, fs);
    EffectFunctionRendered(ts, p, fs[0]);
    FunctionsFromStep(ts, p, fs[0], q);
    FunctionsRendered(ts, q + 1, fs[1..]);
    Cons(fs, FunctionsFrom(ts, p), FunctionsFrom(ts, q + 1));
  }

  /** Where the first operation, its comma and the rest of the list lie. */
  lemma FunctionsLayout(ts: seq<Token>, p: nat, fs: seq<EffectFunction>) returns (q: nat)
    requires |fs| > 1 && FunctionsLaidOut(ts, p, fs)
    ensures q == p + |RenderFunction(fs[0])| && q < |ts| && ts[q] == Punct(",")
    ensures At(ts, p, RenderFunction(fs[0])) && WellFormedFunction(fs[0])
    ensures FunctionsLaidOut(ts, q + 1, fs[1..])
  {
    q := CommaLayout(ts, p, RenderFunctions(fs), RenderFunction(fs[0]), RenderFunctions(fs[1..]));
  }

  /** One step of `PathRestAt`: at `::` not followed by a group, a segment. */
  lemma PathRestStep(ts: seq<Token>, q: nat, done: seq<Ident>, s: Ident)
    requires q + 2 <= |ts| && ts[q] == Punct("::") && ts[q + 1] == Word(s) && SegmentWord(s)
    ensures PathRestAt(ts, q, done) == PathRestAt(ts, q + 2, done + [s])
  {
    assert SegmentAt(ts, q + 1) == Ok((s, q + 2));
  }

  /** Two tokens followed by `tail` at `q`. */
  lemma PairLayout(ts: seq<Token>, q: nat, a: Token, b: Token, tail: seq<Token>)
    requires At(ts, q, [a, b] + tail)
    ensures q + 2 <= |ts| && ts[q] == a && ts[q + 1] == b && At(ts, q + 2, tail)
  {
    AtSplit(ts, q, [a, b], tail);
    AtIndex(ts, q, [a, b], 0);
    AtIndex(ts, q, [a, b], 1);
  }

  lemma {:induction false} PathTailRendered(ts: seq<Token>, q: nat, done: seq<Ident>, rest: seq<Ident>)
    requires forall k :: 0 <= k < |rest| ==> SegmentWord(rest[k])
    requires At(ts, q, PrintTail(rest)) && IsGroup(PeekAt(ts, q + 2 * |rest|, 0))
    ensures PathRestAt(ts, q, done) == Ok((done + rest, q + 2 * |rest|))
    decreases |rest|
  {
    if |rest| == 0 {
      assert done + rest == done;
    } else {
      PathTailStep(ts, q, done, rest);
      PathTailRendered(ts, q + 2, done + [rest[0]], rest[1..]);
      assert done + [rest[0]] + rest[1..] == done + rest;
    }
  }

  /** One `:: segment` of a printed tail read, the rest still laid out. */
  lemma PathTailStep(ts: seq<Token>, q: nat, done: seq<Ident>, rest: seq<Ident>)
    requires |rest| > 0 && forall k :: 0 <= k < |rest| ==> SegmentWord(rest[k])
    requires At(ts, q, PrintTail(rest)) && IsGroup(PeekAt(ts, q + 2 * |rest|, 0))
    ensures forall k :: 0 <= k < |rest[1..]| ==> SegmentWord(rest[1..][k])
    ensures At(ts, q + 2, PrintTail(rest[1..])) && IsGroup(PeekAt(ts, q + 2 + 2 * |rest[1..]|, 0))
    ensures PathRestAt(ts, q, done) == PathRestAt(ts, q + 2, done + [rest[0]])
  {
    assert PrintTail(rest) == [Punct("::"), Word(rest[0])] + PrintTail(rest[1..]);
    PairLayout(ts, q, Punct("::"), Word(rest[0]), PrintTail(rest[1..]));
    PathRestStep(ts, q, done, rest[0]);
  }

  /** `PathAt` from its first segment and the rest. */
  lemma PathAtStep(ts: seq<Token>, p: nat, global: bool, first: Ident, rest: Parsed<seq<Ident>>)
    requires p <= |ts| && global == (PeekAt(ts, p, 0) == Some(Punct("::")))
    requires SegmentAt(ts, if global then p + 1 else p) == Ok((first, (if global then p + 1 else p) + 1))
    requires rest == PathRestAt(ts, (if global then p + 1 else p) + 1, [first])
    ensures PathAt(ts, p) == PathFrom(global, rest)
  {
  }

  lemma PathRendered(ts: seq<Token>, p: nat, path: Path)
    requires |path.segments| > 0
    requires forall k :: 0 <= k < |path.segments| ==> SegmentWord(path.segments[k])
    requires At(ts, p, PrintPath(path)) && IsGroup(PeekAt(ts, p + |PrintPath(path)|, 0))
    ensures PathAt(ts, p) == Ok((path, p + |PrintPath(path)|))
  {
    var segs := path.segments;
    var lead: seq<Token> := if path.global then [Punct("::")] else [];
    var head := lead + [Word(segs[0])];
    assert PrintPath(path) == head + PrintTail(segs[1..]);
    AtSplit(ts, p, head, PrintTail(segs[1..]));
    AtIndex(ts, p, head, 0);
    AtIndex(ts, p, head, |lead|);
    var q := p + |head|;
    PathTailRendered(ts, q, [segs[0]], segs[1..]);
    assert [segs[0]] + segs[1..] == segs;
    PathAtStep(ts, p, path.global, segs[0], PathRestAt(ts, q, [segs[0]]));
  }

  /** `EffectAt` from the path and the operation list. */
  lemma EffectAtStep(ts: seq<Token>, p: nat, path: Path, q: nat, fs: seq<EffectFunction>)
    requires p <= |ts| && PathAt(ts, p) == Ok((path, q))
    requires q < |ts| && ts[q].Parens? && FunctionsFrom(ts[q].inner, 0) == Ok(fs)
    ensures EffectAt(ts, p) == Ok((Effect(path.segments[|path.segments| - 1], path, fs), q + 1))
  {
  }

  lemma EffectRendered(ts: seq<Token>, p: nat, e: Effect)
    requires WellFormedEffect(e)
    requires At(ts, p, RenderEffect(e)) && ItemEnd(ts, p + |RenderEffect(e)|)
    ensures EffectAt(ts, p) == Ok((e, p + |RenderEffect(e)|))
  {
    var pr := PrintPath(e.path);
    var group := Parens(RenderFunctions(e.functions));
    AtSplit(ts, p, pr, [group]);
    AtIndex(ts, p + |pr|, [group], 0);
    PathRendered(ts, p, e.path);
    var inner := ts[p + |pr|].inner;
    AtEnd(inner, 0, inner);
    FunctionsRendered(inner, 0, e.functions);
    EffectAtStep(ts, p, e.path, p + |pr|, e.functions);
  }

  /** One step of `EffectsFrom` once the item at `p` is known. */
  lemma EffectsFromStep(ts: seq<Token>, p: nat, e: Effect, q: nat)
    requires p < |ts| && EffectAt(ts, p) == Ok((e, q))
    ensures q == |ts| ==> EffectsFrom(ts, p) == Ok([e])
    ensures q < |ts| && ts[q] == Punct(",") ==> EffectsFrom(ts, p) == Prepend([e], EffectsFrom(ts, q + 1))
  {
  }

  /** A trailing comma after the last effect is accepted and adds nothing. */
  lemma TrailingComma(ts: seq<Token>, p: nat, e: Effect)
    requires p < |ts| && EffectAt(ts, p) == Ok((e, |ts| - 1)) && ts[|ts| - 1] == Punct(",")
    ensures EffectsFrom(ts, p) == Ok([e])
  {
    EffectsFromStep(ts, p, e, |ts| - 1);
    assert [e] + [] == [e];
  }

  /** The effect list `es`, well formed and rendered, fills `ts` from `p`
      to the end. */
  predicate EffectsLaidOut(ts: seq<Token>, p: nat, es: seq<Effect>) {
    (forall k :: 0 <= k < |es| ==> WellFormedEffect(es[k])) &&
    At(ts, p, RenderEffects(es)) && p + |RenderEffects(es)| == |ts|
  }

  lemma {:induction false} EffectsRendered(ts: seq<Token>, p: nat, es: seq<Effect>)
    requires EffectsLaidOut(ts, p, es)
    ensures EffectsFrom(ts, p) == Ok(es)
    decreases |es|
  {
    if |es| == 0 {
      assert es == [] && p == |ts|;
    } else if |es| == 1 {
      LastEffectRendered(ts, p, es);
    } else {
      var q := FirstEffectStep(ts, p, es);
      EffectsRendered(ts, q + 1, es[1..]);
    }
  }

  lemma LastEffectRendered(ts: seq<Token>, p: nat, es: seq<Effect>)
    requires |es| == 1 && EffectsLaidOut(ts, p, es)
    ensures EffectsFrom(ts, p) == Ok(es)
  {
    EffectRendered(ts, p, es[0]);
    EffectsFromStep(ts, p, es[0], |ts|);
    assert [es[0]] == es;
  }

  /** The first of several rendered effects parses back, and the list goes
      on past the comma after it. */
  lemma FirstEffectStep(ts: seq<Token>, p: nat, es: seq<Effect>) returns (q: nat)
    requires |es| > 1 && EffectsLaidOut(ts, p, es)
    ensures q < |ts| && EffectsLaidOut(ts, q + 1, es[1..])
    ensures EffectsFrom(ts, q + 1) == Ok(es[1..]) ==> EffectsFrom(ts, p) == Ok(es)
  {
    q := EffectsLayout(ts, p, es);
    EffectRendered(ts, p, es[0]);
    EffectsFromStep(ts, p, es[0], q);
    if EffectsFrom(ts, q + 1) == Ok(es[1..]) {
      Cons(es, EffectsFrom(ts, p), EffectsFrom(ts, q + 1));
    }
  }

  /** Where the first effect, its comma and the rest of the list lie. */
  lemma EffectsLayout(ts: seq<Token>, p: nat, es: seq<Effect>) returns (q: nat)
    requires |es| > 1 && EffectsLaidOut(ts, p, es)
    ensures q == p + |RenderEffect(es[0])| && q < |ts| && ts[q] == Punct(",")
    ensures At(ts, p, RenderEffect(es[0])) && WellFormedEffect(es[0])
    ensures EffectsLaidOut(ts, q + 1, es[1..])
  {
    q := CommaLayout(ts, p, RenderEffects(es), RenderEffect(es[0]), RenderEffects(es[1..]));
  }

  /** Parsing inverts rendering: every well-formed declaration is read back
      as it was written, effects and operations in declaration order. */
  lemma ArgsRoundTrip(a: Args)
    requires WellFormedArgs(a)
    ensures ArgsOf(RenderArgs(a)) == Ok(a)
  {
    var ts := RenderArgs(a);
    var body := RenderEffects(a.effects);
    AtEnd(ts, 0, ts);
    match a.name
    case Some(n) =>
      AtSplit(ts, 0, [Word(n), Punct("=>")], body);
      AtIndex(ts, 0, [Word(n), Punct("=>")], 0);
      AtIndex(ts, 0, [Word(n), Punct("=>")], 1);
      EffectsRendered(ts, 2, a.effects);
    case None =>
      assert ts == body;
      EffectsRendered(ts, 0, a.effects);
      NoArrowSecond(a.effects);
  }

  /** Effect declarations never have `=>` as their second token. */
  lemma NoArrowSecond(es: seq<Effect>)
    ensures |RenderEffects(es)| >= 2 ==> RenderEffects(es)[1] != Punct("=>")
  {
    if |es| == 0 {
      return;
    }
    var e := es[0];
    var r0 := RenderEffect(e);
    assert RenderEffects(es)[..|r0|] == r0;
    var pr := PrintPath(e.path);
    assert r0 == pr + [Parens(RenderFunctions(e.functions))];
    if |r0| >= 2 {
      assert RenderEffects(es)[1] == r0[1];
    }
  }

  lemma WordOfWellLexed(ts: seq<Token>, p: nat)
    requires WellLexed(ts) && p < |ts| && ts[p].Word?
    ensures ValidIdent(ts[p].text)
  {
    assert WellLexedToken(ts[p]);
  }

  lemma {:induction false} PathRestWellFormed(ts: seq<Token>, p: nat, segs: seq<Ident>)
    requires WellLexed(ts) && p <= |ts|
    requires forall k :: 0 <= k < |segs| ==> SegmentWord(segs[k])
    ensures PathRestAt(ts, p, segs).Ok? ==>
      forall k :: 0 <= k < |PathRestAt(ts, p, segs).value.0| ==> SegmentWord(PathRestAt(ts, p, segs).value.0[k])
    decreases |ts| - p
  {
    if PeekAt(ts, p, 0) == Some(Punct("::")) && !IsGroup(PeekAt(ts, p, 1)) {
      var s := SegmentAt(ts, p + 1);
      if s.Ok? {
        WordOfWellLexed(ts, p + 1);
        PathRestWellFormed(ts, s.value.1, segs + [s.value.0]);
      }
    }
  }

  lemma PathWellFormed(ts: seq<Token>, p: nat)
    requires WellLexed(ts) && p <= |ts| && PathAt(ts, p).Ok?
    ensures forall k :: 0 <= k < |PathAt(ts, p).value.0.segments| ==> SegmentWord(PathAt(ts, p).value.0.segments[k])
  {
    var q := if PeekAt(ts, p, 0) == Some(Punct("::")) then p + 1 else p;
    var first := SegmentAt(ts, q);
    WordOfWellLexed(ts, q);
    PathRestWellFormed(ts, first.value.1, [first.value.0]);
  }

  lemma EffectFunctionWellFormed(ts: seq<Token>, p: nat)
    requires WellLexed(ts) && p <= |ts| && EffectFunctionAt(ts, p).Ok?
    ensures WellFormedFunction(EffectFunctionAt(ts, p).value.0)
  {
    WordOfWellLexed(ts, p);
    var sr := SelfReferenceAt(ts, p + 1);
    var al := AliasAt(ts, sr.value.1);
    if al.0.Some? {
      WordOfWellLexed(ts, sr.value.1 + 1);
    }
  }

  lemma {:induction false} FunctionsWellFormed(ts: seq<Token>, p: nat)
    requires WellLexed(ts) && p <= |ts| && FunctionsFrom(ts, p).Ok?
    ensures forall k :: 0 <= k < |FunctionsFrom(ts, p).value| ==> WellFormedFunction(FunctionsFrom(ts, p).value[k])
    decreases |ts| - p
  {
    if p < |ts| {
      var f := EffectFunctionAt(ts, p);
      EffectFunctionWellFormed(ts, p);
      if f.value.1 < |ts| {
        FunctionsWellFormed(ts, f.value.1 + 1);
      }
    }
  }

  lemma EffectWellFormed(ts: seq<Token>, p: nat)
    requires WellLexed(ts) && p <= |ts| && EffectAt(ts, p).Ok?
    ensures WellFormedEffect(EffectAt(ts, p).value.0)
  {
    var path := PathAt(ts, p);
    PathWellFormed(ts, p);
    var inner := ts[path.value.1].inner;
    assert WellLexedToken(ts[path.value.1]);
    assert WellLexed(inner);
    FunctionsWellFormed(inner, 0);
  }

  predicate AllWellFormed(es: seq<Effect>) {
    forall k :: 0 <= k < |es| ==> WellFormedEffect(es[k])
  }

  lemma {:induction false} EffectsWellFormed(ts: seq<Token>, p: nat)
    requires WellLexed(ts) && p <= |ts| && EffectsFrom(ts, p).Ok?
    ensures AllWellFormed(EffectsFrom(ts, p).value)
    decreases |ts| - p
  {
    if p == |ts| {
      assert EffectsFrom(ts, p) == Ok([]);
    } else {
      var e, q := EffectsNext(ts, p);
      EffectWellFormed(ts, p);
      if q < |ts| {
        EffectsWellFormed(ts, q + 1);
        ConsWellFormed(e, EffectsFrom(ts, q + 1).value);
      } else {
        ConsWellFormed(e, []);
      }
    }
  }

  /** The effect at `p` and where it ends: the list from `p` is that effect
      followed by the list past the comma after it, if any. */
  lemma EffectsNext(ts: seq<Token>, p: nat) returns (e: Effect, q: nat)
    requires p < |ts| && EffectsFrom(ts, p).Ok?
    ensures EffectAt(ts, p) == Ok((e, q)) && p < q <= |ts|
    ensures q == |ts| ==> EffectsFrom(ts, p).value == [e] + []
    ensures q < |ts| ==> EffectsFrom(ts, q + 1).Ok? && EffectsFrom(ts, p).value == [e] + EffectsFrom(ts, q + 1).value
  {
    e, q := EffectAt(ts, p).value.0, EffectAt(ts, p).value.1;
    EffectsFromStep(ts, p, e, q);
    assert [e] + [] == [e];
  }

  lemma ConsWellFormed(e: Effect, tail: seq<Effect>)
    requires WellFormedEffect(e) && AllWellFormed(tail)
    ensures AllWellFormed([e] + tail)
  {
    assert forall k :: 1 <= k < |[e] + tail| ==> ([e] + tail)[k] == tail[k - 1];
  }

  /** Whatever the parser accepts from a well-lexed stream is well formed:
      every effect has a non-empty path whose last segment is its name, and
      every name, operation and alias is an identifier. */
  lemma ParsedArgsWellFormed(ts: seq<Token>)
    requires WellLexed(ts) && ArgsOf(ts).Ok?
    ensures WellFormedArgs(ArgsOf(ts).value)
  {
    if PeekAt(ts, 0, 1) == Some(Punct("=>")) {
      WordOfWellLexed(ts, 0);
      EffectsWellFormed(ts, 2);
    } else {
      EffectsWellFormed(ts, 0);
    }
  }
}
