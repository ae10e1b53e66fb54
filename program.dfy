/** effers-derive/src/lib.rs:18-125: the `#[program]` attribute itself.
    It parses the arguments, names the program, and emits the program
    struct, the layer structs, one `add` builder method per layer and the
    `run` method on the last layer. */
module Program {
  import opened Wrappers
  import opened Syntax
  import opened Letters
  import opened Parse
  import opened IntermediateStructs
  import opened Rewriter

  /** `impl<generics> target { fn add<param: bound>(self, t: param) -> ret { ret.name(self, t) } }`. */
  datatype AddImpl = AddImpl(generics: seq<Generic>, target: TypeRef, param: Ident, bound: Path, ret: TypeRef)

  /** `impl<generics> target { fn run(mut self, ...) { ... } }`. */
  datatype RunImpl = RunImpl(generics: seq<Generic>, target: TypeRef, run: ItemFn)

  /** What `rewrite_item_into_struct` emits: `struct root;`, the layer
      structs, the `add` impls and the `run` impl. */
  datatype Generated = Generated(root: Ident, structs: seq<StructDef>, impls: seq<AddImpl>, final: RunImpl)

  /** The expansion of the attribute: the generated items, the annotated
      function unchanged, or other tokens. */
  datatype Expansion = Expanded(items: Generated) | Verbatim(func: ItemFn) | Tokens(tokens: seq<Token>)

  /** A layer applied to all its letters, `Name<A, B,>`. */
  function Applied(s: IntermediateStruct): TypeRef {
    TypeRef(s.id, s.letters)
  }

  /** Every layer has a letter and a trait, as `.last().unwrap()` needs. */
  predicate NonEmptyLayers(structs: seq<IntermediateStruct>) {
    forall k :: 0 <= k < |structs| ==> |structs[k].letters| > 0 && |structs[k].traits| > 0
  }

  /** The `add` impl of layer `i`: on the program struct (`i == 0`) or on
      the previous layer applied to its letters under its generics; a
      single generic, the layer's last letter bound by its last trait; the
      result the layer applied to all its letters. */
  function ImplAt(prog: Ident, structs: seq<IntermediateStruct>, i: nat): AddImpl
    requires i < |structs| && NonEmptyLayers(structs)
  {
    var s := structs[i];
    AddImpl(
      if i == 0 then [] else structs[i - 1].generics,
      if i == 0 then TypeRef(prog, []) else Applied(structs[i - 1]),
      s.letters[|s.letters| - 1], s.traits[|s.traits| - 1], Applied(s))
  }

  /** `impls`: one `add` per layer, the impl target advancing each step to
      the type the previous `add` returned. */
  method Impls(prog: Ident, structs: seq<IntermediateStruct>) returns (impls: seq<AddImpl>)
    requires NonEmptyLayers(structs)
    ensures |impls| == |structs|
    ensures forall k :: 0 <= k < |structs| ==> impls[k] == ImplAt(prog, structs, k)
  {
    impls := [];
    var id := TypeRef(prog, []);
    var implGenerics: seq<Generic> := [];
    for i := 0 to |structs|
      invariant |impls| == i
      invariant forall k :: 0 <= k < i ==> impls[k] == ImplAt(prog, structs, k)
      invariant i == 0 ==> id == TypeRef(prog, []) && implGenerics == []
      invariant i > 0 ==> id == Applied(structs[i - 1]) && implGenerics == structs[i - 1].generics
    {
      var inter := structs[i];
      var next := inter.id;
      var ret := TypeRef(next, inter.letters);
      var t := inter.traits[|inter.traits| - 1];
      var l := inter.letters[|inter.letters| - 1];
      impls := impls + [AddImpl(implGenerics, id, l, t, ret)];
      id := ret;
      implGenerics := inter.generics;
    }
  }

  /** `final_impl`: the `run` method, in an impl on the last layer applied
      to all its letters, under its full generics. */
  method FinalImpl(last: IntermediateStruct, func: ItemFn, args: Args) returns (r: RunImpl)
    requires Rewritable(args.effects)
    ensures r == RunImpl(last.generics, Applied(last), RunFn(args.effects, func))
  {
    var id := last.id;
    var fullGen := last.generics;
    var gen := last.letters;
    var run := RewriteFunc(func, args);
    r := RunImpl(fullGen, TypeRef(id, gen), run);
  }

  /** Effects whose paths have a segment, as the parser returns them. */
  predicate PathsNonEmpty(es: seq<Effect>) {
    forall k :: 0 <= k < |es| ==> |es[k].path.segments| > 0
  }

  /** Every layer the builder makes has `i + 1` letters and traits. */
  lemma LayersNonEmpty(prog: Ident, es: seq<Effect>)
    requires |es| <= MaxEffects
    ensures NonEmptyLayers(LayersUpTo(prog, es, |es|))
  {
    LayersSpec(prog, es);
  }

  /** The `add` impls of a list of layers. */
  function ImplsOf(prog: Ident, structs: seq<IntermediateStruct>): seq<AddImpl>
    requires NonEmptyLayers(structs)
  {
    seq(|structs|, k requires 0 <= k < |structs| => ImplAt(prog, structs, k))
  }

  /** What `rewrite_item_into_struct` produces for program `prog`: the
      layer builder's panic past 26 effects, or the generated items. */
  function Generate(func: ItemFn, es: seq<Effect>, prog: Ident): Result<Generated, Error>
    requires |es| > 0 && PathsNonEmpty(es)
  {
    if |es| > MaxEffects then Err(InvalidIdent("["))
    else
      var layers := LayersUpTo(prog, es, |es|);
      LayersNonEmpty(prog, es);
      var last := layers[|es| - 1];
      Ok(Generated(
        prog,
        seq(|es|, k requires 0 <= k < |es| => layers[k].tokens),
        ImplsOf(prog, layers),
        RunImpl(last.generics, Applied(last), RunFn(es, func))))
  }

  /** The struct definitions of the layers, in order. */
  method StructTokens(structs: seq<IntermediateStruct>) returns (defs: seq<StructDef>)
    ensures |defs| == |structs|
    ensures forall k :: 0 <= k < |structs| ==> defs[k] == structs[k].tokens
  {
    defs := [];
    for k := 0 to |structs|
      invariant |defs| == k
      invariant forall t :: 0 <= t < k ==> defs[t] == structs[t].tokens
    {
      defs := defs + [structs[k].tokens];
    }
  }

  /** `rewrite_item_into_struct`: build the layers, then the `add` impls
      and the `run` impl from them. */
  method RewriteItemIntoStruct(func: ItemFn, args: Args) returns (r: Result<Generated, Error>)
    requires args.name.Some? && |args.effects| > 0 && PathsNonEmpty(args.effects)
    requires ValidNames(args.name.value, args.effects)
    ensures r == Generate(func, args.effects, args.name.value)
  {
    var progName := args.name.value;
    assert Layers(progName, args.effects).Err? ==>
      Layers(progName, args.effects).error == InvalidIdent("[") &&
      Generate(func, args.effects, progName) == Err(InvalidIdent("["));
    var built := BuildIntermediateStructs(args, progName);
    if built.Err? {
      return Err(built.error);
    }
    var intermediateStructs := built.value;
    ghost var layers := LayersUpTo(progName, args.effects, |args.effects|);
    assert intermediateStructs == layers;
    LayersNonEmpty(progName, args.effects);
    var intersTokens := StructTokens(intermediateStructs);
    assert intersTokens == seq(|args.effects|, k requires 0 <= k < |args.effects| => layers[k].tokens);
    var impls := Impls(progName, intermediateStructs);
    assert impls == ImplsOf(progName, layers);
    var finalImpl := FinalImpl(intermediateStructs[|intermediateStructs| - 1], func, args);
    ghost var g := Generate(func, args.effects, progName);
    assert g.Ok?;
    assert g.value.structs == intersTokens;
    assert g.value.impls == impls;
    assert g.value.final == finalImpl;
    r := Ok(Generated(progName, intersTokens, impls, finalImpl));
  }

  /** The attribute arguments with the program name filled in: the one
      declared, or else the function's name Pascal-cased (`pascal`), which
      `Ident::new` panics on unless it is an identifier. */
  function NamedArgs(attr: seq<Token>, pascal: string): Result<Args, Error> {
    var args :- ArgsOf(attr);
    if args.name.Some? then Ok(args)
    else
      var name :- IdentNew(pascal);
      Ok(args.(name := Some(name)))
  }

  /** `program` as written: with no effects it emits the bare identifier
      token `item` (it quotes `item`, not `#item`). */
  function ExpandAsWritten(attr: seq<Token>, func: ItemFn, pascal: string): Result<Expansion, Error>
    requires WellLexed(attr)
  {
    var args :- NamedArgs(attr, pascal);
    NamedArgsWellFormed(attr, pascal);
    if |args.effects| > 0 then
      var g :- Generate(func, args.effects, args.name.value);
      Ok(Expanded(g))
    else
      Ok(Tokens([Word("item")]))
  }

  /** `program`, with the function passed through when no effect is
      declared. */
  function Expand(attr: seq<Token>, func: ItemFn, pascal: string): Result<Expansion, Error>
    requires WellLexed(attr)
  {
    var args :- NamedArgs(attr, pascal);
    NamedArgsWellFormed(attr, pascal);
    if |args.effects| > 0 then
      var g :- Generate(func, args.effects, args.name.value);
      Ok(Expanded(g))
    else
      Ok(Verbatim(func))
  }

  /** The named arguments have a name and identifier-valued names and
      paths with segments. */
  lemma NamedArgsWellFormed(attr: seq<Token>, pascal: string)
    requires WellLexed(attr) && NamedArgs(attr, pascal).Ok?
    ensures NamedArgs(attr, pascal).value.name.Some?
    ensures PathsNonEmpty(NamedArgs(attr, pascal).value.effects)
    ensures ValidNames(NamedArgs(attr, pascal).value.name.value, NamedArgs(attr, pascal).value.effects)
  {
    ParsedArgsWellFormed(attr);
    var es := ArgsOf(attr).value.effects;
    forall k | 0 <= k < |es| ensures ValidIdent(es[k].name) {
      assert WellFormedEffect(es[k]);
      var segs := es[k].path.segments;
      assert SegmentWord(segs[|segs| - 1]);
    }
  }

  /** `program`: parse the arguments (the annotated function arrives
      parsed), fill in the name, then generate, or pass the function
      through when no effect is declared. */
  method ProgramMacro(attr: seq<Token>, func: ItemFn, pascal: string) returns (r: Result<Expansion, Error>)
    requires WellLexed(attr)
    ensures r == Expand(attr, func, pascal)
  {
    var input := new ParseStream(attr);
    var args :- ParseArgs(input);
    if args.name.None? {
      var i :- IdentNew(pascal);
      args := args.(name := Some(i));
    }
    NamedArgsWellFormed(attr, pascal);
    if |args.effects| > 0 {
      var g :- RewriteItemIntoStruct(func, args);
      r := Ok(Expanded(g));
    } else {
      r := Ok(Verbatim(func));
    }
  }

  // ---------------------------------------------------------------------
  // What the generated items promise.

  /** The `add` chain over the layers the builder makes: the first `add` is
      on the bare program struct with no generics; `add` number `i` takes
      a handler of type `L_i: E_i` and returns layer `i` applied to its
      `i + 1` labels; each `add` after the first is on exactly the type the
      previous one returns, under that layer's `i` generics; and layer `i`
      stores that target type in `.0` and the handler type in `.1`, so its
      body `Layer_i(self, t)` is well-typed. */
  lemma AddChain(prog: Ident, es: seq<Effect>, i: nat)
    requires i < |es| <= MaxEffects
    ensures
      var layers := LayersUpTo(prog, es, |es|);
      NonEmptyLayers(layers) &&
      var add := ImplAt(prog, layers, i);
      add.param == [Label(i)] && add.bound == es[i].path &&
      add.ret == TypeRef(LayerName(prog, es, i), LabelIdents(i + 1)) &&
      |add.generics| == i &&
      (i == 0 ==> add.target == TypeRef(prog, []) && add.generics == []) &&
      (i > 0 ==> add.target == ImplAt(prog, layers, i - 1).ret) &&
      layers[i].tokens.prev == add.target && layers[i].tokens.handler == Some(add.param)
  {
    LayersSpec(prog, es);
    LayersNonEmpty(prog, es);
    var layers := LayersUpTo(prog, es, |es|);
    assert layers[i] == LayerAt(prog, es, i);
    if i > 0 {
      assert layers[i - 1] == LayerAt(prog, es, i - 1);
    }
  }

  /** The label that qualifies a call of effect `i`'s operations is the one
      slot `i` has in every layer from `i` on. */
  lemma SlotLabelInEveryLayer(prog: Ident, es: seq<Effect>, f: EffectFunction, i: nat, k: nat)
    requires i <= k < |es| <= MaxEffects
    ensures LayerAt(prog, es, k).letters[i] == QualifiedCallee(es[i], f, i).qself.value.ty
    ensures LayerAt(prog, es, k).traits[i] == es[i].path
  {
  }

  /** The generated items for effects `es` and program `prog`: the
      builder's panic past 26 effects; else one layer struct and one `add`
      per effect, in declaration order, and `run` on the last layer applied
      to all its labels, under the pairing of every label with its trait. */
  lemma GenerateSpec(func: ItemFn, es: seq<Effect>, prog: Ident)
    requires 0 < |es| && PathsNonEmpty(es)
    ensures |es| > MaxEffects <==> Generate(func, es, prog).Err?
    ensures |es| > MaxEffects ==> Generate(func, es, prog) == Err(InvalidIdent("["))
    ensures |es| <= MaxEffects ==>
      var g := Generate(func, es, prog).value;
      g.root == prog && |g.structs| == |es| && |g.impls| == |es| &&
      (forall k :: 0 <= k < |es| ==> g.structs[k] == LayerAt(prog, es, k).tokens) &&
      (forall k :: 0 <= k < |es| ==> g.structs[k].name == prog + "With" + EffectNames(es[..k + 1])) &&
      g.final.target == TypeRef(LayerName(prog, es, |es| - 1), LabelIdents(|es|)) &&
      g.final.target == g.impls[|es| - 1].ret &&
      g.final.generics == Zip(EffectPaths(es), LabelIdents(|es|)) &&
      g.final.run == RunFn(es, func)
  {
    if |es| <= MaxEffects {
      LayersSpec(prog, es);
      LayersNonEmpty(prog, es);
      var layers := LayersUpTo(prog, es, |es|);
      assert layers[|es| - 1] == LayerAt(prog, es, |es| - 1);
      assert es[..|es|] == es;
    }
  }

  /** The expansion once the arguments are parsed and named: the function
      unchanged when no effect is declared, the generated items otherwise. */
  lemma ExpandSpec(attr: seq<Token>, func: ItemFn, pascal: string)
    requires WellLexed(attr) && NamedArgs(attr, pascal).Ok?
    ensures
      var a := NamedArgs(attr, pascal).value;
      a.name.Some? && PathsNonEmpty(a.effects) &&
      (|a.effects| == 0 ==> Expand(attr, func, pascal) == Ok(Verbatim(func))) &&
      (|a.effects| > 0 ==>
        Expand(attr, func, pascal) ==
          match Generate(func, a.effects, a.name.value)
          case Ok(g) => Ok(Expanded(g))
          case Err(e) => Err(e))
  {
    NamedArgsWellFormed(attr, pascal);
  }

  /** The program is named by the identifier before `=>` when the second
      token is `=>`, and otherwise by the Pascal-cased function name, which
      panics when it is not an identifier, effects or no effects. */
  lemma ProgramName(attr: seq<Token>, pascal: string)
    requires ArgsOf(attr).Ok?
    ensures |attr| >= 2 && attr[1] == Punct("=>") ==>
      NamedArgs(attr, pascal) == Ok(ArgsOf(attr).value) &&
      attr[0] == Word(ArgsOf(attr).value.name.value)
    ensures !(|attr| >= 2 && attr[1] == Punct("=>")) ==>
      NamedArgs(attr, pascal) ==
        if ValidIdent(pascal) then Ok(ArgsOf(attr).value.(name := Some(pascal))) else Err(InvalidIdent(pascal))
  {
  }

  /** Finding (lib.rs:35), as written: a program declaring no effects
      expands to the single identifier `item`, and the annotated function
      is lost. */
  lemma {:induction false} NoEffectsLoseFunction(func: ItemFn)
    ensures ExpandAsWritten([], func, "Prog") == Ok(Tokens([Word("item")]))
    ensures ExpandAsWritten([], func, "Prog") != Ok(Verbatim(func))
  {
    assert EffectsFrom([], 0) == Ok([]);
    assert ValidIdent("Prog");
  }

  /** Corrected: with no effects declared and a name that resolves, the
      annotated function is emitted as it is. */
  lemma NoEffectsKeepFunction(attr: seq<Token>, func: ItemFn, pascal: string)
    requires WellLexed(attr) && NamedArgs(attr, pascal).Ok? && |NamedArgs(attr, pascal).value.effects| == 0
    ensures Expand(attr, func, pascal) == Ok(Verbatim(func))
    ensures ExpandAsWritten(attr, func, pascal) == Ok(Tokens([Word("item")]))
  {
  }
}
