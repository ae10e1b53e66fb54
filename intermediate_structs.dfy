/** effers-derive/src/intermediate_structs.rs: the chain of "layer" structs
    `<Prog>With<E1>`, `<Prog>With<E1><E2>`, ..., one per declared effect,
    each pairing the previous layer with a handler slot. */
module IntermediateStructs {
  import opened Wrappers
  import opened Syntax
  import opened Letters
  import opened Parse

  /** A type applied to generic arguments, `Name<A, B,>`; with no arguments
      it stands for the bare `Name`. */
  datatype TypeRef = TypeRef(name: Ident, args: seq<Ident>)

  /** One generic parameter with its bound: `A: Printer,`. */
  datatype Generic = Generic(param: Ident, bound: Path)

  /** `#[derive(Clone, Copy)] struct name<generics>(prev, handler);` */
  datatype StructDef = StructDef(name: Ident, generics: seq<Generic>, prev: TypeRef, handler: Option<Ident>)

  /** `IntermediateStruct`: the struct definition (its `tokens`) and the
      name, traits, letters and generics it was built from. */
  datatype IntermediateStruct = IntermediateStruct(
    tokens: StructDef, id: Ident, traits: seq<Path>, letters: seq<Ident>, generics: seq<Generic>)

  /** The most effects a program can declare: the 27th label, `'['`, is not
      an identifier. */
  const MaxEffects: nat := 26

  /** `Ident::new` on each label, in order; the first label that is not an
      identifier panics. */
  function LetterIdents(cs: seq<char>): (r: Result<seq<Ident>, Error>)
    ensures r.Ok? <==> forall k :: 0 <= k < |cs| ==> ValidIdent([cs[k]])
    ensures r.Ok? ==> |r.value| == |cs| && forall k :: 0 <= k < |cs| ==> r.value[k] == [cs[k]]
  {
    if |cs| == 0 then Ok([])
    else
      var head :- IdentNew([cs[0]]);
      var tail :- LetterIdents(cs[1..]);
      Ok([head] + tail)
  }

  /** `traits.iter().zip(letters).map(|(t, c)| quote!(#c: #t,))`. */
  function Zip(traits: seq<Path>, letters: seq<Ident>): (gs: seq<Generic>)
    requires |traits| == |letters|
    ensures |gs| == |letters|
    ensures forall k :: 0 <= k < |gs| ==> gs[k] == Generic(letters[k], traits[k])
  {
    if |traits| == 0 then [] else [Generic(letters[0], traits[0])] + Zip(traits[1..], letters[1..])
  }

  /** The effect names run together, in declaration order. */
  function EffectNames(es: seq<Effect>): string {
    if |es| == 0 then "" else EffectNames(es[..|es| - 1]) + es[|es| - 1].name
  }

  function EffectPaths(es: seq<Effect>): (ps: seq<Path>)
    ensures |ps| == |es| && forall k :: 0 <= k < |es| ==> ps[k] == es[k].path
  {
    if |es| == 0 then [] else EffectPaths(es[..|es| - 1]) + [es[|es| - 1].path]
  }

  /** The identifiers of the first `n` labels. */
  function LabelIdents(n: nat): (ls: seq<Ident>)
    requires n <= MaxEffects
    ensures |ls| == n && forall k :: 0 <= k < n ==> ls[k] == [Label(k)]
  {
    if n == 0 then [] else LabelIdents(n - 1) + [[Label(n - 1)]]
  }

  /** The name of layer `i`. */
  function LayerName(prog: Ident, es: seq<Effect>, i: nat): Ident
    requires i < |es|
  {
    prog + "With" + EffectNames(es[..i + 1])
  }

  /** Layer `i`, stated on its own: the first `i + 1` effects' traits and
      labels, paired up as its generics; its first field the program struct
      (layer 0) or layer `i - 1` applied to its labels; its second field its
      last label. */
  function LayerAt(prog: Ident, es: seq<Effect>, i: nat): IntermediateStruct
    requires i < |es| && i < MaxEffects
  {
    var letters := LabelIdents(i + 1);
    var traits := EffectPaths(es[..i + 1]);
    var generics := Zip(traits, letters);
    var prev := if i == 0 then TypeRef(prog, []) else TypeRef(LayerName(prog, es, i - 1), LabelIdents(i));
    var id := LayerName(prog, es, i);
    IntermediateStruct(StructDef(id, generics, prev, Some(letters[i])), id, traits, letters, generics)
  }

  /** The first `n` layers, built one after the other. */
  function LayersUpTo(prog: Ident, es: seq<Effect>, n: nat): (ls: seq<IntermediateStruct>)
    requires n <= |es| && n <= MaxEffects
    ensures |ls| == n
  {
    if n == 0 then [] else LayersUpTo(prog, es, n - 1) + [LayerAt(prog, es, n - 1)]
  }

  /** What `intermediate_structs` returns: one layer per effect, or the
      `Ident::new` panic on the 27th label. */
  function Layers(prog: Ident, es: seq<Effect>): Result<seq<IntermediateStruct>, Error> {
    if |es| <= MaxEffects then Ok(LayersUpTo(prog, es, |es|)) else Err(InvalidIdent("["))
  }

  /** Layer `k` of the prefix is the one `LayerAt` describes. */
  lemma {:induction false} LayersUpToIndex(prog: Ident, es: seq<Effect>, n: nat, k: nat)
    requires n <= |es| && n <= MaxEffects && k < n
    ensures LayersUpTo(prog, es, n)[k] == LayerAt(prog, es, k)
    decreases n
  {
    var prefix := LayersUpTo(prog, es, n - 1);
    var last := LayerAt(prog, es, n - 1);
    assert LayersUpTo(prog, es, n) == prefix + [last];
    if k < n - 1 {
      LayersUpToIndex(prog, es, n - 1, k);
      assert (prefix + [last])[k] == prefix[k];
    } else {
      assert (prefix + [last])[k] == last;
    }
  }

  /** Every effect gets its layer, in order, unless there are too many. */
  lemma LayersSpec(prog: Ident, es: seq<Effect>)
    ensures Layers(prog, es).Ok? <==> |es| <= MaxEffects
    ensures Layers(prog, es).Err? ==> Layers(prog, es).error == InvalidIdent("[")
    ensures Layers(prog, es).Ok? ==>
      |Layers(prog, es).value| == |es| &&
      forall k :: 0 <= k < |es| ==> Layers(prog, es).value[k] == LayerAt(prog, es, k)
  {
    if |es| <= MaxEffects {
      forall k | 0 <= k < |es| ensures LayersUpTo(prog, es, |es|)[k] == LayerAt(prog, es, k) {
        LayersUpToIndex(prog, es, |es|, k);
      }
    }
  }

  predicate ValidNames(prog: Ident, es: seq<Effect>) {
    ValidIdent(prog) && forall k :: 0 <= k < |es| ==> ValidIdent(es[k].name)
  }

  /** `intermediate_structs`: the fold over the effects, threading the
      accumulated layers, the running name and the accumulated traits. */
  method BuildIntermediateStructs(args: Args, progName: Ident) returns (r: Result<seq<IntermediateStruct>, Error>)
    requires ValidNames(progName, args.effects)
    ensures r == Layers(progName, args.effects)
  {
    var es := args.effects;
    var structs: seq<IntermediateStruct> := [];
    var name := progName + "With";
    var traits: seq<Path> := [];
    for i := 0 to |es|
      invariant i <= MaxEffects
      invariant structs == LayersUpTo(progName, es, i)
      invariant name == progName + "With" + EffectNames(es[..i])
      invariant traits == EffectPaths(es[..i])
    {
      var acc := FoldEffect(progName, structs, name, traits, es[i], es, i);
      if acc.Err? {
        return Err(acc.error);
      }
      structs, name, traits := acc.value.0, acc.value.1, acc.value.2;
    }
    return Ok(structs);
  }

  /** The fold's closure: extend the name and the traits by effect `i` and
      push its layer; the 27th effect's labels panic. */
  method FoldEffect(
    progName: Ident, structs: seq<IntermediateStruct>, name: string, traits: seq<Path>, eff: Effect,
    ghost es: seq<Effect>, ghost i: nat)
    returns (r: Result<(seq<IntermediateStruct>, string, seq<Path>), Error>)
    requires ValidNames(progName, es) && i < |es| && i <= MaxEffects && eff == es[i]
    requires structs == LayersUpTo(progName, es, i)
    requires name == progName + "With" + EffectNames(es[..i])
    requires traits == EffectPaths(es[..i])
    ensures i == MaxEffects <==> r.Err?
    ensures r.Err? ==> r.error == InvalidIdent("[")
    ensures r.Ok? ==> r.value == (LayersUpTo(progName, es, i + 1), progName + "With" + EffectNames(es[..i + 1]), EffectPaths(es[..i + 1]))
  {
    var name := name + eff.name;
    var traits := traits + [eff.path];
    AccumulatorsGrow(progName, es, i);
    var chars := TakeLetters(|traits|);
    LettersOfLayer(i, chars);
    var letters :- LetterIdents(chars);
    var generics := Zip(traits, letters);
    NameIsIdent(progName, es, i);
    var id := IdentNew(name).value;
    var last :=
      if |structs| > 0 then TypeRef(structs[|structs| - 1].id, structs[|structs| - 1].letters)
      else TypeRef(progName, []);
    var lastLetter := if |letters| > 0 then Some(letters[|letters| - 1]) else None;
    var layer := IntermediateStruct(StructDef(id, generics, last, lastLetter), id, traits, letters, generics);
    FoldStep(progName, es, i, structs, layer);
    return Ok((structs + [layer], name, traits));
  }

  /** The running name and traits after one more effect. */
  lemma AccumulatorsGrow(prog: Ident, es: seq<Effect>, i: nat)
    requires i < |es|
    ensures prog + "With" + EffectNames(es[..i]) + es[i].name == LayerName(prog, es, i)
    ensures EffectPaths(es[..i]) + [es[i].path] == EffectPaths(es[..i + 1])
  {
    assert es[..i + 1][..i] == es[..i];
  }

  /** The letters collected for layer `i`: its labels, or the panic on the
      27th. */
  lemma LettersOfLayer(i: nat, chars: seq<char>)
    requires i <= MaxEffects && chars == Labels(i + 1)
    ensures i < MaxEffects ==> LetterIdents(chars) == Ok(LabelIdents(i + 1))
    ensures i == MaxEffects ==> LetterIdents(chars) == Err(InvalidIdent("["))
  {
    if i == MaxEffects {
      LabelsStopAt26(chars);
    } else {
      LabelsAreConsecutive(i + 1);
      ValidLabels(i + 1);
      LabelIdentsOf(chars, i + 1);
    }
  }

  lemma LabelIdentsOf(cs: seq<char>, n: nat)
    requires n <= MaxEffects && |cs| == n
    requires forall k :: 0 <= k < n ==> cs[k] == Label(k) && ValidIdent([Label(k)])
    ensures LetterIdents(cs) == Ok(LabelIdents(n))
  {
    var r := LetterIdents(cs);
    assert r.Ok?;
    assert r.value == LabelIdents(n);
  }

  /** The layer the fold pushes at step `i`, built from the previous layer,
      is the one `LayerAt` describes. */
  lemma FoldStep(prog: Ident, es: seq<Effect>, i: nat, structs: seq<IntermediateStruct>, layer: IntermediateStruct)
    requires i < |es| && i < MaxEffects && structs == LayersUpTo(prog, es, i)
    requires
      var letters := LabelIdents(i + 1);
      var traits := EffectPaths(es[..i + 1]);
      var last :=
        if |structs| > 0 then TypeRef(structs[|structs| - 1].id, structs[|structs| - 1].letters)
        else TypeRef(prog, []);
      var id := LayerName(prog, es, i);
      layer == IntermediateStruct(StructDef(id, Zip(traits, letters), last, Some(letters[|letters| - 1])),
        id, traits, letters, Zip(traits, letters))
    ensures structs + [layer] == LayersUpTo(prog, es, i + 1)
  {
    if i > 0 {
      LayersUpToIndex(prog, es, i, i - 1);
    }
  }

  lemma ValidLabels(n: nat)
    requires n <= MaxEffects
    ensures forall k :: 0 <= k < n ==> ValidIdent([Label(k)])
  {
    forall k | 0 <= k < n ensures ValidIdent([Label(k)]) {
      assert 'A' <= Label(k) <= 'Z';
    }
  }

  /** With 27 labels the first 26 are identifiers and the 27th, `'['`, is
      not: `Ident::new` panics on it. */
  lemma LabelsStopAt26(chars: seq<char>)
    requires chars == Labels(MaxEffects + 1)
    ensures LetterIdents(chars) == Err(InvalidIdent("["))
  {
    LabelsAreConsecutive(MaxEffects + 1);
    assert chars[MaxEffects] == Label(MaxEffects) == '[';
    ValidLabels(MaxEffects);
    FirstInvalidLetter(chars, MaxEffects);
  }

  lemma {:induction false} FirstInvalidLetter(cs: seq<char>, j: nat)
    requires j < |cs| && !ValidIdent([cs[j]])
    requires forall k :: 0 <= k < j ==> ValidIdent([cs[k]])
    ensures LetterIdents(cs) == Err(InvalidIdent([cs[j]]))
    decreases j
  {
    if j > 0 {
      FirstInvalidLetter(cs[1..], j - 1);
    }
  }

  lemma NameIsIdent(prog: Ident, es: seq<Effect>, i: nat)
    requires ValidNames(prog, es) && i < |es|
    ensures ValidIdent(LayerName(prog, es, i))
  {
    ConcatValidIdent(prog, "With");
    NamesAreIdent(es[..i + 1]);
    ConcatValidIdent(prog + "With", EffectNames(es[..i + 1]));
  }

  lemma {:induction false} NamesAreIdent(es: seq<Effect>)
    requires |es| > 0 && forall k :: 0 <= k < |es| ==> ValidIdent(es[k].name)
    ensures ValidIdent(EffectNames(es))
    decreases |es|
  {
    if |es| > 1 {
      NamesAreIdent(es[..|es| - 1]);
      ConcatValidIdent(EffectNames(es[..|es| - 1]), es[|es| - 1].name);
    } else {
      assert EffectNames(es[..0]) == "";
    }
  }
}
