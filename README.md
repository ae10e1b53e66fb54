# effers-derive `#[program]`, modelled in Dafny

`#[program(Name => Printer(print(&self) as p), Logger(debug(&mut self)))]`
turns a function that calls effect operations by bare name into a small
family of generated items:

- a unit struct for the program;
- one "layer" struct per effect (`NameWithPrinter<A: Printer,>(Name, A)`,
  `NameWithPrinterLogger<A: Printer, B: Logger,>(NameWithPrinter<A,>, B)`, …);
- one `add` builder method per layer;
- the function itself, renamed `run`, taking `mut self`, with every call
  to a declared operation rewritten into a qualified trait call
  (`<A as Printer>::print(&self.0.1, …)`).

The model follows the macro's four source files, one module each, plus two
modules of shared types and a worked example:

| module | file | what it holds |
|---|---|---|
| `Wrappers` | wrappers.dfy | `Option` and `Result` with `:-` propagation |
| `Syntax` | syntax.dfy | identifiers, paths, the expression AST, tokens, `ItemFn` |
| `Letters` | letters.dfy | `LettersIter`, the slot-label counter, as a class with an `idx` field |
| `Parse` | parse.dfy | the attribute grammar: `ParseStream` cursor class, the `Parse` impls as methods, the same grammar as functions, and the rendering it inverts |
| `IntermediateStructs` | intermediate_structs.dfy | the fold that builds the layer chain |
| `Rewriter` | rewriter.dfy | `FuncRewriter`, `rewrite_func` and a small evaluator for the receiver expressions |
| `Program` | program.dfy | `program`, `rewrite_item_into_struct`, `impls` and `final_impl` |
| `Example` | example.dfy | the `MyCoolProgram` declaration of examples/main.rs, worked through |

Generated code is modelled as records rather than token streams:
`StructDef` is a layer struct, `AddImpl` is one `add` impl, `RunImpl` is the
`run` impl and `Generated` is everything `rewrite_item_into_struct` emits.
The stateful parts of the source are modelled as classes and loops:

- the `LettersIter` counter;
- syn's `ParseStream` cursor;
- the `ExprCall` node that `visit_expr_call_mut` edits in place;
- the `impls` and fold loops.

Each of these is proved equal to a specification function, and the
properties are proved about those functions.

## Model

| member | source | states |
|---|---|---|
| Letters.LettersIter.constructor | effers-derive/src/lette.rs:7-11 | a fresh iterator's counter is one below `'A'` |
| Letters.LettersIter.Next | effers-derive/src/lette.rs:16-25 | `next` moves the counter and returns the item exactly as `Step` of the old counter: up to 100 increments, stopping at the first Unicode scalar value |
| Letters.ProbeFindsFirst | effers-derive/src/lette.rs:17-24 | the returned char is the first scalar value above the old counter; `None` comes back exactly when all 100 candidates are not scalar values |
| Letters.StepMoves | effers-derive/src/lette.rs:17-24 | each `next` advances the counter by 1 to 100, the returned char's code point equals the new counter, and `None` is possible only inside the surrogate gap or past U+10FFFF |
| Letters.TakeLetters | effers-derive/src/intermediate_structs.rs:45-47 | `LettersIter::new().take(n)` yields `Labels(n)` |
| Letters.TakenLength | effers-derive/src/intermediate_structs.rs:45-46 | `take(n)` yields at most `n` items |
| Letters.TakenStaysExhausted | effers-derive/src/lette.rs:16-25 | once `take` has stopped short, taking more yields nothing further |
| Letters.TakenPrefix | effers-derive/src/intermediate_structs.rs:45-46 | the first `n` labels are a prefix of the first `m >= n`, so layer `i`'s letters are a prefix of layer `i+1`'s |
| Letters.LabelsAreConsecutive | effers-derive/src/lette.rs:7-20 | for every `n` up to `LabelBound` (all counters below the surrogate range, U+D800), label `k` is `'A' + k` and the counter ends `n` above its start |
| Letters.TakenBelowCounter | effers-derive/src/lette.rs:18-20 | every item taken is at most the final counter, which never decreases |
| Letters.TakenIncreasing | effers-derive/src/lette.rs:18-20 | the items of one iterator have strictly increasing code points, so they are distinct |
| Letters.LabelsAreCapitals | effers-derive/src/lette.rs:7-20 | the first 26 labels are `A` to `Z` in order, and the 27th is `'['`, which is not a capital |
| Syntax.IdentNew | effers-derive/src/intermediate_structs.rs:47 | `Ident::new` succeeds exactly on identifier text and then returns it; otherwise it fails with that text |
| IntermediateStructs.LetterIdents | effers-derive/src/intermediate_structs.rs:47 | the labels become one-letter identifiers exactly when each is an identifier character |
| IntermediateStructs.FirstInvalidLetter | effers-derive/src/intermediate_structs.rs:47 | the panic names the first label that is not an identifier |
| IntermediateStructs.LabelsStopAt26 | effers-derive/src/intermediate_structs.rs:45-47 | a 27th effect makes the labels include `'['`, and `Ident::new` panics on it |
| IntermediateStructs.Zip | effers-derive/src/intermediate_structs.rs:48-52 | the generics list pairs letter `k` with trait `k`, one entry per letter |
| IntermediateStructs.LayersUpToIndex | effers-derive/src/intermediate_structs.rs:35-81 | layer `k` of the fold is `LayerAt(k)`: the name `<Prog>With<E0>…<Ek>`, traits and letters `0..k`, their zip, previous layer and last letter as the two fields |
| IntermediateStructs.LayersSpec | effers-derive/src/intermediate_structs.rs:33-82 | the builder succeeds exactly for at most 26 effects and otherwise panics on `"["`; on success it makes one layer per effect, layer `k` being `LayerAt(k)` |
| IntermediateStructs.BuildIntermediateStructs | effers-derive/src/intermediate_structs.rs:33-82 | the fold's result is `Layers` of the program name and effects |
| IntermediateStructs.FoldEffect | effers-derive/src/intermediate_structs.rs:39-79 | one fold step extends the layers, the running name and the traits to the next prefix, and panics exactly at the 27th effect |
| IntermediateStructs.AccumulatorsGrow | effers-derive/src/intermediate_structs.rs:40-42 | the running name gains the effect's name and the traits gain its path |
| IntermediateStructs.LettersOfLayer | effers-derive/src/intermediate_structs.rs:45-47 | layer `i`'s letters are the first `i+1` labels as identifiers, up to the 26th |
| IntermediateStructs.LabelIdentsOf | effers-derive/src/intermediate_structs.rs:47 | consecutive identifier labels map to `LabelIdents` |
| IntermediateStructs.FoldStep | effers-derive/src/intermediate_structs.rs:55-76 | the pushed struct is layer `i`: previous layer applied to its letters (or the bare program), newest letter |
| IntermediateStructs.ValidLabels | effers-derive/src/intermediate_structs.rs:47 | the first 26 labels are identifiers |
| IntermediateStructs.NameIsIdent | effers-derive/src/intermediate_structs.rs:54 | every layer name is an identifier, so `Ident::new(&name)` does not panic |
| IntermediateStructs.NamesAreIdent | effers-derive/src/intermediate_structs.rs:40 | concatenated effect names form an identifier |
| Syntax.ConcatValidIdent | effers-derive/src/intermediate_structs.rs:40 | two identifiers joined form an identifier |
| Program.LayersNonEmpty | effers-derive/src/lib.rs:88-89 | every layer has a last trait and a last letter, so the two `unwrap`s succeed |
| Program.Impls | effers-derive/src/lib.rs:72-107 | one `add` per layer: impl `k` is `ImplAt(k)`, its target advancing from the bare program to the previous layer applied to its letters |
| Program.AddChain | effers-derive/src/lib.rs:72-107 | `add` `i` is generic over the layer's last letter bound by its trait and returns layer `i` applied to all its letters. The first targets `Prog` with no generics; each later one targets what the previous returned. Its target and parameter are the two fields of layer `i` |
| Program.SlotLabelInEveryLayer | effers-derive/src/lib.rs:161-188 | the label qualifying effect `i`'s calls is letter `i` of every layer from `i` on, bound by effect `i`'s trait |
| Program.FinalImpl | effers-derive/src/lib.rs:109-125 | `run` sits in an impl on the last layer applied to its letters, under its full generics |
| Program.StructTokens | effers-derive/src/lib.rs:48-51 | the layer structs are emitted in order |
| Program.RewriteItemIntoStruct | effers-derive/src/lib.rs:42-70 | the emitted items are `Generate` of the function, effects and name |
| Program.GenerateSpec | effers-derive/src/lib.rs:42-70 | generation fails exactly past 26 effects. Otherwise it emits the program struct and one layer and one `add` per effect. Layer `k` is named `<Prog>With<E0>…<Ek>`. `run` sits on the type the last `add` returns, under the zipped generics |
| Program.NamedArgsWellFormed | effers-derive/src/lib.rs:25-30 | after defaulting, the arguments have a name and the names and paths the generator needs |
| Program.ProgramName | effers-derive/src/lib.rs:27-30 | the name is the declared one when the second token is `=>`; otherwise it is the Pascal-cased function name, or a panic if that is not an identifier |
| Program.ProgramMacro | effers-derive/src/lib.rs:18-39 | the macro's output is the corrected `Expand` of the attribute and function (see Findings); the code as written is `ExpandAsWritten`, which differs only when no effect is declared |
| Program.ExpandSpec | effers-derive/src/lib.rs:18-39 | with effects the output is the generated items (or the layer builder's panic); with none it is the function unchanged |
| Program.NoEffectsLoseFunction | effers-derive/src/lib.rs:32-36 | as written, an empty effect list emits the bare token `item`, not the function |
| Program.NoEffectsKeepFunction | effers-derive/src/lib.rs:32-36 | with the function passed through, an empty effect list returns it unchanged, where the code as written emits `item` |
| Rewriter.FindBelow | effers-derive/src/lib.rs:162-164 | the found operation names the callee and no earlier operation of that effect does; none found means none does |
| Rewriter.LookupBelow | effers-derive/src/lib.rs:161-164 | the first effect and operation, in declaration order, whose alias (or name when there is no alias) is the bare callee, or none exactly when no operation matches |
| Rewriter.LookupSettled | effers-derive/src/lib.rs:161-164 | a match among the first effects stays the answer when later effects are scanned |
| Rewriter.FindSettled | effers-derive/src/lib.rs:162-164 | a match among the first operations stays the answer when later ones are scanned |
| Rewriter.NextLabel | effers-derive/src/lib.rs:161 | the iterator zipped with effect `i` yields label `i` |
| Rewriter.FirstMatch | effers-derive/src/lib.rs:160-224 | when operation `j` of effect `i` is the first match, the call becomes that operation's resolved call |
| Rewriter.BuildReceiver | effers-derive/src/lib.rs:194-220 | the receiver is the self expression with `eff_len - i - 1` `.0` steps and then `.1` |
| Rewriter.DescendSnoc | effers-derive/src/lib.rs:196-220 | one more access step wraps the receiver in one more field access |
| Rewriter.Resolve | effers-derive/src/lib.rs:166-222 | on a match the callee is replaced by the effect path plus the operation name under `<label as …>`, the receiver is prepended when there is a self mode, and the result is `ResolvedCall` of the old arguments |
| Rewriter.FuncRewriter.VisitExprCallMut | effers-derive/src/lib.rs:155-228 | the node edited in place becomes `RewriteCall` of its old callee and arguments |
| Rewriter.FuncRewriter.VisitExprMut | effers-derive/src/lib.rs:144-155 | the traversal rewrites every call it reaches and does not enter calls' arguments |
| Rewriter.FuncRewriter.VisitItemFnMut | effers-derive/src/lib.rs:144 | the function body becomes `RewriteBody`, the signature untouched (types are strings here, so expressions inside the signature, such as a const array length, and nested items are not visited) |
| Rewriter.RewriteFunc | effers-derive/src/lib.rs:127-149 | the function is renamed `run`, `mut self` is parameter 0, the other parameters shift by one unchanged, the return type stays, and the body is rewritten |
| Rewriter.UnmatchedCallUntouched | effers-derive/src/lib.rs:160-164 | a call whose callee is not a declared bare name is left exactly as it was |
| Rewriter.FirstDeclaredMatchWins | effers-derive/src/lib.rs:161-224 | when several operations match, the first declared one rewrites the call |
| Rewriter.AliasHidesName | effers-derive/src/lib.rs:163-164 | with an alias, only the alias matches and the canonical name does not |
| Rewriter.ResolvedCallShape | effers-derive/src/lib.rs:166-223 | the callee is the effect path plus the operation's name, qualified by label `i` at the effect path's length. With a self mode the receiver is prepended as argument 0; without one the arguments are unchanged |
| Rewriter.QualifiedNamesNothing | effers-derive/src/lib.rs:164-185 | a rewritten callee has at least two segments, so it matches no operation |
| Rewriter.RewriteCallIdempotent | effers-derive/src/lib.rs:160-224 | rewriting a rewritten call changes nothing, so one match is applied at most once |
| Rewriter.RewriteIdempotent | effers-derive/src/lib.rs:155-228 | rewriting a whole rewritten expression changes nothing |
| Rewriter.EvalDescend | effers-derive/src/lib.rs:196-220 | evaluating the receiver is projecting the value of `self` along its access path |
| Rewriter.AccessPathReachesHandler | effers-derive/src/lib.rs:194-220 | on the nested pairs the `add` chain builds, `N-i-1` `.0` steps and one `.1` reach handler `i` |
| Rewriter.ReceiverIsHandler | effers-derive/src/lib.rs:191-223 | whatever the self mode, the injected receiver denotes exactly the `i`-th attached handler |
| Parse.SelfExpr | effers-derive/src/parse.rs:77-86 | each self mode's expression is a place (`self`, `&self`, `&mut self`) |
| Parse.IdentAt | effers-derive/src/parse.rs:30 | an identifier is read exactly when the next token is a word that is not a keyword |
| Parse.PunctAt | effers-derive/src/parse.rs:31 | a punctuation token is read exactly when it is next |
| Parse.SegmentAt | effers-derive/src/parse.rs:47 | a path segment is a word that is not a keyword, or a path keyword such as `self` |
| Parse.PathAt | effers-derive/src/parse.rs:47 | a parsed path has at least one segment and consumes at least one token |
| Parse.EffectName | effers-derive/src/parse.rs:54-59 | the effect name is the last path segment, and the `expect` fails only on an empty path |
| Parse.SelfModeOfSpec | effers-derive/src/parse.rs:73-92 | `(&mut self)`, `(&self)`, `(self)` and `()` read as the three modes and no mode; contents that start with none of `&mut self`, `&self`, `self` are an error, and so, in this model only, are the longer receivers that start with one of them (see Left out) |
| Parse.EffectFunctionAt | effers-derive/src/parse.rs:69-107 | the reference grammar of `EffectFunction::parse`: a successful parse consumes at least the name and stays within the stream |
| Parse.EffectAt | effers-derive/src/parse.rs:45-66 | the reference grammar of `Effect::parse`: a successful parse consumes at least the path and its group and stays within the stream |
| Parse.SelfReferenceAt | effers-derive/src/parse.rs:73-92 | the mode consumes the parenthesised group exactly when one follows |
| Parse.AliasAt | effers-derive/src/parse.rs:94-99 | an alias exists exactly when `as` and an identifier follow; `as` alone is consumed without one |
| Parse.ArgsOf | effers-derive/src/parse.rs:27-43 | a name is present exactly when the second token is `=>`, and it is then the first token and not a keyword |
| Parse.ParseStream.Peek | effers-derive/src/parse.rs:29 | `peek`/`peek2`/`peek3` see the token `k` places ahead without moving |
| Parse.ParseStream.IsEmpty | effers-derive/src/parse.rs:37 | the stream is empty exactly at its end |
| Parse.ParseStream.Skip | effers-derive/src/parse.rs:95 | consuming tokens moves the cursor by their number |
| Parse.ParseStream.ParseIdent | effers-derive/src/parse.rs:30 | the cursor method agrees with `IdentAt` on result and new position |
| Parse.ParseStream.ParsePunct | effers-derive/src/parse.rs:31 | the cursor method agrees with `PunctAt` |
| Parse.ParseStream.ParseSegment | effers-derive/src/parse.rs:47 | the cursor method agrees with `SegmentAt` |
| Parse.ParseStream.ParsePath | effers-derive/src/parse.rs:47 | the cursor method agrees with `PathAt` |
| Parse.ParseStream.Parenthesized | effers-derive/src/parse.rs:49 | `parenthesized!` opens a fresh cursor on the group's contents and steps past it, or fails when no group follows |
| Parse.ParseSelfReference | effers-derive/src/parse.rs:73-92 | the cursor code agrees with `SelfReferenceAt` |
| Parse.ParseEffectFunction | effers-derive/src/parse.rs:69-107 | the cursor code agrees with `EffectFunctionAt` |
| Parse.ParseFunctionList | effers-derive/src/parse.rs:50-52 | the comma-separated operations parse to `FunctionsFrom`, in order |
| Parse.ParseEffect | effers-derive/src/parse.rs:45-68 | the cursor code agrees with `EffectAt` |
| Parse.ParseEffectList | effers-derive/src/parse.rs:37-39 | the comma-separated effects parse to `EffectsFrom`, in order |
| Parse.ParseArgs | effers-derive/src/parse.rs:27-43 | `Args::parse` on the stream returns `ArgsOf` of its tokens |
| Parse.TrailingComma | effers-derive/src/parse.rs:37-39 | a comma after the last effect is accepted and adds no effect |
| Parse.FunctionsFromStep | effers-derive/src/parse.rs:50-52 | the operation list is the first operation followed by the list after its comma |
| Parse.EffectsFromStep | effers-derive/src/parse.rs:37-39 | the effect list is the first effect followed by the list after its comma |
| Parse.EffectFunctionRendered | effers-derive/src/parse.rs:69-107 | a well-formed operation's declaration syntax parses back to it |
| Parse.FunctionsRendered | effers-derive/src/parse.rs:50-52 | a rendered operation list parses back to the same operations in order |
| Parse.PathRendered | effers-derive/src/parse.rs:47 | a printed path parses back to itself |
| Parse.EffectRendered | effers-derive/src/parse.rs:45-68 | a well-formed effect's declaration syntax parses back to it |
| Parse.EffectsRendered | effers-derive/src/parse.rs:37-39 | a rendered effect list parses back to the same effects in order |
| Parse.ArgsRoundTrip | effers-derive/src/parse.rs:27-107 | every well-formed declaration, rendered, parses back to itself |
| Parse.NoArrowSecond | effers-derive/src/parse.rs:29 | a rendered effect list never has `=>` as its second token, so the name test cannot misfire |
| Parse.PathWellFormed | effers-derive/src/parse.rs:47 | every parsed path segment is an identifier or a path keyword |
| Parse.EffectFunctionWellFormed | effers-derive/src/parse.rs:69-107 | a parsed operation's name and alias are identifiers that are not keywords |
| Parse.FunctionsWellFormed | effers-derive/src/parse.rs:50-52 | every parsed operation is well formed |
| Parse.EffectWellFormed | effers-derive/src/parse.rs:45-68 | a parsed effect has a non-empty path whose last segment is its name |
| Parse.EffectsWellFormed | effers-derive/src/parse.rs:37-39 | every parsed effect is well formed |
| Parse.ParsedArgsWellFormed | effers-derive/src/parse.rs:27-107 | whatever is parsed from well-lexed tokens is well formed, so `ArgsRoundTrip` covers every parse result |
| Example.ExampleRendered | examples/main.rs:3-6 | the declaration renders to the attribute's tokens |
| Example.ExampleWellFormed | examples/main.rs:3-6 | the declaration is well formed |
| Example.AttrParses | examples/main.rs:3-6 | the attribute parses to `MyCoolProgram` with `Printer` then `Logger` |
| Example.FirstLayer | examples/main.rs:3-6 | the first layer is `MyCoolProgramWithPrinter<A: Printer,>(MyCoolProgram, A)` |
| Example.SecondLayer | examples/main.rs:3-6 | the second layer is `MyCoolProgramWithPrinterLogger<A: Printer, B: Logger,>(MyCoolProgramWithPrinter<A,>, B)` |
| Example.AliasCall | examples/main.rs:9 | `p(x)` becomes `<A as Printer>::print(&self.0.1, x)` |
| Example.NoReceiverCall | examples/main.rs:8 | `printer_available()` becomes `<A as Printer>::available()` with no receiver |
| Example.MutRefCall | examples/main.rs:12 | `debug(x)` becomes `<B as Logger>::debug(&mut self.1, x)` |
| Example.ByValueCall | examples/main.rs:13 | `info(x)` becomes `<B as Logger>::info(self.1, x)` |
| Example.CanonicalNameHidden | examples/main.rs:4 | `print(x)` is not rewritten, because the alias `p` hides it |
| Example.ExampleReceiverText | examples/main.rs:9 | the receiver of `p` prints as `&self.0.1` |

## Left out

- Token streams, `quote!`, spans and `#[derive(Clone, Copy)]` on the emitted structs are not modelled. The output is a set of records describing the generated structs and impls, not their text.
- The Pascal-casing of the function name (`convert_case`) is a foreign library call. It is a parameter `pascal` of `Program.ProgramMacro`, `Program.Expand` and `Program.NamedArgs`.
- `parse_macro_input!` on the item is not modelled: the function arrives already parsed as an `ItemFn`. Its parse errors are out of scope.
- syn's lexer is not modelled. The attribute is a sequence of `Token`s (words, punctuation, literals and parenthesised groups), and `Syntax.WellLexed` states what the lexer guarantees.
- Syntax.IdentNew: ASCII identifier characters follow Rust exactly, but every character above U+007F is accepted as an identifier start and continue character (`IdentStart` / `IdentContinue`), because the Unicode XID classes are not modelled. So `Syntax.IdentNew` and the panic condition of `Program.ProgramName` accept some non-XID text that `Ident::new` rejects, such as `"→"` or `"a→"`. Raw identifiers and paths with generic arguments (`Printer<T>`) are not modelled either.
- Parse.Reserved: the keyword set is the one syn 1.0's `Ident` parser refuses, the Rust 2018 strict and reserved keywords plus `_`. The crate's syn version is not pinned in the sources; syn releases before 1.0 also accepted `async`, `await`, `dyn` and `try` as identifiers.
- The expression AST is a small datatype. It has calls, paths, field accesses, references, method calls, binary operators, `if`, blocks, `let` and literals. Closures, macros, loops and the other syn expression kinds are not modelled, and the default `VisitMut` traversal is modelled over these constructors only.
- Parse.SelfModeOf: only the bare receivers `&mut self`, `&self` and `self` are modelled. syn's `ExprReference` and `ExprPath` parsers, which effers-derive/src/parse.rs:77-84 runs after peeking, also accept longer expressions that start the same way (`&self.x`, `&mut self.f.g()`, `&self::x`, `self::x`), and the macro would wrap them as `&self.x.0.1`. The model reports these as `UnexpectedToken`, so `Parse.SelfModeOfSpec`, `Parse.ArgsOf` and `Parse.ParseArgs` reject attributes the macro expands. The receiver is modelled as one of three modes, not as an arbitrary place expression, because the rewriter's receiver proofs (`Rewriter.ReceiverIsHandler`) are stated for `self` itself. A receiver such as `&self.x` names a field the layer structs do not have, since their only fields are `.0` and `.1`.
- Parse.ParseStream: syn's shared "unexpected token" cell is modelled as an error whenever a parenthesised group has tokens left over.
- Rewriter.FuncRewriter.VisitExprMut: the call node is edited in place (`ExprCall` class), but the rest of the syntax tree is rebuilt as values rather than edited in place.
- Rewriter.FuncRewriter.VisitExprCallMut: requires at most 26 effects and non-empty effect paths (`Rewritable`). Past 26 effects the layer builder panics first (`IntermediateStructs.LayersSpec`), and the parser never returns an empty path (`Parse.EffectWellFormed`), so the rewriter is never reached in those cases. For the same reason the end of the zip with `LettersIter` returning `None` is not modelled.
- Letters.LettersIter.Next: the counter is a `nat`, so the `u32` overflow of `idx += 1` is not modelled. It lies far beyond the 27 labels the generator ever draws.
- Type and borrow checking of the generated code by rustc (attachment order, `Copy` propagation, calling `run` early) is not modelled.
- The runtime behaviour of the examples is not modelled. Only the declaration of examples/main.rs:3-16 is worked through, in `Example`.

## Findings

| source | as written | input that shows it | evidently intended | confidence | as-written member | corrected member |
|---|---|---|---|---|---|---|
| effers-derive/src/lib.rs:35 | `quote!(item)` emits the identifier token `item` | `#[program()] fn f() {}`, an empty effect list | `quote!(#item)`, the function passed through unchanged | not executed | Program.NoEffectsLoseFunction | Program.NoEffectsKeepFunction |

The as-written behaviour is `Program.ExpandAsWritten`. The corrected one is
`Program.Expand`, which `Program.ProgramMacro` implements.
