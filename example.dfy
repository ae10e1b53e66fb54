/** The program of examples/main.rs:3-16, `MyCoolProgram` with a
    `Printer` and a `Logger`, worked through the generator. */
module Example {
  import opened Wrappers
  import opened Syntax
  import opened Letters
  import opened Parse
  import opened IntermediateStructs
  import opened Rewriter
  import opened Program

  const PrinterFns: seq<EffectFunction> := [
    EffectFunction("print", Some("p"), Some(ByRef)),
    EffectFunction("available", Some("printer_available"), None)]

  const LoggerFns: seq<EffectFunction> := [
    EffectFunction("debug", None, Some(ByMutRef)),
    EffectFunction("info", None, Some(ByValue))]

  const Effects: seq<Effect> := [
    Effect("Printer", Path(false, ["Printer"]), PrinterFns),
    Effect("Logger", Path(false, ["Logger"]), LoggerFns)]

  /** `MyCoolProgram => Printer(print(&self) as p, available as
      printer_available), Logger(debug(&mut self), info(self))`. */
  const Attr: seq<Token> := [
    Word("MyCoolProgram"), Punct("=>"),
    Word("Printer"),
    Parens([
      Word("print"), Parens([Punct("&"), Word("self")]), Word("as"), Word("p"), Punct(","),
      Word("available"), Word("as"), Word("printer_available")]),
    Punct(","),
    Word("Logger"),
    Parens([
      Word("debug"), Parens([Punct("&"), Word("mut"), Word("self")]), Punct(","),
      Word("info"), Parens([Word("self")])])]

  /** A call `name(args)` of a bare identifier. */
  function CallOf(name: Ident, args: seq<Expr>): Expr {
    Call(PathExpr(None, Path(false, [name])), args)
  }

  /** `<L as E>::op`. */
  function Qualified(l: Ident, e: Ident, op: Ident): Expr {
    PathExpr(Some(QSelf(l, 1)), Path(false, [e, op]))
  }

  lemma ExampleRendered()
    ensures RenderArgs(Args(Some("MyCoolProgram"), Effects)) == Attr
  {
    assert RenderFunction(PrinterFns[0]) == [Word("print"), Parens(AmpSelf), Word("as"), Word("p")];
    assert RenderFunction(PrinterFns[1]) == [Word("available"), Word("as"), Word("printer_available")];
    assert RenderFunction(LoggerFns[0]) == [Word("debug"), Parens(AmpMutSelf)];
    assert RenderFunction(LoggerFns[1]) == [Word("info"), Parens(JustSelf)];
    assert RenderFunctions(PrinterFns) == Attr[3].inner;
    assert RenderFunctions(LoggerFns) == Attr[6].inner;
    assert RenderEffect(Effects[0]) == Attr[2..4];
    assert RenderEffect(Effects[1]) == Attr[5..];
    assert RenderEffects(Effects) == Attr[2..];
  }

  lemma PrinterWellFormed()
    ensures WellFormedEffect(Effects[0])
  {
    PrintWellFormed();
    AvailableWellFormed();
    assert SegmentWord("Printer");
  }

  lemma PrintWellFormed()
    ensures WellFormedFunction(PrinterFns[0])
  {
    assert UsableIdent("print");
    assert UsableIdent("p");
  }

  lemma AvailableWellFormed()
    ensures WellFormedFunction(PrinterFns[1])
  {
    assert UsableIdent("available");
    assert UsableIdent("printer_available");
  }

  lemma LoggerWellFormed()
    ensures WellFormedEffect(Effects[1])
  {
    DebugInfoWellFormed();
    assert SegmentWord("Logger");
  }

  lemma DebugInfoWellFormed()
    ensures WellFormedFunction(LoggerFns[0]) && WellFormedFunction(LoggerFns[1])
  {
    assert UsableIdent("debug");
    assert UsableIdent("info");
  }

  lemma ExampleWellFormed()
    ensures WellFormedArgs(Args(Some("MyCoolProgram"), Effects))
  {
    assert UsableIdent("MyCoolProgram");
    PrinterWellFormed();
    LoggerWellFormed();
  }

  /** The attribute parses into the two effects, in declaration order, under
      the declared name. */
  lemma AttrParses()
    ensures ArgsOf(Attr) == Ok(Args(Some("MyCoolProgram"), Effects))
  {
    ExampleRendered();
    ExampleWellFormed();
    ArgsRoundTrip(Args(Some("MyCoolProgram"), Effects));
  }

  lemma EffectNamesOfExample()
    ensures EffectNames(Effects[..1]) == "Printer"
    ensures EffectNames(Effects[..2]) == "PrinterLogger"
  {
    assert Effects[..1] == [Effects[0]] && Effects[..1][..0] == [];
    assert Effects[..2] == Effects && Effects[..|Effects| - 1] == Effects[..1];
  }

  lemma FirstLabelIdents()
    ensures LabelIdents(1) == ["A"] && LabelIdents(2) == ["A", "B"]
  {
    assert Label(0) == 'A' && Label(1) == 'B';
  }

  /** The first layer is `MyCoolProgramWithPrinter<A: Printer,>(
      MyCoolProgram, A)`. */
  lemma FirstLayer()
    ensures LayerAt("MyCoolProgram", Effects, 0).tokens ==
      StructDef("MyCoolProgramWithPrinter", [Generic("A", Path(false, ["Printer"]))],
        TypeRef("MyCoolProgram", []), Some("A"))
  {
    EffectNamesOfExample();
    FirstLabelIdents();
    assert EffectPaths(Effects[..1]) == [Path(false, ["Printer"])];
  }

  /** The second layer is `MyCoolProgramWithPrinterLogger<A: Printer,
      B: Logger,>(MyCoolProgramWithPrinter<A,>, B)`. */
  lemma SecondLayer()
    ensures LayerAt("MyCoolProgram", Effects, 1).tokens ==
      StructDef("MyCoolProgramWithPrinterLogger",
        [Generic("A", Path(false, ["Printer"])), Generic("B", Path(false, ["Logger"]))],
        TypeRef("MyCoolProgramWithPrinter", ["A"]), Some("B"))
  {
    EffectNamesOfExample();
    FirstLabelIdents();
    assert LayerName("MyCoolProgram", Effects, 0) == "MyCoolProgramWithPrinter";
    assert LayerName("MyCoolProgram", Effects, 1) == "MyCoolProgramWithPrinterLogger";
    SecondLayerGenerics();
  }

  lemma SecondLayerGenerics()
    ensures Zip(EffectPaths(Effects[..2]), LabelIdents(2)) ==
      [Generic("A", Path(false, ["Printer"])), Generic("B", Path(false, ["Logger"]))]
  {
    FirstLabelIdents();
    assert Effects[..2] == Effects;
    var traits := EffectPaths(Effects);
    assert traits == [Path(false, ["Printer"]), Path(false, ["Logger"])];
  }

  /** `p(x)` becomes `<A as Printer>::print(&self.0.1, x)`. */
  lemma AliasCall(x: Expr)
    ensures RewriteExpr(Effects, CallOf("p", [x])) ==
      Call(Qualified("A", "Printer", "print"), [Field(Field(Reference(false, SelfPath), Unnamed(0)), Unnamed(1)), x])
  {
    assert AccessPath(2, 0) == [0, 1] by {
      assert Zeros(1) == [0];
    }
    var recv := Descend(Reference(false, SelfPath), [0, 1]);
    assert recv == Field(Field(Reference(false, SelfPath), Unnamed(0)), Unnamed(1)) by {
      assert [0, 1][1..] == [1] && [1][1..] == [];
    }
    assert QualifiedCallee(Effects[0], PrinterFns[0], 0) == Qualified("A", "Printer", "print") by {
      assert [Label(0)] == "A";
      assert ["Printer"] + ["print"] == ["Printer", "print"];
    }
    FirstDeclaredMatchWins(Effects, PathExpr(None, Path(false, ["p"])), [x], 0, 0);
    assert [recv] + [x] == [recv, x];
  }

  /** `printer_available()` becomes `<A as Printer>::available()`, with no
      receiver. */
  lemma NoReceiverCall()
    ensures RewriteExpr(Effects, CallOf("printer_available", [])) == Call(Qualified("A", "Printer", "available"), [])
  {
    assert QualifiedCallee(Effects[0], PrinterFns[1], 0) == Qualified("A", "Printer", "available") by {
      assert [Label(0)] == "A";
      assert ["Printer"] + ["available"] == ["Printer", "available"];
    }
    assert !Names(Path(false, ["printer_available"]), PrinterFns[0]);
    FirstDeclaredMatchWins(Effects, PathExpr(None, Path(false, ["printer_available"])), [], 0, 1);
  }

  /** `debug(x)` becomes `<B as Logger>::debug(&mut self.1, x)`. */
  lemma MutRefCall(x: Expr)
    ensures RewriteExpr(Effects, CallOf("debug", [x])) ==
      Call(Qualified("B", "Logger", "debug"), [Field(Reference(true, SelfPath), Unnamed(1)), x])
  {
    assert AccessPath(2, 1) == [1] by {
      assert Zeros(0) == [];
    }
    var recv := Descend(Reference(true, SelfPath), [1]);
    assert recv == Field(Reference(true, SelfPath), Unnamed(1)) by {
      assert [1][1..] == [];
    }
    assert QualifiedCallee(Effects[1], LoggerFns[0], 1) == Qualified("B", "Logger", "debug") by {
      assert [Label(1)] == "B";
      assert ["Logger"] + ["debug"] == ["Logger", "debug"];
    }
    assert !Names(Path(false, ["debug"]), PrinterFns[0]) && !Names(Path(false, ["debug"]), PrinterFns[1]);
    FirstDeclaredMatchWins(Effects, PathExpr(None, Path(false, ["debug"])), [x], 1, 0);
    assert [recv] + [x] == [recv, x];
  }

  /** `info(x)` becomes `<B as Logger>::info(self.1, x)`. */
  lemma ByValueCall(x: Expr)
    ensures RewriteExpr(Effects, CallOf("info", [x])) ==
      Call(Qualified("B", "Logger", "info"), [Field(SelfPath, Unnamed(1)), x])
  {
    assert AccessPath(2, 1) == [1] by {
      assert Zeros(0) == [];
    }
    var recv := Descend(SelfPath, [1]);
    assert recv == Field(SelfPath, Unnamed(1)) by {
      assert [1][1..] == [];
    }
    assert QualifiedCallee(Effects[1], LoggerFns[1], 1) == Qualified("B", "Logger", "info") by {
      assert [Label(1)] == "B";
      assert ["Logger"] + ["info"] == ["Logger", "info"];
    }
    assert !Names(Path(false, ["info"]), PrinterFns[0]) && !Names(Path(false, ["info"]), PrinterFns[1]);
    assert !Names(Path(false, ["info"]), LoggerFns[0]);
    FirstDeclaredMatchWins(Effects, PathExpr(None, Path(false, ["info"])), [x], 1, 1);
    assert [recv] + [x] == [recv, x];
  }

  /** `print(x)` is hidden by the alias `p` and left as it is. */
  lemma CanonicalNameHidden(x: Expr)
    ensures RewriteExpr(Effects, CallOf("print", [x])) == CallOf("print", [x])
  {
    var p := Path(false, ["print"]);
    assert !Names(p, PrinterFns[0]) && !Names(p, PrinterFns[1]);
    assert !Names(p, LoggerFns[0]) && !Names(p, LoggerFns[1]);
    UnmatchedCallUntouched(Effects, PathExpr(None, p), [x]);
  }

  /** The receiver of `p`, printed, is `&self.0.1`. */
  lemma ExampleReceiverText()
    ensures PrintPlace(Field(Field(Reference(false, SelfPath), Unnamed(0)), Unnamed(1))) ==
      [Punct("&"), Word("self"), Punct("."), Literal("0"), Punct("."), Literal("1")]
  {
    assert NatText(0) == "0" && NatText(1) == "1";
  }
}
