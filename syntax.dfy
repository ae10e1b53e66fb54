/** The slice of Rust syntax the generator reads and writes: identifiers,
    paths, token trees (for the attribute arguments) and a small expression
    tree (for the annotated function's body). */
module Syntax {
  import opened Wrappers

  type Ident = string

  /** What the generator can fail with. Every one of them aborts the macro
      expansion: a panic inside the macro or a syn parse error. */
  datatype Error =
    | InvalidIdent(text: string)   // `Ident::new` panics on text that is not an identifier
    | ExpectedIdent                // syn: "expected identifier"
    | ExpectedPunct(op: string)    // syn: "expected `op`"
    | ExpectedParens               // syn: "expected parentheses"
    | UnexpectedToken              // tokens left over inside a parenthesised group
    | EmptyPath                    // "There must be at least one PathSegment"

  /** Lexical identifier characters. Non-ASCII characters are all admitted
      (Unicode XID tables are not modelled). */
  predicate IdentStart(c: char) {
    'A' <= c <= 'Z' || 'a' <= c <= 'z' || c == '_' || c as int > 0x7F
  }

  predicate IdentContinue(c: char) {
    IdentStart(c) || '0' <= c <= '9'
  }

  /** The text `Ident::new` accepts. */
  predicate ValidIdent(s: string) {
    |s| > 0 && IdentStart(s[0]) && forall k :: 1 <= k < |s| ==> IdentContinue(s[k])
  }

  /** `Ident::new(text, span)`: panics unless `text` is an identifier. */
  function IdentNew(text: string): (r: Result<Ident, Error>)
    ensures r.Ok? <==> ValidIdent(text)
    ensures r.Ok? ==> r.value == text
    ensures r.Err? ==> r.error == InvalidIdent(text)
  {
    if ValidIdent(text) then Ok(text) else Err(InvalidIdent(text))
  }

  lemma {:induction false} ConcatValidIdent(a: string, b: string)
    requires ValidIdent(a) && ValidIdent(b)
    ensures ValidIdent(a + b)
  {
    forall k | 1 <= k < |a + b| ensures IdentContinue((a + b)[k]) {
      if k < |a| {
        assert (a + b)[k] == a[k];
      } else {
        assert (a + b)[k] == b[k - |a|];
      }
    }
  }

  /** A `syn::Path` without generic arguments: an optional leading `::`
      and its segments. */
  datatype Path = Path(global: bool, segments: seq<Ident>)

  /** `Path::is_ident`: no leading colon and exactly the one segment `id`. */
  predicate IsIdent(p: Path, id: Ident) {
    !p.global && |p.segments| == 1 && p.segments[0] == id
  }

  /** `<ty as Trait>::...`: the self type and how many segments of the path
      name the trait. */
  datatype QSelf = QSelf(ty: Ident, position: nat)

  datatype Member = Named(name: Ident) | Unnamed(index: nat)

  /** A simplified `syn::Expr`. */
  datatype Expr =
    | Call(func: Expr, args: seq<Expr>)
    | PathExpr(qself: Option<QSelf>, path: Path)
    | Field(base: Expr, member: Member)
    | Reference(mutable: bool, referent: Expr)
    | MethodCall(receiver: Expr, methodName: Ident, args: seq<Expr>)
    | Binary(op: string, left: Expr, right: Expr)
    | If(cond: Expr, thenBranch: Expr, elseBranch: Option<Expr>)
    | Block(stmts: seq<Expr>)
    | Let(name: Ident, init: Option<Expr>)
    | Lit(text: string)

  /** A parameter of a function signature: a `self` receiver (by value,
      possibly `mut`) or a typed pattern `pat: ty`. */
  datatype FnArg = SelfReceiver(mutable: bool) | Typed(pat: Ident, ty: string)

  /** A `syn::ItemFn`: its name, its parameters, its return type and the
      statements of its body. */
  datatype ItemFn = ItemFn(ident: Ident, inputs: seq<FnArg>, output: string, body: seq<Expr>)

  /** The expression `self`. */
  const SelfPath: Expr := PathExpr(None, Path(false, ["self"]))

  /** A token tree: proc_macro's Ident, Punct (multi-character operators
      such as `=>` and `::` are single tokens here), Literal and a
      parenthesised Group. */
  datatype Token =
    | Word(text: string)
    | Punct(op: string)
    | Literal(text: string)
    | Parens(inner: seq<Token>)

  /** Every identifier token of a token stream is lexically an identifier,
      as proc_macro guarantees. */
  predicate WellLexed(ts: seq<Token>) {
    forall k :: 0 <= k < |ts| ==> WellLexedToken(ts[k])
  }

  predicate WellLexedToken(t: Token) {
    match t
    case Word(text) => ValidIdent(text)
    case Parens(inner) => forall k :: 0 <= k < |inner| ==> WellLexedToken(inner[k])
    case _ => true
  }

  /** Place expressions: `self`, a field of a place, a borrow of a place. */
  predicate IsPlace(e: Expr) {
    match e
    case PathExpr(q, _) => q.None?
    case Field(b, _) => IsPlace(b)
    case Reference(_, b) => IsPlace(b)
    case _ => false
  }

  /** The tokens of a path: `::`? first segment, then `:: segment` for each
      further one. */
  function PrintPath(p: Path): seq<Token> {
    (if p.global then [Punct("::")] else [])
    + (if |p.segments| == 0 then [] else [Word(p.segments[0])] + PrintTail(p.segments[1..]))
  }

  function PrintTail(ss: seq<Ident>): (r: seq<Token>)
    ensures |r| == 2 * |ss|
  {
    if |ss| == 0 then [] else [Punct("::"), Word(ss[0])] + PrintTail(ss[1..])
  }

  function PrintMember(m: Member): Token {
    match m
    case Named(n) => Word(n)
    case Unnamed(i) => Literal(NatText(i))
  }

  function NatText(n: nat): string
    decreases n
  {
    var d := ['0' + (n % 10) as char];
    if n < 10 then d else NatText(n / 10) + d
  }

  /** The tokens syn 1 prints for a place expression: a field access prints
      its base, a dot and the member, with no parentheses around the base. */
  function PrintPlace(e: Expr): seq<Token>
    requires IsPlace(e)
  {
    match e
    case PathExpr(_, p) => PrintPath(p)
    case Field(b, m) => PrintPlace(b) + [Punct("."), PrintMember(m)]
    case Reference(m, b) => [Punct("&")] + (if m then [Word("mut")] else []) + PrintPlace(b)
  }
}
