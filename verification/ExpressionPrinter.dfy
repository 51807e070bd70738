/** A canonical printer for license expressions, and its round trip through the
    tokenizer and the parser of internal/license/expression.go. */
module ExpressionPrinter {
  import opened Text
  import opened Expression

  /** A spelling the tokenizer keeps as one identifier. */
  predicate IsWord(w: string) {
    && w != []
    && (forall i :: 0 <= i < |w| ==> !IsDelimiter(w[i]))
    && WordToken(w).TokId?
  }

  // ---------------------------------------------------------------------
  // The text of a derivation, in front of the text that follows it
  // ---------------------------------------------------------------------

  function OrText(o: OrExpr, rest: string): string {
    match o
    case OrOne(a) => AndText(a, rest)
    case OrMore(a, t) => AndText(a, " OR " + OrText(t, rest))
  }

  function AndText(a: AndExpr, rest: string): string {
    match a
    case AndOne(w) => WithText(w, rest)
    case AndMore(w, t) => WithText(w, " AND " + AndText(t, rest))
  }

  function WithText(w: WithExpr, rest: string): string {
    match w
    case Plain(p) => PrimText(p, rest)
    case Except(p, e) => PrimText(p, " WITH " + (e + rest))
  }

  function PrimText(p: Primary, rest: string): string {
    match p
    case Ident(id) => id + rest
    case Paren(o) => "(" + OrText(o, ")" + rest)
  }

  predicate OrWords(o: OrExpr) {
    match o
    case OrOne(a) => AndWords(a)
    case OrMore(a, t) => AndWords(a) && OrWords(t)
  }

  predicate AndWords(a: AndExpr) {
    match a
    case AndOne(w) => WithWords(w)
    case AndMore(w, t) => WithWords(w) && AndWords(t)
  }

  predicate WithWords(w: WithExpr) {
    match w
    case Plain(p) => PrimWords(p)
    case Except(p, e) => PrimWords(p) && IsWord(e)
  }

  predicate PrimWords(p: Primary) {
    match p
    case Ident(id) => IsWord(id)
    case Paren(o) => OrWords(o)
  }

  // ---------------------------------------------------------------------
  // Tokenizing the text gives the spelling back
  // ---------------------------------------------------------------------

  /** The word before this text ends here. */
  predicate EndsWord(rest: string) {
    rest == [] || IsDelimiter(rest[0])
  }

  lemma ReadWord(w: string, rest: string)
    requires w != [] && (forall i :: 0 <= i < |w| ==> !IsDelimiter(w[i])) && EndsWord(rest)
    ensures Tokens(w + rest) == [WordToken(w)] + Tokens(rest)
  {
    ReadLetters(w, rest, []);
    assert [] + w == w;
    EndWord(w, rest);
  }

  lemma EndWord(w: string, rest: string)
    requires w != [] && EndsWord(rest)
    ensures TokensFrom(rest, w) == [WordToken(w)] + Tokens(rest)
  {
    if rest != [] {
      var d, tail := DelimiterToken(rest[0]), TokensFrom(rest[1..], []);
      assert TokensFrom(rest, []) == [] + d + tail == d + tail;
      assert [WordToken(w)] + d + tail == [WordToken(w)] + (d + tail);
    }
  }

  lemma ReadSpace(rest: string)
    ensures Tokens(" " + rest) == Tokens(rest)
  {
    assert (" " + rest)[1..] == rest;
  }

  /** A spaced operator reads as its token. */
  lemma ReadOperator(op: string, t: Token, rest: string)
    requires (op, t) in {("AND", TokAnd), ("OR", TokOr), ("WITH", TokWith)}
    ensures Tokens(" " + op + " " + rest) == [t] + Tokens(rest)
  {
    assert ToUpper(op) == op;
    ReadSpace(rest);
    ReadWord(op, " " + rest);
    ReadSpace(op + (" " + rest));
    assert " " + op + " " + rest == " " + (op + (" " + rest));
  }

  lemma {:induction false} OrTokens(o: OrExpr, rest: string)
    requires OrWords(o) && EndsWord(rest)
    ensures Tokens(OrText(o, rest)) == OrSpell(o, Tokens(rest))
  {
    match o
    case OrOne(a) =>
      AndTokens(a, rest);
    case OrMore(a, t) =>
      OrTokens(t, rest);
      ReadOperator("OR", TokOr, OrText(t, rest));
      assert " OR " + OrText(t, rest) == " " + "OR" + " " + OrText(t, rest);
      AndTokens(a, " OR " + OrText(t, rest));
  }

  lemma {:induction false} AndTokens(a: AndExpr, rest: string)
    requires AndWords(a) && EndsWord(rest)
    ensures Tokens(AndText(a, rest)) == AndSpell(a, Tokens(rest))
  {
    match a
    case AndOne(w) =>
      WithTokens(w, rest);
    case AndMore(w, t) =>
      AndTokens(t, rest);
      ReadOperator("AND", TokAnd, AndText(t, rest));
      assert " AND " + AndText(t, rest) == " " + "AND" + " " + AndText(t, rest);
      WithTokens(w, " AND " + AndText(t, rest));
  }

  lemma {:induction false} WithTokens(w: WithExpr, rest: string)
    requires WithWords(w) && EndsWord(rest)
    ensures Tokens(WithText(w, rest)) == WithSpell(w, Tokens(rest))
  {
    match w
    case Plain(p) =>
      PrimTokens(p, rest);
    case Except(p, e) =>
      ReadWord(e, rest);
      ReadOperator("WITH", TokWith, e + rest);
      assert " WITH " + (e + rest) == " " + "WITH" + " " + (e + rest);
      PrimTokens(p, " WITH " + (e + rest));
  }

  lemma {:induction false} PrimTokens(p: Primary, rest: string)
    requires PrimWords(p) && EndsWord(rest)
    ensures Tokens(PrimText(p, rest)) == PrimSpell(p, Tokens(rest))
  {
    match p
    case Ident(id) =>
      ReadWord(id, rest);
    case Paren(o) =>
      var tail := ")" + rest;
      OrTokens(o, tail);
      assert tail[1..] == rest;
      assert Tokens(tail) == [TokRParen] + Tokens(rest);
      assert ("(" + OrText(o, tail))[1..] == OrText(o, tail);
  }

  /** Any derivation, printed and parsed again, yields its tree. */
  lemma DerivationRoundTrip(o: OrExpr)
    requires OrLegal(o) && OrWords(o)
    ensures Parse(Tokens(OrText(o, ""))) == Ok(OrTree(o))
  {
    OrTokens(o, "");
    assert Tokens("") == [];
    ParseComplete(o);
  }

  // ---------------------------------------------------------------------
  // The canonical derivation of a tree: parentheses only where needed
  // ---------------------------------------------------------------------

  /** A leaf is one word, or two joined by WITH; inner nodes have two children. */
  predicate Printable(n: Expr) {
    match n
    case Leaf(id) =>
      (match Before(id, " WITH ")
       case None => IsWord(id)
       case Some(l) => IsWord(l) && IsWord(id[|l| + 6..]))
    case AndNode(kids) => |kids| >= 2 && forall k :: k in kids ==> Printable(k)
    case OrNode(kids) => |kids| >= 2 && forall k :: k in kids ==> Printable(k)
  }

  function LeafOperand(id: string): WithExpr {
    match Before(id, " WITH ")
    case None => Plain(Ident(id))
    case Some(l) => Except(Ident(l), id[|l| + 6..])
  }

  function Derivation(n: Expr): OrExpr
    requires Printable(n)
    decreases n, 3
  {
    if n.OrNode? then Alternatives(n.children) else OrOne(Conjunct(n))
  }

  function Conjunct(n: Expr): AndExpr
    requires Printable(n)
    decreases n, 2
  {
    if n.AndNode? then Conjunction(n.children) else AndOne(Operand(n))
  }

  /** A compound operand of AND, and an OR below OR, go into parentheses. */
  function Operand(n: Expr): WithExpr
    requires Printable(n)
    decreases n, 1
  {
    match n
    case Leaf(id) => LeafOperand(id)
    case AndNode(kids) => Plain(Paren(OrOne(Conjunction(kids))))
    case OrNode(kids) => Plain(Paren(Alternatives(kids)))
  }

  function Alternatives(kids: seq<Expr>): OrExpr
    requires |kids| > 0 && forall k :: k in kids ==> Printable(k)
    decreases kids, 0
  {
    if |kids| == 1 then OrOne(Conjunct(kids[0]))
    else OrMore(Conjunct(kids[0]), Alternatives(kids[1..]))
  }

  function Conjunction(kids: seq<Expr>): AndExpr
    requires |kids| > 0 && forall k :: k in kids ==> Printable(k)
    decreases kids, 0
  {
    if |kids| == 1 then AndOne(Operand(kids[0]))
    else AndMore(Operand(kids[0]), Conjunction(kids[1..]))
  }

  function Print(n: Expr): string
    requires Printable(n)
  {
    OrText(Derivation(n), "")
  }

  lemma {:induction false} ConjunctDerives(n: Expr)
    requires Printable(n)
    ensures AndLegal(Conjunct(n)) && AndWords(Conjunct(n)) && AndTree(Conjunct(n)) == n
    decreases n, 2
  {
    if n.AndNode? { ConjunctionDerives(n.children); } else { OperandDerives(n); }
  }

  lemma {:induction false} OperandDerives(n: Expr)
    requires Printable(n)
    ensures WithLegal(Operand(n)) && WithWords(Operand(n)) && WithTree(Operand(n)) == n
    decreases n, 1
  {
    match n
    case Leaf(id) =>
      if Before(id, " WITH ").Some? {
        var l := Before(id, " WITH ").value;
        assert id == l + " WITH " + id[|l| + 6..];
      }
    case AndNode(kids) =>
      ConjunctionDerives(kids);
      var o := OrOne(Conjunction(kids));
      assert OrKids(o) == [n];
      assert PrimTree(Paren(o)) == n;
    case OrNode(kids) =>
      AlternativesDerive(kids);
      assert PrimTree(Paren(Alternatives(kids))) == n;
  }

  lemma {:induction false} AlternativesDerive(kids: seq<Expr>)
    requires |kids| > 0 && forall k :: k in kids ==> Printable(k)
    ensures OrLegal(Alternatives(kids)) && OrWords(Alternatives(kids)) && OrKids(Alternatives(kids)) == kids
    decreases kids, 0
  {
    ConjunctDerives(kids[0]);
    if |kids| > 1 {
      AlternativesDerive(kids[1..]);
      assert kids == [kids[0]] + kids[1..];
    }
  }

  lemma {:induction false} ConjunctionDerives(kids: seq<Expr>)
    requires |kids| > 0 && forall k :: k in kids ==> Printable(k)
    ensures AndLegal(Conjunction(kids)) && AndWords(Conjunction(kids)) && AndKids(Conjunction(kids)) == kids
    decreases kids, 0
  {
    OperandDerives(kids[0]);
    if |kids| > 1 {
      ConjunctionDerives(kids[1..]);
      assert kids == [kids[0]] + kids[1..];
    }
  }

  /** Parsing undoes printing, for every well-formed tree. */
  lemma RoundTrip(n: Expr)
    requires Printable(n)
    ensures Parse(Tokens(Print(n))) == Ok(n)
  {
    if n.OrNode? { AlternativesDerive(n.children); } else { ConjunctDerives(n); }
    DerivationRoundTrip(Derivation(n));
  }
}
