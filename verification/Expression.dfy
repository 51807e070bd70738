/** SPDX license expressions (internal/license/expression.go): the tokenizer and
    the recursive-descent parser, and the grammar the parser decides. */
module Expression {
  import opened Text

  // ---------------------------------------------------------------------
  // Tokens
  // ---------------------------------------------------------------------

  datatype Token = TokId(text: string) | TokAnd | TokOr | TokWith | TokLParen | TokRParen

  /** The code points that end a word. */
  predicate IsDelimiter(c: char) {
    c == '(' || c == ')' || c == ',' || c == ' ' || c == '\t' || c == '\n' || c == '\r'
  }

  /** Classifies a finished word: an operator in any letter case, or an identifier. */
  function WordToken(word: string): Token {
    var u := ToUpper(word);
    if u == "AND" then TokAnd
    else if u == "OR" then TokOr
    else if u == "WITH" then TokWith
    else TokId(word)
  }

  function FlushWord(word: string): seq<Token> {
    if word == [] then [] else [WordToken(word)]
  }

  /** The token a delimiter itself stands for, if any: a comma reads as AND. */
  function DelimiterToken(c: char): seq<Token> {
    if c == '(' then [TokLParen]
    else if c == ')' then [TokRParen]
    else if c == ',' then [TokAnd]
    else []
  }

  /** The tokens of text when word has been read but not yet flushed. */
  function TokensFrom(text: string, word: string): seq<Token> {
    if text == [] then FlushWord(word)
    else if IsDelimiter(text[0]) then
      FlushWord(word) + DelimiterToken(text[0]) + TokensFrom(text[1..], [])
    else TokensFrom(text[1..], word + [text[0]])
  }

  function Tokens(text: string): seq<Token> {
    TokensFrom(text, [])
  }

  lemma Regroup(a: seq<Token>, b: seq<Token>, c: seq<Token>, d: seq<Token>)
    ensures a + (b + c + d) == (a + b + c) + d
  {}

  method Tokenize(expr: string) returns (toks: seq<Token>)
    ensures toks == Tokens(expr)
  {
    toks := [];
    var word := "";
    for i := 0 to |expr|
      invariant toks + TokensFrom(expr[i..], word) == Tokens(expr)
    {
      var c := expr[i];
      ghost var tail := expr[i + 1..];
      assert expr[i..] == [c] + tail && ([c] + tail)[1..] == tail;
      if IsDelimiter(c) {
        Regroup(toks, FlushWord(word), DelimiterToken(c), TokensFrom(tail, []));
        toks := toks + FlushWord(word) + DelimiterToken(c);
        word := "";
      } else {
        word := word + [c];
      }
    }
    toks := toks + FlushWord(word);
  }

  // ---------------------------------------------------------------------
  // How a text is read
  // ---------------------------------------------------------------------

  lemma {:induction false} TokensAcross(a: string, c: char, b: string, word: string)
    requires IsDelimiter(c)
    ensures TokensFrom(a + ([c] + b), word) == TokensFrom(a, word) + (DelimiterToken(c) + Tokens(b))
    decreases a
  {
    var s := a + ([c] + b);
    if a == [] {
      assert s == [c] + b && s[1..] == b;
      Regroup([], FlushWord(word), DelimiterToken(c), Tokens(b));
    } else {
      assert s[1..] == a[1..] + ([c] + b);
      if IsDelimiter(a[0]) {
        TokensAcross(a[1..], c, b, []);
        var tail := DelimiterToken(c) + Tokens(b);
        Regroup(FlushWord(word), DelimiterToken(a[0]), TokensFrom(a[1..], []), tail);
      } else {
        TokensAcross(a[1..], c, b, word + [a[0]]);
      }
    }
  }

  lemma {:induction false} ReadLetters(letters: string, rest: string, word: string)
    requires forall i :: 0 <= i < |letters| ==> !IsDelimiter(letters[i])
    ensures TokensFrom(letters + rest, word) == TokensFrom(rest, word + letters)
  {
    if letters == [] {
      assert letters + rest == rest && word + letters == word;
    } else {
      assert (letters + rest)[1..] == letters[1..] + rest;
      ReadLetters(letters[1..], rest, word + [letters[0]]);
      assert word + [letters[0]] + letters[1..] == word + letters;
    }
  }

  /** What stands before and after a delimiter is read for itself; a parenthesis
      is a token and a comma reads as AND. */
  lemma TokensAroundDelimiter(a: string, b: string)
    ensures Tokens(a + ("(" + b)) == Tokens(a) + ([TokLParen] + Tokens(b))
    ensures Tokens(a + (")" + b)) == Tokens(a) + ([TokRParen] + Tokens(b))
    ensures Tokens(a + ("," + b)) == Tokens(a) + ([TokAnd] + Tokens(b))
    ensures Tokens(a + (" " + b)) == Tokens(a + ("\t" + b)) == Tokens(a + ("\n" + b)) == Tokens(a + ("\r" + b)) == Tokens(a) + Tokens(b)
  {
    TokensAcross(a, '(', b, []);
    TokensAcross(a, ')', b, []);
    TokensAcross(a, ',', b, []);
    TokensAcross(a, ' ', b, []);
    TokensAcross(a, '\t', b, []);
    TokensAcross(a, '\n', b, []);
    TokensAcross(a, '\r', b, []);
    assert [] + Tokens(b) == Tokens(b);
  }

  /** Three words are operators, in any letter case; any other is an identifier,
      in the case it is written in. */
  lemma TokenOfWord(w: string)
    requires w != []
    requires forall k :: 0 <= k < |w| ==>
               w[k] != '(' && w[k] != ')' && w[k] != ',' && w[k] != ' ' && w[k] != '\t' && w[k] != '\n' && w[k] != '\r'
    ensures Tokens(w) == [if Reads(w, "AND") then TokAnd else if Reads(w, "OR") then TokOr
                          else if Reads(w, "WITH") then TokWith else TokId(w)]
  {
    assert w + [] == w && [] + w == w;
    ReadLetters(w, [], []);
    ReadsUpper(w, "AND");
    ReadsUpper(w, "OR");
    ReadsUpper(w, "WITH");
  }

  /** An operator between two texts, in any letter case. */
  lemma OperatorInAnyCase(a: string, w: string, b: string)
    requires Reads(w, "AND") || Reads(w, "OR") || Reads(w, "WITH")
    ensures Tokens(a + (" " + (w + (" " + b)))) ==
            Tokens(a) + ([if Reads(w, "AND") then TokAnd else if Reads(w, "OR") then TokOr else TokWith] + Tokens(b))
  {
    TokensAroundDelimiter(a, w + (" " + b));
    TokensAroundDelimiter(w, b);
    TokenOfWord(w);
  }

  lemma OrInAnyCase(a: string, b: string, o: char, r: char)
    requires o == 'o' || o == 'O'
    requires r == 'r' || r == 'R'
    ensures Tokens(a + " " + [o, r] + " " + b) == Tokens(a) + [TokOr] + Tokens(b)
  {
    OperatorInAnyCase(a, [o, r], b);
    assert a + (" " + ([o, r] + (" " + b))) == a + " " + [o, r] + " " + b;
  }

  lemma AndInAnyCase(a: string, b: string, x: char, n: char, d: char)
    requires x == 'a' || x == 'A'
    requires n == 'n' || n == 'N'
    requires d == 'd' || d == 'D'
    ensures Tokens(a + " " + [x, n, d] + " " + b) == Tokens(a) + [TokAnd] + Tokens(b)
  {
    OperatorInAnyCase(a, [x, n, d], b);
    assert a + (" " + ([x, n, d] + (" " + b))) == a + " " + [x, n, d] + " " + b;
  }

  lemma WithInAnyCase(a: string, b: string, w: char, i: char, t: char, h: char)
    requires w == 'w' || w == 'W'
    requires i == 'i' || i == 'I'
    requires t == 't' || t == 'T'
    requires h == 'h' || h == 'H'
    ensures Tokens(a + " " + [w, i, t, h] + " " + b) == Tokens(a) + [TokWith] + Tokens(b)
  {
    OperatorInAnyCase(a, [w, i, t, h], b);
    assert a + (" " + ([w, i, t, h] + (" " + b))) == a + " " + [w, i, t, h] + " " + b;
  }

  /** Whether the stream holds anything but identifiers. */
  predicate HasOperator(toks: seq<Token>) {
    exists i :: 0 <= i < |toks| && !toks[i].TokId?
  }

  // ---------------------------------------------------------------------
  // Syntax trees
  // ---------------------------------------------------------------------

  /** A leaf is an identifier, or "L WITH E" for a license with an exception. */
  datatype Expr = Leaf(id: string) | AndNode(children: seq<Expr>) | OrNode(children: seq<Expr>)

  /** Every inner node has at least two children. */
  ghost predicate WellBuilt(n: Expr) {
    match n
    case Leaf(_) => true
    case AndNode(kids) => |kids| >= 2 && forall k :: k in kids ==> WellBuilt(k)
    case OrNode(kids) => |kids| >= 2 && forall k :: k in kids ==> WellBuilt(k)
  }

  datatype Error =
    | EmptyExpression
    | UnexpectedToken
    | ExceptionExpected
    | WithAfterCompound
    | UnexpectedEnd
    | MissingParenthesis
    | UnexpectedOperator

  datatype Result<+T> = Ok(value: T) | Err(error: Error)

  // ---------------------------------------------------------------------
  // The parser as a function of the tokens still to be read
  // ---------------------------------------------------------------------

  datatype Parsed = Done(tree: Expr, rest: seq<Token>) | Failed(error: Error)

  /** One operand stands for itself. */
  function OrGroup(children: seq<Expr>): Expr
    requires |children| > 0
  {
    if |children| == 1 then children[0] else OrNode(children)
  }

  function AndGroup(children: seq<Expr>): Expr
    requires |children| > 0
  {
    if |children| == 1 then children[0] else AndNode(children)
  }

  function ReadOr(s: seq<Token>): (r: Parsed)
    ensures r.Done? ==> |r.rest| < |s|
    decreases |s|, 3
  {
    match ReadAnd(s)
    case Failed(e) => Failed(e)
    case Done(left, rest) => ReadOrTail([left], rest)
  }

  function ReadOrTail(children: seq<Expr>, s: seq<Token>): (r: Parsed)
    requires |children| > 0
    ensures r.Done? ==> |r.rest| <= |s|
    decreases |s|, 4
  {
    if s == [] || s[0] != TokOr then Done(OrGroup(children), s)
    else match ReadAnd(s[1..])
      case Failed(e) => Failed(e)
      case Done(right, rest) => ReadOrTail(children + [right], rest)
  }

  function ReadAnd(s: seq<Token>): (r: Parsed)
    ensures r.Done? ==> |r.rest| < |s|
    decreases |s|, 2
  {
    match ReadWith(s)
    case Failed(e) => Failed(e)
    case Done(left, rest) => ReadAndTail([left], rest)
  }

  function ReadAndTail(children: seq<Expr>, s: seq<Token>): (r: Parsed)
    requires |children| > 0
    ensures r.Done? ==> |r.rest| <= |s|
    decreases |s|, 4
  {
    if s == [] || s[0] != TokAnd then Done(AndGroup(children), s)
    else match ReadWith(s[1..])
      case Failed(e) => Failed(e)
      case Done(right, rest) => ReadAndTail(children + [right], rest)
  }

  function WithId(license: string, exception: string): string {
    license + " WITH " + exception
  }

  function ReadWith(s: seq<Token>): (r: Parsed)
    ensures r.Done? ==> |r.rest| < |s|
    decreases |s|, 1
  {
    match ReadPrimary(s)
    case Failed(e) => Failed(e)
    case Done(prim, rest) =>
      if rest == [] || rest[0] != TokWith then Done(prim, rest)
      else if |rest| == 1 || !rest[1].TokId? then Failed(ExceptionExpected)
      else if !prim.Leaf? then Failed(WithAfterCompound)
      else Done(Leaf(WithId(prim.id, rest[1].text)), rest[2..])
  }

  function ReadPrimary(s: seq<Token>): (r: Parsed)
    ensures r.Done? ==> |r.rest| < |s|
    decreases |s|, 0
  {
    if s == [] then Failed(UnexpectedEnd)
    else match s[0]
      case TokLParen =>
        (match ReadOr(s[1..])
         case Failed(e) => Failed(e)
         case Done(inner, rest) =>
           if rest == [] || rest[0] != TokRParen then Failed(MissingParenthesis)
           else Done(inner, rest[1..]))
      case TokId(text) => Done(Leaf(text), s[1..])
      case _ => Failed(UnexpectedOperator)
  }

  /** The outcome of parsing a whole token stream. */
  function Parse(toks: seq<Token>): Result<Expr> {
    if toks == [] then Err(EmptyExpression)
    else match ReadOr(toks)
      case Failed(e) => Err(e)
      case Done(tree, rest) => if rest == [] then Ok(tree) else Err(UnexpectedToken)
  }

  // ---------------------------------------------------------------------
  // The parser as the source runs it: a cursor over the token slice
  // ---------------------------------------------------------------------

  class Parser {
    const toks: seq<Token>
    var pos: nat

    constructor (toks: seq<Token>)
      ensures this.toks == toks && pos == 0
    {
      this.toks := toks;
      pos := 0;
    }

    /** The tokens still to be read. */
    ghost function Rest(): seq<Token>
      requires pos <= |toks|
      reads this
    {
      toks[pos..]
    }

    /** What a method of the parser reports, read off the state it leaves. */
    ghost predicate Agrees(r: Result<Expr>, expected: Parsed)
      reads this
    {
      && pos <= |toks|
      && match r
         case Ok(tree) => expected == Done(tree, Rest())
         case Err(e) => expected == Failed(e)
    }

    method Peek() returns (t: Option<Token>)
      requires pos <= |toks|
      ensures t == if Rest() == [] then None else Some(Rest()[0])
    {
      t := if pos >= |toks| then None else Some(toks[pos]);
    }

    method ParseOr() returns (r: Result<Expr>)
      requires pos <= |toks|
      modifies this`pos
      ensures Agrees(r, ReadOr(old(Rest())))
      ensures r.Ok? ==> pos > old(pos)
      decreases |toks| - pos, 3
    {
      r := ParseAnd();
      if r.Err? { return; }
      var children := [r.value];
      while true
        invariant old(pos) < pos <= |toks| && |children| > 0
        invariant ReadOr(old(Rest())) == ReadOrTail(children, Rest())
        decreases |toks| - pos
      {
        var t := Peek();
        if t != Some(TokOr) { break; }
        pos := pos + 1;
        r := ParseAnd();
        if r.Err? { return; }
        children := children + [r.value];
      }
      r := Ok(OrGroup(children));
    }

    method ParseAnd() returns (r: Result<Expr>)
      requires pos <= |toks|
      modifies this`pos
      ensures Agrees(r, ReadAnd(old(Rest())))
      ensures r.Ok? ==> pos > old(pos)
      decreases |toks| - pos, 2
    {
      r := ParseWith();
      if r.Err? { return; }
      var children := [r.value];
      while true
        invariant old(pos) < pos <= |toks| && |children| > 0
        invariant ReadAnd(old(Rest())) == ReadAndTail(children, Rest())
        decreases |toks| - pos
      {
        var t := Peek();
        if t != Some(TokAnd) { break; }
        pos := pos + 1;
        r := ParseWith();
        if r.Err? { return; }
        children := children + [r.value];
      }
      r := Ok(AndGroup(children));
    }

    method ParseWith() returns (r: Result<Expr>)
      requires pos <= |toks|
      modifies this`pos
      ensures Agrees(r, ReadWith(old(Rest())))
      ensures r.Ok? ==> pos > old(pos)
      decreases |toks| - pos, 1
    {
      r := ParsePrimary();
      if r.Err? { return; }
      var prim := r.value;
      var t := Peek();
      if t != Some(TokWith) { return; }
      ghost var rest := Rest();
      pos := pos + 1;
      var exc := Peek();
      assert rest[1..] == Rest() && (|rest| > 1 ==> rest[1] == Rest()[0]);
      if exc.None? || !exc.value.TokId? { return Err(ExceptionExpected); }
      pos := pos + 1;
      assert rest[2..] == Rest();
      if !prim.Leaf? { return Err(WithAfterCompound); }
      r := Ok(Leaf(WithId(prim.id, exc.value.text)));
    }

    method ParsePrimary() returns (r: Result<Expr>)
      requires pos <= |toks|
      modifies this`pos
      ensures Agrees(r, ReadPrimary(old(Rest())))
      ensures r.Ok? ==> pos > old(pos)
      decreases |toks| - pos, 0
    {
      var t := Peek();
      match t {
        case None => r := Err(UnexpectedEnd);
        case Some(TokLParen) =>
          pos := pos + 1;
          r := ParseOr();
          if r.Err? { return; }
          var c := Peek();
          if c != Some(TokRParen) { return Err(MissingParenthesis); }
          ghost var rest := Rest();
          pos := pos + 1;
          assert rest[1..] == Rest();
        case Some(TokId(text)) =>
          pos := pos + 1;
          r := Ok(Leaf(text));
        case Some(_) => r := Err(UnexpectedOperator);
      }
    }
  }

  method ParseExpression(expr: string) returns (r: Result<Expr>)
    ensures r == Parse(Tokens(expr))
  {
    var toks := Tokenize(expr);
    if |toks| == 0 { return Err(EmptyExpression); }
    var p := new Parser(toks);
    assert p.Rest() == toks;
    r := p.ParseOr();
    if r.Err? { return; }
    if p.pos != |p.toks| { return Err(UnexpectedToken); }
  }

  // ---------------------------------------------------------------------
  // The grammar, as derivation trees
  // ---------------------------------------------------------------------

  datatype OrExpr = OrOne(head: AndExpr) | OrMore(head: AndExpr, tail: OrExpr)
  datatype AndExpr = AndOne(head: WithExpr) | AndMore(head: WithExpr, tail: AndExpr)
  datatype WithExpr = Plain(prim: Primary) | Except(prim: Primary, exception: string)
  datatype Primary = Ident(id: string) | Paren(inner: OrExpr)

  /** The tokens a derivation spells, in front of the tokens that follow it. */
  function OrSpell(o: OrExpr, rest: seq<Token>): seq<Token> {
    match o
    case OrOne(a) => AndSpell(a, rest)
    case OrMore(a, t) => AndSpell(a, [TokOr] + OrSpell(t, rest))
  }

  function AndSpell(a: AndExpr, rest: seq<Token>): seq<Token> {
    match a
    case AndOne(w) => WithSpell(w, rest)
    case AndMore(w, t) => WithSpell(w, [TokAnd] + AndSpell(t, rest))
  }

  function WithSpell(w: WithExpr, rest: seq<Token>): seq<Token> {
    match w
    case Plain(p) => PrimSpell(p, rest)
    case Except(p, e) => PrimSpell(p, [TokWith] + ([TokId(e)] + rest))
  }

  function PrimSpell(p: Primary, rest: seq<Token>): seq<Token> {
    match p
    case Ident(id) => [TokId(id)] + rest
    case Paren(o) => [TokLParen] + OrSpell(o, [TokRParen] + rest)
  }

  /** The syntax tree a derivation stands for. */
  function OrTree(o: OrExpr): Expr
    decreases o, 1
  {
    OrGroup(OrKids(o))
  }

  function OrKids(o: OrExpr): (kids: seq<Expr>)
    ensures |kids| > 0
    decreases o, 0
  {
    match o
    case OrOne(a) => [AndTree(a)]
    case OrMore(a, t) => [AndTree(a)] + OrKids(t)
  }

  function AndTree(a: AndExpr): Expr
    decreases a, 1
  {
    AndGroup(AndKids(a))
  }

  function AndKids(a: AndExpr): (kids: seq<Expr>)
    ensures |kids| > 0
    decreases a, 0
  {
    match a
    case AndOne(w) => [WithTree(w)]
    case AndMore(w, t) => [WithTree(w)] + AndKids(t)
  }

  function WithTree(w: WithExpr): Expr {
    match w
    case Plain(p) => PrimTree(p)
    case Except(p, e) =>
      var base := PrimTree(p);
      if base.Leaf? then Leaf(WithId(base.id, e)) else base
  }

  function PrimTree(p: Primary): Expr {
    match p
    case Ident(id) => Leaf(id)
    case Paren(o) => OrTree(o)
  }

  /** WITH only ever follows a single license. */
  predicate OrLegal(o: OrExpr) {
    match o
    case OrOne(a) => AndLegal(a)
    case OrMore(a, t) => AndLegal(a) && OrLegal(t)
  }

  predicate AndLegal(a: AndExpr) {
    match a
    case AndOne(w) => WithLegal(w)
    case AndMore(w, t) => WithLegal(w) && AndLegal(t)
  }

  predicate WithLegal(w: WithExpr) {
    match w
    case Plain(p) => PrimLegal(p)
    case Except(p, _) => PrimLegal(p) && PrimTree(p).Leaf?
  }

  predicate PrimLegal(p: Primary) {
    match p
    case Ident(_) => true
    case Paren(o) => OrLegal(o)
  }

  // ---------------------------------------------------------------------
  // Completeness: every legal derivation is read back
  // ---------------------------------------------------------------------

  /** The stream goes on with something that cannot continue an or-expression,
      an and-expression or a with-expression. */
  predicate Follows(rest: seq<Token>, stops: set<Token>) {
    rest == [] || rest[0] !in stops
  }

  lemma {:induction false} OrComplete(o: OrExpr, rest: seq<Token>)
    requires OrLegal(o) && Follows(rest, {TokOr, TokAnd, TokWith})
    ensures ReadOr(OrSpell(o, rest)) == Done(OrTree(o), rest)
    decreases o, 1
  {
    match o
    case OrOne(a) =>
      AndComplete(a, rest);
    case OrMore(a, t) =>
      AndComplete(a, [TokOr] + OrSpell(t, rest));
      OrTailComplete([AndTree(a)], t, rest);
  }

  lemma {:induction false} OrTailComplete(children: seq<Expr>, o: OrExpr, rest: seq<Token>)
    requires |children| > 0
    requires OrLegal(o) && Follows(rest, {TokOr, TokAnd, TokWith})
    ensures ReadOrTail(children, [TokOr] + OrSpell(o, rest)) == Done(OrGroup(children + OrKids(o)), rest)
    decreases o, 0
  {
    var s := [TokOr] + OrSpell(o, rest);
    assert s[1..] == OrSpell(o, rest);
    match o
    case OrOne(a) =>
      AndComplete(a, rest);
    case OrMore(a, t) =>
      AndComplete(a, [TokOr] + OrSpell(t, rest));
      OrTailComplete(children + [AndTree(a)], t, rest);
      assert children + [AndTree(a)] + OrKids(t) == children + OrKids(o);
  }

  lemma {:induction false} AndComplete(a: AndExpr, rest: seq<Token>)
    requires AndLegal(a) && Follows(rest, {TokAnd, TokWith})
    ensures ReadAnd(AndSpell(a, rest)) == Done(AndTree(a), rest)
    decreases a, 1
  {
    match a
    case AndOne(w) =>
      WithComplete(w, rest);
    case AndMore(w, t) =>
      WithComplete(w, [TokAnd] + AndSpell(t, rest));
      AndTailComplete([WithTree(w)], t, rest);
  }

  lemma {:induction false} AndTailComplete(children: seq<Expr>, a: AndExpr, rest: seq<Token>)
    requires |children| > 0
    requires AndLegal(a) && Follows(rest, {TokAnd, TokWith})
    ensures ReadAndTail(children, [TokAnd] + AndSpell(a, rest)) == Done(AndGroup(children + AndKids(a)), rest)
    decreases a, 0
  {
    var s := [TokAnd] + AndSpell(a, rest);
    assert s[1..] == AndSpell(a, rest);
    match a
    case AndOne(w) =>
      WithComplete(w, rest);
    case AndMore(w, t) =>
      WithComplete(w, [TokAnd] + AndSpell(t, rest));
      AndTailComplete(children + [WithTree(w)], t, rest);
      assert children + [WithTree(w)] + AndKids(t) == children + AndKids(a);
  }

  lemma {:induction false} WithComplete(w: WithExpr, rest: seq<Token>)
    requires WithLegal(w) && Follows(rest, {TokWith})
    ensures ReadWith(WithSpell(w, rest)) == Done(WithTree(w), rest)
    decreases w, 1
  {
    match w
    case Plain(p) =>
      PrimComplete(p, rest);
    case Except(p, e) =>
      var tail := [TokWith] + ([TokId(e)] + rest);
      PrimComplete(p, tail);
      assert tail[2..] == rest;
  }

  lemma {:induction false} PrimComplete(p: Primary, rest: seq<Token>)
    requires PrimLegal(p)
    ensures ReadPrimary(PrimSpell(p, rest)) == Done(PrimTree(p), rest)
    decreases p, 1
  {
    match p
    case Ident(id) =>
      assert ([TokId(id)] + rest)[1..] == rest;
    case Paren(o) =>
      var tail := [TokRParen] + rest;
      assert ([TokLParen] + OrSpell(o, tail))[1..] == OrSpell(o, tail);
      OrComplete(o, tail);
      assert tail[1..] == rest;
  }

  // ---------------------------------------------------------------------
  // Soundness: whatever is read has a legal derivation
  // ---------------------------------------------------------------------

  lemma {:induction false} OrSound(s: seq<Token>) returns (o: OrExpr)
    requires ReadOr(s).Done?
    ensures OrLegal(o) && s == OrSpell(o, ReadOr(s).rest) && ReadOr(s).tree == OrTree(o)
    decreases |s|, 3
  {
    var a := AndSound(s);
    var rest := ReadAnd(s).rest;
    if rest == [] || rest[0] != TokOr {
      o := OrOne(a);
    } else {
      var t := OrTailSound([AndTree(a)], rest);
      o := OrMore(a, t);
    }
  }

  lemma {:induction false} OrTailSound(children: seq<Expr>, s: seq<Token>) returns (o: OrExpr)
    requires |children| > 0 && s != [] && s[0] == TokOr
    requires ReadOrTail(children, s).Done?
    ensures OrLegal(o)
    ensures s == [TokOr] + OrSpell(o, ReadOrTail(children, s).rest)
    ensures ReadOrTail(children, s).tree == OrGroup(children + OrKids(o))
    decreases |s|, 4
  {
    var a := AndSound(s[1..]);
    var rest := ReadAnd(s[1..]).rest;
    var more := children + [AndTree(a)];
    if rest == [] || rest[0] != TokOr {
      o := OrOne(a);
    } else {
      var t := OrTailSound(more, rest);
      o := OrMore(a, t);
      assert more + OrKids(t) == children + OrKids(o);
    }
    assert s == [TokOr] + s[1..];
  }

  lemma {:induction false} AndSound(s: seq<Token>) returns (a: AndExpr)
    requires ReadAnd(s).Done?
    ensures AndLegal(a) && s == AndSpell(a, ReadAnd(s).rest) && ReadAnd(s).tree == AndTree(a)
    decreases |s|, 2
  {
    var w := WithSound(s);
    var rest := ReadWith(s).rest;
    if rest == [] || rest[0] != TokAnd {
      a := AndOne(w);
    } else {
      var t := AndTailSound([WithTree(w)], rest);
      a := AndMore(w, t);
    }
  }

  lemma {:induction false} AndTailSound(children: seq<Expr>, s: seq<Token>) returns (a: AndExpr)
    requires |children| > 0 && s != [] && s[0] == TokAnd
    requires ReadAndTail(children, s).Done?
    ensures AndLegal(a)
    ensures s == [TokAnd] + AndSpell(a, ReadAndTail(children, s).rest)
    ensures ReadAndTail(children, s).tree == AndGroup(children + AndKids(a))
    decreases |s|, 4
  {
    var w := WithSound(s[1..]);
    var rest := ReadWith(s[1..]).rest;
    var more := children + [WithTree(w)];
    if rest == [] || rest[0] != TokAnd {
      a := AndOne(w);
    } else {
      var t := AndTailSound(more, rest);
      a := AndMore(w, t);
      assert more + AndKids(t) == children + AndKids(a);
    }
    assert s == [TokAnd] + s[1..];
  }

  lemma {:induction false} WithSound(s: seq<Token>) returns (w: WithExpr)
    requires ReadWith(s).Done?
    ensures WithLegal(w) && s == WithSpell(w, ReadWith(s).rest) && ReadWith(s).tree == WithTree(w)
    decreases |s|, 1
  {
    var p := PrimSound(s);
    var rest := ReadPrimary(s).rest;
    if rest == [] || rest[0] != TokWith {
      w := Plain(p);
    } else {
      w := Except(p, rest[1].text);
      assert rest == [TokWith] + ([TokId(rest[1].text)] + rest[2..]);
    }
  }

  lemma {:induction false} PrimSound(s: seq<Token>) returns (p: Primary)
    requires ReadPrimary(s).Done?
    ensures PrimLegal(p) && s == PrimSpell(p, ReadPrimary(s).rest) && ReadPrimary(s).tree == PrimTree(p)
    decreases |s|, 0
  {
    assert s == [s[0]] + s[1..];
    if s[0] == TokLParen {
      var o := OrSound(s[1..]);
      p := Paren(o);
      var rest := ReadOr(s[1..]).rest;
      assert rest == [TokRParen] + rest[1..];
    } else {
      p := Ident(s[0].text);
    }
  }

  // ---------------------------------------------------------------------
  // The parser decides the grammar
  // ---------------------------------------------------------------------

  predicate Derives(o: OrExpr, toks: seq<Token>) {
    OrLegal(o) && OrSpell(o, []) == toks
  }

  lemma ParseComplete(o: OrExpr)
    requires OrLegal(o)
    ensures Parse(OrSpell(o, [])) == Ok(OrTree(o))
  {
    OrComplete(o, []);
  }

  lemma ParseSound(toks: seq<Token>) returns (o: OrExpr)
    requires Parse(toks).Ok?
    ensures Derives(o, toks) && Parse(toks) == Ok(OrTree(o))
  {
    o := OrSound(toks);
  }

  /** Parsing succeeds on exactly the streams the grammar derives with WITH
      after a single license, consumes them whole, and every derivation of a
      stream stands for the tree it returns. */
  lemma ParserDecidesGrammar(toks: seq<Token>)
    ensures Parse(toks).Ok? <==> exists o :: Derives(o, toks)
    ensures forall o :: Derives(o, toks) ==> Parse(toks) == Ok(OrTree(o))
  {
    if Parse(toks).Ok? {
      var o := ParseSound(toks);
    }
    forall o | Derives(o, toks) ensures Parse(toks) == Ok(OrTree(o)) {
      ParseComplete(o);
    }
  }

  lemma {:induction false} OrTreeWellBuilt(o: OrExpr)
    ensures WellBuilt(OrTree(o))
    ensures forall k :: k in OrKids(o) ==> WellBuilt(k)
  {
    match o
    case OrOne(a) => AndTreeWellBuilt(a);
    case OrMore(a, t) => AndTreeWellBuilt(a); OrTreeWellBuilt(t);
  }

  lemma {:induction false} AndTreeWellBuilt(a: AndExpr)
    ensures WellBuilt(AndTree(a))
    ensures forall k :: k in AndKids(a) ==> WellBuilt(k)
  {
    match a
    case AndOne(w) => WithTreeWellBuilt(w);
    case AndMore(w, t) => WithTreeWellBuilt(w); AndTreeWellBuilt(t);
  }

  lemma {:induction false} WithTreeWellBuilt(w: WithExpr)
    ensures WellBuilt(WithTree(w))
  {
    match w.prim
    case Ident(_) =>
    case Paren(o) => OrTreeWellBuilt(o);
  }

  /** The folds over a parsed tree never meet an empty operand list. */
  lemma ParsedIsWellBuilt(toks: seq<Token>)
    requires Parse(toks).Ok?
    ensures WellBuilt(Parse(toks).value)
  {
    var o := ParseSound(toks);
    OrTreeWellBuilt(o);
  }
}
