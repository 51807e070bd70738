/** Joining a package's license parts with AND (internal/depsdev/resolver.go):
    when the joined expression still means that every part binds. */
module LicenseJoin {
  import opened Text
  import opened Expression
  import opened ExpressionPrinter
  import opened Evaluation

  // ---------------------------------------------------------------------
  // The operations
  // ---------------------------------------------------------------------

  function CleanLicense(lic: string): string {
    var t := TrimSpace(lic);
    if ToUpper(t) in {"", "NON-STANDARD", "NOASSERTION", "NONE"} then "" else t
  }

  predicate SplitsField(c: char) {
    IsSpace(c) || c == '(' || c == ')'
  }

  predicate IsOperatorWord(field: string) {
    ToUpper(field) in {"AND", "OR", "WITH"}
  }

  /** Whether one of the fields of text, the first of which starts with word,
      is an operator. */
  predicate OperatorAmong(text: string, word: string)
    decreases text
  {
    if text == [] then IsOperatorWord(word)
    else if SplitsField(text[0]) then IsOperatorWord(word) || OperatorAmong(text[1..], [])
    else OperatorAmong(text[1..], word + [text[0]])
  }

  predicate ContainsOperator(lic: string) {
    OperatorAmong(lic, [])
  }

  /** The branch that takes a part for one group already. */
  predicate LooksGrouped(lic: string) {
    HasPrefix(lic, "(") && HasSuffix(lic, ")")
  }

  predicate KeptBare(lic: string) {
    !ContainsOperator(lic) || LooksGrouped(lic)
  }

  function ParenthesizeIfCompound(lic: string): string {
    if KeptBare(lic) then lic else "(" + lic + ")"
  }

  function Join(parts: seq<string>): string {
    if parts == [] then ""
    else if |parts| == 1 then parts[0]
    else parts[0] + (" AND " + Join(parts[1..]))
  }

  function ParenthesizeAll(parts: seq<string>): seq<string> {
    if parts == [] then [] else [ParenthesizeIfCompound(parts[0])] + ParenthesizeAll(parts[1..])
  }

  /** The cleaned parts, or nothing when one of them carries no license. */
  function CleanAll(licenses: seq<string>): Option<seq<string>> {
    if licenses == [] then Some([])
    else if CleanLicense(licenses[0]) == "" then None
    else Extend([CleanLicense(licenses[0])], CleanAll(licenses[1..]))
  }

  function Extend(parts: seq<string>, rest: Option<seq<string>>): Option<seq<string>> {
    match rest
    case None => None
    case Some(more) => Some(parts + more)
  }

  lemma ExtendOne(parts: seq<string>, lic: string, rest: Option<seq<string>>)
    ensures Extend(parts, Extend([lic], rest)) == Extend(parts + [lic], rest)
  {
    if rest.Some? { assert parts + ([lic] + rest.value) == parts + [lic] + rest.value; }
  }

  function Normalized(licenses: seq<string>): string {
    match CleanAll(licenses)
    case None => ""
    case Some(parts) => if |parts| > 1 then Join(ParenthesizeAll(parts)) else Join(parts)
  }

  method CleanParts(licenses: seq<string>) returns (r: Option<seq<string>>)
    ensures r == CleanAll(licenses)
  {
    var parts: seq<string> := [];
    assert licenses[0..] == licenses;
    assert CleanAll(licenses).Some? ==> parts + CleanAll(licenses).value == CleanAll(licenses).value;
    for i := 0 to |licenses|
      invariant CleanAll(licenses) == Extend(parts, CleanAll(licenses[i..]))
    {
      assert licenses[i..] == [licenses[i]] + licenses[i + 1..];
      var lic := CleanLicense(licenses[i]);
      if lic == "" { return None; }
      ExtendOne(parts, lic, CleanAll(licenses[i + 1..]));
      parts := parts + [lic];
    }
    assert licenses[|licenses|..] == [] && parts + [] == parts;
    r := Some(parts);
  }

  method ParenthesizeParts(before: seq<string>) returns (parts: seq<string>)
    ensures parts == ParenthesizeAll(before)
  {
    parts := before;
    for i := 0 to |parts|
      invariant |parts| == |before| && parts[i..] == before[i..]
      invariant parts[..i] + ParenthesizeAll(before[i..]) == ParenthesizeAll(before)
    {
      assert before[i..] == [before[i]] + before[i + 1..] && before[i] == parts[i..][0];
      var next := ParenthesizeIfCompound(parts[i]);
      assert parts[..i] + ([next] + ParenthesizeAll(before[i + 1..])) == (parts[..i] + [next]) + ParenthesizeAll(before[i + 1..]);
      assert parts[i := next][..i + 1] == parts[..i] + [next];
      parts := parts[i := next];
    }
    assert parts[..|parts|] + [] == parts;
  }

  // ---------------------------------------------------------------------
  // What the operations mean
  // ---------------------------------------------------------------------

  /** The entry carries no license: nothing but white space, or one of three words
      in any letter case. */
  ghost predicate NoLicense(lic: string) {
    exists t :: TrimsTo(lic, t) && (t == "" || Reads(t, "NON-STANDARD") || Reads(t, "NOASSERTION") || Reads(t, "NONE"))
  }

  predicate Separates(c: char) {
    IsSpace(c) || c == '(' || c == ')'
  }

  predicate OperatorWord(w: string) {
    Reads(w, "AND") || Reads(w, "OR") || Reads(w, "WITH")
  }

  /** An operator, in any letter case, stands between white space, parentheses and
      the ends of the text. */
  ghost predicate ShowsOperator(text: string) {
    exists i, j :: ShowsAt(text, i, j)
  }

  predicate ShowsAt(text: string, i: int, j: int) {
    && 0 <= i <= j <= |text| && OperatorWord(text[i..j])
    && (i == 0 || Separates(text[i - 1])) && (j == |text| || Separates(text[j]))
  }

  /** A part goes into the conjunction as it is, unless it shows an operator and is
      not in parentheses already. */
  ghost predicate GoesIn(part: string, piece: string) {
    piece == if ShowsOperator(part) && !InParentheses(part) then "(" + part + ")" else part
  }

  predicate InParentheses(part: string) {
    part != [] && part[0] == '(' && part[|part| - 1] == ')'
  }

  ghost predicate TrimAll(licenses: seq<string>, parts: seq<string>) {
    |parts| == |licenses| && forall i :: 0 <= i < |parts| ==> TrimsTo(licenses[i], parts[i])
  }

  ghost predicate GoIn(parts: seq<string>, pieces: seq<string>) {
    |pieces| == |parts| && forall i :: 0 <= i < |parts| ==> GoesIn(parts[i], pieces[i])
  }

  /** One license stands alone, several are joined with AND, and a list with an
      entry that carries no license is none at all. */
  ghost predicate IsConjunction(licenses: seq<string>, expr: string) {
    if licenses == [] || exists i :: 0 <= i < |licenses| && NoLicense(licenses[i]) then expr == ""
    else if |licenses| == 1 then TrimsTo(licenses[0], expr)
    else exists parts, pieces :: TrimAll(licenses, parts) && GoIn(parts, pieces) && expr == Join(pieces)
  }

  lemma CleanMeans(lic: string)
    ensures CleanLicense(lic) == "" <==> NoLicense(lic)
    ensures CleanLicense(lic) != "" ==> TrimsTo(lic, CleanLicense(lic))
  {
    forall t ensures TrimSpace(lic) == t <==> TrimsTo(lic, t) { TrimSpaceTrims(lic, t); }
    var t := TrimSpace(lic);
    ReadsUpper(t, "NON-STANDARD");
    ReadsUpper(t, "NOASSERTION");
    ReadsUpper(t, "NONE");
    assert t == "" <==> ToUpper(t) == "";
  }

  lemma OperatorWordMeans(w: string)
    ensures IsOperatorWord(w) <==> OperatorWord(w)
    ensures OperatorWord(w) ==> w != "" && forall k :: 0 <= k < |w| ==> !Separates(w[k])
  {
    ReadsUpper(w, "AND");
    ReadsUpper(w, "OR");
    ReadsUpper(w, "WITH");
  }

  ghost predicate Solid(word: string) {
    forall k :: 0 <= k < |word| ==> !Separates(word[k])
  }

  lemma ShownBehind(word: string, c: char, rest: string, i: int, j: int)
    requires Separates(c) && ShowsAt(rest, i, j)
    ensures ShowsAt(word + ([c] + rest), |word| + 1 + i, |word| + 1 + j)
  {
    var n, text := |word| + 1, word + ([c] + rest);
    assert text[n + i..n + j] == rest[i..j];
  }

  lemma ShownInFront(word: string, c: char, rest: string, i: int, j: int)
    requires ShowsAt(word + ([c] + rest), i, j) && i > |word|
    ensures ShowsAt(rest, i - |word| - 1, j - |word| - 1)
  {
    var n, text := |word| + 1, word + ([c] + rest);
    assert text[i..j] == rest[i - n..j - n];
  }

  /** An operator that shows no later than a separator is the word before it. */
  lemma ShownUpTo(word: string, c: char, rest: string, i: int, j: int)
    requires Separates(c) && Solid(word) && i <= |word|
    requires ShowsAt(word + ([c] + rest), i, j)
    ensures OperatorWord(word)
  {
    var text := word + ([c] + rest);
    OperatorWordMeans(text[i..j]);
    assert text[|word|] == c && forall k :: 0 <= k < |word| ==> text[k] == word[k];
    assert forall k :: i <= k < j ==> text[i..j][k - i] == text[k];
    assert i == 0 && j == |word| && text[i..j] == word;
  }

  /** Reading on after a separator: the operator is the word before it or shows later. */
  lemma ShownAfter(word: string, c: char, rest: string)
    requires Separates(c) && Solid(word)
    ensures ShowsOperator(word + ([c] + rest)) <==> OperatorWord(word) || ShowsOperator(rest)
  {
    var text := word + ([c] + rest);
    if OperatorWord(word) {
      assert text[0..|word|] == word;
      assert ShowsAt(text, 0, |word|);
    }
    if i, j :| ShowsAt(rest, i, j) {
      ShownBehind(word, c, rest, i, j);
    }
    if i, j :| ShowsAt(text, i, j) {
      if i <= |word| { ShownUpTo(word, c, rest, i, j); } else { ShownInFront(word, c, rest, i, j); }
    }
  }

  lemma ShownAlone(word: string)
    requires Solid(word)
    ensures ShowsOperator(word) <==> OperatorWord(word)
  {
    assert word[0..|word|] == word;
    if OperatorWord(word) { assert ShowsAt(word, 0, |word|); }
    if i, j :| ShowsAt(word, i, j) { assert i == 0 && j == |word|; }
  }

  lemma {:induction false} OperatorAmongMeans(text: string, word: string)
    requires Solid(word)
    ensures OperatorAmong(text, word) <==> ShowsOperator(word + text)
    decreases text
  {
    OperatorWordMeans(word);
    if text == [] {
      assert word + text == word;
      ShownAlone(word);
    } else if SplitsField(text[0]) {
      OperatorAmongMeans(text[1..], []);
      assert [] + text[1..] == text[1..];
      assert word + text == word + ([text[0]] + text[1..]);
      ShownAfter(word, text[0], text[1..]);
    } else {
      OperatorAmongMeans(text[1..], word + [text[0]]);
      assert word + [text[0]] + text[1..] == word + text;
    }
  }

  lemma ContainsMeans(part: string)
    ensures ContainsOperator(part) <==> ShowsOperator(part)
  {
    OperatorAmongMeans(part, []);
    assert [] + part == part;
  }

  lemma GroupedMeans(part: string)
    ensures LooksGrouped(part) <==> InParentheses(part)
  {
    if part != [] { assert part[|part| - 1..] == [part[|part| - 1]]; }
  }

  lemma ParenthesizeMeans(part: string)
    ensures GoesIn(part, ParenthesizeIfCompound(part))
  {
    ContainsMeans(part);
    GroupedMeans(part);
  }

  lemma {:induction false} CleanAllMeans(licenses: seq<string>)
    ensures CleanAll(licenses).None? <==> exists i :: 0 <= i < |licenses| && NoLicense(licenses[i])
    ensures CleanAll(licenses).Some? ==> TrimAll(licenses, CleanAll(licenses).value)
  {
    if licenses != [] {
      CleanMeans(licenses[0]);
      var rest := licenses[1..];
      CleanAllMeans(rest);
      assert forall i :: 0 < i < |licenses| ==> licenses[i] == rest[i - 1];
      assert forall i :: 0 <= i < |rest| ==> rest[i] == licenses[i + 1];
    }
  }

  lemma {:induction false} ParenthesizeAllMeans(parts: seq<string>)
    ensures GoIn(parts, ParenthesizeAll(parts))
  {
    if parts != [] {
      ParenthesizeMeans(parts[0]);
      ParenthesizeAllMeans(parts[1..]);
    }
  }

  lemma NormalizedMeans(licenses: seq<string>)
    ensures IsConjunction(licenses, Normalized(licenses))
  {
    CleanAllMeans(licenses);
    if CleanAll(licenses).Some? {
      var parts := CleanAll(licenses).value;
      ParenthesizeAllMeans(parts);
      assert |licenses| == 1 ==> Join(parts) == parts[0];
    }
  }

  method NormalizeLicenses(licenses: seq<string>) returns (expr: string)
    ensures expr == Normalized(licenses)
    ensures IsConjunction(licenses, expr)
  {
    NormalizedMeans(licenses);
    var cleaned := CleanParts(licenses);
    if cleaned.None? { return ""; }
    var parts := cleaned.value;
    if |parts| > 1 { parts := ParenthesizeParts(parts); }
    expr := Join(parts);
  }

  // ---------------------------------------------------------------------
  // A part that parses shows its OR to ContainsOperator
  // ---------------------------------------------------------------------

  predicate StartsOperand(t: Token) {
    t.TokId? || t == TokLParen
  }

  predicate IsJoiner(t: Token) {
    t == TokAnd || t == TokOr
  }

  /** Every AND and OR is followed by an operand. */
  predicate OperandsFollow(toks: seq<Token>) {
    forall i :: 0 <= i < |toks| && IsJoiner(toks[i]) ==> i + 1 < |toks| && StartsOperand(toks[i + 1])
  }

  lemma PrependToken(t: Token, rest: seq<Token>)
    requires OperandsFollow(rest)
    requires IsJoiner(t) ==> rest != [] && StartsOperand(rest[0])
    ensures OperandsFollow([t] + rest)
  {
    var s := [t] + rest;
    forall i | 0 <= i < |s| && IsJoiner(s[i]) ensures i + 1 < |s| && StartsOperand(s[i + 1]) {
      if i > 0 { assert s[i] == rest[i - 1]; }
    }
  }

  lemma DropTokens(a: seq<Token>, b: seq<Token>)
    requires OperandsFollow(a + b)
    ensures OperandsFollow(b)
  {
    forall i | 0 <= i < |b| && IsJoiner(b[i]) ensures i + 1 < |b| && StartsOperand(b[i + 1]) {
      assert (a + b)[|a| + i] == b[i];
      assert i + 1 < |b| ==> (a + b)[|a| + i + 1] == b[i + 1];
    }
  }

  lemma {:induction false} OrOperandsFollow(o: OrExpr, rest: seq<Token>)
    requires OperandsFollow(rest)
    ensures OrSpell(o, rest) != [] && StartsOperand(OrSpell(o, rest)[0]) && OperandsFollow(OrSpell(o, rest))
  {
    match o
    case OrOne(a) => AndOperandsFollow(a, rest);
    case OrMore(a, t) =>
      OrOperandsFollow(t, rest);
      PrependToken(TokOr, OrSpell(t, rest));
      AndOperandsFollow(a, [TokOr] + OrSpell(t, rest));
  }

  lemma {:induction false} AndOperandsFollow(a: AndExpr, rest: seq<Token>)
    requires OperandsFollow(rest)
    ensures AndSpell(a, rest) != [] && StartsOperand(AndSpell(a, rest)[0]) && OperandsFollow(AndSpell(a, rest))
  {
    match a
    case AndOne(w) => WithOperandsFollow(w, rest);
    case AndMore(w, t) =>
      AndOperandsFollow(t, rest);
      PrependToken(TokAnd, AndSpell(t, rest));
      WithOperandsFollow(w, [TokAnd] + AndSpell(t, rest));
  }

  lemma {:induction false} WithOperandsFollow(w: WithExpr, rest: seq<Token>)
    requires OperandsFollow(rest)
    ensures WithSpell(w, rest) != [] && StartsOperand(WithSpell(w, rest)[0]) && OperandsFollow(WithSpell(w, rest))
  {
    match w
    case Plain(p) => PrimOperandsFollow(p, rest);
    case Except(p, e) =>
      PrependToken(TokId(e), rest);
      PrependToken(TokWith, [TokId(e)] + rest);
      PrimOperandsFollow(p, [TokWith] + ([TokId(e)] + rest));
  }

  lemma {:induction false} PrimOperandsFollow(p: Primary, rest: seq<Token>)
    requires OperandsFollow(rest)
    ensures PrimSpell(p, rest) != [] && StartsOperand(PrimSpell(p, rest)[0]) && OperandsFollow(PrimSpell(p, rest))
  {
    match p
    case Ident(id) => PrependToken(TokId(id), rest);
    case Paren(o) =>
      PrependToken(TokRParen, rest);
      OrOperandsFollow(o, [TokRParen] + rest);
      PrependToken(TokLParen, OrSpell(o, [TokRParen] + rest));
  }

  /** The word read so far, as the tokenizer and as the field splitter see it:
      they agree unless a comma ended the token, or the token contains a space
      that only the field splitter knows. */
  predicate Linked(word: string, field: string, comma: bool) {
    comma || word == field || exists i :: 0 <= i < |word| && SplitsField(word[i])
  }

  function CommaToken(comma: bool): seq<Token> {
    if comma then [TokAnd] else []
  }

  lemma OrWordIsField(word: string, field: string, comma: bool)
    requires Linked(word, field, comma) && word != [] && WordToken(word) == TokOr
    ensures comma || IsOperatorWord(field)
  {
    var u := ToUpper(word);
    assert u == "OR";
    forall i | 0 <= i < |word| ensures !SplitsField(word[i]) {
      assert u[i] == UpperChar(word[i]);
    }
  }

  /** The case of OrIsVisible in which the word just read is the OR. */
  lemma OrAtFlush(text: string, word: string, field: string, comma: bool)
    requires Linked(word, field, comma)
    requires word != [] && WordToken(word) == TokOr && EndsWord(text)
    ensures OperandsFollow(CommaToken(comma) + TokensFrom(text, word)) ==> OperatorAmong(text, field)
  {
    var all := CommaToken(comma) + TokensFrom(text, word);
    OrWordIsField(word, field, comma);
    assert TokensFrom(text, word)[0] == TokOr;
    if comma {
      assert all[0] == TokAnd && all[1] == TokOr;
    } else if text != [] && text[0] == ',' {
      assert all[0] == TokOr && all[1] == TokAnd;
    }
  }

  /** The tokens after a delimiter follow those before it. */
  lemma AfterDelimiter(text: string, word: string, comma: bool)
    requires text != [] && IsDelimiter(text[0])
    requires OperandsFollow(CommaToken(comma) + TokensFrom(text, word))
    ensures OperandsFollow(CommaToken(text[0] == ',') + Tokens(text[1..]))
  {
    DropBefore(CommaToken(comma), FlushWord(word), text[0], Tokens(text[1..]));
  }

  lemma DropBefore(a: seq<Token>, b: seq<Token>, c: char, tail: seq<Token>)
    requires OperandsFollow(a + (b + DelimiterToken(c) + tail))
    ensures OperandsFollow(CommaToken(c == ',') + tail)
  {
    var d := DelimiterToken(c);
    assert a + (b + d + tail) == (a + b) + (d + tail);
    DropTokens(a + b, d + tail);
    if c != ',' {
      DropTokens(d, tail);
      assert CommaToken(false) + tail == tail;
    }
  }

  lemma LinkedExtends(word: string, field: string, comma: bool, c: char)
    requires Linked(word, field, comma)
    ensures Linked(word + [c], field + [c], comma)
    ensures SplitsField(c) ==> Linked(word + [c], [], comma)
  {
    assert (word + [c])[|word|] == c;
    if exists i :: 0 <= i < |word| && SplitsField(word[i]) {
      var i :| 0 <= i < |word| && SplitsField(word[i]);
      assert (word + [c])[i] == word[i];
    }
  }

  /** An OR token of a stream whose operators all have operands is a field. */
  lemma {:induction false} OrIsVisible(text: string, word: string, field: string, comma: bool)
    requires Linked(word, field, comma)
    requires TokOr in TokensFrom(text, word)
    requires OperandsFollow(CommaToken(comma) + TokensFrom(text, word))
    ensures OperatorAmong(text, field)
    decreases text
  {
    if word != [] && WordToken(word) == TokOr && EndsWord(text) {
      OrAtFlush(text, word, field, comma);
    } else if text == [] {
    } else if IsDelimiter(text[0]) {
      AfterDelimiter(text, word, comma);
      assert TokOr in Tokens(text[1..]);
      if text[0] == ',' {
        OrIsVisible(text[1..], [], field + [text[0]], true);
      } else {
        OrIsVisible(text[1..], [], [], false);
      }
    } else {
      LinkedExtends(word, field, comma, text[0]);
      if SplitsField(text[0]) {
        OrIsVisible(text[1..], word + [text[0]], [], comma);
      } else {
        OrIsVisible(text[1..], word + [text[0]], field + [text[0]], comma);
      }
    }
  }

  lemma {:induction false} AndSpellKeeps(a: AndExpr, rest: seq<Token>, t: Token)
    requires t in rest
    ensures t in AndSpell(a, rest)
  {
    match a
    case AndOne(w) => WithSpellKeeps(w, rest, t);
    case AndMore(w, u) => AndSpellKeeps(u, rest, t); WithSpellKeeps(w, [TokAnd] + AndSpell(u, rest), t);
  }

  lemma {:induction false} WithSpellKeeps(w: WithExpr, rest: seq<Token>, t: Token)
    requires t in rest
    ensures t in WithSpell(w, rest)
  {
    match w.prim
    case Ident(_) =>
    case Paren(o) =>
      if w.Plain? { OrSpellKeeps(o, [TokRParen] + rest, t); }
      else { OrSpellKeeps(o, [TokRParen] + ([TokWith] + ([TokId(w.exception)] + rest)), t); }
  }

  lemma {:induction false} OrSpellKeeps(o: OrExpr, rest: seq<Token>, t: Token)
    requires t in rest
    ensures t in OrSpell(o, rest)
  {
    match o
    case OrOne(a) => AndSpellKeeps(a, rest, t);
    case OrMore(a, u) => OrSpellKeeps(u, rest, t); AndSpellKeeps(a, [TokOr] + OrSpell(u, rest), t);
  }

  /** A part without a visible operator is no alternative of several licenses. */
  lemma PlainPartIsConjunct(part: string, o: OrExpr)
    requires !ContainsOperator(part) && Tokens(part) == OrSpell(o, [])
    ensures o.OrOne?
  {
    if o.OrMore? {
      AndSpellKeeps(o.head, [TokOr] + OrSpell(o.tail, []), TokOr);
      OrOperandsFollow(o, []);
      assert CommaToken(false) + Tokens(part) == Tokens(part);
      OrIsVisible(part, [], [], false);
    }
  }

  // ---------------------------------------------------------------------
  // An OR outside parentheses
  // ---------------------------------------------------------------------

  /** Whether some OR stands outside every parenthesis. */
  predicate OpenOr(toks: seq<Token>, depth: int) {
    if toks == [] then false
    else match toks[0]
      case TokOr => depth == 0 || OpenOr(toks[1..], depth)
      case TokLParen => OpenOr(toks[1..], depth + 1)
      case TokRParen => OpenOr(toks[1..], depth - 1)
      case _ => OpenOr(toks[1..], depth)
  }

  lemma OpenOrSkips(t: Token, rest: seq<Token>, depth: int)
    requires t != TokLParen && t != TokRParen && (t == TokOr ==> depth != 0)
    ensures OpenOr([t] + rest, depth) == OpenOr(rest, depth)
  {
    assert ([t] + rest)[1..] == rest;
  }

  lemma {:induction false} OrOpenness(o: OrExpr, rest: seq<Token>, depth: int)
    requires depth >= 0
    ensures OpenOr(OrSpell(o, rest), depth) <==> OpenOr(rest, depth) || (depth == 0 && o.OrMore?)
  {
    match o
    case OrOne(a) => AndOpenness(a, rest, depth);
    case OrMore(a, t) =>
      AndOpenness(a, [TokOr] + OrSpell(t, rest), depth);
      if depth > 0 {
        OpenOrSkips(TokOr, OrSpell(t, rest), depth);
        OrOpenness(t, rest, depth);
      }
  }

  lemma {:induction false} AndOpenness(a: AndExpr, rest: seq<Token>, depth: int)
    requires depth >= 0
    ensures OpenOr(AndSpell(a, rest), depth) == OpenOr(rest, depth)
  {
    match a
    case AndOne(w) => WithOpenness(w, rest, depth);
    case AndMore(w, t) =>
      WithOpenness(w, [TokAnd] + AndSpell(t, rest), depth);
      OpenOrSkips(TokAnd, AndSpell(t, rest), depth);
      AndOpenness(t, rest, depth);
  }

  lemma {:induction false} WithOpenness(w: WithExpr, rest: seq<Token>, depth: int)
    requires depth >= 0
    ensures OpenOr(WithSpell(w, rest), depth) == OpenOr(rest, depth)
  {
    match w
    case Plain(p) => PrimOpenness(p, rest, depth);
    case Except(p, e) =>
      PrimOpenness(p, [TokWith] + ([TokId(e)] + rest), depth);
      OpenOrSkips(TokWith, [TokId(e)] + rest, depth);
      OpenOrSkips(TokId(e), rest, depth);
  }

  lemma {:induction false} PrimOpenness(p: Primary, rest: seq<Token>, depth: int)
    requires depth >= 0
    ensures OpenOr(PrimSpell(p, rest), depth) == OpenOr(rest, depth)
  {
    match p
    case Ident(id) => OpenOrSkips(TokId(id), rest, depth);
    case Paren(o) =>
      var tail := [TokRParen] + rest;
      assert ([TokLParen] + OrSpell(o, tail))[1..] == OrSpell(o, tail);
      OrOpenness(o, tail, depth + 1);
      assert tail[1..] == rest;
  }

  // ---------------------------------------------------------------------
  // Joining derivations
  // ---------------------------------------------------------------------

  function AndAppend(a: AndExpr, b: AndExpr): AndExpr {
    match a
    case AndOne(w) => AndMore(w, b)
    case AndMore(w, t) => AndMore(w, AndAppend(t, b))
  }

  /** The derivation of "p AND q", where AND binds the last and-expression of p
      to the first one of q. */
  function Splice(p: OrExpr, q: OrExpr): OrExpr {
    match p
    case OrOne(a) =>
      (match q
       case OrOne(b) => OrOne(AndAppend(a, b))
       case OrMore(b, t) => OrMore(AndAppend(a, b), t))
    case OrMore(a, t) => OrMore(a, Splice(t, q))
  }

  lemma {:induction false} AndAppendSpells(a: AndExpr, b: AndExpr, rest: seq<Token>)
    ensures AndSpell(AndAppend(a, b), rest) == AndSpell(a, [TokAnd] + AndSpell(b, rest))
    ensures AndLegal(a) && AndLegal(b) ==> AndLegal(AndAppend(a, b))
    ensures AndKids(AndAppend(a, b)) == AndKids(a) + AndKids(b)
  {
    if a.AndMore? { AndAppendSpells(a.tail, b, rest); }
  }

  lemma {:induction false} SpliceSpells(p: OrExpr, q: OrExpr, rest: seq<Token>)
    ensures OrSpell(Splice(p, q), rest) == OrSpell(p, [TokAnd] + OrSpell(q, rest))
    ensures OrLegal(p) && OrLegal(q) ==> OrLegal(Splice(p, q))
    ensures Splice(p, q).OrOne? <==> p.OrOne? && q.OrOne?
  {
    match p
    case OrOne(a) =>
      if q.OrOne? { AndAppendSpells(a, q.head, rest); }
      else { AndAppendSpells(a, q.head, [TokOr] + OrSpell(q.tail, rest)); }
    case OrMore(a, t) => SpliceSpells(t, q, rest);
  }

  // Spelling in front of rest is spelling followed by rest.

  lemma {:induction false} OrSpellAppend(o: OrExpr, k: seq<Token>, rest: seq<Token>)
    ensures OrSpell(o, k) + rest == OrSpell(o, k + rest)
  {
    match o
    case OrOne(a) => AndSpellAppend(a, k, rest);
    case OrMore(a, t) =>
      OrSpellAppend(t, k, rest);
      AndSpellAppend(a, [TokOr] + OrSpell(t, k), rest);
      assert [TokOr] + OrSpell(t, k) + rest == [TokOr] + OrSpell(t, k + rest);
  }

  lemma {:induction false} AndSpellAppend(a: AndExpr, k: seq<Token>, rest: seq<Token>)
    ensures AndSpell(a, k) + rest == AndSpell(a, k + rest)
  {
    match a
    case AndOne(w) => WithSpellAppend(w, k, rest);
    case AndMore(w, t) =>
      AndSpellAppend(t, k, rest);
      WithSpellAppend(w, [TokAnd] + AndSpell(t, k), rest);
      assert [TokAnd] + AndSpell(t, k) + rest == [TokAnd] + AndSpell(t, k + rest);
  }

  lemma {:induction false} WithSpellAppend(w: WithExpr, k: seq<Token>, rest: seq<Token>)
    ensures WithSpell(w, k) + rest == WithSpell(w, k + rest)
  {
    match w
    case Plain(p) => PrimSpellAppend(p, k, rest);
    case Except(p, e) =>
      PrimSpellAppend(p, [TokWith] + ([TokId(e)] + k), rest);
      assert [TokWith] + ([TokId(e)] + k) + rest == [TokWith] + ([TokId(e)] + (k + rest));
  }

  lemma {:induction false} PrimSpellAppend(p: Primary, k: seq<Token>, rest: seq<Token>)
    ensures PrimSpell(p, k) + rest == PrimSpell(p, k + rest)
  {
    match p
    case Ident(id) => assert [TokId(id)] + k + rest == [TokId(id)] + (k + rest);
    case Paren(o) =>
      OrSpellAppend(o, [TokRParen] + k, rest);
      assert [TokRParen] + k + rest == [TokRParen] + (k + rest);
      assert [TokLParen] + OrSpell(o, [TokRParen] + k) + rest == [TokLParen] + (OrSpell(o, [TokRParen] + k) + rest);
  }

  // ---------------------------------------------------------------------
  // Joining texts
  // ---------------------------------------------------------------------

  lemma TokensAcrossAnd(p: string, q: string)
    ensures Tokens(p + (" AND " + q)) == Tokens(p) + ([TokAnd] + Tokens(q))
  {
    assert " AND " + q == " " + ("AND" + (" " + q));
    OperatorInAnyCase(p, "AND", q);
  }

  /** What a part contributes to the joined stream. */
  function Contribution(part: string, o: OrExpr): OrExpr {
    if KeptBare(part) then o else OrOne(AndOne(Plain(Paren(o))))
  }

  lemma ContributionSpells(part: string, o: OrExpr)
    requires Tokens(part) == OrSpell(o, []) && OrLegal(o)
    ensures Tokens(ParenthesizeIfCompound(part)) == OrSpell(Contribution(part, o), [])
    ensures OrLegal(Contribution(part, o))
  {
    if !KeptBare(part) {
      var text := "(" + part + ")";
      assert text[1..] == part + ")";
      TokensAroundDelimiter(part, []);
      assert part + (")" + []) == part + ")" && [TokRParen] + Tokens([]) == [TokRParen];
      OrSpellAppend(o, [], [TokRParen]);
      assert [] + [TokRParen] == [TokRParen] + [];
      assert Tokens(text) == [TokLParen] + (OrSpell(o, []) + [TokRParen]);
      assert PrimSpell(Paren(o), []) == [TokLParen] + OrSpell(o, [TokRParen] + []);
      assert WithSpell(Plain(Paren(o)), []) == PrimSpell(Paren(o), []);
      assert PrimLegal(Paren(o)) && WithLegal(Plain(Paren(o)));
    }
  }

  /** The derivations of the parts of a list. */
  predicate Derived(parts: seq<string>, ders: seq<OrExpr>) {
    && |parts| == |ders|
    && forall i :: 0 <= i < |parts| ==> Derives(ders[i], Tokens(parts[i]))
  }

  function Joined(parts: seq<string>, ders: seq<OrExpr>): OrExpr
    requires 0 < |parts| == |ders|
  {
    var c := Contribution(parts[0], ders[0]);
    if |parts| == 1 then c else Splice(c, Joined(parts[1..], ders[1..]))
  }

  lemma SpliceDerives(p: OrExpr, q: OrExpr)
    requires OrLegal(p) && OrLegal(q)
    ensures Derives(Splice(p, q), OrSpell(p, []) + ([TokAnd] + OrSpell(q, [])))
  {
    var k := [TokAnd] + OrSpell(q, []);
    OrSpellAppend(p, [], k);
    assert [] + k == k;
    SpliceSpells(p, q, []);
  }

  lemma {:induction false} JoinDerives(parts: seq<string>, ders: seq<OrExpr>)
    requires |parts| > 0 && Derived(parts, ders)
    ensures Derives(Joined(parts, ders), Tokens(Join(ParenthesizeAll(parts))))
  {
    var texts := ParenthesizeAll(parts);
    var c := Contribution(parts[0], ders[0]);
    ContributionSpells(parts[0], ders[0]);
    if |parts| > 1 {
      var tail := Joined(parts[1..], ders[1..]);
      JoinDerives(parts[1..], ders[1..]);
      assert texts[1..] == ParenthesizeAll(parts[1..]);
      TokensAcrossAnd(texts[0], Join(texts[1..]));
      SpliceDerives(c, tail);
    }
  }

  // ---------------------------------------------------------------------
  // When every part binds
  // ---------------------------------------------------------------------

  /** A part that starts with "(" and ends with ")" but is several groups with
      an OR between them: it is taken for one group and left bare. */
  predicate Exposed(part: string) {
    LooksGrouped(part) && OpenOr(Tokens(part), 0)
  }

  lemma ContributionBinds(part: string, o: OrExpr)
    requires Derives(o, Tokens(part))
    ensures Contribution(part, o).OrOne? <==> !Exposed(part)
  {
    OrOpenness(o, [], 0);
    if !ContainsOperator(part) { PlainPartIsConjunct(part, o); }
  }

  lemma {:induction false} JoinedBinds(parts: seq<string>, ders: seq<OrExpr>)
    requires |parts| > 0 && Derived(parts, ders)
    ensures Joined(parts, ders).OrOne? <==> forall i :: 0 <= i < |parts| ==> !Exposed(parts[i])
    ensures |parts| > 1 && Joined(parts, ders).OrOne? ==> |AndKids(Joined(parts, ders).head)| > 1
  {
    ContributionBinds(parts[0], ders[0]);
    if |parts| > 1 {
      var c, tail := Contribution(parts[0], ders[0]), Joined(parts[1..], ders[1..]);
      JoinedBinds(parts[1..], ders[1..]);
      SpliceSpells(c, tail, []);
      assert forall i :: 0 < i < |parts| ==> parts[i] == parts[1..][i - 1];
      assert forall i :: 0 <= i < |parts| - 1 ==> parts[1..][i] == parts[i + 1];
      if c.OrOne? && tail.OrOne? { AndAppendSpells(c.head, tail.head, []); }
    }
  }

  /** Every operand of the list is at most this severe. */
  ghost predicate AllBelow(kids: seq<Expr>, lookup: string -> Category, limit: int)
    requires forall k :: k in kids ==> WellBuilt(k)
  {
    forall k :: k in kids ==> Severity(Evaluate(k, Strict, lookup)) <= limit
  }

  lemma AndTreeBelow(a: AndExpr, lookup: string -> Category, limit: int)
    ensures WellBuilt(AndTree(a)) && forall k :: k in AndKids(a) ==> WellBuilt(k)
    ensures Severity(Evaluate(AndTree(a), Strict, lookup)) <= limit <==> AllBelow(AndKids(a), lookup, limit)
  {
    AndTreeWellBuilt(a);
    var kids := AndKids(a);
    if |kids| > 1 { WorstBelow(EvaluateAll(kids, Strict, lookup), limit); }
  }

  lemma ContributionBelow(part: string, o: OrExpr, lookup: string -> Category, limit: int)
    requires Contribution(part, o).OrOne?
    ensures WellBuilt(OrTree(o)) && forall k :: k in AndKids(Contribution(part, o).head) ==> WellBuilt(k)
    ensures AllBelow(AndKids(Contribution(part, o).head), lookup, limit) <==>
            Severity(Evaluate(OrTree(o), Strict, lookup)) <= limit
  {
    OrTreeWellBuilt(o);
    AndTreeBelow(Contribution(part, o).head, lookup, limit);
    if KeptBare(part) {
      assert OrKids(o) == [AndTree(o.head)];
    } else {
      assert WithTree(Plain(Paren(o))) == PrimTree(Paren(o)) == OrTree(o);
      assert AndKids(Contribution(part, o).head) == [OrTree(o)];
    }
  }

  lemma {:induction false} JoinedBelow(parts: seq<string>, ders: seq<OrExpr>, lookup: string -> Category, limit: int)
    requires |parts| > 0 && Derived(parts, ders) && Joined(parts, ders).OrOne?
    ensures forall d :: d in ders ==> WellBuilt(OrTree(d))
    ensures forall k :: k in AndKids(Joined(parts, ders).head) ==> WellBuilt(k)
    ensures AllBelow(AndKids(Joined(parts, ders).head), lookup, limit) <==>
            forall i :: 0 <= i < |ders| ==> Severity(Evaluate(OrTree(ders[i]), Strict, lookup)) <= limit
  {
    var c := Contribution(parts[0], ders[0]);
    if |parts| == 1 {
      ContributionBelow(parts[0], ders[0], lookup, limit);
    } else {
      var tail := Joined(parts[1..], ders[1..]);
      SpliceSpells(c, tail, []);
      ContributionBelow(parts[0], ders[0], lookup, limit);
      JoinedBelow(parts[1..], ders[1..], lookup, limit);
      AndAppendSpells(c.head, tail.head, []);
      assert forall i :: 0 < i < |ders| ==> ders[i] == ders[1..][i - 1];
      assert forall i :: 0 <= i < |ders| - 1 ==> ders[1..][i] == ders[i + 1];
      assert ders == [ders[0]] + ders[1..];
    }
  }

  predicate AllParse(parts: seq<string>) {
    forall i :: 0 <= i < |parts| ==> Parse(Tokens(parts[i])).Ok?
  }

  function JoinedText(parts: seq<string>): string {
    Join(ParenthesizeAll(parts))
  }

  lemma {:induction false} FindDerivations(parts: seq<string>) returns (ders: seq<OrExpr>)
    requires AllParse(parts)
    ensures Derived(parts, ders)
    ensures forall i :: 0 <= i < |parts| ==> Parse(Tokens(parts[i])) == Ok(OrTree(ders[i]))
  {
    if parts == [] {
      ders := [];
    } else {
      var o := ParseSound(Tokens(parts[0]));
      var rest := FindDerivations(parts[1..]);
      ders := [o] + rest;
      assert forall i :: 0 < i < |parts| ==> parts[i] == parts[1..][i - 1] && ders[i] == rest[i - 1];
    }
  }

  /** Parts that parse always join to an expression that parses. It is one
      conjunction exactly when no part is exposed; an exposed part turns the
      whole expression into a choice. */
  lemma JoinParses(parts: seq<string>)
    requires |parts| > 1 && AllParse(parts)
    ensures Parse(Tokens(JoinedText(parts))).Ok?
    ensures Parse(Tokens(JoinedText(parts))).value.AndNode? <==> forall i :: 0 <= i < |parts| ==> !Exposed(parts[i])
    ensures Parse(Tokens(JoinedText(parts))).value.OrNode? <==> exists i :: 0 <= i < |parts| && Exposed(parts[i])
  {
    var ders := FindDerivations(parts);
    var o := Joined(parts, ders);
    JoinDerives(parts, ders);
    ParseComplete(o);
    JoinedBinds(parts, ders);
    if o.OrOne? {
      assert OrKids(o) == [AndTree(o.head)];
    } else {
      assert |OrKids(o)| == 1 + |OrKids(o.tail)|;
    }
  }

  /** With no exposed part, the strict category of the joined expression is the
      worst category of its parts, under every policy. */
  lemma JoinKeepsMeaning(parts: seq<string>, lookup: string -> Category, limit: int)
    requires |parts| > 0 && AllParse(parts)
    requires forall i :: 0 <= i < |parts| ==> !Exposed(parts[i])
    ensures Parse(Tokens(JoinedText(parts))).Ok? && WellBuilt(Parse(Tokens(JoinedText(parts))).value)
    ensures forall i :: 0 <= i < |parts| ==> WellBuilt(Parse(Tokens(parts[i])).value)
    ensures Severity(Evaluate(Parse(Tokens(JoinedText(parts))).value, Strict, lookup)) <= limit <==>
            forall i :: 0 <= i < |parts| ==> Severity(Evaluate(Parse(Tokens(parts[i])).value, Strict, lookup)) <= limit
  {
    var ders := FindDerivations(parts);
    var o := Joined(parts, ders);
    JoinDerives(parts, ders);
    ParseComplete(o);
    JoinedBinds(parts, ders);
    JoinedBelow(parts, ders, lookup, limit);
    AndTreeBelow(o.head, lookup, limit);
    assert OrKids(o) == [AndTree(o.head)];
  }

  // ---------------------------------------------------------------------
  // When some part is exposed
  // ---------------------------------------------------------------------

  ghost predicate Low(e: Expr, lookup: string -> Category, limit: int) {
    WellBuilt(e) && Severity(Evaluate(e, Strict, lookup)) <= limit
  }

  ghost predicate AllLow(kids: seq<Expr>, lookup: string -> Category, limit: int) {
    forall i :: 0 <= i < |kids| ==> Low(kids[i], lookup, limit)
  }

  /** All members of some piece are low. */
  ghost predicate AnyLow(pieces: seq<seq<Expr>>, lookup: string -> Category, limit: int) {
    exists j :: 0 <= j < |pieces| && AllLow(pieces[j], lookup, limit)
  }

  /** The operands of each and-expression of a derivation. */
  function Groups(o: OrExpr): (gs: seq<seq<Expr>>)
    ensures |gs| > 0
  {
    match o
    case OrOne(a) => [AndKids(a)]
    case OrMore(a, t) => [AndKids(a)] + Groups(t)
  }

  /** Two lists of alternatives with AND between them: it binds the last one to the first. */
  function Glue(a: seq<seq<Expr>>, b: seq<seq<Expr>>): (c: seq<seq<Expr>>)
    requires a != [] && b != []
    ensures |c| == |a| + |b| - 1
  {
    a[..|a| - 1] + [a[|a| - 1] + b[0]] + b[1..]
  }

  lemma {:induction false} GroupsOfSplice(p: OrExpr, q: OrExpr)
    ensures Groups(Splice(p, q)) == Glue(Groups(p), Groups(q))
  {
    match p
    case OrOne(a) => AndAppendSpells(a, q.head, []);
    case OrMore(a, t) =>
      GroupsOfSplice(t, q);
      assert Groups(p)[..|Groups(p)| - 1] == [AndKids(a)] + Groups(t)[..|Groups(t)| - 1];
  }

  lemma {:induction false} GroupsAndKids(o: OrExpr, lookup: string -> Category, limit: int)
    ensures |Groups(o)| == |OrKids(o)|
    ensures forall j :: 0 <= j < |OrKids(o)| ==> (Low(OrKids(o)[j], lookup, limit) <==> AllLow(Groups(o)[j], lookup, limit))
    ensures forall j :: 0 <= j < |OrKids(o)| ==> WellBuilt(OrKids(o)[j])
  {
    AndTreeBelow(o.head, lookup, limit);
    assert AllLow(AndKids(o.head), lookup, limit) <==> AllBelow(AndKids(o.head), lookup, limit);
    if o.OrMore? { GroupsAndKids(o.tail, lookup, limit); }
  }

  lemma OrIsLow(o: OrExpr, lookup: string -> Category, limit: int)
    ensures Low(OrTree(o), lookup, limit) <==> AnyLow(Groups(o), lookup, limit)
  {
    GroupsAndKids(o, lookup, limit);
    OrTreeWellBuilt(o);
    var kids := OrKids(o);
    if |kids| > 1 {
      var cats := EvaluateAll(kids, Strict, lookup);
      BestBelow(cats, limit);
      assert forall j :: 0 <= j < |kids| ==> (Severity(cats[j]) <= limit <==> Low(kids[j], lookup, limit));
    }
  }

  /** What a part offers the join: itself, or its alternatives when it is exposed. */
  function Alternatives(part: string): (alts: seq<Expr>)
    requires Parse(Tokens(part)).Ok?
    ensures alts != []
  {
    var tree := Parse(Tokens(part)).value;
    if Exposed(part) && tree.OrNode? && tree.children != [] then tree.children else [tree]
  }

  function Singles(alts: seq<Expr>): (r: seq<seq<Expr>>)
    ensures |r| == |alts|
  {
    seq(|alts|, i requires 0 <= i < |alts| => [alts[i]])
  }

  /** The pieces the join really makes, each a list of operands under one AND. */
  function Pieces(parts: seq<string>): (r: seq<seq<Expr>>)
    requires parts != [] && AllParse(parts)
    ensures r != []
  {
    var own := Singles(Alternatives(parts[0]));
    if |parts| == 1 then own
    else
      assert forall i :: 0 <= i < |parts[1..]| ==> parts[1..][i] == parts[i + 1];
      Glue(own, Pieces(parts[1..]))
  }

  /** As low, piece by piece. */
  ghost predicate SameLow(a: seq<seq<Expr>>, b: seq<seq<Expr>>, lookup: string -> Category, limit: int) {
    |a| == |b| && forall j :: 0 <= j < |a| ==> (AllLow(a[j], lookup, limit) <==> AllLow(b[j], lookup, limit))
  }

  lemma AllLowConcat(a: seq<Expr>, b: seq<Expr>, lookup: string -> Category, limit: int)
    ensures AllLow(a + b, lookup, limit) <==> AllLow(a, lookup, limit) && AllLow(b, lookup, limit)
  {
    assert forall i :: 0 <= i < |a| ==> (a + b)[i] == a[i];
    assert forall i :: 0 <= i < |b| ==> (a + b)[|a| + i] == b[i];
  }

  lemma GlueSameLow(a: seq<seq<Expr>>, b: seq<seq<Expr>>, c: seq<seq<Expr>>, d: seq<seq<Expr>>, lookup: string -> Category, limit: int)
    requires a != [] && c != [] && SameLow(a, b, lookup, limit) && SameLow(c, d, lookup, limit)
    ensures SameLow(Glue(a, c), Glue(b, d), lookup, limit)
  {
    var n := |a| - 1;
    AllLowConcat(a[n], c[0], lookup, limit);
    AllLowConcat(b[n], d[0], lookup, limit);
  }

  lemma ContributionGroups(part: string, o: OrExpr, lookup: string -> Category, limit: int)
    requires Derives(o, Tokens(part)) && Parse(Tokens(part)) == Ok(OrTree(o))
    ensures SameLow(Groups(Contribution(part, o)), Singles(Alternatives(part)), lookup, limit)
  {
    var c := Contribution(part, o);
    ContributionBinds(part, o);
    var alts := Alternatives(part);
    assert forall j :: 0 <= j < |alts| ==> (AllLow([alts[j]], lookup, limit) <==> Low(alts[j], lookup, limit)) by {
      forall j | 0 <= j < |alts| ensures AllLow([alts[j]], lookup, limit) <==> Low(alts[j], lookup, limit) { assert [alts[j]][0] == alts[j]; }
    }
    if c.OrOne? {
      ContributionBelow(part, o, lookup, limit);
      assert alts == [OrTree(o)];
      assert AllLow(AndKids(c.head), lookup, limit) <==> AllBelow(AndKids(c.head), lookup, limit);
    } else {
      assert c == o && alts == OrKids(o);
      GroupsAndKids(o, lookup, limit);
    }
  }

  lemma {:induction false} JoinedGroups(parts: seq<string>, ders: seq<OrExpr>, lookup: string -> Category, limit: int)
    requires |parts| > 0 && Derived(parts, ders) && AllParse(parts)
    requires forall i :: 0 <= i < |parts| ==> Parse(Tokens(parts[i])) == Ok(OrTree(ders[i]))
    ensures SameLow(Groups(Joined(parts, ders)), Pieces(parts), lookup, limit)
  {
    ContributionGroups(parts[0], ders[0], lookup, limit);
    if |parts| > 1 {
      var c, tail := Contribution(parts[0], ders[0]), Joined(parts[1..], ders[1..]);
      assert forall i :: 0 <= i < |parts| - 1 ==> parts[1..][i] == parts[i + 1] && ders[1..][i] == ders[i + 1];
      JoinedGroups(parts[1..], ders[1..], lookup, limit);
      GroupsOfSplice(c, tail);
      GlueSameLow(Groups(c), Singles(Alternatives(parts[0])), Groups(tail), Pieces(parts[1..]), lookup, limit);
    }
  }

  /** Whatever the parts are, the strict category of the joined expression is that
      of its best piece, a piece being as bad as its worst member. */
  lemma JoinIsBestPiece(parts: seq<string>, lookup: string -> Category, limit: int)
    requires |parts| > 0 && AllParse(parts)
    ensures Parse(Tokens(JoinedText(parts))).Ok?
    ensures Low(Parse(Tokens(JoinedText(parts))).value, lookup, limit) <==>
            AnyLow(Pieces(parts), lookup, limit)
  {
    var ders := FindDerivations(parts);
    JoinDerives(parts, ders);
    ParseComplete(Joined(parts, ders));
    JoinedGroups(parts, ders, lookup, limit);
    OrIsLow(Joined(parts, ders), lookup, limit);
    SomeLow(Groups(Joined(parts, ders)), Pieces(parts), lookup, limit);
    assert Parse(Tokens(JoinedText(parts))) == Ok(OrTree(Joined(parts, ders)));
  }

  lemma SomeLow(a: seq<seq<Expr>>, b: seq<seq<Expr>>, lookup: string -> Category, limit: int)
    requires SameLow(a, b, lookup, limit)
    ensures AnyLow(a, lookup, limit) <==> AnyLow(b, lookup, limit)
  {
  }

  /** How severe a text that parses is. */
  ghost function Worth(text: string, lookup: string -> Category): nat
    requires Parse(Tokens(text)).Ok?
  {
    ParsedIsWellBuilt(Tokens(text));
    Severity(Evaluate(Parse(Tokens(text)).value, Strict, lookup))
  }

  lemma WorthIsLow(text: string, lookup: string -> Category, limit: int)
    requires Parse(Tokens(text)).Ok?
    ensures Low(Parse(Tokens(text)).value, lookup, limit) <==> Worth(text, lookup) <= limit
  {
    ParsedIsWellBuilt(Tokens(text));
  }

  /** So an obligation of a part escapes exactly when every member of some piece is
      below that part. */
  lemma ObligationEscapes(parts: seq<string>, lookup: string -> Category, i: nat)
    requires i < |parts| && AllParse(parts)
    ensures Parse(Tokens(JoinedText(parts))).Ok?
    ensures Worth(JoinedText(parts), lookup) < Worth(parts[i], lookup) <==>
            AnyLow(Pieces(parts), lookup, Worth(parts[i], lookup) - 1)
  {
    var limit := Worth(parts[i], lookup) - 1;
    JoinIsBestPiece(parts, lookup, limit);
    WorthIsLow(JoinedText(parts), lookup, limit);
  }

  // ---------------------------------------------------------------------
  // The exposed case is real
  // ---------------------------------------------------------------------

  function WordOf(w: string): OrExpr { OrOne(AndOne(Plain(Ident(w)))) }

  function GroupOf(o: OrExpr): AndExpr { AndOne(Plain(Paren(o))) }

  /** The derivation of "(A) OR (B)". */
  const Choice := OrMore(GroupOf(WordOf("A")), OrOne(GroupOf(WordOf("B"))))

  lemma WordFacts(w: string, rest: string)
    ensures OrText(WordOf(w), rest) == w + rest
    ensures OrTree(WordOf(w)) == Leaf(w)
    ensures OrLegal(WordOf(w)) && (OrWords(WordOf(w)) <==> IsWord(w))
  {
    var p := Ident(w);
    assert PrimText(p, rest) == w + rest && PrimTree(p) == Leaf(w) && PrimLegal(p) && (PrimWords(p) <==> IsWord(w));
    assert WithText(Plain(p), rest) == w + rest && WithTree(Plain(p)) == Leaf(w);
    assert WithLegal(Plain(p)) && (WithWords(Plain(p)) <==> IsWord(w));
    var a := AndOne(Plain(p));
    assert AndKids(a) == [Leaf(w)] && AndText(a, rest) == w + rest && AndLegal(a) && (AndWords(a) <==> IsWord(w));
    assert OrKids(WordOf(w)) == [Leaf(w)];
  }

  lemma GroupFacts(o: OrExpr, rest: string)
    ensures AndText(GroupOf(o), rest) == "(" + OrText(o, ")" + rest)
    ensures AndTree(GroupOf(o)) == OrTree(o)
    ensures AndLegal(GroupOf(o)) == OrLegal(o) && AndWords(GroupOf(o)) == OrWords(o)
  {
    var p := Paren(o);
    assert PrimText(p, rest) == "(" + OrText(o, ")" + rest) && PrimTree(p) == OrTree(o);
    assert PrimLegal(p) == OrLegal(o) && PrimWords(p) == OrWords(o);
    assert WithText(Plain(p), rest) == PrimText(p, rest) && WithTree(Plain(p)) == OrTree(o);
    assert WithLegal(Plain(p)) == OrLegal(o) && WithWords(Plain(p)) == OrWords(o);
    assert AndKids(GroupOf(o)) == [OrTree(o)];
  }

  lemma LettersAreWords()
    ensures IsWord("A") && IsWord("B")
  {
    assert ToUpper("A") == "A" && ToUpper("B") == "B";
  }

  lemma ChoiceDerives()
    ensures Derives(Choice, Tokens("(A) OR (B)")) && Derives(WordOf("B"), Tokens("B"))
  {
    LettersAreWords();
    WordFacts("B", "");
    WordFacts("B", ")" + "");
    GroupFacts(WordOf("B"), "");
    WordFacts("A", ")" + " OR (B)");
    GroupFacts(WordOf("A"), " OR (B)");
    var second := OrOne(GroupOf(WordOf("B")));
    assert OrText(second, "") == "(B)" && OrWords(second) && OrLegal(second);
    assert " OR " + OrText(second, "") == " OR (B)";
    assert OrText(Choice, "") == "(A) OR (B)";
    OrTokens(Choice, "");
    OrTokens(WordOf("B"), "");
    assert Tokens("") == [];
  }

  const Both := AndAppend(GroupOf(WordOf("B")), WordOf("B").head)

  lemma ChoiceTree()
    ensures OrTree(OrMore(GroupOf(WordOf("A")), OrOne(Both))) == OrNode([Leaf("A"), AndNode([Leaf("B"), Leaf("B")])])
  {
    AndAppendSpells(GroupOf(WordOf("B")), WordOf("B").head, []);
    WordFacts("A", "");
    WordFacts("B", "");
    GroupFacts(WordOf("A"), "");
    GroupFacts(WordOf("B"), "");
    assert WithTree(Plain(Paren(WordOf("B")))) == AndTree(GroupOf(WordOf("B")));
    assert AndKids(GroupOf(WordOf("B"))) == [Leaf("B")] && AndKids(WordOf("B").head) == [Leaf("B")];
    assert AndKids(Both) == [Leaf("B"), Leaf("B")];
    assert OrKids(OrOne(Both)) == [AndTree(Both)];
  }

  lemma ChoiceJoined()
    ensures Joined(["(A) OR (B)", "B"], [Choice, WordOf("B")]) == OrMore(GroupOf(WordOf("A")), OrOne(Both))
  {
    var parts, ders := ["(A) OR (B)", "B"], [Choice, WordOf("B")];
    assert KeptBare("B") by {
      assert ToUpper("B") == "B";
      assert OperatorAmong("", "B") == IsOperatorWord("B");
    }
    assert parts[1..] == ["B"] && ders[1..] == [WordOf("B")];
    assert Splice(Choice.tail, WordOf("B")) == OrOne(Both);
  }

  lemma ChoiceIsExposed()
    ensures Parse(Tokens("(A) OR (B)")).Ok? && Exposed("(A) OR (B)")
  {
    ChoiceDerives();
    ParseComplete(Choice);
    OrOpenness(Choice, [], 0);
  }

  lemma PairDerived(p: string, q: string, dp: OrExpr, dq: OrExpr)
    requires Derives(dp, Tokens(p)) && Derives(dq, Tokens(q))
    ensures AllParse([p, q]) && Derived([p, q], [dp, dq])
  {
    ParseComplete(dp);
    ParseComplete(dq);
  }

  lemma ChoiceParses()
    ensures AllParse(["(A) OR (B)", "B"]) && Derived(["(A) OR (B)", "B"], [Choice, WordOf("B")])
  {
    ChoiceDerives();
    PairDerived("(A) OR (B)", "B", Choice, WordOf("B"));
  }

  lemma ChoiceJoins()
    ensures var parts := ["(A) OR (B)", "B"];
            && AllParse(parts) && Exposed(parts[0])
            && Parse(Tokens(JoinedText(parts))) == Ok(OrNode([Leaf("A"), AndNode([Leaf("B"), Leaf("B")])]))
  {
    var parts, ders := ["(A) OR (B)", "B"], [Choice, WordOf("B")];
    ChoiceIsExposed();
    ChoiceParses();
    JoinDerives(parts, ders);
    ChoiceJoined();
    ParseComplete(Joined(parts, ders));
    ChoiceTree();
  }

  /** The parts "(A) OR (B)" and "B" are joined to "(A) OR (B) AND B". With B
      copyleft and A permissive the second part alone is copyleft, and yet the
      joined expression is permissive. */
  lemma ExposedPartHidesObligation(lookup: string -> Category)
    requires lookup("A") == Permissive && lookup("B") == Copyleft
    ensures var parts := ["(A) OR (B)", "B"];
            && AllParse(parts) && Exposed(parts[0])
            && LookupLeaf(parts[1], lookup) == Copyleft
            && Parse(Tokens(JoinedText(parts))).Ok?
            && var tree := Parse(Tokens(JoinedText(parts))).value;
            && WellBuilt(tree) && Evaluate(tree, Strict, lookup) == Permissive
  {
    ChoiceJoins();
    var tree := OrNode([Leaf("A"), AndNode([Leaf("B"), Leaf("B")])]);
    assert WellBuilt(tree.children[0]) && WellBuilt(tree.children[1]);
    BestBelow(EvaluateAll(tree.children, Strict, lookup), 0);
    assert Evaluate(tree.children[0], Strict, lookup) == Permissive;
  }
}
