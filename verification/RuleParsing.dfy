/** The tokens of a generated rule parse to the disjunctions of its predicates,
    grouped as the translation intends. */
module RuleParsing {
  import opened Wrappers
  import opened Cel
  import opened ToolFilter
  import opened CelPieces
  import opened RuleSyntax

  // ------------------------------------------------------------ expressions

  const TOOL_NAME_EXPR := Select(Select(Ident("mcp"), "tool"), "name")

  function PredicateExpr(pattern: string): Expr {
    if HasGlobMeta(pattern) then Call(TOOL_NAME_EXPR, "matches", Str(LiteralOf(pattern)))
    else Eq(TOOL_NAME_EXPR, Str(LiteralOf(pattern)))
  }

  function OrFold(acc: Expr, patterns: seq<string>): Expr
    decreases |patterns|
  {
    if patterns == [] then acc else OrFold(Or(acc, PredicateExpr(patterns[0])), patterns[1..])
  }

  /** The disjunction of the predicates, associated to the left. */
  function OrExpr(patterns: seq<string>): Expr
    requires patterns != []
  {
    OrFold(PredicateExpr(patterns[0]), patterns[1..])
  }

  function RuleExpr(f: Filter): Expr
    requires f.allow != [] || f.deny != []
  {
    if f.deny == [] then OrExpr(f.allow)
    else if f.allow == [] then Not(OrExpr(f.deny))
    else And(OrExpr(f.allow), Not(OrExpr(f.deny)))
  }

  // ----------------------------------------------------------------- tokens

  lemma TokensCons(p: Piece, ps: seq<Piece>)
    ensures Tokens([p] + ps) == TokenOf(p) + Tokens(ps)
  {
    assert ([p] + ps)[1..] == ps;
  }

  lemma TokensTwo(a: Piece, b: Piece)
    ensures Tokens([a]) == TokenOf(a)
    ensures Tokens([a, b]) == TokenOf(a) + TokenOf(b)
  {
    var e: seq<Piece> := [];
    assert [b] == [b] + e && [a] == [a] + e && [a, b] == [a] + [b];
    TokensCons(b, e);
    TokensCons(a, e);
    TokensCons(a, [b]);
  }

  lemma TokensFour(a: Piece, b: Piece, c: Piece, d: Piece)
    ensures Tokens([a, b, c, d]) == TokenOf(a) + TokenOf(b) + (TokenOf(c) + TokenOf(d))
    ensures Tokens([a, b, c]) == TokenOf(a) + TokenOf(b) + TokenOf(c)
  {
    TokensTwo(a, b);
    TokensTwo(c, d);
    TokensAppend([a, b], [c, d]);
    TokensAppend([a, b], [c]);
    assert [a, b, c, d] == [a, b] + [c, d] && [a, b, c] == [a, b] + [c];
  }

  lemma ToolNameTokens()
    ensures Tokens(TOOL_NAME) == [Id("mcp")] + ([Dot, Id("tool")] + [Dot, Id("name")])
  {
    TokensFour(Op(Dot), Word("tool"), Op(Dot), Word("name"));
    TokensCons(Word("mcp"), [Op(Dot), Word("tool"), Op(Dot), Word("name")]);
    assert TOOL_NAME == [Word("mcp")] + [Op(Dot), Word("tool"), Op(Dot), Word("name")];
    assert [Dot] + [Id("tool")] == [Dot, Id("tool")] && [Dot] + [Id("name")] == [Dot, Id("name")];
  }

  lemma TestTokens(q: string)
    ensures Tokens([Op(Dot), Word("matches"), Op(LParen), Literal(q), Op(RParen)])
            == [Dot, Id("matches")] + ([LParen] + ([Text(q)] + [RParen]))
    ensures Tokens([Gap, Op(EqEq), Gap, Literal(q)]) == [EqEq] + [Text(q)]
  {
    TokensTwo(Op(Dot), Word("matches"));
    TokensFour(Op(LParen), Literal(q), Op(RParen), Gap);
    TokensAppend([Op(Dot), Word("matches")], [Op(LParen), Literal(q), Op(RParen)]);
    assert [Op(Dot), Word("matches"), Op(LParen), Literal(q), Op(RParen)]
        == [Op(Dot), Word("matches")] + [Op(LParen), Literal(q), Op(RParen)];
    assert [Dot] + [Id("matches")] == [Dot, Id("matches")];
    assert [LParen] + [Text(q)] + [RParen] == [LParen] + ([Text(q)] + [RParen]);
    TokensFour(Gap, Op(EqEq), Gap, Literal(q));
    var none: seq<Token> := [];
    assert none + [EqEq] + (none + [Text(q)]) == [EqEq] + [Text(q)];
  }

  // ---------------------------------------------------------------- parsing

  /** Nothing at the start of `ts` extends an operand of the given level. */
  predicate EndsMember(ts: seq<Token>) {
    !StartsWith(ts, Dot) && !StartsWith(ts, LParen)
  }

  predicate EndsRelation(ts: seq<Token>) {
    EndsMember(ts) && !StartsWith(ts, EqEq)
  }

  predicate EndsAnd(ts: seq<Token>) {
    EndsRelation(ts) && !StartsWith(ts, AndAnd)
  }

  predicate EndsOr(ts: seq<Token>) {
    EndsAnd(ts) && !StartsWith(ts, OrOr)
  }

  lemma ParsesSelect(acc: Expr, field: string, ts: seq<Token>)
    requires !StartsWith(ts, LParen)
    ensures MemberTail(acc, [Dot, Id(field)] + ts) == MemberTail(Select(acc, field), ts)
  {
    var all := [Dot, Id(field)] + ts;
    assert all[2..] == ts;
  }

  lemma ParsesLiteral(q: string, ts: seq<Token>)
    requires EndsMember(ts)
    ensures ParseUnary([Text(q)] + ts) == Ok(Str(q), ts)
    ensures EndsOr(ts) ==> ParseOr([Text(q)] + ts) == Ok(Str(q), ts)
  {
    var all := [Text(q)] + ts;
    assert all[1..] == ts;
    assert ParsePrimary(all) == Ok(Str(q), ts);
    assert MemberTail(Str(q), ts) == Ok(Str(q), ts);
    if EndsOr(ts) {
      assert ParseRelation(all) == Ok(Str(q), ts);
      assert ParseAnd(all) == Ok(Str(q), ts);
    }
  }

  lemma ParsesCall(acc: Expr, member: string, q: string, ts: seq<Token>)
    requires EndsMember(ts)
    ensures MemberTail(acc, [Dot, Id(member)] + ([LParen] + ([Text(q)] + ([RParen] + ts))))
            == Ok(Call(acc, member, Str(q)), ts)
  {
    var arg := [Text(q)] + ([RParen] + ts);
    var all := [Dot, Id(member)] + ([LParen] + arg);
    assert all[2..] == [LParen] + arg && all[3..] == arg;
    ParsesLiteral(q, [RParen] + ts);
    assert ([RParen] + ts)[1..] == ts;
  }

  /** `mcp.tool.name`, then whatever member suffix follows. */
  lemma ParsesToolName(ts: seq<Token>)
    requires !StartsWith(ts, LParen)
    ensures ParseUnary(Tokens(TOOL_NAME) + ts) == MemberTail(TOOL_NAME_EXPR, ts)
  {
    ToolNameTokens();
    var t2 := [Dot, Id("name")] + ts;
    var t1 := [Dot, Id("tool")] + t2;
    var all := [Id("mcp")] + t1;
    assert Tokens(TOOL_NAME) + ts == all;
    assert all[1..] == t1;
    assert ParsePrimary(all) == Ok(Ident("mcp"), t1);
    ParsesSelect(Ident("mcp"), "tool", t2);
    ParsesSelect(Select(Ident("mcp"), "tool"), "name", ts);
  }

  lemma ParsesMatches(q: string, ts: seq<Token>)
    requires EndsRelation(ts)
    ensures ParseRelation(Tokens(TOOL_NAME) + ([Dot, Id("matches")] + ([LParen] + ([Text(q)] + ([RParen] + ts)))))
            == Ok(Call(TOOL_NAME_EXPR, "matches", Str(q)), ts)
  {
    ParsesToolName([Dot, Id("matches")] + ([LParen] + ([Text(q)] + ([RParen] + ts))));
    ParsesCall(TOOL_NAME_EXPR, "matches", q, ts);
  }

  lemma ParsesEquals(q: string, ts: seq<Token>)
    requires EndsRelation(ts)
    ensures ParseRelation(Tokens(TOOL_NAME) + ([EqEq] + ([Text(q)] + ts))) == Ok(Eq(TOOL_NAME_EXPR, Str(q)), ts)
  {
    var test := [EqEq] + ([Text(q)] + ts);
    ParsesToolName(test);
    assert test[1..] == [Text(q)] + ts;
    ParsesLiteral(q, ts);
    assert RelationTail(Eq(TOOL_NAME_EXPR, Str(q)), ts) == Ok(Eq(TOOL_NAME_EXPR, Str(q)), ts);
  }

  lemma ParsesPredicate(p: string, ts: seq<Token>)
    requires EndsRelation(ts)
    ensures ParseRelation(Tokens(PredicatePieces(p)) + ts) == Ok(PredicateExpr(p), ts)
  {
    var q := LiteralOf(p);
    TokensAppend(TOOL_NAME, TestPieces(p));
    TestTokens(q);
    var test := Tokens(TestPieces(p)) + ts;
    assert Tokens(PredicatePieces(p)) + ts == Tokens(TOOL_NAME) + test;
    if HasGlobMeta(p) {
      assert test == [Dot, Id("matches")] + ([LParen] + ([Text(q)] + ([RParen] + ts)));
      ParsesMatches(q, ts);
    } else {
      assert test == [EqEq] + ([Text(q)] + ts);
      ParsesEquals(q, ts);
    }
  }

  /** A predicate that nothing extends is a whole operand of `||`. */
  lemma ParsesOperand(p: string, ts: seq<Token>)
    requires EndsAnd(ts)
    ensures ParseAnd(Tokens(PredicatePieces(p)) + ts) == Ok(PredicateExpr(p), ts)
  {
    ParsesPredicate(p, ts);
  }

  /** One more operand behind `||`. */
  lemma OrTailStep(acc: Expr, p: string, rest: seq<Token>)
    requires EndsAnd(rest)
    ensures OrTail(acc, [OrOr] + (Tokens(PredicatePieces(p)) + rest)) == OrTail(Or(acc, PredicateExpr(p)), rest)
  {
    var operand := Tokens(PredicatePieces(p)) + rest;
    ParsesOperand(p, rest);
    assert ([OrOr] + operand)[1..] == operand;
  }

  /** The tokens of a disjunction of several predicates. */
  lemma OrTokens(ps: seq<string>)
    requires |ps| > 1
    ensures Tokens(OrPieces(ps)) == Tokens(PredicatePieces(ps[0])) + ([OrOr] + Tokens(OrPieces(ps[1..])))
  {
    TokensFour(Gap, Op(OrOr), Gap, Gap);
    var none: seq<Token> := [];
    assert none + [OrOr] + none == [OrOr];
    TokensAppend(OR_GAP, OrPieces(ps[1..]));
    TokensAppend(PredicatePieces(ps[0]), OR_GAP + OrPieces(ps[1..]));
  }

  lemma {:induction false} ParsesOrTail(acc: Expr, ps: seq<string>, ts: seq<Token>)
    requires ps != [] && EndsOr(ts)
    ensures OrTail(acc, [OrOr] + (Tokens(OrPieces(ps)) + ts)) == Ok(OrFold(acc, ps), ts)
    decreases |ps|
  {
    var e := PredicateExpr(ps[0]);
    if |ps| == 1 {
      OrTailStep(acc, ps[0], ts);
      assert OrFold(Or(acc, e), ps[1..]) == Or(acc, e);
    } else {
      var rest := [OrOr] + (Tokens(OrPieces(ps[1..])) + ts);
      OrTokens(ps);
      assert Tokens(OrPieces(ps)) + ts == Tokens(PredicatePieces(ps[0])) + rest;
      OrTailStep(acc, ps[0], rest);
      ParsesOrTail(Or(acc, e), ps[1..], ts);
    }
  }

  lemma ParsesOne(p: string, ts: seq<Token>)
    requires EndsOr(ts)
    ensures ParseOr(Tokens(PredicatePieces(p)) + ts) == Ok(PredicateExpr(p), ts)
  {
    ParsesOperand(p, ts);
    assert OrTail(PredicateExpr(p), ts) == Ok(PredicateExpr(p), ts);
  }

  lemma ParsesSeveral(ps: seq<string>, ts: seq<Token>)
    requires |ps| > 1 && EndsOr(ts)
    ensures ParseOr(Tokens(OrPieces(ps)) + ts) == Ok(OrExpr(ps), ts)
  {
    var rest := [OrOr] + (Tokens(OrPieces(ps[1..])) + ts);
    OrTokens(ps);
    assert Tokens(OrPieces(ps)) + ts == Tokens(PredicatePieces(ps[0])) + rest;
    ParsesOperand(ps[0], rest);
    ParsesOrTail(PredicateExpr(ps[0]), ps[1..], ts);
  }

  lemma ParsesOr(ps: seq<string>, ts: seq<Token>)
    requires ps != [] && EndsOr(ts)
    ensures ParseOr(Tokens(OrPieces(ps)) + ts) == Ok(OrExpr(ps), ts)
  {
    if |ps| == 1 {
      ParsesOne(ps[0], ts);
    } else {
      ParsesSeveral(ps, ts);
    }
  }

  lemma ParenthesizedTokens(ps: seq<Piece>)
    ensures Tokens(Parenthesized(ps)) == [LParen] + (Tokens(ps) + [RParen])
  {
    TokensTwo(Op(RParen), Gap);
    TokensAppend(ps, [Op(RParen)]);
    TokensCons(Op(LParen), ps + [Op(RParen)]);
  }

  lemma ParsesParentheses(e: Expr, inside: seq<Token>, ts: seq<Token>)
    requires EndsMember(ts) && ParseOr(inside) == Ok(e, [RParen] + ts)
    ensures ParseUnary([LParen] + inside) == Ok(e, ts)
  {
    var all := [LParen] + inside;
    assert all[1..] == inside && ([RParen] + ts)[1..] == ts;
    assert ParsePrimary(all) == Ok(e, ts);
  }

  lemma ParsesGroup(ps: seq<string>, ts: seq<Token>)
    requires ps != [] && EndsMember(ts)
    ensures ParseUnary(Tokens(Parenthesized(OrPieces(ps))) + ts) == Ok(OrExpr(ps), ts)
  {
    ParenthesizedTokens(OrPieces(ps));
    var inside := Tokens(OrPieces(ps)) + ([RParen] + ts);
    assert Tokens(Parenthesized(OrPieces(ps))) + ts == [LParen] + inside;
    ParsesOr(ps, [RParen] + ts);
    ParsesParentheses(OrExpr(ps), inside, ts);
  }

  lemma ParsesNotGroup(ps: seq<string>)
    requires ps != []
    ensures ParseUnary([Bang] + Tokens(Parenthesized(OrPieces(ps)))) == Ok(Not(OrExpr(ps)), [])
  {
    var group := Tokens(Parenthesized(OrPieces(ps)));
    ParsesGroup(ps, []);
    assert group + [] == group;
    assert ([Bang] + group)[1..] == group;
  }

  lemma BothTokens(allow: seq<Piece>, deny: seq<Piece>)
    ensures Tokens(allow + (AND_NOT_GAP + deny))
            == Tokens(allow) + ([AndAnd] + ([Bang] + Tokens(deny)))
  {
    var sep := AND_NOT_GAP;
    TokensFour(Gap, Op(AndAnd), Gap, Op(Bang));
    var none: seq<Token> := [];
    assert none + [AndAnd] + (none + [Bang]) == [AndAnd] + [Bang];
    TokensAppend(sep, deny);
    TokensAppend(allow, sep + deny);
  }

  lemma ParsesBoth(allow: seq<string>, deny: seq<string>)
    requires allow != [] && deny != []
    ensures ParseOr(Tokens(Parenthesized(OrPieces(allow))) +
                    ([AndAnd] + ([Bang] + Tokens(Parenthesized(OrPieces(deny))))))
            == Ok(And(OrExpr(allow), Not(OrExpr(deny))), [])
  {
    var right := [Bang] + Tokens(Parenthesized(OrPieces(deny)));
    var rest := [AndAnd] + right;
    var all := Tokens(Parenthesized(OrPieces(allow))) + rest;
    ParsesGroup(allow, rest);
    assert ParseRelation(all) == Ok(OrExpr(allow), rest);
    ParsesNotGroup(deny);
    assert rest[1..] == right;
    assert ParseRelation(right) == Ok(Not(OrExpr(deny)), []);
    assert AndTail(OrExpr(allow), rest) == Ok(And(OrExpr(allow), Not(OrExpr(deny))), []);
    assert ParseAnd(all) == Ok(And(OrExpr(allow), Not(OrExpr(deny))), []);
  }

  lemma ParsesRule(f: Filter)
    requires f.allow != [] || f.deny != []
    ensures ParseOr(Tokens(RulePieces(f))) == Ok(RuleExpr(f), [])
  {
    var all := Tokens(RulePieces(f));
    if f.deny == [] {
      ParsesOr(f.allow, []);
      assert all + [] == all;
    } else if f.allow == [] {
      TokensCons(Op(Bang), Parenthesized(OrPieces(f.deny)));
      ParsesNotGroup(f.deny);
      assert ParseRelation(all) == Ok(RuleExpr(f), []);
      assert ParseAnd(all) == Ok(RuleExpr(f), []);
    } else {
      BothTokens(Parenthesized(OrPieces(f.allow)), Parenthesized(OrPieces(f.deny)));
      ParsesBoth(f.allow, f.deny);
    }
  }

  /** Print/parse: the text of a non-empty filter is a CEL expression exactly when
      no pattern holds a raw line break, and then it is the intended one. */
  lemma RuleTextParses(f: Filter)
    requires f.allow != [] || f.deny != []
    ensures |RuleTexts(Some(f))| == 1
    ensures Parse(RuleTexts(Some(f))[0])
            == if NoLineBreaks(f.allow) && NoLineBreaks(f.deny) then Some(RuleExpr(f)) else None
  {
    RuleIsPieces(f);
    RuleLexes(f);
    LexPieces(RulePieces(f));
    ParsesRule(f);
  }
}
