/** The generated rule text lexes to the expected tokens and parses to the
    expected expression, whatever operators, quotes or parentheses occur inside
    the pattern literals. */
module RuleSyntax {
  import opened Wrappers
  import opened Strings
  import opened Glob
  import GlobRegex
  import opened Cel
  import opened ToolFilter
  import opened CelPieces

  // ---------------------------------------------------------------- pieces

  /** The literal a pattern ends up in: itself, or its regex. */
  function LiteralOf(pattern: string): string {
    if HasGlobMeta(pattern) then GlobRegex.RegexText(pattern) else pattern
  }

  const TOOL_NAME: seq<Piece> := [Word("mcp"), Op(Dot), Word("tool"), Op(Dot), Word("name")]

  function TestPieces(pattern: string): seq<Piece> {
    if HasGlobMeta(pattern) then
      [Op(Dot), Word("matches"), Op(LParen), Literal(LiteralOf(pattern)), Op(RParen)]
    else
      [Gap, Op(EqEq), Gap, Literal(LiteralOf(pattern))]
  }

  function PredicatePieces(pattern: string): seq<Piece> {
    TOOL_NAME + TestPieces(pattern)
  }

  const OR_GAP: seq<Piece> := [Gap, Op(OrOr), Gap]

  const AND_NOT_GAP: seq<Piece> := [Gap, Op(AndAnd), Gap, Op(Bang)]

  function OrPieces(patterns: seq<string>): seq<Piece>
    requires patterns != []
  {
    if |patterns| == 1 then PredicatePieces(patterns[0])
    else PredicatePieces(patterns[0]) + (OR_GAP + OrPieces(patterns[1..]))
  }

  function Parenthesized(ps: seq<Piece>): seq<Piece> {
    [Op(LParen)] + (ps + [Op(RParen)])
  }

  function RulePieces(f: Filter): seq<Piece>
    requires f.allow != [] || f.deny != []
  {
    if f.deny == [] then OrPieces(f.allow)
    else if f.allow == [] then [Op(Bang)] + Parenthesized(OrPieces(f.deny))
    else
      Parenthesized(OrPieces(f.allow)) +
      (AND_NOT_GAP + Parenthesized(OrPieces(f.deny)))
  }

  // ------------------------------------------------- the text is the pieces

  lemma ToolNameText()
    ensures Concat(TOOL_NAME) == "mcp.tool.name"
  {
    ConcatFive(Word("mcp"), Op(Dot), Word("tool"), Op(Dot), Word("name"));
    assert "mcp" + ("." + ("tool" + ("." + "name"))) == "mcp.tool.name";
  }

  lemma MatchesText(q: string)
    ensures Concat([Op(Dot), Word("matches"), Op(LParen), Literal(q), Op(RParen)])
            == ".matches(" + CelEscape(q) + ")"
  {
    ConcatFive(Op(Dot), Word("matches"), Op(LParen), Literal(q), Op(RParen));
    assert "." + ("matches" + ("(" + (CelEscape(q) + ")"))) == ".matches(" + CelEscape(q) + ")";
  }

  lemma EqualsText(q: string)
    ensures Concat([Gap, Op(EqEq), Gap, Literal(q)]) == " == " + CelEscape(q)
  {
    ConcatFour(Gap, Op(EqEq), Gap, Literal(q));
    assert " " + ("==" + (" " + CelEscape(q))) == " == " + CelEscape(q);
  }

  lemma PredicateConcat(p: string)
    ensures Concat(PredicatePieces(p)) == PredicateText(p)
  {
    ToolNameText();
    ConcatAppend(TOOL_NAME, TestPieces(p));
    if HasGlobMeta(p) {
      MatchesText(LiteralOf(p));
      MatchesJoin(CelEscape(LiteralOf(p)));
    } else {
      EqualsText(p);
      EqualsJoin(CelEscape(p));
    }
  }

  lemma MatchesJoin(q: string)
    ensures "mcp.tool.name" + (".matches(" + q + ")") == "mcp.tool.name.matches(" + q + ")"
  {
    assert "mcp.tool.name" + ".matches(" == "mcp.tool.name.matches(";
  }

  lemma EqualsJoin(q: string)
    ensures "mcp.tool.name" + (" == " + q) == "mcp.tool.name == " + q
  {
    assert "mcp.tool.name" + " == " == "mcp.tool.name == ";
  }

  /** A piece list that can be put between parentheses or operators. */
  predicate Operand(ps: seq<Piece>) {
    && ps != [] && Fine(ps)
    && ps[0] != Op(EqEq)
    && (ps[|ps| - 1].Literal? || ps[|ps| - 1].Op?) && ps[|ps| - 1] != Op(Bang)
  }

  lemma ToolNameFine()
    ensures Fine(TOOL_NAME)
  {
    assert ValidPiece(Word("mcp")) && ValidPiece(Word("tool")) && ValidPiece(Word("name"));
  }

  lemma TestFine(p: string)
    ensures Fine(TestPieces(p))
  {
    assert ValidPiece(Word("matches"));
  }

  lemma PredicateIsPieces(p: string)
    ensures Operand(PredicatePieces(p)) && Concat(PredicatePieces(p)) == PredicateText(p)
  {
    PredicateConcat(p);
    ToolNameFine();
    TestFine(p);
    FineAppend(TOOL_NAME, TestPieces(p));
  }

  lemma PredicateTextsTail(ps: seq<string>)
    requires ps != []
    ensures PredicateTexts(ps)[0] == PredicateText(ps[0])
    ensures PredicateTexts(ps)[1..] == PredicateTexts(ps[1..])
  {
  }

  /** Two operands around a separator that starts with a space. */
  lemma Separated(a: seq<Piece>, sep: seq<Piece>, b: seq<Piece>)
    requires Operand(a) && Operand(b) && Fine(sep) && sep != []
    requires sep[0].Gap? && MayFollow(sep[|sep| - 1], b[0])
    ensures Operand(a + (sep + b)) && Concat(a + (sep + b)) == Concat(a) + Concat(sep) + Concat(b)
  {
    SeparatedFine(a, sep, b);
    ConcatAppend(sep, b);
    ConcatAppend(a, sep + b);
  }

  lemma SeparatedFine(a: seq<Piece>, sep: seq<Piece>, b: seq<Piece>)
    requires Operand(a) && Operand(b) && Fine(sep) && sep != []
    requires sep[0].Gap? && MayFollow(sep[|sep| - 1], b[0])
    ensures Operand(a + (sep + b))
  {
    FineAppend(sep, b);
    assert (sep + b)[0] == sep[0];
    FineAppend(a, sep + b);
    var all := a + (sep + b);
    assert all[0] == a[0] && all[|all| - 1] == b[|b| - 1];
  }

  lemma SeparatorText()
    ensures Fine(OR_GAP) && Fine(AND_NOT_GAP)
    ensures Concat(OR_GAP) == " || "
    ensures Concat(AND_NOT_GAP) == " && !"
  {
    ConcatThree(Gap, Op(OrOr), Gap);
    ConcatFour(Gap, Op(AndAnd), Gap, Op(Bang));
    assert " " + ("||" + " ") == " || ";
    assert " " + ("&&" + (" " + "!")) == " && !";
  }

  lemma {:induction false} OrIsPieces(ps: seq<string>)
    requires ps != []
    ensures Operand(OrPieces(ps)) && Concat(OrPieces(ps)) == OrJoin(PredicateTexts(ps))
  {
    PredicateIsPieces(ps[0]);
    PredicateTextsTail(ps);
    if |ps| > 1 {
      OrIsPieces(ps[1..]);
      OrStep(PredicatePieces(ps[0]), OrPieces(ps[1..]));
      Associate(PredicateText(ps[0]), " || ", OrJoin(PredicateTexts(ps[1..])));
    }
  }

  lemma OrStep(a: seq<Piece>, b: seq<Piece>)
    requires Operand(a) && Operand(b)
    ensures Operand(a + (OR_GAP + b)) && Concat(a + (OR_GAP + b)) == Concat(a) + " || " + Concat(b)
  {
    SeparatorText();
    Separated(a, OR_GAP, b);
  }

  lemma ParenthesizedText(ps: seq<Piece>)
    requires Operand(ps)
    ensures Operand(Parenthesized(ps)) && Concat(Parenthesized(ps)) == "(" + Concat(ps) + ")"
    ensures Parenthesized(ps)[0] == Op(LParen)
  {
    ConcatOne(Op(RParen));
    ConcatAppend(ps, [Op(RParen)]);
    FineAppend(ps, [Op(RParen)]);
    ConcatCons(Op(LParen), ps + [Op(RParen)]);
    FineAppend([Op(LParen)], ps + [Op(RParen)]);
  }

  lemma DenyIsPieces(ps: seq<string>)
    requires ps != []
    ensures var deny := [Op(Bang)] + Parenthesized(OrPieces(ps));
            Fine(deny) && Concat(deny) == "!(" + OrJoin(PredicateTexts(ps)) + ")"
  {
    OrIsPieces(ps);
    ParenthesizedText(OrPieces(ps));
    FineAppend([Op(Bang)], Parenthesized(OrPieces(ps)));
    ConcatCons(Op(Bang), Parenthesized(OrPieces(ps)));
    DenyText(OrJoin(PredicateTexts(ps)));
  }

  lemma DenyText(d: string)
    ensures "!" + ("(" + d + ")") == "!(" + d + ")"
  {
  }

  lemma BothArePieces(allow: seq<string>, deny: seq<string>)
    requires allow != [] && deny != []
    ensures var ps := Parenthesized(OrPieces(allow)) +
                      (AND_NOT_GAP + Parenthesized(OrPieces(deny)));
            && Fine(ps)
            && Concat(ps) == "(" + OrJoin(PredicateTexts(allow)) + ") && !(" + OrJoin(PredicateTexts(deny)) + ")"
  {
    OrIsPieces(allow);
    OrIsPieces(deny);
    GroupsText(OrPieces(allow), OrPieces(deny));
  }

  lemma GroupsText(allow: seq<Piece>, deny: seq<Piece>)
    requires Operand(allow) && Operand(deny)
    ensures var ps := Parenthesized(allow) + (AND_NOT_GAP + Parenthesized(deny));
            Fine(ps) && Concat(ps) == "(" + Concat(allow) + ") && !(" + Concat(deny) + ")"
  {
    ParenthesizedText(allow);
    ParenthesizedText(deny);
    SeparatorText();
    Separated(Parenthesized(allow), AND_NOT_GAP, Parenthesized(deny));
    BothTexts(Concat(allow), Concat(deny));
  }

  lemma BothTexts(a: string, d: string)
    ensures ("(" + a + ")") + " && !" + ("(" + d + ")") == "(" + a + ") && !(" + d + ")"
  {
    assert ")" + " && !" + "(" == ") && !(";
    assert ("(" + a + ")") + " && !" + ("(" + d + ")") == "(" + a + (")" + " && !" + "(") + d + ")";
  }

  lemma RuleIsPieces(f: Filter)
    requires f.allow != [] || f.deny != []
    ensures Fine(RulePieces(f)) && RuleTexts(Some(f)) == [Concat(RulePieces(f))]
  {
    if f.deny == [] {
      OrIsPieces(f.allow);
    } else if f.allow == [] {
      DenyIsPieces(f.deny);
    } else {
      BothArePieces(f.allow, f.deny);
    }
  }

  // -------------------------------------------------------- when it lexes

  predicate NoLineBreaks(patterns: seq<string>) {
    forall i | 0 <= i < |patterns| :: NoLineBreak(patterns[i])
  }

  lemma {:induction false} BodyTextLineBreaks(p: string)
    ensures NoLineBreak(GlobRegex.BodyText(p)) <==> NoLineBreak(p)
  {
    if p != "" {
      BodyTextLineBreaks(p[1..]);
      CelLiteral.NoLineBreakCons(p);
      NoLineBreakAppend(GlobRegex.RuneText(p[0]), GlobRegex.BodyText(p[1..]));
      assert GlobRegex.RuneText(p[0])[|GlobRegex.RuneText(p[0])| - 1] == p[0] || IsWild(p[0]);
    }
  }

  lemma NoLineBreakAppend(s: string, t: string)
    ensures NoLineBreak(s + t) <==> NoLineBreak(s) && NoLineBreak(t)
  {
    var st := s + t;
    if NoLineBreak(st) {
      assert forall i | 0 <= i < |s| :: s[i] == st[i];
      assert forall i | 0 <= i < |t| :: t[i] == st[|s| + i];
    }
  }

  lemma LiteralLineBreaks(p: string)
    ensures NoLineBreak(LiteralOf(p)) <==> NoLineBreak(p)
  {
    BodyTextLineBreaks(p);
    NoLineBreakAppend("^", GlobRegex.BodyText(p));
    NoLineBreakAppend("^" + GlobRegex.BodyText(p), "$");
  }

  lemma NoLineBreaksCons(ps: seq<string>)
    requires ps != []
    ensures NoLineBreaks(ps) <==> NoLineBreak(ps[0]) && NoLineBreaks(ps[1..])
  {
    assert forall i | 1 <= i < |ps| :: ps[i] == ps[1..][i - 1];
    if NoLineBreaks(ps) {
      var tail := ps[1..];
      assert forall i | 0 <= i < |tail| :: tail[i] == ps[i + 1];
    }
  }

  lemma PredicateLexes(p: string)
    ensures LiteralsLex(PredicatePieces(p)) <==> NoLineBreak(p)
  {
    LiteralLineBreaks(p);
    LiteralsLexAppend(TOOL_NAME, TestPieces(p));
    var t := TestPieces(p);
    assert t[3] == Literal(LiteralOf(p));
  }

  lemma {:induction false} OrLexes(ps: seq<string>)
    requires ps != []
    ensures LiteralsLex(OrPieces(ps)) <==> NoLineBreaks(ps)
  {
    PredicateLexes(ps[0]);
    NoLineBreaksCons(ps);
    if |ps| > 1 {
      OrLexes(ps[1..]);
      LiteralsLexAppend(OR_GAP, OrPieces(ps[1..]));
      LiteralsLexAppend(PredicatePieces(ps[0]), OR_GAP + OrPieces(ps[1..]));
    }
  }

  lemma ParenthesizedLexes(ps: seq<Piece>)
    ensures LiteralsLex(Parenthesized(ps)) <==> LiteralsLex(ps)
  {
    LiteralsLexAppend(ps, [Op(RParen)]);
    LiteralsLexAppend([Op(LParen)], ps + [Op(RParen)]);
  }

  lemma RuleLexes(f: Filter)
    requires f.allow != [] || f.deny != []
    ensures LiteralsLex(RulePieces(f)) <==> NoLineBreaks(f.allow) && NoLineBreaks(f.deny)
  {
    if f.allow != [] { OrLexes(f.allow); ParenthesizedLexes(OrPieces(f.allow)); }
    if f.deny != [] {
      OrLexes(f.deny);
      ParenthesizedLexes(OrPieces(f.deny));
      var deny := Parenthesized(OrPieces(f.deny));
      LiteralsLexAppend([Op(Bang)], deny);
      LiteralsLexAppend(AND_NOT_GAP, deny);
      if f.allow != [] {
        LiteralsLexAppend(Parenthesized(OrPieces(f.allow)), AND_NOT_GAP + deny);
      }
    }
  }
}
