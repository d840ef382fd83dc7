/** End to end: the text written into the policy, lexed, parsed and evaluated as
    CEL, admits exactly the tools that the allow and deny globs admit. */
module RuleMeaning {
  import opened Wrappers
  import opened Glob
  import GlobRegex
  import opened Cel
  import opened ToolFilter
  import opened RuleSyntax
  import opened RuleParsing

  /** The documented meaning: some allow pattern (or none given) and no deny pattern. */
  ghost predicate Admits(f: Filter, tool: string) {
    && (f.allow == [] || MatchesAny(f.allow, tool))
    && !MatchesAny(f.deny, tool)
  }

  ghost predicate MatchesAny(patterns: seq<string>, tool: string) {
    exists i :: 0 <= i < |patterns| && Matches(patterns[i], tool)
  }

  // ------------------------------------------------------------- evaluation

  /** One predicate: the glob, except that a name with a line feed is never matched. */
  lemma PredicateMeaning(p: string, tool: string)
    requires NoLineBreak(p)
    ensures Eval(PredicateExpr(p), tool) == Bool(Matches(p, tool) && NoLineFeed(tool))
  {
    assert Eval(TOOL_NAME_EXPR, tool) == String(tool) by {
      assert Eval(Ident("mcp"), tool) == McpVar;
      assert Eval(Select(Ident("mcp"), "tool"), tool) == ToolVar;
    }
    if HasGlobMeta(p) {
      GlobRegex.RegexTextFaithful(p);
      GlobRegex.AnchoredSearchInLine(p, tool);
    } else {
      PlainMatchesItself(p, tool);
      assert NoLineFeed(p);
    }
  }

  lemma {:induction false} OrFoldMeaning(acc: Expr, b: bool, ps: seq<string>, tool: string)
    requires NoLineBreaks(ps) && Eval(acc, tool) == Bool(b)
    ensures Eval(OrFold(acc, ps), tool) == Bool(b || (MatchesAny(ps, tool) && NoLineFeed(tool)))
    decreases |ps|
  {
    if ps != [] {
      NoLineBreaksCons(ps);
      PredicateMeaning(ps[0], tool);
      var first := Matches(ps[0], tool) && NoLineFeed(tool);
      OrFoldMeaning(Or(acc, PredicateExpr(ps[0])), b || first, ps[1..], tool);
      MatchesAnyCons(ps, tool);
    }
  }

  lemma MatchesAnyCons(ps: seq<string>, tool: string)
    requires ps != []
    ensures MatchesAny(ps, tool) <==> Matches(ps[0], tool) || MatchesAny(ps[1..], tool)
  {
    if MatchesAny(ps[1..], tool) {
      var i :| 0 <= i < |ps[1..]| && Matches(ps[1..][i], tool);
      assert Matches(ps[i + 1], tool);
    }
    if MatchesAny(ps, tool) {
      var i :| 0 <= i < |ps| && Matches(ps[i], tool);
      if i > 0 { assert Matches(ps[1..][i - 1], tool); }
    }
  }

  lemma OrMeaning(ps: seq<string>, tool: string)
    requires ps != [] && NoLineBreaks(ps)
    ensures Eval(OrExpr(ps), tool) == Bool(MatchesAny(ps, tool) && NoLineFeed(tool))
  {
    NoLineBreaksCons(ps);
    PredicateMeaning(ps[0], tool);
    OrFoldMeaning(PredicateExpr(ps[0]), Matches(ps[0], tool) && NoLineFeed(tool), ps[1..], tool);
    MatchesAnyCons(ps, tool);
  }

  // ---------------------------------------------------------- main theorems

  lemma NotOrMeaning(ps: seq<string>, tool: string)
    requires ps != [] && NoLineBreaks(ps)
    ensures Eval(Not(OrExpr(ps)), tool) == Bool(!(MatchesAny(ps, tool) && NoLineFeed(tool)))
  {
    OrMeaning(ps, tool);
  }

  /** The parsed rule, evaluated. */
  lemma RuleExprMeaning(f: Filter, tool: string)
    requires f.allow != [] || f.deny != []
    requires NoLineBreaks(f.allow) && NoLineBreaks(f.deny)
    ensures Eval(RuleExpr(f), tool) == Bool(if NoLineFeed(tool) then Admits(f, tool) else f.allow == [])
  {
    if f.deny == [] {
      assert !MatchesAny(f.deny, tool);
      OrMeaning(f.allow, tool);
    } else if f.allow == [] {
      NotOrMeaning(f.deny, tool);
    } else {
      OrMeaning(f.allow, tool);
      NotOrMeaning(f.deny, tool);
    }
  }

  /** The exact verdict of the rule text on every tool name, line feeds included. */
  lemma RuleVerdict(f: Filter, tool: string)
    requires f.allow != [] || f.deny != []
    ensures Verdict(RuleTexts(Some(f))[0], tool) ==
            if NoLineBreaks(f.allow) && NoLineBreaks(f.deny) then
              Some(if NoLineFeed(tool) then Admits(f, tool) else f.allow == [])
            else None
  {
    RuleTextParses(f);
    if NoLineBreaks(f.allow) && NoLineBreaks(f.deny) {
      RuleExprMeaning(f, tool);
    }
  }

  /** Meaning preservation: for tool names without a line feed, the emitted rule
      says exactly what the filter says if and only if no pattern holds a raw
      carriage return or line feed (otherwise the text is no CEL expression). */
  lemma MeaningPreserved(f: Filter, tool: string)
    requires f.allow != [] || f.deny != []
    requires NoLineFeed(tool)
    ensures Verdict(RuleTexts(Some(f))[0], tool) == Some(Admits(f, tool))
            <==> NoLineBreaks(f.allow) && NoLineBreaks(f.deny)
  {
    RuleVerdict(f, tool);
  }

  /** A pattern with a raw line feed makes the rule no CEL expression at all. */
  lemma LineFeedPatternBreaksRule(tool: string)
    ensures Verdict(RuleTexts(Some(Filter(["a\n"], [])))[0], tool) == None
  {
    var f := Filter(["a\n"], []);
    assert "a\n"[1] == '\n';
    assert !NoLineBreak(f.allow[0]);
    RuleVerdict(f, tool);
  }

  /** For a name with a line feed, the rule agrees with the filter exactly when
      the filter admits what the rule gives such names: everything if there is no
      allow list, nothing otherwise. */
  lemma LineFeedNames(f: Filter, tool: string)
    requires f.allow != [] || f.deny != []
    requires NoLineBreaks(f.allow) && NoLineBreaks(f.deny) && !NoLineFeed(tool)
    ensures Verdict(RuleTexts(Some(f))[0], tool) == Some(Admits(f, tool))
            <==> (if f.allow == [] then !MatchesAny(f.deny, tool)
                  else !MatchesAny(f.allow, tool) || MatchesAny(f.deny, tool))
  {
    RuleVerdict(f, tool);
  }

  /** A deny-everything rule lets the name "\n" through. */
  lemma LineFeedEscapesDeny()
    ensures !Admits(Filter([], ["*"]), "\n")
    ensures Verdict(RuleTexts(Some(Filter([], ["*"])))[0], "\n") == Some(true)
  {
    var f := Filter([], ["*"]);
    assert "*"[1..] == "" && "\n"[1..] == "";
    assert Matches("", "\n"[1..]);
    assert Matches("*", "\n");
    assert Matches(f.deny[0], "\n");
    assert !NoLineFeed("\n") by { assert "\n"[0] == '\n'; }
    RuleVerdict(f, "\n");
  }

  /** Deny wins: a tool matching a deny pattern is rejected even if it is allowed. */
  lemma DenyWins(f: Filter, tool: string, i: nat)
    requires NoLineBreaks(f.allow) && NoLineBreaks(f.deny) && NoLineFeed(tool)
    requires i < |f.deny| && Matches(f.deny[i], tool)
    ensures Verdict(RuleTexts(Some(f))[0], tool) == Some(false)
  {
    RuleVerdict(f, tool);
    assert MatchesAny(f.deny, tool);
  }
}
