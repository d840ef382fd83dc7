/** How long the generated rule gets, against the 16384-character limit the policy
    CRD sets on one CEL expression. */
module RuleSize {
  import opened Wrappers
  import opened Glob
  import opened GlobRegex
  import opened ToolFilter
  import opened CelLiteral

  const CEL_LIMIT := 16384

  lemma {:induction false} EscapeRunesAppend(s: string, t: string)
    ensures EscapeRunes(s + t) == EscapeRunes(s) + EscapeRunes(t)
  {
    if s == "" {
      assert s + t == t;
    } else {
      assert (s + t)[1..] == s[1..] + t;
      EscapeRunesAppend(s[1..], t);
    }
  }

  lemma {:induction false} EscapedLength(s: string)
    ensures |s| <= |EscapeRunes(s)| <= 2 * |s|
  {
    if s != "" { EscapedLength(s[1..]); }
  }

  lemma RuneLength(c: char)
    ensures |EscapeRunes(RuneText(c))| <= if IsWild(c) then 2 else 4
  {
    EscapedLength(RuneText(c));
    if c == '?' || c == '*' {
      var t := RuneText(c);
      assert EscapeRunes(t) == t by {
        assert t[1..] == if c == '*' then "*" else "";
        assert "*"[1..] == "";
        assert EscapeRunes("*") == "*" + EscapeRunes("*"[1..]);
      }
    }
  }

  lemma {:induction false} BodyLength(p: string)
    ensures |EscapeRunes(BodyText(p))| <= 4 * |p| - (if HasGlobMeta(p) then 2 else 0)
  {
    if p != "" {
      RuneLength(p[0]);
      BodyLength(p[1..]);
      EscapeRunesAppend(RuneText(p[0]), BodyText(p[1..]));
      if HasGlobMeta(p) && !IsWild(p[0]) {
        var i :| 0 <= i < |p| && IsWild(p[i]);
        assert IsWild(p[1..][i - 1]);
      }
    }
  }

  /** One predicate costs at most four characters per pattern character plus 25. */
  lemma PredicateLength(p: string)
    ensures |PredicateText(p)| <= 4 * |p| + 25
  {
    if HasGlobMeta(p) {
      TwoPassesAreOne(RegexText(p));
      BodyLength(p);
      EscapeRunesAppend("^", BodyText(p));
      EscapeRunesAppend("^" + BodyText(p), "$");
      EscapedLength("^");
      EscapedLength("$");
      assert EscapeRunes("^") == "^" + EscapeRunes("^"[1..]) && EscapeRunes("$") == "$" + EscapeRunes("$"[1..]);
      assert |"mcp.tool.name.matches("| == 22;
    } else {
      TwoPassesAreOne(p);
      EscapedLength(p);
      assert |"mcp.tool.name == "| == 17;
    }
  }

  function Budget(patterns: seq<string>): nat {
    if patterns == [] then 0 else 4 * |patterns[0]| + 29 + Budget(patterns[1..])
  }

  lemma {:induction false} OrJoinLength(ps: seq<string>)
    requires ps != []
    ensures |OrJoin(PredicateTexts(ps))| <= Budget(ps) - 4
  {
    PredicateLength(ps[0]);
    assert PredicateTexts(ps)[1..] == PredicateTexts(ps[1..]);
    if |ps| > 1 {
      OrJoinLength(ps[1..]);
    }
  }

  /** The whole rule costs at most 4 characters per pattern character plus 29 per
      pattern, plus one, so this sum bounds the inputs that stay under the CRD's limit. */
  lemma RuleLength(f: Filter)
    requires f.allow != [] || f.deny != []
    ensures |RuleTexts(Some(f))[0]| <= Budget(f.allow) + Budget(f.deny) + 1
    ensures Budget(f.allow) + Budget(f.deny) < CEL_LIMIT ==> |RuleTexts(Some(f))[0]| <= CEL_LIMIT
  {
    if f.allow != [] { OrJoinLength(f.allow); }
    if f.deny != [] { OrJoinLength(f.deny); }
    var allow, deny := OrJoin(PredicateTexts(f.allow)), OrJoin(PredicateTexts(f.deny));
    assert |"(" + allow + ") && !(" + deny + ")"| == |allow| + |deny| + 9;
    assert |"!(" + deny + ")"| == |deny| + 3;
  }

  /** The bound per predicate is attained: a backslash costs four characters. */
  lemma PredicateLengthAttained()
    ensures |PredicateText("\\*")| == 4 * |"\\*"| + 25
  {
    var p := "\\*";
    assert IsWild(p[1]);
    assert HasGlobMeta(p);
    assert p[1..] == "*" && "*"[1..] == "";
    assert BodyText("*") == ".*" + BodyText("*"[1..]);
    assert BodyText(p) == "\\\\" + BodyText(p[1..]);
    assert RegexText(p) == "^\\\\.*$";
    TwoPassesAreOne(RegexText(p));
    EscapeRunesAppend("^", "\\\\");
    EscapeRunesAppend("^\\\\", ".*$");
    assert "^\\\\" + ".*$" == "^\\\\.*$" && "^" + "\\\\" == "^\\\\";
    assert EscapeRunes("^") == "^" + EscapeRunes("^"[1..]);
    assert "\\\\"[1..] == "\\" && "\\"[1..] == "";
    assert EscapeRunes("\\") == "\\\\" + EscapeRunes("\\"[1..]);
    assert EscapeRunes("\\\\") == "\\\\" + EscapeRunes("\\");
    assert ".*$"[1..] == "*$" && "*$"[1..] == "$" && "$"[1..] == "";
    assert EscapeRunes("$") == "$" + EscapeRunes("$"[1..]);
    assert EscapeRunes("*$") == "*" + EscapeRunes("$");
    assert EscapeRunes(".*$") == "." + EscapeRunes("*$");
  }
}
