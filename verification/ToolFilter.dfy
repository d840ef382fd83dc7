/** Translation of a ToolRoute's tool filter (glob allow and deny lists) into the
    CEL rule of its AgentgatewayPolicy, and the proof that the rule text means
    what the lists mean. */
module ToolFilter {
  import opened Wrappers
  import opened Glob
  import GlobRegex

  datatype Filter = Filter(allow: seq<string>, deny: seq<string>)

  // ============================================================ operations

  /** strings.ReplaceAll for a one-character search string. */
  function ReplaceAll(s: string, from: char, into: string): string {
    if s == "" then ""
    else (if s[0] == from then into else [s[0]]) + ReplaceAll(s[1..], from, into)
  }

  /** Two passes: backslashes first, then double quotes. */
  function CelEscape(s: string): string {
    "\"" + ReplaceAll(ReplaceAll(s, '\\', "\\\\"), '"', "\\\"") + "\""
  }

  predicate HasGlobMeta(p: string) {
    exists i :: 0 <= i < |p| && IsWild(p[i])
  }

  /** The text of one predicate over mcp.tool.name. */
  function PredicateText(pattern: string): string {
    if !HasGlobMeta(pattern) then
      "mcp.tool.name == " + CelEscape(pattern)
    else
      "mcp.tool.name.matches(" + CelEscape(GlobRegex.RegexText(pattern)) + ")"
  }

  method GlobToCELPredicate(pattern: string) returns (text: string)
    ensures text == PredicateText(pattern)
  {
    if !HasGlobMeta(pattern) {
      return "mcp.tool.name == " + CelEscape(pattern);
    }
    var regex := GlobRegex.GlobToRegex(pattern);
    return "mcp.tool.name.matches(" + CelEscape(regex) + ")";
  }

  function PredicateTexts(patterns: seq<string>): (r: seq<string>)
    ensures |r| == |patterns|
  {
    seq(|patterns|, i requires 0 <= i < |patterns| => PredicateText(patterns[i]))
  }

  /** strings.Join(preds, " || "). */
  function OrJoin(preds: seq<string>): string {
    if preds == [] then ""
    else if |preds| == 1 then preds[0]
    else preds[0] + " || " + OrJoin(preds[1..])
  }

  function RuleTexts(filter: Option<Filter>): seq<string> {
    match filter
    case None => []
    case Some(f) =>
      var allow, deny := OrJoin(PredicateTexts(f.allow)), OrJoin(PredicateTexts(f.deny));
      if f.allow != [] && f.deny != [] then ["(" + allow + ") && !(" + deny + ")"]
      else if f.allow != [] then [allow]
      else if f.deny != [] then ["!(" + deny + ")"]
      else []
  }

  method BuildMcpAuthorizationRules(filter: Option<Filter>) returns (rules: seq<string>)
    ensures rules == RuleTexts(filter)
    ensures rules == [] <==> filter.None? || (filter.value.allow == [] && filter.value.deny == [])
  {
    if filter == None || (|filter.value.allow| == 0 && |filter.value.deny| == 0) {
      return [];
    }
    var f := filter.value;
    var allowPreds := [];
    for i := 0 to |f.allow|
      invariant allowPreds == PredicateTexts(f.allow)[..i]
    {
      var p := GlobToCELPredicate(f.allow[i]);
      allowPreds := allowPreds + [p];
    }
    var denyPreds := [];
    for i := 0 to |f.deny|
      invariant denyPreds == PredicateTexts(f.deny)[..i]
    {
      var p := GlobToCELPredicate(f.deny[i]);
      denyPreds := denyPreds + [p];
    }
    assert allowPreds == PredicateTexts(f.allow) && denyPreds == PredicateTexts(f.deny);
    if |allowPreds| > 0 && |denyPreds| > 0 {
      return ["(" + OrJoin(allowPreds) + ") && !(" + OrJoin(denyPreds) + ")"];
    } else if |allowPreds| > 0 {
      return [OrJoin(allowPreds)];
    } else if |denyPreds| > 0 {
      return ["!(" + OrJoin(denyPreds) + ")"];
    } else {
      return [];
    }
  }
}
