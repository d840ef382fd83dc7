/** The fragment of the Common Expression Language the operator writes: string
    literals in double quotes, identifiers, member selection, one-argument member
    calls, `==`, `!`, `&&`, `||` and parentheses, as the CEL Language Definition
    gives them in its sections "Syntax" and "String and Bytes Values". */
module Cel {
  import opened Wrappers
  import Regex

  // ------------------------------------------------------------------ lexer

  datatype Token =
    | Id(name: string) | Text(value: string)
    | Dot | EqEq | OrOr | AndAnd | Bang | LParen | RParen

  predicate IsSpace(c: char) {
    c == ' ' || c == '\t' || c == '\n' || c == '\r' || c == '\U{000C}'
  }

  predicate IsIdStart(c: char) {
    'a' <= c <= 'z' || 'A' <= c <= 'Z' || c == '_'
  }

  predicate IsIdChar(c: char) {
    IsIdStart(c) || '0' <= c <= '9'
  }

  /** The longest run of identifier characters at the start of `t`. */
  function IdLength(t: string): (n: nat)
    ensures n <= |t|
    ensures forall i | 0 <= i < n :: IsIdChar(t[i])
    ensures n < |t| ==> !IsIdChar(t[n])
  {
    if t == "" || !IsIdChar(t[0]) then 0 else 1 + IdLength(t[1..])
  }

  /** The one-character escapes; numeric escapes are outside the fragment. */
  function Unescape(c: char): Option<char> {
    if c == '\\' || c == '"' || c == '\'' || c == '`' || c == '?' then Some(c)
    else if c == 'a' then Some('\U{0007}')
    else if c == 'b' then Some('\U{0008}')
    else if c == 'f' then Some('\U{000C}')
    else if c == 'n' then Some('\n')
    else if c == 'r' then Some('\r')
    else if c == 't' then Some('\t')
    else if c == 'v' then Some('\U{000B}')
    else None
  }

  datatype TextLex = BadText | TextAt(value: string, rest: string)

  function Push(c: char, l: TextLex): TextLex {
    match l
    case BadText => BadText
    case TextAt(value, rest) => TextAt([c] + value, rest)
  }

  /** The characters of a literal up to its closing quote.  A quoted literal
      cannot contain a raw line feed or carriage return. */
  function LexChars(t: string): (l: TextLex)
    ensures l.TextAt? ==> |l.rest| < |t|
  {
    if t == "" || t[0] == '\n' || t[0] == '\r' then BadText
    else if t[0] == '"' then TextAt("", t[1..])
    else if t[0] == '\\' then
      if |t| < 2 then BadText
      else
        match Unescape(t[1])
        case None => BadText
        case Some(c) => Push(c, LexChars(t[2..]))
    else Push(t[0], LexChars(t[1..]))
  }

  /** A literal that starts at the double quote t[0].  Three quotes open a
      triple-quoted literal, which is outside the fragment. */
  function LexText(t: string): (l: TextLex)
    requires t != "" && t[0] == '"'
    ensures l.TextAt? ==> |l.rest| < |t|
  {
    if |t| >= 3 && t[1] == '"' && t[2] == '"' then BadText else LexChars(t[1..])
  }

  function Prepend(ts: seq<Token>, l: Option<seq<Token>>): Option<seq<Token>> {
    match l
    case None => None
    case Some(rest) => Some(ts + rest)
  }

  function Lex(t: string): Option<seq<Token>>
    decreases |t|
  {
    if t == "" then Some([])
    else if IsSpace(t[0]) then Lex(t[1..])
    else if IsIdStart(t[0]) then
      var n := IdLength(t);
      Prepend([Id(t[..n])], Lex(t[n..]))
    else if t[0] == '"' then
      match LexText(t)
      case BadText => None
      case TextAt(value, rest) => Prepend([Text(value)], Lex(rest))
    else if t[0] == '.' then Prepend([Dot], Lex(t[1..]))
    else if t[0] == '(' then Prepend([LParen], Lex(t[1..]))
    else if t[0] == ')' then Prepend([RParen], Lex(t[1..]))
    else if |t| >= 2 && t[0] == '=' && t[1] == '=' then Prepend([EqEq], Lex(t[2..]))
    else if |t| >= 2 && t[0] == '|' && t[1] == '|' then Prepend([OrOr], Lex(t[2..]))
    else if |t| >= 2 && t[0] == '&' && t[1] == '&' then Prepend([AndAnd], Lex(t[2..]))
    else if t[0] == '!' && !(|t| >= 2 && t[1] == '=') then Prepend([Bang], Lex(t[1..]))
    else None
  }

  // ----------------------------------------------------------------- parser

  datatype Expr =
    | Ident(name: string)
    | Str(value: string)
    | Select(of: Expr, field: string)
    | Call(on: Expr, member: string, arg: Expr)
    | Eq(left: Expr, right: Expr)
    | Not(e: Expr)
    | And(left: Expr, right: Expr)
    | Or(left: Expr, right: Expr)

  datatype Parsed = NoParse | Ok(e: Expr, rest: seq<Token>)

  predicate StartsWith(ts: seq<Token>, t: Token) {
    ts != [] && ts[0] == t
  }

  function ParseOr(ts: seq<Token>): (r: Parsed)
    ensures r.Ok? ==> |r.rest| < |ts|
    decreases |ts|, 7
  {
    match ParseAnd(ts)
    case NoParse => NoParse
    case Ok(e, rest) => OrTail(e, rest)
  }

  /** `||` associates to the left. */
  function OrTail(acc: Expr, ts: seq<Token>): (r: Parsed)
    ensures r.Ok? ==> |r.rest| <= |ts|
    decreases |ts|, 6
  {
    if StartsWith(ts, OrOr) then
      match ParseAnd(ts[1..])
      case NoParse => NoParse
      case Ok(e, rest) => OrTail(Or(acc, e), rest)
    else Ok(acc, ts)
  }

  function ParseAnd(ts: seq<Token>): (r: Parsed)
    ensures r.Ok? ==> |r.rest| < |ts|
    decreases |ts|, 5
  {
    match ParseRelation(ts)
    case NoParse => NoParse
    case Ok(e, rest) => AndTail(e, rest)
  }

  function AndTail(acc: Expr, ts: seq<Token>): (r: Parsed)
    ensures r.Ok? ==> |r.rest| <= |ts|
    decreases |ts|, 4
  {
    if StartsWith(ts, AndAnd) then
      match ParseRelation(ts[1..])
      case NoParse => NoParse
      case Ok(e, rest) => AndTail(And(acc, e), rest)
    else Ok(acc, ts)
  }

  function ParseRelation(ts: seq<Token>): (r: Parsed)
    ensures r.Ok? ==> |r.rest| < |ts|
    decreases |ts|, 3
  {
    match ParseUnary(ts)
    case NoParse => NoParse
    case Ok(e, rest) => RelationTail(e, rest)
  }

  function RelationTail(acc: Expr, ts: seq<Token>): (r: Parsed)
    ensures r.Ok? ==> |r.rest| <= |ts|
    decreases |ts|, 2
  {
    if StartsWith(ts, EqEq) then
      match ParseUnary(ts[1..])
      case NoParse => NoParse
      case Ok(e, rest) => RelationTail(Eq(acc, e), rest)
    else Ok(acc, ts)
  }

  function ParseUnary(ts: seq<Token>): (r: Parsed)
    ensures r.Ok? ==> |r.rest| < |ts|
    decreases |ts|, 2
  {
    if StartsWith(ts, Bang) then
      match ParseUnary(ts[1..])
      case NoParse => NoParse
      case Ok(e, rest) => Ok(Not(e), rest)
    else
      match ParsePrimary(ts)
      case NoParse => NoParse
      case Ok(e, rest) => MemberTail(e, rest)
  }

  function MemberTail(acc: Expr, ts: seq<Token>): (r: Parsed)
    ensures r.Ok? ==> |r.rest| <= |ts|
    decreases |ts|, 1
  {
    if !StartsWith(ts, Dot) then Ok(acc, ts)
    else if |ts| < 2 || !ts[1].Id? then NoParse
    else if !StartsWith(ts[2..], LParen) then MemberTail(Select(acc, ts[1].name), ts[2..])
    else
      match ParseOr(ts[3..])
      case NoParse => NoParse
      case Ok(arg, rest) =>
        if StartsWith(rest, RParen) then MemberTail(Call(acc, ts[1].name, arg), rest[1..]) else NoParse
  }

  function ParsePrimary(ts: seq<Token>): (r: Parsed)
    ensures r.Ok? ==> |r.rest| < |ts|
    decreases |ts|, 1
  {
    if ts == [] then NoParse
    else
      match ts[0]
      case Id(name) => Ok(Ident(name), ts[1..])
      case Text(value) => Ok(Str(value), ts[1..])
      case LParen =>
        (match ParseOr(ts[1..])
         case NoParse => NoParse
         case Ok(e, rest) => if StartsWith(rest, RParen) then Ok(e, rest[1..]) else NoParse)
      case _ => NoParse
  }

  /** The expression a whole text denotes, if it lexes and parses to the end. */
  function Parse(text: string): Option<Expr> {
    match Lex(text)
    case None => None
    case Some(ts) =>
      match ParseOr(ts)
      case NoParse => None
      case Ok(e, rest) => if rest == [] then Some(e) else None
  }

  // -------------------------------------------------------------- evaluator

  datatype Value = Bool(b: bool) | String(s: string) | McpVar | ToolVar | Error

  /** Evaluation where the only variable is `mcp`, and `mcp.tool.name` is `tool`. */
  ghost function Eval(e: Expr, tool: string): Value {
    match e
    case Ident(name) => if name == "mcp" then McpVar else Error
    case Str(value) => String(value)
    case Select(of, field) =>
      (match Eval(of, tool)
       case McpVar => if field == "tool" then ToolVar else Error
       case ToolVar => if field == "name" then String(tool) else Error
       case _ => Error)
    case Call(on, m, arg) =>
      (match (Eval(on, tool), Eval(arg, tool))
       case (String(s), String(p)) =>
         if m != "matches" then Error
         else
           (match Regex.Parse(p)
            case None => Error
            case Some(re) => Bool(Regex.Search(re, s)))
       case _ => Error)
    case Eq(l, r) =>
      var (x, y) := (Eval(l, tool), Eval(r, tool));
      if x == Error || y == Error then Error else Bool(x == y)
    case Not(f) =>
      (match Eval(f, tool)
       case Bool(b) => Bool(!b)
       case _ => Error)
    case And(l, r) =>
      // the logical operators absorb an error when the other side decides
      var (x, y) := (Eval(l, tool), Eval(r, tool));
      if x == Bool(false) || y == Bool(false) then Bool(false)
      else if x == Bool(true) && y == Bool(true) then Bool(true)
      else Error
    case Or(l, r) =>
      var (x, y) := (Eval(l, tool), Eval(r, tool));
      if x == Bool(true) || y == Bool(true) then Bool(true)
      else if x == Bool(false) && y == Bool(false) then Bool(false)
      else Error
  }

  /** What one rule text says about a tool name: None when the text is no CEL
      expression of the fragment or does not evaluate to a boolean. */
  ghost function Verdict(text: string, tool: string): Option<bool> {
    match Parse(text)
    case None => None
    case Some(e) =>
      match Eval(e, tool)
      case Bool(b) => Some(b)
      case _ => None
  }
}
