/** The part of the RE2 syntax that the operator emits: text anchors, literals,
    escaped punctuation, `.` and `*` on a single-character atom, with RE2's
    unanchored search.  Anything else is rejected by the parser. */
module Regex {
  import opened Wrappers

  datatype Atom = Lit(c: char) | AnyChar

  datatype Item = Begin | End | One(atom: Atom) | Many(atom: Atom)

  predicate AtomMatches(a: Atom, c: char) {
    match a
    case Lit(d) => c == d
    case AnyChar => c != '\n'  // without the s flag, `.` excludes line feed
  }

  ghost predicate Run(a: Atom, s: string, i: nat, k: nat) {
    i <= k <= |s| && forall j | i <= j < k :: AtomMatches(a, s[j])
  }

  /** `re` can consume exactly s[i..j]. */
  ghost predicate Accepts(re: seq<Item>, s: string, i: nat, j: nat)
    decreases |re|
  {
    if re == [] then
      i == j <= |s|
    else
      match re[0]
      case Begin => i == 0 && Accepts(re[1..], s, i, j)
      case End => i == |s| && Accepts(re[1..], s, i, j)
      case One(a) => i < |s| && AtomMatches(a, s[i]) && Accepts(re[1..], s, i + 1, j)
      case Many(a) => exists k: nat :: Run(a, s, i, k) && Accepts(re[1..], s, k, j)
  }

  /** Unanchored search, the meaning of CEL's `matches`. */
  ghost predicate Search(re: seq<Item>, s: string) {
    exists i: nat, j: nat :: Accepts(re, s, i, j)
  }

  /** The characters regexp.QuoteMeta puts a backslash in front of. */
  predicate IsMeta(c: char) {
    || c == '\\' || c == '.' || c == '+' || c == '*' || c == '?' || c == '(' || c == ')'
    || c == '|' || c == '[' || c == ']' || c == '{' || c == '}' || c == '^' || c == '$'
  }

  /** ASCII characters that are neither letters nor digits: after a backslash
      RE2 reads them as themselves. */
  predicate IsPunctuation(c: char) {
    '!' <= c <= '/' || ':' <= c <= '@' || '[' <= c <= '`' || '{' <= c <= '~'
  }

  datatype AtomParse = NoAtom | AtomAt(atom: Atom, rest: string)

  function ParseAtom(t: string): (r: AtomParse)
    ensures r.AtomAt? ==> |r.rest| < |t|
  {
    if t == "" then NoAtom
    else if t[0] == '.' then AtomAt(AnyChar, t[1..])
    else if t[0] == '\\' then
      if |t| > 1 && IsPunctuation(t[1]) then AtomAt(Lit(t[1]), t[2..]) else NoAtom
    else if IsMeta(t[0]) then NoAtom
    else AtomAt(Lit(t[0]), t[1..])
  }

  function Cons(i: Item, rest: Option<seq<Item>>): Option<seq<Item>> {
    match rest
    case None => None
    case Some(items) => Some([i] + items)
  }

  function Parse(t: string): Option<seq<Item>>
    decreases |t|
  {
    if t == "" then Some([])
    else if t[0] == '^' then Cons(Begin, Parse(t[1..]))
    else if t[0] == '$' then Cons(End, Parse(t[1..]))
    else
      match ParseAtom(t)
      case NoAtom => None
      case AtomAt(a, rest) =>
        if rest != "" && rest[0] == '*' then Cons(Many(a), Parse(rest[1..]))
        else Cons(One(a), Parse(rest))
  }
}
