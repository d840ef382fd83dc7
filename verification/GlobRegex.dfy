/** Compilation of a glob to the text of an anchored regular expression. */
module GlobRegex {
  import opened Wrappers
  import opened Strings
  import opened Glob
  import opened Regex

  // ---------------------------------------------------------------- quoting

  function QuoteRune(c: char): string {
    if IsMeta(c) then ['\\', c] else [c]
  }

  /** regexp.QuoteMeta. */
  function QuoteMeta(s: string): string {
    if s == "" then "" else QuoteRune(s[0]) + QuoteMeta(s[1..])
  }

  lemma {:induction false} QuoteMetaAppend(s: string, t: string)
    ensures QuoteMeta(s + t) == QuoteMeta(s) + QuoteMeta(t)
  {
    if s == "" {
      assert s + t == t;
    } else {
      assert (s + t)[1..] == s[1..] + t;
      QuoteMetaAppend(s[1..], t);
    }
  }

  // ------------------------------------------------------------ compilation

  /** The regex text of one pattern character, with no buffering. */
  function RuneText(c: char): string {
    if c == '*' then ".*" else if c == '?' then "." else QuoteRune(c)
  }

  function BodyText(glob: string): string {
    if glob == "" then "" else RuneText(glob[0]) + BodyText(glob[1..])
  }

  function RegexText(glob: string): string {
    "^" + BodyText(glob) + "$"
  }

  lemma {:induction false} BodyTextSnoc(glob: string, c: char)
    ensures BodyText(glob + [c]) == BodyText(glob) + RuneText(c)
  {
    if glob == "" {
      assert glob + [c] == [c];
      assert BodyText([c]) == RuneText(c) + BodyText([]);
    } else {
      assert (glob + [c])[1..] == glob[1..] + [c];
      BodyTextSnoc(glob[1..], c);
    }
  }

  /** One more pattern character is one more piece of quoted text, wherever the
      text so far has been split into written and buffered. */
  lemma AppendRune(written: string, literal: string, glob: string, c: char)
    requires written + QuoteMeta(literal) == "^" + BodyText(glob)
    ensures written + QuoteMeta(literal) + RuneText(c) == "^" + BodyText(glob + [c])
    ensures !IsWild(c) ==> written + QuoteMeta(literal + [c]) == "^" + BodyText(glob + [c])
  {
    BodyTextSnoc(glob, c);
    Associate("^", BodyText(glob), RuneText(c));
    if !IsWild(c) {
      QuoteMetaAppend(literal, [c]);
      QuoteMetaOne(c);
      Associate(written, QuoteMeta(literal), QuoteRune(c));
    }
  }

  lemma QuoteMetaOne(c: char)
    ensures QuoteMeta([c]) == QuoteRune(c)
  {
    assert [c][1..] == "";
    assert QuoteMeta([c]) == QuoteRune(c) + QuoteMeta("");
  }

  /** The translation with its two buffers: `literal` collects a run of plain
      characters that is quoted as a whole when a wildcard or the end is reached. */
  method GlobToRegex(glob: string) returns (regex: string)
    ensures regex == RegexText(glob)
  {
    var b := "^";
    var literal := "";
    for i := 0 to |glob|
      invariant b + QuoteMeta(literal) == "^" + BodyText(glob[..i])
    {
      var r := glob[i];
      assert glob[..i + 1] == glob[..i] + [r];
      AppendRune(b, literal, glob[..i], r);
      if r == '*' {
        b, literal := Flush(b, literal);
        b := b + ".*";
      } else if r == '?' {
        b, literal := Flush(b, literal);
        b := b + ".";
      } else {
        literal := literal + [r];
      }
    }
    assert glob[..|glob|] == glob;
    b, literal := Flush(b, literal);
    b := b + "$";
    return b;
  }

  /** The flushLiteral closure: it writes the quoted literal and resets the buffer. */
  method Flush(b: string, literal: string) returns (written: string, rest: string)
    ensures written == b + QuoteMeta(literal) && rest == ""
  {
    written, rest := b, literal;
    if |literal| > 0 {
      written := b + QuoteMeta(literal);
      rest := "";
    }
  }

  // ------------------------------------------------- the text as a regex

  function RuneItem(c: char): Item {
    if c == '*' then Many(AnyChar) else if c == '?' then One(AnyChar) else One(Lit(c))
  }

  function BodyItems(glob: string): seq<Item> {
    if glob == "" then [] else [RuneItem(glob[0])] + BodyItems(glob[1..])
  }

  /** No piece of generated text starts with a bare `*`, so no literal is ever
      read as repeated. */
  lemma BodyNeverStartsWithStar(glob: string)
    ensures (BodyText(glob) + "$")[0] != '*'
  {
    if glob != "" {
      assert RuneText(glob[0]) != "" && RuneText(glob[0])[0] != '*';
    }
  }

  /** One character's text is read back as one item, whatever follows. */
  lemma ParseRune(c: char, rest: string)
    requires rest == "" || rest[0] != '*'
    ensures Parse(RuneText(c) + rest) == Cons(RuneItem(c), Parse(rest))
  {
    var t := RuneText(c) + rest;
    if c == '*' {
      assert t[0] == '.' && t[1] == '*' && t[1..][1..] == rest;
      assert ParseAtom(t) == AtomAt(AnyChar, t[1..]);
    } else if c == '?' {
      assert t[0] == '.' && t[1..] == rest;
    } else if IsMeta(c) {
      assert t[0] == '\\' && t[1] == c && t[2..] == rest;
      assert ParseAtom(t) == AtomAt(Lit(c), rest);
    } else {
      assert t[0] == c && t[1..] == rest;
      assert ParseAtom(t) == AtomAt(Lit(c), rest);
    }
  }

  lemma {:induction false} ParseBody(glob: string)
    ensures Parse(BodyText(glob) + "$") == Some(BodyItems(glob) + [End])
  {
    if glob == "" {
      assert BodyText(glob) + "$" == "$";
      assert Parse("$") == Cons(End, Parse("$"[1..]));
      assert "$"[1..] == "" && BodyItems(glob) + [End] == [End] + [];
    } else {
      var c, rest := glob[0], BodyText(glob[1..]) + "$";
      ParseBody(glob[1..]);
      BodyNeverStartsWithStar(glob[1..]);
      ParseRune(c, rest);
      assert BodyText(glob) + "$" == RuneText(c) + rest;
      assert BodyItems(glob) + [End] == [RuneItem(c)] + (BodyItems(glob[1..]) + [End]);
    }
  }

  /** The generated text is read back as begin anchor, one item per pattern
      character, end anchor. */
  lemma RegexTextFaithful(glob: string)
    ensures Parse(RegexText(glob)) == Some([Begin] + BodyItems(glob) + [End])
  {
    ParseBody(glob);
    assert RegexText(glob) == "^" + (BodyText(glob) + "$");
    assert RegexText(glob)[1..] == BodyText(glob) + "$";
    assert [Begin] + BodyItems(glob) + [End] == [Begin] + (BodyItems(glob) + [End]);
  }

  // --------------------------------------------------- search equals glob

  lemma {:induction false} BodyAcceptsIffMatches(glob: string, s: string, i: nat, j: nat)
    requires i <= |s|
    ensures Accepts(BodyItems(glob) + [End], s, i, j) <==> j == |s| && MatchesInLine(glob, s[i..])
    decreases |glob|
  {
    var re := BodyItems(glob) + [End];
    if glob == "" {
      assert re == [End];
      assert re[1..] == [];
    } else {
      assert re[0] == RuneItem(glob[0]) && re[1..] == BodyItems(glob[1..]) + [End];
      if glob[0] == '*' {
        StarAcceptsIffMatches(glob, s, i, j);
      } else if i < |s| {
        BodyAcceptsIffMatches(glob[1..], s, i + 1, j);
        assert s[i..][1..] == s[i + 1..];
      }
    }
  }

  /** A run of any characters is a stretch without a line feed. */
  lemma RunIsInLine(s: string, i: nat, k: nat)
    requires i <= k <= |s|
    ensures Run(AnyChar, s, i, k) <==> NoLineFeed(s[i..][..k - i])
  {
    var t := s[i..][..k - i];
    if Run(AnyChar, s, i, k) {
      forall m | 0 <= m < |t| ensures t[m] != '\n' { assert t[m] == s[i + m]; }
    }
    if NoLineFeed(t) {
      forall m | i <= m < k ensures AtomMatches(AnyChar, s[m]) { assert t[m - i] == s[m]; }
    }
  }

  lemma {:induction false} StarAcceptsIffMatches(glob: string, s: string, i: nat, j: nat)
    requires glob != "" && glob[0] == '*' && i <= |s|
    ensures Accepts(BodyItems(glob) + [End], s, i, j) <==> j == |s| && MatchesInLine(glob, s[i..])
    decreases |glob|, 0
  {
    var re, tail := BodyItems(glob) + [End], BodyItems(glob[1..]) + [End];
    assert re[0] == Many(AnyChar) && re[1..] == tail;
    forall k: nat | i <= k <= |s|
      ensures Accepts(tail, s, k, j) <==> j == |s| && MatchesInLine(glob[1..], s[k..])
    {
      BodyAcceptsIffMatches(glob[1..], s, k, j);
    }
    if Accepts(re, s, i, j) {
      var k: nat :| Run(AnyChar, s, i, k) && Accepts(tail, s, k, j);
      StarMatches(glob, s, i, k);
    }
    if j == |s| && MatchesInLine(glob, s[i..]) {
      var k := StarRun(glob, s, i);
      assert Run(AnyChar, s, i, k) && Accepts(tail, s, k, j);
    }
  }

  lemma StarMatches(glob: string, s: string, i: nat, k: nat)
    requires glob != "" && glob[0] == '*' && Run(AnyChar, s, i, k) && MatchesInLine(glob[1..], s[k..])
    ensures MatchesInLine(glob, s[i..])
  {
    RunIsInLine(s, i, k);
    assert s[i..][k - i..] == s[k..];
  }

  lemma StarRun(glob: string, s: string, i: nat) returns (k: nat)
    requires glob != "" && glob[0] == '*' && i <= |s| && MatchesInLine(glob, s[i..])
    ensures Run(AnyChar, s, i, k) && MatchesInLine(glob[1..], s[k..])
  {
    var m :| 0 <= m <= |s[i..]| && NoLineFeed(s[i..][..m]) && MatchesInLine(glob[1..], s[i..][m..]);
    k := i + m;
    assert s[i..][m..] == s[k..];
    RunIsInLine(s, i, k);
  }

  /** Unanchored search with the generated regex is an exact match of the glob, for every
      glob and every name, except that a wildcard never covers a line feed. */
  lemma AnchoredSearch(glob: string, s: string)
    ensures Search([Begin] + BodyItems(glob) + [End], s) <==> MatchesInLine(glob, s)
  {
    var re := [Begin] + BodyItems(glob) + [End];
    assert re[0] == Begin && re[1..] == BodyItems(glob) + [End];
    assert s[0..] == s;
    forall j: nat ensures Accepts(re, s, 0, j) <==> j == |s| && MatchesInLine(glob, s) {
      BodyAcceptsIffMatches(glob, s, 0, j);
    }
    if MatchesInLine(glob, s) {
      assert Accepts(re, s, 0, |s|);
    }
  }

  /** For globs without a line feed that means: the glob matches, and the name has none. */
  lemma AnchoredSearchInLine(glob: string, s: string)
    requires NoLineFeed(glob)
    ensures Search([Begin] + BodyItems(glob) + [End], s) <==> Matches(glob, s) && NoLineFeed(s)
  {
    AnchoredSearch(glob, s);
    if NoLineFeed(s) {
      SameWithoutLineFeed(glob, s);
    } else if MatchesInLine(glob, s) {
      OnlyWithoutLineFeed(glob, s);
    }
  }
}
