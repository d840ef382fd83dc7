/** What an allow/deny pattern of a ToolFilter means: `*` stands for any run of
    characters, `?` for exactly one character, everything else for itself.
    This is the reference the generated CEL text is measured against. */
module Glob {

  predicate IsWild(c: char) {
    c == '*' || c == '?'
  }

  /** The whole of `name` matches the whole of `pattern`. */
  ghost predicate Matches(pattern: string, name: string)
    decreases |pattern|
  {
    if pattern == "" then
      name == ""
    else if pattern[0] == '*' then
      exists k :: 0 <= k <= |name| && Matches(pattern[1..], name[k..])
    else if pattern[0] == '?' then
      name != "" && Matches(pattern[1..], name[1..])
    else
      name != "" && name[0] == pattern[0] && Matches(pattern[1..], name[1..])
  }

  /** A pattern in two parts matches what can be split accordingly. */
  lemma {:induction false} MatchesAppend(p: string, q: string, name: string)
    ensures Matches(p + q, name) <==> exists k :: 0 <= k <= |name| && Matches(p, name[..k]) && Matches(q, name[k..])
    decreases |p|
  {
    if p == "" {
      assert p + q == q && name[..0] == "" && name[0..] == name;
      assert Matches(p, name[..0]);
    } else {
      assert (p + q)[0] == p[0] && (p + q)[1..] == p[1..] + q;
      if p[0] == '*' { StarAppend(p, q, name); } else { OneAppend(p, q, name); }
    }
  }

  lemma {:induction false} StarAppend(p: string, q: string, name: string)
    requires p != "" && p[0] == '*' && (p + q)[1..] == p[1..] + q
    ensures Matches(p + q, name) <==> exists k :: 0 <= k <= |name| && Matches(p, name[..k]) && Matches(q, name[k..])
    decreases |p|, 0
  {
    if Matches(p + q, name) {
      var i :| 0 <= i <= |name| && Matches(p[1..] + q, name[i..]);
      MatchesAppend(p[1..], q, name[i..]);
      var m :| 0 <= m <= |name[i..]| && Matches(p[1..], name[i..][..m]) && Matches(q, name[i..][m..]);
      assert name[..i + m][i..] == name[i..][..m] && name[i..][m..] == name[i + m..];
      assert Matches(p, name[..i + m]);
    }
    if k :| 0 <= k <= |name| && Matches(p, name[..k]) && Matches(q, name[k..]) {
      var i :| 0 <= i <= |name[..k]| && Matches(p[1..], name[..k][i..]);
      assert name[..k][i..] == name[i..][..k - i] && name[i..][k - i..] == name[k..];
      MatchesAppend(p[1..], q, name[i..]);
    }
  }

  lemma {:induction false} OneAppend(p: string, q: string, name: string)
    requires p != "" && p[0] != '*' && (p + q)[0] == p[0] && (p + q)[1..] == p[1..] + q
    ensures Matches(p + q, name) <==> exists k :: 0 <= k <= |name| && Matches(p, name[..k]) && Matches(q, name[k..])
    decreases |p|, 0
  {
    if name != "" {
      MatchesAppend(p[1..], q, name[1..]);
      if Matches(p + q, name) {
        var m :| 0 <= m <= |name[1..]| && Matches(p[1..], name[1..][..m]) && Matches(q, name[1..][m..]);
        assert name[..m + 1][1..] == name[1..][..m] && name[1..][m..] == name[m + 1..];
        assert Matches(p, name[..m + 1]);
      }
      if k :| 0 <= k <= |name| && Matches(p, name[..k]) && Matches(q, name[k..]) {
        assert name[..k][1..] == name[1..][..k - 1] && name[1..][k - 1..] == name[k..];
      }
    }
  }

  /** The pieces a pattern is made of: `*` matches everything, `?` any one character, any
      other character itself. */
  lemma PieceMatches(c: char, name: string)
    ensures Matches([c], name) <==>
            if c == '*' then true else if c == '?' then |name| == 1 else name == [c]
  {
    assert [c][1..] == "";
    if c == '*' { assert Matches("", name[|name|..]); }
  }

  /** The same, but no wildcard covers a line feed. */
  ghost predicate MatchesInLine(pattern: string, name: string)
    decreases |pattern|
  {
    if pattern == "" then
      name == ""
    else if pattern[0] == '*' then
      exists k :: 0 <= k <= |name| && NoLineFeed(name[..k]) && MatchesInLine(pattern[1..], name[k..])
    else if pattern[0] == '?' then
      name != "" && name[0] != '\n' && MatchesInLine(pattern[1..], name[1..])
    else
      name != "" && name[0] == pattern[0] && MatchesInLine(pattern[1..], name[1..])
  }

  /** On names without a line feed that makes no difference. */
  lemma {:induction false} SameWithoutLineFeed(pattern: string, name: string)
    requires NoLineFeed(name)
    ensures MatchesInLine(pattern, name) <==> Matches(pattern, name)
  {
    if pattern != "" {
      if pattern[0] == '*' {
        forall k | 0 <= k <= |name|
          ensures MatchesInLine(pattern[1..], name[k..]) <==> Matches(pattern[1..], name[k..])
        {
          SameWithoutLineFeed(pattern[1..], name[k..]);
        }
      } else if name != "" {
        SameWithoutLineFeed(pattern[1..], name[1..]);
      }
    }
  }

  /** A pattern without a line feed matches, in this sense, only names without one. */
  lemma {:induction false} OnlyWithoutLineFeed(pattern: string, name: string)
    requires NoLineFeed(pattern) && MatchesInLine(pattern, name)
    ensures NoLineFeed(name)
  {
    if pattern != "" {
      if pattern[0] == '*' {
        var k :| 0 <= k <= |name| && NoLineFeed(name[..k]) && MatchesInLine(pattern[1..], name[k..]);
        OnlyWithoutLineFeed(pattern[1..], name[k..]);
        assert name == name[..k] + name[k..];
      } else {
        OnlyWithoutLineFeed(pattern[1..], name[1..]);
        assert name == [name[0]] + name[1..];
      }
    }
  }

  /** A pattern without wildcards matches exactly itself. */
  lemma {:induction false} PlainMatchesItself(pattern: string, name: string)
    requires forall c | c in pattern :: !IsWild(c)
    ensures Matches(pattern, name) <==> name == pattern
  {
    if pattern != "" {
      assert pattern[0] in pattern;
      if name != "" {
        PlainMatchesItself(pattern[1..], name[1..]);
        assert name == [name[0]] + name[1..];
        assert pattern == [pattern[0]] + pattern[1..];
      }
    }
  }

  predicate NoLineFeed(s: string) {
    forall i | 0 <= i < |s| :: s[i] != '\n'
  }

  predicate NoLineBreak(s: string) {
    forall i | 0 <= i < |s| :: s[i] != '\n' && s[i] != '\r'
  }
}
