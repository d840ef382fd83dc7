/** The two-pass escape of celEscape, read back by the CEL lexer. */
module CelLiteral {
  import opened Glob
  import opened Cel
  import opened ToolFilter

  /** What the two passes do to one character. */
  function EscapeRune(c: char): string {
    if c == '\\' then "\\\\" else if c == '"' then "\\\"" else [c]
  }

  function EscapeRunes(s: string): string {
    if s == "" then "" else EscapeRune(s[0]) + EscapeRunes(s[1..])
  }

  lemma {:induction false} ReplaceAllAppend(s: string, t: string, from: char, into: string)
    ensures ReplaceAll(s + t, from, into) == ReplaceAll(s, from, into) + ReplaceAll(t, from, into)
  {
    if s == "" {
      assert s + t == t;
    } else {
      assert (s + t)[1..] == s[1..] + t;
      ReplaceAllAppend(s[1..], t, from, into);
    }
  }

  /** The second pass does not disturb what the first one wrote: together they
      escape every character on its own. */
  lemma {:induction false} TwoPassesAreOne(s: string)
    ensures ReplaceAll(ReplaceAll(s, '\\', "\\\\"), '"', "\\\"") == EscapeRunes(s)
  {
    if s != "" {
      var first := if s[0] == '\\' then "\\\\" else [s[0]];
      var rest := ReplaceAll(s[1..], '\\', "\\\\");
      TwoPassesAreOne(s[1..]);
      ReplaceAllAppend(first, rest, '"', "\\\"");
      SecondPassOnRune(s[0]);
    }
  }

  lemma SecondPassOnRune(c: char)
    ensures ReplaceAll(if c == '\\' then "\\\\" else [c], '"', "\\\"") == EscapeRune(c)
  {
    var one := [c];
    assert one[1..] == "";
    assert ReplaceAll(one, '"', "\\\"") == (if c == '"' then "\\\"" else [c]) + ReplaceAll("", '"', "\\\"");
    var two := "\\\\";
    assert two[1..] == "\\" && two[1..][1..] == "";
    assert ReplaceAll("\\", '"', "\\\"") == "\\" + ReplaceAll("\\"[1..], '"', "\\\"");
    assert ReplaceAll(two, '"', "\\\"") == "\\" + ReplaceAll("\\", '"', "\\\"");
  }

  /** One escaped character is read back as that character. */
  lemma LexOneRune(c: char, t: string)
    ensures LexChars(EscapeRune(c) + t) == if c == '\n' || c == '\r' then BadText else Push(c, LexChars(t))
  {
    var e := EscapeRune(c) + t;
    if c == '\\' || c == '"' {
      assert e[0] == '\\' && e[1] == c && e[2..] == t;
    } else {
      assert e[0] == c && e[1..] == t;
    }
  }

  lemma {:induction false} LexEscapedRunes(s: string, suffix: string)
    ensures LexChars(EscapeRunes(s) + "\"" + suffix)
            == if NoLineBreak(s) then TextAt(s, suffix) else BadText
  {
    var t := EscapeRunes(s) + "\"" + suffix;
    if s == "" {
      assert t[0] == '"' && t[1..] == suffix;
    } else {
      var rest := EscapeRunes(s[1..]) + "\"" + suffix;
      assert t == EscapeRune(s[0]) + rest;
      LexOneRune(s[0], rest);
      LexEscapedRunes(s[1..], suffix);
      NoLineBreakCons(s);
      assert [s[0]] + s[1..] == s;
    }
  }

  lemma NoLineBreakCons(s: string)
    requires s != ""
    ensures NoLineBreak(s) <==> s[0] != '\n' && s[0] != '\r' && NoLineBreak(s[1..])
  {
    assert forall i | 1 <= i < |s| :: s[i] == s[1..][i - 1];
  }

  /** The literal for `s` in front of `suffix` is read back as exactly `s` and
      `suffix` when `s` has no line break; the one other exception is the empty
      literal directly in front of a double quote, which opens three quotes. */
  predicate LiteralReadsBack(s: string, suffix: string) {
    NoLineBreak(s) && !(s == "" && suffix != "" && suffix[0] == '"')
  }

  lemma LiteralRoundTrip(s: string, suffix: string)
    ensures var t := CelEscape(s) + suffix;
            && t != "" && t[0] == '"'
            && LexText(t) == if LiteralReadsBack(s, suffix) then TextAt(s, suffix) else BadText
  {
    TwoPassesAreOne(s);
    var t := CelEscape(s) + suffix;
    var inside := EscapeRunes(s) + "\"" + suffix;
    assert t == "\"" + inside;
    assert t[1..] == inside;
    LexEscapedRunes(s, suffix);
    if s == "" {
      assert inside == "\"" + suffix;
    } else {
      assert EscapeRunes(s)[0] == EscapeRune(s[0])[0] != '"';
      assert inside[0] == EscapeRunes(s)[0];
    }
  }
}
