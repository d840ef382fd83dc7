/** CEL text assembled from words, operators, literals and single spaces, and the
    one lemma that lexes any such text. */
module CelPieces {
  import opened Wrappers
  import opened Glob
  import opened Cel
  import opened ToolFilter
  import opened CelLiteral

  datatype Piece = Gap | Word(w: string) | Op(o: Token) | Literal(s: string)

  function OperatorText(o: Token): string {
    match o
    case Dot => "." case EqEq => "==" case OrOr => "||" case AndAnd => "&&"
    case Bang => "!" case LParen => "(" case RParen => ")"
    case _ => ""
  }

  predicate ValidPiece(p: Piece) {
    match p
    case Word(w) => w != "" && IsIdStart(w[0]) && forall i | 0 <= i < |w| :: IsIdChar(w[i])
    case Op(o) => !o.Id? && !o.Text?
    case _ => true
  }

  /** Whether `q` may stand directly behind `p` without changing how `p` lexes. */
  predicate MayFollow(p: Piece, q: Piece) {
    match p
    case Word(_) => q.Gap? || q.Op?
    case Literal(_) => q.Gap? || q.Op?
    case Op(o) => o == Bang ==> q != Op(EqEq)
    case Gap => true
  }

  predicate Fine(ps: seq<Piece>) {
    && (forall i | 0 <= i < |ps| :: ValidPiece(ps[i]))
    && (forall i | 0 <= i < |ps| - 1 :: MayFollow(ps[i], ps[i + 1]))
  }

  function Show(p: Piece): string {
    match p
    case Gap => " "
    case Word(w) => w
    case Op(o) => OperatorText(o)
    case Literal(s) => CelEscape(s)
  }

  function TokenOf(p: Piece): seq<Token> {
    match p
    case Gap => []
    case Word(w) => [Id(w)]
    case Op(o) => [o]
    case Literal(s) => [Text(s)]
  }

  function Concat(ps: seq<Piece>): string {
    if ps == [] then "" else Show(ps[0]) + Concat(ps[1..])
  }

  function Tokens(ps: seq<Piece>): seq<Token> {
    if ps == [] then [] else TokenOf(ps[0]) + Tokens(ps[1..])
  }

  predicate LiteralsLex(ps: seq<Piece>) {
    forall i | 0 <= i < |ps| :: ps[i].Literal? ==> NoLineBreak(ps[i].s)
  }

  // ------------------------------------------------------------------ lexing

  lemma {:induction false} IdLengthOf(word: string, t: string)
    requires forall i | 0 <= i < |word| :: IsIdChar(word[i])
    requires t == "" || !IsIdChar(t[0])
    ensures IdLength(word + t) == |word|
  {
    var s := word + t;
    if word == "" {
      assert s == t;
    } else {
      assert s[1..] == word[1..] + t;
      IdLengthOf(word[1..], t);
    }
  }

  lemma LexWord(w: string, t: string)
    requires ValidPiece(Word(w))
    requires t == "" || !IsIdChar(t[0])
    ensures Lex(w + t) == Prepend([Id(w)], Lex(t))
  {
    IdLengthOf(w, t);
    assert (w + t)[..|w|] == w && (w + t)[|w|..] == t;
  }

  lemma LexOperator(o: Token, t: string)
    requires ValidPiece(Op(o))
    requires o == Bang ==> t == "" || t[0] != '='
    ensures Lex(OperatorText(o) + t) == Prepend([o], Lex(t))
  {
    if o == EqEq || o == OrOr || o == AndAnd {
      LexLongOperator(o, t);
    } else {
      LexShortOperator(o, t);
    }
  }

  lemma LexShortOperator(o: Token, t: string)
    requires o == Dot || o == LParen || o == RParen || o == Bang
    requires o == Bang ==> t == "" || t[0] != '='
    ensures Lex(OperatorText(o) + t) == Prepend([o], Lex(t))
  {
    var s := OperatorText(o) + t;
    assert s[0] == (match o case Dot => '.' case LParen => '(' case RParen => ')' case _ => '!');
    assert s[1..] == t;
  }

  lemma LexLongOperator(o: Token, t: string)
    requires o == EqEq || o == OrOr || o == AndAnd
    ensures Lex(OperatorText(o) + t) == Prepend([o], Lex(t))
  {
    var s := OperatorText(o) + t;
    var c := match o case EqEq => '=' case OrOr => '|' case _ => '&';
    assert s[0] == c && s[1] == c;
    assert s[2..] == t;
  }

  lemma LexGap(t: string)
    ensures Lex(" " + t) == Prepend([], Lex(t))
  {
    assert (" " + t)[1..] == t;
    if Lex(t).Some? { assert [] + Lex(t).value == Lex(t).value; }
  }

  lemma LexLiteral(s: string, t: string)
    requires t == "" || t[0] != '"'
    ensures Lex(CelEscape(s) + t) == if NoLineBreak(s) then Prepend([Text(s)], Lex(t)) else None
  {
    LiteralRoundTrip(s, t);
  }

  /** What can be seen of the text behind a piece. */
  lemma FirstCharacter(ps: seq<Piece>)
    requires Fine(ps) && ps != []
    ensures var t := Concat(ps);
            && t != ""
            && (ps[0].Gap? || ps[0].Op? ==> !IsIdChar(t[0]) && t[0] != '"')
            && (ps[0] != Op(EqEq) ==> t[0] != '=')
  {
    match ps[0] {
      case Literal(s) => LiteralRoundTrip(s, Concat(ps[1..]));
      case _ =>
    }
  }

  lemma LiteralsLexCons(ps: seq<Piece>)
    requires ps != []
    ensures LiteralsLex(ps) <==> (ps[0].Literal? ==> NoLineBreak(ps[0].s)) && LiteralsLex(ps[1..])
  {
    assert forall i | 1 <= i < |ps| :: ps[i] == ps[1..][i - 1];
    if LiteralsLex(ps) {
      var tail := ps[1..];
      assert forall i | 0 <= i < |tail| :: tail[i] == ps[i + 1];
    }
  }

  /** The text lexes to the tokens of its pieces; it does not lex at all exactly
      when a literal holds a raw line break. */
  lemma {:induction false} LexPieces(ps: seq<Piece>)
    requires Fine(ps)
    ensures Lex(Concat(ps)) == if LiteralsLex(ps) then Some(Tokens(ps)) else None
  {
    if ps != [] {
      var p, rest, t := ps[0], ps[1..], Concat(ps[1..]);
      LexPieces(rest);
      LiteralsLexCons(ps);
      if rest != [] {
        FirstCharacter(rest);
        assert MayFollow(ps[0], ps[1]);
      }
      match p {
        case Gap => LexGap(t);
        case Word(w) => LexWord(w, t);
        case Op(o) => LexOperator(o, t);
        case Literal(s) => LexLiteral(s, t);
      }
    }
  }

  // ------------------------------------------------------------ concatenation

  lemma FineAppend(a: seq<Piece>, b: seq<Piece>)
    requires Fine(a) && Fine(b)
    requires a != [] && b != [] ==> MayFollow(a[|a| - 1], b[0])
    ensures Fine(a + b)
  {
    var ab := a + b;
    forall i | 0 <= i < |ab| - 1 ensures MayFollow(ab[i], ab[i + 1]) {
      if i + 1 < |a| {
        assert MayFollow(a[i], a[i + 1]);
      } else if i >= |a| {
        assert MayFollow(b[i - |a|], b[i - |a| + 1]);
      }
    }
  }

  lemma {:induction false} ConcatAppend(a: seq<Piece>, b: seq<Piece>)
    ensures Concat(a + b) == Concat(a) + Concat(b)
  {
    if a == [] {
      assert a + b == b;
    } else {
      assert (a + b)[1..] == a[1..] + b;
      ConcatAppend(a[1..], b);
    }
  }

  lemma {:induction false} TokensAppend(a: seq<Piece>, b: seq<Piece>)
    ensures Tokens(a + b) == Tokens(a) + Tokens(b)
  {
    if a == [] {
      assert a + b == b;
    } else {
      assert (a + b)[1..] == a[1..] + b;
      TokensAppend(a[1..], b);
    }
  }

  lemma LiteralsLexAppend(a: seq<Piece>, b: seq<Piece>)
    ensures LiteralsLex(a + b) <==> LiteralsLex(a) && LiteralsLex(b)
  {
    var ab := a + b;
    if LiteralsLex(ab) {
      assert forall i | 0 <= i < |a| :: a[i] == ab[i];
      assert forall i | 0 <= i < |b| :: b[i] == ab[|a| + i];
    }
  }

  lemma ConcatOne(a: Piece)
    ensures Concat([a]) == Show(a)
  {
    assert [a][1..] == [];
    assert Concat([a]) == Show(a) + Concat([]);
  }

  lemma ConcatCons(a: Piece, ps: seq<Piece>)
    ensures Concat([a] + ps) == Show(a) + Concat(ps)
  {
    assert ([a] + ps)[1..] == ps;
  }

  lemma ConcatThree(a: Piece, b: Piece, c: Piece)
    ensures Concat([a, b, c]) == Show(a) + (Show(b) + Show(c))
  {
    ConcatOne(c);
    ConcatCons(b, [c]);
    ConcatCons(a, [b, c]);
    assert [b, c] == [b] + [c] && [a, b, c] == [a] + [b, c];
  }

  lemma ConcatFour(a: Piece, b: Piece, c: Piece, d: Piece)
    ensures Concat([a, b, c, d]) == Show(a) + (Show(b) + (Show(c) + Show(d)))
  {
    ConcatThree(b, c, d);
    ConcatCons(a, [b, c, d]);
    assert [a, b, c, d] == [a] + [b, c, d];
  }

  lemma ConcatFive(a: Piece, b: Piece, c: Piece, d: Piece, e: Piece)
    ensures Concat([a, b, c, d, e]) == Show(a) + (Show(b) + (Show(c) + (Show(d) + Show(e))))
  {
    ConcatFour(b, c, d, e);
    ConcatCons(a, [b, c, d, e]);
    assert [a, b, c, d, e] == [a] + [b, c, d, e];
  }
}
