/** The OTLP headers variable: JSON, or comma-separated key=value pairs with
    arbitrary white space around keys, values and pairs. */
module Headers {
  import opened Wrappers

  // ------------------------------------------------------------------ strings

  /** unicode.IsSpace. */
  predicate IsSpace(c: char) {
    || '\t' <= c <= '\r' || c == ' ' || c == '\U{0085}' || c == '\U{00A0}' || c == '\U{1680}'
    || '\U{2000}' <= c <= '\U{200A}' || c == '\U{2028}' || c == '\U{2029}' || c == '\U{202F}'
    || c == '\U{205F}' || c == '\U{3000}'
  }

  function TrimLeft(s: string): string {
    if s != "" && IsSpace(s[0]) then TrimLeft(s[1..]) else s
  }

  function TrimRight(s: string): string {
    if s != "" && IsSpace(s[|s| - 1]) then TrimRight(s[..|s| - 1]) else s
  }

  function TrimSpace(s: string): string {
    TrimRight(TrimLeft(s))
  }

  predicate Has(s: string, c: char) {
    exists i :: 0 <= i < |s| && s[i] == c
  }

  /** Index of the first `c`, or |s|. */
  function IndexOf(s: string, c: char): (n: nat)
    ensures n <= |s|
    ensures forall i | 0 <= i < n :: s[i] != c
    ensures n < |s| ==> s[n] == c
    ensures n < |s| <==> Has(s, c)
  {
    if s == "" then 0
    else if s[0] == c then 0
    else
      var n := IndexOf(s[1..], c);
      assert n < |s[1..]| ==> s[n + 1] == c;
      assert Has(s, c) ==> Has(s[1..], c) by {
        if Has(s, c) {
          var i :| 0 <= i < |s| && s[i] == c;
          assert s[1..][i - 1] == c;
        }
      }
      n + 1
  }

  /** strings.Split on a one-character separator. */
  function Split(s: string, sep: char): (r: seq<string>)
    ensures r != []
    decreases |s|
  {
    var n := IndexOf(s, sep);
    if n == |s| then [s] else [s[..n]] + Split(s[n + 1..], sep)
  }

  function Join(segs: seq<string>, sep: char): string {
    if segs == [] then "" else if |segs| == 1 then segs[0] else segs[0] + [sep] + Join(segs[1..], sep)
  }

  // ------------------------------------------------------------------ parsing

  /** One segment: trimmed, split at the first `=`, both sides trimmed. */
  function ParsePair(segment: string): Option<(string, string)> {
    var pair := TrimSpace(segment);
    var n := IndexOf(pair, '=');
    if n == |pair| then None else Some((TrimSpace(pair[..n]), TrimSpace(pair[n + 1..])))
  }

  function ParsePairs(segs: seq<string>): map<string, string> {
    if segs == [] then map[]
    else
      var m := ParsePairs(segs[..|segs| - 1]);
      match ParsePair(segs[|segs| - 1])
      case None => m
      case Some((k, v)) => m[k := v]
  }

  /** The JSON decoder, as far as it matters here: None when the text is not a JSON
      object of strings (or null, which decodes to no headers). */
  type JsonDecoder = string -> Option<map<string, string>>

  function HeadersOf(json: JsonDecoder, headers: string): map<string, string> {
    match json(headers)
    case Some(m) => m
    case None => ParsePairs(Split(headers, ','))
  }

  lemma ParsePairsSnoc(segs: seq<string>, segment: string)
    ensures ParsePairs(segs + [segment]) ==
            match ParsePair(segment)
            case None => ParsePairs(segs)
            case Some((k, v)) => ParsePairs(segs)[k := v]
  {
    assert (segs + [segment])[..|segs|] == segs;
  }

  method ParseHeaders(json: JsonDecoder, headers: string) returns (result: map<string, string>)
    ensures result == HeadersOf(json, headers)
    ensures json(headers).Some? ==> result == json(headers).value
    ensures json(headers).None? ==> result == ParsePairs(Split(headers, ','))
  {
    var decoded := json(headers);
    if decoded.Some? {
      return decoded.value;
    }
    var pairs := Split(headers, ',');
    result := ParseSegments(pairs);
  }

  method ParseSegments(pairs: seq<string>) returns (result: map<string, string>)
    ensures result == ParsePairs(pairs)
  {
    result := map[];
    for i := 0 to |pairs|
      invariant result == ParsePairs(pairs[..i])
    {
      assert pairs[..i + 1] == pairs[..i] + [pairs[i]];
      ParsePairsSnoc(pairs[..i], pairs[i]);
      var kv := SplitPair(pairs[i]);
      if kv.Some? {
        result := result[kv.value.0 := kv.value.1];
      }
    }
    assert pairs[..|pairs|] == pairs;
  }

  method SplitPair(segment: string) returns (kv: Option<(string, string)>)
    ensures kv == ParsePair(segment)
  {
    var pair := TrimSpace(segment);
    var n := IndexOf(pair, '=');
    if n < |pair| {
      return Some((TrimSpace(pair[..n]), TrimSpace(pair[n + 1..])));
    }
    return None;
  }

  // ----------------------------------------------------------------- trimming

  predicate Blank(s: string) {
    forall i | 0 <= i < |s| :: IsSpace(s[i])
  }

  predicate Trimmed(s: string) {
    s != "" ==> !IsSpace(s[0]) && !IsSpace(s[|s| - 1])
  }

  lemma {:induction false} TrimLeftBlank(w: string, s: string)
    requires Blank(w)
    ensures TrimLeft(w + s) == TrimLeft(s)
  {
    if w == "" {
      assert w + s == s;
    } else {
      assert (w + s)[1..] == w[1..] + s;
      TrimLeftBlank(w[1..], s);
    }
  }

  lemma {:induction false} TrimRightBlank(s: string, w: string)
    requires Blank(w)
    ensures TrimRight(s + w) == TrimRight(s)
  {
    if w == "" {
      assert s + w == s;
    } else {
      var t := s + w;
      assert t[|t| - 1] == w[|w| - 1] && t[..|t| - 1] == s + w[..|w| - 1];
      TrimRightBlank(s, w[..|w| - 1]);
    }
  }

  /** Text whose left end is not white space stays as it is on that side. */
  lemma {:induction false} TrimLeftKeeps(a: string, c: char, b: string)
    requires !IsSpace(c)
    ensures TrimLeft(a + [c] + b) == TrimLeft(a) + [c] + b
  {
    var s := a + [c] + b;
    if a == "" {
      assert s[0] == c;
    } else if IsSpace(a[0]) {
      assert s[1..] == a[1..] + [c] + b;
      TrimLeftKeeps(a[1..], c, b);
    }
  }

  lemma {:induction false} TrimRightKeeps(a: string, c: char, b: string)
    requires !IsSpace(c)
    ensures TrimRight(a + [c] + b) == a + [c] + TrimRight(b)
  {
    var s := a + [c] + b;
    if b == "" {
      assert s[|s| - 1] == c;
    } else if IsSpace(b[|b| - 1]) {
      assert s[..|s| - 1] == a + [c] + b[..|b| - 1];
      TrimRightKeeps(a, c, b[..|b| - 1]);
    }
  }

  lemma {:induction false} TrimLeftShape(s: string)
    ensures exists w: string :: Blank(w) && s == w + TrimLeft(s)
    ensures TrimLeft(s) != "" ==> !IsSpace(TrimLeft(s)[0])
  {
    if s != "" && IsSpace(s[0]) {
      TrimLeftShape(s[1..]);
      var w: string :| Blank(w) && s[1..] == w + TrimLeft(s[1..]);
      var w' := [s[0]] + w;
      assert s == w' + TrimLeft(s);
      assert Blank(w');
    } else {
      assert Blank("") && s == "" + s;
    }
  }

  lemma {:induction false} TrimRightShape(s: string)
    ensures exists w: string :: Blank(w) && s == TrimRight(s) + w
    ensures TrimRight(s) != "" ==> !IsSpace(TrimRight(s)[|TrimRight(s)| - 1])
  {
    if s != "" && IsSpace(s[|s| - 1]) {
      TrimRightShape(s[..|s| - 1]);
      var w: string :| Blank(w) && s[..|s| - 1] == TrimRight(s[..|s| - 1]) + w;
      var w' := w + [s[|s| - 1]];
      assert s == TrimRight(s) + w';
      assert Blank(w');
    } else {
      assert Blank("") && s == s + "";
    }
  }

  lemma TrimLeftIdempotent(s: string)
    ensures TrimLeft(TrimLeft(s)) == TrimLeft(s)
  {
    TrimLeftShape(s);
  }

  /** What is left after trimming starts and ends with no white space. */
  lemma TrimCore(v: string, core: string, w: string)
    requires Blank(v) && Blank(w) && Trimmed(core)
    ensures TrimSpace(v + (core + w)) == core
  {
    TrimLeftBlank(v, core + w);
    if core == "" {
      assert core + w == w + "";
      TrimLeftBlank(w, "");
    } else {
      assert (core + w)[0] == core[0];
      TrimRightBlank(core, w);
    }
  }

  /** The two sides can be trimmed in either order. */
  lemma TrimCommutes(s: string)
    ensures TrimLeft(TrimRight(s)) == TrimSpace(s)
  {
    TrimRightShape(s);
    var t := TrimRight(s);
    var w: string :| Blank(w) && s == t + w;
    TrimLeftShape(t);
    var core := TrimLeft(t);
    var v: string :| Blank(v) && t == v + core;
    assert s == v + (core + w);
    assert core != "" ==> core[|core| - 1] == t[|t| - 1];
    TrimCore(v, core, w);
  }

  lemma TrimRightIdempotent(s: string)
    ensures TrimRight(TrimRight(s)) == TrimRight(s)
  {
    TrimRightShape(s);
  }

  /** Trimming one side first does not change the trimmed text. */
  lemma TrimTwice(s: string)
    ensures TrimSpace(TrimLeft(s)) == TrimSpace(s)
    ensures TrimSpace(TrimRight(s)) == TrimSpace(s)
  {
    TrimLeftIdempotent(s);
    TrimCommutes(TrimRight(s));
    TrimRightIdempotent(s);
    TrimCommutes(s);
  }

  lemma TrimPadded(before: string, s: string, after: string)
    requires Blank(before) && Blank(after) && Trimmed(s)
    ensures TrimSpace(before + s + after) == s
  {
    assert before + s + after == before + (s + after);
    TrimCore(before, s, after);
  }

  /** What a segment yields: its text up to the first `=` and after it, trimmed. */
  lemma PairOf(a: string, b: string)
    requires !Has(a, '=')
    ensures ParsePair(a + "=" + b) == Some((TrimSpace(a), TrimSpace(b)))
  {
    var segment := a + ['='] + b;
    assert a + "=" + b == segment;
    TrimLeftKeeps(a, '=', b);
    TrimRightKeeps(TrimLeft(a), '=', b);
    var pair := TrimLeft(a) + ['='] + TrimRight(b);
    assert TrimSpace(segment) == pair;
    TrimLeftShape(a);
    var w: string :| Blank(w) && a == w + TrimLeft(a);
    var n := |TrimLeft(a)|;
    forall i | 0 <= i < n ensures pair[i] != '=' {
      assert pair[i] == a[|w| + i];
    }
    assert pair[n] == '=';
    assert IndexOf(pair, '=') == n;
    assert pair[..n] == TrimLeft(a) && pair[n + 1..] == TrimRight(b);
    TrimTwice(a);
    TrimTwice(b);
  }

  /** Dropped segments are exactly those without an `=`. */
  lemma DroppedIff(segment: string)
    ensures ParsePair(segment) == None <==> !Has(segment, '=')
  {
    var n := IndexOf(segment, '=');
    if n < |segment| {
      assert segment == segment[..n] + "=" + segment[n + 1..];
      PairOf(segment[..n], segment[n + 1..]);
    } else {
      TrimLeftShape(segment);
      TrimRightShape(TrimLeft(segment));
      var w: string :| Blank(w) && segment == w + TrimLeft(segment);
      var v: string :| Blank(v) && TrimLeft(segment) == TrimSpace(segment) + v;
      forall i | 0 <= i < |TrimSpace(segment)| ensures TrimSpace(segment)[i] != '=' {
        assert TrimSpace(segment)[i] == segment[|w| + i];
      }
    }
  }

  // --------------------------------------------------------------- round trip

  lemma {:induction false} IndexOfFirst(a: string, c: char, b: string)
    requires !Has(a, c)
    ensures IndexOf(a + [c] + b, c) == |a|
  {
    var s := a + [c] + b;
    assert s[|a|] == c;
    forall i | 0 <= i < |a| ensures s[i] != c { assert s[i] == a[i]; }
  }

  lemma SplitAt(a: string, sep: char, b: string)
    requires !Has(a, sep)
    ensures Split(a + [sep] + b, sep) == [a] + Split(b, sep)
  {
    var s := a + [sep] + b;
    IndexOfFirst(a, sep, b);
    assert s[..|a|] == a && s[|a| + 1..] == b;
  }

  lemma {:induction false} SplitJoin(segs: seq<string>, sep: char)
    requires segs != [] && forall i | 0 <= i < |segs| :: !Has(segs[i], sep)
    ensures Split(Join(segs, sep), sep) == segs
  {
    if |segs| == 1 {
      assert Join(segs, sep) == segs[0] && !Has(segs[0], sep);
    } else {
      var tail := segs[1..];
      assert forall i | 0 <= i < |tail| :: tail[i] == segs[i + 1];
      SplitJoin(tail, sep);
      SplitAt(segs[0], sep, Join(tail, sep));
      assert segs == [segs[0]] + tail;
    }
  }

  /** A header with the white space around its parts. */
  datatype Header = Header(key: string, value: string, w0: string, w1: string, w2: string, w3: string)

  predicate ValidHeader(h: Header) {
    && Blank(h.w0) && Blank(h.w1) && Blank(h.w2) && Blank(h.w3)
    && Trimmed(h.key) && !Has(h.key, ',') && !Has(h.key, '=')
    && Trimmed(h.value) && !Has(h.value, ',')
  }

  function Show(h: Header): string {
    h.w0 + h.key + h.w1 + "=" + (h.w2 + h.value + h.w3)
  }

  function Segments(hs: seq<Header>): (segs: seq<string>)
    ensures |segs| == |hs| && forall i | 0 <= i < |hs| :: segs[i] == Show(hs[i])
  {
    seq(|hs|, i requires 0 <= i < |hs| => Show(hs[i]))
  }

  function ShowAll(hs: seq<Header>): string {
    Join(Segments(hs), ',')
  }

  /** The last header of each key wins. */
  function LastWins(hs: seq<Header>): map<string, string> {
    if hs == [] then map[]
    else LastWins(hs[..|hs| - 1])[hs[|hs| - 1].key := hs[|hs| - 1].value]
  }

  lemma BlankHasNo(w: string, c: char)
    requires Blank(w) && !IsSpace(c)
    ensures !Has(w, c)
  {
  }

  lemma HasAppend(a: string, b: string, c: char)
    ensures Has(a + b, c) <==> Has(a, c) || Has(b, c)
  {
    if Has(a, c) { var i :| 0 <= i < |a| && a[i] == c; assert (a + b)[i] == c; }
    if Has(b, c) { var i :| 0 <= i < |b| && b[i] == c; assert (a + b)[|a| + i] == c; }
  }

  lemma ShowParses(h: Header)
    requires ValidHeader(h)
    ensures ParsePair(Show(h)) == Some((h.key, h.value)) && !Has(Show(h), ',')
  {
    var a, b := h.w0 + h.key + h.w1, h.w2 + h.value + h.w3;
    forall c | c == ',' || c == '='
      ensures !Has(a, c) && (c == ',' ==> !Has(b, c))
    {
      BlankHasNo(h.w0, c); BlankHasNo(h.w1, c); BlankHasNo(h.w2, c); BlankHasNo(h.w3, c);
      HasAppend(h.w0, h.key, c); HasAppend(h.w0 + h.key, h.w1, c);
      HasAppend(h.w2, h.value, c); HasAppend(h.w2 + h.value, h.w3, c);
    }
    PairOf(a, b);
    TrimPadded(h.w0, h.key, h.w1);
    TrimPadded(h.w2, h.value, h.w3);
    HasAppend(a, "=", ',');
    HasAppend(a + "=", b, ',');
  }

  lemma {:induction false} ParsePairsShown(hs: seq<Header>, segs: seq<string>)
    requires |segs| == |hs| && forall i | 0 <= i < |hs| :: ValidHeader(hs[i]) && segs[i] == Show(hs[i])
    ensures ParsePairs(segs) == LastWins(hs)
  {
    if hs != [] {
      var n := |hs| - 1;
      ParsePairsShown(hs[..n], segs[..n]);
      ShowParses(hs[n]);
    }
  }

  /** The decoder accepts only objects, which start with a brace after white space,
      and null, which has no `=` in it. */
  ghost predicate DecodesObjectsOnly(json: JsonDecoder) {
    && json("") == None
    && forall t :: json(t).Some? ==> !Has(t, '=') || (TrimLeft(t) != "" && TrimLeft(t)[0] == '{')
  }

  lemma NothingParses()
    ensures ParsePairs(Split("", ',')) == map[]
  {
    assert Split("", ',') == [""];
    DroppedIff("");
    ParsePairsSnoc([], "");
    assert [] + [""] == [""];
  }

  lemma NoCommas(hs: seq<Header>, segs: seq<string>)
    requires |segs| == |hs| && forall i | 0 <= i < |hs| :: ValidHeader(hs[i]) && segs[i] == Show(hs[i])
    ensures forall i | 0 <= i < |segs| :: !Has(segs[i], ',')
  {
    forall i | 0 <= i < |segs| ensures !Has(segs[i], ',') { ShowParses(hs[i]); }
  }

  predicate AllValid(hs: seq<Header>) {
    forall i | 0 <= i < |hs| :: ValidHeader(hs[i])
  }

  lemma ShownParses(hs: seq<Header>)
    requires AllValid(hs)
    ensures ParsePairs(Split(ShowAll(hs), ',')) == LastWins(hs)
  {
    if hs == [] {
      NothingParses();
    } else {
      NoCommas(hs, Segments(hs));
      SplitJoin(Segments(hs), ',');
      ParsePairsShown(hs, Segments(hs));
    }
  }

  /** The list could not be taken for a JSON object. */
  predicate NoBrace(hs: seq<Header>) {
    hs != [] && hs[0].key != "" ==> hs[0].key[0] != '{'
  }

  lemma ShownIsNoObject(hs: seq<Header>)
    requires AllValid(hs) && NoBrace(hs) && hs != []
    ensures var t := ShowAll(hs); Has(t, '=') && TrimLeft(t) != "" && TrimLeft(t)[0] != '{'
  {
    assert Segments(hs)[0] <= Join(Segments(hs), ',');
    FirstCharacter(hs[0], ShowAll(hs));
  }

  /** Round trip: any list of headers, padded with any white space, parses to the
      last-wins map of the list; values keep their `=` signs. */
  lemma RoundTrip(json: JsonDecoder, hs: seq<Header>)
    requires DecodesObjectsOnly(json) && AllValid(hs) && NoBrace(hs)
    ensures HeadersOf(json, ShowAll(hs)) == LastWins(hs)
  {
    var t := ShowAll(hs);
    ShownParses(hs);
    if hs != [] { ShownIsNoObject(hs); }
    assert json(t) == None;
  }

  /** The joined text is no JSON object. */
  lemma FirstCharacter(h: Header, t: string)
    requires ValidHeader(h) && Show(h) <= t && (h.key != "" ==> h.key[0] != '{')
    ensures Has(t, '=') && TrimLeft(t) != "" && TrimLeft(t)[0] != '{'
  {
    var a := h.w0 + h.key + h.w1;
    var n := |a|;
    assert Show(h)[n] == '=';
    assert t[n] == '=';
    var rest := t[n + 1..];
    assert t == a + ['='] + rest by {
      assert t[..n] == Show(h)[..n] == a;
    }
    TrimLeftKeeps(a, '=', rest);
    assert a == h.w0 + (h.key + h.w1);
    TrimLeftBlank(h.w0, h.key + h.w1);
    if h.key == "" {
      assert h.key + h.w1 == h.w1 + "";
      TrimLeftBlank(h.w1, "");
    } else {
      assert (h.key + h.w1)[0] == h.key[0];
    }
  }
}
