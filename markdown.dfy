/**
 * The inline markdown tokenizer of the chat bubbles (components/MarkdownRenderer.tsx).
 *
 * `parseMarkdown` runs the global regular expression
 *     (\*\*(.+?)\*\*|\*(.+?)\*|`(.+?)`)
 * over its input and cuts the input into plain text and the matched bold, italic and
 * code spans. `Exec` below is that regular expression's search, written as a scanner over
 * the characters; `ParseMarkdown` is the loop of the component around it.
 */
module Markdown {
  import opened Wrappers

  datatype Kind = Text | Bold | Italic | Code

  /** `TextPart`: a run of plain text or the inner text of a delimited span. */
  datatype TextPart = TextPart(kind: Kind, text: string)

  /** The characters JavaScript's `.` does not match. */
  predicate IsLineTerminator(c: char)
  {
    c == '\n' || c == '\r' || c == '\U{2028}' || c == '\U{2029}'
  }

  /** The delimiter written on both sides of a span of this kind. */
  function Delim(k: Kind): string
  {
    match k
    case Text => ""
    case Bold => "**"
    case Italic => "*"
    case Code => "`"
  }

  /** Position of a kind among the regular expression's alternatives (bold first). */
  function Rank(k: Kind): nat
  {
    match k
    case Bold => 0
    case Italic => 1
    case Code => 2
    case Text => 3
  }

  /** `s` holds `d` at position `at`. */
  predicate HasAt(s: string, at: nat, d: string)
  {
    at + |d| <= |s| && s[at..at + |d|] == d
  }

  /** `s[lo..hi]` lies within `s` and contains no line terminator. */
  predicate NoTerminator(s: string, lo: nat, hi: nat)
  {
    lo <= hi <= |s| && forall i :: lo <= i < hi ==> !IsLineTerminator(s[i])
  }

  /** No character of `t` is a line terminator. */
  predicate OneLine(t: string)
  {
    forall i :: 0 <= i < |t| ==> !IsLineTerminator(t[i])
  }

  /**
   * Alternative `kind` of the regular expression matches at `p` with its closing delimiter
   * at `c`: an opening delimiter, at least one inner character, none of them a line
   * terminator, and a closing delimiter.
   */
  predicate Spans(s: string, p: nat, kind: Kind, c: nat)
  {
    var d := Delim(kind);
    kind != Text && HasAt(s, p, d) && p + |d| < c && NoTerminator(s, p + |d|, c) && HasAt(s, c, d)
  }

  /** One match of the regular expression: where it starts, which group captured, and what. */
  datatype Match = Match(start: nat, kind: Kind, inner: string)
  {
    /** The index just after the closing delimiter (`match.index + match[0].length`). */
    function End(): nat
    {
      start + 2 * |Delim(kind)| + |inner|
    }

    /** The index of the closing delimiter. */
    function Close(): nat
    {
      start + |Delim(kind)| + |inner|
    }
  }

  /**
   * What `regex.exec(s)` returns when `lastIndex` is `from`: the match that starts first,
   * at the earliest position the first alternative that matches there, with the shortest
   * inner text (`.+?` is non-greedy).
   */
  ghost predicate IsLeftmostMatch(s: string, from: nat, m: Match)
  {
    from <= m.start && IsShortestSpan(s, m) &&
    (forall k, c :: Rank(k) < Rank(m.kind) ==> !Spans(s, m.start, k, c)) &&
    (forall p, k, c :: from <= p < m.start ==> !Spans(s, p, k, c))
  }

  /** `m` is a span of its alternative at its start, and no shorter inner text would do. */
  ghost predicate IsShortestSpan(s: string, m: Match)
  {
    m.kind != Text &&
    Spans(s, m.start, m.kind, m.Close()) &&
    m.inner == s[m.start + |Delim(m.kind)|..m.Close()] &&
    forall c :: m.start + |Delim(m.kind)| < c < m.Close() ==> !Spans(s, m.start, m.kind, c)
  }

  /**
   * The non-greedy search for a closing delimiter `d`: the inner text so far ends at `e`
   * (exclusive), and it grows by one character each time the delimiter is not at `e`.
   */
  function CloseFrom(s: string, e: nat, d: string): (r: Option<nat>)
    requires e >= 1
    ensures r.Some? ==> e <= r.value <= |s| && HasAt(s, r.value, d)
    decreases |s| + 1 - e
  {
    if e > |s| then None
    else if IsLineTerminator(s[e - 1]) then None
    else if HasAt(s, e, d) then Some(e)
    else CloseFrom(s, e + 1, d)
  }

  lemma {:induction false} CloseFromSound(s: string, open: nat, e: nat, d: string)
    requires open < e && NoTerminator(s, open, e - 1)
    ensures CloseFrom(s, e, d).Some? ==>
      var c := CloseFrom(s, e, d).value;
      NoTerminator(s, open, c) && forall c' :: e <= c' < c ==> !HasAt(s, c', d)
    ensures CloseFrom(s, e, d).None? ==>
      forall c' :: e <= c' && NoTerminator(s, open, c') ==> !HasAt(s, c', d)
    decreases |s| + 1 - e
  {
    if e > |s| {
    } else if IsLineTerminator(s[e - 1]) {
      forall c' | e <= c' ensures !NoTerminator(s, open, c') {
        if c' <= |s| {
          assert open <= e - 1 < c' && IsLineTerminator(s[e - 1]);
        }
      }
    } else if HasAt(s, e, d) {
    } else {
      CloseFromSound(s, open, e + 1, d);
    }
  }

  /** Cutting `s[p..e]` at its opening and closing delimiters. */
  lemma SpanSlices(s: string, p: nat, d: string, c: nat)
    requires HasAt(s, p, d) && p + |d| <= c && HasAt(s, c, d)
    ensures s[p..c + |d|] == d + s[p + |d|..c] + d
  {
    assert s[p..c + |d|] == s[p..p + |d|] + s[p + |d|..c] + s[c..c + |d|];
  }

  /** Alternative `kind` tried at position `p`. */
  function TryAt(s: string, p: nat, kind: Kind): (r: Option<Match>)
    requires kind != Text
    ensures r.Some? ==> r.value.start == p && r.value.kind == kind && |r.value.inner| >= 1
    ensures r.Some? ==> r.value.End() <= |s|
  {
    var d := Delim(kind);
    if HasAt(s, p, d) then
      match CloseFrom(s, p + |d| + 1, d)
      case Some(c) => Some(Match(p, kind, s[p + |d|..c]))
      case None => None
    else None
  }

  /** A closing delimiter found by the non-greedy search gives the shortest span at `p`. */
  lemma ShortestAtClose(s: string, p: nat, kind: Kind, c: nat)
    requires kind != Text && HasAt(s, p, Delim(kind)) && p + |Delim(kind)| < c && HasAt(s, c, Delim(kind))
    requires NoTerminator(s, p + |Delim(kind)|, c)
    requires forall c' :: p + |Delim(kind)| + 1 <= c' < c ==> !HasAt(s, c', Delim(kind))
    ensures IsShortestSpan(s, Match(p, kind, s[p + |Delim(kind)|..c]))
  {
    assert Match(p, kind, s[p + |Delim(kind)|..c]).Close() == c;
  }

  /** Without a closing delimiter on the opening's line there is no span at `p`. */
  lemma NoSpanWithoutClose(s: string, p: nat, kind: Kind)
    requires kind != Text
    requires forall c' :: p + |Delim(kind)| + 1 <= c' && NoTerminator(s, p + |Delim(kind)|, c') ==>
      !HasAt(s, c', Delim(kind))
    ensures forall c :: !Spans(s, p, kind, c)
  {
  }

  lemma TryAtSound(s: string, p: nat, kind: Kind)
    requires kind != Text
    ensures TryAt(s, p, kind).Some? ==> IsShortestSpan(s, TryAt(s, p, kind).value)
    ensures TryAt(s, p, kind).None? ==> forall c :: !Spans(s, p, kind, c)
  {
    var d := Delim(kind);
    if !HasAt(s, p, d) {
      assert TryAt(s, p, kind).None?;
    } else {
      var close := CloseFrom(s, p + |d| + 1, d);
      CloseFromSound(s, p + |d|, p + |d| + 1, d);
      if close.Some? {
        assert TryAt(s, p, kind) == Some(Match(p, kind, s[p + |d|..close.value]));
        ShortestAtClose(s, p, kind, close.value);
      } else {
        assert TryAt(s, p, kind).None?;
        NoSpanWithoutClose(s, p, kind);
      }
    }
  }

  /** The alternatives tried in order at position `p`. */
  function MatchAt(s: string, p: nat): (r: Option<Match>)
    ensures r.Some? ==> r.value.start == p && r.value.kind != Text && |r.value.inner| >= 1
    ensures r.Some? ==> r.value.End() <= |s|
  {
    match TryAt(s, p, Bold)
    case Some(m) => Some(m)
    case None =>
      match TryAt(s, p, Italic)
      case Some(m) => Some(m)
      case None => TryAt(s, p, Code)
  }

  lemma MatchAtSound(s: string, p: nat)
    ensures MatchAt(s, p).Some? ==> IsLeftmostMatch(s, p, MatchAt(s, p).value)
    ensures MatchAt(s, p).None? ==> forall k, c :: !Spans(s, p, k, c)
  {
    TryAtSound(s, p, Bold);
    if TryAt(s, p, Bold).None? {
      TryAtSound(s, p, Italic);
      if TryAt(s, p, Italic).None? {
        TryAtSound(s, p, Code);
        forall k, c | Rank(k) < Rank(Code) ensures !Spans(s, p, k, c) {
          assert k == Bold || k == Italic;
        }
        if TryAt(s, p, Code).None? {
          forall k, c ensures !Spans(s, p, k, c) {
            assert k == Text || Rank(k) < Rank(Code) || k == Code;
          }
        }
      } else {
        forall k, c | Rank(k) < Rank(Italic) ensures !Spans(s, p, k, c) {
          assert k == Bold;
        }
      }
    }
  }

  /** `regex.exec(s)` with `lastIndex == from`. */
  function Exec(s: string, from: nat): (r: Option<Match>)
    ensures r.Some? ==> from <= r.value.start && r.value.kind != Text && |r.value.inner| >= 1
    ensures r.Some? ==> r.value.End() <= |s|
    decreases |s| - from
  {
    if from >= |s| then None
    else
      match MatchAt(s, from)
      case Some(m) => Some(m)
      case None => Exec(s, from + 1)
  }

  /** Nothing matches at or past the end of the input. */
  lemma NoSpanAtEnd(s: string, p: nat)
    requires p >= |s|
    ensures forall k, c :: !Spans(s, p, k, c)
  {
    forall k, c ensures !Spans(s, p, k, c) {
      assert k == Text || (|Delim(k)| >= 1 && !HasAt(s, p, Delim(k)));
    }
  }

  /** A position where nothing matches can be added in front of the search. */
  lemma SearchFromEarlier(s: string, from: nat)
    requires forall k, c :: !Spans(s, from, k, c)
    ensures forall m :: IsLeftmostMatch(s, from + 1, m) ==> IsLeftmostMatch(s, from, m)
    ensures (forall p, k, c :: from + 1 <= p ==> !Spans(s, p, k, c)) ==>
      forall p, k, c :: from <= p ==> !Spans(s, p, k, c)
  {
  }

  /** `Exec` finds the leftmost match, and finds none only when there is none. */
  lemma {:induction false} ExecCorrect(s: string, from: nat)
    ensures Exec(s, from).Some? ==> IsLeftmostMatch(s, from, Exec(s, from).value)
    ensures Exec(s, from).None? ==> forall p, k, c :: from <= p ==> !Spans(s, p, k, c)
    decreases |s| - from
  {
    if from >= |s| {
      forall p, k, c | from <= p ensures !Spans(s, p, k, c) {
        NoSpanAtEnd(s, p);
      }
    } else {
      MatchAtSound(s, from);
      if MatchAt(s, from).None? {
        ExecCorrect(s, from + 1);
        SearchFromEarlier(s, from);
      }
    }
  }

  /** The text of a span is its inner text between two delimiters, on one line. */
  lemma SpanFacts(s: string, m: Match)
    requires IsShortestSpan(s, m)
    ensures m.End() <= |s|
    ensures s[m.start..m.End()] == Delim(m.kind) + m.inner + Delim(m.kind)
    ensures OneLine(m.inner)
  {
    var d := Delim(m.kind);
    SpanSlices(s, m.start, d, m.Close());
    forall i | 0 <= i < |m.inner| ensures !IsLineTerminator(m.inner[i]) {
      assert m.inner[i] == s[m.start + |d| + i];
    }
  }

  lemma ExecText(s: string, from: nat)
    ensures Exec(s, from).Some? ==>
      var m := Exec(s, from).value;
      s[m.start..m.End()] == Delim(m.kind) + m.inner + Delim(m.kind) && OneLine(m.inner)
  {
    ExecCorrect(s, from);
    if Exec(s, from).Some? {
      SpanFacts(s, Exec(s, from).value);
    }
  }

  /** The parts for `s[last..]`: the loop of `parseMarkdown` from `lastIndex == last` on. */
  function Scan(s: string, last: nat): seq<TextPart>
    requires last <= |s|
    decreases |s| - last
  {
    match Exec(s, last)
    case None => if last < |s| then [TextPart(Text, s[last..])] else []
    case Some(m) => Gap(s, last, m.start) + [TextPart(m.kind, m.inner)] + Scan(s, m.End())
  }

  /** `parseMarkdown(input)`. */
  function Parse(s: string): (r: seq<TextPart>)
    ensures |r| >= 1
  {
    var r := Scan(s, 0);
    if r == [] then [TextPart(Text, s)] else r
  }

  /** The markdown a part was cut from: its text between its delimiters. */
  function Render(parts: seq<TextPart>): string
  {
    if parts == [] then ""
    else Delim(parts[0].kind) + parts[0].text + Delim(parts[0].kind) + Render(parts[1..])
  }

  lemma {:induction false} RenderAppend(a: seq<TextPart>, b: seq<TextPart>)
    ensures Render(a + b) == Render(a) + Render(b)
  {
    if a == [] {
      assert a + b == b;
    } else {
      var d := Delim(a[0].kind);
      assert (a + b)[0] == a[0];
      assert (a + b)[1..] == a[1..] + b;
      RenderAppend(a[1..], b);
      assert Render(a + b) == d + a[0].text + d + Render(a[1..] + b);
      assert Render(a) == d + a[0].text + d + Render(a[1..]);
    }
  }

  /** The text before a match, if any. */
  function Gap(s: string, last: nat, start: nat): seq<TextPart>
    requires last <= start <= |s|
  {
    if start > last then [TextPart(Text, s[last..start])] else []
  }

  lemma RenderOne(part: TextPart)
    ensures Render([part]) == Delim(part.kind) + part.text + Delim(part.kind)
  {
    assert [part][1..] == [];
  }

  lemma SliceJoin(s: string, i: nat, j: nat, k: nat)
    requires i <= j <= k <= |s|
    ensures s[i..k] == s[i..j] + s[j..k]
  {
  }

  lemma RenderStep(s: string, last: nat, m: Match, rest: seq<TextPart>)
    requires last <= m.start <= m.End() <= |s|
    requires s[m.start..m.End()] == Delim(m.kind) + m.inner + Delim(m.kind)
    requires Render(rest) == s[m.End()..]
    ensures Render(Gap(s, last, m.start) + [TextPart(m.kind, m.inner)] + rest) == s[last..]
  {
    var pre := Gap(s, last, m.start);
    var part := TextPart(m.kind, m.inner);
    RenderAppend(pre + [part], rest);
    RenderAppend(pre, [part]);
    RenderOne(part);
    if m.start > last {
      RenderOne(pre[0]);
    }
    assert Render(pre) == s[last..m.start];
    SliceJoin(s, last, m.start, m.End());
    SliceJoin(s, last, m.End(), |s|);
  }

  lemma {:induction false} ScanRenders(s: string, last: nat)
    requires last <= |s|
    ensures Render(Scan(s, last)) == s[last..]
    decreases |s| - last
  {
    match Exec(s, last)
    case None =>
      if last < |s| {
        assert Render([TextPart(Text, s[last..])]) == s[last..] + Render([]);
      }
    case Some(m) =>
      ExecText(s, last);
      ScanRenders(s, m.End());
      RenderStep(s, last, m, Scan(s, m.End()));
  }

  /** Writing the parts back with their delimiters gives the input exactly. */
  lemma ParseRoundTrip(s: string)
    ensures Render(Parse(s)) == s
  {
    ScanRenders(s, 0);
    assert s[0..] == s;
  }

  /** The result is never empty; for the empty input it is one empty text part. */
  lemma ParseEmpty()
    ensures Parse("") == [TextPart(Text, "")]
  {
  }

  /**
   * A span's inner text is non-empty and has no line terminator; a text part is non-empty;
   * no two text parts are adjacent.
   */
  ghost predicate WellFormed(parts: seq<TextPart>)
  {
    (forall i :: 0 <= i < |parts| && parts[i].kind != Text ==>
      |parts[i].text| >= 1 && OneLine(parts[i].text)) &&
    (forall i :: 0 <= i < |parts| && parts[i].kind == Text ==> |parts[i].text| >= 1) &&
    (forall i :: 0 <= i < |parts| - 1 ==> parts[i].kind != Text || parts[i + 1].kind != Text)
  }

  lemma WellFormedStep(s: string, last: nat, m: Match, rest: seq<TextPart>)
    requires last <= m.start <= |s| && m.kind != Text && |m.inner| >= 1 && OneLine(m.inner)
    requires WellFormed(rest)
    ensures WellFormed(Gap(s, last, m.start) + [TextPart(m.kind, m.inner)] + rest)
  {
    var pre := Gap(s, last, m.start);
    var r := pre + [TextPart(m.kind, m.inner)] + rest;
    var n := |pre|;
    assert r[n] == TextPart(m.kind, m.inner);
    assert forall i :: n < i < |r| ==> r[i] == rest[i - n - 1];
  }

  lemma {:induction false} ScanWellFormed(s: string, last: nat)
    requires last <= |s|
    ensures WellFormed(Scan(s, last))
    decreases |s| - last
  {
    match Exec(s, last)
    case None =>
    case Some(m) =>
      ExecText(s, last);
      ScanWellFormed(s, m.End());
      WellFormedStep(s, last, m, Scan(s, m.End()));
  }

  /**
   * For non-empty input every part is well formed; in every case the spans' inner texts are
   * non-empty and free of line terminators.
   */
  lemma ParseWellFormed(s: string)
    ensures s != "" ==> WellFormed(Parse(s))
    ensures forall i :: 0 <= i < |Parse(s)| && Parse(s)[i].kind != Text ==>
      |Parse(s)[i].text| >= 1 && OneLine(Parse(s)[i].text)
  {
    ScanWellFormed(s, 0);
    if s != "" {
      ScanRenders(s, 0);
      assert s[0..] == s;
    }
  }

  /**
   * Each span of the result is the regular expression's leftmost match from the end of
   * the previous match on: the spans appear in input order, never overlap, and at every
   * position bold is tried before italic and italic before code.
   */
  lemma {:induction false} ScanFollowsExec(s: string, last: nat)
    requires last <= |s|
    ensures Exec(s, last).None? ==> Scan(s, last) == (if last < |s| then [TextPart(Text, s[last..])] else [])
    ensures Exec(s, last).Some? ==>
      var m := Exec(s, last).value;
      IsLeftmostMatch(s, last, m) &&
      Scan(s, last) == (if m.start > last then [TextPart(Text, s[last..m.start])] else []) +
        [TextPart(m.kind, m.inner)] + Scan(s, m.End())
  {
    ExecCorrect(s, last);
  }

  /** `**x**` is one bold part, not an italic one around `*x*`. */
  lemma BoldBeforeItalic()
    ensures Parse("**x**") == [TextPart(Bold, "x")]
  {
    assert HasAt("**x**", 0, "**") && HasAt("**x**", 3, "**");
    assert CloseFrom("**x**", 3, "**") == Some(3);
    assert "**x**"[2..3] == "x";
    assert TryAt("**x**", 0, Bold) == Some(Match(0, Bold, "x"));
    assert Exec("**x**", 5) == None;
  }

  lemma ScanUnfold(s: string, last: nat)
    requires last <= |s| && Exec(s, last).Some?
    ensures var m := Exec(s, last).value;
      Scan(s, last) == Gap(s, last, m.start) + [TextPart(m.kind, m.inner)] + Scan(s, m.End())
  {
  }

  lemma PartsAssoc(a: seq<TextPart>, b: seq<TextPart>, c: seq<TextPart>, d: seq<TextPart>)
    ensures a + (b + c + d) == (a + b + c) + d
  {
  }

  /**
   * `parseMarkdown`: repeatedly takes the next match, pushes the text before it (if any)
   * and the captured span, and moves `lastIndex` past the match; then pushes the rest of
   * the input, and the whole input as one text part when nothing was pushed.
   */
  method ParseMarkdown(input: string) returns (parts: seq<TextPart>)
    ensures parts == Parse(input)
    ensures Render(parts) == input
    ensures |parts| >= 1
  {
    parts := [];
    var lastIndex: nat := 0;
    var found := Exec(input, lastIndex);
    while found.Some?
      invariant lastIndex <= |input|
      invariant found == Exec(input, lastIndex)
      invariant parts + Scan(input, lastIndex) == Scan(input, 0)
      decreases |input| - lastIndex
    {
      var m := found.value;
      ScanUnfold(input, lastIndex);
      ghost var before := parts;
      ghost var gap := Gap(input, lastIndex, m.start);
      if m.start > lastIndex {
        parts := parts + [TextPart(Text, input[lastIndex..m.start])];
      }
      assert parts == before + gap;
      if m.kind == Bold {
        parts := parts + [TextPart(Bold, m.inner)];
      } else if m.kind == Italic {
        parts := parts + [TextPart(Italic, m.inner)];
      } else if m.kind == Code {
        parts := parts + [TextPart(Code, m.inner)];
      }
      assert parts == before + gap + [TextPart(m.kind, m.inner)];
      PartsAssoc(before, gap, [TextPart(m.kind, m.inner)], Scan(input, m.End()));
      lastIndex := m.End();
      found := Exec(input, lastIndex);
    }
    if lastIndex < |input| {
      parts := parts + [TextPart(Text, input[lastIndex..])];
    }
    if |parts| == 0 {
      parts := parts + [TextPart(Text, input)];
    }
    ParseRoundTrip(input);
  }
}
