/** Masking comments, strings and docstrings of Python source without moving anything, and finding
    the line of a match in a masked view. */
module SourceMasking {
  import opened Options

  type Text = seq<char>

  predicate IsBreak(c: char) {
    c == '\r' || c == '\n'
  }

  // ---- Lines ----

  // The offset at which each line starts; a line ends after its LF.
  function LineOffsets(text: Text): seq<nat> {
    if text == [] then [0]
    else LineOffsets(text[..|text| - 1]) + if text[|text| - 1] == '\n' then [|text|] else []
  }

  function Newlines(text: Text): nat {
    if text == [] then 0 else Newlines(text[..|text| - 1]) + if text[|text| - 1] == '\n' then 1 else 0
  }

  /** The offsets begin with 0, grow strictly, and number one more than the LFs; each later one stands
      right after an LF, and every LF has one. */
  lemma {:induction false} OffsetsAreLineStarts(text: Text)
    ensures var o := LineOffsets(text);
            && |o| == 1 + Newlines(text) && o[0] == 0
            && (forall i, j :: 0 <= i < j < |o| ==> o[i] < o[j])
            && (forall i :: 1 <= i < |o| ==> 1 <= o[i] <= |text| && text[o[i] - 1] == '\n')
            && (forall p :: 0 <= p < |text| && text[p] == '\n' ==> p + 1 in o)
  {
    if text != [] {
      OffsetsAreLineStarts(text[..|text| - 1]);
    }
  }

  // Offsets up to a position are those of the text before it.
  lemma {:induction false} OffsetsOfPrefix(text: Text, p: nat)
    requires p <= |text|
    ensures LineOffsets(text[..p]) <= LineOffsets(text)
    ensures forall i :: |LineOffsets(text[..p])| <= i < |LineOffsets(text)| ==> LineOffsets(text)[i] > p
    ensures forall i :: 0 <= i < |LineOffsets(text[..p])| ==> LineOffsets(text)[i] <= p
  {
    if p == |text| {
      assert text[..p] == text;
      OffsetsAreLineStarts(text);
    } else {
      assert text[..|text| - 1][..p] == text[..p];
      OffsetsOfPrefix(text[..|text| - 1], p);
    }
  }

  // Where x would be inserted to the right of its equals.
  ghost predicate Bisects(a: seq<nat>, x: nat, r: nat) {
    && r <= |a|
    && (forall i :: 0 <= i < r ==> a[i] <= x)
    && (forall i :: r <= i < |a| ==> a[i] > x)
  }

  method BisectRight(a: seq<nat>, x: nat) returns (r: nat)
    requires forall i, j :: 0 <= i < j < |a| ==> a[i] <= a[j]
    ensures Bisects(a, x, r)
  {
    var lo, hi := 0, |a|;
    while lo < hi
      invariant 0 <= lo <= hi <= |a|
      invariant forall i :: 0 <= i < lo ==> a[i] <= x
      invariant forall i :: hi <= i < |a| ==> a[i] > x
    {
      var mid := (lo + hi) / 2;
      if x < a[mid] {
        hi := mid;
      } else {
        lo := mid + 1;
      }
    }
    return lo;
  }

  /** Bisecting the line offsets at a position gives its line: one more than the LFs before it. */
  lemma BisectIsLine(text: Text, p: nat, r: nat)
    requires p <= |text| && Bisects(LineOffsets(text), p, r)
    ensures r == 1 + Newlines(text[..p])
  {
    OffsetsOfPrefix(text, p);
    OffsetsAreLineStarts(text[..p]);
    var o, n := LineOffsets(text), |LineOffsets(text[..p])|;
    assert r < |o| ==> o[r] > p;
    assert r > 0 ==> o[r - 1] <= p;
  }

  // ---- Masking ----

  // A position as tokenizers give it: the line from 1, the column from 0.
  type Line = n: int | n >= 1 witness 1

  datatype Position = Position(line: Line, column: nat)

  datatype Span = Span(start: Position, end: Position)

  // Both lines of the span are among those counted by LF.
  predicate InText(offsets: seq<nat>, s: Span) {
    s.start.line <= |offsets| && s.end.line <= |offsets|
  }

  predicate Covers(offsets: seq<nat>, s: Span, i: nat)
    requires InText(offsets, s)
  {
    offsets[s.start.line - 1] + s.start.column <= i < offsets[s.end.line - 1] + s.end.column
  }

  predicate AllInText(offsets: seq<nat>, spans: seq<Span>) {
    forall j :: 0 <= j < |spans| ==> InText(offsets, spans[j])
  }

  predicate CoveredBySome(offsets: seq<nat>, spans: seq<Span>, i: nat)
    requires AllInText(offsets, spans)
  {
    exists j :: 0 <= j < |spans| && Covers(offsets, spans[j], i)
  }

  // A text with the covered positions blanked, line breaks excepted.
  ghost predicate IsMasked(view: Text, text: Text, offsets: seq<nat>, spans: seq<Span>)
    requires AllInText(offsets, spans)
  {
    && |view| == |text|
    && forall i :: 0 <= i < |text| ==>
         view[i] == if CoveredBySome(offsets, spans, i) && !IsBreak(text[i]) then ' ' else text[i]
  }

  // A line that is not among the offsets is an index error.
  method MaskSpan(characters: array<char>, offsets: seq<nat>, s: Span) returns (inText: bool)
    modifies characters
    ensures inText <==> InText(offsets, s)
    ensures forall i :: 0 <= i < characters.Length ==>
              characters[i] == if inText && Covers(offsets, s, i) && !IsBreak(old(characters[i])) then ' '
                  else old(characters[i])
  {
    if s.start.line > |offsets| || s.end.line > |offsets| {
      return false;
    }
    var start := offsets[s.start.line - 1] + s.start.column;
    var end := offsets[s.end.line - 1] + s.end.column;
    var stop := if end < characters.Length then end else characters.Length;
    if stop < start {
      stop := start;
    }
    for index := start to stop
      invariant forall i :: 0 <= i < characters.Length ==>
                  characters[i] == if start <= i < index && !IsBreak(old(characters[i])) then ' '
                      else old(characters[i])
    {
      if !IsBreak(characters[index]) {
        characters[index] := ' ';
      }
    }
    return true;
  }

  lemma MaskedOnceMore(before: Text, after: Text, text: Text, offsets: seq<nat>, spans: seq<Span>, s: Span)
    requires AllInText(offsets, spans) && InText(offsets, s) && IsMasked(before, text, offsets, spans)
    requires |after| == |before|
    requires forall i :: 0 <= i < |after| ==>
               after[i] == if Covers(offsets, s, i) && !IsBreak(before[i]) then ' ' else before[i]
    ensures AllInText(offsets, spans + [s]) && IsMasked(after, text, offsets, spans + [s])
  {
    forall i | 0 <= i < |text|
      ensures CoveredBySome(offsets, spans + [s], i) <==> CoveredBySome(offsets, spans, i) || Covers(offsets, s, i)
    {
      if CoveredBySome(offsets, spans, i) {
        var j :| 0 <= j < |spans| && Covers(offsets, spans[j], i);
        assert (spans + [s])[j] == spans[j];
      }
      assert (spans + [s])[|spans|] == s;
    }
  }

  // ---- The two views ----

  datatype TokenKind = Comment | StringLiteral | OtherToken

  datatype Token = Token(kind: TokenKind, span: Span)

  // The spans of the tokens each view masks, in order.
  function CommentSpans(tokens: seq<Token>): seq<Span> {
    if tokens == [] then []
    else
      var t := tokens[|tokens| - 1];
      CommentSpans(tokens[..|tokens| - 1]) + if t.kind == Comment then [t.span] else []
  }

  function CodelessSpans(tokens: seq<Token>): seq<Span> {
    if tokens == [] then []
    else
      var t := tokens[|tokens| - 1];
      CodelessSpans(tokens[..|tokens| - 1]) + if t.kind != OtherToken then [t.span] else []
  }

  function OrNone<T>(found: Option<seq<T>>): seq<T> {
    if found.Some? then found.value else []
  }

  // What is masked as a comment is masked as no code.
  lemma {:induction false} CommentsAreCodeless(tokens: seq<Token>)
    ensures forall s :: s in CommentSpans(tokens) ==> s in CodelessSpans(tokens)
  {
    if tokens != [] {
      CommentsAreCodeless(tokens[..|tokens| - 1]);
    }
  }

  lemma CommentsInText(offsets: seq<nat>, tokens: seq<Token>)
    requires AllInText(offsets, CodelessSpans(tokens))
    ensures AllInText(offsets, CommentSpans(tokens))
  {
    CommentsAreCodeless(tokens);
    var spans := CommentSpans(tokens);
    assert forall j :: 0 <= j < |spans| ==> spans[j] in CodelessSpans(tokens);
  }

  lemma {:induction false} SpansOfPrefix(tokens: seq<Token>, n: nat)
    requires n <= |tokens|
    ensures CodelessSpans(tokens[..n]) <= CodelessSpans(tokens)
  {
    if n < |tokens| {
      assert tokens[..|tokens| - 1][..n] == tokens[..n];
      SpansOfPrefix(tokens[..|tokens| - 1], n);
    } else {
      assert tokens[..n] == tokens;
    }
  }

  method CopyOf(text: Text) returns (characters: array<char>)
    ensures fresh(characters) && characters[..] == text
  {
    characters := new char[|text|](i requires 0 <= i < |text| => text[i]);
  }

  lemma SpansNext(tokens: seq<Token>, n: nat)
    requires n < |tokens|
    ensures var t := tokens[n];
            && CodelessSpans(tokens[..n + 1]) ==
                 CodelessSpans(tokens[..n]) + (if t.kind != OtherToken then [t.span] else [])
            && CommentSpans(tokens[..n + 1]) == CommentSpans(tokens[..n]) + (if t.kind == Comment then [t.span] else [])
            && CodelessSpans(tokens[..n]) + [] == CodelessSpans(tokens[..n])
            && CommentSpans(tokens[..n]) + [] == CommentSpans(tokens[..n])
  {
    assert tokens[..n + 1][..n] == tokens[..n];
  }

  // A span outside the text among those of some tokens.
  lemma OutsideStays(offsets: seq<nat>, tokens: seq<Token>, n: nat)
    requires n < |tokens| && tokens[n].kind != OtherToken && !InText(offsets, tokens[n].span)
    ensures !AllInText(offsets, CodelessSpans(tokens))
  {
    SpansNext(tokens, n);
    SpansOfPrefix(tokens, n + 1);
    var m := |CodelessSpans(tokens[..n])|;
    assert CodelessSpans(tokens)[m] == CodelessSpans(tokens[..n + 1])[m] == tokens[n].span;
  }

  // What MaskTokens has done for some tokens.
  ghost predicate BothMasked(code: Text, config: Text, text: Text, offsets: seq<nat>, tokens: seq<Token>) {
    && AllInText(offsets, CodelessSpans(tokens)) && AllInText(offsets, CommentSpans(tokens))
    && IsMasked(code, text, offsets, CodelessSpans(tokens))
    && IsMasked(config, text, offsets, CommentSpans(tokens))
  }

  lemma NothingMasked(text: Text, offsets: seq<nat>)
    ensures BothMasked(text, text, text, offsets, [])
  {
  }

  lemma TokenMasked(code: Text, config: Text, code': Text, config': Text, text: Text, offsets: seq<nat>,
      tokens: seq<Token>, n: nat)
    requires n < |tokens| && BothMasked(code, config, text, offsets, tokens[..n])
    requires |code'| == |code| && |config'| == |config|
    requires tokens[n].kind != OtherToken ==> InText(offsets, tokens[n].span)
    requires forall i :: 0 <= i < |code| ==>
               code'[i] == if tokens[n].kind != OtherToken && Covers(offsets, tokens[n].span, i) && !IsBreak(code[i])
                   then ' ' else code[i]
    requires forall i :: 0 <= i < |config| ==>
               config'[i] == if tokens[n].kind == Comment && Covers(offsets, tokens[n].span, i) && !IsBreak(config[i])
                   then ' ' else config[i]
    ensures BothMasked(code', config', text, offsets, tokens[..n + 1])
  {
    SpansNext(tokens, n);
    hide IsMasked, CodelessSpans, CommentSpans, Covers;
    if tokens[n].kind != OtherToken {
      MaskedOnceMore(code, code', text, offsets, CodelessSpans(tokens[..n]), tokens[n].span);
    } else {
      assert code' == code;
    }
    if tokens[n].kind == Comment {
      MaskedOnceMore(config, config', text, offsets, CommentSpans(tokens[..n]), tokens[n].span);
    } else {
      assert config' == config;
    }
  }

  method MaskTokens(code: array<char>, config: array<char>, text: Text, offsets: seq<nat>, tokens: seq<Token>)
    returns (inText: bool)
    requires code != config && code[..] == text && config[..] == text
    modifies code, config
    ensures inText <==> AllInText(offsets, CodelessSpans(tokens))
    ensures inText ==> BothMasked(code[..], config[..], text, offsets, tokens)
  {
    assert tokens[..0] == [] && tokens[..|tokens|] == tokens;
    NothingMasked(text, offsets);
    hide BothMasked, CodelessSpans, CommentSpans, Covers;
    for n := 0 to |tokens|
      invariant BothMasked(code[..], config[..], text, offsets, tokens[..n])
    {
      var token := tokens[n];
      ghost var codeBefore, configBefore := code[..], config[..];
      var masked := true;
      if token.kind == Comment {
        masked := MaskSpan(code, offsets, token.span);
        var _ := MaskSpan(config, offsets, token.span);
      } else if token.kind == StringLiteral {
        masked := MaskSpan(code, offsets, token.span);
      }
      if !masked {
        OutsideStays(offsets, tokens, n);
        return false;
      }
      TokenMasked(codeBefore, configBefore, code[..], config[..], text, offsets, tokens, n);
    }
    BothInText(code[..], config[..], text, offsets, tokens);
    return true;
  }

  lemma BothInText(code: Text, config: Text, text: Text, offsets: seq<nat>, tokens: seq<Token>)
    requires BothMasked(code, config, text, offsets, tokens)
    ensures AllInText(offsets, CodelessSpans(tokens))
  {
  }

  method MaskDocstrings(config: array<char>, text: Text, offsets: seq<nat>, ghost comments: seq<Span>,
      docstrings: seq<Span>) returns (inText: bool)
    requires AllInText(offsets, comments) && IsMasked(config[..], text, offsets, comments)
    modifies config
    ensures inText <==> AllInText(offsets, docstrings)
    ensures inText ==>
              && AllInText(offsets, comments + docstrings)
              && IsMasked(config[..], text, offsets, comments + docstrings)
  {
    hide IsMasked;
    assert comments + docstrings[..0] == comments;
    for n := 0 to |docstrings|
      invariant AllInText(offsets, docstrings[..n]) && AllInText(offsets, comments + docstrings[..n])
      invariant IsMasked(config[..], text, offsets, comments + docstrings[..n])
    {
      ghost var before := config[..];
      var masked := MaskSpan(config, offsets, docstrings[n]);
      if !masked {
        return false;
      }
      MaskedOnceMore(before, config[..], text, offsets, comments + docstrings[..n], docstrings[n]);
      assert comments + docstrings[..n] + [docstrings[n]] == comments + docstrings[..n + 1];
    }
    assert docstrings[..|docstrings|] == docstrings;
    return true;
  }

  // ---- The views told by lines and columns ----

  // The place at which a line begins: the LFs before it number one less than the line, and one is the last.
  ghost predicate LineBegins(text: Text, line: Line, p: nat) {
    p <= |text| && multiset(text[..p])['\n'] == line - 1 && (p > 0 ==> text[p - 1] == '\n')
  }

  // From the column of its first line up to, and without, the column of its last.
  ghost predicate Within(text: Text, s: Span, i: nat) {
    exists p: nat, q: nat ::
      && LineBegins(text, s.start.line, p) && LineBegins(text, s.end.line, q)
      && p + s.start.column <= i < q + s.end.column
  }

  // No more lines than the text has.
  ghost predicate HasLines(text: Text, s: Span) {
    s.start.line <= 1 + multiset(text)['\n'] && s.end.line <= 1 + multiset(text)['\n']
  }

  // Comments and strings are blank, but for line breaks.
  ghost predicate IsExecutableView(view: Text, text: Text, tokens: seq<Token>) {
    && |view| == |text|
    && forall i :: 0 <= i < |text| ==>
         view[i] == if text[i] !in "\r\n" && InCodeless(text, tokens, i) then ' ' else text[i]
  }

  ghost predicate InCodeless(text: Text, tokens: seq<Token>, i: nat) {
    exists t :: t in tokens && (t.kind == Comment || t.kind == StringLiteral) && Within(text, t.span, i)
  }

  // Comments and docstrings are blank, but for line breaks.
  ghost predicate IsConfigurationView(view: Text, text: Text, tokens: seq<Token>, docstrings: seq<Span>) {
    && |view| == |text|
    && forall i :: 0 <= i < |text| ==>
         view[i] == if text[i] !in "\r\n" && InCommentOrDocstring(text, tokens, docstrings, i) then ' ' else text[i]
  }

  ghost predicate InCommentOrDocstring(text: Text, tokens: seq<Token>, docstrings: seq<Span>, i: nat) {
    || (exists t :: t in tokens && t.kind == Comment && Within(text, t.span, i))
    || (exists s :: s in docstrings && Within(text, s, i))
  }

  lemma {:induction false} NewlinesAreCounted(text: Text)
    ensures Newlines(text) == multiset(text)['\n']
  {
    if text != [] {
      NewlinesAreCounted(text[..|text| - 1]);
      assert text == text[..|text| - 1] + [text[|text| - 1]];
    }
  }

  // A line begins at its offset, and nowhere else.
  lemma OffsetIsLineStart(text: Text, line: Line, p: nat)
    ensures LineBegins(text, line, p) <==> line <= |LineOffsets(text)| && LineOffsets(text)[line - 1] == p
  {
    hide LineOffsets, Newlines;
    var o := LineOffsets(text);
    OffsetsAreLineStarts(text);
    if line <= |o| && o[line - 1] == p {
      OffsetNumber(text, line - 1);
    } else if LineBegins(text, line, p) {
      var k :| 0 <= k < |o| && o[k] == p;
      OffsetNumber(text, k);
    }
  }

  lemma OffsetNumber(text: Text, k: nat)
    requires k < |LineOffsets(text)| && LineOffsets(text)[k] <= |text|
    ensures multiset(text[..LineOffsets(text)[k]])['\n'] == k
  {
    var o := LineOffsets(text);
    OffsetsAreLineStarts(text);
    OffsetsOfPrefix(text, o[k]);
    OffsetsAreLineStarts(text[..o[k]]);
    NewlinesAreCounted(text[..o[k]]);
    hide LineOffsets, Newlines;
    var n := |LineOffsets(text[..o[k]])|;
    assert k + 1 < |o| ==> o[k] < o[k + 1];
  }

  lemma CoversIsWithin(text: Text, s: Span, i: nat)
    ensures InText(LineOffsets(text), s) <==> HasLines(text, s)
    ensures InText(LineOffsets(text), s) ==> (Covers(LineOffsets(text), s, i) <==> Within(text, s, i))
  {
    OffsetsAreLineStarts(text);
    NewlinesAreCounted(text);
    var o := LineOffsets(text);
    hide LineOffsets, LineBegins;
    if InText(o, s) {
      OffsetIsLineStart(text, s.start.line, o[s.start.line - 1]);
      OffsetIsLineStart(text, s.end.line, o[s.end.line - 1]);
      if p: nat, q: nat :|
        && LineBegins(text, s.start.line, p) && LineBegins(text, s.end.line, q)
        && p + s.start.column <= i < q + s.end.column {
        OffsetIsLineStart(text, s.start.line, p);
        OffsetIsLineStart(text, s.end.line, q);
      }
    }
  }

  lemma {:induction false} SpansOfTokens(tokens: seq<Token>, s: Span)
    ensures s in CommentSpans(tokens) <==> Token(Comment, s) in tokens
    ensures s in CodelessSpans(tokens) <==> Token(Comment, s) in tokens || Token(StringLiteral, s) in tokens
  {
    if tokens != [] {
      var before, last := tokens[..|tokens| - 1], tokens[|tokens| - 1];
      SpansOfTokens(before, s);
      assert tokens == before + [last];
      assert last == Token(last.kind, last.span);
      assert forall t :: t in tokens <==> t in before || t == last;
    }
  }

  // A masked position is one that a span of the list covers.
  lemma MaskedIsWithin(view: Text, text: Text, spans: seq<Span>, i: nat)
    requires AllInText(LineOffsets(text), spans) && IsMasked(view, text, LineOffsets(text), spans) && i < |text|
    ensures |view| == |text|
    ensures view[i] == if text[i] !in "\r\n" && exists s :: s in spans && Within(text, s, i) then ' ' else text[i]
  {
    var o := LineOffsets(text);
    hide LineOffsets, Within, Covers;
    if CoveredBySome(o, spans, i) {
      var j :| 0 <= j < |spans| && Covers(o, spans[j], i);
      CoversIsWithin(text, spans[j], i);
    }
    if s :| s in spans && Within(text, s, i) {
      var j :| 0 <= j < |spans| && spans[j] == s;
      CoversIsWithin(text, s, i);
    }
  }

  lemma ViewsAre(text: Text, tokens: seq<Token>, docstrings: seq<Span>, executable: Text, configuration: Text)
    requires AllMasksInText(text, tokens, docstrings)
    requires IsMasked(executable, text, LineOffsets(text), CodelessSpans(tokens))
    requires AllInText(LineOffsets(text), CommentSpans(tokens) + docstrings)
    requires IsMasked(configuration, text, LineOffsets(text), CommentSpans(tokens) + docstrings)
    ensures IsExecutableView(executable, text, tokens)
    ensures IsConfigurationView(configuration, text, tokens, docstrings)
  {
    forall i: nat | i < |text|
      ensures |executable| == |configuration| == |text|
      ensures executable[i] == if text[i] !in "\r\n" && InCodeless(text, tokens, i) then ' ' else text[i]
      ensures configuration[i] == if text[i] !in "\r\n" && InCommentOrDocstring(text, tokens, docstrings, i) then ' '
                                    else text[i]
    {
      MaskedIsWithin(executable, text, CodelessSpans(tokens), i);
      MaskedIsWithin(configuration, text, CommentSpans(tokens) + docstrings, i);
      SpansWithin(text, tokens, docstrings, i);
    }
    hide InCodeless, InCommentOrDocstring, CodelessSpans, CommentSpans;
    assert text == [] ==> executable == [] && configuration == [];
  }

  lemma SpansWithin(text: Text, tokens: seq<Token>, docstrings: seq<Span>, i: nat)
    ensures InCodeless(text, tokens, i) <==> exists s :: s in CodelessSpans(tokens) && Within(text, s, i)
    ensures InCommentOrDocstring(text, tokens, docstrings, i) <==>
              exists s :: s in CommentSpans(tokens) + docstrings && Within(text, s, i)
  {
    hide Within, CodelessSpans, CommentSpans;
    forall s
      ensures s in CommentSpans(tokens) <==> Token(Comment, s) in tokens
      ensures s in CodelessSpans(tokens) <==> Token(Comment, s) in tokens || Token(StringLiteral, s) in tokens
    {
      SpansOfTokens(tokens, s);
    }
    assert forall t: Token :: t == Token(t.kind, t.span);
  }

  lemma MasksHaveLines(text: Text, tokens: seq<Token>, docstrings: seq<Span>)
    ensures AllMasksInText(text, tokens, docstrings) <==>
              AllInText(LineOffsets(text), CodelessSpans(tokens)) && AllInText(LineOffsets(text), docstrings)
    ensures AllMasksInText(text, tokens, docstrings) <==>
              && (forall t :: t in tokens && (t.kind == Comment || t.kind == StringLiteral) ==> HasLines(text, t.span))
              && (forall s :: s in docstrings ==> HasLines(text, s))
  {
    var codeless := CodelessSpans(tokens);
    hide LineOffsets, InText, HasLines, CodelessSpans;
    forall s ensures InText(LineOffsets(text), s) <==> HasLines(text, s) {
      CoversIsWithin(text, s, 0);
    }
    forall s ensures s in codeless <==> Token(Comment, s) in tokens || Token(StringLiteral, s) in tokens {
      SpansOfTokens(tokens, s);
    }
    assert forall t :: t in tokens && (t.kind == Comment || t.kind == StringLiteral) ==> t.span in codeless;
    assert AllInText(LineOffsets(text), codeless) <==> forall s :: s in codeless ==> HasLines(text, s);
    assert AllInText(LineOffsets(text), docstrings) <==> forall s :: s in docstrings ==> HasLines(text, s);
  }

  // ---- The two views, computed ----

  datatype Views = Views(executable: Text, configuration: Text, parseFallback: bool)

  // Every span that is masked lies in the lines of the text.
  predicate AllMasksInText(text: Text, tokens: seq<Token>, docstrings: seq<Span>) {
    AllInText(LineOffsets(text), CodelessSpans(tokens)) && AllInText(LineOffsets(text), docstrings)
  }

  /** The executable and the configuration view. tokens and docstrings are what tokenizing and parsing
      found, or None where they failed. There are views exactly if every span to mask lies in the lines
      counted by LF; otherwise the search for its place raises. Each view has the text's length, and a
      position of it is blank exactly where some span of its kinds covers it and no line break stands. */
  method PythonSearchViews(text: Text, tokens: Option<seq<Token>>, docstrings: Option<seq<Span>>)
    returns (views: Option<Views>)
    ensures views.Some? <==> AllMasksInText(text, OrNone(tokens), OrNone(docstrings))
    ensures views.Some? ==>
              var offsets, masked := LineOffsets(text), CommentSpans(OrNone(tokens)) + OrNone(docstrings);
              && AllInText(offsets, masked)
              && IsMasked(views.value.executable, text, offsets, CodelessSpans(OrNone(tokens)))
              && IsMasked(views.value.configuration, text, offsets, masked)
              && (views.value.parseFallback <==> tokens.None? || docstrings.None?)
    ensures views.Some? <==>
              && (tokens.Some? ==>
                    forall t :: t in tokens.value && (t.kind == Comment || t.kind == StringLiteral) ==>
                      HasLines(text, t.span))
              && (docstrings.Some? ==> forall s :: s in docstrings.value ==> HasLines(text, s))
    ensures views.Some? ==>
              && IsExecutableView(views.value.executable, text, if tokens.Some? then tokens.value else [])
              && IsConfigurationView(views.value.configuration, text, if tokens.Some? then tokens.value else [],
                   if docstrings.Some? then docstrings.value else [])
  {
    hide IsMasked, IsExecutableView, IsConfigurationView, AllMasksInText, HasLines;
    MasksHaveLines(text, OrNone(tokens), OrNone(docstrings));
    var offsets := LineOffsets(text);
    var code := CopyOf(text);
    var config := CopyOf(text);
    var parseFallback := tokens.None?;
    var inText := MaskTokens(code, config, text, offsets, OrNone(tokens));
    if !inText {
      return None;
    }
    parseFallback := parseFallback || docstrings.None?;
    inText := MaskDocstrings(config, text, offsets, CommentSpans(OrNone(tokens)), OrNone(docstrings));
    if !inText {
      return None;
    }
    ViewsAre(text, OrNone(tokens), OrNone(docstrings), code[..], config[..]);
    return Some(Views(code[..], config[..], parseFallback));
  }

  // ---- Theorems ----

  /** The order of the spans and their repetition do not matter. */
  lemma MaskingIgnoresOrder(v: Text, w: Text, text: Text, offsets: seq<nat>, spans: seq<Span>, others: seq<Span>)
    requires AllInText(offsets, spans) && AllInText(offsets, others)
    requires forall s :: s in spans <==> s in others
    requires IsMasked(v, text, offsets, spans) && IsMasked(w, text, offsets, others)
    ensures v == w
  {
    forall i | 0 <= i < |text| ensures CoveredBySome(offsets, spans, i) <==> CoveredBySome(offsets, others, i) {
      if CoveredBySome(offsets, spans, i) {
        var j :| 0 <= j < |spans| && Covers(offsets, spans[j], i);
        assert spans[j] in others;
      }
      if CoveredBySome(offsets, others, i) {
        var j :| 0 <= j < |others| && Covers(offsets, others[j], i);
        assert others[j] in spans;
      }
    }
  }

  // Two texts with their LFs in the same places.
  predicate SameLines(v: Text, text: Text) {
    |v| == |text| && forall i :: 0 <= i < |v| ==> (v[i] == '\n' <==> text[i] == '\n')
  }

  lemma {:induction false} SameLinesSameOffsets(v: Text, text: Text)
    requires SameLines(v, text)
    ensures LineOffsets(v) == LineOffsets(text) && Newlines(v) == Newlines(text)
  {
    if v != [] {
      SameLinesSameOffsets(v[..|v| - 1], text[..|text| - 1]);
    }
  }

  /** Masking moves no line: the offsets of a view are those of the text. */
  lemma MaskingKeepsLines(view: Text, text: Text, spans: seq<Span>)
    requires AllInText(LineOffsets(text), spans) && IsMasked(view, text, LineOffsets(text), spans)
    ensures LineOffsets(view) == LineOffsets(text)
    ensures forall p :: 0 <= p <= |text| ==> Newlines(view[..p]) == Newlines(text[..p])
  {
    MaskedSameLines(view, text, LineOffsets(text), spans);
    hide IsMasked, LineOffsets, Newlines;
    SameLinesSameOffsets(view, text);
    forall p | 0 <= p <= |text| ensures Newlines(view[..p]) == Newlines(text[..p]) {
      SameLinesSamePrefix(view, text, p);
    }
  }

  lemma SameLinesSamePrefix(view: Text, text: Text, p: nat)
    requires SameLines(view, text) && p <= |text|
    ensures Newlines(view[..p]) == Newlines(text[..p])
  {
    SameLinesSameOffsets(view[..p], text[..p]);
  }

  lemma MaskedSameLines(view: Text, text: Text, offsets: seq<nat>, spans: seq<Span>)
    requires AllInText(offsets, spans) && IsMasked(view, text, offsets, spans)
    ensures SameLines(view, text)
  {
    hide CoveredBySome;
  }

  /** The line reported for a match in a masked view, found on the text's own offsets, is the line of
      that position in the view and in the text alike. */
  method LineOfMatch(view: Text, text: Text, ghost spans: seq<Span>, start: nat) returns (line: nat)
    requires AllInText(LineOffsets(text), spans) && IsMasked(view, text, LineOffsets(text), spans)
    requires start <= |view|
    ensures line == 1 + Newlines(view[..start]) == 1 + Newlines(text[..start])
  {
    OffsetsAreLineStarts(text);
    line := BisectRight(LineOffsets(text), start);
    BisectIsLine(text, start, line);
    MaskingKeepsLines(view, text, spans);
  }
}
