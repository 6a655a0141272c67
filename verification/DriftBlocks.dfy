/** Shell and YAML command blocks that mention the drift runner. */
module DriftBlocks {
  import opened SourceMasking

  // ---- Characters and strings ----

  // White space as str.strip and \s know it.
  predicate IsSpace(c: char) {
    || c == ' ' || '\t' <= c <= '\r' || '\U{1C}' <= c <= '\U{1F}'
    || c == '\U{85}' || c == '\U{A0}' || c == '\U{1680}' || '\U{2000}' <= c <= '\U{200A}'
    || c == '\U{2028}' || c == '\U{2029}' || c == '\U{202F}' || c == '\U{205F}' || c == '\U{3000}'
  }

  // The characters at which str.splitlines breaks; CR LF is one break.
  predicate BreaksLine(c: char) {
    || '\n' <= c <= '\r' || '\U{1C}' <= c <= '\U{1E}'
    || c == '\U{85}' || c == '\U{2028}' || c == '\U{2029}'
  }

  predicate IsCrLf(a: char, b: char) {
    a == '\r' && b == '\n'
  }

  function LStrip(s: Text): Text {
    if s != [] && IsSpace(s[0]) then LStrip(s[1..]) else s
  }

  function RStrip(s: Text): Text {
    if s != [] && IsSpace(s[|s| - 1]) then RStrip(s[..|s| - 1]) else s
  }

  function Strip(s: Text): Text {
    RStrip(LStrip(s))
  }

  predicate Contains(s: Text, part: Text) {
    exists i :: 0 <= i <= |s| && part <= s[i..]
  }

  predicate EndsWith(s: Text, c: char) {
    s != [] && s[|s| - 1] == c
  }

  predicate AllSpace(s: Text) {
    forall i :: 0 <= i < |s| ==> IsSpace(s[i])
  }

  lemma {:induction false} RStripShape(s: Text)
    ensures RStrip(s) <= s && AllSpace(s[|RStrip(s)|..])
    ensures RStrip(s) != [] ==> !IsSpace(RStrip(s)[|RStrip(s)| - 1])
  {
    if s != [] && IsSpace(s[|s| - 1]) {
      var n := |s| - 1;
      RStripShape(s[..n]);
      assert RStrip(s) == RStrip(s[..n]);
      assert forall i :: |RStrip(s)| <= i < n ==> s[i] == s[..n][|RStrip(s)|..][i - |RStrip(s)|];
    }
  }

  // What is left of a text ending in a visible character followed by spaces.
  lemma {:induction false} RStripOf(s: Text, n: nat)
    requires n <= |s| && AllSpace(s[n..]) && (n > 0 ==> !IsSpace(s[n - 1]))
    ensures RStrip(s) == s[..n]
  {
    if n < |s| {
      assert IsSpace(s[n..][|s| - 1 - n]);
      assert forall i :: 0 <= i < |s| - 1 - n ==> s[..|s| - 1][n..][i] == s[n..][i];
      RStripOf(s[..|s| - 1], n);
      assert s[..|s| - 1][..n] == s[..n];
    } else {
      assert s[..n] == s;
    }
  }

  lemma {:induction false} LStripShape(s: Text)
    ensures |LStrip(s)| <= |s| && LStrip(s) == s[|s| - |LStrip(s)|..]
    ensures LStrip(s) != [] ==> !IsSpace(LStrip(s)[0])
  {
    if s != [] && IsSpace(s[0]) {
      LStripShape(s[1..]);
    }
  }

  function Count(s: Text, c: char): nat {
    if s == [] then 0 else Count(s[..|s| - 1], c) + if s[|s| - 1] == c then 1 else 0
  }

  // ---- Lines ----

  // The lines of a text, each with its line break.
  function SplitLines(text: Text): seq<Text> {
    if text == [] then []
    else
      var n := |text| - 1;
      var before := SplitLines(text[..n]);
      if n == 0 || (BreaksLine(text[n - 1]) && !IsCrLf(text[n - 1], text[n])) then before + [[text[n]]]
      else if before == [] then [text]
      else before[..|before| - 1] + [before[|before| - 1] + [text[n]]]
  }

  function Concat(lines: seq<Text>): Text {
    if lines == [] then [] else Concat(lines[..|lines| - 1]) + lines[|lines| - 1]
  }

  // A line has no break but at its end.
  predicate IsLine(line: Text) {
    && line != []
    && forall i :: 0 <= i < |line| - 1 && BreaksLine(line[i]) ==> i == |line| - 2 && IsCrLf(line[i], line[i + 1])
  }

  predicate IsEnded(line: Text) {
    line != [] && BreaksLine(line[|line| - 1])
  }

  // No line ends with the CR of a CR LF that the next one would go on with.
  predicate Apart(line: Text, next: Text) {
    line != [] && next != [] ==> !IsCrLf(line[|line| - 1], next[0])
  }

  lemma ConcatNext(lines: seq<Text>, line: Text)
    ensures Concat(lines + [line]) == Concat(lines) + line
  {
    assert (lines + [line])[..|lines|] == lines;
  }

  /** The lines put together are the text, and a line break ends every line but perhaps the last. */
  lemma {:induction false} LinesMakeText(text: Text)
    ensures var lines := SplitLines(text);
            && Concat(lines) == text
            && AreLines(lines)
            && (lines == [] <==> text == [])
  {
    if text != [] {
      var n := |text| - 1;
      LinesMakeText(text[..n]);
      var before := SplitLines(text[..n]);
      assert text == text[..n] + [text[n]];
      if n == 0 || (BreaksLine(text[n - 1]) && !IsCrLf(text[n - 1], text[n])) {
        LineStarts(before, text[n]);
      } else {
        LineGrows(before, text[n]);
      }
      hide SplitLines, Concat, AreLines;
    }
  }

  ghost predicate AreLines(lines: seq<Text>) {
    && (forall i :: 0 <= i < |lines| ==> IsLine(lines[i]))
    && (forall i :: 0 <= i < |lines| - 1 ==> IsEnded(lines[i]) && Apart(lines[i], lines[i + 1]))
  }

  lemma LineStarts(before: seq<Text>, c: char)
    requires AreLines(before) && (Concat(before) == [] ==> before == [])
    requires var t := Concat(before); t != [] ==> IsEnded(t) && !IsCrLf(t[|t| - 1], c)
    ensures AreLines(before + [[c]]) && Concat(before + [[c]]) == Concat(before) + [c]
  {
    hide Concat;
    ConcatNext(before, [c]);
    if before != [] {
      LastOfConcat(before);
      assert IsEnded(before[|before| - 1]) && Apart(before[|before| - 1], [c]);
    }
  }

  lemma LineGrows(before: seq<Text>, c: char)
    requires before != [] && AreLines(before)
    requires var t := Concat(before); t != [] && (IsEnded(t) ==> IsCrLf(t[|t| - 1], c))
    ensures var m := |before| - 1;
            var grown := before[..m] + [before[m] + [c]];
            AreLines(grown) && Concat(grown) == Concat(before) + [c]
  {
    hide Concat;
    var m := |before| - 1;
    LastOfConcat(before);
    assert before[..m] + [before[m]] == before;
    ConcatNext(before[..m], before[m] + [c]);
    ConcatNext(before[..m], before[m]);
    assert Concat(before[..m]) + (before[m] + [c]) == Concat(before[..m]) + before[m] + [c];
    LongerLine(before[m], c);
  }

  lemma LongerLine(line: Text, c: char)
    requires IsLine(line) && (IsEnded(line) ==> IsCrLf(line[|line| - 1], c))
    ensures IsLine(line + [c])
  {
  }

  lemma LastOfConcat(lines: seq<Text>)
    requires lines != [] && lines[|lines| - 1] != []
    ensures Concat(lines) != []
    ensures var last := lines[|lines| - 1]; Concat(lines)[|Concat(lines)| - 1] == last[|last| - 1]
  {
  }

  // The line breaks of a text, CR LF counting as one.
  function Breaks(text: Text): nat {
    if text == [] then 0
    else
      var n := |text| - 1;
      Breaks(text[..n]) + if BreaksLine(text[n]) && !(n > 0 && IsCrLf(text[n - 1], text[n])) then 1 else 0
  }

  lemma {:induction false} BreaksOfConcat(a: Text, b: Text)
    requires Apart(a, b)
    ensures Breaks(a + b) == Breaks(a) + Breaks(b)
  {
    if b == [] {
      assert a + b == a;
    } else {
      assert (a + b)[..|a + b| - 1] == a + b[..|b| - 1];
      BreaksOfConcat(a, b[..|b| - 1]);
    }
  }

  lemma {:induction false} NoBreaks(s: Text)
    requires forall i :: 0 <= i < |s| ==> !BreaksLine(s[i])
    ensures Breaks(s) == 0
  {
    if s != [] {
      NoBreaks(s[..|s| - 1]);
    }
  }

  lemma OneBreak(line: Text)
    requires IsLine(line) && IsEnded(line)
    ensures Breaks(line) == 1
  {
    var n := |line| - 1;
    if n > 0 && IsCrLf(line[n - 1], line[n]) {
      NoBreaks(line[..n][..n - 1]);
    } else {
      NoBreaks(line[..n]);
    }
  }

  // Before line number index there are index breaks.
  lemma {:induction false} LineNumberIsLine(lines: seq<Text>, index: nat)
    requires index <= |lines| && AreLines(lines) && (index > 0 ==> IsEnded(lines[index - 1]))
    ensures Breaks(Concat(lines[..index])) == index
  {
    if index > 0 {
      var line, before := lines[index - 1], lines[..index - 1];
      assert index > 1 ==> IsEnded(lines[index - 2]) && Apart(lines[index - 2], line);
      LineNumberIsLine(lines, index - 1);
      assert lines[..index] == before + [line];
      ConcatNext(before, line);
      if before != [] {
        LastOfConcat(before);
      }
      OneBreak(line);
      BreaksOfConcat(Concat(before), line);
    }
  }

  // Every break of the text is an LF, or a CR with an LF behind it.
  predicate OnlyNewlines(text: Text) {
    forall i :: 0 <= i < |text| ==> NewlineAt(text, i)
  }

  /** The breaks are at least the LFs, and as many exactly in texts without any other break. */
  lemma {:induction false} BreaksAreNewlines(text: Text)
    ensures Newlines(text) <= Breaks(text)
    ensures Breaks(text) == Newlines(text) <==> OnlyNewlines(text)
  {
    if text != [] {
      var n := |text| - 1;
      if n > 0 && IsCrLf(text[n - 1], text[n]) {
        var before := text[..n][..n - 1];
        BreaksAreNewlines(before);
        assert Breaks(text[..n]) == Breaks(before) + 1 && Newlines(text[..n]) == Newlines(before);
        assert OnlyNewlines(before) <==> OnlyNewlines(text) by {
          OnlyNewlinesBefore(text, n - 1);
        }
      } else {
        BreaksAreNewlines(text[..n]);
        OnlyNewlinesLast(text);
      }
    }
  }

  // What OnlyNewlines asks of one place.
  predicate NewlineAt(text: Text, i: nat)
    requires i < |text|
  {
    BreaksLine(text[i]) ==> text[i] == '\n' || (i + 1 < |text| && IsCrLf(text[i], text[i + 1]))
  }

  lemma OnlyNewlinesBefore(text: Text, n: nat)
    requires n + 2 == |text| && IsCrLf(text[n], text[n + 1])
    ensures OnlyNewlines(text[..n + 1][..n]) <==> OnlyNewlines(text)
  {
    var before := text[..n + 1][..n];
    forall i | 0 <= i < n ensures NewlineAt(text, i) <==> NewlineAt(before, i) {
      assert before[i] == text[i] && (i + 1 < n ==> before[i + 1] == text[i + 1]);
    }
    assert NewlineAt(text, n) && NewlineAt(text, n + 1);
    hide BreaksLine, IsCrLf;
  }

  lemma OnlyNewlinesLast(text: Text)
    requires text != [] && !(|text| > 1 && IsCrLf(text[|text| - 2], text[|text| - 1]))
    ensures var n := |text| - 1;
            OnlyNewlines(text) <==> OnlyNewlines(text[..n]) && (BreaksLine(text[n]) ==> text[n] == '\n')
  {
    var n := |text| - 1;
    var before := text[..n];
    forall i | 0 <= i < n ensures NewlineAt(text, i) <==> NewlineAt(before, i) {
      assert before[i] == text[i] && (i + 1 < n ==> before[i + 1] == text[i + 1]);
    }
    assert NewlineAt(text, n) <==> (BreaksLine(text[n]) ==> text[n] == '\n');
    hide BreaksLine, IsCrLf;
  }

  function IndentWidth(line: Text): (n: nat)
    ensures n <= |line| && forall i :: 0 <= i < n ==> line[i] in " \t"
    ensures n < |line| ==> line[n] !in " \t"
  {
    if line != [] && (line[0] == ' ' || line[0] == '\t') then 1 + IndentWidth(line[1..]) else 0
  }

  // ---- A YAML block header ----

  // A match of :\s*[>|][-+]?\s*$ starting at i: a colon, spaces, > or |, perhaps - or +, spaces, the end.
  predicate HeaderAt(s: Text, i: nat, j: nat, k: nat) {
    && i < j < k <= |s|
    && s[i] == ':' && AllSpace(s[i + 1..j]) && (s[j] == '>' || s[j] == '|')
    && (k == j + 1 || (k == j + 2 && (s[j + 1] == '-' || s[j + 1] == '+')))
    && AllSpace(s[k..])
  }

  function FoldedHeader(s: Text): bool {
    var t := RStrip(s);
    var u := if EndsWith(t, '-') || EndsWith(t, '+') then t[..|t| - 1] else t;
    (EndsWith(u, '>') || EndsWith(u, '|')) && EndsWith(RStrip(u[..|u| - 1]), ':')
  }

  /** Reading the header from its end finds a match iff there is one anywhere. */
  lemma FoldedHeaderIsMatch(s: Text)
    ensures FoldedHeader(s) <==> exists i, j, k :: HeaderAt(s, i, j, k)
  {
    if FoldedHeader(s) {
      var i, j, k := MatchOfHeader(s);
    }
    if i, j, k :| HeaderAt(s, i, j, k) {
      HeaderOfMatch(s, i, j, k);
    }
  }

  lemma MatchOfHeader(s: Text) returns (i: nat, j: nat, k: nat)
    requires FoldedHeader(s)
    ensures HeaderAt(s, i, j, k)
  {
    hide RStrip, AllSpace, IsSpace;
    k := Stripped(s);
    var t := s[..k];
    var m := if EndsWith(t, '-') || EndsWith(t, '+') then k - 1 else k;
    assert t[..k] == t && (if m == k then t else t[..k - 1]) == s[..m];
    j := m - 1;
    assert s[..m][..j] == s[..j];
    var n := Stripped(s[..j]);
    i := n - 1;
    assert s[..j][n..] == s[i + 1..j] && s[..j][..n] == s[..n];
  }

  lemma Stripped(s: Text) returns (n: nat)
    ensures n <= |s| && RStrip(s) == s[..n] && AllSpace(s[n..])
  {
    RStripShape(s);
    n := |RStrip(s)|;
    hide RStrip, IsSpace;
  }

  lemma HeaderOfMatch(s: Text, i: nat, j: nat, k: nat)
    requires HeaderAt(s, i, j, k)
    ensures FoldedHeader(s)
  {
    hide IsSpace, RStrip, EndsWith;
    HeaderStrips(s, i, j, k);
    HeaderReads(s, j, k);
    ColonReads(s[..i + 1]);
  }

  lemma HeaderStrips(s: Text, i: nat, j: nat, k: nat)
    requires HeaderAt(s, i, j, k)
    ensures RStrip(s) == s[..k] && RStrip(s[..j]) == s[..i + 1] && s[..i + 1][i] == ':'
  {
    assert !IsSpace(s[k - 1]) && !IsSpace(s[i]);
    assert s[..j][i + 1..] == s[i + 1..j];
    hide IsSpace, RStrip;
    RStripOf(s, k);
    RStripOf(s[..j], i + 1);
    assert s[..j][..i + 1] == s[..i + 1];
  }

  // What is left of the header without the sign that may end it.
  lemma HeaderReads(s: Text, j: nat, k: nat)
    requires j < k <= |s| && (s[j] == '>' || s[j] == '|')
    requires k == j + 1 || (k == j + 2 && (s[j + 1] == '-' || s[j + 1] == '+'))
    ensures var t := s[..k];
            var u := if EndsWith(t, '-') || EndsWith(t, '+') then t[..|t| - 1] else t;
            (EndsWith(u, '>') || EndsWith(u, '|')) && u[..|u| - 1] == s[..j]
  {
    var t := s[..k];
    assert t[|t| - 1] == s[k - 1];
    var u := if k == j + 2 then t[..|t| - 1] else t;
    assert u == s[..j + 1] && u[|u| - 1] == s[j] && u[..|u| - 1] == s[..j];
  }

  lemma ColonReads(s: Text)
    requires s != [] && s[|s| - 1] == ':'
    ensures EndsWith(s, ':')
  {
  }

  // ---- What a block is ----

  const LOOKBACK := 20
  const LOOKAHEAD := 31

  predicate IsMarked(line: Text) {
    Contains(line, "run_drift_pipeline.py") || Contains(line, "verdict-pipeline")
  }

  function Before(lines: seq<Text>, index: nat): seq<Text>
    requires index <= |lines|
  {
    lines[if index < LOOKBACK then 0 else index - LOOKBACK..index]
  }

  function LastNonblank(lines: seq<Text>): Text {
    if lines == [] then []
    else if Strip(lines[|lines| - 1]) != [] then lines[|lines| - 1]
    else LastNonblank(lines[..|lines| - 1])
  }

  predicate YamlFolded(lines: seq<Text>, index: nat)
    requires index <= |lines|
  {
    FoldedHeader(LastNonblank(Before(lines, index)))
  }

  predicate ShellArray(lines: seq<Text>, index: nat)
    requires index <= |lines|
  {
    Count(Concat(Before(lines, index)), '(') > Count(Concat(Before(lines, index)), ')')
  }

  // Whether the line after previous goes on with the block that begins at index.
  predicate Continues(lines: seq<Text>, index: nat, previous: Text, candidate: Text)
    requires index < |lines|
  {
    var line := lines[index];
    var stripped := Strip(candidate);
    && stripped != []
    && !(YamlFolded(lines, index) && IndentWidth(candidate) < IndentWidth(line))
    && (|| EndsWith(RStrip(previous), '\\')
        || IndentWidth(candidate) > IndentWidth(line)
        || "--" <= stripped
        || ("-" <= LStrip(line) && "-" <= LStrip(candidate))
        || YamlFolded(lines, index)
        || ShellArray(lines, index))
  }

  predicate IsCloser(line: Text) {
    Strip(line) == ")"
  }

  // The line that closes a shell array ends its block; the first line of a block never does.
  predicate Closes(lines: seq<Text>, index: nat, j: nat)
    requires index <= j < |lines|
  {
    j > index && ShellArray(lines, index) && IsCloser(lines[j])
  }

  // Line j belongs to the block of index if line j - 1 does.
  predicate Joins(lines: seq<Text>, index: nat, j: nat)
    requires index < j < |lines|
  {
    !Closes(lines, index, j - 1) && Continues(lines, index, lines[j - 1], lines[j])
  }

  // lines[index..end] is a run of at most 31 lines that join, and no longer one is.
  ghost predicate MaximalRun(lines: seq<Text>, index: nat, end: nat) {
    && index < end <= |lines| && end <= index + LOOKAHEAD
    && (forall j :: index < j < end ==> Joins(lines, index, j))
    && (end < |lines| && end < index + LOOKAHEAD ==> !Joins(lines, index, end))
  }

  // The end of the run that has reached line n.
  function RunEnd(lines: seq<Text>, index: nat, n: nat): (end: nat)
    requires index < n <= |lines|
    ensures n <= end <= |lines|
    decreases |lines| - n
  {
    if n < |lines| && n < index + LOOKAHEAD && Joins(lines, index, n) then RunEnd(lines, index, n + 1) else n
  }

  lemma {:induction false} RunEndIsMaximal(lines: seq<Text>, index: nat, n: nat)
    requires index < n <= |lines| && n <= index + LOOKAHEAD
    requires forall j :: index < j < n ==> Joins(lines, index, j)
    ensures MaximalRun(lines, index, RunEnd(lines, index, n))
    decreases |lines| - n
  {
    hide Joins;
    if n < |lines| && n < index + LOOKAHEAD && Joins(lines, index, n) {
      RunEndIsMaximal(lines, index, n + 1);
    }
  }

  function StrippedLines(block: seq<Text>): seq<Text> {
    if block == [] then [] else StrippedLines(block[..|block| - 1]) + [Strip(block[|block| - 1])]
  }

  function Joined(parts: seq<Text>): Text {
    if parts == [] then []
    else if |parts| == 1 then parts[0]
    else Joined(parts[..|parts| - 1]) + " " + parts[|parts| - 1]
  }

  datatype Block = Block(line: nat, command: Text)

  ghost predicate IsBlockAt(lines: seq<Text>, index: nat, b: Block) {
    && index < |lines| && b.line == index + 1
    && exists end: nat :: MaximalRun(lines, index, end) && b.command == Joined(StrippedLines(lines[index..end]))
  }

  // The marked lines before a given one, in order.
  function Marked(lines: seq<Text>, limit: nat): (indexes: seq<nat>)
    requires limit <= |lines|
    ensures forall i :: 0 <= i < |indexes| ==> indexes[i] < limit
  {
    if limit == 0 then []
    else Marked(lines, limit - 1) + if IsMarked(lines[limit - 1]) then [limit - 1] else []
  }

  function BlockAt(lines: seq<Text>, index: nat): Block
    requires index < |lines|
  {
    Block(index + 1, Joined(StrippedLines(lines[index..RunEnd(lines, index, index + 1)])))
  }

  function BlocksUpTo(lines: seq<Text>, limit: nat): seq<Block>
    requires limit <= |lines|
  {
    if limit == 0 then []
    else BlocksUpTo(lines, limit - 1) + if IsMarked(lines[limit - 1]) then [BlockAt(lines, limit - 1)] else []
  }

  // The blocks of a text.
  function BlocksOf(text: Text): seq<Block> {
    BlocksUpTo(SplitLines(text), |SplitLines(text)|)
  }

  // ---- The extractor ----

  method PreviousNonempty(before: seq<Text>) returns (previous: Text)
    ensures previous == LastNonblank(before)
  {
    previous := [];
    var n := |before|;
    assert before[..n] == before;
    while n > 0
      invariant n <= |before|
      invariant LastNonblank(before) == LastNonblank(before[..n])
      invariant previous == []
    {
      assert before[..n] != [];
      assert before[..n][..n - 1] == before[..n - 1];
      n := n - 1;
      if Strip(before[n]) != [] {
        return before[n];
      }
    }
  }

  method GoesOn(ghost lines: seq<Text>, ghost index: nat, line: Text, previous: Text, candidate: Text,
      yamlFolded: bool, shellArray: bool) returns (continuation: bool)
    requires index < |lines| && line == lines[index]
    requires yamlFolded == YamlFolded(lines, index) && shellArray == ShellArray(lines, index)
    ensures continuation <==> Continues(lines, index, previous, candidate)
  {
    hide YamlFolded, ShellArray, Strip, RStrip, LStrip, IndentWidth, EndsWith;
    var stripped := Strip(candidate);
    if stripped == [] {
      return false;
    }
    var indent := IndentWidth(candidate);
    var yamlItem := "-" <= LStrip(line) && "-" <= LStrip(candidate);
    continuation := EndsWith(RStrip(previous), '\\') || indent > IndentWidth(line) || "--" <= stripped || yamlItem
                    || yamlFolded || shellArray;
    if yamlFolded && indent < IndentWidth(line) {
      continuation := false;
    }
  }

  method BlockFrom(lines: seq<Text>, index: nat) returns (block: seq<Text>)
    requires index < |lines|
    ensures block == lines[index..RunEnd(lines, index, index + 1)]
  {
    var previousNonempty := PreviousNonempty(Before(lines, index));
    var yamlFolded := FoldedHeader(previousNonempty);
    var prefix := Concat(Before(lines, index));
    var shellArray := Count(prefix, '(') > Count(prefix, ')');
    hide FoldedHeader, LastNonblank, Concat, Count, Joins;
    block := Extend(lines, index, yamlFolded, shellArray);
  }

  // Appends lines to the block of index for as long as they continue it.
  method Extend(lines: seq<Text>, index: nat, yamlFolded: bool, shellArray: bool) returns (block: seq<Text>)
    requires index < |lines|
    requires yamlFolded == YamlFolded(lines, index) && shellArray == ShellArray(lines, index)
    ensures |block| >= 1 && index + |block| == RunEnd(lines, index, index + 1) <= |lines|
    ensures block == lines[index..index + |block|]
  {
    hide YamlFolded, ShellArray, Continues, IsCloser;
    var line := lines[index];
    block := [line];
    var previous := line;
    var n := index + 1;
    while n < |lines| && n < index + LOOKAHEAD
      invariant index < n <= |lines| && n <= index + LOOKAHEAD
      invariant block == lines[index..n] && previous == lines[n - 1]
      invariant RunEnd(lines, index, n) == RunEnd(lines, index, index + 1)
      invariant !Closes(lines, index, n - 1)
    {
      var candidate := lines[n];
      var continuation := GoesOn(lines, index, line, previous, candidate, yamlFolded, shellArray);
      if !continuation {
        break;
      }
      block := block + [candidate];
      previous := candidate;
      n := n + 1;
      if shellArray && IsCloser(candidate) {
        break;
      }
    }
  }

  method DriftCommandBlocks(text: Text) returns (blocks: seq<Block>)
    ensures blocks == BlocksOf(text)
  {
    hide SplitLines, IsMarked, Joined, StrippedLines, Joins, RunEnd;
    var lines := SplitLines(text);
    blocks := [];
    for index := 0 to |lines|
      invariant blocks == BlocksUpTo(lines, index)
    {
      if IsMarked(lines[index]) {
        var block := BlockFrom(lines, index);
        blocks := blocks + [Block(index + 1, Joined(StrippedLines(block)))];
      }
    }
  }

  // ---- Theorems ----

  /** One block for every marked line, in order, each the maximal run of its line. */
  lemma {:induction false} BlocksAreMaximalRuns(lines: seq<Text>, limit: nat)
    requires limit <= |lines|
    ensures |BlocksUpTo(lines, limit)| == |Marked(lines, limit)|
    ensures forall i :: 0 <= i < |Marked(lines, limit)| ==>
              IsMarked(lines[Marked(lines, limit)[i]])
                  && IsBlockAt(lines, Marked(lines, limit)[i], BlocksUpTo(lines, limit)[i])
    ensures forall n :: 0 <= n < limit && IsMarked(lines[n]) ==> n in Marked(lines, limit)
    ensures forall i, j :: 0 <= i < j < |Marked(lines, limit)| ==> Marked(lines, limit)[i] < Marked(lines, limit)[j]
  {
    hide IsMarked, IsBlockAt, BlockAt;
    if limit > 0 {
      BlocksAreMaximalRuns(lines, limit - 1);
      BlockAtIsBlock(lines, limit - 1);
    }
  }

  lemma BlockAtIsBlock(lines: seq<Text>, index: nat)
    requires index < |lines|
    ensures IsBlockAt(lines, index, BlockAt(lines, index))
  {
    hide Joined, StrippedLines, Joins, RunEnd;
    RunEndIsMaximal(lines, index, index + 1);
  }

  predicate OneLine(s: Text) {
    forall i :: 0 <= i < |s| ==> !BreaksLine(s[i])
  }

  lemma StrippedIsOneLine(line: Text)
    requires IsLine(line)
    ensures OneLine(Strip(line))
  {
    LStripShape(line);
    RStripShape(LStrip(line));
    var s := Strip(line);
    var from := |line| - |LStrip(line)|;
    hide LStrip, RStrip;
    forall i | 0 <= i < |s| ensures !BreaksLine(s[i]) {
      assert s[i] == line[from + i] && !IsSpace(s[|s| - 1]);
      assert s[|s| - 1] == line[from + |s| - 1];
    }
  }

  lemma JoinedNext(parts: seq<Text>, part: Text)
    ensures Joined(parts + [part]) == if parts == [] then part else Joined(parts) + " " + part
  {
    assert (parts + [part])[..|parts|] == parts;
  }

  lemma {:induction false} JoinedIsOneLine(block: seq<Text>)
    requires forall i :: 0 <= i < |block| ==> IsLine(block[i])
    ensures |StrippedLines(block)| == |block| && OneLine(Joined(StrippedLines(block)))
  {
    if block != [] {
      var n := |block| - 1;
      JoinedIsOneLine(block[..n]);
      StrippedIsOneLine(block[n]);
      hide Strip, Joined;
      JoinedNext(StrippedLines(block[..n]), Strip(block[n]));
      assert StrippedLines(block) == StrippedLines(block[..n]) + [Strip(block[n])];
      hide StrippedLines, IsLine;
    }
  }

  /** A block's number counts the line breaks before the place in the text where it starts. It is the
      line by LFs exactly if no other break comes before. Its command has no line break. */
  lemma BlocksAreCommands(text: Text, index: nat, b: Block)
    requires IsBlockAt(SplitLines(text), index, b)
    ensures var before := Concat(SplitLines(text)[..index]);
            && before <= text
            && b.line == 1 + Breaks(before)
            && (b.line == 1 + Newlines(before) <==> OnlyNewlines(before))
            && OneLine(b.command)
  {
    var lines := SplitLines(text);
    LinesMakeText(text);
    hide SplitLines, Concat, Newlines, Joins, Breaks, OnlyNewlines;
    assert index > 0 ==> IsEnded(lines[index - 1]);
    LineNumberIsLine(lines, index);
    ConcatPrefix(lines, index);
    BreaksAreNewlines(Concat(lines[..index]));
    CommandIsOneLine(lines, index, b);
  }

  // A break that stands alone and a line without break behind it are two lines.
  lemma {:induction false} LineAfterBreak(c: char, line: Text)
    requires BreaksLine(c) && line != [] && !IsCrLf(c, line[0]) && OneLine(line)
    ensures SplitLines([c] + line) == [[c], line]
  {
    var n := |line| - 1;
    var text := [c] + line;
    assert text[..n + 1] == [c] + line[..n];
    assert [c][..0] == [] && SplitLines([c]) == [[c]];
    if n > 0 {
      LineAfterBreak(c, line[..n]);
      assert text[n] == line[n - 1];
      assert line[..n] + [line[n]] == line;
      assert [[c], line[..n]][..1] == [[c]];
    } else {
      assert [c] + line[..0] == [c] && [line[0]] == line;
    }
  }

  // The block of the last of two lines, the first of which is not marked.
  lemma BlocksOfTwo(first: Text, line: Text)
    requires IsMarked(line) && !IsMarked(first)
    ensures BlocksUpTo([first, line], 2) == [Block(2, Strip(line))]
  {
    hide IsMarked, Strip;
    var lines := [first, line];
    assert lines[1..2] == [line];
    assert BlocksUpTo(lines, 0) == [];
    assert BlocksUpTo(lines, 1) == [];
    assert StrippedLines([line]) == [Strip(line)] by { assert [line][..0] == []; }
  }

  lemma CommandIsOneLine(lines: seq<Text>, index: nat, b: Block)
    requires AreLines(lines) && IsBlockAt(lines, index, b)
    ensures OneLine(b.command)
  {
    hide Joins, OneLine, StrippedLines, Joined;
    var end: nat :| MaximalRun(lines, index, end) && b.command == Joined(StrippedLines(lines[index..end]));
    JoinedIsOneLine(lines[index..end]);
  }

  lemma {:induction false} ConcatPrefix(lines: seq<Text>, index: nat)
    requires index <= |lines|
    ensures Concat(lines[..index]) <= Concat(lines)
  {
    if index < |lines| {
      ConcatPrefix(lines[..|lines| - 1], index);
      assert lines[..|lines| - 1][..index] == lines[..index];
    } else {
      assert lines[..index] == lines;
    }
  }
}
