/** When a line goes on with a command block, told by what stands where in the lines. */
module DriftMeaning {
  import opened SourceMasking
  import opened DriftBlocks

  // ---- Characters, words and ends of lines ----

  const SPACES: Text :=
    "\t\n\U{B}\U{C}\r\U{1C}\U{1D}\U{1E}\U{1F} \U{85}\U{A0}\U{1680}"
    + "\U{2000}\U{2001}\U{2002}\U{2003}\U{2004}\U{2005}\U{2006}\U{2007}\U{2008}\U{2009}\U{200A}"
    + "\U{2028}\U{2029}\U{202F}\U{205F}\U{3000}"

  const BREAKS: Text := "\n\U{B}\U{C}\r\U{1C}\U{1D}\U{1E}\U{85}\U{2028}\U{2029}"

  /** White space and line breaks are the characters of these lists. */
  lemma CharactersAreListed(c: char)
    ensures IsSpace(c) <==> c in SPACES
    ensures BreaksLine(c) <==> c in BREAKS
  {
    assert IsSpace(c) ==> c in SPACES;
    assert BreaksLine(c) ==> c in BREAKS;
  }

  /** Stripping cuts a text down to its part from the first visible character to the last. */
  lemma StripIsCore(s: Text) returns (a: nat, b: nat)
    ensures a <= b <= |s| && Strip(s) == s[a..b] && AllSpace(s[..a]) && AllSpace(s[b..])
    ensures a < b ==> !IsSpace(s[a]) && !IsSpace(s[b - 1])
    ensures a == b ==> AllSpace(s)
    ensures LStrip(s) == s[a..]
  {
    LStripIsRest(s);
    a := |s| - |LStrip(s)|;
    LStripShape(s);
    RStripShape(LStrip(s));
    b := a + |Strip(s)|;
    hide LStrip, RStrip;
    assert s[a..][|Strip(s)|..] == s[b..];
    if a == b {
      assert s == s[..a] + s[b..];
    }
  }

  lemma {:induction false} LStripIsRest(s: Text)
    ensures |LStrip(s)| <= |s| && AllSpace(s[..|s| - |LStrip(s)|])
  {
    if s != [] && IsSpace(s[0]) {
      LStripIsRest(s[1..]);
      var n := |s| - |LStrip(s)|;
      assert s[..n] == [s[0]] + s[1..][..n - 1];
    }
  }

  // Some place of s with nothing but white space before it, at which part stands.
  ghost predicate BeginsWith(s: Text, part: Text) {
    exists i :: 0 <= i <= |s| && AllSpace(s[..i]) && part <= s[i..]
  }

  // The last visible character of s is c.
  ghost predicate EndsVisibly(s: Text, c: char) {
    exists i :: 0 <= i < |s| && s[i] == c && AllSpace(s[i + 1..])
  }

  // Nothing is visible in s but c.
  ghost predicate ShowsOnly(s: Text, c: char) {
    exists i :: 0 <= i < |s| && s[i] == c && AllSpace(s[..i]) && AllSpace(s[i + 1..])
  }

  lemma AfterSpaces(s: Text, i: nat, k: nat)
    requires i < |s| && k <= |s| && AllSpace(s[..i]) && !IsSpace(s[i]) && AllSpace(s[..k])
    ensures k <= i
  {
    hide IsSpace;
    assert forall m :: 0 <= m < k ==> s[..k][m] == s[m];
  }

  lemma BeforeSpaces(s: Text, i: nat, k: nat)
    requires i < |s| && k <= |s| && !IsSpace(s[i]) && AllSpace(s[k..])
    ensures i < k
  {
    hide IsSpace;
    assert forall m :: k <= m < |s| ==> s[k..][m - k] == s[m];
  }

  lemma BlankStrips(s: Text)
    ensures Strip(s) == [] <==> AllSpace(s)
  {
    var a, b := StripIsCore(s);
    hide Strip, LStrip, IsSpace;
    if a < b {
      assert !IsSpace(s[a]);
    }
  }

  lemma LStripBegins(s: Text, part: Text)
    requires part != [] && !IsSpace(part[0])
    ensures part <= LStrip(s) <==> BeginsWith(s, part)
  {
    var a, b := StripIsCore(s);
    hide Strip, LStrip, IsSpace;
    if i :| 0 <= i <= |s| && AllSpace(s[..i]) && part <= s[i..] {
      assert s[i] == part[0];
      if a < b {
        AfterSpaces(s, i, a);
        AfterSpaces(s, a, i);
      }
      assert a == i;
    }
  }

  lemma StripBegins(s: Text, part: Text)
    requires part != [] && forall k :: 0 <= k < |part| ==> !IsSpace(part[k])
    ensures part <= Strip(s) <==> BeginsWith(s, part)
  {
    LStripBegins(s, part);
    var a, b := StripIsCore(s);
    hide Strip, LStrip, IsSpace;
    if part <= s[a..] {
      var last := a + |part| - 1;
      assert s[last] == s[a..][|part| - 1] == part[|part| - 1];
      BeforeSpaces(s, last, b);
      assert s[a..b][..|part|] == s[a..][..|part|];
    }
    if part <= s[a..b] {
      assert s[a..b][..|part|] == s[a..][..|part|];
    }
  }

  lemma RStripEnds(s: Text, c: char)
    requires !IsSpace(c)
    ensures EndsWith(RStrip(s), c) <==> EndsVisibly(s, c)
  {
    RStripShape(s);
    var n := |RStrip(s)|;
    hide RStrip, IsSpace;
    if EndsWith(RStrip(s), c) {
      assert s[n - 1] == c && s[n..] == s[n - 1 + 1..];
    }
    if i :| 0 <= i < |s| && s[i] == c && AllSpace(s[i + 1..]) {
      BeforeSpaces(s, i, n);
      assert forall m :: i < m < |s| ==> s[i + 1..][m - i - 1] == s[m];
    }
  }

  lemma StripShows(s: Text, c: char)
    requires !IsSpace(c)
    ensures Strip(s) == [c] <==> ShowsOnly(s, c)
  {
    var a, b := StripIsCore(s);
    hide Strip, LStrip, IsSpace;
    if s[a..b] == [c] {
      assert s[a] == c && b == a + 1;
    }
    if i :| 0 <= i < |s| && s[i] == c && AllSpace(s[..i]) && AllSpace(s[i + 1..]) {
      assert a < b;
      AfterSpaces(s, i, a);
      AfterSpaces(s, a, i);
      BeforeSpaces(s, b - 1, i + 1);
      assert s[a..b] == [c];
    }
  }

  lemma {:induction false} CountIsMultiplicity(s: Text, c: char)
    ensures Count(s, c) == multiset(s)[c]
  {
    if s != [] {
      CountIsMultiplicity(s[..|s| - 1], c);
      assert s == s[..|s| - 1] + [s[|s| - 1]];
    }
  }

  // ---- What a block goes on with ----

  // The last line that shows something among the 20 before index.
  ghost predicate LastVisible(lines: seq<Text>, index: nat, k: nat)
    requires index <= |lines|
  {
    k < index <= k + 20 && !AllSpace(lines[k]) && forall m :: k < m < index ==> AllSpace(lines[m])
  }

  ghost predicate UnderHeader(lines: seq<Text>, index: nat)
    requires index <= |lines|
  {
    exists k: nat, i, j, l :: LastVisible(lines, index, k) && HeaderAt(lines[k], i, j, l)
  }

  // The 20 lines before index open more parentheses than they close.
  ghost predicate InArray(lines: seq<Text>, index: nat)
    requires index <= |lines|
  {
    var before := multiset(Concat(lines[if index < 20 then 0 else index - 20..index]));
    before['('] > before[')']
  }

  ghost predicate GoesOnAt(lines: seq<Text>, index: nat, j: nat)
    requires index < j < |lines|
  {
    && !AllSpace(lines[j])
    && !(index < j - 1 && InArray(lines, index) && ShowsOnly(lines[j - 1], ')'))
    && !(UnderHeader(lines, index) && IndentWidth(lines[j]) < IndentWidth(lines[index]))
    && (|| EndsVisibly(lines[j - 1], '\\')
        || IndentWidth(lines[j]) > IndentWidth(lines[index])
        || BeginsWith(lines[j], "--")
        || (BeginsWith(lines[index], "-") && BeginsWith(lines[j], "-"))
        || UnderHeader(lines, index)
        || InArray(lines, index))
  }

  lemma {:induction false} LastNonblankIsLast(lines: seq<Text>)
    ensures LastNonblank(lines) == [] <==> forall k :: 0 <= k < |lines| ==> AllSpace(lines[k])
    ensures LastNonblank(lines) != [] ==>
              exists k :: 0 <= k < |lines| && lines[k] == LastNonblank(lines) && !AllSpace(lines[k])
                          && forall m :: k < m < |lines| ==> AllSpace(lines[m])
  {
    hide Strip, AllSpace;
    if lines != [] {
      var n := |lines| - 1;
      BlankStrips(lines[n]);
      if Strip(lines[n]) == [] {
        LastNonblankIsLast(lines[..n]);
        assert forall k :: 0 <= k < n ==> lines[..n][k] == lines[k];
        if LastNonblank(lines) != [] {
          var k :| 0 <= k < n && lines[..n][k] == LastNonblank(lines) && !AllSpace(lines[..n][k])
              && forall m :: k < m < n ==> AllSpace(lines[..n][m]);
          assert lines[k] == LastNonblank(lines);
        }
      } else {
        assert lines[n] == LastNonblank(lines);
        NothingIsBlank();
      }
    }
  }

  lemma NothingIsBlank()
    ensures AllSpace([]) && !FoldedHeader([])
  {
  }

  lemma LastVisibleIs(lines: seq<Text>, index: nat, k: nat)
    requires index <= |lines| && LastVisible(lines, index, k)
    ensures LastNonblank(Before(lines, index)) == lines[k]
  {
    var before, first := Before(lines, index), if index < 20 then 0 else index - 20;
    assert forall m :: 0 <= m < |before| ==> before[m] == lines[first + m];
    assert before[k - first] == lines[k];
    LastNonblankIsLast(before);
    hide LastNonblank, AllSpace;
  }

  lemma LastVisibleFound(lines: seq<Text>, index: nat) returns (k: nat)
    requires index <= |lines| && LastNonblank(Before(lines, index)) != []
    ensures LastVisible(lines, index, k) && lines[k] == LastNonblank(Before(lines, index))
  {
    var before, first := Before(lines, index), if index < 20 then 0 else index - 20;
    LastNonblankIsLast(before);
    hide LastNonblank, AllSpace, Before;
    var n :| 0 <= n < |before| && before[n] == LastNonblank(before) && !AllSpace(before[n])
        && forall m :: n < m < |before| ==> AllSpace(before[m]);
    assert forall m :: first + n < m < index ==> lines[m] == before[m - first];
    return first + n;
  }

  lemma FoldedIsUnderHeader(lines: seq<Text>, index: nat)
    requires index <= |lines|
    ensures YamlFolded(lines, index) <==> UnderHeader(lines, index)
  {
    FoldedHeaderIsMatch(LastNonblank(Before(lines, index)));
    hide FoldedHeader, LastNonblank, LastVisible, HeaderAt, Before;
    if YamlFolded(lines, index) {
      NothingIsBlank();
      var k := LastVisibleFound(lines, index);
    }
    if k: nat, i, j, l :| LastVisible(lines, index, k) && HeaderAt(lines[k], i, j, l) {
      LastVisibleIs(lines, index, k);
    }
  }

  lemma ShellIsArray(lines: seq<Text>, index: nat)
    requires index <= |lines|
    ensures ShellArray(lines, index) <==> InArray(lines, index)
  {
    CountIsMultiplicity(Concat(Before(lines, index)), '(');
    CountIsMultiplicity(Concat(Before(lines, index)), ')');
  }

  /** A line joins the block before it exactly if it is not blank, does not follow the parenthesis that closes
      a shell array, is not indented less under a folded header, and goes on for one of six reasons. */
  lemma JoinsAreExact(lines: seq<Text>, index: nat, j: nat)
    requires index < j < |lines|
    ensures Joins(lines, index, j) <==> GoesOnAt(lines, index, j)
  {
    hide AllSpace, LastVisible, HeaderAt, LastNonblank, Concat, Count, FoldedHeader;
    BlankStrips(lines[j]);
    FoldedIsUnderHeader(lines, index);
    ShellIsArray(lines, index);
    StripShows(lines[j - 1], ')');
    RStripEnds(lines[j - 1], '\\');
    StripBegins(lines[j], "--");
    LStripBegins(lines[j], "-");
    LStripBegins(lines[index], "-");
    hide YamlFolded, UnderHeader, ShellArray, InArray, Strip, LStrip, RStrip, IndentWidth, AllSpace, BeginsWith,
      EndsVisibly, ShowsOnly, EndsWith;
  }

  // ---- The blocks of a text ----

  ghost predicate Mentions(line: Text, word: Text) {
    exists i :: 0 <= i <= |line| && word <= line[i..]
  }

  ghost predicate MentionsRunner(line: Text) {
    Mentions(line, "run_drift_pipeline.py") || Mentions(line, "verdict-pipeline")
  }

  // The part of a line from its first visible character to its last.
  ghost predicate IsCore(core: Text, line: Text) {
    exists a, b :: 0 <= a <= b <= |line| && core == line[a..b] && AllSpace(line[..a]) && AllSpace(line[b..])
                   && (core != [] ==> !IsSpace(core[0]) && !IsSpace(core[|core| - 1]))
  }

  // The cores of the lines of a block, with one space between any two.
  ghost predicate IsCommandOf(command: Text, block: seq<Text>) {
    if block == [] then command == []
    else if |block| == 1 then IsCore(command, block[0])
    else exists n :: 0 <= n < |command| && IsCore(command[..n], block[0]) && command[n] == ' '
                     && IsCommandOf(command[n + 1..], block[1..])
  }

  ghost predicate IsBlockOf(text: Text, index: nat, b: Block) {
    var lines := SplitLines(text);
    && index < |lines| && MentionsRunner(lines[index])
    && b.line == index + 1
    && exists end: nat :: BlockEnds(lines, index, end) && IsCommandOf(b.command, lines[index..end])
  }

  // As many of the next 30 lines as go on with the line.
  ghost predicate BlockEnds(lines: seq<Text>, index: nat, end: nat) {
    && index < end <= |lines| && end <= index + 31
    && (forall j :: index < j < end ==> GoesOnAt(lines, index, j))
    && (end < |lines| && end < index + 31 ==> !GoesOnAt(lines, index, end))
  }

  lemma StripIsACore(line: Text)
    ensures IsCore(Strip(line), line)
  {
    var a, b := StripIsCore(line);
    hide Strip, LStrip, IsSpace;
    assert a < b ==> line[a..b][0] == line[a] && line[a..b][b - a - 1] == line[b - 1];
  }

  lemma {:induction false} JoinedFromFront(first: Text, parts: seq<Text>)
    requires parts != []
    ensures Joined([first] + parts) == first + " " + Joined(parts)
  {
    var n := |parts| - 1;
    var all := [first] + parts;
    assert all[..n + 1] == [first] + parts[..n];
    if n > 0 {
      JoinedFromFront(first, parts[..n]);
      assert first + " " + Joined(parts[..n]) + " " + parts[n] == first + " " + (Joined(parts[..n]) + " " + parts[n]);
    } else {
      assert Joined([first]) == first;
    }
  }

  lemma {:induction false} StrippedFromFront(block: seq<Text>)
    requires block != []
    ensures StrippedLines(block) == [Strip(block[0])] + StrippedLines(block[1..])
    ensures |StrippedLines(block)| == |block|
  {
    hide Strip;
    var n := |block| - 1;
    if n > 0 {
      StrippedFromFront(block[..n]);
      assert block[..n][1..] == block[1..][..n - 1];
    } else {
      assert block[..n] == [];
    }
  }

  lemma {:induction false} CommandIsJoined(block: seq<Text>)
    ensures IsCommandOf(Joined(StrippedLines(block)), block)
  {
    if block != [] {
      StrippedFromFront(block);
      StripIsACore(block[0]);
      hide Strip, IsCore;
      if |block| == 1 {
        assert StrippedLines(block) == [Strip(block[0])];
      } else {
        CommandIsJoined(block[1..]);
        StrippedFromFront(block[1..]);
        hide StrippedLines;
        var core, rest := Strip(block[0]), Joined(StrippedLines(block[1..]));
        JoinedFromFront(core, StrippedLines(block[1..]));
        hide Joined;
        var command := core + " " + rest;
        assert command[..|core|] == core && command[|core|] == ' ' && command[|core| + 1..] == rest;
      }
    }
  }

  lemma RunsEnd(lines: seq<Text>, index: nat, end: nat)
    requires MaximalRun(lines, index, end)
    ensures BlockEnds(lines, index, end)
  {
    forall j | index < j < |lines| ensures Joins(lines, index, j) <==> GoesOnAt(lines, index, j) {
      JoinsAreExact(lines, index, j);
    }
    hide Joins, GoesOnAt;
  }

  /** The blocks of a text: one for each line that mentions the runner, in order. */
  lemma BlocksAreOfLines(text: Text) returns (at: seq<nat>)
    ensures |at| == |BlocksOf(text)|
    ensures forall i :: 0 <= i < |at| ==> IsBlockOf(text, at[i], BlocksOf(text)[i])
    ensures forall i, j :: 0 <= i < j < |at| ==> at[i] < at[j]
    ensures forall n :: 0 <= n < |SplitLines(text)| && MentionsRunner(SplitLines(text)[n]) ==> n in at
  {
    var lines := SplitLines(text);
    at := Marked(lines, |lines|);
    BlocksAreMaximalRuns(lines, |lines|);
    hide SplitLines, MaximalRun, BlockEnds, Joined, StrippedLines, IsCommandOf, BlocksUpTo;
    forall i | 0 <= i < |at| ensures IsBlockOf(text, at[i], BlocksOf(text)[i]) {
      var b := BlocksOf(text)[i];
      assert IsBlockAt(lines, at[i], b);
      var end: nat :| MaximalRun(lines, at[i], end) && b.command == Joined(StrippedLines(lines[at[i]..end]));
      RunsEnd(lines, at[i], end);
      CommandIsJoined(lines[at[i]..end]);
    }
  }
}
