/** What a complete report says: each finding goes back to one place in one file, and no place is left out. */
module ScanMeaning {
  import opened Options
  import opened Ordering
  import opened SourceMasking
  import opened DriftBlocks
  import opened RepositoryScan

  // ---- Where a finding comes from ----

  datatype Kind = Fallback | Match | Drift

  // A file by its number; for a match its rule and which of the rule's matches it is, for a drift
  // finding its block and its rule.
  datatype Origin = Origin(file: nat, kind: Kind, outer: nat, inner: nat)

  // The files that were read, with all there is to mask in their lines.
  predicate Masked(files: seq<File>) {
    forall i :: 0 <= i < |files| ==> SpansFit(files[i])
  }

  // The view a rule searches.
  function Searched(rule: Rule, f: File): Text
    requires f.Readable? && SpansFit(f)
  {
    if rule.sourceOnly then Executable(f) else Configuration(f)
  }

  ghost predicate IsOrigin(p: Patterns, files: seq<File>, o: Origin)
    requires Masked(files)
  {
    && o.file < |files| && files[o.file].Readable?
    && match o.kind
       case Fallback => o.outer == 0 && o.inner == 0 && InPart(files[o.file])
       case Match => o.outer < |p.rules| && IsMatch(p, files[o.file], p.rules[o.outer], o.inner)
       case Drift => o.inner < |p.driftRules| && IsDrift(p, files[o.file], o.outer, p.driftRules[o.inner])
  }

  // Python that could not be read in full.
  ghost predicate InPart(f: File)
    requires f.Readable?
  {
    f.language == Some("python") && (f.tokens.None? || f.docstrings.None?)
  }

  // A rule for source applies to files of a known language, and one for dependencies to manifests.
  ghost predicate IsMatch(p: Patterns, f: File, rule: Rule, n: nat)
    requires f.Readable? && SpansFit(f)
  {
    && (rule.sourceOnly ==> f.language != None)
    && (rule.category == "dependency" ==> f.manifest)
    && n < |p.starts(rule, Searched(rule, f))|
  }

  ghost predicate IsDrift(p: Patterns, f: File, n: nat, rule: Rule)
    requires f.Readable? && SpansFit(f)
  {
    n < |BlocksOf(Configuration(f))| && p.matches(rule, BlocksOf(Configuration(f))[n].command)
  }

  // The finding that has this origin.
  ghost predicate ComesFrom(p: Patterns, files: seq<File>, x: Finding, o: Origin)
    requires Masked(files) && IsOrigin(p, files, o)
  {
    var f := files[o.file];
    && x.path == f.path && x.language == f.language
    && match o.kind
       case Fallback =>
         && x.ruleId == "python-parse-fallback" && x.category == "scanner-limit" && x.line == 1 && x.support == "review"
         && x.finding == "Python parsing was incomplete for this file."
         && x.remediation == "Review this file manually; executable-code masking may be incomplete."
       case Match => IsOfMatch(x, f, p.rules[o.outer],
           p.starts(p.rules[o.outer], Searched(p.rules[o.outer], f))[o.inner])
       case Drift =>
         var rule, b := p.driftRules[o.inner], BlocksOf(Configuration(f))[o.outer];
         && x.ruleId == rule.id && x.category == rule.category && x.line == b.line && x.support == rule.support
         && x.finding == rule.finding && x.remediation == rule.remediation
  }

  // The line counts the LFs of the file's own text before the match. A rule for what is released for
  // Python alone says of any other file that it is not supported.
  ghost predicate IsOfMatch(x: Finding, f: File, rule: Rule, start: nat)
    requires f.Readable?
  {
    && x.ruleId == rule.id && x.category == rule.category && x.finding == rule.finding
    && x.line == 1 + multiset(f.text[..if start < |f.text| then start else |f.text|])['\n']
    && if rule.pythonSupported && f.language != Some("python") then
         && x.support == "unsupported"
         && x.remediation == "Released auto-instrumentation is Python-only; classify this path as "
                             + "unsupported or propose a separately approved unverified adapter."
       else x.support == rule.support && x.remediation == rule.remediation
  }

  // ---- Origins in the order of discovery ----

  function Rank(k: Kind): nat {
    match k
    case Fallback => 0
    case Match => 1
    case Drift => 2
  }

  predicate Less(a: Origin, b: Origin) {
    if a.file != b.file then a.file < b.file
    else if a.kind != b.kind then Rank(a.kind) < Rank(b.kind)
    else if a.outer != b.outer then a.outer < b.outer
    else a.inner < b.inner
  }

  // The origins from lo up to hi, each once and in order, and the findings that come from them.
  ghost predicate Lists(p: Patterns, files: seq<File>, lo: Origin, hi: Origin, origins: seq<Origin>,
      found: seq<Finding>)
    requires Masked(files)
  {
    && |origins| == |found|
    && (forall o :: o in origins <==> IsOrigin(p, files, o) && !Less(o, lo) && Less(o, hi))
    && (forall i, j :: 0 <= i < j < |origins| ==> Less(origins[i], origins[j]))
    && (forall i :: 0 <= i < |origins| ==>
          IsOrigin(p, files, origins[i]) && ComesFrom(p, files, found[i], origins[i]))
  }

  lemma ListsMore(p: Patterns, files: seq<File>, lo: Origin, mid: Origin, hi: Origin, a: seq<Origin>, b: seq<Origin>,
      xs: seq<Finding>, ys: seq<Finding>)
    requires Masked(files) && Lists(p, files, lo, mid, a, xs) && Lists(p, files, mid, hi, b, ys)
    requires !Less(mid, lo) && !Less(hi, mid)
    ensures Lists(p, files, lo, hi, a + b, xs + ys)
  {
    hide IsOrigin, ComesFrom;
    forall i, j | 0 <= i < j < |a + b| ensures Less((a + b)[i], (a + b)[j]) {
      if i < |a| <= j {
        assert (a + b)[i] in a && (a + b)[j] in b;
      }
    }
  }

  lemma ListsNone(p: Patterns, files: seq<File>, lo: Origin, hi: Origin)
    requires Masked(files)
    requires forall o :: !Less(o, lo) && Less(o, hi) ==> !IsOrigin(p, files, o)
    ensures Lists(p, files, lo, hi, [], [])
  {
    hide IsOrigin;
  }

  lemma ListsOne(p: Patterns, files: seq<File>, o: Origin, hi: Origin, x: Finding)
    requires Masked(files) && IsOrigin(p, files, o) && ComesFrom(p, files, x, o) && Less(o, hi)
    requires forall other :: Less(o, other) && Less(other, hi) ==> !IsOrigin(p, files, other)
    ensures Lists(p, files, o, hi, [o], [x])
  {
    hide IsOrigin, ComesFrom;
    forall other ensures other in [o] <==> IsOrigin(p, files, other) && !Less(other, o) && Less(other, hi) {
      if other != o {
        assert Less(o, other) || Less(other, o);
      }
    }
  }

  // ---- Rules ----

  lemma MatchComesFrom(p: Patterns, files: seq<File>, i: nat, r: nat, n: nat)
    requires Masked(files) && IsOrigin(p, files, Origin(i, Match, r, n))
    ensures ComesFrom(p, files,
              MatchFinding(p.rules[r], files[i], p.starts(p.rules[r], Searched(p.rules[r], files[i]))[n]),
              Origin(i, Match, r, n))
  {
    var f := files[i];
    var start := p.starts(p.rules[r], Searched(p.rules[r], f))[n];
    hide Executable, Configuration, SpansFit;
    NewlinesAreCounted(f.text[..if start < |f.text| then start else |f.text|]);
    assert f.text[..|f.text|] == f.text;
  }

  lemma {:induction false} MatchesListed(p: Patterns, files: seq<File>, i: nat, r: nat, n: nat)
    returns (origins: seq<Origin>)
    requires Masked(files) && i < |files| && files[i].Readable? && r < |p.rules| && Applies(p.rules[r], files[i])
    requires n <= |p.starts(p.rules[r], Searched(p.rules[r], files[i]))|
    ensures Lists(p, files, Origin(i, Match, r, 0), Origin(i, Match, r, n), origins,
              MatchFindings(p.rules[r], files[i], p.starts(p.rules[r], Searched(p.rules[r], files[i]))[..n]))
  {
    var f, rule := files[i], p.rules[r];
    var starts := p.starts(rule, Searched(rule, f));
    hide Lists, ComesFrom, MatchFinding, Searched, Masked;
    if n == 0 {
      NoneBetween(p, files, Origin(i, Match, r, 0), Origin(i, Match, r, 0));
      assert starts[..0] == [];
      origins := [];
    } else {
      var before := MatchesListed(p, files, i, r, n - 1);
      var o, mid, hi := Origin(i, Match, r, 0), Origin(i, Match, r, n - 1), Origin(i, Match, r, n);
      MatchComesFrom(p, files, i, r, n - 1);
      ListsOne(p, files, mid, hi, MatchFinding(rule, f, starts[n - 1]));
      MatchesNext(rule, f, starts, n - 1);
      ListsMore(p, files, o, mid, hi, before, [mid], MatchFindings(rule, f, starts[..n - 1]),
        [MatchFinding(rule, f, starts[n - 1])]);
      origins := before + [mid];
    }
  }

  // Nothing lies between a place and itself.
  lemma NoneBetween(p: Patterns, files: seq<File>, lo: Origin, hi: Origin)
    requires Masked(files) && lo == hi
    ensures Lists(p, files, lo, hi, [], [])
  {
    hide IsOrigin;
    ListsNone(p, files, lo, hi);
  }

  lemma RuleListed(p: Patterns, files: seq<File>, i: nat, r: nat) returns (origins: seq<Origin>)
    requires Masked(files) && i < |files| && files[i].Readable? && r < |p.rules|
    ensures var f, rule := files[i], p.rules[r];
            Lists(p, files, Origin(i, Match, r, 0), Origin(i, Match, r + 1, 0), origins,
              if Applies(rule, f) then MatchFindings(rule, f, p.starts(rule, Searched(rule, f))) else [])
  {
    var f, rule := files[i], p.rules[r];
    var starts := p.starts(rule, Searched(rule, f));
    var lo, mid, hi := Origin(i, Match, r, 0), Origin(i, Match, r, |starts|), Origin(i, Match, r + 1, 0);
    hide Lists, ComesFrom, MatchFindings, Searched, Masked;
    if Applies(rule, f) {
      origins := MatchesListed(p, files, i, r, |starts|);
      assert starts[..|starts|] == starts;
      ListsNone(p, files, mid, hi);
      ListsMore(p, files, lo, mid, hi, origins, [], MatchFindings(rule, f, starts), []);
      assert origins + [] == origins;
      Regroup(MatchFindings(rule, f, starts), [], []);
    } else {
      ListsNone(p, files, lo, hi);
      origins := [];
    }
  }

  lemma {:induction false} RulesListed(p: Patterns, files: seq<File>, i: nat, r: nat) returns (origins: seq<Origin>)
    requires Masked(files) && i < |files| && files[i].Readable? && r <= |p.rules|
    ensures Lists(p, files, Origin(i, Match, 0, 0), Origin(i, Match, r, 0), origins,
              RuleFindings(p, p.rules[..r], files[i], Executable(files[i]), Configuration(files[i])))
  {
    hide Lists, ComesFrom, MatchFindings, Executable, Configuration, SpansFit, Applies;
    var f := files[i];
    if r == 0 {
      NoneBetween(p, files, Origin(i, Match, 0, 0), Origin(i, Match, 0, 0));
      assert p.rules[..0] == [];
      origins := [];
    } else {
      var before := RulesListed(p, files, i, r - 1);
      var next := RuleListed(p, files, i, r - 1);
      RulesNext(p, p.rules, f, Executable(f), Configuration(f), r - 1);
      hide RuleFindings;
      var rule := p.rules[r - 1];
      ListsMore(p, files, Origin(i, Match, 0, 0), Origin(i, Match, r - 1, 0), Origin(i, Match, r, 0), before, next,
        RuleFindings(p, p.rules[..r - 1], f, Executable(f), Configuration(f)),
        if Applies(rule, f) then MatchFindings(rule, f, p.starts(rule, Searched(rule, f))) else []);
      origins := before + next;
    }
  }

  // ---- Blocks ----

  lemma {:induction false} BlockListed(p: Patterns, files: seq<File>, i: nat, n: nat, r: nat)
    returns (origins: seq<Origin>)
    requires Masked(files) && i < |files| && files[i].Readable? && r <= |p.driftRules|
    requires n < |BlocksOf(Configuration(files[i]))|
    ensures Lists(p, files, Origin(i, Drift, n, 0), Origin(i, Drift, n, r), origins,
              BlockFindings(p, p.driftRules[..r], files[i], BlocksOf(Configuration(files[i]))[n]))
  {
    hide Lists, Configuration, BlocksOf, SpansFit;
    var f := files[i];
    var b := BlocksOf(Configuration(f))[n];
    var lo, hi := Origin(i, Drift, n, 0), Origin(i, Drift, n, r);
    if r == 0 {
      NoneBetween(p, files, lo, lo);
      assert p.driftRules[..0] == [];
      origins := [];
    } else {
      origins := BlockListed(p, files, i, n, r - 1);
      var mid, rule := Origin(i, Drift, n, r - 1), p.driftRules[r - 1];
      var before := BlockFindings(p, p.driftRules[..r - 1], f, b);
      assert p.driftRules[..r][..r - 1] == p.driftRules[..r - 1];
      if p.matches(rule, b.command) {
        ListsOne(p, files, mid, hi, DriftFinding(rule, f, b));
        ListsMore(p, files, lo, mid, hi, origins, [mid], before, [DriftFinding(rule, f, b)]);
        origins := origins + [mid];
      } else {
        ListsNone(p, files, mid, hi);
        ListsMore(p, files, lo, mid, hi, origins, [], before, []);
        assert origins + [] == origins;
      }
    }
  }

  lemma {:induction false} BlocksListed(p: Patterns, files: seq<File>, i: nat, n: nat) returns (origins: seq<Origin>)
    requires Masked(files) && i < |files| && files[i].Readable?
    requires n <= |BlocksOf(Configuration(files[i]))|
    ensures Lists(p, files, Origin(i, Drift, 0, 0), Origin(i, Drift, n, 0), origins,
              DriftFindings(p, files[i], BlocksOf(Configuration(files[i]))[..n]))
  {
    hide Lists, Configuration, BlocksOf, BlockFindings, SpansFit;
    var f := files[i];
    var blocks := BlocksOf(Configuration(f));
    var lo, hi := Origin(i, Drift, 0, 0), Origin(i, Drift, n, 0);
    if n == 0 {
      NoneBetween(p, files, lo, lo);
      assert blocks[..0] == [];
      origins := [];
    } else {
      var before := BlocksListed(p, files, i, n - 1);
      var rules := |p.driftRules|;
      var next := BlockListed(p, files, i, n - 1, rules);
      var from, mid := Origin(i, Drift, n - 1, 0), Origin(i, Drift, n - 1, rules);
      assert p.driftRules[..rules] == p.driftRules;
      var found := BlockFindings(p, p.driftRules, f, blocks[n - 1]);
      ListsNone(p, files, mid, hi);
      ListsMore(p, files, from, mid, hi, next, [], found, []);
      assert next + [] == next;
      Regroup(found, [], []);
      assert blocks[..n][..n - 1] == blocks[..n - 1];
      ListsMore(p, files, lo, from, hi, before, next, DriftFindings(p, f, blocks[..n - 1]), found);
      origins := before + next;
    }
  }

  // ---- Files ----

  lemma FallbackListed(p: Patterns, files: seq<File>, i: nat) returns (origins: seq<Origin>)
    requires Masked(files) && i < |files| && files[i].Readable?
    ensures Lists(p, files, Origin(i, Fallback, 0, 0), Origin(i, Match, 0, 0), origins,
              if ParsedInPart(files[i]) then [FallbackFinding(files[i])] else [])
  {
    hide Lists, SpansFit, Masked;
    var o, hi := Origin(i, Fallback, 0, 0), Origin(i, Match, 0, 0);
    if ParsedInPart(files[i]) {
      ListsOne(p, files, o, hi, FallbackFinding(files[i]));
      origins := [o];
    } else {
      ListsNone(p, files, o, hi);
      origins := [];
    }
  }

  lemma AllRulesListed(p: Patterns, files: seq<File>, i: nat) returns (origins: seq<Origin>)
    requires Masked(files) && i < |files| && files[i].Readable?
    ensures Lists(p, files, Origin(i, Match, 0, 0), Origin(i, Drift, 0, 0), origins,
              RuleFindings(p, p.rules, files[i], Executable(files[i]), Configuration(files[i])))
  {
    hide Lists, Executable, Configuration, SpansFit, RuleFindings, ComesFrom;
    var n := |p.rules|;
    origins := RulesListed(p, files, i, n);
    assert p.rules[..n] == p.rules;
    var found := RuleFindings(p, p.rules, files[i], Executable(files[i]), Configuration(files[i]));
    var lo, mid, hi := Origin(i, Match, 0, 0), Origin(i, Match, n, 0), Origin(i, Drift, 0, 0);
    ListsNone(p, files, mid, hi);
    ListsMore(p, files, lo, mid, hi, origins, [], found, []);
    Regroup(found, [], []);
    assert origins + [] == origins;
  }

  lemma AllBlocksListed(p: Patterns, files: seq<File>, i: nat) returns (origins: seq<Origin>)
    requires Masked(files) && i < |files| && files[i].Readable?
    ensures Lists(p, files, Origin(i, Drift, 0, 0), Origin(i + 1, Fallback, 0, 0), origins,
              DriftFindings(p, files[i], BlocksOf(Configuration(files[i]))))
  {
    hide Lists, Configuration, SpansFit, DriftFindings, ComesFrom, BlocksOf;
    var blocks := BlocksOf(Configuration(files[i]));
    origins := BlocksListed(p, files, i, |blocks|);
    assert blocks[..|blocks|] == blocks;
    var found := DriftFindings(p, files[i], blocks);
    var lo, mid, hi := Origin(i, Drift, 0, 0), Origin(i, Drift, |blocks|, 0), Origin(i + 1, Fallback, 0, 0);
    ListsNone(p, files, mid, hi);
    ListsMore(p, files, lo, mid, hi, origins, [], found, []);
    Regroup(found, [], []);
    assert origins + [] == origins;
  }

  lemma FileListed(p: Patterns, files: seq<File>, i: nat) returns (origins: seq<Origin>)
    requires Masked(files) && i < |files|
    ensures Lists(p, files, Origin(i, Fallback, 0, 0), Origin(i + 1, Fallback, 0, 0), origins,
              FileFindings(p, files[i]))
  {
    var f := files[i];
    var lo, m, d, hi :=
      Origin(i, Fallback, 0, 0), Origin(i, Match, 0, 0), Origin(i, Drift, 0, 0), Origin(i + 1, Fallback, 0, 0);
    hide Lists, Executable, Configuration, SpansFit, RuleFindings, DriftFindings, BlocksOf, ComesFrom,
      FallbackFinding, ParsedInPart;
    if f.Readable? {
      var a := FallbackListed(p, files, i);
      var b := AllRulesListed(p, files, i);
      var c := AllBlocksListed(p, files, i);
      hide IsOrigin;
      var xs := if ParsedInPart(f) then [FallbackFinding(f)] else [];
      var ys := RuleFindings(p, p.rules, f, Executable(f), Configuration(f));
      ListsMore(p, files, lo, m, d, a, b, xs, ys);
      ListsMore(p, files, lo, d, hi, a + b, c, xs + ys, DriftFindings(p, f, BlocksOf(Configuration(f))));
      origins := a + b + c;
    } else {
      ListsNone(p, files, lo, hi);
      origins := [];
    }
  }

  lemma {:induction false} FilesListed(p: Patterns, files: seq<File>, n: nat) returns (origins: seq<Origin>)
    requires Masked(files) && n <= |files|
    ensures Lists(p, files, Origin(0, Fallback, 0, 0), Origin(n, Fallback, 0, 0), origins, AllFindings(p, files[..n]))
  {
    hide Lists, IsOrigin, Masked, FileFindings;
    if n == 0 {
      NoneBetween(p, files, Origin(0, Fallback, 0, 0), Origin(0, Fallback, 0, 0));
      assert files[..0] == [];
      origins := [];
    } else {
      var before := FilesListed(p, files, n - 1);
      var next := FileListed(p, files, n - 1);
      assert files[..n][..n - 1] == files[..n - 1];
      ListsMore(p, files, Origin(0, Fallback, 0, 0), Origin(n - 1, Fallback, 0, 0), Origin(n, Fallback, 0, 0),
        before, next, AllFindings(p, files[..n - 1]), FileFindings(p, files[n - 1]));
      origins := before + next;
    }
  }

  // ---- Theorems ----

  // x stands before y: by path, then by line, then by rule.
  ghost predicate InKeyOrder(x: Finding, y: Finding) {
    || ComesBefore(x.path, y.path)
    || (x.path == y.path && x.line < y.line)
    || (x.path == y.path && x.line == y.line && (x.ruleId == y.ruleId || ComesBefore(x.ruleId, y.ruleId)))
  }

  ghost predicate ComesBefore(s: string, t: string) {
    s < t || exists k :: 0 <= k < |s| && k < |t| && s[..k] == t[..k] && s[k] < t[k]
  }

  lemma KeyOrderIs(x: Finding, y: Finding)
    requires FindingLeq(x, y)
    ensures InKeyOrder(x, y)
  {
    StringLeqIsLexicographic(x.path, y.path);
    StringLeqIsLexicographic(x.ruleId, y.ruleId);
    hide StringLeq;
  }

  /** The findings of a complete report are those of the origins there are, one for each and no other: in the
      order of their keys, and in the order of discovery where the keys agree. */
  lemma ReportIsExact(p: Patterns, files: seq<File>, report: Report, key: Finding)
    returns (origins: seq<Origin>, found: seq<Finding>)
    requires Masked(files)
    requires report.findings == Sorted(AllFindings(p, files)) && Tallies(report.countsBySupport, report.findings)
    ensures forall o :: o in origins <==> IsOrigin(p, files, o)
    ensures forall i, j :: 0 <= i < j < |origins| ==> Less(origins[i], origins[j])
    ensures |origins| == |found| && forall i :: 0 <= i < |found| ==>
              IsOrigin(p, files, origins[i]) && ComesFrom(p, files, found[i], origins[i])
    ensures multiset(report.findings) == multiset(found)
    ensures WithKey(report.findings, key) == WithKey(found, key)
    ensures forall i, j :: 0 <= i < j < |report.findings| ==> InKeyOrder(report.findings[i], report.findings[j])
  {
    origins := FilesListed(p, files, |files|);
    assert files[..|files|] == files;
    found := AllFindings(p, files);
    SortedIsStableSort(found, key);
    hide AllFindings, Sorted, FindingLeq, InKeyOrder, ComesFrom, WithKey, Tallies;
    forall i, j | 0 <= i < j < |report.findings| ensures InKeyOrder(report.findings[i], report.findings[j]) {
      KeyOrderIs(report.findings[i], report.findings[j]);
    }
    forall o ensures o in origins <==> IsOrigin(p, files, o) {
      assert IsOrigin(p, files, o) ==> o.file < |files|;
    }
  }

  /** What is searched: of Python the text with comments and strings, or comments and docstrings, blank; of any
      other file the text. */
  lemma SearchedIsView(rule: Rule, f: File)
    requires f.Readable? && SpansFit(f)
    ensures f.language != Some("python") ==> Searched(rule, f) == f.text
    ensures f.language == Some("python") ==>
              var tokens := if f.tokens.Some? then f.tokens.value else [];
              var docstrings := if f.docstrings.Some? then f.docstrings.value else [];
              if rule.sourceOnly then IsExecutableView(Searched(rule, f), f.text, tokens)
              else IsConfigurationView(Searched(rule, f), f.text, tokens, docstrings)
  {
    if f.language == PYTHON {
      var offsets, tokens, docstrings := LineOffsets(f.text), OrNone(f.tokens), OrNone(f.docstrings);
      CommentsInText(offsets, tokens);
      MaskedTextIsMasked(f.text, offsets, CodelessSpans(tokens));
      MaskedTextIsMasked(f.text, offsets, CommentSpans(tokens) + docstrings);
      hide MaskedText, IsMasked, LineOffsets;
      ViewsAre(f.text, tokens, docstrings, Executable(f), Configuration(f));
    }
  }

  /** The counts of a report are numbers of places: of the files of a kind, and of the findings with a support. */
  lemma CountsAreNumbers(files: seq<File>, which: File -> bool, found: seq<Finding>, support: string)
    ensures CountFiles(files, which) == |set i: nat | i < |files| && which(files[i])|
    ensures CountSupport(found, support) == |set i: nat | i < |found| && found[i].support == support|
  {
    FilesAreCounted(files, which);
    var holds := (x: Finding) => x.support == support;
    SupportIsCounted(found, support, holds);
    assert Places(found, holds) == set i: nat | i < |found| && found[i].support == support;
    assert Places(files, which) == set i: nat | i < |files| && which(files[i]);
  }

  // The places of a list at which something holds.
  function Places<T>(s: seq<T>, holds: T -> bool): set<nat> {
    set i: nat | i < |s| && holds(s[i])
  }

  lemma PlacesNext<T>(s: seq<T>, holds: T -> bool)
    requires s != []
    ensures |Places(s, holds)| == |Places(s[..|s| - 1], holds)| + if holds(s[|s| - 1]) then 1 else 0
  {
    var n := |s| - 1;
    assert Places(s, holds) == Places(s[..n], holds) + if holds(s[n]) then {n} else {};
    assert n !in Places(s[..n], holds);
  }

  lemma {:induction false} FilesAreCounted(files: seq<File>, which: File -> bool)
    ensures CountFiles(files, which) == |Places(files, which)|
  {
    hide Places;
    if files != [] {
      FilesAreCounted(files[..|files| - 1], which);
      PlacesNext(files, which);
    } else {
      NoPlaces(files, which);
    }
  }

  lemma NoPlaces<T>(s: seq<T>, holds: T -> bool)
    requires s == []
    ensures Places(s, holds) == {}
  {
  }

  lemma {:induction false} SupportIsCounted(found: seq<Finding>, support: string, holds: Finding -> bool)
    requires forall x :: holds(x) <==> x.support == support
    ensures CountSupport(found, support) == |Places(found, holds)|
  {
    hide Places;
    if found != [] {
      SupportIsCounted(found[..|found| - 1], support, holds);
      PlacesNext(found, holds);
    } else {
      NoPlaces(found, holds);
    }
  }

  /** The findings with a key are all those that agree with it in path, line and rule, in their order. */
  lemma {:induction false} WithKeyIsSelection(s: seq<Finding>, k: Finding) returns (at: seq<nat>)
    ensures |at| == |WithKey(s, k)| && forall i :: 0 <= i < |at| ==> at[i] < |s| && WithKey(s, k)[i] == s[at[i]]
    ensures forall i, j :: 0 <= i < j < |at| ==> at[i] < at[j]
    ensures forall i :: 0 <= i < |s| ==>
              (i in at <==> s[i].path == k.path && s[i].line == k.line && s[i].ruleId == k.ruleId)
  {
    at := [];
    if s != [] {
      var n := |s| - 1;
      at := WithKeyIsSelection(s[..n], k);
      assert forall i :: 0 <= i < n ==> s[..n][i] == s[i];
      if SameKey(s[n], k) {
        at := at + [n];
      }
    }
  }
}
