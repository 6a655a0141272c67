/** The scan of a repository's files: every match of every rule is reported, sorted, or the scan fails. */
module RepositoryScan {
  import opened Options
  import opened SourceMasking
  import opened DriftBlocks
  import opened Ordering

  // ---- What a scan works on ----

  datatype Rule = Rule(
    id: string, category: string, sourceOnly: bool, pythonSupported: bool, support: string, finding: string,
    remediation: string)

  // The regular expressions, by rule: where matches start in a text, and whether a command matches.
  datatype Patterns = Patterns(
    rules: seq<Rule>, starts: (Rule, Text) -> seq<nat>,
    driftRules: seq<Rule>, matches: (Rule, Text) -> bool)

  // A candidate file. language and manifest follow from its path; tokens and docstrings are what
  // Python's tokenizer and parser say of its text, or None where they fail.
  datatype File =
    | TooLarge
    | Unreadable
    | Readable(path: string, text: Text, language: Option<string>, manifest: bool,
               tokens: Option<seq<Token>>, docstrings: Option<seq<Span>>)

  datatype Finding = Finding(
    ruleId: string, category: string, path: string, line: nat, language: Option<string>, support: string,
    finding: string, remediation: string)

  const PYTHON := Some("python")

  // What is to be masked in a Python file lies in the lines of its text. Where it does not (the parser
  // also counts lines that end with a lone CR), masking raises.
  predicate SpansFit(f: File) {
    f.Readable? && f.language == PYTHON ==> AllMasksInText(f.text, OrNone(f.tokens), OrNone(f.docstrings))
  }

  // The first file that does not fit, or the number of files.
  function FirstUnfit(files: seq<File>): (n: nat)
    ensures n <= |files|
    ensures forall i :: 0 <= i < n ==> SpansFit(files[i])
    ensures n < |files| ==> !SpansFit(files[n])
  {
    if files == [] || !SpansFit(files[0]) then 0 else 1 + FirstUnfit(files[1..])
  }

  // ---- What should be found ----

  function LineAt(text: Text, p: nat): nat {
    1 + Newlines(if p <= |text| then text[..p] else text)
  }

  function FallbackFinding(f: File): Finding
    requires f.Readable?
  {
    Finding("python-parse-fallback", "scanner-limit", f.path, 1, f.language, "review",
            "Python parsing was incomplete for this file.",
            "Review this file manually; executable-code masking may be incomplete.")
  }

  predicate Applies(rule: Rule, f: File)
    requires f.Readable?
  {
    !(rule.sourceOnly && f.language.None?) && !(rule.category == "dependency" && !f.manifest)
  }

  const UNSUPPORTED :=
    "Released auto-instrumentation is Python-only; classify this path as "
    + "unsupported or propose a separately approved unverified adapter."

  function MatchFinding(rule: Rule, f: File, start: nat): Finding
    requires f.Readable?
  {
    if rule.pythonSupported && f.language != PYTHON then
      Finding(rule.id, rule.category, f.path, LineAt(f.text, start), f.language, "unsupported", rule.finding,
              UNSUPPORTED)
    else
      Finding(rule.id, rule.category, f.path, LineAt(f.text, start), f.language, rule.support, rule.finding,
              rule.remediation)
  }

  function MatchFindings(rule: Rule, f: File, starts: seq<nat>): seq<Finding>
    requires f.Readable?
  {
    if starts == [] then []
    else MatchFindings(rule, f, starts[..|starts| - 1]) + [MatchFinding(rule, f, starts[|starts| - 1])]
  }

  // executable and configuration are the two views of the file.
  function RuleFindings(p: Patterns, rules: seq<Rule>, f: File, executable: Text, configuration: Text): seq<Finding>
    requires f.Readable?
  {
    if rules == [] then []
    else
      var rule := rules[|rules| - 1];
      RuleFindings(p, rules[..|rules| - 1], f, executable, configuration)
      + if Applies(rule, f) then MatchFindings(rule, f,
          p.starts(rule, if rule.sourceOnly then executable else configuration)) else []
  }

  function DriftFinding(rule: Rule, f: File, b: Block): Finding
    requires f.Readable?
  {
    Finding(rule.id, rule.category, f.path, b.line, f.language, rule.support, rule.finding, rule.remediation)
  }

  function BlockFindings(p: Patterns, rules: seq<Rule>, f: File, b: Block): seq<Finding>
    requires f.Readable?
  {
    if rules == [] then []
    else
      var rule := rules[|rules| - 1];
      BlockFindings(p, rules[..|rules| - 1], f, b) + if p.matches(rule, b.command) then [DriftFinding(rule, f, b)]
          else []
  }

  function DriftFindings(p: Patterns, f: File, blocks: seq<Block>): seq<Finding>
    requires f.Readable?
  {
    if blocks == [] then []
    else DriftFindings(p, f, blocks[..|blocks| - 1]) + BlockFindings(p, p.driftRules, f, blocks[|blocks| - 1])
  }

  function MaskedText(text: Text, offsets: seq<nat>, spans: seq<Span>): Text
    requires AllInText(offsets, spans)
  {
    seq(|text|, i requires 0 <= i < |text| => if CoveredBySome(offsets, spans, i) && !IsBreak(text[i]) then ' '
        else text[i])
  }

  function Executable(f: File): Text
    requires f.Readable? && SpansFit(f)
  {
    if f.language == PYTHON then MaskedText(f.text, LineOffsets(f.text), CodelessSpans(OrNone(f.tokens))) else f.text
  }

  function Configuration(f: File): Text
    requires f.Readable? && SpansFit(f)
  {
    if f.language == PYTHON then
      CommentsInText(LineOffsets(f.text), OrNone(f.tokens));
      MaskedText(f.text, LineOffsets(f.text), CommentSpans(OrNone(f.tokens)) + OrNone(f.docstrings))
    else f.text
  }

  predicate ParsedInPart(f: File) {
    f.Readable? && f.language == PYTHON && (f.tokens.None? || f.docstrings.None?)
  }

  // Everything there is to find in a file, in the order of discovery.
  function FileFindings(p: Patterns, f: File): seq<Finding> {
    if !f.Readable? || !SpansFit(f) then []
    else
      (if ParsedInPart(f) then [FallbackFinding(f)] else [])
      + RuleFindings(p, p.rules, f, Executable(f), Configuration(f))
      + DriftFindings(p, f, BlocksOf(Configuration(f)))
  }

  function AllFindings(p: Patterns, files: seq<File>): seq<Finding> {
    if files == [] then []
    else AllFindings(p, files[..|files| - 1]) + FileFindings(p, files[|files| - 1])
  }

  // ---- Order ----

  predicate FindingLeq(a: Finding, b: Finding) {
    if a.path != b.path then StringLeq(a.path, b.path)
    else if a.line != b.line then a.line < b.line
    else StringLeq(a.ruleId, b.ruleId)
  }

  predicate SameKey(a: Finding, b: Finding) {
    a.path == b.path && a.line == b.line && a.ruleId == b.ruleId
  }

  lemma FindingLeqOrders(a: Finding, b: Finding)
    ensures FindingLeq(a, b) || FindingLeq(b, a)
    ensures FindingLeq(a, b) && FindingLeq(b, a) <==> SameKey(a, b)
  {
    StringLeqTotal(a.path, b.path);
    StringLeqTotal(a.ruleId, b.ruleId);
  }

  lemma FindingLeqTransitive(a: Finding, b: Finding, c: Finding)
    requires FindingLeq(a, b) && FindingLeq(b, c)
    ensures FindingLeq(a, c)
  {
    StringLeqTotal(a.path, b.path);
    StringLeqTotal(b.path, c.path);
    if a.path == b.path == c.path {
      if a.line == b.line == c.line {
        StringLeqTransitive(a.ruleId, b.ruleId, c.ruleId);
      }
    } else {
      StringLeqTransitive(a.path, b.path, c.path);
    }
  }

  // Puts x behind everything that is not after it.
  function Insert(s: seq<Finding>, x: Finding): seq<Finding> {
    if s == [] || FindingLeq(s[|s| - 1], x) then s + [x]
    else Insert(s[..|s| - 1], x) + [s[|s| - 1]]
  }

  function Sorted(s: seq<Finding>): seq<Finding> {
    if s == [] then [] else Insert(Sorted(s[..|s| - 1]), s[|s| - 1])
  }

  predicate IsSorted(s: seq<Finding>) {
    forall i, j :: 0 <= i < j < |s| ==> FindingLeq(s[i], s[j])
  }

  // The findings with the key of k, in order.
  function WithKey(s: seq<Finding>, k: Finding): seq<Finding> {
    if s == [] then []
    else WithKey(s[..|s| - 1], k) + if SameKey(s[|s| - 1], k) then [s[|s| - 1]] else []
  }

  lemma {:induction false} InsertHolds(s: seq<Finding>, x: Finding)
    ensures multiset(Insert(s, x)) == multiset(s) + multiset{x}
  {
    if s != [] && !FindingLeq(s[|s| - 1], x) {
      InsertHolds(s[..|s| - 1], x);
      assert s == s[..|s| - 1] + [s[|s| - 1]];
    }
  }

  lemma {:induction false} InsertSorts(s: seq<Finding>, x: Finding)
    requires IsSorted(s)
    ensures IsSorted(Insert(s, x))
  {
    var n := |s| - 1;
    if s == [] || FindingLeq(s[n], x) {
      forall i | 0 <= i < |s| ensures FindingLeq(s[i], x) {
        if i < n {
          FindingLeqTransitive(s[i], s[n], x);
        }
      }
    } else {
      FindingLeqOrders(s[n], x);
      InsertSorts(s[..n], x);
      InsertHolds(s[..n], x);
      var t := Insert(s[..n], x);
      forall y | y in t ensures FindingLeq(y, s[n]) {
        assert y in multiset(t);
        assert y == x || y in s[..n];
      }
      hide FindingLeq;
    }
  }

  lemma {:induction false} InsertKeepsKeys(s: seq<Finding>, x: Finding, k: Finding)
    ensures WithKey(Insert(s, x), k) == WithKey(s, k) + if SameKey(x, k) then [x] else []
  {
    var n := |s| - 1;
    if s == [] || FindingLeq(s[n], x) {
      assert (s + [x])[..|s|] == s;
    } else {
      FindingLeqOrders(s[n], x);
      InsertKeepsKeys(s[..n], x, k);
      var t := Insert(s[..n], x);
      assert (t + [s[n]])[..|t|] == t;
      assert !(SameKey(x, k) && SameKey(s[n], k));
      hide Insert, FindingLeq;
      assert WithKey(t + [s[n]], k) == WithKey(t, k) + if SameKey(s[n], k) then [s[n]] else [];
    }
  }

  /** Sorting keeps every finding, orders them by path, line and rule, and leaves findings that agree in
      all three in the order of discovery. */
  lemma {:induction false} SortedIsStableSort(s: seq<Finding>, k: Finding)
    ensures multiset(Sorted(s)) == multiset(s) && IsSorted(Sorted(s)) && WithKey(Sorted(s), k) == WithKey(s, k)
  {
    if s != [] {
      var n := |s| - 1;
      var before := Sorted(s[..n]);
      SortedIsStableSort(s[..n], k);
      assert s == s[..n] + [s[n]];
      assert Sorted(s) == Insert(before, s[n]);
      hide Insert, FindingLeq, IsSorted, Sorted;
      InsertHolds(before, s[n]);
      InsertSorts(before, s[n]);
      InsertKeepsKeys(before, s[n], k);
    }
  }

  // ---- Counts ----

  function CountSupport(s: seq<Finding>, support: string): nat {
    if s == [] then 0
    else CountSupport(s[..|s| - 1], support) + if s[|s| - 1].support == support then 1 else 0
  }

  ghost function Sum(m: map<string, nat>): nat {
    if m == map[] then 0
    else
      var k :| k in m;
      m[k] + Sum(m - {k})
  }

  lemma {:induction false} SumAny(m: map<string, nat>, k: string)
    requires k in m
    ensures Sum(m) == m[k] + Sum(m - {k})
  {
    var c :| c in m && Sum(m) == m[c] + Sum(m - {c});
    if c != k {
      SumAny(m - {c}, k);
      SumAny(m - {k}, c);
      assert m - {c} - {k} == m - {k} - {c};
    }
  }

  lemma SumUpdated(m: map<string, nat>, k: string, n: nat)
    ensures Sum(m[k := n]) == n + Sum(m - {k})
    ensures k in m ==> Sum(m) == m[k] + Sum(m - {k})
    ensures k !in m ==> Sum(m - {k}) == Sum(m)
  {
    SumAny(m[k := n], k);
    assert m[k := n] - {k} == m - {k};
    if k in m {
      SumAny(m, k);
    } else {
      assert m - {k} == m;
    }
  }

  ghost predicate Tallies(counts: map<string, nat>, s: seq<Finding>) {
    && (forall k :: k in counts <==> CountSupport(s, k) > 0)
    && (forall k :: k in counts ==> counts[k] == CountSupport(s, k))
    && Sum(counts) == |s|
  }

  lemma TallyNext(counts: map<string, nat>, s: seq<Finding>)
    requires s != [] && Tallies(counts, s[..|s| - 1])
    ensures var k := s[|s| - 1].support;
            Tallies(counts[k := (if k in counts then counts[k] else 0) + 1], s)
  {
    var k := s[|s| - 1].support;
    hide Sum;
    SumUpdated(counts, k, (if k in counts then counts[k] else 0) + 1);
  }

  method CountBySupport(findings: seq<Finding>) returns (counts: map<string, nat>)
    ensures Tallies(counts, findings)
  {
    counts := map[];
    assert findings[..0] == [];
    assert Tallies(map[], []);
    hide Tallies;
    for n := 0 to |findings|
      invariant Tallies(counts, findings[..n])
    {
      var k := findings[n].support;
      assert findings[..n + 1][..n] == findings[..n];
      TallyNext(counts, findings[..n + 1]);
      counts := counts[k := (if k in counts then counts[k] else 0) + 1];
    }
    assert findings[..|findings|] == findings;
  }

  // ---- The scan ----

  lemma Regroup(a: seq<Finding>, b: seq<Finding>, c: seq<Finding>)
    ensures a + (b + c) == a + b + c && a + [] == a
  {
  }

  // What comes of adding findings under a limit: all of them, or failure.
  function Limited(s: seq<Finding>, maximum: nat): Option<seq<Finding>> {
    if |s| <= maximum then Some(s) else None
  }

  lemma {:induction false} OnePerMatch(rule: Rule, f: File, starts: seq<nat>)
    requires f.Readable?
    ensures |MatchFindings(rule, f, starts)| == |starts|
  {
    if starts != [] {
      OnePerMatch(rule, f, starts[..|starts| - 1]);
    }
  }

  lemma {:induction false} RulesGrow(p: Patterns, rules: seq<Rule>, f: File, executable: Text, configuration: Text,
      n: nat)
    requires f.Readable? && n <= |rules|
    ensures |RuleFindings(p, rules[..n], f, executable, configuration)| <= |RuleFindings(p, rules, f, executable,
              configuration)|
  {
    if n < |rules| {
      assert rules[..|rules| - 1][..n] == rules[..n];
      RulesGrow(p, rules[..|rules| - 1], f, executable, configuration, n);
    } else {
      assert rules[..n] == rules;
    }
  }

  lemma {:induction false} BlockRulesGrow(p: Patterns, rules: seq<Rule>, f: File, b: Block, n: nat)
    requires f.Readable? && n <= |rules|
    ensures |BlockFindings(p, rules[..n], f, b)| <= |BlockFindings(p, rules, f, b)|
  {
    if n < |rules| {
      assert rules[..|rules| - 1][..n] == rules[..n];
      BlockRulesGrow(p, rules[..|rules| - 1], f, b, n);
    } else {
      assert rules[..n] == rules;
    }
  }

  lemma {:induction false} BlocksGrow(p: Patterns, f: File, blocks: seq<Block>, n: nat)
    requires f.Readable? && n <= |blocks|
    ensures |DriftFindings(p, f, blocks[..n])| <= |DriftFindings(p, f, blocks)|
  {
    if n < |blocks| {
      assert blocks[..|blocks| - 1][..n] == blocks[..n];
      BlocksGrow(p, f, blocks[..|blocks| - 1], n);
    } else {
      assert blocks[..n] == blocks;
    }
  }

  lemma {:induction false} FilesGrow(p: Patterns, files: seq<File>, n: nat)
    requires n <= |files|
    ensures |AllFindings(p, files[..n])| <= |AllFindings(p, files)|
  {
    if n < |files| {
      assert files[..|files| - 1][..n] == files[..n];
      FilesGrow(p, files[..|files| - 1], n);
    } else {
      assert files[..n] == files;
    }
  }

  lemma MatchesNext(rule: Rule, f: File, starts: seq<nat>, n: nat)
    requires f.Readable? && n < |starts|
    ensures MatchFindings(rule, f, starts[..n + 1]) ==
              MatchFindings(rule, f, starts[..n]) + [MatchFinding(rule, f, starts[n])]
  {
    assert starts[..n + 1][..n] == starts[..n];
  }

  // Bisecting past the end gives the last line.
  lemma BisectIsLineAt(text: Text, start: nat, line: nat)
    requires Bisects(LineOffsets(text), start, line)
    ensures line == LineAt(text, start)
  {
    OffsetsAreLineStarts(text);
    if start <= |text| {
      BisectIsLine(text, start, line);
    } else {
      var o := LineOffsets(text);
      assert o[|o| - 1] <= |text|;
    }
  }

  method AddMatches(findings: seq<Finding>, rule: Rule, f: File, starts: seq<nat>, maximum: nat)
      returns (r: Option<seq<Finding>>)
    requires f.Readable? && |findings| <= maximum
    ensures r == Limited(findings + MatchFindings(rule, f, starts), maximum)
  {
    var lineStarts := LineOffsets(f.text);
    OffsetsAreLineStarts(f.text);
    OnePerMatch(rule, f, starts);
    var all := findings;
    assert starts[..0] == [];
    for n := 0 to |starts|
      invariant all == findings + MatchFindings(rule, f, starts[..n])
      invariant |all| <= maximum && |MatchFindings(rule, f, starts[..n])| == n
    {
      if |all| >= maximum {
        return None;
      }
      MatchesNext(rule, f, starts, n);
      hide MatchFindings;
      var line := BisectRight(lineStarts, starts[n]);
      BisectIsLineAt(f.text, starts[n], line);
      hide LineAt, LineOffsets;
      var support, remediation := rule.support, rule.remediation;
      if rule.pythonSupported && f.language != PYTHON {
        support := "unsupported";
        remediation := UNSUPPORTED;
      }
      all := all + [Finding(rule.id, rule.category, f.path, line, f.language, support, rule.finding, remediation)];
    }
    assert starts[..|starts|] == starts;
    return Some(all);
  }

  lemma RulesNext(p: Patterns, rules: seq<Rule>, f: File, executable: Text, configuration: Text, n: nat)
    requires f.Readable? && n < |rules|
    ensures var rule := rules[n];
            RuleFindings(p, rules[..n + 1], f, executable, configuration)
              == RuleFindings(p, rules[..n], f, executable, configuration)
                 + if Applies(rule, f) then MatchFindings(rule, f,
                     p.starts(rule, if rule.sourceOnly then executable else configuration)) else []
  {
    assert rules[..n + 1][..n] == rules[..n];
  }

  method AddRules(findings: seq<Finding>, p: Patterns, f: File, executable: Text, configuration: Text, maximum: nat)
    returns (r: Option<seq<Finding>>)
    requires f.Readable? && |findings| <= maximum
    ensures r == Limited(findings + RuleFindings(p, p.rules, f, executable, configuration), maximum)
  {
    var all := findings;
    var rules := p.rules;
    assert rules[..0] == [] && rules[..|rules|] == rules;
    assert RuleFindings(p, [], f, executable, configuration) == [];
    hide RuleFindings, Applies, MatchFindings;
    for n := 0 to |rules|
      invariant all == findings + RuleFindings(p, rules[..n], f, executable, configuration)
      invariant |all| <= maximum
    {
      var rule := rules[n];
      RulesNext(p, rules, f, executable, configuration, n);
      RulesGrow(p, rules, f, executable, configuration, n + 1);
      ghost var before := RuleFindings(p, rules[..n], f, executable, configuration);
      Regroup(findings, before, RuleFindings(p, rules[..n + 1], f, executable, configuration)[|before|..]);
      Regroup(before, [], []);
      if Applies(rule, f) {
        var searchText := if rule.sourceOnly then executable else configuration;
        var added := AddMatches(all, rule, f, p.starts(rule, searchText), maximum);
        if added.None? {
          return None;
        }
        all := added.value;
      }
    }
    return Some(all);
  }

  method AddBlock(findings: seq<Finding>, p: Patterns, f: File, b: Block, maximum: nat)
      returns (r: Option<seq<Finding>>)
    requires f.Readable? && |findings| <= maximum
    ensures r == Limited(findings + BlockFindings(p, p.driftRules, f, b), maximum)
  {
    var all := findings;
    var rules := p.driftRules;
    assert rules[..0] == [];
    for n := 0 to |rules|
      invariant all == findings + BlockFindings(p, rules[..n], f, b)
      invariant |all| <= maximum
    {
      var rule := rules[n];
      assert rules[..n + 1][..n] == rules[..n];
      BlockRulesGrow(p, rules, f, b, n + 1);
      if p.matches(rule, b.command) {
        if |all| >= maximum {
          return None;
        }
        all := all + [Finding(rule.id, rule.category, f.path, b.line, f.language, rule.support, rule.finding,
                              rule.remediation)];
      }
    }
    assert rules[..|rules|] == rules;
    return Some(all);
  }

  method AddBlocks(findings: seq<Finding>, p: Patterns, f: File, blocks: seq<Block>, maximum: nat)
      returns (r: Option<seq<Finding>>)
    requires f.Readable? && |findings| <= maximum
    ensures r == Limited(findings + DriftFindings(p, f, blocks), maximum)
  {
    var all := findings;
    assert blocks[..0] == [];
    for n := 0 to |blocks|
      invariant all == findings + DriftFindings(p, f, blocks[..n])
      invariant |all| <= maximum
    {
      assert blocks[..n + 1][..n] == blocks[..n];
      BlocksGrow(p, f, blocks, n + 1);
      var added := AddBlock(all, p, f, blocks[n], maximum);
      if added.None? {
        return None;
      }
      all := added.value;
    }
    assert blocks[..|blocks|] == blocks;
    return Some(all);
  }

  method SearchViews(f: File) returns (views: Option<Views>)
    requires f.Readable?
    ensures views.Some? <==> SpansFit(f)
    ensures views.Some? ==> views.value == Views(Executable(f), Configuration(f), ParsedInPart(f))
  {
    if f.language != PYTHON {
      return Some(Views(f.text, f.text, false));
    }
    views := PythonSearchViews(f.text, f.tokens, f.docstrings);
  }

  // Adds what there is to find in a file; raised tells that masking it raised.
  method AddFile(findings: seq<Finding>, p: Patterns, f: File, maximum: nat)
      returns (r: Option<seq<Finding>>, raised: bool)
    requires f.Readable? && |findings| <= maximum
    ensures raised <==> !SpansFit(f)
    ensures r == if raised then None else Limited(findings + FileFindings(p, f), maximum)
  {
    hide Executable, Configuration, SpansFit, RuleFindings, DriftFindings, BlocksOf, FileFindings, ParsedInPart;
    var views := SearchViews(f);
    if views.None? {
      return None, true;
    }
    raised := false;
    r := AddViews(findings, p, f, views.value, maximum);
  }

  method AddViews(findings: seq<Finding>, p: Patterns, f: File, views: Views, maximum: nat)
      returns (r: Option<seq<Finding>>)
    requires f.Readable? && SpansFit(f) && |findings| <= maximum
    requires views == Views(Executable(f), Configuration(f), ParsedInPart(f))
    ensures r == Limited(findings + FileFindings(p, f), maximum)
  {
    hide Executable, Configuration, SpansFit, RuleFindings, DriftFindings, BlocksOf, FileFindings, ParsedInPart;
    PartsOfFile(p, f);
    var all := findings;
    if views.parseFallback {
      if |all| >= maximum {
        return None;
      }
      all := all + [FallbackFinding(f)];
    }
    var added := AddRules(all, p, f, views.executable, views.configuration, maximum);
    if added.None? {
      return None;
    }
    var blocks := DriftCommandBlocks(views.configuration);
    ghost var fallback := if views.parseFallback then [FallbackFinding(f)] else [];
    ghost var matched := RuleFindings(p, p.rules, f, views.executable, views.configuration);
    ghost var drifted := DriftFindings(p, f, blocks);
    Regroup(findings, fallback + matched, drifted);
    Regroup(findings, fallback, matched);
    Regroup(findings, [], []);
    r := AddBlocks(added.value, p, f, blocks, maximum);
  }

  lemma PartsOfFile(p: Patterns, f: File)
    requires SpansFit(f) && f.Readable?
    ensures FileFindings(p, f) ==
              (if ParsedInPart(f) then [FallbackFinding(f)] else [])
              + RuleFindings(p, p.rules, f, Executable(f), Configuration(f))
              + DriftFindings(p, f, BlocksOf(Configuration(f)))
  {
  }

  // What became of the files.
  datatype Tally = Tally(scanned: nat, skippedLarge: nat, skippedUnreadable: nat, parseFallbacks: nat)

  datatype Report = Report(tally: Tally, countsBySupport: map<string, nat>, findings: seq<Finding>)

  datatype Outcome = Complete(report: Report) | TooManyFiles | TooManyFindings | OutsideText

  function Counted(t: Tally, f: File): Tally {
    match f
    case TooLarge => t.(skippedLarge := t.skippedLarge + 1)
    case Unreadable => t.(skippedUnreadable := t.skippedUnreadable + 1)
    case Readable(_, _, _, _, _, _) =>
      t.(scanned := t.scanned + 1, parseFallbacks := t.parseFallbacks + if ParsedInPart(f) then 1 else 0)
  }

  function TallyOf(files: seq<File>): Tally {
    if files == [] then Tally(0, 0, 0, 0) else Counted(TallyOf(files[..|files| - 1]), files[|files| - 1])
  }

  lemma FindingsNext(p: Patterns, files: seq<File>, n: nat)
    requires n < |files|
    ensures AllFindings(p, files[..n + 1]) == AllFindings(p, files[..n]) + FileFindings(p, files[n])
    ensures !files[n].Readable? ==> FileFindings(p, files[n]) == []
    ensures TallyOf(files[..n + 1]) == Counted(TallyOf(files[..n]), files[n])
  {
    assert files[..n + 1][..n] == files[..n];
  }

  // The files that are reached under the limit on files, and before one that does not fit.
  function Reached(files: seq<File>, maxFiles: nat): seq<File> {
    files[..if FirstUnfit(files) <= maxFiles then FirstUnfit(files) else maxFiles]
  }

  lemma BeforeFirst(p: Patterns)
    ensures AllFindings(p, []) == [] && TallyOf([]) == Tally(0, 0, 0, 0)
  {
  }

  lemma ReachedIs(files: seq<File>, maxFiles: nat)
    ensures var n := FirstUnfit(files); Reached(files, maxFiles) == files[..if n <= maxFiles then n else maxFiles]
    ensures files[..|files|] == files
  {
  }

  lemma OverflowIsLasting(p: Patterns, files: seq<File>, maxFiles: nat, n: nat)
    requires n <= |Reached(files, maxFiles)|
    ensures n <= |files|
    ensures |AllFindings(p, files[..n])| <= |AllFindings(p, Reached(files, maxFiles))| <= |AllFindings(p, files)|
  {
    var reached := Reached(files, maxFiles);
    assert reached == files[..|reached|] && reached[..n] == files[..n];
    FilesGrow(p, reached, n);
    FilesGrow(p, files, |reached|);
  }

  // Only a readable file can fail to fit, and the first that does ends what is reached.
  lemma UnfitIsReadable(files: seq<File>, n: nat)
    requires n < |files| && n <= FirstUnfit(files)
    ensures n == FirstUnfit(files) <==> !SpansFit(files[n])
    ensures !SpansFit(files[n]) ==> files[n].Readable?
  {
  }

  method ScanFiles(p: Patterns, files: seq<File>, maxFiles: nat, maxFindings: nat)
    returns (failure: Option<Outcome>, tally: Tally, findings: seq<Finding>)
    ensures failure ==
              if |AllFindings(p, Reached(files, maxFiles))| > maxFindings then Some(TooManyFindings)
              else if FirstUnfit(files) < |files| && FirstUnfit(files) < maxFiles then Some(OutsideText)
              else if |files| > maxFiles then Some(TooManyFiles)
              else None
    ensures failure.None? ==> findings == AllFindings(p, files) && tally == TallyOf(files)
  {
    hide AllFindings, FileFindings, ParsedInPart, TallyOf, Reached, SpansFit;
    findings := [];
    tally := Tally(0, 0, 0, 0);
    BeforeFirst(p);
    ReachedIs(files, maxFiles);
    assert files[..0] == [] && files[..|files|] == files;
    for n := 0 to |files|
      invariant n <= maxFiles && n <= FirstUnfit(files)
      invariant findings == AllFindings(p, files[..n]) && |findings| <= maxFindings
      invariant tally == TallyOf(files[..n])
    {
      if n == maxFiles {
        return Some(TooManyFiles), tally, findings;
      }
      var f := files[n];
      FindingsNext(p, files, n);
      Regroup(findings, [], []);
      UnfitIsReadable(files, n);
      if n + 1 <= FirstUnfit(files) {
        OverflowIsLasting(p, files, maxFiles, n + 1);
      }
      if f.TooLarge? {
        tally := tally.(skippedLarge := tally.skippedLarge + 1);
      } else if f.Unreadable? {
        tally := tally.(skippedUnreadable := tally.skippedUnreadable + 1);
      } else {
        tally := tally.(scanned := tally.scanned + 1);
        if ParsedInPart(f) {
          tally := tally.(parseFallbacks := tally.parseFallbacks + 1);
        }
        var added, raised := AddFile(findings, p, f, maxFindings);
        if raised {
          return Some(OutsideText), tally, findings;
        }
        if added.None? {
          return Some(TooManyFindings), tally, findings;
        }
        findings := added.value;
      }
    }
    return None, tally, findings;
  }

  lemma UnfitFiles(files: seq<File>, limit: nat)
    ensures FirstUnfit(files) == |files| <==> forall i :: 0 <= i < |files| ==> SpansFit(files[i])
    ensures FirstUnfit(files) < |files| && FirstUnfit(files) < limit <==>
              exists i :: 0 <= i < |files| && i < limit && !SpansFit(files[i])
  {
    hide SpansFit;
  }

  /** The report is complete or there is none: every finding of every file is in it, once and sorted, if
      neither limit is exceeded and every span to mask lies in its text; the scan fails otherwise, for the
      reason that comes first. Every file is accounted for. */
  method Scan(p: Patterns, files: seq<File>, maxFiles: nat, maxFindings: nat) returns (outcome: Outcome)
    ensures outcome.Complete? <==>
              && |files| <= maxFiles && |AllFindings(p, files)| <= maxFindings
              && forall i :: 0 <= i < |files| ==> SpansFit(files[i])
    ensures outcome.TooManyFindings? <==> |AllFindings(p, Reached(files, maxFiles))| > maxFindings
    ensures outcome.OutsideText? <==>
              && |AllFindings(p, Reached(files, maxFiles))| <= maxFindings
              && exists i :: 0 <= i < |files| && i < maxFiles && !SpansFit(files[i])
    ensures outcome.Complete? ==>
              var report := outcome.report;
              && report.findings == Sorted(AllFindings(p, files))
              && Tallies(report.countsBySupport, report.findings)
              && report.tally == TallyOf(files)
  {
    var failure, tally, findings := ScanFiles(p, files, maxFiles, maxFindings);
    ReachedIs(files, maxFiles);
    hide AllFindings, Sorted, Tallies, TallyOf, SpansFit;
    UnfitFiles(files, maxFiles);
    if failure.Some? {
      return failure.value;
    }
    findings := Sorted(findings);
    var counts := CountBySupport(findings);
    return Complete(Report(tally, counts, findings));
  }

  // ---- Theorems ----

  /** A complete report misses nothing and invents nothing, and its counts by support sum to its length. */
  lemma ReportIsComplete(p: Patterns, files: seq<File>, report: Report, f: Finding)
    requires report.findings == Sorted(AllFindings(p, files)) && Tallies(report.countsBySupport, report.findings)
    ensures f in report.findings <==> f in AllFindings(p, files)
    ensures |report.findings| == |AllFindings(p, files)| == Sum(report.countsBySupport)
    ensures IsSorted(report.findings)
  {
    var all := AllFindings(p, files);
    SortedIsStableSort(all, f);
    assert f in report.findings <==> f in multiset(report.findings);
    assert f in all <==> f in multiset(all);
    assert |multiset(report.findings)| == |multiset(all)|;
  }

  function CountFiles(files: seq<File>, which: File -> bool): nat {
    if files == [] then 0
    else CountFiles(files[..|files| - 1], which) + if which(files[|files| - 1]) then 1 else 0
  }

  /** Every candidate file is counted once: as scanned, too large or unreadable. */
  lemma {:induction false} EveryFileIsCounted(files: seq<File>)
    ensures var t := TallyOf(files);
            && t.scanned + t.skippedLarge + t.skippedUnreadable == |files|
            && t.scanned == CountFiles(files, (f: File) => f.Readable?)
            && t.skippedLarge == CountFiles(files, (f: File) => f.TooLarge?)
            && t.skippedUnreadable == CountFiles(files, (f: File) => f.Unreadable?)
            && t.parseFallbacks == CountFiles(files, (f: File) =>
                 f.Readable? && f.language == Some("python") && (f.tokens.None? || f.docstrings.None?))
  {
    if files != [] {
      EveryFileIsCounted(files[..|files| - 1]);
    }
  }

  /** The line of a drift finding, taken from a block of the view that is searched, is the line of the
      file's own text at which the block begins, exactly if nothing but LF breaks a line before it. */
  lemma DriftLinesAreTextLines(p: Patterns, f: File, rule: Rule, index: nat, b: Block)
    requires f.Readable? && SpansFit(f) && IsBlockAt(SplitLines(Configuration(f)), index, b)
    ensures var before := Concat(SplitLines(Configuration(f))[..index]);
            && before <= Configuration(f) && |Configuration(f)| == |f.text|
            && DriftFinding(rule, f, b).line == 1 + Breaks(before)
            && (DriftFinding(rule, f, b).line == LineAt(f.text, |before|) <==> OnlyNewlines(before))
  {
    var view := Configuration(f);
    var before := Concat(SplitLines(view)[..index]);
    BlocksAreCommands(view, index, b);
    hide IsBlockAt, SplitLines, Concat, OnlyNewlines, Breaks, Configuration;
    ConfigurationKeepsLines(f, |before|);
    assert view[..|before|] == before;
  }

  // A break of another kind than LF, and a marked line behind it.
  const FED: Text := "\U{000C}verdict-pipeline"
  const COMMAND: Text := "verdict-pipeline"

  /** A form feed before a command: the drift finding names line 2, though the command, which begins at
      position 1, stands on line 1 of the text, and a finding of any other rule there says so. */
  lemma FormFeedMovesLine(p: Patterns, f: File, drift: Rule, rule: Rule)
    requires f.Readable? && f.language != PYTHON && f.text == FED
    requires drift in p.driftRules && p.matches(drift, COMMAND)
    ensures DriftFinding(drift, f, Block(2, COMMAND)) in FileFindings(p, f)
    ensures DriftFinding(drift, f, Block(2, COMMAND)).line == 2
    ensures f.text[1..] == COMMAND && MatchFinding(rule, f, 1).line == 1
  {
    var b := Block(2, COMMAND);
    FedBlocks();
    FedLine();
    hide BlocksOf, LineAt, RuleFindings, BlockFindings, DriftFindings, FED, COMMAND;
    FindingOfBlock(p, p.driftRules, f, b, drift);
    OneBlock(p, f, b);
  }

  lemma OneBlock(p: Patterns, f: File, b: Block)
    requires f.Readable?
    ensures DriftFindings(p, f, [b]) == BlockFindings(p, p.driftRules, f, b)
  {
    assert [b][..0] == [];
  }

  lemma FedLine()
    ensures FED[1..] == COMMAND && LineAt(FED, 1) == 1
  {
    assert FED[..1] == ['\U{000C}'] && ['\U{000C}'][..0] == [];
  }

  lemma {:induction false} FindingOfBlock(p: Patterns, rules: seq<Rule>, f: File, b: Block, rule: Rule)
    requires f.Readable? && rule in rules && p.matches(rule, b.command)
    ensures DriftFinding(rule, f, b) in BlockFindings(p, rules, f, b)
  {
    var n := |rules| - 1;
    if rules[n] != rule {
      FindingOfBlock(p, rules[..n], f, b, rule);
    }
  }

  lemma FedBlocks()
    ensures BlocksOf(FED) == [Block(2, COMMAND)]
  {
    FedIs();
    CommandIsMarked();
    CommandIsStripped();
    hide FED, COMMAND, SplitLines, IsMarked, Strip, BlocksUpTo, OneLine;
    LineAfterBreak('\U{000C}', COMMAND);
    BlocksOfTwo(['\U{000C}'], COMMAND);
  }

  lemma FedIs()
    ensures FED == ['\U{000C}'] + COMMAND && OneLine(COMMAND)
    ensures COMMAND != [] && !IsCrLf('\U{000C}', COMMAND[0]) && BreaksLine('\U{000C}')
  {
  }

  lemma CommandIsMarked()
    ensures IsMarked(COMMAND) && !IsMarked(['\U{000C}'])
  {
    assert COMMAND[0..] == COMMAND;
  }

  lemma CommandIsStripped()
    ensures Strip(COMMAND) == COMMAND
  {
    assert !IsSpace(COMMAND[0]) && !IsSpace(COMMAND[|COMMAND| - 1]);
    hide COMMAND, IsSpace;
  }

  lemma ConfigurationKeepsLines(f: File, at: nat)
    requires f.Readable? && SpansFit(f) && at <= |Configuration(f)|
    ensures |Configuration(f)| == |f.text| && Newlines(Configuration(f)[..at]) == Newlines(f.text[..at])
  {
    hide Newlines, LineOffsets, CommentSpans, CodelessSpans;
    if f.language == PYTHON {
      var offsets, spans := LineOffsets(f.text), CommentSpans(OrNone(f.tokens)) + OrNone(f.docstrings);
      CommentsInText(offsets, OrNone(f.tokens));
      MaskedTextIsMasked(f.text, offsets, spans);
      MaskingKeepsLines(Configuration(f), f.text, spans);
    }
  }

  lemma MaskedTextIsMasked(text: Text, offsets: seq<nat>, spans: seq<Span>)
    requires AllInText(offsets, spans)
    ensures IsMasked(MaskedText(text, offsets, spans), text, offsets, spans)
  {
    hide CoveredBySome;
  }
}
