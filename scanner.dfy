/**
 * The scanner: for each text segment, every rule in table order, every pattern
 * of the rule in order, and every match of the pattern from left to right;
 * a match the rule reports becomes a diagnostic on the file, and the rule
 * leaves the set of unused rules.
 *
 * The functions below say what a scan produces (`ScanPatterns`, `ScanRules`,
 * `ScanDocument`, each reading its list from a position to the end); the
 * methods of `Linter` are the loops of the source, proved to produce exactly
 * that, and the lemmas state what the scan promises.
 */
module Scanner {
  import opened Wrappers
  import opened Matching
  import opened Classify
  import opened Positions
  import opened Rules

  /** A text node: its text and the document offset where it starts. */
  datatype Segment = Segment(text: string, offset: nat)

  /**
   * A message on the file: its text, the points of the first and of the last
   * character of the match, and the index of the rule that reported it.
   */
  datatype Diagnostic = Diagnostic(message: string, start: Option<Point>, end: Option<Point>, rule: nat)

  /** The outcome of a scan: the diagnostics it reported, and the error that stopped it, if any. */
  datatype Run = Run(diags: seq<Diagnostic>, error: Option<string>)

  /** Document offset of a match's first character: the segment's start offset plus the match index (remark-lint-thai.js:183). */
  function StartOffset(seg: Segment, m: Match): int
  {
    seg.offset + m.index
  }

  /** Document offset of its last character: the start plus the match length, less one (remark-lint-thai.js:185). */
  function EndOffset(seg: Segment, m: Match): int
  {
    seg.offset + m.index + |m.text| - 1
  }

  /** The rule reports the match: its check returns a message, or it has no check and has a message. */
  predicate Fires(r: Rule, m: Match)
  {
    if r.check.Some? then Truthy(Classify.Classify(r.check.value, m)) else Truthy(r.message)
  }

  /** What the rule reports: the check's message, or the fixed message of a rule without a check. */
  function Report(r: Rule, m: Match): string
    requires Fires(r, m)
  {
    if r.check.Some? then Classify.Classify(r.check.value, m).value else r.message.value
  }

  /** The diagnostics one match of rule `i` yields. */
  function Emit(r: Rule, i: nat, doc: string, seg: Segment, m: Match): seq<Diagnostic>
  {
    if Fires(r, m) then
      [Diagnostic(Report(r, m), ToPoint(doc, StartOffset(seg, m)), ToPoint(doc, EndOffset(seg, m)), i)]
    else []
  }

  /** The diagnostics a sequence of matches yields, in order. */
  function EmitAll(r: Rule, i: nat, doc: string, seg: Segment, ms: seq<Match>): seq<Diagnostic>
  {
    if ms == [] then [] else Emit(r, i, doc, seg, ms[0]) + EmitAll(r, i, doc, seg, ms[1..])
  }

  /** The message of the error for a pattern without the `g` flag (remark-lint-thai.js:176): the pattern as printed, then " not global!". */
  function NotGlobal(p: Pattern): string
  {
    ToText(p) + " not global!"
  }

  /** A scan step followed by the rest of the scan: an error ends the scan there. */
  function Chain(first: Run, rest: Run): Run
  {
    if first.error.Some? then first else Run(first.diags + rest.diags, rest.error)
  }

  /** One pattern of rule `i` over a segment: an error if it is not global, else every match's diagnostics. */
  function PatternRun(engine: Engine, r: Rule, i: nat, doc: string, seg: Segment, p: Pattern): Run
  {
    if !p.global then Run([], Some(NotGlobal(p)))
    else Run(EmitAll(r, i, doc, seg, Matches(engine, p, seg.text, 0)), None)
  }

  /** The patterns `ps[j..]` of rule `i` scanned over a segment, in order. */
  function ScanPatterns(engine: Engine, r: Rule, i: nat, doc: string, seg: Segment, ps: seq<Pattern>, j: nat): Run
    decreases |ps| - j
  {
    if j >= |ps| then Run([], None)
    else Chain(PatternRun(engine, r, i, doc, seg, ps[j]), ScanPatterns(engine, r, i, doc, seg, ps, j + 1))
  }

  /** All patterns of rule `i` of the table over a segment. */
  function RuleRun(engine: Engine, rules: seq<Rule>, doc: string, seg: Segment, i: nat): Run
    requires i < |rules|
  {
    ScanPatterns(engine, rules[i], i, doc, seg, Patterns(rules[i].pattern), 0)
  }

  /** The rules `rules[i..]` scanned over a segment, in order; a rule without a pattern is skipped. */
  function ScanRules(engine: Engine, rules: seq<Rule>, doc: string, seg: Segment, i: nat): Run
    decreases |rules| - i
  {
    if i >= |rules| then Run([], None)
    else if rules[i].pattern.NoPattern? then ScanRules(engine, rules, doc, seg, i + 1)
    else Chain(RuleRun(engine, rules, doc, seg, i), ScanRules(engine, rules, doc, seg, i + 1))
  }

  /** The segments `segs[k..]` of a document scanned with all rules, in order. */
  function ScanDocument(engine: Engine, rules: seq<Rule>, doc: string, segs: seq<Segment>, k: nat): Run
    decreases |segs| - k
  {
    if k >= |segs| then Run([], None)
    else Chain(ScanRules(engine, rules, doc, segs[k], 0), ScanDocument(engine, rules, doc, segs, k + 1))
  }

  /** The rules that reported at least one of these diagnostics. */
  function RulesOf(ds: seq<Diagnostic>): set<nat>
  {
    set d | d in ds :: d.rule
  }

  /** The initial unused set (remark-lint-thai.js:167): every rule of the table. */
  function AllRules(rules: seq<Rule>): (all: set<nat>)
    ensures forall i: nat :: i in all <==> i < |rules|
  {
    if rules == [] then {} else AllRules(rules[..|rules| - 1]) + {|rules| - 1}
  }

  // Helpers for the loops' invariants.

  lemma AppendAssoc(a: seq<Diagnostic>, b: seq<Diagnostic>, c: seq<Diagnostic>)
    ensures (a + b) + c == a + (b + c)
  {
  }

  lemma RulesOfAppend(a: seq<Diagnostic>, b: seq<Diagnostic>)
    ensures RulesOf(a + b) == RulesOf(a) + RulesOf(b)
  {
    assert forall d :: d in a + b <==> d in a || d in b;
  }

  /** Removing the rules of `acc`, then those of `ds`, removes the rules of `acc + ds`. */
  lemma UnusedStep(unused: set<nat>, acc: seq<Diagnostic>, ds: seq<Diagnostic>)
    ensures (unused - RulesOf(acc)) - RulesOf(ds) == unused - RulesOf(acc + ds)
  {
    RulesOfAppend(acc, ds);
  }

  lemma EmitAllCons(r: Rule, i: nat, doc: string, seg: Segment, m: Match, ms: seq<Match>)
    ensures EmitAll(r, i, doc, seg, [m] + ms) == Emit(r, i, doc, seg, m) + EmitAll(r, i, doc, seg, ms)
  {
    assert ([m] + ms)[1..] == ms;
  }

  /** One turn of the `exec` loop: the match found at `from` adds its diagnostics and moves the cursor past it. */
  lemma ScanMatchesStep(engine: Engine, r: Rule, i: nat, doc: string, seg: Segment, p: Pattern, from: nat, m: Match,
                        acc: seq<Diagnostic>, all: seq<Diagnostic>, acc': seq<Diagnostic>, from': nat)
    requires from <= |seg.text|
    requires Exec(engine, p, seg.text, from) == Some(m)
    requires acc + EmitAll(r, i, doc, seg, Matches(engine, p, seg.text, from)) == all
    requires acc' == acc + Emit(r, i, doc, seg, m) && from' == m.index + |m.text|
    ensures from < from' <= |seg.text|
    ensures acc' + EmitAll(r, i, doc, seg, Matches(engine, p, seg.text, from')) == all
  {
    MatchesNext(engine, p, seg.text, from, m);
    var rest := Matches(engine, p, seg.text, from');
    calc {
      acc' + EmitAll(r, i, doc, seg, rest);
      (acc + Emit(r, i, doc, seg, m)) + EmitAll(r, i, doc, seg, rest);
      { AppendAssoc(acc, Emit(r, i, doc, seg, m), EmitAll(r, i, doc, seg, rest)); }
      acc + (Emit(r, i, doc, seg, m) + EmitAll(r, i, doc, seg, rest));
      { EmitAllCons(r, i, doc, seg, m, rest); }
      acc + EmitAll(r, i, doc, seg, [m] + rest);
      acc + EmitAll(r, i, doc, seg, Matches(engine, p, seg.text, from));
    }
  }

  /** Diagnostics `acc` so far, then a step with diagnostics `ds` and outcome `e`, then the rest. */
  lemma ChainStep(acc: seq<Diagnostic>, ds: seq<Diagnostic>, e: Option<string>, rest: Run)
    ensures Chain(Run(acc, None), Chain(Run(ds, e), rest)) == Chain(Run(acc + ds, e), rest)
  {
    if e.None? {
      AppendAssoc(acc, ds, rest.diags);
    }
  }

  /** One turn of the loop over a rule's patterns: pattern `j`'s outcome joins the diagnostics so far. */
  lemma PatternStep(engine: Engine, r: Rule, i: nat, doc: string, seg: Segment, ps: seq<Pattern>, j: nat,
                    acc: seq<Diagnostic>, ds: seq<Diagnostic>, e: Option<string>, acc': seq<Diagnostic>)
    requires j < |ps|
    requires Chain(Run(acc, None), ScanPatterns(engine, r, i, doc, seg, ps, j)) == ScanPatterns(engine, r, i, doc, seg, ps, 0)
    requires Run(ds, e) == PatternRun(engine, r, i, doc, seg, ps[j]) && acc' == acc + ds
    ensures Chain(Run(acc', e), ScanPatterns(engine, r, i, doc, seg, ps, j + 1)) == ScanPatterns(engine, r, i, doc, seg, ps, 0)
  {
    ChainStep(acc, ds, e, ScanPatterns(engine, r, i, doc, seg, ps, j + 1));
  }

  /** One turn of the loop over the rules: rule `i`'s outcome (nothing, for a rule without a pattern) joins the diagnostics so far. */
  lemma RuleStep(engine: Engine, rules: seq<Rule>, doc: string, seg: Segment, i: nat,
                 acc: seq<Diagnostic>, ds: seq<Diagnostic>, e: Option<string>, acc': seq<Diagnostic>)
    requires i < |rules|
    requires Chain(Run(acc, None), ScanRules(engine, rules, doc, seg, i)) == ScanRules(engine, rules, doc, seg, 0)
    requires rules[i].pattern.NoPattern? ==> ds == [] && e == None
    requires !rules[i].pattern.NoPattern? ==> Run(ds, e) == RuleRun(engine, rules, doc, seg, i)
    requires acc' == acc + ds
    ensures Chain(Run(acc', e), ScanRules(engine, rules, doc, seg, i + 1)) == ScanRules(engine, rules, doc, seg, 0)
  {
    if rules[i].pattern.NoPattern? {
      assert acc' == acc;
    } else {
      ChainStep(acc, ds, e, ScanRules(engine, rules, doc, seg, i + 1));
    }
  }

  /** One turn of the loop over the segments: segment `k`'s outcome joins the diagnostics so far. */
  lemma SegmentStep(engine: Engine, rules: seq<Rule>, doc: string, segs: seq<Segment>, k: nat,
                    acc: seq<Diagnostic>, ds: seq<Diagnostic>, e: Option<string>, acc': seq<Diagnostic>)
    requires k < |segs|
    requires Chain(Run(acc, None), ScanDocument(engine, rules, doc, segs, k)) == ScanDocument(engine, rules, doc, segs, 0)
    requires Run(ds, e) == ScanRules(engine, rules, doc, segs[k], 0) && acc' == acc + ds
    ensures Chain(Run(acc', e), ScanDocument(engine, rules, doc, segs, k + 1)) == ScanDocument(engine, rules, doc, segs, 0)
  {
    ChainStep(acc, ds, e, ScanDocument(engine, rules, doc, segs, k + 1));
  }

  /** The `exec` loop's exit: when `exec` finds nothing more, the diagnostics so far are all of them. */
  lemma ScanMatchesDone(engine: Engine, r: Rule, i: nat, doc: string, seg: Segment, p: Pattern, from: nat,
                        acc: seq<Diagnostic>, all: seq<Diagnostic>)
    requires from <= |seg.text| && Exec(engine, p, seg.text, from).None?
    requires acc + EmitAll(r, i, doc, seg, Matches(engine, p, seg.text, from)) == all
    ensures acc == all
  {
    MatchesDone(engine, p, seg.text, from);
    assert acc + [] == acc;
  }

  /** The pattern loop's exit: after the last pattern or an error, the scan so far is the whole scan. */
  lemma PatternsDone(engine: Engine, r: Rule, i: nat, doc: string, seg: Segment, ps: seq<Pattern>, j: nat,
                     acc: seq<Diagnostic>, e: Option<string>)
    requires j == |ps| || e.Some?
    requires Chain(Run(acc, e), ScanPatterns(engine, r, i, doc, seg, ps, j)) == ScanPatterns(engine, r, i, doc, seg, ps, 0)
    ensures ScanPatterns(engine, r, i, doc, seg, ps, 0) == Run(acc, e)
  {
    assert acc + [] == acc;
  }

  /** The rule loop's exit: after the last rule or an error, the scan so far is the whole scan. */
  lemma RulesDone(engine: Engine, rules: seq<Rule>, doc: string, seg: Segment, i: nat, acc: seq<Diagnostic>, e: Option<string>)
    requires i == |rules| || e.Some?
    requires Chain(Run(acc, e), ScanRules(engine, rules, doc, seg, i)) == ScanRules(engine, rules, doc, seg, 0)
    ensures ScanRules(engine, rules, doc, seg, 0) == Run(acc, e)
  {
    assert acc + [] == acc;
  }

  /** The segment loop's exit: after the last segment or an error, the scan so far is the whole scan. */
  lemma SegmentsDone(engine: Engine, rules: seq<Rule>, doc: string, segs: seq<Segment>, k: nat, acc: seq<Diagnostic>, e: Option<string>)
    requires k == |segs| || e.Some?
    requires Chain(Run(acc, e), ScanDocument(engine, rules, doc, segs, k)) == ScanDocument(engine, rules, doc, segs, 0)
    ensures ScanDocument(engine, rules, doc, segs, 0) == Run(acc, e)
  {
    assert acc + [] == acc;
  }

  // What one match yields.

  /**
   * A match yields one diagnostic if the rule reports it and none otherwise.
   * The diagnostic carries the rule's index. For a match inside a segment
   * that lies inside the document, both of its points exist, the start is at
   * the segment offset plus the match index, the end is at the match's last
   * character, both lie within the segment, and the start never comes after
   * the end.
   */
  lemma EmitMeaning(r: Rule, i: nat, doc: string, seg: Segment, m: Match)
    requires MatchIn(seg.text, 0, m) && seg.offset + |seg.text| <= |doc|
    ensures |Emit(r, i, doc, seg, m)| == if Fires(r, m) then 1 else 0
    ensures forall d :: d in Emit(r, i, doc, seg, m) ==>
      && d.rule == i
      && d.start.Some? && d.end.Some?
      && d.start.value.offset == seg.offset + m.index
      && d.end.value.offset == seg.offset + m.index + |m.text| - 1
      && seg.offset <= d.start.value.offset <= d.end.value.offset < seg.offset + |seg.text|
      && (d.start.value == d.end.value || Before(d.start.value, d.end.value))
  {
    if Fires(r, m) {
      var a := StartOffset(seg, m);
      var b := EndOffset(seg, m);
      if a < b {
        PointsOrdered(doc, a, b);
      }
    }
  }

  /** A rule with a check reports only what the check returns: its `message` field is never used. */
  lemma {:induction false} CheckIgnoresMessage(r: Rule, i: nat, doc: string, seg: Segment, ms: seq<Match>, other: Option<string>)
    requires r.check.Some?
    ensures EmitAll(r, i, doc, seg, ms) == EmitAll(r.(message := other), i, doc, seg, ms)
  {
    if ms != [] {
      CheckIgnoresMessage(r, i, doc, seg, ms[1..], other);
    }
  }

  /** A flag rule (no check, a non-empty message) reports every match, each time with its message. */
  lemma {:induction false} FlagReportsEveryMatch(r: Rule, i: nat, doc: string, seg: Segment, ms: seq<Match>)
    requires r.check.None? && Truthy(r.message)
    ensures |EmitAll(r, i, doc, seg, ms)| == |ms|
    ensures forall k :: 0 <= k < |ms| ==> EmitAll(r, i, doc, seg, ms)[k].message == r.message.value
  {
    if ms != [] {
      FlagReportsEveryMatch(r, i, doc, seg, ms[1..]);
      var ds := EmitAll(r, i, doc, seg, ms);
      var rest := EmitAll(r, i, doc, seg, ms[1..]);
      assert ds == Emit(r, i, doc, seg, ms[0]) + rest;
      forall k | 0 <= k < |ms|
        ensures ds[k].message == r.message.value
      {
        if k > 0 {
          assert ds[k] == rest[k - 1];
        }
      }
    }
  }

  /** A rule whose classifier reports every match (the tone-mark checks) reports every match. */
  lemma {:induction false} AlwaysFlagsReportsEveryMatch(r: Rule, i: nat, doc: string, seg: Segment, ms: seq<Match>)
    requires r.check.Some? && AlwaysFlags(r.check.value)
    ensures |EmitAll(r, i, doc, seg, ms)| == |ms|
  {
    if ms != [] {
      AlwaysFlagsSound(r.check.value, ms[0]);
      AlwaysFlagsReportsEveryMatch(r, i, doc, seg, ms[1..]);
    }
  }

  // Order of the diagnostics.

  /** Every diagnostic has a start point, at or after document offset `lo`. */
  predicate StartsFrom(ds: seq<Diagnostic>, lo: int)
  {
    forall d :: d in ds ==> d.start.Some? && d.start.value.offset >= lo
  }

  /** Each diagnostic starts strictly after the ones before it. */
  predicate StartsIncreasing(ds: seq<Diagnostic>)
  {
    forall a, b :: 0 <= a < b < |ds| ==> ds[a].start.Some? && ds[b].start.Some? && ds[a].start.value.offset < ds[b].start.value.offset
  }

  /** Putting diagnostics that start before `lo` in front of increasing ones that start from `lo` keeps them increasing. */
  lemma StartsIncreasingAppend(head: seq<Diagnostic>, rest: seq<Diagnostic>, lo: int)
    requires |head| <= 1 && forall d :: d in head ==> d.start.Some? && d.start.value.offset < lo
    requires StartsFrom(rest, lo) && StartsIncreasing(rest)
    ensures StartsIncreasing(head + rest)
  {
    var ds := head + rest;
    forall a, b | 0 <= a < b < |ds|
      ensures ds[a].start.Some? && ds[b].start.Some? && ds[a].start.value.offset < ds[b].start.value.offset
    {
      assert ds[b] == rest[b - |head|];
      assert ds[b] in rest;
      if a < |head| {
        assert ds[a] in head;
      } else {
        assert ds[a] == rest[a - |head|];
      }
    }
  }

  /**
   * The diagnostics of non-overlapping matches inside the segment come out in
   * document order: each starts strictly after the one before, and none
   * starts before the first match.
   */
  lemma {:induction false} EmitAllInOrder(r: Rule, i: nat, doc: string, seg: Segment, ms: seq<Match>)
    requires forall k :: 0 <= k < |ms| ==> MatchIn(seg.text, 0, ms[k])
    requires Ordered(ms) && seg.offset + |seg.text| <= |doc|
    ensures StartsIncreasing(EmitAll(r, i, doc, seg, ms))
    ensures ms != [] ==> StartsFrom(EmitAll(r, i, doc, seg, ms), seg.offset + ms[0].index)
  {
    if ms != [] {
      var tail := ms[1..];
      assert forall k :: 0 <= k < |tail| ==> tail[k] == ms[k + 1];
      assert Ordered(tail);
      EmitAllInOrder(r, i, doc, seg, tail);
      EmitMeaning(r, i, doc, seg, ms[0]);
      var head := Emit(r, i, doc, seg, ms[0]);
      var rest := EmitAll(r, i, doc, seg, tail);
      assert EmitAll(r, i, doc, seg, ms) == head + rest;
      var lo := seg.offset + ms[0].index + 1;
      if tail != [] {
        assert ms[0].index < tail[0].index;
        assert StartsFrom(rest, lo);
      }
      StartsIncreasingAppend(head, rest, lo);
      assert forall d :: d in head + rest ==> d in head || d in rest;
    }
  }

  /** The diagnostics of one pattern come out in increasing order of match index. */
  lemma PatternInOrder(engine: Engine, r: Rule, i: nat, doc: string, seg: Segment, p: Pattern)
    requires seg.offset + |seg.text| <= |doc|
    ensures StartsIncreasing(EmitAll(r, i, doc, seg, Matches(engine, p, seg.text, 0)))
  {
    MatchesWithin(engine, p, seg.text, 0);
    MatchesOrdered(engine, p, seg.text, 0);
    EmitAllInOrder(r, i, doc, seg, Matches(engine, p, seg.text, 0));
  }

  /** Every diagnostic a rule's matches yield carries that rule's index. */
  lemma {:induction false} EmitAllRule(r: Rule, i: nat, doc: string, seg: Segment, ms: seq<Match>)
    ensures forall d :: d in EmitAll(r, i, doc, seg, ms) ==> d.rule == i
  {
    if ms != [] {
      EmitAllRule(r, i, doc, seg, ms[1..]);
    }
  }

  /** Every diagnostic of a scan of the patterns of rule `i` carries index `i`. */
  lemma {:induction false} ScanPatternsRule(engine: Engine, r: Rule, i: nat, doc: string, seg: Segment, ps: seq<Pattern>, j: nat)
    decreases |ps| - j
    ensures forall d :: d in ScanPatterns(engine, r, i, doc, seg, ps, j).diags ==> d.rule == i
  {
    if j < |ps| {
      ScanPatternsRule(engine, r, i, doc, seg, ps, j + 1);
      if ps[j].global {
        EmitAllRule(r, i, doc, seg, Matches(engine, ps[j], seg.text, 0));
      }
    }
  }

  /** Every diagnostic names a rule in `lo..hi`. */
  predicate RulesWithin(ds: seq<Diagnostic>, lo: nat, hi: nat)
  {
    forall d :: d in ds ==> lo <= d.rule < hi
  }

  /** Rule indices never decrease along the list. */
  predicate InRuleOrder(ds: seq<Diagnostic>)
  {
    forall a, b :: 0 <= a < b < |ds| ==> ds[a].rule <= ds[b].rule
  }

  /** Diagnostics of one rule `i`, then ones in rule order naming rules after `i`, are in rule order. */
  lemma InRuleOrderAppend(head: seq<Diagnostic>, rest: seq<Diagnostic>, i: nat, hi: nat)
    requires (forall d :: d in head ==> d.rule == i) && RulesWithin(rest, i + 1, hi) && InRuleOrder(rest)
    ensures InRuleOrder(head + rest)
  {
    var ds := head + rest;
    forall a, b | 0 <= a < b < |ds|
      ensures ds[a].rule <= ds[b].rule
    {
      if a < |head| {
        assert ds[a] in head;
        if b >= |head| {
          assert ds[b] == rest[b - |head|];
          assert ds[b] in rest;
        } else {
          assert ds[b] in head;
        }
      } else {
        assert ds[a] == rest[a - |head|] && ds[b] == rest[b - |head|];
      }
    }
  }

  /**
   * Diagnostics of a segment come out in rule order: every one names a rule
   * of `rules[i..]`, and their rule indices never decrease along the list.
   */
  lemma {:induction false} ScanRulesInRuleOrder(engine: Engine, rules: seq<Rule>, doc: string, seg: Segment, i: nat)
    decreases |rules| - i
    ensures RulesWithin(ScanRules(engine, rules, doc, seg, i).diags, i, |rules|)
    ensures InRuleOrder(ScanRules(engine, rules, doc, seg, i).diags)
  {
    if i < |rules| {
      ScanRulesInRuleOrder(engine, rules, doc, seg, i + 1);
      if !rules[i].pattern.NoPattern? {
        var run := RuleRun(engine, rules, doc, seg, i);
        ScanPatternsRule(engine, rules[i], i, doc, seg, Patterns(rules[i].pattern), 0);
        if run.error.None? {
          var rest := ScanRules(engine, rules, doc, seg, i + 1).diags;
          InRuleOrderAppend(run.diags, rest, i, |rules|);
          assert forall d :: d in run.diags + rest ==> d in run.diags || d in rest;
        }
      }
    }
  }

  // Errors.

  /**
   * A scan of patterns fails exactly when one of them is not global, and then
   * with the error naming one such pattern.
   */
  lemma {:induction false} ScanPatternsError(engine: Engine, r: Rule, i: nat, doc: string, seg: Segment, ps: seq<Pattern>, j: nat)
    decreases |ps| - j
    ensures var e := ScanPatterns(engine, r, i, doc, seg, ps, j).error;
      && (e.None? <==> forall k :: j <= k < |ps| ==> ps[k].global)
      && (e.Some? ==> exists k :: j <= k < |ps| && !ps[k].global && e.value == NotGlobal(ps[k])
                                  && forall k' :: j <= k' < k ==> ps[k'].global)
  {
    if j < |ps| {
      ScanPatternsError(engine, r, i, doc, seg, ps, j + 1);
      var e := ScanPatterns(engine, r, i, doc, seg, ps, j).error;
      if !ps[j].global {
        assert e == Some(NotGlobal(ps[j]));
      } else if e.Some? {
        var k :| j + 1 <= k < |ps| && !ps[k].global && e.value == NotGlobal(ps[k])
                 && forall k' :: j + 1 <= k' < k ==> ps[k'].global;
        assert forall k' :: j <= k' < k ==> ps[k'].global;
      }
    }
  }

  /** A scan of rules fails exactly when some pattern of some rule is not global. */
  lemma {:induction false} ScanRulesError(engine: Engine, rules: seq<Rule>, doc: string, seg: Segment, i: nat)
    decreases |rules| - i
    ensures ScanRules(engine, rules, doc, seg, i).error.None?
      <==> forall k, p :: i <= k < |rules| && p in Patterns(rules[k].pattern) ==> p.global
  {
    if i < |rules| {
      ScanRulesError(engine, rules, doc, seg, i + 1);
      var ps := Patterns(rules[i].pattern);
      ScanPatternsError(engine, rules[i], i, doc, seg, ps, 0);
      if ScanRules(engine, rules, doc, seg, i).error.None? {
        forall k, p | i <= k < |rules| && p in Patterns(rules[k].pattern)
          ensures p.global
        {
          if k == i {
            var x :| 0 <= x < |ps| && ps[x] == p;
          }
        }
      }
    }
  }

  /** A document scanned with rules whose patterns are all global never fails. */
  lemma {:induction false} GlobalRulesNeverFail(engine: Engine, rules: seq<Rule>, doc: string, segs: seq<Segment>, k: nat)
    requires RulesGlobal(rules)
    decreases |segs| - k
    ensures ScanDocument(engine, rules, doc, segs, k).error == None
  {
    if k < |segs| {
      ScanRulesError(engine, rules, doc, segs[k], 0);
      GlobalRulesNeverFail(engine, rules, doc, segs, k + 1);
    }
  }

  /** The table's patterns are all global, so scanning any document with it never fails. */
  lemma TableNeverFails(engine: Engine, doc: string, segs: seq<Segment>)
    ensures ScanDocument(engine, Table, doc, segs, 0).error == None
  {
    TableReady();
    GlobalRulesNeverFail(engine, Table, doc, segs, 0);
  }

  // Coverage.

  /** Some match of some pattern of rule `i` is reported. */
  ghost predicate Reported(engine: Engine, rules: seq<Rule>, seg: Segment, i: nat)
    requires i < |rules|
  {
    exists p, m :: p in Patterns(rules[i].pattern) && m in Matches(engine, p, seg.text, 0) && Fires(rules[i], m)
  }

  /** The rule reports one of these matches. */
  predicate AnyFires(r: Rule, ms: seq<Match>)
  {
    exists m :: m in ms && Fires(r, m)
  }

  /** The rule reports a match of one of the patterns `ps[j..]`, scanning them one by one. */
  ghost predicate PatternsFire(engine: Engine, r: Rule, seg: Segment, ps: seq<Pattern>, j: nat)
    decreases |ps| - j
  {
    j < |ps| && (AnyFires(r, Matches(engine, ps[j], seg.text, 0)) || PatternsFire(engine, r, seg, ps, j + 1))
  }

  /** Scanning the patterns one by one finds a reported match exactly when some pattern has one. */
  lemma {:induction false} PatternsFireMeaning(engine: Engine, r: Rule, seg: Segment, ps: seq<Pattern>, j: nat)
    decreases |ps| - j
    ensures PatternsFire(engine, r, seg, ps, j)
      <==> exists k, m :: j <= k < |ps| && m in Matches(engine, ps[k], seg.text, 0) && Fires(r, m)
  {
    if j < |ps| {
      PatternsFireMeaning(engine, r, seg, ps, j + 1);
      if exists k, m :: j <= k < |ps| && m in Matches(engine, ps[k], seg.text, 0) && Fires(r, m) {
        var k, m :| j <= k < |ps| && m in Matches(engine, ps[k], seg.text, 0) && Fires(r, m);
        if k > j {
          assert PatternsFire(engine, r, seg, ps, j + 1);
        }
      }
    }
  }

  /** The matches' diagnostics name rule `i` exactly when the rule reports one of the matches. */
  lemma {:induction false} RulesOfEmitAll(r: Rule, i: nat, doc: string, seg: Segment, ms: seq<Match>)
    ensures RulesOf(EmitAll(r, i, doc, seg, ms)) == if AnyFires(r, ms) then {i} else {}
  {
    if ms != [] {
      RulesOfEmitAll(r, i, doc, seg, ms[1..]);
      var head := Emit(r, i, doc, seg, ms[0]);
      RulesOfAppend(head, EmitAll(r, i, doc, seg, ms[1..]));
      if Fires(r, ms[0]) {
        assert head[0] in head;
      }
      assert forall m :: m in ms <==> m == ms[0] || m in ms[1..];
    }
  }

  /** A scan of global patterns names rule `i` exactly when the rule reports a match of one of them. */
  lemma {:induction false} RulesOfScanPatterns(engine: Engine, r: Rule, i: nat, doc: string, seg: Segment, ps: seq<Pattern>, j: nat)
    requires forall k :: 0 <= k < |ps| ==> ps[k].global
    decreases |ps| - j
    ensures RulesOf(ScanPatterns(engine, r, i, doc, seg, ps, j).diags)
      == if PatternsFire(engine, r, seg, ps, j) then {i} else {}
  {
    if j < |ps| {
      RulesOfScanPatterns(engine, r, i, doc, seg, ps, j + 1);
      var ms := Matches(engine, ps[j], seg.text, 0);
      RulesOfEmitAll(r, i, doc, seg, ms);
      RulesOfAppend(EmitAll(r, i, doc, seg, ms), ScanPatterns(engine, r, i, doc, seg, ps, j + 1).diags);
    }
  }

  /** With its patterns global, a rule's own scan names it exactly when it reports a match. */
  lemma RuleRunCoverage(engine: Engine, rules: seq<Rule>, doc: string, seg: Segment, i: nat)
    requires RulesGlobal(rules) && i < |rules|
    ensures RuleRun(engine, rules, doc, seg, i).error.None?
    ensures RulesOf(RuleRun(engine, rules, doc, seg, i).diags) == if Reported(engine, rules, seg, i) then {i} else {}
  {
    var ps := Patterns(rules[i].pattern);
    assert forall k :: 0 <= k < |ps| ==> ps[k] in ps;
    RulesOfScanPatterns(engine, rules[i], i, doc, seg, ps, 0);
    ScanPatternsError(engine, rules[i], i, doc, seg, ps, 0);
    PatternsFireMeaning(engine, rules[i], seg, ps, 0);
    if Reported(engine, rules, seg, i) {
      var p, m :| p in ps && m in Matches(engine, p, seg.text, 0) && Fires(rules[i], m);
      var x :| 0 <= x < |ps| && ps[x] == p;
    }
  }

  /**
   * With every pattern global, a rule of `rules[i..]` is named by the scan of
   * a segment (and so leaves the unused set) exactly when it has a pattern
   * and reports one of that pattern's matches; a match its check returns
   * nothing for leaves it unused.
   */
  lemma {:induction false} Coverage(engine: Engine, rules: seq<Rule>, doc: string, seg: Segment, i: nat)
    requires RulesGlobal(rules)
    decreases |rules| - i
    ensures forall k :: (k in RulesOf(ScanRules(engine, rules, doc, seg, i).diags)
      <==> i <= k < |rules| && Reported(engine, rules, seg, k))
  {
    if i < |rules| {
      Coverage(engine, rules, doc, seg, i + 1);
      if rules[i].pattern.NoPattern? {
        assert !Reported(engine, rules, seg, i);
      } else {
        RuleRunCoverage(engine, rules, doc, seg, i);
        RulesOfAppend(RuleRun(engine, rules, doc, seg, i).diags, ScanRules(engine, rules, doc, seg, i + 1).diags);
      }
    }
  }

  // A scenario: a misspelt word on its own.

  /**
   * A spelling rule whose pattern is a plain word, run over a segment that is
   * exactly that word, yields one diagnostic `“word” → “suggestion”` covering
   * the whole segment, when the word is not an accepted spelling.
   */
  lemma LiteralRuleOnItsWord(engine: Engine, word: Word, e: Expected, i: nat, doc: string, seg: Segment)
    requires seg.text == word
    requires word !in Alternatives(Resolve(e, Match(0, word, [])))
    ensures var s := Resolve(e, Match(0, word, []));
      EmitAll(SpellRule(Literal(word, true), e), i, doc, seg, Matches(engine, Literal(word, true), seg.text, 0))
      == [Diagnostic(Quote(word) + Arrow + Suggestion(s), ToPoint(doc, seg.offset), ToPoint(doc, seg.offset + |word| - 1), i)]
  {
    LiteralMatchesItself(engine, word);
    var m := Match(0, word, []);
    var r := SpellRule(Literal(word, true), e);
    assert EmitAll(r, i, doc, seg, [m]) == Emit(r, i, doc, seg, m) + EmitAll(r, i, doc, seg, []);
  }

  /** The file being linted: its text, which points are computed against, and its messages. */
  class VFile {
    const contents: string
    var messages: seq<Diagnostic>

    constructor (contents: string)
      ensures this.contents == contents && messages == []
    {
      this.contents := contents;
      messages := [];
    }

    /** Adds a message at a point to the file (remark-lint-thai.js:191, :195), recording the rule that reported it. */
    method Message(reason: string, start: Option<Point>, end: Option<Point>, rule: nat)
      modifies this
      ensures messages == old(messages) + [Diagnostic(reason, start, end, rule)]
    {
      messages := messages + [Diagnostic(reason, start, end, rule)];
    }
  }

  /** The linter: the rule table and the set of rules that have not reported anything yet. */
  class Linter {
    const rules: seq<Rule>
    var unusedRules: set<nat>

    /** At first every rule is unused (remark-lint-thai.js:167). */
    constructor (rules: seq<Rule>)
      ensures this.rules == rules && unusedRules == AllRules(rules)
    {
      this.rules := rules;
      unusedRules := AllRules(rules);
    }

    /**
     * The body of the innermost loop of `visitor`: the rule's check, or its
     * fixed message, decides whether the match is reported; a report goes to
     * the file at the points of the match's first and last characters, and
     * the rule is no longer unused.
     */
    method ReportMatch(file: VFile, seg: Segment, r: Rule, i: nat, m: Match)
      modifies this, file
      ensures var ds := Emit(r, i, file.contents, seg, m);
        && file.messages == old(file.messages) + ds
        && unusedRules == old(unusedRules) - RulesOf(ds)
    {
      var start := ToPoint(file.contents, seg.offset + m.index);
      var end := ToPoint(file.contents, seg.offset + m.index + |m.text| - 1);
      if r.check.Some? {
        var message := Classify.Classify(r.check.value, m);
        if Truthy(message) {
          file.Message(message.value, start, end, i);
          unusedRules := unusedRules - {i};
        }
      } else if Truthy(r.message) {
        file.Message(r.message.value, start, end, i);
        unusedRules := unusedRules - {i};
      }
      assert forall d :: d in Emit(r, i, file.contents, seg, m) ==> d.rule == i;
    }

    /**
     * One pattern of rule `i` over a segment: a pattern without the `g` flag
     * is an error; otherwise the innermost loop of `visitor` runs, `exec`ing
     * the pattern again and again from the end of the last match
     * (`lastIndex`) until it finds nothing, and reports each match.
     */
    method ScanPattern(engine: Engine, file: VFile, seg: Segment, r: Rule, i: nat, p: Pattern) returns (error: Option<string>)
      modifies this, file
      ensures var run := PatternRun(engine, r, i, file.contents, seg, p);
        && file.messages == old(file.messages) + run.diags
        && error == run.error
        && unusedRules == old(unusedRules) - RulesOf(run.diags)
    {
      if !p.global {
        return Some(NotGlobal(p));
      }
      error := None;
      ghost var doc := file.contents;
      ghost var all := EmitAll(r, i, doc, seg, Matches(engine, p, seg.text, 0));
      ghost var acc: seq<Diagnostic> := [];
      var from := 0;
      var found := Exec(engine, p, seg.text, from);
      while found.Some?
        invariant from <= |seg.text|
        invariant found == Exec(engine, p, seg.text, from)
        invariant acc + EmitAll(r, i, doc, seg, Matches(engine, p, seg.text, from)) == all
        invariant file.messages == old(file.messages) + acc
        invariant unusedRules == old(unusedRules) - RulesOf(acc)
        decreases |seg.text| - from
      {
        var m := found.value;
        ghost var ds := Emit(r, i, doc, seg, m);
        UnusedStep(old(unusedRules), acc, ds);
        AppendAssoc(old(file.messages), acc, ds);
        ReportMatch(file, seg, r, i, m);
        ghost var acc0, from0 := acc, from;
        acc := acc + ds;
        from := m.index + |m.text|;
        ScanMatchesStep(engine, r, i, doc, seg, p, from0, m, acc0, all, acc, from);
        found := Exec(engine, p, seg.text, from);
      }
      ScanMatchesDone(engine, r, i, doc, seg, p, from, acc, all);
    }

    /**
     * The middle loop of `visitor`: every pattern of rule `i` in order
     * (remark-lint-thai.js:175). A pattern without the `g` flag stops the scan
     * with an error, keeping what was reported before it.
     */
    method ScanRule(engine: Engine, file: VFile, seg: Segment, i: nat) returns (error: Option<string>)
      requires i < |rules|
      modifies this, file
      ensures var run := RuleRun(engine, rules, file.contents, seg, i);
        && file.messages == old(file.messages) + run.diags
        && error == run.error
        && unusedRules == old(unusedRules) - RulesOf(run.diags)
    {
      var r := rules[i];
      var ps := Patterns(r.pattern);
      ghost var doc := file.contents;
      ghost var acc: seq<Diagnostic> := [];
      error := None;
      var j := 0;
      while j < |ps| && error.None?
        invariant j <= |ps|
        invariant Chain(Run(acc, error), ScanPatterns(engine, r, i, doc, seg, ps, j)) == ScanPatterns(engine, r, i, doc, seg, ps, 0)
        invariant file.messages == old(file.messages) + acc
        invariant unusedRules == old(unusedRules) - RulesOf(acc)
      {
        error := ScanPattern(engine, file, seg, r, i, ps[j]);
        ghost var ds := PatternRun(engine, r, i, doc, seg, ps[j]).diags;
        AppendAssoc(old(file.messages), acc, ds);
        UnusedStep(old(unusedRules), acc, ds);
        ghost var acc0 := acc;
        acc := acc + ds;
        PatternStep(engine, r, i, doc, seg, ps, j, acc0, ds, error, acc);
        j := j + 1;
      }
      PatternsDone(engine, r, i, doc, seg, ps, j, acc, error);
    }

    /**
     * The visitor of a text node (remark-lint-thai.js:171-201): scans one text
     * segment with every rule in table order; a rule without a pattern is
     * skipped, and an error stops the scan.
     */
    method Visit(engine: Engine, file: VFile, seg: Segment) returns (error: Option<string>)
      modifies this, file
      ensures var run := ScanRules(engine, rules, file.contents, seg, 0);
        && file.messages == old(file.messages) + run.diags
        && error == run.error
        && unusedRules == old(unusedRules) - RulesOf(run.diags)
    {
      ghost var doc := file.contents;
      ghost var acc: seq<Diagnostic> := [];
      error := None;
      var i := 0;
      while i < |rules| && error.None?
        invariant i <= |rules|
        invariant Chain(Run(acc, error), ScanRules(engine, rules, doc, seg, i)) == ScanRules(engine, rules, doc, seg, 0)
        invariant file.messages == old(file.messages) + acc
        invariant unusedRules == old(unusedRules) - RulesOf(acc)
      {
        ghost var ds: seq<Diagnostic> := [];
        if !rules[i].pattern.NoPattern? {
          error := ScanRule(engine, file, seg, i);
          ds := RuleRun(engine, rules, doc, seg, i).diags;
        }
        AppendAssoc(old(file.messages), acc, ds);
        UnusedStep(old(unusedRules), acc, ds);
        ghost var acc0 := acc;
        acc := acc + ds;
        RuleStep(engine, rules, doc, seg, i, acc0, ds, error, acc);
        i := i + 1;
      }
      RulesDone(engine, rules, doc, seg, i, acc, error);
    }

    /**
     * The processor (remark-lint-thai.js:169-202): visits the text segments of
     * a document in order; an error from one segment stops the walk. The unused set lives
     * on across documents, as the module-level set of the source does.
     */
    method Process(engine: Engine, file: VFile, segments: seq<Segment>) returns (error: Option<string>)
      modifies this, file
      ensures var run := ScanDocument(engine, rules, file.contents, segments, 0);
        && file.messages == old(file.messages) + run.diags
        && error == run.error
        && unusedRules == old(unusedRules) - RulesOf(run.diags)
    {
      ghost var doc := file.contents;
      ghost var acc: seq<Diagnostic> := [];
      error := None;
      var k := 0;
      while k < |segments| && error.None?
        invariant k <= |segments|
        invariant Chain(Run(acc, error), ScanDocument(engine, rules, doc, segments, k)) == ScanDocument(engine, rules, doc, segments, 0)
        invariant file.messages == old(file.messages) + acc
        invariant unusedRules == old(unusedRules) - RulesOf(acc)
      {
        error := Visit(engine, file, segments[k]);
        ghost var ds := ScanRules(engine, rules, doc, segments[k], 0).diags;
        AppendAssoc(old(file.messages), acc, ds);
        UnusedStep(old(unusedRules), acc, ds);
        ghost var acc0 := acc;
        acc := acc + ds;
        SegmentStep(engine, rules, doc, segments, k, acc0, ds, error, acc);
        k := k + 1;
      }
      SegmentsDone(engine, rules, doc, segments, k, acc, error);
    }
  }
}
