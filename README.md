# remark-lint-thai, modelled in Dafny

remark-lint-thai is a spelling and style linter for Thai text in Markdown. It
holds an ordered table of rules. Each rule is a regular expression plus either
a fixed message (a flag rule) or a `check(match)` function (a checking rule).
Most checking rules come from the `spell(pattern, correct)` factory, which
accepts a match whose text is the expected spelling (or one of several) and
otherwise builds a correction message `“found” → “expected”`. Three checks
are written by hand: tone marks on high-class consonants, tone marks on
low-class consonants, and the repeat marker ๆ, which needs a space after it.

The linter visits every text node of the document. For each rule in table
order, and each pattern of the rule in order, it calls `exec` again and again
to list the non-overlapping matches. A pattern without the `g` flag is a fatal
error. Each match the rule reports becomes a message on the file, located by
the line/column points of its first and last characters. The rule also
leaves the module-level `unusedRules` set, which the tests use to see which
rules are covered.

The Dafny modules follow that structure:

- `Matching`: matches, patterns and `exec`. The engine is abstract, and
  plain-word patterns are searched for concretely.
- `Positions`: the offset to line/column mapping, as a reference function.
- `Classify`: the `spell` factory and the three hand-written checks. It also
  has a reader for correction messages, used to show that they are
  unambiguous.
- `Rules`: the rule table, all 99 rules in source order.
- `Scanner`: specification functions for what a scan yields, lemmas about
  order, errors and coverage, and the classes `VFile` and `Linter`. The
  `Linter` methods are the source's loops, proved to produce exactly what the
  specification functions say.

Two behaviours of the code shape the model:

- Line 176 of lib/remark-lint-thai.js throws only when the scan reaches a
  pattern without the global flag. The messages of the rules scanned before
  it have already been reported. `ScanPattern` returns the error at that
  point, and `ScanRulesError` and `TableNeverFails` say when it can happen.
- `unusedRules` (line 167) is one module-level set that lives across
  documents. `Linter` creates it once, and `Process` never resets it.

## Model

| member | source | states |
|---|---|---|
| Matching.FindWord | lib/remark-lint-thai.js:178-180 | `exec` of a plain-word pattern: a hit is a non-empty occurrence of the word at or after `lastIndex`, with no groups |
| Matching.FindWordFirst | lib/remark-lint-thai.js:178-180 | the hit is the first occurrence: the word occurs nowhere between `lastIndex` and it |
| Matching.FindWordMissing | lib/remark-lint-thai.js:178-180 | no hit means the word occurs nowhere at or after `lastIndex` |
| Matching.Exec | lib/remark-lint-thai.js:178-180 | a match returned by `exec` is a non-empty occurrence of its text in the segment, at or after `lastIndex` |
| Matching.MatchesNext | lib/remark-lint-thai.js:177-181 | after a match, the loop continues from its end, which is strictly further on and still within the text |
| Matching.MatchesDone | lib/remark-lint-thai.js:179 | the loop stops when `exec` returns null |
| Matching.MatchesWithin | lib/remark-lint-thai.js:177-181 | every match the loop lists lies inside the segment, at or after the starting offset |
| Matching.MatchesOrdered | lib/remark-lint-thai.js:177-181 | the listed matches do not overlap and come in increasing index order |
| Matching.LiteralMatchesItself | lib/remark-lint-thai.js:177-181 | a global plain-word pattern over a text that is exactly its word yields exactly one match, the whole text |
| Positions.ToPoint | lib/remark-lint-thai.js:183-186 | an offset has a point exactly when it lies in 0..length; the point keeps the offset, with line ≥ 1 and 1 ≤ column ≤ offset+1 |
| Positions.PointMeaning | lib/remark-lint-thai.js:183-186 | the line is 1 + the number of line feeds before the offset; the column counts from just after the last line feed |
| Positions.PointsOrdered | lib/remark-lint-thai.js:183-186 | a larger offset maps to a strictly later point |
| Classify.LowMaiChattawaLed | lib/remark-lint-thai.js:46-48 | the "use ห + consonant" message differs from the other two low-class messages |
| Classify.SpellCheck | lib/remark-lint-thai.js:8-19 | no message exactly when `match[0]` is an accepted form; otherwise `“match[0]” → ` followed by the quoted expectation(s) |
| Classify.SpellAcceptsExactly | lib/remark-lint-thai.js:8-19 | a `spell` check with a static or computed expectation accepts exactly the expected forms, and any message it gives is non-empty |
| Classify.CanonicalAccepted | lib/remark-lint-thai.js:11 | feeding a `spell` check any of its expected forms gives no message |
| Classify.HighTone | lib/remark-lint-thai.js:33-38 | always a message: the mai tri one exactly when group 3 is ๊, the mai chattawa one otherwise |
| Classify.LowTone | lib/remark-lint-thai.js:41-50 | always a message: mai tho for ๊; `ห`+consonant for mai chattawa on a sonorant; "another consonant" exactly when neither holds |
| Classify.RepeatCheck | lib/remark-lint-thai.js:53-56 | no message exactly when the letter after ๆ is ๆ; otherwise "Add a space after ๆ" |
| Classify.AlwaysFlagsSound | lib/remark-lint-thai.js:33-50 | both tone-mark checks give a message for every match |
| Classify.TestTableChecks | lib/remark-lint-thai.test.js:35-46 | the test cases คลิ๊ก, ค๊ะ and นู๋ are flagged with the listed messages; ๆๆ is accepted and ๆซ is flagged |
| Classify.OpenSourceAccepts | lib/remark-lint-thai.js:67 | โอเพน is accepted without the ซอร์ซ group and โอเพนซอร์ซ with it, and nothing else is |
| Classify.SituationAccepts | lib/remark-lint-thai.js:97-99 | when group 1 is the whole match, exactly สถานการณ์ and สถานะการ are accepted |
| Classify.ParseQuoteAll | lib/remark-lint-thai.js:12 | the ` / `-joined list of quoted alternatives reads back as the same list |
| Classify.CorrectionRoundTrip | lib/remark-lint-thai.js:12-16 | a correction message reads back as the matched text and every alternative in order |
| Rules.GuidelineSectionsReady | lib/remark-lint-thai.js:24-69 | each rule of the spacing, tone-mark and guideline sections has exactly one global pattern |
| Rules.BlognoneSectionsReadyA | lib/remark-lint-thai.js:71-91 | the same for the first Blognone additions |
| Rules.BlognoneSectionsReadyB | lib/remark-lint-thai.js:92-110 | the same for the remaining Blognone additions |
| Rules.MisspellingSectionsReadyA | lib/remark-lint-thai.js:112-129 | the same for the first common misspellings |
| Rules.MisspellingSectionsReadyB | lib/remark-lint-thai.js:130-163 | the same for the remaining misspellings, the transliterations and the last two rules |
| Rules.TableSections | lib/remark-lint-thai.js:22-164 | the table has 99 rules, each with exactly one global pattern |
| Rules.TableReady | lib/remark-lint-thai.js:22-164 | every pattern of every rule in the table is global, so line 176 never throws for it |
| Rules.TestLinkSpelling | lib/remark-lint-thai.test.js:11-12 | the ลิงก์ rule flags ลิงค์ as `“ลิงค์” → “ลิงก์”` and accepts ลิงก์ |
| Rules.TestInternetSpelling | lib/remark-lint-thai.test.js:4-5 | the อินเทอร์เน็ต rule flags อินเตอร์เน็ท with its correction and accepts อินเทอร์เน็ต |
| Rules.TestUpdateSpelling | lib/remark-lint-thai.js:73 | the array rule lists both alternatives: `“อัพเดท” → “อัพเดต” / “อัปเดต”` |
| Scanner.AllRules | lib/remark-lint-thai.js:167 | `new Set(rules)` holds exactly the indices of the table |
| Scanner.EmitMeaning | lib/remark-lint-thai.js:182-197 | a match gives one diagnostic if the rule reports it, none otherwise; the start is the segment offset + `match.index`, the end is start + length − 1, both lie in the segment, and start ≤ end |
| Scanner.CheckIgnoresMessage | lib/remark-lint-thai.js:188-194 | for a rule with `check`, its `message` field has no effect on what is emitted |
| Scanner.FlagReportsEveryMatch | lib/remark-lint-thai.js:194-197 | a flag rule emits one diagnostic per match, each with its fixed message |
| Scanner.AlwaysFlagsReportsEveryMatch | lib/remark-lint-thai.js:188-193 | a tone-mark rule emits one diagnostic per match |
| Scanner.EmitAllInOrder | lib/remark-lint-thai.js:177-187 | the diagnostics of non-overlapping matches start at strictly increasing offsets |
| Scanner.PatternInOrder | lib/remark-lint-thai.js:177-187 | one pattern's diagnostics come out in increasing match order |
| Scanner.EmitAllRule | lib/remark-lint-thai.js:191-196 | every diagnostic from a rule's matches belongs to that rule |
| Scanner.ScanPatternsRule | lib/remark-lint-thai.js:175-199 | every diagnostic from a rule's patterns belongs to that rule |
| Scanner.ScanRulesInRuleOrder | lib/remark-lint-thai.js:173-200 | a segment's diagnostics name only rules from the scanned range, in non-decreasing rule order |
| Scanner.ScanPatternsError | lib/remark-lint-thai.js:175-176 | scanning a rule's patterns fails exactly when one is not global, and the error is `/source/ not global!` for the first such pattern |
| Scanner.ScanRulesError | lib/remark-lint-thai.js:173-176 | scanning a segment fails exactly when some pattern of some rule is not global |
| Scanner.GlobalRulesNeverFail | lib/remark-lint-thai.js:169-202 | with all patterns global, scanning a whole document never fails |
| Scanner.TableNeverFails | lib/remark-lint-thai.js:22-176 | scanning any document with the table never fails |
| Scanner.PatternsFireMeaning | lib/remark-lint-thai.js:175-193 | the pattern-by-pattern scan finds a reported match exactly when some pattern has one |
| Scanner.RulesOfEmitAll | lib/remark-lint-thai.js:188-197 | a list of matches' diagnostics names the rule exactly when the rule reports one of the matches |
| Scanner.RulesOfScanPatterns | lib/remark-lint-thai.js:175-197 | the same over all of a rule's global patterns |
| Scanner.RuleRunCoverage | lib/remark-lint-thai.js:175-197 | with global patterns, a rule's scan never fails and names the rule exactly when one of its matches is reported |
| Scanner.Coverage | lib/remark-lint-thai.js:167-197 | a rule leaves the unused set exactly when it has a pattern and reports a match; a match whose check returns nothing leaves it unused |
| Scanner.LiteralRuleOnItsWord | lib/remark-lint-thai.js:6-20 | a misspelt plain word on its own yields one diagnostic `“word” → “suggestion”` spanning the whole segment |
| Scanner.VFile.constructor | lib/remark-lint-thai.js:169 | a file starts with its text and no messages |
| Scanner.VFile.Message | lib/remark-lint-thai.js:191 | `file.message` appends one diagnostic and changes nothing else |
| Scanner.Linter.constructor | lib/remark-lint-thai.js:167 | at first every rule of the table is unused |
| Scanner.Linter.ReportMatch | lib/remark-lint-thai.js:182-197 | one match: the file gains exactly that match's diagnostics, and the rule leaves the unused set exactly when it reported |
| Scanner.Linter.ScanPattern | lib/remark-lint-thai.js:176-198 | one pattern: the file gains exactly its diagnostics, the error is as specified, and the unused set loses exactly the reporting rule |
| Scanner.Linter.ScanRule | lib/remark-lint-thai.js:175-199 | all patterns of a rule, with the same three statements; an error keeps the earlier messages |
| Scanner.Linter.Visit | lib/remark-lint-thai.js:171-201 | one text node, all rules in order, with the same three statements |
| Scanner.Linter.Process | lib/remark-lint-thai.js:169-202 | all text nodes in order; the unused set only shrinks, by exactly the rules that reported |

## Left out

- The JavaScript regular-expression engine is not modelled. This covers alternation, character classes, `\w`, the lookbehinds at lib/remark-lint-thai.js:41 and :123, and the lookaheads at :101 and :117. Patterns that use regex syntax keep their source text and go to an abstract `Engine`. Only plain-word patterns are searched for concretely.
- Matching.Exec: it models `exec` on a global pattern only. Without the `g` flag, `exec` ignores `lastIndex`, and the loop at lines 177-181 would never end on a pattern that matches. The scanner stops at line 176 before reaching that case.
- Matching.Exec: an engine result that is not a non-empty occurrence at or after `lastIndex` is read as "no match". In JavaScript, an empty match would leave `lastIndex` in place and the loop would never end. No pattern of the table can match the empty string.
- Because the engine is abstract, the test cases that depend on what a regex matches are stated at classifier level only. Examples are "ซ้ำๆซากๆ is flagged exactly once", "จ๊ะ is not matched" and "โปรเจกไตล์ is not matched". The classifier's verdict on each match is proved, but not which matches the pattern finds.
- Positions.ToPoint: offsets and columns count Unicode scalar values (a Dafny `string` is a sequence of them), while vfile-location counts UTF-16 code units. After a character above U+FFFF, such as an emoji, each point differs from the program's.
- Scanner.EmitMeaning: match indices, match lengths and segment offsets count Unicode scalar values, while the source's `match.index`, `match[0].length` and node offsets count UTF-16 code units. Start and end offsets therefore differ from the program's after any character above U+FFFF.
- Positions.ToPoint: it is also a newline-counting reference function, not `vfile-location`, which is not part of this model. Outside 0..length it gives None where the library gives an empty point. Carriage returns are not treated as line breaks.
- The tree walk (`unist-util-visit`, `unist-util-to-string-with-nodes`) is given as a sequence of text segments, each with its document offset. `unified-lint-rule` (rule naming, severity) is not modelled.
- `file.message` is modelled as appending a diagnostic, with the rule index, to a sequence. The vfile message object (reason, ruleId, source) is not modelled.
- Thrown errors become an `error` result. The model does not unwind through the caller.
- The demo page (`demo/index.js`, `demo/self-test.js`) is browser UI and is left out. The Jest/remark test harness is also left out as code. Its ✔/✘ table appears only as the scenario lemmas above.
