/**
 * Matches and patterns.
 *
 * A `Match` is what `RegExp.prototype.exec` returns: the offset of the match in
 * the searched text, `match[0]` (the matched text) and the capture groups
 * `match[1]`, `match[2]`, ... (None where a group took no part, which is
 * JavaScript's `undefined`).
 *
 * The regular-expression engine is not modelled: a pattern that uses regex
 * syntax is handed to an `Engine`, an arbitrary function. `Exec` keeps an
 * engine result only when it is a non-empty occurrence in the text at or after
 * the search offset, which every match of the table's patterns is, and reads
 * anything else as "no match". A pattern that is a plain word (`Literal`) is
 * searched for concretely by `FindWord`.
 */
module Matching {
  import opened Wrappers

  datatype Match = Match(index: nat, text: string, groups: seq<Option<string>>)

  /** `match[k]`: the whole match for k == 0, else capture group k. */
  function Group(m: Match, k: nat): Option<string>
  {
    if k == 0 then Some(m.text)
    else if k - 1 < |m.groups| then m.groups[k - 1]
    else None
  }

  /** JavaScript truthiness of a string that may be `undefined`. */
  predicate Truthy(s: Option<string>)
  {
    s.Some? && s.value != ""
  }

  /** The text of a pattern without metacharacters: never empty, or its matches could not advance. */
  type Word = s: string | |s| > 0 witness "ๆ"

  /**
   * A regular-expression literal `/source/` with or without the `g` flag (its
   * `global` property, which makes `exec` continue from `lastIndex`; no other
   * flag occurs in the table). `Literal` is a pattern without metacharacters,
   * which matches exactly its text; `Regex` is any other.
   */
  datatype Pattern = Literal(word: Word, global: bool) | Regex(source: string, global: bool)

  /** The text between the slashes. */
  function Source(p: Pattern): string
  {
    match p
    case Literal(word, _) => word
    case Regex(source, _) => source
  }

  /** How JavaScript prints a pattern: `/source/g` or `/source/`. */
  function ToText(p: Pattern): string
  {
    "/" + Source(p) + "/" + (if p.global then "g" else "")
  }

  /** `word` occurs in `text` at offset `k`. */
  predicate OccursAt(word: string, text: string, k: nat)
  {
    k + |word| <= |text| && text[k..k + |word|] == word
  }

  /** `m` is a non-empty match of `text` found by a search starting at `from`. */
  predicate MatchIn(text: string, from: nat, m: Match)
  {
    from <= m.index && 0 < |m.text| && OccursAt(m.text, text, m.index)
  }

  /** The regular-expression engine: `exec` of a pattern on a text, with `lastIndex == from`. */
  type Engine = (Pattern, string, nat) -> Option<Match>

  /** `exec` of a word pattern: the first occurrence of `word` at or after `from`. */
  function FindWord(word: Word, text: string, from: nat): (r: Option<Match>)
    decreases |text| - from
    ensures r.Some? ==> MatchIn(text, from, r.value) && r.value.text == word && r.value.groups == []
  {
    if from + |word| > |text| then None
    else if text[from..from + |word|] == word then Some(Match(from, word, []))
    else FindWord(word, text, from + 1)
  }

  /** `FindWord` finds the first occurrence: the word occurs nowhere between `from` and the match. */
  lemma {:induction false} FindWordFirst(word: Word, text: string, from: nat)
    requires FindWord(word, text, from).Some?
    ensures forall k :: from <= k < FindWord(word, text, from).value.index ==> !OccursAt(word, text, k)
    decreases |text| - from
  {
    if from + |word| <= |text| && text[from..from + |word|] != word {
      FindWordFirst(word, text, from + 1);
    }
  }

  /** When `FindWord` finds nothing, the word occurs nowhere at or after `from`. */
  lemma {:induction false} FindWordMissing(word: Word, text: string, from: nat)
    requires FindWord(word, text, from).None?
    ensures forall k :: from <= k ==> !OccursAt(word, text, k)
    decreases |text| - from
  {
    if from + |word| <= |text| {
      FindWordMissing(word, text, from + 1);
    }
  }

  /**
   * `pattern.exec(text)` with `pattern.lastIndex == from`, for a pattern with
   * the `g` flag; the scanner only ever calls it on one (without the flag,
   * `exec` would ignore `lastIndex` and search from 0 every time).
   */
  function Exec(engine: Engine, p: Pattern, text: string, from: nat): (r: Option<Match>)
    ensures r.Some? ==> MatchIn(text, from, r.value)
  {
    match p
    case Literal(word, _) => FindWord(word, text, from)
    case Regex(_, _) =>
      match engine(p, text, from)
      case Some(m) => if MatchIn(text, from, m) then Some(m) else None
      case None => None
  }

  /**
   * Every match the `exec` loop of a global pattern visits when `lastIndex`
   * starts at `from` (remark-lint-thai.js:177-181): each search resumes where
   * the previous match ended.
   */
  function Matches(engine: Engine, p: Pattern, text: string, from: nat): (ms: seq<Match>)
    requires from <= |text|
    decreases |text| - from
  {
    match Exec(engine, p, text, from)
    case None => []
    case Some(m) => [m] + Matches(engine, p, text, m.index + |m.text|)
  }

  /**
   * The `exec` loop's step: the match `m` that `exec` finds at `from` is the
   * first of the matches from there, and the search goes on strictly further.
   */
  lemma MatchesNext(engine: Engine, p: Pattern, text: string, from: nat, m: Match)
    requires from <= |text|
    requires Exec(engine, p, text, from) == Some(m)
    ensures from < m.index + |m.text| <= |text|
    ensures Matches(engine, p, text, from) == [m] + Matches(engine, p, text, m.index + |m.text|)
  {
  }

  /** The `exec` loop's exit: when `exec` finds nothing at `from`, there are no more matches. */
  lemma MatchesDone(engine: Engine, p: Pattern, text: string, from: nat)
    requires from <= |text|
    requires Exec(engine, p, text, from) == None
    ensures Matches(engine, p, text, from) == []
  {
  }

  /** Every match the loop visits is a non-empty occurrence in the text at or after `from`. */
  lemma {:induction false} MatchesWithin(engine: Engine, p: Pattern, text: string, from: nat)
    requires from <= |text|
    decreases |text| - from
    ensures forall k :: 0 <= k < |Matches(engine, p, text, from)| ==> MatchIn(text, from, Matches(engine, p, text, from)[k])
  {
    var ms := Matches(engine, p, text, from);
    if ms != [] {
      var m := Exec(engine, p, text, from).value;
      var next := m.index + |m.text|;
      var rest := Matches(engine, p, text, next);
      assert ms == [m] + rest;
      MatchesWithin(engine, p, text, next);
      forall k | 0 <= k < |ms|
        ensures MatchIn(text, from, ms[k])
      {
        if k > 0 {
          assert ms[k] == rest[k - 1];
          assert MatchIn(text, next, rest[k - 1]);
        }
      }
    }
  }

  /** Each match ends at or before the next one starts. */
  predicate Ordered(ms: seq<Match>)
  {
    forall k :: 0 <= k < |ms| - 1 ==> ms[k].index + |ms[k].text| <= ms[k + 1].index
  }

  /** Matches of one pattern never overlap and come in increasing order of index. */
  lemma {:induction false} MatchesOrdered(engine: Engine, p: Pattern, text: string, from: nat)
    requires from <= |text|
    decreases |text| - from
    ensures Ordered(Matches(engine, p, text, from))
  {
    var ms := Matches(engine, p, text, from);
    if ms != [] {
      var m := Exec(engine, p, text, from).value;
      var next := m.index + |m.text|;
      var rest := Matches(engine, p, text, next);
      assert ms == [m] + rest;
      MatchesOrdered(engine, p, text, next);
      MatchesWithin(engine, p, text, next);
      forall k | 0 <= k < |ms| - 1
        ensures ms[k].index + |ms[k].text| <= ms[k + 1].index
      {
        if k > 0 {
          assert ms[k] == rest[k - 1] && ms[k + 1] == rest[k];
        } else {
          assert ms[0] == m && ms[1] == rest[0];
          assert MatchIn(text, next, rest[0]);
        }
      }
    }
  }

  /** A global literal pattern finds exactly one match in a text that is its word. */
  lemma LiteralMatchesItself(engine: Engine, word: Word)
    ensures Matches(engine, Literal(word, true), word, 0) == [Match(0, word, [])]
  {
    assert word[0..|word|] == word;
    var p := Literal(word, true);
    assert Exec(engine, p, word, 0) == Some(Match(0, word, []));
    assert Exec(engine, p, word, |word|) == None;
  }
}
