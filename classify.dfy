/**
 * Classifiers: the `check(match)` functions of the rule table. Each takes a
 * match and returns a message (a violation) or None (no violation).
 *
 * `Spell` is the `spell(pattern, correct)` factory: the match is accepted when
 * `match[0]` is the expected word, or one of the expected alternatives; the
 * expected value may be computed from the match. The other three are the
 * hand-written checks for tone marks on high- and low-class consonants and
 * for the repeat marker ๆ.
 */
module Classify {
  import opened Wrappers
  import opened Matching

  /** What `spell` compares `match[0]` with: one word, or an array of accepted alternatives. */
  datatype Spelling = One(word: string) | AnyOf(words: seq<string>)

  /** The second argument of `spell`: a spelling, or a function of the match that computes one. */
  datatype Expected = Static(spelling: Spelling) | Dynamic(compute: Match -> Spelling)

  /** The `check` function of a rule. */
  datatype Classifier = Spell(expected: Expected) | HighClassTone | LowClassTone | RepeatSpacing

  /** Low-class consonants for which prefixing ห gives the tone that mai chattawa was meant to give. */
  const Sonorants := "งญนมยรลวฬ"
  const SilentLeader := 'ห'

  const MaiTri := "๊"
  const MaiChattawa := "๋"
  const RepeatMark := "ๆ"

  /**
   * The sources of the two tone-mark patterns: a high-class consonant, or a
   * low-class one (ร ล ว only when no cluster leader precedes them), then an
   * optional vowel, then mai tri or mai chattawa.
   */
  const HighTonePattern := "([ขฃฉฐถผฝศษสห])([ิีึืุูั]?)(๊|๋)"
  const LowTonePattern := "([คฅฆงชซฌญฑฒณทธนพฟภมยฬฮ]|(?<![กจฎฏดตบปอ])[รลว])([ิีึืุูั]?)(๊|๋)"

  const HighMaiTri := "High-class consonants may not use mai tri (use another consonant)"
  const HighMaiChattawa := "High-class consonants may not use mai chattawa (remove the tone mark)"
  const LowMaiTri := "Low-class consonants may not use mai tri (use mai tho instead)"
  const LowMaiChattawa := "Low-class consonants may not use mai chattawa (use another consonant)"
  const MissingSpaceAfterRepeat := "Add a space after ๆ"

  /** The message for a sonorant carrying mai chattawa: write it with a leading ห instead. */
  function LowMaiChattawaLed(consonant: string): (r: string)
    ensures r != LowMaiChattawa && r != LowMaiTri
  {
    var r := "Low-class consonants may not use mai chattawa (use \"" + [SilentLeader] + consonant + "\" instead)";
    assert r[51] == '"' && LowMaiChattawa[51] == 'a' && LowMaiTri[51] != r[51];
    r
  }

  // ---------------------------------------------------------------------------
  // The spell factory

  const Arrow := " → "
  const Or := " / "

  /** A word between curly quotes. */
  function Quote(s: string): string
  {
    "“" + s + "”"
  }

  /** Every word quoted, in order, separated by a slash between spaces (remark-lint-thai.js:12). */
  function QuoteAll(words: seq<string>): string
  {
    if words == [] then ""
    else if |words| == 1 then Quote(words[0])
    else Quote(words[0]) + Or + QuoteAll(words[1..])
  }

  /** The accepted forms of a spelling, in the order the message lists them. */
  function Alternatives(s: Spelling): seq<string>
  {
    match s
    case One(word) => [word]
    case AnyOf(words) => words
  }

  /** The text that follows the arrow in a correction message. */
  function Suggestion(s: Spelling): string
  {
    match s
    case One(word) => Quote(word)
    case AnyOf(words) => QuoteAll(words)
  }

  /** The spelling `expected` for this match: the constant, or the function applied to the match. */
  function Resolve(e: Expected, m: Match): Spelling
  {
    match e
    case Static(s) => s
    case Dynamic(f) => f(m)
  }

  /** `spell(...).check` once the expected value is known: no message exactly when `match[0]` is accepted. */
  function SpellCheck(s: Spelling, m: Match): (r: Option<string>)
    ensures r.None? <==> m.text in Alternatives(s)
    ensures r.Some? ==> r.value == Quote(m.text) + Arrow + Suggestion(s)
  {
    match s
    case One(word) =>
      if m.text != word then Some(Quote(m.text) + Arrow + Quote(word)) else None
    case AnyOf(words) =>
      if m.text !in words then Some(Quote(m.text) + Arrow + QuoteAll(words)) else None
  }

  // ---------------------------------------------------------------------------
  // The hand-written checks

  /** The group contains a sonorant (remark-lint-thai.js:45); an undefined group is read as "undefined", which has no Thai letter. */
  predicate HasSonorant(g: Option<string>)
  {
    g.Some? && exists k :: 0 <= k < |g.value| && g.value[k] in Sonorants
  }

  /** High-class consonant with mai tri or mai chattawa: always a violation; group 3 says which. */
  function HighTone(m: Match): (r: Option<string>)
    ensures Truthy(r)
    ensures r == Some(HighMaiTri) <==> Group(m, 3) == Some(MaiTri)
    ensures r == Some(HighMaiChattawa) <==> Group(m, 3) != Some(MaiTri)
  {
    if Group(m, 3) == Some(MaiTri) then Some(HighMaiTri) else Some(HighMaiChattawa)
  }

  /**
   * Low-class consonant with mai tri or mai chattawa: always a violation. Mai tri
   * should be mai tho; mai chattawa on a sonorant should be written with a
   * leading ห; on any other low-class consonant it needs another consonant.
   */
  function LowTone(m: Match): (r: Option<string>)
    ensures Truthy(r)
    ensures r == Some(LowMaiTri) <==> Group(m, 3) == Some(MaiTri)
    ensures Group(m, 3) != Some(MaiTri) && HasSonorant(Group(m, 1)) ==>
              r == Some(LowMaiChattawaLed(Group(m, 1).value))
    ensures r == Some(LowMaiChattawa) <==> Group(m, 3) != Some(MaiTri) && !HasSonorant(Group(m, 1))
  {
    if Group(m, 3) == Some(MaiTri) then Some(LowMaiTri)
    else if HasSonorant(Group(m, 1)) then Some(LowMaiChattawaLed(Group(m, 1).value))
    else Some(LowMaiChattawa)
  }

  /** ๆ followed by a letter: a violation unless that letter is another ๆ. */
  function RepeatCheck(m: Match): (r: Option<string>)
    ensures r.None? <==> Group(m, 1) == Some(RepeatMark)
    ensures r.Some? ==> r.value == MissingSpaceAfterRepeat
  {
    if Group(m, 1) != Some(RepeatMark) then Some(MissingSpaceAfterRepeat) else None
  }

  /** What a rule's check function returns for a match. */
  function Classify(c: Classifier, m: Match): Option<string>
  {
    match c
    case Spell(e) => SpellCheck(Resolve(e, m), m)
    case HighClassTone => HighTone(m)
    case LowClassTone => LowTone(m)
    case RepeatSpacing => RepeatCheck(m)
  }

  /** The spell classifier accepts a match exactly when its text is an accepted form for that match. */
  lemma SpellAcceptsExactly(e: Expected, m: Match)
    ensures Classify(Spell(e), m).None? <==> m.text in Alternatives(Resolve(e, m))
    ensures Classify(Spell(e), m).Some? ==> Truthy(Classify(Spell(e), m))
  {
  }

  /** The canonical form is accepted: feeding a correction rule its expected word gives no message. */
  lemma CanonicalAccepted(e: Expected, m: Match, k: nat)
    requires k < |Alternatives(Resolve(e, m))| && m.text == Alternatives(Resolve(e, m))[k]
    ensures Classify(Spell(e), m) == None
  {
  }

  /** The three hand-written tone checks flag every match; the repeat check only some. */
  predicate AlwaysFlags(c: Classifier)
  {
    c.HighClassTone? || c.LowClassTone?
  }

  lemma AlwaysFlagsSound(c: Classifier, m: Match)
    requires AlwaysFlags(c)
    ensures Truthy(Classify(c, m))
  {
  }

  /**
   * The tone-mark and repeat cases of the test table, as the matches their
   * patterns find: คลิ๊ก (ล, ิ, mai tri), ค๊ะ (ค, mai tri) and นู๋ (น, ู, mai
   * chattawa) are flagged, the last with the ห spelling; ๆๆ is accepted and
   * ๆซ (in ซ้ำๆซากๆ) is flagged.
   */
  lemma TestTableChecks()
    ensures Classify(LowClassTone, Match(0, "ลิ๊", [Some("ล"), Some("ิ"), Some("๊")])) == Some(LowMaiTri)
    ensures Classify(LowClassTone, Match(0, "ค๊", [Some("ค"), Some(""), Some("๊")])) == Some(LowMaiTri)
    ensures Classify(LowClassTone, Match(0, "นู๋", [Some("น"), Some("ู"), Some("๋")]))
      == Some("Low-class consonants may not use mai chattawa (use \"หน\" instead)")
    ensures Classify(RepeatSpacing, Match(0, "ๆๆ", [Some("ๆ")])) == None
    ensures Classify(RepeatSpacing, Match(0, "ๆซ", [Some("ซ")])) == Some(MissingSpaceAfterRepeat)
  {
    var m := Match(0, "นู๋", [Some("น"), Some("ู"), Some("๋")]);
    assert Group(m, 1).value[0] in Sonorants;
    assert Group(m, 3) != Some(MaiTri);
    assert "Low-class consonants may not use mai chattawa (use \"" + [SilentLeader] + "น" + "\" instead)"
        == "Low-class consonants may not use mai chattawa (use \"หน\" instead)";
  }

  // ---------------------------------------------------------------------------
  // The dynamic spellings of the table

  /** The expectation of the โอเพน rule (remark-lint-thai.js:67): โอเพน, followed by ซอร์ซ when group 1 is non-empty. */
  function OpenSourceSpelling(m: Match): Spelling
  {
    One("โอเพน" + (if Truthy(Group(m, 1)) then "ซอร์ซ" else ""))
  }

  /** The expectation of the สถานการณ์ rule (remark-lint-thai.js:97-99): สถานะการ when group 1 is exactly that, else สถานการณ์. */
  function SituationSpelling(m: Match): Spelling
  {
    One(if Group(m, 1) == Some("สถานะการ") then "สถานะการ" else "สถานการณ์")
  }

  /** โอเพน is expected without the ซอร์ซ group, โอเพนซอร์ซ with it. */
  lemma OpenSourceAccepts(m: Match)
    ensures Classify(Spell(Dynamic(OpenSourceSpelling)), m).None? <==>
              if Truthy(Group(m, 1)) then m.text == "โอเพนซอร์ซ" else m.text == "โอเพน"
  {
    assert "โอเพน" + "ซอร์ซ" == "โอเพนซอร์ซ";
    assert "โอเพน" + "" == "โอเพน";
  }

  /**
   * Group 1 of this rule's pattern spans the whole match; then both สถานการณ์
   * and สถานะการ are accepted and nothing else is.
   */
  lemma SituationAccepts(m: Match)
    requires Group(m, 1) == Some(m.text)
    ensures Classify(Spell(Dynamic(SituationSpelling)), m).None? <==>
              m.text == "สถานการณ์" || m.text == "สถานะการ"
  {
  }

  // ---------------------------------------------------------------------------
  // Reading a correction message back

  /** Splits `s` at its first closing quote into the text before it and the text after it. */
  function SplitAtClose(s: string): (r: Option<(string, string)>)
    ensures r.Some? ==> s == r.value.0 + "”" + r.value.1 && '”' !in r.value.0
    ensures r.None? ==> '”' !in s
  {
    if s == [] then None
    else if s[0] == '”' then Some(([], s[1..]))
    else match SplitAtClose(s[1..])
      case None => None
      case Some(p) => Some(([s[0]] + p.0, p.1))
  }

  /** A quoted word at the start of `s`, and what follows it. */
  function ParseQuoted(s: string): (r: Option<(string, string)>)
    ensures r.Some? ==> |r.value.1| < |s|
  {
    if |s| > 0 && s[0] == '“' then SplitAtClose(s[1..]) else None
  }

  /** A non-empty list of quoted words separated by " / ". */
  function ParseAlternatives(s: string): Option<seq<string>>
    decreases |s|
  {
    match ParseQuoted(s)
    case None => None
    case Some(p) =>
      if p.1 == [] then Some([p.0])
      else if |p.1| > |Or| && p.1[..|Or|] == Or then
        match ParseAlternatives(p.1[|Or|..])
        case None => None
        case Some(rest) => Some([p.0] + rest)
      else None
  }

  /** A correction message `“matched” → “a” / “b”`, read back into the matched text and the alternatives. */
  function ParseCorrection(msg: string): Option<(string, seq<string>)>
  {
    match ParseQuoted(msg)
    case None => None
    case Some(p) =>
      if |p.1| >= |Arrow| && p.1[..|Arrow|] == Arrow then
        var tail := p.1[|Arrow|..];
        if tail == [] then Some((p.0, []))
        else match ParseAlternatives(tail)
          case None => None
          case Some(words) => Some((p.0, words))
      else None
  }

  lemma {:induction false} SplitAtCloseOf(w: string, rest: string)
    requires '”' !in w
    ensures SplitAtClose(w + "”" + rest) == Some((w, rest))
  {
    if w != [] {
      assert (w + "”" + rest)[1..] == w[1..] + "”" + rest;
      SplitAtCloseOf(w[1..], rest);
      assert [w[0]] + w[1..] == w;
    } else {
      assert w + "”" + rest == ['”'] + rest;
    }
  }

  lemma ParseQuotedOf(w: string, rest: string)
    requires '”' !in w
    ensures ParseQuoted(Quote(w) + rest) == Some((w, rest))
  {
    assert (Quote(w) + rest)[1..] == w + "”" + rest;
    SplitAtCloseOf(w, rest);
  }

  lemma {:induction false} ParseQuoteAll(words: seq<string>)
    requires words != [] && forall w :: w in words ==> '”' !in w
    ensures ParseAlternatives(QuoteAll(words)) == Some(words)
  {
    if |words| == 1 {
      ParseQuotedOf(words[0], []);
      assert Quote(words[0]) + [] == QuoteAll(words);
      assert words == [words[0]];
    } else {
      var tail := Or + QuoteAll(words[1..]);
      ParseQuotedOf(words[0], tail);
      assert Quote(words[0]) + tail == QuoteAll(words);
      assert words[1] in words;
      assert |QuoteAll(words[1..])| > 0 by {
        assert QuoteAll(words[1..])[0] == '“';
      }
      assert tail[..|Or|] == Or && tail[|Or|..] == QuoteAll(words[1..]);
      ParseQuoteAll(words[1..]);
      assert [words[0]] + words[1..] == words;
    }
  }

  /**
   * A correction message is unambiguous: reading it back gives the matched
   * text and every alternative in order, provided none contains a closing quote.
   */
  lemma CorrectionRoundTrip(s: Spelling, m: Match)
    requires m.text !in Alternatives(s)
    requires '”' !in m.text && forall w :: w in Alternatives(s) ==> '”' !in w
    ensures SpellCheck(s, m).Some?
    ensures ParseCorrection(SpellCheck(s, m).value) == Some((m.text, Alternatives(s)))
  {
    var tail := Suggestion(s);
    var msg := Quote(m.text) + (Arrow + tail);
    assert SpellCheck(s, m).value == msg;
    ParseQuotedOf(m.text, Arrow + tail);
    assert (Arrow + tail)[..|Arrow|] == Arrow && (Arrow + tail)[|Arrow|..] == tail;
    if Alternatives(s) != [] {
      ParseQuoteAll(Alternatives(s));
      assert QuoteAll(Alternatives(s)) == tail by {
        if s.One? { assert QuoteAll([s.word]) == Quote(s.word); }
      }
      assert tail != [] by { assert tail[0] == '“'; }
    }
  }
}
