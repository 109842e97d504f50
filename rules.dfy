/**
 * The rule table: an ordered list of rules, each a pattern with either a fixed
 * message (a flag rule) or a `check` function (a checking rule). Patterns that
 * use regex syntax are kept as their source text for the engine; patterns
 * without metacharacters are `Literal`s, searched for concretely. The table is
 * written as one constant per section of the source, concatenated in order.
 */
module Rules {
  import opened Wrappers
  import opened Matching
  import opened Classify

  /** The `pattern` field of a rule: absent, one regex, or an array of regexes. */
  datatype PatternField = NoPattern | OnePattern(pattern: Pattern) | PatternList(patterns: seq<Pattern>)

  /** A rule object: a pattern, an optional `check` function and an optional fixed `message`. */
  datatype Rule = Rule(pattern: PatternField, check: Option<Classifier>, message: Option<string>)

  /** The patterns of a rule, in order: none, its one pattern, or its array (remark-lint-thai.js:175). */
  function Patterns(f: PatternField): seq<Pattern>
  {
    match f
    case NoPattern => []
    case OnePattern(p) => [p]
    case PatternList(ps) => ps
  }

  /** A rule with a fixed message and no check. */
  function FlagRule(p: Pattern, message: string): Rule
  {
    Rule(OnePattern(p), None, Some(message))
  }

  /** A rule with a check function and no message. */
  function CheckRule(p: Pattern, c: Classifier): Rule
  {
    Rule(OnePattern(p), Some(c), None)
  }

  /** `spell(pattern, correct)` */
  function SpellRule(p: Pattern, e: Expected): Rule
  {
    CheckRule(p, Spell(e))
  }

  /** Every pattern of every rule is global. */
  ghost predicate RulesGlobal(rules: seq<Rule>)
  {
    forall i, p :: 0 <= i < |rules| && p in Patterns(rules[i].pattern) ==> p.global
  }

  const ThaiThenOther := "Add a space between Thai and Non-Thai text"
  const OtherThenThai := "Add a space between Non-Thai and Thai text"

  /** A space is wanted where Thai and another script meet (remark-lint-thai.js:23-31). */
  const Spacing: seq<Rule> := [
    FlagRule(Regex("[\\u0E01-\\u0EFF]\\w", true), ThaiThenOther),
    FlagRule(Regex("\\w[\\u0E01-\\u0EFF]", true), OtherThenThai)
  ]

  /** Tone marks the consonant class forbids, and the repeat marker (remark-lint-thai.js:32-57). */
  const ToneMarks: seq<Rule> := [
    CheckRule(Regex(HighTonePattern, true), HighClassTone),
    CheckRule(Regex(LowTonePattern, true), LowClassTone),
    CheckRule(Regex("ๆ([\\u0E01-\\u0EFF\\w])", true), RepeatSpacing)
  ]

  /** Spellings from the Blognone writing guideline (remark-lint-thai.js:59-69). */
  const BlognoneGuideline: seq<Rule> := [
      SpellRule(Regex("(?:ลิ|ลิ้)ง(?:ก์|ค์)", true), Static(One("ลิงก์"))),
      SpellRule(Regex("อี-?(?:เมลล์|เมล์|เมล)", true), Static(One("อีเมล"))),
      SpellRule(Regex("ซอฟ(?:ต์|ท์)?แวร์", true), Static(One("ซอฟต์แวร์"))),
      SpellRule(Regex("ไมโครซอฟ(?:ต์|ท์)?", true), Static(One("ไมโครซอฟท์"))),
      SpellRule(Regex("อินเ[ตท]อ(?:ร์)?เน็[ตท]?", true), Static(One("อินเทอร์เน็ต"))),
      SpellRule(Regex("เว็[บพป]|เวป", true), Static(One("เว็บ"))),
      SpellRule(Regex("เ?บรา(?:ว์?)?เซอร์", true), Static(One("เบราว์เซอร์"))),
      SpellRule(Regex("โอเพ่?น(ซอ(?:ร์)?[ซส])?", true), Dynamic(OpenSourceSpelling)),
      SpellRule(Regex("แอปเปิ้?ล", true), Static(One("แอปเปิล"))),
      SpellRule(Regex("กูเกิ้?ล", true), Static(One("กูเกิล")))
  ]

  /** More spellings from Blognone, part 1 (remark-lint-thai.js:71-81). */
  const BlognoneMore1: seq<Rule> := [
      SpellRule(Regex("กราฟ?ฟิ[คก]", true), Static(One("กราฟิก"))),
      SpellRule(Regex("(?:อัป|อัพ|อัฟ)(?:เดท|เดต)", true), Static(AnyOf(["อัพเดต", "อัปเดต"]))),
      SpellRule(Literal("นิวยอร์ค", true), Static(One("นิวยอร์ก"))),
      SpellRule(Regex("โปร?แกร?ม", true), Static(One("โปรแกรม"))),
      SpellRule(Literal("อาจะ", true), Static(One("อาจจะ"))),
      SpellRule(Regex("ได(ร์|รฟ์)เ(ว|ว่)อ(ร์)?", true), Static(One("ไดรเวอร์"))),
      SpellRule(Literal("อุปกณ์", true), Static(One("อุปกรณ์"))),
      SpellRule(Literal("แผนการณ์", true), Static(One("แผนการ"))),
      SpellRule(Regex("(เซอ(ร์)?|เซิ(ร์)?ฟ)เ(ว|ว่)อ(ร์)?", true), Static(One("เซิร์ฟเวอร์"))),
      SpellRule(Regex("อุ[นณ]ห?ภูมิ", true), Static(One("อุณหภูมิ")))
  ]

  /** More spellings from Blognone, part 2 (remark-lint-thai.js:82-91). */
  const BlognoneMore2: seq<Rule> := [
      SpellRule(Regex("(?:เฟิรม|เฟิม|เฟอร์ม)แวร์", true), Static(One("เฟิร์มแวร์"))),
      SpellRule(Literal("ทฤษฏี", true), Static(One("ทฤษฎี"))),
      SpellRule(Literal("ปฎิบัติ", true), Static(One("ปฏิบัติ"))),
      SpellRule(Regex("(?:ฟิ|ฟี)(?:ลม์|ล์ม)", true), Static(One("ฟิล์ม"))),
      SpellRule(Literal("นัยยะสำคัญ", true), Static(One("นัยสำคัญ"))),
      SpellRule(Literal("อื่รๆ", true), Static(One("อื่นๆ"))),
      SpellRule(Literal("แบรดน์", true), Static(One("แบรนด์"))),
      SpellRule(Regex("ยูทูป|ยูทิวบ์|ยูทิวป์", true), Static(One("ยูทูบ"))),
      SpellRule(Literal("แพลทฟอร์ม", true), Static(One("แพลตฟอร์ม"))),
      SpellRule(Literal("โซเชี่ยล", true), Static(One("โซเชียล")))
  ]

  /** More spellings from Blognone, part 3 (remark-lint-thai.js:92-103). */
  const BlognoneMore3: seq<Rule> := [
      SpellRule(Literal("บริศัท", true), Static(One("บริษัท"))),
      SpellRule(Literal("ผุ้ใช้", true), Static(One("ผู้ใช้"))),
      SpellRule(Literal("หมายควาย", true), Static(One("หมายความ"))),
      SpellRule(Literal("เป็ฯ", true), Static(One("เป็น"))),
      SpellRule(Regex("อิสระ?ภาพ", true), Static(One("อิสรภาพ"))),
      SpellRule(Regex("(สถา(?:น|ณ)ะ?การ(?:ณ์)?)", true), Dynamic(SituationSpelling)),
      SpellRule(Literal("รักษาการณ์", true), Static(One("รักษาการ"))),
      SpellRule(Regex("แอนดรอย(?!ด์)", true), Static(One("แอนดรอยด์"))),
      SpellRule(Regex("โน้[ตท](?:บุ|บุ๊)[กค]", true), Static(One("โน้ตบุ๊ก"))),
      SpellRule(Literal("กรนี", true), Static(One("กรณี")))
  ]

  /** More spellings from Blognone, part 4 (remark-lint-thai.js:104-110). */
  const BlognoneMore4: seq<Rule> := [
      SpellRule(Regex("เสิ(?:ร์)?ชเ(?:อ|อ็)น(?:จิ|จิ้)น", true), Static(One("เสิร์ชเอนจิน"))),
      SpellRule(Literal("เบลเยี่ยม", true), Static(One("เบลเยียม"))),
      SpellRule(Regex("ไท(?:ทา|เท)เ(?:นี|นี่)ยม", true), Static(One("ไทเทเนียม"))),
      SpellRule(Literal("มิวนิค", true), Static(One("มิวนิก"))),
      SpellRule(Regex("อะ?ลู(?:มิ|มี)เ(?:นี|นี่)ยม", true), Static(One("อะลูมิเนียม"))),
      SpellRule(Literal("ปลดล็อค", true), Static(One("ปลดล็อก"))),
      SpellRule(Regex("แอคเ(?:ค|ค้)า(?:น์|ท์)?", true), Static(One("แอคเคาท์")))
  ]

  /** Words commonly misspelt, from the list on Thai Wikipedia, part 1 (remark-lint-thai.js:112-123). */
  const CommonMisspellings1: seq<Rule> := [
      SpellRule(Regex("กะเพาะ|กะเพราะ|กระเพราะ", true), Static(One("กระเพาะ"))),
      SpellRule(Literal("กิริยา", true), Static(One("กริยา"))),
      SpellRule(Literal("กลิ่นไอ", true), Static(One("กลิ่นอาย"))),
      SpellRule(Literal("กระทันหัน", true), Static(One("กะทันหัน"))),
      SpellRule(Regex("(?:กะเพา|กระเพา|กระเพรา)(?!ะ)", true), Static(One("กะเพรา"))),
      SpellRule(Literal("โขมย", true), Static(One("ขโมย"))),
      SpellRule(Regex("ค[รล]อบ(?:คลุม|คุม|ครุม)", true), Static(One("ครอบคลุม"))),
      SpellRule(Regex("คำ[นณ]ว[นณ]", true), Static(One("คำนวณ"))),
      SpellRule(Literal("คุ้กกี้", true), Static(One("คุกกี้"))),
      SpellRule(Literal("จตุรัส", true), Static(One("จัตุรัส"))),
      SpellRule(Regex("(?<!แจ้งวัฒ|ฐา|มีมา|มุ่งมา|น้ำปา|อาส|ธรรมสว|พาช|หาย|ช|สถา)(นะค่ะ)", true), Static(AnyOf(["นะคะ", "น่ะค่ะ"])))
  ]

  /** Words commonly misspelt, from the list on Thai Wikipedia, part 2 (remark-lint-thai.js:124-129). */
  const CommonMisspellings2: seq<Rule> := [
      SpellRule(Literal("ประเมิณ", true), Static(One("ประเมิน"))),
      SpellRule(Literal("ปรากฎ", true), Static(One("ปรากฏ"))),
      SpellRule(Regex("ป[าะ]?(?:ฏิ|ฎิ)(?:หารย์|หาริย์|หาร)", true), Static(One("ปาฏิหาริย์"))),
      SpellRule(Literal("เปอร์เซนต์", true), Static(One("เปอร์เซ็นต์"))),
      SpellRule(Literal("ผลลัพท์", true), Static(One("ผลลัพธ์"))),
      SpellRule(Literal("ฝรั่งเศษ", true), Static(One("ฝรั่งเศส")))
  ]

  /** Words commonly misspelt, from the list on Thai Wikipedia, part 3 (remark-lint-thai.js:130-134). */
  const CommonMisspellings3: seq<Rule> := [
      SpellRule(Literal("พฤษจิกายน", true), Static(One("พฤศจิกายน"))),
      SpellRule(Literal("พฤศภาคม", true), Static(One("พฤษภาคม"))),
      SpellRule(Regex("ฟัง(?:ก์|ค์)?(?:ชัน|ชั่น)", true), Static(One("ฟังก์ชัน"))),
      SpellRule(Literal("ภาพยนต์", true), Static(One("ภาพยนตร์"))),
      SpellRule(Literal("รนรงค์", true), Static(One("รณรงค์")))
  ]

  /** Words commonly misspelt, from the list on Thai Wikipedia, part 4 (remark-lint-thai.js:135-145). */
  const CommonMisspellings4: seq<Rule> := [
      SpellRule(Regex("รังเ(?:กลี|กี)ย[ดจ]", true), Static(One("รังเกียจ"))),
      SpellRule(Literal("ร้องให้", true), Static(One("ร้องไห้"))),
      SpellRule(Regex("ละเอียดละ?ออ", true), Static(One("ละเอียดลออ"))),
      SpellRule(Literal("ลายเซ็นต์", true), Static(One("ลายเซ็น"))),
      SpellRule(Literal("ลิฟท์", true), Static(One("ลิฟต์"))),
      SpellRule(Regex("(?:วิ|วี)(?:ดิ|ดี)โอ", true), Static(One("วิดีโอ"))),
      SpellRule(Literal("วิจารย์", true), Static(One("วิจารณ์"))),
      SpellRule(Regex("(?:วิ|วี)(?:ดิ|ดี)ทัศน์", true), Static(One("วีดิทัศน์"))),
      SpellRule(Regex("เวท(?:ย์)?มน(?:ตร์|ต์)", true), Static(One("เวทมนตร์"))),
      SpellRule(Literal("ศรีษะ", true), Static(One("ศีรษะ"))),
      SpellRule(Literal("แสกน", true), Static(One("สแกน")))
  ]

  /** Words commonly misspelt, from the list on Thai Wikipedia, part 5 (remark-lint-thai.js:146-155). */
  const CommonMisspellings5: seq<Rule> := [
      SpellRule(Regex("สันนิษ?ฐา[นณ]", true), Static(One("สันนิษฐาน"))),
      SpellRule(Literal("สาปสูญ", true), Static(One("สาบสูญ"))),
      SpellRule(Literal("สังเกตุ", true), Static(One("สังเกต"))),
      SpellRule(Literal("สังเขบ", true), Static(One("สังเขป"))),
      SpellRule(Literal("อนุญาติ", true), Static(One("อนุญาต"))),
      SpellRule(Literal("อนุเสาวรีย์", true), Static(One("อนุสาวรีย์"))),
      SpellRule(Literal("เอนก", true), Static(One("อเนก"))),
      SpellRule(Regex("(?:ออฟ|อ็อฟ|อ๊อฟ)(?:ฟิศ|ฟิส|ฟิต|ฟิซ)", true), Static(One("ออฟฟิศ"))),
      SpellRule(Literal("โอกาศ", true), Static(One("โอกาส"))),
      SpellRule(Literal("ไอศครีม", true), Static(One("ไอศกรีม")))
  ]

  /** Transliterations, from the transliteration project of Thai Wikipedia (remark-lint-thai.js:157-159). */
  const Transliterations: seq<Rule> := [
      SpellRule(Regex("โ[พป]รเจ(?:กต์|ค)", true), Static(One("โปรเจกต์"))),
      SpellRule(Regex("(ซอ(?:ร์)?[ซส])?โค้ด", true), Static(One("ซอร์ซโค้ด")))
  ]

  /** Et cetera (remark-lint-thai.js:161-163). */
  const EtCetera: seq<Rule> := [
      SpellRule(Regex("คอมโพเ(?:น|น้)น(?:ต์|ท์)", true), Static(One("คอมโพเนนต์"))),
      SpellRule(Literal("เทคนิก", true), Static(One("เทคนิค")))
  ]

  /** The table, in order (remark-lint-thai.js:22-164). A rule is identified by its index. */
  const Table: seq<Rule> :=
    Spacing + ToneMarks + BlognoneGuideline + BlognoneMore1 + BlognoneMore2 + BlognoneMore3 + BlognoneMore4 + CommonMisspellings1 + CommonMisspellings2 + CommonMisspellings3 + CommonMisspellings4 + CommonMisspellings5 + Transliterations + EtCetera

  /** Every rule of a section has exactly one pattern, and it is global. */
  predicate SectionReady(rules: seq<Rule>)
  {
    forall i :: 0 <= i < |rules| ==> rules[i].pattern.OnePattern? && rules[i].pattern.pattern.global
  }

  lemma SectionsReady(a: seq<Rule>, b: seq<Rule>)
    requires SectionReady(a) && SectionReady(b)
    ensures SectionReady(a + b)
  {
    forall i | 0 <= i < |a + b|
      ensures (a + b)[i].pattern.OnePattern? && (a + b)[i].pattern.pattern.global
    {
      if i >= |a| { assert (a + b)[i] == b[i - |a|]; }
    }
  }

  /** The spacing, tone-mark and Blognone-guideline sections are ready. */
  lemma GuidelineSectionsReady()
    ensures SectionReady(Spacing) && SectionReady(ToneMarks) && SectionReady(BlognoneGuideline)
  {
  }

  /** The first two sections of further Blognone spellings are ready. */
  lemma BlognoneSectionsReadyA()
    ensures SectionReady(BlognoneMore1) && SectionReady(BlognoneMore2)
  {
  }

  /** The last two sections of further Blognone spellings are ready. */
  lemma BlognoneSectionsReadyB()
    ensures SectionReady(BlognoneMore3) && SectionReady(BlognoneMore4)
  {
  }

  /** The first two sections of common misspellings are ready. */
  lemma MisspellingSectionsReadyA()
    ensures SectionReady(CommonMisspellings1) && SectionReady(CommonMisspellings2)
  {
  }

  /** The last three sections of common misspellings, the transliterations and the rest are ready. */
  lemma MisspellingSectionsReadyB()
    ensures SectionReady(CommonMisspellings3) && SectionReady(CommonMisspellings4) && SectionReady(CommonMisspellings5)
    ensures SectionReady(Transliterations) && SectionReady(EtCetera)
  {
  }

  /** The table has 99 rules, each with exactly one pattern, and it is global. */
  lemma TableSections()
    ensures |Table| == 99 && SectionReady(Table)
  {
    GuidelineSectionsReady();
    BlognoneSectionsReadyA();
    BlognoneSectionsReadyB();
    MisspellingSectionsReadyA();
    MisspellingSectionsReadyB();
    var t := Spacing;
    SectionsReady(t, ToneMarks);
    t := t + ToneMarks;
    SectionsReady(t, BlognoneGuideline);
    t := t + BlognoneGuideline;
    SectionsReady(t, BlognoneMore1);
    t := t + BlognoneMore1;
    SectionsReady(t, BlognoneMore2);
    t := t + BlognoneMore2;
    SectionsReady(t, BlognoneMore3);
    t := t + BlognoneMore3;
    SectionsReady(t, BlognoneMore4);
    t := t + BlognoneMore4;
    SectionsReady(t, CommonMisspellings1);
    t := t + CommonMisspellings1;
    SectionsReady(t, CommonMisspellings2);
    t := t + CommonMisspellings2;
    SectionsReady(t, CommonMisspellings3);
    t := t + CommonMisspellings3;
    SectionsReady(t, CommonMisspellings4);
    t := t + CommonMisspellings4;
    SectionsReady(t, CommonMisspellings5);
    t := t + CommonMisspellings5;
    SectionsReady(t, Transliterations);
    t := t + Transliterations;
    SectionsReady(t, EtCetera);
    t := t + EtCetera;
    assert t == Table;
  }

  /** The table has 99 rules, each with exactly one pattern, and every pattern is global. */
  lemma TableReady()
    ensures |Table| == 99
    ensures SectionReady(Table)
    ensures RulesGlobal(Table)
  {
    TableSections();
    forall i, p | 0 <= i < |Table| && p in Patterns(Table[i].pattern)
      ensures p.global
    {
    }
  }

  /**
   * Spelling rules of the table at work on the words of the test table: the
   * misspelling gets a correction message, the canonical form none; an array
   * of alternatives lists them all.
   */
  lemma TestLinkSpelling()
    ensures Classify.Classify(BlognoneGuideline[0].check.value, Match(0, "ลิงค์", [])) == Some("“ลิงค์” → “ลิงก์”")
    ensures Classify.Classify(BlognoneGuideline[0].check.value, Match(0, "ลิงก์", [])) == None
  {
    assert Quote("ลิงค์") + Arrow + Quote("ลิงก์") == "“ลิงค์” → “ลิงก์”";
  }

  lemma TestInternetSpelling()
    ensures Classify.Classify(BlognoneGuideline[4].check.value, Match(0, "อินเตอร์เน็ท", [])) == Some("“อินเตอร์เน็ท” → “อินเทอร์เน็ต”")
    ensures Classify.Classify(BlognoneGuideline[4].check.value, Match(0, "อินเทอร์เน็ต", [])) == None
  {
    assert Quote("อินเตอร์เน็ท") + Arrow + Quote("อินเทอร์เน็ต") == "“อินเตอร์เน็ท” → “อินเทอร์เน็ต”";
  }

  lemma TestUpdateSpelling()
    ensures Classify.Classify(BlognoneMore1[1].check.value, Match(0, "อัพเดท", [])) == Some("“อัพเดท” → “อัพเดต” / “อัปเดต”")
  {
    assert QuoteAll(["อัปเดต"]) == Quote("อัปเดต");
    assert Quote("อัพเดท") + Arrow + (Quote("อัพเดต") + Or + Quote("อัปเดต")) == "“อัพเดท” → “อัพเดต” / “อัปเดต”";
  }
}
