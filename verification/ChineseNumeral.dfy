/** The Chinese numeral reader of app/extractors/trip_request_extractor.py. */
module ChineseNumeral {
  import opened Prelude

  function DigitOf(c: char): Option<int> {
    match c
    case '零' => Some(0)
    case '〇' => Some(0)
    case '一' => Some(1)
    case '二' => Some(2)
    case '两' => Some(2)
    case '三' => Some(3)
    case '四' => Some(4)
    case '五' => Some(5)
    case '六' => Some(6)
    case '七' => Some(7)
    case '八' => Some(8)
    case '九' => Some(9)
    case _ => None
  }

  function UnitOf(c: char): Option<int> {
    match c
    case '十' => Some(10)
    case '百' => Some(100)
    case '千' => Some(1000)
    case '万' => Some(10000)
    case _ => None
  }

  predicate IsNumeralChar(c: char) {
    DigitOf(c).Some? || UnitOf(c).Some?
  }

  /** The loop variables `total`, `section` and `number`. */
  datatype Reading = Reading(total: int, section: int, number: int) {
    function Value(): int {
      total + section + number
    }
  }

  const START := Reading(0, 0, 0)

  function Read(r: Reading, c: char): Option<Reading> {
    match DigitOf(c)
    case Some(d) => Some(r.(number := d))
    case None =>
      match UnitOf(c)
      case None => None
      case Some(u) =>
        if u == 10000 then Some(Reading(r.total + 10000 * (r.section + r.number), 0, 0))
        else Some(Reading(r.total, r.section + (if r.number == 0 then 1 else r.number) * u, 0))
  }

  /** Reading `s` on from `r`; `None` when a character is not part of a numeral. */
  function ReadAll(r: Reading, s: string): Option<Reading>
    decreases |s|
  {
    if s == "" then Some(r)
    else
      match Read(r, s[0])
      case None => None
      case Some(r') => ReadAll(r', s[1..])
  }

  function Parse(text: string): Option<int> {
    if text == "" then None
    else
      match ReadAll(START, text)
      case None => None
      case Some(r) => Some(r.Value())
  }

  method ChineseToInt(text: string) returns (value: Option<int>)
    ensures value == Parse(text)
  {
    if text == "" {
      return None;
    }
    var total, section, number := 0, 0, 0;
    var seen := false;
    for i := 0 to |text|
      invariant ReadAll(Reading(total, section, number), text[i..]) == ReadAll(START, text)
      invariant seen <==> i > 0
    {
      assert text[i..][1..] == text[i + 1..];
      var digit, unit := DigitOf(text[i]), UnitOf(text[i]);
      if digit.Some? {
        number := digit.value;
        seen := true;
      } else if unit.Some? {
        seen := true;
        if unit.value == 10000 {
          section := (section + number) * unit.value;
          total := total + section;
          section := 0;
          number := 0;
        } else {
          if number == 0 {
            number := 1;
          }
          section := section + number * unit.value;
          number := 0;
        }
      } else {
        return None;
      }
    }
    if !seen {
      return None;
    }
    value := Some(total + section + number);
  }

  // ------------------------------------------------------ when there is a value

  lemma {:induction false} ReadAllFailsIff(r: Reading, s: string)
    ensures ReadAll(r, s).None? <==> exists i :: 0 <= i < |s| && !IsNumeralChar(s[i])
    decreases |s|
  {
    if s == "" {
    } else {
      var next := Read(r, s[0]);
      if next.Some? {
        ReadAllFailsIff(next.value, s[1..]);
        assert forall i | 0 <= i < |s| - 1 :: s[1..][i] == s[i + 1];
        assert IsNumeralChar(s[0]);
      } else {
        assert !IsNumeralChar(s[0]);
      }
    }
  }

  /** No value exactly for the empty text and for a text with a foreign character. */
  lemma ParseNoneIff(text: string)
    ensures Parse(text).None? <==> text == "" || exists i :: 0 <= i < |text| && !IsNumeralChar(text[i])
  {
    ReadAllFailsIff(START, text);
  }

  // ------------------------------------------------------------ the value of 万

  lemma {:induction false} ReadAllConcat(r: Reading, s: string, t: string)
    ensures ReadAll(r, s + t) ==
            match ReadAll(r, s) case None => None case Some(m) => ReadAll(m, t)
    decreases |s|
  {
    if s == "" {
      assert s + t == t;
    } else {
      assert (s + t)[1..] == s[1..] + t;
      if Read(r, s[0]).Some? {
        ReadAllConcat(Read(r, s[0]).value, s[1..], t);
      }
    }
  }

  /** What was summed up before a section starts is carried through unchanged. */
  lemma {:induction false} TotalIsCarried(r: Reading, k: int, s: string)
    requires ReadAll(r, s).Some?
    ensures ReadAll(r.(total := r.total + k), s) ==
            Some(ReadAll(r, s).value.(total := ReadAll(r, s).value.total + k))
    decreases |s|
  {
    if s == "" {
    } else {
      TotalIsCarried(Read(r, s[0]).value, k, s[1..]);
    }
  }

  /** 万 multiplies the section in front of it, and only that section. */
  lemma {:induction false} WanLaw(s: string, t: string)
    requires ReadAll(START, s).Some? && ReadAll(START, t).Some?
    ensures var r := ReadAll(START, s).value;
            && Parse(s + "万" + t).Some?
            && Parse(s + "万" + t).value
               == r.total + 10000 * (r.section + r.number) + ReadAll(START, t).value.Value()
  {
    var m, n := ReadAll(START, s).value, ReadAll(START, t).value;
    var k := m.total + 10000 * (m.section + m.number);
    ReadWan(m, k);
    WanBetween(s, "万", t, m, k, n);
  }

  /** After 万 reading goes on with everything so far in the total. */
  lemma WanBetween(s: string, u: string, t: string, m: Reading, k: int, n: Reading)
    requires |u| == 1 && ReadAll(START, s) == Some(m) && ReadAll(m, u) == Some(Reading(k, 0, 0))
             && ReadAll(START, t) == Some(n)
    ensures Parse(s + u + t).Some? && Parse(s + u + t).value == k + n.Value()
  {
    ReadAllConcat(START, s, u);
    ReadAllConcat(START, s + u, t);
    TotalIsCarried(START, k, t);
    ParseIs(s + u + t, Reading(k, 0, 0), t, n.(total := n.total + k));
  }

  lemma ParseIs(text: string, r: Reading, t: string, n: Reading)
    requires text != "" && ReadAll(START, text) == ReadAll(r, t) == Some(n)
    ensures Parse(text).Some? && Parse(text).value == n.Value()
  {
  }

  lemma ReadWan(r: Reading, k: int)
    requires k == r.total + 10000 * (r.section + r.number)
    ensures ReadAll(r, "万") == Some(Reading(k, 0, 0))
  {
    assert "万"[1..] == "";
  }

  // --------------------------------------------------- a canonical writer to invert

  /** A choice of glyphs for the digits 0 to 9, such as 二 or 两 for 2. */
  ghost predicate IsGlyphs(glyph: int -> char) {
    forall d :: 0 <= d <= 9 ==> DigitOf(glyph(d)) == Some(d)
  }

  const DIGITS := "零一二三四五六七八九"

  /** The glyphs are the ten digits, with 〇 and 两 as the only variants. */
  lemma GlyphsAre(glyph: int -> char)
    ensures IsGlyphs(glyph) <==>
              && glyph(0) in "零〇" && glyph(2) in "二两"
              && forall d | 1 <= d <= 9 && d != 2 :: glyph(d) == DIGITS[d]
  {
    if IsGlyphs(glyph) {
      forall d | 0 <= d <= 9
        ensures DigitOf(glyph(d)) == Some(d)
      {
      }
    }
  }

  lemma OneCharacter(c: char)
    ensures Parse([c]) == if Read(START, c).Some? then Some(Read(START, c).value.Value()) else None
  {
    var next := Read(START, c);
    assert [c][1..] == "";
    if next.Some? {
      assert ReadAll(next.value, "") == next;
      assert ReadAll(START, [c]) == next;
    } else {
      assert ReadAll(START, [c]).None?;
    }
  }

  lemma UnitAlone(c: char, u: int)
    requires DigitOf(c).None? && UnitOf(c) == Some(u)
    ensures Parse([c]) == Some(if u == 10000 then 0 else u)
  {
    OneCharacter(c);
  }

  lemma DigitAlone(c: char, d: int)
    requires DigitOf(c) == Some(d)
    ensures Parse([c]) == Some(d)
  {
    OneCharacter(c);
  }

  /** A single unit is worth itself, but 万 has no section to multiply; and there are no other characters. */
  lemma SingleUnits()
    ensures Parse(['十']) == Some(10) && Parse(['百']) == Some(100) && Parse(['千']) == Some(1000)
    ensures Parse(['万']) == Some(0)
  {
    UnitAlone('十', 10);
    UnitAlone('百', 100);
    UnitAlone('千', 1000);
    UnitAlone('万', 10000);
  }

  lemma NoOtherCharacters(c: char)
    ensures Parse([c]).Some? <==> c in DIGITS || c in "〇两十百千万"
    ensures c == '〇' ==> Parse([c]) == Some(0)
    ensures c == '两' ==> Parse([c]) == Some(2)
  {
    OneCharacter(c);
    DigitsAre(c);
  }

  lemma DigitsAre(c: char)
    ensures DigitOf(c).Some? <==> c in DIGITS || c in "〇两"
    ensures UnitOf(c).Some? <==> c in "十百千万"
  {
    if DigitOf(c).Some? && c !in "〇两" {
      assert c == DIGITS[DigitOf(c).value];
    }
    assert c == '十' ==> c == "十百千万"[0];
    assert c == '百' ==> c == "十百千万"[1];
    assert c == '千' ==> c == "十百千万"[2];
    assert c == '万' ==> c == "十百千万"[3];
    assert c == '〇' ==> c == "〇两"[0];
    assert c == '两' ==> c == "〇两"[1];
  }

  lemma SingleDigits(d: int)
    requires 0 <= d <= 9
    ensures Parse([DIGITS[d]]) == Some(d)
  {
    DigitAlone(DIGITS[d], d);
  }

  /** Of several digits in a row the last one counts. */
  lemma LastDigitCounts(s: string, d: int, e: int)
    requires 0 <= d <= 9 && 0 <= e <= 9
    ensures Parse(s + [DIGITS[d]] + [DIGITS[e]]) == Parse(s + [DIGITS[e]])
  {
    ReadAllConcat(START, s + [DIGITS[d]], [DIGITS[e]]);
    ReadAllConcat(START, s, [DIGITS[d]]);
    ReadAllConcat(START, s, [DIGITS[e]]);
    assert [DIGITS[d]][1..] == "" && [DIGITS[e]][1..] == "";
  }

  function DigitUnit(d: int, unit: char, glyph: int -> char): string {
    [glyph(d), unit]
  }

  /** 1 to 9999 from its decimal digits; one 零 stands for each inner run of zeros. */
  function WriteDigits(d3: int, d2: int, d1: int, d0: int, glyph: int -> char): string {
    (if d3 > 0 then DigitUnit(d3, '千', glyph) else "")
    + (if d2 > 0 then DigitUnit(d2, '百', glyph)
       else if d3 > 0 && (d1 > 0 || d0 > 0) then [glyph(0)] else "")
    + (if d1 > 0 then DigitUnit(d1, '十', glyph)
       else if d2 > 0 && d0 > 0 then [glyph(0)] else "")
    + (if d0 > 0 then [glyph(d0)] else "")
  }

  function WriteSection(n: int, glyph: int -> char): string
    requires 0 <= n < 10000
  {
    WriteDigits(n / 1000, n / 100 % 10, n / 10 % 10, n % 10, glyph)
  }

  /** `bare` drops the leading 一 of 一十, as in 十五 and 十二万. */
  function WriteLeading(n: int, bare: bool, glyph: int -> char): string
    requires 0 <= n < 10000
  {
    if bare && 10 <= n < 20 then ['十'] + (if n > 10 then [glyph(n - 10)] else "")
    else WriteSection(n, glyph)
  }

  function Write(n: int, bare: bool, glyph: int -> char): string
    requires 0 < n < 100000000
  {
    var hi, lo := n / 10000, n % 10000;
    if hi == 0 then WriteLeading(lo, bare, glyph)
    else
      WriteLeading(hi, bare, glyph) + "万"
      + ((if 0 < lo < 1000 then [glyph(0)] else "") + WriteSection(lo, glyph))
  }

  lemma ReadDigitUnit(s: int, d: int, unit: char, glyph: int -> char)
    requires IsGlyphs(glyph) && 0 < d <= 9 && UnitOf(unit).Some? && unit != '万'
    ensures ReadAll(Reading(0, s, 0), DigitUnit(d, unit, glyph)) == Some(Reading(0, s + d * UnitOf(unit).value, 0))
  {
    var text := DigitUnit(d, unit, glyph);
    assert DigitOf(glyph(d)) == Some(d);
    assert Read(Reading(0, s, 0), text[0]) == Some(Reading(0, s, d));
    assert text[1..] == [unit] && [unit][1..] == "";
    var after := Reading(0, s + d * UnitOf(unit).value, 0);
    assert DigitOf(unit) == None;
    assert Read(Reading(0, s, d), unit) == Some(after);
    assert ReadAll(after, "") == Some(after);
    assert ReadAll(Reading(0, s, d), [unit]) == Some(after);
  }

  lemma ReadGlyph(r: Reading, d: int, glyph: int -> char)
    requires IsGlyphs(glyph) && 0 <= d <= 9
    ensures ReadAll(r, [glyph(d)]) == Some(r.(number := d))
  {
    assert [glyph(d)][1..] == "";
  }

  lemma ReadDigits(d3: int, d2: int, d1: int, d0: int, glyph: int -> char)
    requires IsGlyphs(glyph) && 0 <= d3 <= 9 && 0 <= d2 <= 9 && 0 <= d1 <= 9 && 0 <= d0 <= 9
    ensures ReadAll(START, WriteDigits(d3, d2, d1, d0, glyph))
            == Some(Reading(0, d3 * 1000 + d2 * 100 + d1 * 10, d0))
  {
    var p3 := if d3 > 0 then DigitUnit(d3, '千', glyph) else "";
    var p2 := if d2 > 0 then DigitUnit(d2, '百', glyph)
              else if d3 > 0 && (d1 > 0 || d0 > 0) then [glyph(0)] else "";
    var p1 := if d1 > 0 then DigitUnit(d1, '十', glyph)
              else if d2 > 0 && d0 > 0 then [glyph(0)] else "";
    var p0 := if d0 > 0 then [glyph(d0)] else "";
    assert WriteDigits(d3, d2, d1, d0, glyph) == p3 + p2 + p1 + p0;
    assert "" + p3 == p3;
    ReadPlace("", 0, d3, '千', p3, glyph);
    ReadPlace(p3, d3 * 1000, d2, '百', p2, glyph);
    ReadPlace(p3 + p2, d3 * 1000 + d2 * 100, d1, '十', p1, glyph);
    ReadAllConcat(START, p3 + p2 + p1, p0);
    if d0 > 0 { ReadGlyph(Reading(0, d3 * 1000 + d2 * 100 + d1 * 10, 0), d0, glyph); }
  }

  lemma ReadSection(n: int, glyph: int -> char)
    requires IsGlyphs(glyph) && 0 <= n < 10000
    ensures var r := ReadAll(START, WriteSection(n, glyph));
            r.Some? && r.value.total == 0 && r.value.Value() == n
  {
    ReadDigits(n / 1000, n / 100 % 10, n / 10 % 10, n % 10, glyph);
    DecimalDigits(n);
  }

  lemma DecimalDigits(n: int)
    requires 0 <= n < 10000
    ensures n / 1000 * 1000 + n / 100 % 10 * 100 + n / 10 % 10 * 10 + n % 10 == n
  {
    Tens(n);
    Hundreds(n);
  }

  lemma Tens(n: int)
    ensures n / 10 == n / 100 * 10 + n / 10 % 10
  {
    assert n / 10 / 10 == n / 100;
  }

  lemma Hundreds(n: int)
    ensures n / 100 == n / 1000 * 10 + n / 100 % 10
  {
    assert n / 100 / 10 == n / 1000;
  }

  /** One decimal place: digit and unit, nothing, or a filler 零 that changes nothing. */
  lemma ReadPlace(before: string, s: int, d: int, unit: char, p: string, glyph: int -> char)
    requires IsGlyphs(glyph) && 0 <= d <= 9 && UnitOf(unit).Some? && unit != '万'
    requires ReadAll(START, before) == Some(Reading(0, s, 0))
    requires if d > 0 then p == DigitUnit(d, unit, glyph) else p == "" || p == [glyph(0)]
    ensures ReadAll(START, before + p) == Some(Reading(0, s + d * UnitOf(unit).value, 0))
  {
    ReadAllConcat(START, before, p);
    if d > 0 {
      ReadDigitUnit(s, d, unit, glyph);
    } else if p != "" {
      ReadGlyph(Reading(0, s, 0), 0, glyph);
    }
  }

  lemma ReadLeading(n: int, bare: bool, glyph: int -> char)
    requires IsGlyphs(glyph) && 0 <= n < 10000
    ensures var r := ReadAll(START, WriteLeading(n, bare, glyph));
            r.Some? && r.value.total == 0 && r.value.Value() == n
  {
    if bare && 10 <= n < 20 {
      var tail := if n > 10 then [glyph(n - 10)] else "";
      assert "十"[1..] == "";
      assert ReadAll(START, "十") == Some(Reading(0, 10, 0));
      ReadAllConcat(START, "十", tail);
      if n > 10 { ReadGlyph(Reading(0, 10, 0), n - 10, glyph); }
    } else {
      ReadSection(n, glyph);
    }
  }

  /** Reading inverts writing for every number below 10^8. */
  lemma RoundTrip(n: int, bare: bool, glyph: int -> char)
    requires IsGlyphs(glyph) && 0 < n < 100000000
    ensures Parse(Write(n, bare, glyph)) == Some(n)
  {
    var hi, lo := n / 10000, n % 10000;
    if hi == 0 {
      ReadLeading(lo, bare, glyph);
    } else {
      var filler := if 0 < lo < 1000 then [glyph(0)] else "";
      ReadLeading(hi, bare, glyph);
      ReadAllConcat(START, filler, WriteSection(lo, glyph));
      if filler != "" { ReadGlyph(START, 0, glyph); }
      ReadSection(lo, glyph);
      WanLaw(WriteLeading(hi, bare, glyph), filler + WriteSection(lo, glyph));
    }
  }

  /** Where the reader and the language part: a 万 right behind a 万 finds an empty section and is lost. */
  lemma RepeatedWanIsLost(s: string)
    ensures Parse(s + "万" + "万") == Parse(s + "万")
  {
    ReadAllConcat(START, s + "万", "万");
    ReadAllConcat(START, s, "万");
    assert "万"[1..] == "";
    if ReadAll(START, s).Some? {
      var r := ReadAll(START, s).value;
      assert ReadAll(r, "万") == Some(Reading(r.total + (r.section + r.number) * 10000, 0, 0));
    }
  }
}
