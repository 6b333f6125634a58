/** Reading a tagged number out of a log line, and the inversion of decimal printing. */
module TagParse {
  import opened Messages

  const I32_MIN: int := -0x8000_0000
  const I32_MAX: int := 0x7fff_ffff

  predicate IsI32(n: int) {
    I32_MIN <= n <= I32_MAX
  }

  predicate IsDigit(c: char) {
    '0' <= c <= '9'
  }

  predicate IsNumeral(c: char) {
    IsDigit(c) || c == '-'
  }

  predicate OccursAt(text: string, tag: string, i: nat) {
    i + |tag| <= |text| && text[i..i + |tag|] == tag
  }

  /** `str::find`: the first occurrence at or after `from`. */
  function Find(text: string, tag: string, from: nat): (r: Option<nat>)
    requires from <= |text|
    ensures r.Some? ==> from <= r.value && OccursAt(text, tag, r.value)
    ensures r.Some? ==> forall i :: from <= i < r.value ==> !OccursAt(text, tag, i)
    ensures r.None? ==> forall i :: from <= i ==> !OccursAt(text, tag, i)
    decreases |text| - from
  {
    if OccursAt(text, tag, from) then Some(from)
    else if from == |text| then None
    else Find(text, tag, from + 1)
  }

  /** The second piece of splitting `text` by a non-empty `tag`: between its first two occurrences. */
  function SecondPiece(text: string, tag: string): Option<string>
    requires tag != ""
  {
    var first := Find(text, tag, 0);
    if first.None? then None
    else
      var start := first.value + |tag|;
      var second := Find(text, tag, start);
      Some(text[start..if second.Some? then second.value else |text|])
  }

  function TakeNumerals(text: string): (r: string)
    ensures r <= text
    ensures forall c :: c in r ==> IsNumeral(c)
    ensures |r| < |text| ==> !IsNumeral(text[|r|])
  {
    if text == "" || !IsNumeral(text[0]) then "" else [text[0]] + TakeNumerals(text[1..])
  }

  /** The value of a digit string, or none if another character occurs. */
  function DigitsValue(digits: string): Option<nat> {
    if digits == "" then Some(0)
    else
      var last := |digits| - 1;
      var front := DigitsValue(digits[..last]);
      if front.None? || !IsDigit(digits[last]) then None
      else Some(front.value * 10 + (digits[last] as nat - '0' as nat))
  }

  function Signed(negative: bool, magnitude: nat): int {
    if negative then -(magnitude as int) else magnitude as int
  }

  /** Parsing a run of numerals as an `i32`: an optional minus, at least one digit, and the range respected. */
  function ParseI32(text: string): (r: Option<int>)
    ensures r.Some? ==> IsI32(r.value)
  {
    var negative := text != "" && text[0] == '-';
    var digits := if negative then text[1..] else text;
    var magnitude := DigitsValue(digits);
    if digits == "" || magnitude.None? then None
    else
      var n := Signed(negative, magnitude.value);
      if IsI32(n) then Some(n) else None
  }

  function TaggedI32(text: string, tag: string): Option<int>
    requires tag != ""
  {
    var rest := SecondPiece(text, tag);
    if rest.None? then None else ParseI32(TakeNumerals(rest.value))
  }

  // Printing

  function DigitChar(d: nat): (c: char)
    requires d < 10
    ensures IsDigit(c) && c as nat - '0' as nat == d
  {
    '0' + d as char
  }

  function PrintNat(n: nat): (r: string)
    ensures r != "" && forall c :: c in r ==> IsDigit(c)
  {
    if n < 10 then [DigitChar(n)] else PrintNat(n / 10) + [DigitChar(n % 10)]
  }

  function Decimal(n: int): (r: string)
    ensures r != "" && forall c :: c in r ==> IsNumeral(c)
  {
    if n < 0 then "-" + PrintNat(-n) else PrintNat(n)
  }

  lemma {:induction false} PrintedNatParses(n: nat)
    ensures DigitsValue(PrintNat(n)) == Some(n)
  {
    var s := PrintNat(n);
    if n < 10 {
      assert s[..0] == "";
    } else {
      PrintedNatParses(n / 10);
      assert s[..|s| - 1] == PrintNat(n / 10);
    }
  }

  lemma NegativeParses(digits: string, magnitude: nat)
    requires digits != "" && DigitsValue(digits) == Some(magnitude)
    ensures ParseI32("-" + digits) == if magnitude <= 2147483648 then Some(-(magnitude as int)) else None
  {
    assert ("-" + digits)[1..] == digits;
  }

  lemma PositiveParses(digits: string, magnitude: nat)
    requires digits != "" && digits[0] != '-' && DigitsValue(digits) == Some(magnitude)
    ensures ParseI32(digits) == if magnitude <= 2147483647 then Some(magnitude as int) else None
  {
  }

  /** Printing then parsing is the identity on the 32-bit range, and is refused outside it. */
  lemma DecimalParses(n: int)
    ensures ParseI32(Decimal(n)) == if -2147483648 <= n <= 2147483647 then Some(n) else None
  {
    if n < 0 {
      PrintedNatParses(-n);
      NegativeParses(PrintNat(-n), -n);
    } else {
      PrintedNatParses(n);
      assert PrintNat(n)[0] in PrintNat(n);
      PositiveParses(PrintNat(n), n);
    }
  }

  /** The tag is followed by no numeral of its own, and overlaps neither itself nor a number. */
  predicate GoodTag(tag: string) {
    tag != "" && !IsNumeral(tag[0]) && forall i :: 0 < i < |tag| ==> tag[i] != tag[0]
  }

  lemma {:induction false} TakeNumeralsStops(numerals: string, suffix: string)
    requires forall c :: c in numerals ==> IsNumeral(c)
    requires suffix == "" || !IsNumeral(suffix[0])
    ensures TakeNumerals(numerals + suffix) == numerals
  {
    if numerals == "" {
      assert numerals + suffix == suffix;
    } else {
      assert numerals[0] in numerals && (numerals + suffix)[1..] == numerals[1..] + suffix;
      TakeNumeralsStops(numerals[1..], suffix);
    }
  }

  /** In a prefix free of the tag followed by the tag, the tag first occurs right after the prefix. */
  lemma FirstOccurrence(prefix: string, tag: string, rest: string)
    requires GoodTag(tag) && forall i :: !OccursAt(prefix, tag, i)
    ensures Find(prefix + tag + rest, tag, 0) == Some(|prefix|)
  {
    var text := prefix + tag + rest;
    assert OccursAt(text, tag, |prefix|);
    forall i | 0 <= i < |prefix|
      ensures !OccursAt(text, tag, i)
    {
      if i + |tag| <= |prefix| {
        assert text[i..i + |tag|] == prefix[i..i + |tag|] && !OccursAt(prefix, tag, i);
      } else if i + |tag| <= |text| {
        assert text[i..i + |tag|][|prefix| - i] == tag[0] != tag[|prefix| - i];
      }
    }
  }

  /** A later occurrence of the tag cannot cut into the number that follows the first one. */
  lemma CutKeepsNumber(numerals: string, suffix: string, tag: string, end: nat)
    requires GoodTag(tag) && (forall c :: c in numerals ==> IsNumeral(c))
    requires suffix == "" || !IsNumeral(suffix[0])
    requires end <= |numerals + suffix| && (end < |numerals + suffix| ==> OccursAt(numerals + suffix, tag, end))
    ensures TakeNumerals((numerals + suffix)[..end]) == numerals
  {
    var text := numerals + suffix;
    forall i | 0 <= i < |numerals| && i + |tag| <= |text|
      ensures !OccursAt(text, tag, i)
    {
      assert text[i..i + |tag|][0] == numerals[i] && numerals[i] in numerals;
    }
    var cut := suffix[..end - |numerals|];
    assert text[..end] == numerals + cut;
    TakeNumeralsStops(numerals, cut);
  }

  lemma OccursBehind(a: string, b: string, tag: string, i: nat)
    ensures OccursAt(a + b, tag, |a| + i) <==> OccursAt(b, tag, i)
  {
    if i + |tag| <= |b| {
      assert (a + b)[|a| + i..|a| + i + |tag|] == b[i..i + |tag|];
    }
  }

  lemma SecondPieceIs(text: string, tag: string, start: nat)
    requires tag != "" && start >= |tag| && Find(text, tag, 0) == Some(start - |tag|)
    ensures start <= |text|
    ensures SecondPiece(text, tag)
         == Some(text[start..if Find(text, tag, start).Some? then Find(text, tag, start).value else |text|])
  {
  }

  /** `rest` starts where the first occurrence ends: the second piece is `rest` up to the next occurrence. */
  lemma PieceOfRest(front: string, rest: string, tag: string) returns (end: nat)
    requires tag != "" && |front| >= |tag| && Find(front + rest, tag, 0) == Some(|front| - |tag|)
    ensures end <= |rest| && (end < |rest| ==> OccursAt(rest, tag, end))
    ensures SecondPiece(front + rest, tag) == Some(rest[..end])
  {
    SecondPieceIs(front + rest, tag, |front|);
    var second := Find(front + rest, tag, |front|);
    end := if second.Some? then second.value - |front| else |rest|;
    OccursBehind(front, rest, tag, end);
    assert (front + rest)[|front|..|front| + end] == rest[..end];
  }

  /** What follows the first tag, up to the next one if there is a next one. */
  lemma PieceAfterTag(prefix: string, tag: string, rest: string) returns (end: nat)
    requires GoodTag(tag) && forall i :: !OccursAt(prefix, tag, i)
    ensures end <= |rest| && (end < |rest| ==> OccursAt(rest, tag, end))
    ensures SecondPiece(prefix + tag + rest, tag) == Some(rest[..end])
  {
    FirstOccurrence(prefix, tag, rest);
    end := PieceOfRest(prefix + tag, rest, tag);
  }

  /**
   Any number written after a tag that the preceding text does not contain is read back, whatever follows it,
   as long as no numeral follows directly; numbers outside the 32-bit range read as none.
   */
  lemma TaggedRoundTrip(prefix: string, tag: string, n: int, suffix: string)
    requires GoodTag(tag) && forall i :: !OccursAt(prefix, tag, i)
    requires suffix == "" || !IsNumeral(suffix[0])
    ensures TaggedI32(prefix + tag + (Decimal(n) + suffix), tag)
         == if -2147483648 <= n <= 2147483647 then Some(n) else None
  {
    var end := PieceAfterTag(prefix, tag, Decimal(n) + suffix);
    CutKeepsNumber(Decimal(n), suffix, tag, end);
    DecimalParses(n);
  }

  /** Any run of digits and minus signs after the tag is read as a whole. */
  lemma TaggedRunIsParsed(prefix: string, tag: string, numerals: string, suffix: string)
    requires GoodTag(tag) && (forall i :: !OccursAt(prefix, tag, i)) && forall c :: c in numerals ==> IsNumeral(c)
    requires suffix == "" || !IsNumeral(suffix[0])
    ensures TaggedI32(prefix + tag + (numerals + suffix), tag) == ParseI32(numerals)
  {
    var end := PieceAfterTag(prefix, tag, numerals + suffix);
    CutKeepsNumber(numerals, suffix, tag, end);
  }

  /** Nothing is read from a text without the tag. */
  lemma NoTagReadsNone(text: string, tag: string)
    requires tag != "" && forall i :: !OccursAt(text, tag, i)
    ensures TaggedI32(text, tag) == None
  {
  }

  /** Nothing is read when no number follows the tag. */
  lemma NoNumberReadsNone(prefix: string, tag: string, rest: string)
    requires GoodTag(tag) && (forall i :: !OccursAt(prefix, tag, i)) && (rest == "" || !IsNumeral(rest[0]))
    ensures TaggedI32(prefix + tag + rest, tag) == None
  {
    TaggedRunIsParsed(prefix, tag, "", rest);
    assert "" + rest == rest;
  }

  lemma {:induction false} DigitsAreNumbers(digits: string)
    ensures DigitsValue(digits).Some? <==> forall i :: 0 <= i < |digits| ==> '0' <= digits[i] <= '9'
  {
    if digits == "" {
    } else {
      var last := |digits| - 1;
      DigitsAreNumbers(digits[..last]);
      assert (forall i :: 0 <= i < |digits| ==> '0' <= digits[i] <= '9') <==>
             (forall i :: 0 <= i < last ==> '0' <= digits[..last][i] <= '9') && '0' <= digits[last] <= '9';
    }
  }

  lemma {:induction false} ZerosDoNotCount(digits: string)
    ensures DigitsValue("0" + digits) == DigitsValue(digits)
  {
    if digits == "" {
      assert ("0" + digits)[..0] == "" && |"0" + digits| == 1;
    } else {
      var last := |digits| - 1;
      assert ("0" + digits)[..|digits|] == "0" + digits[..last];
      ZerosDoNotCount(digits[..last]);
    }
  }

  /** Signs elsewhere than in front, and a sign alone, make no number; leading zeros change none. */
  lemma NumbersOnly(digits: string)
    ensures ParseI32("") == None && ParseI32("-") == None
    ensures (exists i :: 0 <= i < |digits| && digits[i] == '-') ==> ParseI32("-" + digits) == None
    ensures digits != "" && digits[0] != '-' ==> ParseI32("0" + digits) == ParseI32(digits)
    ensures digits != "" ==> ParseI32("-0" + digits) == ParseI32("-" + digits)
  {
    assert ("-" + digits)[1..] == digits && ("-0" + digits)[1..] == "0" + digits && "-"[1..] == "";
    DigitsAreNumbers(digits);
    ZerosDoNotCount(digits);
  }

  const PAGE_TAG := "page="

  lemma PageTagIsGood()
    ensures GoodTag(PAGE_TAG)
  {
  }
}
