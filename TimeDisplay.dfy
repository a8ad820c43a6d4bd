// The play time on the main screen, shown as minutes, a colon and two-digit
// seconds ("m:ss"), built from the seconds counter of the statistics.

module TimeDisplay {

  predicate IsDigit(c: char) {
    '0' <= c <= '9'
  }

  predicate AllDigits(s: string) {
    forall i :: 0 <= i < |s| ==> IsDigit(s[i])
  }

  function DigitChar(d: nat): (c: char)
    requires d < 10
    ensures IsDigit(c) && c as int - '0' as int == d
  {
    ('0' as int + d) as char
  }

  /** `toString` of a natural number: its decimal digits, without leading zeros. */
  function ShowNat(n: nat): (s: string)
    ensures |s| >= 1 && AllDigits(s)
    ensures s[0] == '0' ==> n == 0
    ensures n < 10 <==> |s| == 1
    ensures n < 100 ==> |s| <= 2
  {
    if n < 10 then [DigitChar(n)] else ShowNat(n / 10) + [DigitChar(n % 10)]
  }

  /** The number a string of decimal digits denotes. */
  function ReadNat(s: string): (n: nat)
    requires AllDigits(s)
  {
    if s == [] then 0 else 10 * ReadNat(s[..|s| - 1]) + (s[|s| - 1] as int - '0' as int)
  }

  /** Reading back the decimal text of a number gives the number. */
  lemma {:induction false} ReadShowNat(n: nat)
    ensures ReadNat(ShowNat(n)) == n
  {
    if n >= 10 {
      var s := ShowNat(n);
      assert s[..|s| - 1] == ShowNat(n / 10);
      ReadShowNat(n / 10);
    }
  }

  /** A leading zero does not change the number read. */
  lemma {:induction false} ReadNatLeadingZero(s: string)
    requires AllDigits(s)
    ensures AllDigits("0" + s) && ReadNat("0" + s) == ReadNat(s)
  {
    if s != [] {
      assert ("0" + s)[..|s|] == "0" + s[..|s| - 1];
      ReadNatLeadingZero(s[..|s| - 1]);
    }
  }

  /** `padStart(2, "0")`: zeros in front of a string shorter than two characters. */
  function PadStart2(s: string): (r: string)
    ensures |r| == if |s| < 2 then 2 else |s|
    ensures |s| >= 2 ==> r == s
    ensures AllDigits(s) ==> AllDigits(r) && ReadNat(r) == ReadNat(s)
  {
    if |s| == 0 then "00"
    else if |s| == 1 then
      if AllDigits(s) then ReadNatLeadingZero(s); "0" + s else "0" + s
    else s
  }

  /** The clock text for a number of seconds. */
  function ClockText(seconds: nat): (text: string)
    ensures |text| >= 4 && text[|text| - 3] == ':'
    ensures text[..|text| - 3] == ShowNat(seconds / 60)
    ensures text[|text| - 2..] == PadStart2(ShowNat(seconds % 60))
  {
    var minutes, padded := ShowNat(seconds / 60), PadStart2(ShowNat(seconds % 60));
    assert |padded| == 2;
    var text := minutes + ":" + padded;
    assert text[..|text| - 3] == minutes;
    assert text[|text| - 2..] == padded;
    text
  }

  /** The seconds part of the clock: exactly two digits that read back as the seconds. */
  lemma PaddedSeconds(n: nat)
    requires n < 60
    ensures |PadStart2(ShowNat(n))| == 2
    ensures AllDigits(PadStart2(ShowNat(n))) && ReadNat(PadStart2(ShowNat(n))) == n
  {
    ReadShowNat(n);
  }

  /** The minutes part of the clock: the decimal text of the whole minutes. */
  lemma MinutesPart(seconds: nat)
    ensures var text := ClockText(seconds);
      && AllDigits(text[..|text| - 3])
      && ReadNat(text[..|text| - 3]) == seconds / 60
      && (text[0] == '0' ==> seconds / 60 == 0)
  {
    var text := ClockText(seconds);
    var minutes := text[..|text| - 3];
    ReadShowNat(seconds / 60);
    assert text[0] == minutes[0];
  }

  /** The clock text is minutes without a leading zero, a colon and exactly two
      digits of seconds, and reading both parts back recovers the number of seconds. */
  lemma ClockTextReadsBack(seconds: nat)
    ensures var text := ClockText(seconds);
      && |text| >= 4
      && text[|text| - 3] == ':'
      && AllDigits(text[..|text| - 3]) && AllDigits(text[|text| - 2..])
      && ReadNat(text[|text| - 2..]) < 60
      && 60 * ReadNat(text[..|text| - 3]) + ReadNat(text[|text| - 2..]) == seconds
      && (text[0] == '0' ==> seconds < 60)
  {
    var m, r := seconds / 60, seconds % 60;
    assert seconds == 60 * m + r && r < 60;
    MinutesPart(seconds);
    PaddedSeconds(r);
    var text := ClockText(seconds);
    assert ReadNat(text[..|text| - 3]) == m && ReadNat(text[|text| - 2..]) == r;
  }
}
