/** The recording timer's label: elapsed seconds shown as minutes and two-digit seconds. */
module TimeFormat {
  import opened Text

  /** `formatTime(seconds)`: unpadded minutes, a colon, then the seconds within the minute padded to two digits. */
  function FormatTime(seconds: nat): (r: string)
    ensures |r| >= 4 && r[|r| - 3] == ':'
    ensures r[0] == '0' ==> seconds < 60
  {
    NatToString(seconds / 60) + ":" + PadStart(NatToString(seconds % 60), 2, '0')
  }

  /** The seconds within the minute, padded: exactly the tens digit and the units digit of `k`. */
  lemma {:induction false} PaddedSeconds(k: nat)
    requires k < 60
    ensures PadStart(NatToString(k), 2, '0') == [Digit(k / 10), Digit(k % 10)]
  {
    if k >= 10 {
      assert NatToString(k) == NatToString(k / 10) + [Digit(k % 10)];
    }
  }

  /** A two-digit string is worth ten times its first digit plus its second. */
  lemma TwoDigits(a: nat, b: nat)
    requires a < 10 && b < 10
    ensures AllDigits([Digit(a), Digit(b)]) && ParseDecimal([Digit(a), Digit(b)]) == 10 * a + b
  {
    var s := [Digit(a), Digit(b)];
    assert s[..1] == [Digit(a)];
    assert s[..1][..0] == [];
    assert ParseDecimal([Digit(a)]) == a;
  }

  /**
   * The seconds field is the last two characters: the tens and the units
   * digit of `seconds % 60` (so worth less than 60). A colon precedes it.
   * Everything before the colon is the minute count, written without
   * padding.
   */
  lemma FormatTimeFields(seconds: nat)
    ensures var r := FormatTime(seconds);
      |r| >= 4 && r[|r| - 3] == ':' && r[..|r| - 3] == NatToString(seconds / 60)
    ensures var r := FormatTime(seconds);
      AllDigits(r[..|r| - 3]) && ParseDecimal(r[..|r| - 3]) == seconds / 60
    ensures var r := FormatTime(seconds);
      r[|r| - 2..] == [Digit(seconds % 60 / 10), Digit(seconds % 60 % 10)]
    ensures var r := FormatTime(seconds);
      AllDigits(r[|r| - 2..]) && ParseDecimal(r[|r| - 2..]) == seconds % 60 < 60
  {
    LabelFields(seconds / 60, seconds % 60);
  }

  /** The fields of the label for `minutes` whole minutes and `secs` seconds left over. */
  lemma LabelFields(minutes: nat, secs: nat)
    requires secs < 60
    ensures var r := NatToString(minutes) + ":" + PadStart(NatToString(secs), 2, '0');
      |r| >= 4 && r[|r| - 3] == ':' && r[..|r| - 3] == NatToString(minutes)
    ensures var r := NatToString(minutes) + ":" + PadStart(NatToString(secs), 2, '0');
      AllDigits(r[..|r| - 3]) && ParseDecimal(r[..|r| - 3]) == minutes
    ensures var r := NatToString(minutes) + ":" + PadStart(NatToString(secs), 2, '0');
      r[|r| - 2..] == [Digit(secs / 10), Digit(secs % 10)]
    ensures var r := NatToString(minutes) + ":" + PadStart(NatToString(secs), 2, '0');
      AllDigits(r[|r| - 2..]) && ParseDecimal(r[|r| - 2..]) == secs
  {
    var mins := NatToString(minutes);
    var padded := [Digit(secs / 10), Digit(secs % 10)];
    PaddedSeconds(secs);
    ParseNatToString(minutes);
    TwoDigits(secs / 10, secs % 10);
    var r := mins + ":" + padded;
    assert r[..|r| - 3] == mins;
    assert r[|r| - 2..] == padded;
  }

  /** Reading the two fields of the label back recovers the elapsed time. */
  lemma FormatTimeReadBack(seconds: nat)
    ensures var r := FormatTime(seconds);
      |r| >= 4 && AllDigits(r[..|r| - 3]) && AllDigits(r[|r| - 2..]) &&
      60 * ParseDecimal(r[..|r| - 3]) + ParseDecimal(r[|r| - 2..]) == seconds
  {
    FormatTimeFields(seconds);
    var r := FormatTime(seconds);
    Recombine(ParseDecimal(r[..|r| - 3]), ParseDecimal(r[|r| - 2..]), seconds);
  }

  /** Whole minutes and the seconds left over make up the elapsed time. */
  lemma Recombine(minutes: nat, secs: nat, n: nat)
    requires minutes == n / 60 && secs == n % 60
    ensures 60 * minutes + secs == n
  {
  }

  /** The renderings the timer shows at 5, 65 and 125 seconds. */
  lemma FormatTimeExamples()
    ensures FormatTime(5) == "0:05"
    ensures FormatTime(65) == "1:05"
    ensures FormatTime(125) == "2:05"
  {
    assert PadStart("5", 2, '0') == "05";
  }
}
