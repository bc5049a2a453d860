/** A wall-clock reading and the three Go time layouts the core formats it with.
    The clock itself (`time.Now`) is never read: callers pass the reading in. */
module Clock {
  import opened Strings

  datatype DateTime = DateTime(year: nat, month: nat, day: nat, hour: nat, minute: nat, second: nat)

  /** The ranges a reading of `time.Now` falls in (years written with four digits). */
  predicate Valid(t: DateTime)
  {
    t.year < 10000 && 1 <= t.month <= 12 && 1 <= t.day <= 31
    && t.hour < 24 && t.minute < 60 && t.second < 60
  }

  /** Layout "20060102-150405": date and time down to the second. */
  function CompactStamp(t: DateTime): string
  {
    ZeroPad(t.year, 4) + ZeroPad(t.month, 2) + ZeroPad(t.day, 2) + "-"
    + ZeroPad(t.hour, 2) + ZeroPad(t.minute, 2) + ZeroPad(t.second, 2)
  }

  /** Layout "0102-1504": month, day, hour and minute. */
  function MinuteStamp(t: DateTime): string
  {
    ZeroPad(t.month, 2) + ZeroPad(t.day, 2) + "-" + ZeroPad(t.hour, 2) + ZeroPad(t.minute, 2)
  }

  /** Layout "2006-01-02 15:04:05". */
  function AlertStamp(t: DateTime): string
  {
    ZeroPad(t.year, 4) + "-" + ZeroPad(t.month, 2) + "-" + ZeroPad(t.day, 2) + " "
    + ZeroPad(t.hour, 2) + ":" + ZeroPad(t.minute, 2) + ":" + ZeroPad(t.second, 2)
  }

  /** Reads a "20060102-150405" stamp back (the inverse of `CompactStamp`). */
  function ParseCompactStamp(s: string): (t: DateTime)
    requires |s| == 15 && IsDigits(s[..8]) && IsDigits(s[9..])
  {
    DateTime(DigitsValue(s[0..4]), DigitsValue(s[4..6]), DigitsValue(s[6..8]),
             DigitsValue(s[9..11]), DigitsValue(s[11..13]), DigitsValue(s[13..15]))
  }

  lemma Pow10Values()
    ensures Pow10(2) == 100 && Pow10(4) == 10000
  {
    assert Pow10(1) == 10;
    assert Pow10(3) == 1000;
  }

  /** The "20060102-150405" arrangement of six digit groups: where each group
      sits, and that the date and time halves are all digits. */
  lemma CompactLayout(y: string, mo: string, d: string, h: string, mi: string, se: string)
    requires |y| == 4 && |mo| == 2 && |d| == 2 && |h| == 2 && |mi| == 2 && |se| == 2
    requires IsDigits(y) && IsDigits(mo) && IsDigits(d) && IsDigits(h) && IsDigits(mi) && IsDigits(se)
    ensures var s := y + mo + d + "-" + h + mi + se;
      && |s| == 15 && s[8] == '-'
      && s[0..4] == y && s[4..6] == mo && s[6..8] == d
      && s[9..11] == h && s[11..13] == mi && s[13..15] == se
      && IsDigits(s[..8]) && IsDigits(s[9..])
  {
    var s := y + mo + d + "-" + h + mi + se;
    assert s[..8] == y + mo + d;
    assert s[9..] == h + mi + se;
  }

  /** A valid reading is written as exactly 15 characters, digits around one '-',
      and reading them back gives the same reading. */
  lemma CompactStampRoundTrip(t: DateTime)
    requires Valid(t)
    ensures var s := CompactStamp(t);
      && |s| == 15 && s[8] == '-' && IsDigits(s[..8]) && IsDigits(s[9..])
      && ParseCompactStamp(s) == t
  {
    Pow10Values();
    var y, mo, d := ZeroPad(t.year, 4), ZeroPad(t.month, 2), ZeroPad(t.day, 2);
    var h, mi, se := ZeroPad(t.hour, 2), ZeroPad(t.minute, 2), ZeroPad(t.second, 2);
    ZeroPadRoundTrip(t.year, 4);
    ZeroPadRoundTrip(t.month, 2);
    ZeroPadRoundTrip(t.day, 2);
    ZeroPadRoundTrip(t.hour, 2);
    ZeroPadRoundTrip(t.minute, 2);
    ZeroPadRoundTrip(t.second, 2);
    CompactLayout(y, mo, d, h, mi, se);
  }

  /** A compact stamp holds only digits and '-', so no path separator. */
  lemma CompactStampHasNoSlash(t: DateTime)
    ensures '/' !in CompactStamp(t)
  {
    DigitsHaveNoSlash(ZeroPad(t.year, 4));
    DigitsHaveNoSlash(ZeroPad(t.month, 2));
    DigitsHaveNoSlash(ZeroPad(t.day, 2));
    DigitsHaveNoSlash(ZeroPad(t.hour, 2));
    DigitsHaveNoSlash(ZeroPad(t.minute, 2));
    DigitsHaveNoSlash(ZeroPad(t.second, 2));
  }

  lemma DigitsHaveNoSlash(s: string)
    requires IsDigits(s)
    ensures '/' !in s
  {
    forall i | 0 <= i < |s| ensures s[i] != '/' {
    }
  }

  /** The "0102-1504" arrangement of four two-digit groups. */
  lemma MinuteLayout(mo: string, d: string, h: string, mi: string)
    requires |mo| == 2 && |d| == 2 && |h| == 2 && |mi| == 2
    requires IsDigits(mo) && IsDigits(d) && IsDigits(h) && IsDigits(mi)
    ensures var s := mo + d + "-" + h + mi;
      && |s| == 9 && s[4] == '-'
      && s[0..2] == mo && s[2..4] == d && s[5..7] == h && s[7..9] == mi
      && IsDigits(s[..4]) && IsDigits(s[5..])
  {
    var s := mo + d + "-" + h + mi;
    assert s[..4] == mo + d;
    assert s[5..] == h + mi;
  }

  /** A valid reading gives a "0102-1504" stamp of exactly 9 characters with the
      '-' in the middle. */
  lemma MinuteStampShape(t: DateTime)
    requires Valid(t)
    ensures var s := MinuteStamp(t);
      && |s| == 9 && s[4] == '-' && IsDigits(s[..4]) && IsDigits(s[5..])
      && IsDigits(s[0..2]) && IsDigits(s[2..4]) && IsDigits(s[5..7]) && IsDigits(s[7..9])
      && DigitsValue(s[0..2]) == t.month && DigitsValue(s[2..4]) == t.day
      && DigitsValue(s[5..7]) == t.hour && DigitsValue(s[7..9]) == t.minute
  {
    Pow10Values();
    var mo, d := ZeroPad(t.month, 2), ZeroPad(t.day, 2);
    var h, mi := ZeroPad(t.hour, 2), ZeroPad(t.minute, 2);
    ZeroPadRoundTrip(t.month, 2);
    ZeroPadRoundTrip(t.day, 2);
    ZeroPadRoundTrip(t.hour, 2);
    ZeroPadRoundTrip(t.minute, 2);
    MinuteLayout(mo, d, h, mi);
  }

  /** The zero-padded fields of 2024-03-20 10:00:00. */
  lemma ExampleFields()
    ensures ZeroPad(2024, 4) == "2024" && ZeroPad(3, 2) == "03" && ZeroPad(20, 2) == "20"
    ensures ZeroPad(10, 2) == "10" && ZeroPad(0, 2) == "00"
  {
    assert NatToString(2024) == "2024" by {
      assert NatToString(202) == "202" by {
        assert NatToString(20) == "20";
      }
    }
    assert NatToString(3) == "3";
    assert NatToString(10) == "10";
    assert NatToString(0) == "0";
  }

  /** 2024-03-20 10:00:00 is stamped "20240320-100000". */
  lemma CompactStampExample()
    ensures CompactStamp(DateTime(2024, 3, 20, 10, 0, 0)) == "20240320-100000"
  {
    ExampleFields();
    assert CompactStamp(DateTime(2024, 3, 20, 10, 0, 0)) == "2024" + "03" + "20" + "-" + "10" + "00" + "00";
  }
}
