/** The birthday cog's argument converters and its table of the UTC hour at
    which each supported time zone reaches midnight (cogs/birthday.py). */
module Birthday {
  import opened Common

  /** An accepted birthday: the month and day strings exactly as typed. */
  datatype Date = Date(month: string, day: string)

  /** What DateConverter.convert ends with: the date, BadArgument, or the
      ValueError raised when the argument does not split into exactly two
      parts. */
  datatype DateResult = Accepted(date: Date) | BadArgument | UnpackError

  /** Days in each month, keyed by the two-digit month; leap years are ignored. */
  const DaysInMonths: map<string, nat> := map[
    "01" := 31, "02" := 28, "03" := 31, "04" := 30, "05" := 31, "06" := 30,
    "07" := 31, "08" := 31, "09" := 30, "10" := 31, "11" := 30, "12" := 31]

  /** The number of occurrences of c in s. */
  function Count(s: string, c: char): nat {
    if |s| == 0 then 0 else (if s[0] == c then 1 else 0) + Count(s[1..], c)
  }

  /** str.split(sep): the maximal runs between separators, one more than there
      are separators. */
  function Split(s: string, sep: char): (parts: seq<string>)
    ensures |parts| == Count(s, sep) + 1
    ensures forall i :: 0 <= i < |parts| ==> sep !in parts[i]
  {
    if |s| == 0 then [""]
    else
      var rest := Split(s[1..], sep);
      if s[0] == sep then [""] + rest
      else [[s[0]] + rest[0]] + rest[1..]
  }

  /** sep.join(parts). */
  function Join(parts: seq<string>, sep: char): string
    requires |parts| > 0
  {
    if |parts| == 1 then parts[0] else parts[0] + [sep] + Join(parts[1..], sep)
  }

  /** Joining the parts of a split gives back the string. */
  lemma {:induction false} JoinSplit(s: string, sep: char)
    ensures Join(Split(s, sep), sep) == s
  {
    if |s| > 0 {
      var rest := Split(s[1..], sep);
      JoinSplit(s[1..], sep);
      if s[0] == sep {
        assert Split(s, sep)[1..] == rest;
      } else if |rest| == 1 {
        assert [s[0]] + s[1..] == s;
      } else {
        var parts := Split(s, sep);
        assert parts[1..] == rest[1..];
        assert Join(rest, sep) == rest[0] + [sep] + Join(rest[1..], sep);
        assert [s[0]] + s[1..] == s;
      }
    }
  }

  /** A string without the separator splits into itself alone. */
  lemma {:induction false} SplitNoSeparator(a: string, sep: char)
    requires sep !in a
    ensures Split(a, sep) == [a]
  {
    if |a| > 0 {
      assert sep !in a[1..];
      SplitNoSeparator(a[1..], sep);
      assert [a[0]] + a[1..] == a;
    }
  }

  /** Splitting a + sep + b: a, then the parts of b. */
  lemma {:induction false} SplitAtFirst(a: string, b: string, sep: char)
    requires sep !in a
    ensures Split(a + [sep] + b, sep) == [a] + Split(b, sep)
  {
    var s := a + [sep] + b;
    if |a| == 0 {
      assert s[1..] == b;
    } else {
      assert s[1..] == a[1..] + [sep] + b;
      assert sep !in a[1..];
      SplitAtFirst(a[1..], b, sep);
      assert [a[0]] + a[1..] == a;
    }
  }

  /** DateConverter.convert: split on '/', then the month must be a key of
      the table, the day all digits and at most that month's length. */
  function ConvertDate(argument: string): (r: DateResult)
    ensures r == UnpackError <==> Count(argument, '/') != 1
    ensures r.Accepted? ==>
      argument == r.date.month + "/" + r.date.day &&
      r.date.month in DaysInMonths && IsDigits(r.date.day) &&
      ParseDigits(r.date.day) <= DaysInMonths[r.date.month]
  {
    var parts := Split(argument, '/');
    if |parts| != 2 then UnpackError
    else
      var month, day := parts[0], parts[1];
      JoinSplit(argument, '/');
      if month in DaysInMonths && IsDigits(day) && ParseDigits(day) <= DaysInMonths[month]
      then Accepted(Date(month, day))
      else BadArgument
  }

  /** For a month and day typed around one '/', the date is accepted exactly
      when the month is a key, the day is all digits and does not exceed the
      month's length; it is then returned unchanged. */
  lemma DateAcceptance(month: string, day: string)
    requires '/' !in month && '/' !in day
    ensures ConvertDate(month + "/" + day) ==
      if month in DaysInMonths && IsDigits(day) && ParseDigits(day) <= DaysInMonths[month]
      then Accepted(Date(month, day)) else BadArgument
  {
    SplitAtFirst(month, day, '/');
    SplitNoSeparator(day, '/');
  }

  lemma ParseTwoDigits(s: string)
    requires |s| == 2 && IsDigit(s[0]) && IsDigit(s[1])
    ensures IsDigits(s)
    ensures ParseDigits(s) == (s[0] as int - '0' as int) * 10 + (s[1] as int - '0' as int)
  {
    assert s[..1][..0] == [];
    assert ParseDigits(s[..1][..0]) == 0;
    assert ParseDigits(s[..1]) == s[0] as int - '0' as int;
  }

  lemma FebruaryLength()
    ensures "02" in DaysInMonths && DaysInMonths["02"] == 28
  {
  }

  lemma February28Accepted()
    ensures ConvertDate("02/28") == Accepted(Date("02", "28"))
  {
    assert "02/28" == "02" + "/" + "28";
    DateAcceptance("02", "28");
    FebruaryLength();
    ParseTwoDigits("28");
  }

  lemma February29Rejected()
    ensures ConvertDate("02/29") == BadArgument
  {
    assert "02/29" == "02" + "/" + "29";
    DateAcceptance("02", "29");
    FebruaryLength();
    ParseTwoDigits("29");
  }

  /** February has 28 days, so its 28th is accepted and its 29th is not. */
  lemma FebruaryHas28Days()
    ensures ConvertDate("02/28") == Accepted(Date("02", "28"))
    ensures ConvertDate("02/29") == BadArgument
  {
    February28Accepted();
    February29Rejected();
  }

  /** Only an upper bound is checked, so day 0 is accepted. */
  lemma DayZeroAccepted()
    ensures ConvertDate("01/0") == Accepted(Date("01", "0"))
  {
    assert "01/0" == "01" + "/" + "0";
    DateAcceptance("01", "0");
  }

  /** The month must be typed with two digits. */
  lemma OneDigitMonthRejected()
    ensures ConvertDate("1/05") == BadArgument
  {
    assert "1/05" == "1" + "/" + "05";
    DateAcceptance("1", "05");
  }

  // ---------------------------------------------------------------------
  // Time zones

  /** The labels TimezoneConverter accepts, from UTC-11 to UTC+14. */
  const Timezones: seq<string> := [
    "UTC-11", "UTC-10", "UTC-9", "UTC-8", "UTC-7", "UTC-6", "UTC-5", "UTC-4",
    "UTC-3", "UTC-2", "UTC-1", "UTC", "UTC+1", "UTC+2", "UTC+3", "UTC+4",
    "UTC+5", "UTC+6", "UTC+7", "UTC+8", "UTC+9", "UTC+10", "UTC+11", "UTC+12",
    "UTC+13", "UTC+14"]

  /** str.upper() on one character, restricted to ASCII letters. */
  function UpperChar(c: char): (u: char)
    ensures 'a' <= c <= 'z' ==> u as int == c as int - 32
    ensures !('a' <= c <= 'z') ==> u == c
  {
    if 'a' <= c <= 'z' then (c as int - 32) as char else c
  }

  /** str.upper(), restricted to ASCII letters. */
  function Upper(s: string): (r: string)
    ensures |r| == |s| && forall i :: 0 <= i < |s| ==> r[i] == UpperChar(s[i])
  {
    if |s| == 0 then [] else [UpperChar(s[0])] + Upper(s[1..])
  }

  lemma UpperIdempotent(s: string)
    ensures Upper(Upper(s)) == Upper(s)
  {
  }

  /** TimezoneConverter.convert: the upper-cased argument when it is one of
      the labels, BadArgument (None) otherwise. */
  function ConvertTimezone(argument: string): (r: Option<string>)
    ensures r.Some? <==> Upper(argument) in Timezones
    ensures r.Some? ==> r.value in Timezones && Upper(r.value) == r.value
  {
    UpperIdempotent(argument);
    if Upper(argument) in Timezones then Some(Upper(argument)) else None
  }

  /** The converter ignores case, and converting its result again changes nothing. */
  lemma TimezoneCaseInsensitive(a: string, b: string)
    requires Upper(a) == Upper(b)
    ensures ConvertTimezone(a) == ConvertTimezone(b)
    ensures ConvertTimezone(a).Some? ==> ConvertTimezone(ConvertTimezone(a).value) == ConvertTimezone(a)
  {
    UpperIdempotent(a);
  }

  /** The label of the zone k hours ahead of UTC. */
  function Label(k: int): string {
    if k == 0 then "UTC" else if k > 0 then "UTC+" + NatToString(k) else "UTC-" + NatToString(-k)
  }

  /** The hour on a 24-hour UTC clock at which each zone is at midnight. */
  const MidnightHour: map<string, nat> := map[
    "UTC-11" := 11, "UTC-10" := 10, "UTC-9" := 9, "UTC-8" := 8, "UTC-7" := 7,
    "UTC-6" := 6, "UTC-5" := 5, "UTC-4" := 4, "UTC-3" := 3, "UTC-2" := 2,
    "UTC-1" := 1, "UTC" := 0, "UTC+1" := 23, "UTC+2" := 22, "UTC+3" := 21,
    "UTC+4" := 20, "UTC+5" := 19, "UTC+6" := 18, "UTC+7" := 17, "UTC+8" := 16,
    "UTC+9" := 15, "UTC+10" := 14, "UTC+11" := 13, "UTC+12" := 12,
    "UTC+13" := 11, "UTC+14" := 10]

  // Labels0..Labels6 and Label10..Label14 state nothing of their own: they
  // check the label table a few offsets at a time, so that each proof stays
  // small, and TimezonesAreOffsetLabels gathers them into one statement.
  lemma Labels0()
    ensures forall k :: -11 <= k <= -9 ==> Timezones[k + 11] == Label(k)
  {
    assert Timezones[0] == Label(-11) by {
      assert NatToString(11) == NatToString(1) + [DigitChar(1)];
      assert DigitChar(1) == '1';
      assert Label(-11) == "UTC-11";
    }
    assert Timezones[1] == Label(-10) by {
      assert NatToString(10) == NatToString(1) + [DigitChar(0)];
      assert DigitChar(0) == '0';
      assert Label(-10) == "UTC-10";
    }
    assert Timezones[2] == Label(-9) by { assert NatToString(9) == "9"; }
  }

  lemma Labels1()
    ensures forall k :: -8 <= k <= -6 ==> Timezones[k + 11] == Label(k)
  {
    assert Timezones[3] == Label(-8) by { assert NatToString(8) == "8"; }
    assert Timezones[4] == Label(-7) by { assert NatToString(7) == "7"; }
    assert Timezones[5] == Label(-6) by { assert NatToString(6) == "6"; }
  }

  lemma Labels2()
    ensures forall k :: -5 <= k <= -3 ==> Timezones[k + 11] == Label(k)
  {
    assert Timezones[6] == Label(-5) by { assert NatToString(5) == "5"; }
    assert Timezones[7] == Label(-4) by { assert NatToString(4) == "4"; }
    assert Timezones[8] == Label(-3) by { assert NatToString(3) == "3"; }
  }

  lemma Labels3()
    ensures forall k :: -2 <= k <= 0 ==> Timezones[k + 11] == Label(k)
  {
    assert Timezones[9] == Label(-2) by { assert NatToString(2) == "2"; }
    assert Timezones[10] == Label(-1) by { assert NatToString(1) == "1"; }
    assert Timezones[11] == Label(0) by { assert NatToString(0) == "0"; }
  }

  lemma Labels4()
    ensures forall k :: 1 <= k <= 3 ==> Timezones[k + 11] == Label(k)
  {
    assert Timezones[12] == Label(1) by { assert NatToString(1) == "1"; }
    assert Timezones[13] == Label(2) by { assert NatToString(2) == "2"; }
    assert Timezones[14] == Label(3) by { assert NatToString(3) == "3"; }
  }

  lemma Labels5()
    ensures forall k :: 4 <= k <= 6 ==> Timezones[k + 11] == Label(k)
  {
    assert Timezones[15] == Label(4) by { assert NatToString(4) == "4"; }
    assert Timezones[16] == Label(5) by { assert NatToString(5) == "5"; }
    assert Timezones[17] == Label(6) by { assert NatToString(6) == "6"; }
  }

  lemma Labels6()
    ensures forall k :: 7 <= k <= 9 ==> Timezones[k + 11] == Label(k)
  {
    assert Timezones[18] == Label(7) by { assert NatToString(7) == "7"; }
    assert Timezones[19] == Label(8) by { assert NatToString(8) == "8"; }
    assert Timezones[20] == Label(9) by { assert NatToString(9) == "9"; }
  }

  lemma Label10()
    ensures Timezones[21] == Label(10)
  {
    assert NatToString(10) == NatToString(1) + [DigitChar(0)];
    assert DigitChar(0) == '0';
    assert Label(10) == "UTC+10";
  }

  lemma Label11()
    ensures Timezones[22] == Label(11)
  {
    assert NatToString(11) == NatToString(1) + [DigitChar(1)];
    assert DigitChar(1) == '1';
    assert Label(11) == "UTC+11";
  }

  lemma Label12()
    ensures Timezones[23] == Label(12)
  {
    assert NatToString(12) == NatToString(1) + [DigitChar(2)];
    assert DigitChar(2) == '2';
    assert Label(12) == "UTC+12";
  }

  lemma Label13()
    ensures Timezones[24] == Label(13)
  {
    assert NatToString(13) == NatToString(1) + [DigitChar(3)];
    assert DigitChar(3) == '3';
    assert Label(13) == "UTC+13";
  }

  lemma Label14()
    ensures Timezones[25] == Label(14)
  {
    assert NatToString(14) == NatToString(1) + [DigitChar(4)];
    assert DigitChar(4) == '4';
    assert Label(14) == "UTC+14";
  }

  /** The accepted labels are those of the offsets -11 to +14, in order. */
  lemma TimezonesAreOffsetLabels()
    ensures forall k :: -11 <= k <= 14 ==> Timezones[k + 11] == Label(k)
  {
    forall k | -11 <= k <= 14 ensures Timezones[k + 11] == Label(k) {
      if k <= -9 { Labels0(); }
      else if k <= -6 { Labels1(); }
      else if k <= -3 { Labels2(); }
      else if k <= 0 { Labels3(); }
      else if k <= 3 { Labels4(); }
      else if k <= 6 { Labels5(); }
      else if k <= 9 { Labels6(); }
      else if k == 10 { Label10(); }
      else if k == 11 { Label11(); }
      else if k == 12 { Label12(); }
      else if k == 13 { Label13(); }
      else { Label14(); }
    }
  }

  /** The table has an entry for exactly the accepted labels. */
  lemma MidnightTableKeys()
    ensures forall t :: t in MidnightHour <==> t in Timezones
  {
  }

  // MidnightEntries0..MidnightEntries3 likewise only split the check of the
  // midnight table into four ranges; MidnightTableEntries is the statement.

  /** The entry of the label at position i is (11 - i) mod 24. */
  lemma MidnightEntries0()
    ensures forall i :: 0 <= i <= 6 ==> MidnightHour[Timezones[i]] == (11 - i) % 24
  {
  }

  lemma MidnightEntries1()
    ensures forall i :: 7 <= i <= 12 ==> MidnightHour[Timezones[i]] == (11 - i) % 24
  {
  }

  lemma MidnightEntries2()
    ensures forall i :: 13 <= i <= 18 ==> MidnightHour[Timezones[i]] == (11 - i) % 24
  {
  }

  lemma MidnightEntries3()
    ensures forall i :: 19 <= i <= 25 ==> MidnightHour[Timezones[i]] == (11 - i) % 24
  {
  }

  lemma MidnightTableEntries()
    ensures forall i :: 0 <= i < 26 ==> MidnightHour[Timezones[i]] == (11 - i) % 24
  {
    MidnightEntries0();
    MidnightEntries1();
    MidnightEntries2();
    MidnightEntries3();
  }

  /** The table maps the label of the zone k hours ahead of UTC to (-k) mod
      24, the UTC hour at which that zone reaches midnight. */
  lemma MidnightTableIsOffsetTable()
    ensures forall k :: -11 <= k <= 14 ==> Label(k) in MidnightHour && MidnightHour[Label(k)] == (-k) % 24
  {
    TimezonesAreOffsetLabels();
    MidnightTableEntries();
    forall k | -11 <= k <= 14 ensures Label(k) in MidnightHour && MidnightHour[Label(k)] == (-k) % 24 {
      assert Label(k) == Timezones[k + 11];
    }
  }
}
