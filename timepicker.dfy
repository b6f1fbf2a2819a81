/** The time picker's two conversions between the form value "HH:mm" (24-hour clock) and
    the three selects it shows: an hour 1..12, a two-digit minute and AM/PM. */
module TimePicker {
  import opened Common
  import opened Events

  datatype Period = AM | PM

  /** What the three selects hold. The hour and minute are the selects' strings. */
  datatype Selects = Selects(hour: string, minute: string, period: Period)

  /** The picker's initial selects. */
  const InitialSelects := Selects("10", "00", AM)

  /** The value has the shape two digits, a colon, two digits. */
  predicate IsClockValue(value: string) {
    |value| == 5 && IsDigit(value[0]) && IsDigit(value[1]) && value[2] == ':'
    && IsDigit(value[3]) && IsDigit(value[4])
  }

  /** The hour on the 12-hour dial: the remainder by 12, with 0 shown as 12. */
  function Hour12(h24: nat): (h: nat)
    ensures 1 <= h <= 12
    ensures h % 12 == h24 % 12
  {
    if h24 % 12 == 0 then 12 else h24 % 12
  }

  /** The 24-hour to 12-hour effect: a value of the right shape sets the selects, any other
      value leaves them as they are. */
  function FromValue(value: string, current: Selects): (s: Selects)
    ensures !IsClockValue(value) ==> s == current
    ensures IsClockValue(value) ==>
              var h24 := ParseDigits(value[..2]);
              && s.hour == NatToString(Hour12(h24))
              && s.minute == value[3..]
              && (s.period == PM <==> h24 >= 12)
  {
    if IsClockValue(value) then
      var h24 := ParseDigits(value[..2]);
      Selects(NatToString(Hour12(h24)), value[3..], if h24 >= 12 then PM else AM)
    else current
  }

  /** The hour on the 24-hour clock for a selected hour: PM before 12 adds 12, 12 AM is 0. */
  function Hour24(h: nat, period: Period): (h24: nat)
    ensures 1 <= h <= 12 ==> h24 <= 23 && (h24 >= 12 <==> period == PM)
  {
    match period
    case PM => if h < 12 then h + 12 else h
    case AM => if h == 12 then 0 else h
  }

  /** Both dials agree: the 12-hour dial shows the hour the 24-hour clock was made from. */
  lemma DialsAgree(h: nat, period: Period)
    requires 1 <= h <= 12
    ensures Hour12(Hour24(h, period)) == h
  {
    if h == 12 {
      assert Hour24(h, period) % 12 == 0;
    } else if period == PM {
      assert (h + 12) % 12 == h;
    } else {
      assert h % 12 == h;
    }
  }

  /** The 12-hour to 24-hour effect: nothing while a select is empty; otherwise the
      zero-padded 24-hour hour, a colon and the minute. An hour that does not read as a
      number renders as "NaN", as `String(NaN)` does. */
  function ToValue(s: Selects): (v: Option<string>)
    ensures s.hour == "" || s.minute == "" <==> v.None?
    ensures v.Some? && ParseLeadingInt(s.hour).Some? ==>
              v.value == PadStart(NatToString(Hour24(ParseLeadingInt(s.hour).value, s.period)), 2) + ":" + s.minute
  {
    if s.hour == "" || s.minute == "" then None
    else
      var hour := match ParseLeadingInt(s.hour)
                  case Some(h) => PadStart(NatToString(Hour24(h, s.period)), 2)
                  case None => "NaN";
      Some(hour + ":" + s.minute)
  }

  /** The change the picker reports: the new value, only when it differs from the current one. */
  function Reported(s: Selects, value: string): (out: Option<string>)
    ensures out.Some? <==> ToValue(s).Some? && ToValue(s).value != value
    ensures out.Some? ==> out == ToValue(s)
  {
    match ToValue(s)
    case Some(v) => if v != value then Some(v) else None
    case None => None
  }

  /** Two digits read as a number below 100 and, padded, render back as themselves. */
  lemma TwoDigitsRoundTrip(s: string)
    requires |s| == 2 && AllDigits(s)
    ensures ParseDigits(s) < 100
    ensures PadStart(NatToString(ParseDigits(s)), 2) == s
  {
    var a, b := DigitValue(s[0]), DigitValue(s[1]);
    var n := ParseDigits(s);
    assert s[..1] == [s[0]];
    assert ParseDigits(s[..1]) == a by {
      assert s[..1][..0] == [];
    }
    assert n == a * 10 + b;
    assert DigitChar(a) == s[0] && DigitChar(b) == s[1];
    assert s == [s[0]] + [s[1]];
    if a == 0 {
      assert n == b;
      assert NatToString(n) == [s[1]];
      assert PadStart([s[1]], 2) == PadStart(['0'] + [s[1]], 2);
      assert s[0] == '0';
    } else {
      assert n / 10 == a && n % 10 == b;
      assert NatToString(n) == NatToString(a) + [DigitChar(b)];
      assert NatToString(a) == [s[0]];
      assert PadStart(s, 2) == s;
    }
  }

  /** Every well-formed value with an hour below 24 survives the picker: shown on the
      selects and read back it is the same string, so the picker reports no change. */
  lemma ValueRoundTrip(value: string, current: Selects)
    requires IsClockValue(value) && ParseDigits(value[..2]) <= 23
    ensures ToValue(FromValue(value, current)) == Some(value)
    ensures Reported(FromValue(value, current), value) == None
  {
    var h24 := ParseDigits(value[..2]);
    var s := FromValue(value, current);
    var h := Hour12(h24);
    HourReads(h);
    DialsBack(h24);
    assert Hour24(h, s.period) == h24;
    TwoDigitsRoundTrip(value[..2]);
    ClockShape(value);
  }

  lemma ValueParts(hh: string, minute: string)
    requires |hh| == 2
    ensures var v := hh + ":" + minute; v[..2] == hh && v[2] == ':' && v[3..] == minute
  {
    var v := hh + ":" + minute;
    assert v == hh + (":" + minute);
    assert (":" + minute)[1..] == minute;
  }

  lemma ClockShape(value: string)
    requires IsClockValue(value)
    ensures value == value[..2] + ":" + value[3..]
  {
    var w := value[..2] + ":" + value[3..];
    assert |w| == 5;
    forall i | 0 <= i < 5 ensures w[i] == value[i] {
      if i < 2 {
      } else if i == 2 {
      } else {
        assert w[i] == value[3..][i - 3];
      }
    }
  }

  /** Reading the 12-hour dial back gives the 24-hour hour. */
  lemma DialsBack(h24: nat)
    requires h24 <= 23
    ensures Hour24(Hour12(h24), if h24 >= 12 then PM else AM) == h24
  {
    if h24 == 0 || h24 == 12 {
    } else if h24 < 12 {
      assert h24 % 12 == h24;
    } else {
      assert h24 % 12 == h24 - 12;
    }
  }

  /** In the other direction, an hour 1..12 and a two-digit minute survive the round trip
      through the form value. */
  lemma SelectsRoundTrip(h: nat, minute: string, period: Period, current: Selects)
    requires 1 <= h <= 12 && |minute| == 2 && AllDigits(minute)
    ensures var v := ToValue(Selects(NatToString(h), minute, period));
            v.Some? && FromValue(v.value, current) == Selects(NatToString(h), minute, period)
  {
    var s := Selects(NatToString(h), minute, period);
    HourReads(h);
    var h24 := Hour24(h, period);
    DialsAgree(h, period);
    var hh := PadStart(NatToString(h24), 2);
    assert ToValue(s) == Some(hh + ":" + minute);
    PaddedHour(h24);
    ReadPadded(hh, minute, h24, current);
  }

  /** A selected hour reads back as its number. */
  lemma HourReads(h: nat)
    ensures ParseLeadingInt(NatToString(h)) == Some(h)
  {
    ParseNatToString(h);
    LeadingDigitsOfDigits(NatToString(h), []);
    assert NatToString(h) + [] == NatToString(h);
  }

  /** An hour of the day renders as two digits that read back as it. */
  lemma PaddedHour(h24: nat)
    requires h24 <= 23
    ensures var hh := PadStart(NatToString(h24), 2);
            |hh| == 2 && AllDigits(hh) && ParseDigits(hh) == h24
  {
    ParseNatToString(h24);
    assert |NatToString(h24)| <= 2 by {
      assert h24 >= 10 ==> NatToString(h24) == NatToString(h24 / 10) + [DigitChar(h24 % 10)];
    }
    PaddedValue(NatToString(h24));
  }

  lemma ReadPadded(hh: string, minute: string, h24: nat, current: Selects)
    requires |hh| == 2 && AllDigits(hh) && ParseDigits(hh) == h24
    requires |minute| == 2 && AllDigits(minute)
    ensures FromValue(hh + ":" + minute, current)
            == Selects(NatToString(Hour12(h24)), minute, if h24 >= 12 then PM else AM)
  {
    ValueParts(hh, minute);
    var v := hh + ":" + minute;
    assert v[0] == hh[0] && v[1] == hh[1] && v[3] == minute[0] && v[4] == minute[1];
    assert IsClockValue(v);
  }

  /** Padding a number's digits with zeros does not change the number they read as. */
  lemma PaddedValue(d: string)
    requires |d| <= 2 && |d| > 0 && AllDigits(d)
    ensures AllDigits(PadStart(d, 2)) && ParseDigits(PadStart(d, 2)) == ParseDigits(d)
  {
    var p := PadStart(d, 2);
    if |d| == 1 {
      assert p == ['0'] + d;
      assert p[..1] == ['0'];
      assert ParseDigits(p[..1]) == 0 by {
        assert p[..1][..0] == [];
      }
      assert d[..0] == [];
    }
  }
}
