/** Whole-driver runs: a fresh driver against a chip with given registers. */
module Scenarios {
  import opened Types
  import opened Bcd
  import opened AddressMap
  import opened I2c
  import opened Ds1339b

  /** Hours 0x21, minutes 0x50 and seconds 0x00 render as "21:50:00", read
      over three addressed reads in the order seconds, minutes, hours. */
  method ReadTimeScenario() returns (shown: seq<char>, transactions: Option<seq<Transaction>>)
    ensures shown == "21:50:00"
    ensures transactions == Some([RegisterRead(SecAdd), RegisterRead(MinAdd), RegisterRead(HrAdd)])
  {
    var rtc := new Rtc(map[SecAdd := 0x00, MinAdd := 0x50, HrAdd := 0x21]);
    assert rtc.chip.Reg(HrAdd) == 0x21 && rtc.chip.Reg(MinAdd) == 0x50 && rtc.chip.Reg(SecAdd) == 0x00;
    rtc.TimeUpdate();
    shown := rtc.time[..8];
    assert shown == "21:50:00" by {
      TimeScenarioRendering();
    }
    var expected := [RegisterRead(SecAdd), RegisterRead(MinAdd), RegisterRead(HrAdd)];
    assert rtc.trace == Serialize(expected);
    transactions := Parse(rtc.trace);
    ParseSerialize(expected);
  }

  /** Date 0x15, month 0x05 and year 0x14 render as "15/05/14". */
  method ReadDateScenario() returns (shown: seq<char>, transactions: Option<seq<Transaction>>)
    ensures shown == "15/05/14"
    ensures transactions == Some([RegisterRead(DDAdd), RegisterRead(MMAdd), RegisterRead(YYAdd)])
  {
    var rtc := new Rtc(map[DDAdd := 0x15, MMAdd := 0x05, YYAdd := 0x14]);
    assert rtc.chip.Reg(DDAdd) == 0x15 && rtc.chip.Reg(MMAdd) == 0x05 && rtc.chip.Reg(YYAdd) == 0x14;
    rtc.DateUpdate();
    shown := rtc.date[..8];
    assert shown == "15/05/14" by {
      DateScenarioRendering();
    }
    var expected := [RegisterRead(DDAdd), RegisterRead(MMAdd), RegisterRead(YYAdd)];
    assert rtc.trace == Serialize(expected);
    transactions := Parse(rtc.trace);
    ParseSerialize(expected);
  }

  /** An hour register holding `int2bcd(v)`, stamped by `RTC_hr` and read back
      by `give_me_number('h')`, gives `v` below 80 and `v - 80` from 80 on. */
  method HourReadBack(v: Int16) returns (n: int)
    requires 0 <= v <= 99
    ensures n == if v < 80 then v else v - 80
  {
    var rtc := new Rtc(map[HrAdd := Int2Bcd(v)]);
    var hr := rtc.RtcHr();
    n := rtc.GiveMeNumber('h');
    StampRoundTrip(v);
  }

  /** The same for the year, through `RTC_YY` and `give_me_number('Y')`:
      a year written as 85 reads back as 5. */
  method YearReadBack(v: Int16) returns (n: int)
    requires 0 <= v <= 99
    ensures n == if v < 80 then v else v - 80
  {
    var rtc := new Rtc(map[YYAdd := Int2Bcd(v)]);
    var yy := rtc.RtcYY();
    n := rtc.GiveMeNumber('Y');
    StampRoundTrip(v);
  }

  /** The compiled-in setpoint goes out as six register writes, time fields
      before date fields, with the bytes 0x00, 0x50, 0x21, 0x15, 0x05, 0x14. */
  method DefaultSetpointScenario() returns (transactions: Option<seq<Transaction>>)
    ensures transactions ==
              Some([RegisterWrite(SecAdd, 0x00), RegisterWrite(MinAdd, 0x50), RegisterWrite(HrAdd, 0x21),
                    RegisterWrite(DDAdd, 0x15), RegisterWrite(MMAdd, 0x05), RegisterWrite(YYAdd, 0x14)])
  {
    var rtc := new Rtc(map[]);
    DefaultSetpointWrites();
    rtc.SetRtc();
    ParseSerialize(SetpointWrites(DefaultSetpoint));
    assert rtc.trace == Serialize(SetpointWrites(DefaultSetpoint));
    transactions := Parse(rtc.trace);
  }

  /** Writing a setpoint and then refreshing both buffers shows the setpoint's
      digits, each tens digit cut to three bits. */
  method SetThenRead(s: seq<char>) returns (shownTime: seq<char>, shownDate: seq<char>)
    requires IsSetpoint(s)
    ensures shownTime == [Mask3(s[0]), s[1], ':', Mask3(s[2]), s[3], ':', Mask3(s[4]), s[5]]
    ensures shownDate == [Mask3(s[6]), s[7], '/', Mask3(s[8]), s[9], '/', Mask3(s[10]), s[11]]
  {
    var rtc := new Rtc(map[]);
    rtc.newTimeDate := s;
    rtc.SetRtc();
    SetpointReadBack(map[], s);
    rtc.TimeUpdate();
    rtc.DateUpdate();
    shownTime := rtc.time[..8];
    shownDate := rtc.date[..8];
  }

  lemma TimeScenarioRendering()
    ensures RenderTime(0x21, 0x50, 0x00) == "21:50:00"
  {
  }

  lemma DateScenarioRendering()
    ensures RenderDate(0x15, 0x05, 0x14) == "15/05/14"
  {
  }
}
