/** The DS1339B driver: globals `time`, `date`, `temp_time` and `New_time_date`,
    the bus primitives, the stamping read functions, the refresh routines and
    the setpoint writer. */
module Ds1339b {
  import opened Types
  import opened Bcd
  import opened AddressMap
  import opened I2c

  /** The setpoint compiled into the firmware: 21:50:00, 15/05/14. */
  const DefaultSetpoint: seq<char> := "215000150514"

  /** `New_time_date` as the setpoint routines expect it: twelve digits,
      hhmmssDDMMYY. */
  predicate IsSetpoint(s: seq<char>)
  {
    |s| == 12 && forall i :: 0 <= i < 12 ==> IsDigit(s[i])
  }

  /** The two-digit number at offset `at` of a setpoint, as `atoi` reads it
      from the two characters copied there. */
  function SetpointField(s: seq<char>, at: nat): (n: Int16)
    requires IsSetpoint(s) && at + 1 < 12
    ensures 0 <= n <= 99 && n / 10 == s[at] as int - 48 && n % 10 == s[at + 1] as int - 48
  {
    PairValue(s[at], s[at + 1])
  }

  /** What `set_Time` writes: seconds, minutes, hours, from offsets 4, 2, 0. */
  function TimeWrites(s: seq<char>): seq<Transaction>
    requires IsSetpoint(s)
  {
    [RegisterWrite(SecAdd, Int2Bcd(SetpointField(s, 4))),
     RegisterWrite(MinAdd, Int2Bcd(SetpointField(s, 2))),
     RegisterWrite(HrAdd, Int2Bcd(SetpointField(s, 0)))]
  }

  /** What `set_Date` writes: date, month, year, from offsets 6, 8, 10. */
  function DateWrites(s: seq<char>): seq<Transaction>
    requires IsSetpoint(s)
  {
    [RegisterWrite(DDAdd, Int2Bcd(SetpointField(s, 6))),
     RegisterWrite(MMAdd, Int2Bcd(SetpointField(s, 8))),
     RegisterWrite(YYAdd, Int2Bcd(SetpointField(s, 10)))]
  }

  /** What `set_RTC` writes: the time fields, then the date fields. */
  function SetpointWrites(s: seq<char>): seq<Transaction>
    requires IsSetpoint(s)
  {
    TimeWrites(s) + DateWrites(s)
  }

  /** The two BCD characters a read function stamps for a register byte. */
  function Stamp(b: Byte): seq<char>
  {
    [TensChar(b), OnesChar(b)]
  }

  /** The first eight characters of `time` after `Time_update`. */
  function RenderTime(hr: Byte, min: Byte, sec: Byte): seq<char>
  {
    Stamp(hr) + [':'] + Stamp(min) + [':'] + Stamp(sec)
  }

  /** The first eight characters of `date` after `Date_update`. */
  function RenderDate(dd: Byte, mm: Byte, yy: Byte): seq<char>
  {
    Stamp(dd) + ['/'] + Stamp(mm) + ['/'] + Stamp(yy)
  }

  /** A buffer whose first eight characters hold three stamped fields and two
      separators. */
  lemma RenderedAt(s: seq<char>, a: Byte, sep1: char, b: Byte, sep2: char, c: Byte)
    requires |s| >= 8
    requires s[0] == TensChar(a) && s[1] == OnesChar(a) && s[2] == sep1
    requires s[3] == TensChar(b) && s[4] == OnesChar(b) && s[5] == sep2
    requires s[6] == TensChar(c) && s[7] == OnesChar(c)
    ensures s[..8] == Stamp(a) + [sep1] + Stamp(b) + [sep2] + Stamp(c)
  {
  }

  /** Which buffer a `give_me_number` selector reads. */
  datatype Buffer = TimeBuffer | DateBuffer

  /** The selectors of `give_me_number` and the two positions each one reads. */
  datatype Slot = Slot(buffer: Buffer, at: nat)

  const Slots: map<char, Slot> :=
    map['h' := Slot(TimeBuffer, 0), 'm' := Slot(TimeBuffer, 3), 's' := Slot(TimeBuffer, 6),
        'D' := Slot(DateBuffer, 0), 'M' := Slot(DateBuffer, 3), 'Y' := Slot(DateBuffer, 6)]

  /** A digit character with its value reduced to three bits, as a tens digit
      comes back after being encoded and stamped. */
  function Mask3(c: char): char
    requires IsDigit(c)
  {
    (48 + (c as int - 48) % 8) as char
  }

  class Rtc {
    const time: array<char>
    const date: array<char>
    /** Everything the primitives have put on the bus so far. */
    var trace: seq<BusEvent>
    /** The clock chip at the other end of the bus. */
    var chip: Chip
    var tempTime: Int16
    var newTimeDate: seq<char>

    ghost predicate Valid()
    {
      time.Length == 16 && date.Length == 16 && time != date
    }

    /** The state at reset: zeroed buffers, the compiled-in setpoint, an empty
        bus and a chip holding `regs`. */
    constructor (regs: map<Byte, Byte>)
      ensures Valid() && fresh(time) && fresh(date)
      ensures forall i :: 0 <= i < 16 ==> time[i] == '\0' && date[i] == '\0'
      ensures trace == [] && chip == Chip(regs, 0, Idle)
      ensures tempTime == 0 && newTimeDate == DefaultSetpoint
    {
      time := new char[16](_ => '\0');
      date := new char[16](_ => '\0');
      trace := [];
      chip := Chip(regs, 0, Idle);
      tempTime := 0;
      newTimeDate := DefaultSetpoint;
    }

    // ---------------------------------------------------------------- bus

    method I2cStart()
      modifies this`trace, this`chip
      ensures trace == old(trace) + [Start] && chip == old(chip).OnStart()
    {
      trace := trace + [Start];
      chip := chip.OnStart();
    }

    method I2cStop()
      modifies this`trace, this`chip
      ensures trace == old(trace) + [Stop] && chip == old(chip).OnStop()
    {
      trace := trace + [Stop];
      chip := chip.OnStop();
    }

    method I2cWrite(data: Byte)
      modifies this`trace, this`chip
      ensures trace == old(trace) + [Write(data)] && chip == old(chip).OnWrite(data)
    {
      trace := trace + [Write(data)];
      chip := chip.OnWrite(data);
    }

    method I2cRead() returns (data: Byte)
      modifies this`trace
      ensures trace == old(trace) + [Read] && data == chip.Received()
    {
      trace := trace + [Read];
      data := chip.Received();
    }

    // ---------------------------------------------------------------- field access

    /** The addressed read every `RTC_*` function performs: whatever state the
        chip was in, it returns the addressed register and leaves the chip idle
        with its pointer on that register. */
    method ReadRegister(reg: Byte) returns (data: Byte)
      modifies this`trace, this`chip
      ensures trace == old(trace) + Events(RegisterRead(reg))
      ensures data == old(chip).Reg(reg)
      ensures chip == old(chip).(pointer := reg, phase := Idle)
    {
      I2cStart();
      I2cWrite(SlaveAddWrite);
      I2cWrite(reg);
      I2cStart();
      I2cWrite(SlaveAddRead);
      data := I2cRead();
      I2cStop();
    }

    /** The register write `set_Time` and `set_Date` perform for each field. */
    method WriteRegister(reg: Byte, value: Byte)
      modifies this`trace, this`chip
      ensures trace == old(trace) + Events(RegisterWrite(reg, value))
      ensures chip == old(chip).(regs := old(chip).regs[reg := value], pointer := reg, phase := Idle)
    {
      I2cStart();
      I2cWrite(SlaveAddWrite);
      I2cWrite(reg);
      I2cWrite(value);
      I2cStop();
    }

    // ---------------------------------------------------------------- time reads

    method RtcSec() returns (sec: Byte)
      requires Valid()
      modifies this`trace, this`chip, time
      ensures trace == old(trace) + Events(RegisterRead(SecAdd))
      ensures sec == old(chip).Reg(SecAdd) && chip == old(chip).(pointer := SecAdd, phase := Idle)
      ensures time[5] == ':' && time[6] == TensChar(sec) && time[7] == OnesChar(sec)
      ensures forall i :: 0 <= i < 16 && i != 5 && i != 6 && i != 7 ==> time[i] == old(time[i])
      ensures date[..] == old(date[..])
    {
      sec := ReadRegister(SecAdd);
      time[5] := ':';
      time[7] := OnesChar(sec);
      time[6] := TensChar(sec);
    }

    method RtcMin() returns (min: Byte)
      requires Valid()
      modifies this`trace, this`chip, time
      ensures trace == old(trace) + Events(RegisterRead(MinAdd))
      ensures min == old(chip).Reg(MinAdd) && chip == old(chip).(pointer := MinAdd, phase := Idle)
      ensures time[2] == ':' && time[3] == TensChar(min) && time[4] == OnesChar(min)
      ensures forall i :: 0 <= i < 16 && i != 2 && i != 3 && i != 4 ==> time[i] == old(time[i])
      ensures date[..] == old(date[..])
    {
      min := ReadRegister(MinAdd);
      time[2] := ':';
      time[4] := OnesChar(min);
      time[3] := TensChar(min);
    }

    method RtcHr() returns (hr: Byte)
      requires Valid()
      modifies this`trace, this`chip, time
      ensures trace == old(trace) + Events(RegisterRead(HrAdd))
      ensures hr == old(chip).Reg(HrAdd) && chip == old(chip).(pointer := HrAdd, phase := Idle)
      ensures time[0] == TensChar(hr) && time[1] == OnesChar(hr)
      ensures forall i :: 2 <= i < 16 ==> time[i] == old(time[i])
      ensures date[..] == old(date[..])
    {
      hr := ReadRegister(HrAdd);
      time[1] := OnesChar(hr);
      time[0] := TensChar(hr);
    }

    /** The day-of-week stub: no bus traffic, no stamping. */
    method RtcDay() returns (day: int)
      ensures day == 0
    {
      day := 0;
    }

    /** `Time_update`: seconds, then minutes, then hours. */
    method TimeUpdate()
      requires Valid()
      modifies this`trace, this`chip, this`tempTime, time
      ensures trace == old(trace) + Serialize([RegisterRead(SecAdd), RegisterRead(MinAdd), RegisterRead(HrAdd)])
      ensures time[..8] == RenderTime(old(chip).Reg(HrAdd), old(chip).Reg(MinAdd), old(chip).Reg(SecAdd))
      ensures time[2] == ':' && time[5] == ':'
      ensures time[8..] == old(time[8..]) && date[..] == old(date[..])
      ensures tempTime == old(chip).Reg(HrAdd)
      ensures chip == old(chip).(pointer := HrAdd, phase := Idle)
    {
      var sec := RtcSec();
      tempTime := sec;
      var min := RtcMin();
      tempTime := min;
      var hr := RtcHr();
      tempTime := hr;
      RenderedAt(time[..], hr, ':', min, ':', sec);
      SerializeThree([RegisterRead(SecAdd), RegisterRead(MinAdd), RegisterRead(HrAdd)]);
    }

    // ---------------------------------------------------------------- date reads

    method RtcYY() returns (yy: Byte)
      requires Valid()
      modifies this`trace, this`chip, date
      ensures trace == old(trace) + Events(RegisterRead(YYAdd))
      ensures yy == old(chip).Reg(YYAdd) && chip == old(chip).(pointer := YYAdd, phase := Idle)
      ensures date[5] == '/' && date[6] == TensChar(yy) && date[7] == OnesChar(yy)
      ensures forall i :: 0 <= i < 16 && i != 5 && i != 6 && i != 7 ==> date[i] == old(date[i])
      ensures time[..] == old(time[..])
    {
      yy := ReadRegister(YYAdd);
      date[5] := '/';
      date[7] := OnesChar(yy);
      date[6] := TensChar(yy);
    }

    method RtcMM() returns (mm: Byte)
      requires Valid()
      modifies this`trace, this`chip, date
      ensures trace == old(trace) + Events(RegisterRead(MMAdd))
      ensures mm == old(chip).Reg(MMAdd) && chip == old(chip).(pointer := MMAdd, phase := Idle)
      ensures date[2] == '/' && date[3] == TensChar(mm) && date[4] == OnesChar(mm)
      ensures forall i :: 0 <= i < 16 && i != 2 && i != 3 && i != 4 ==> date[i] == old(date[i])
      ensures time[..] == old(time[..])
    {
      mm := ReadRegister(MMAdd);
      date[2] := '/';
      date[4] := OnesChar(mm);
      date[3] := TensChar(mm);
    }

    method RtcDD() returns (dd: Byte)
      requires Valid()
      modifies this`trace, this`chip, date
      ensures trace == old(trace) + Events(RegisterRead(DDAdd))
      ensures dd == old(chip).Reg(DDAdd) && chip == old(chip).(pointer := DDAdd, phase := Idle)
      ensures date[0] == TensChar(dd) && date[1] == OnesChar(dd)
      ensures forall i :: 2 <= i < 16 ==> date[i] == old(date[i])
      ensures time[..] == old(time[..])
    {
      dd := ReadRegister(DDAdd);
      date[1] := OnesChar(dd);
      date[0] := TensChar(dd);
    }

    /** `Date_update`: date, then month, then year. */
    method DateUpdate()
      requires Valid()
      modifies this`trace, this`chip, this`tempTime, date
      ensures trace == old(trace) + Serialize([RegisterRead(DDAdd), RegisterRead(MMAdd), RegisterRead(YYAdd)])
      ensures date[..8] == RenderDate(old(chip).Reg(DDAdd), old(chip).Reg(MMAdd), old(chip).Reg(YYAdd))
      ensures date[2] == '/' && date[5] == '/'
      ensures date[8..] == old(date[8..]) && time[..] == old(time[..])
      ensures tempTime == old(chip).Reg(YYAdd)
      ensures chip == old(chip).(pointer := YYAdd, phase := Idle)
    {
      var dd := RtcDD();
      tempTime := dd;
      var mm := RtcMM();
      tempTime := mm;
      var yy := RtcYY();
      tempTime := yy;
      RenderedAt(date[..], dd, '/', mm, '/', yy);
      SerializeThree([RegisterRead(DDAdd), RegisterRead(MMAdd), RegisterRead(YYAdd)]);
    }

    // ---------------------------------------------------------------- setpoint

    /** `set_Time`: seconds, minutes, hours of `New_time_date`, each parsed,
        encoded and written to its register. */
    method SetTime()
      requires IsSetpoint(newTimeDate)
      modifies this`trace, this`chip, this`tempTime
      ensures trace == old(trace) + Serialize(TimeWrites(newTimeDate))
      ensures chip == old(chip).(regs := Stored(old(chip).regs, TimeWrites(newTimeDate)),
                                 pointer := HrAdd, phase := Idle)
      ensures tempTime == SetpointField(newTimeDate, 0)
    {
      tempTime := PairValue(newTimeDate[4], newTimeDate[5]);
      WriteRegister(SecAdd, Int2Bcd(tempTime));
      tempTime := PairValue(newTimeDate[2], newTimeDate[3]);
      WriteRegister(MinAdd, Int2Bcd(tempTime));
      tempTime := PairValue(newTimeDate[0], newTimeDate[1]);
      WriteRegister(HrAdd, Int2Bcd(tempTime));
      SerializeThree(TimeWrites(newTimeDate));
      StoredThreeWrites(old(chip).regs, TimeWrites(newTimeDate));
    }

    /** `set_Date`: date, month, year of `New_time_date`. */
    method SetDate()
      requires IsSetpoint(newTimeDate)
      modifies this`trace, this`chip, this`tempTime
      ensures trace == old(trace) + Serialize(DateWrites(newTimeDate))
      ensures chip == old(chip).(regs := Stored(old(chip).regs, DateWrites(newTimeDate)),
                                 pointer := YYAdd, phase := Idle)
      ensures tempTime == SetpointField(newTimeDate, 10)
    {
      tempTime := PairValue(newTimeDate[6], newTimeDate[7]);
      WriteRegister(DDAdd, Int2Bcd(tempTime));
      tempTime := PairValue(newTimeDate[8], newTimeDate[9]);
      WriteRegister(MMAdd, Int2Bcd(tempTime));
      tempTime := PairValue(newTimeDate[10], newTimeDate[11]);
      WriteRegister(YYAdd, Int2Bcd(tempTime));
      SerializeThree(DateWrites(newTimeDate));
      StoredThreeWrites(old(chip).regs, DateWrites(newTimeDate));
    }

    /** `set_RTC`: the time fields, then the date fields. */
    method SetRtc()
      requires IsSetpoint(newTimeDate)
      modifies this`trace, this`chip, this`tempTime
      ensures trace == old(trace) + Serialize(SetpointWrites(newTimeDate))
      ensures chip == old(chip).(regs := Stored(old(chip).regs, SetpointWrites(newTimeDate)),
                                 pointer := YYAdd, phase := Idle)
      ensures tempTime == SetpointField(newTimeDate, 10)
    {
      SetTime();
      SetDate();
      SerializeAppend(TimeWrites(newTimeDate), DateWrites(newTimeDate));
      StoredAppend(old(chip).regs, TimeWrites(newTimeDate), DateWrites(newTimeDate));
    }

    // ---------------------------------------------------------------- buffers

    /** `give_me_number`: the two-digit value at the positions the selector
        names, as a signed 8-bit `char`; 0 for any other selector. */
    function GiveMeNumber(kiChao: char): (r: int)
      requires Valid()
      reads time, date
      ensures kiChao !in Slots ==> r == 0
      ensures kiChao in Slots ==>
                var slot := Slots[kiChao];
                var buf := if slot.buffer == TimeBuffer then time else date;
                r == ToChar8(PairValue(buf[slot.at], buf[slot.at + 1]))
    {
      if kiChao == 'h' then ToChar8(PairValue(time[0], time[1]))
      else if kiChao == 'm' then ToChar8(PairValue(time[3], time[4]))
      else if kiChao == 'M' then ToChar8(PairValue(date[3], date[4]))
      else if kiChao == 'D' then ToChar8(PairValue(date[0], date[1]))
      else if kiChao == 'Y' then ToChar8(PairValue(date[6], date[7]))
      else if kiChao == 's' then ToChar8(PairValue(time[6], time[7]))
      else 0
    }
  }

  /** `set_RTC` leaves each of the six registers holding the encoding of its
      setpoint field, and every other register as it was. */
  lemma SetpointRegisters(regs: map<Byte, Byte>, s: seq<char>)
    requires IsSetpoint(s)
    ensures var r := Stored(regs, SetpointWrites(s));
      && r.Keys == regs.Keys + {SecAdd, MinAdd, HrAdd, DDAdd, MMAdd, YYAdd}
      && r[SecAdd] == Int2Bcd(SetpointField(s, 4))
      && r[MinAdd] == Int2Bcd(SetpointField(s, 2))
      && r[HrAdd] == Int2Bcd(SetpointField(s, 0))
      && r[DDAdd] == Int2Bcd(SetpointField(s, 6))
      && r[MMAdd] == Int2Bcd(SetpointField(s, 8))
      && r[YYAdd] == Int2Bcd(SetpointField(s, 10))
      && forall k :: k in regs && k !in {SecAdd, MinAdd, HrAdd, DDAdd, MMAdd, YYAdd} ==> r[k] == regs[k]
  {
    StoredAppend(regs, TimeWrites(s), DateWrites(s));
    StoredThreeWrites(regs, TimeWrites(s));
    StoredThreeWrites(Stored(regs, TimeWrites(s)), DateWrites(s));
  }

  /** A setpoint field, encoded and stamped back: the ones character comes
      back as it was, the tens character with its value cut to three bits. */
  lemma StampedSetpointField(s: seq<char>, at: nat)
    requires IsSetpoint(s) && at + 1 < 12
    ensures Stamp(Int2Bcd(SetpointField(s, at))) == [Mask3(s[at]), s[at + 1]]
  {
    StampedDigits(SetpointField(s, at));
  }

  /** A digit survives the three-bit cut exactly when it is at most 7. */
  lemma Mask3Keeps(c: char)
    requires IsDigit(c)
    ensures Mask3(c) == c <==> c <= '7'
  {
  }

  /** Reading back the registers a setpoint was written to renders the
      setpoint's own digits, tens digits cut to three bits. */
  lemma SetpointReadBack(regs: map<Byte, Byte>, s: seq<char>)
    requires IsSetpoint(s)
    ensures var c := Chip(Stored(regs, SetpointWrites(s)), 0, Idle);
      && RenderTime(c.Reg(HrAdd), c.Reg(MinAdd), c.Reg(SecAdd))
           == [Mask3(s[0]), s[1], ':', Mask3(s[2]), s[3], ':', Mask3(s[4]), s[5]]
      && RenderDate(c.Reg(DDAdd), c.Reg(MMAdd), c.Reg(YYAdd))
           == [Mask3(s[6]), s[7], '/', Mask3(s[8]), s[9], '/', Mask3(s[10]), s[11]]
  {
    SetpointRegisters(regs, s);
    StampedSetpointField(s, 0);
    StampedSetpointField(s, 2);
    StampedSetpointField(s, 4);
    StampedSetpointField(s, 6);
    StampedSetpointField(s, 8);
    StampedSetpointField(s, 10);
  }

  /** The compiled-in setpoint writes 0x00, 0x50, 0x21 to seconds, minutes,
      hours and 0x15, 0x05, 0x14 to date, month, year. */
  lemma DefaultSetpointWrites()
    ensures IsSetpoint(DefaultSetpoint)
    ensures SetpointWrites(DefaultSetpoint) ==
              [RegisterWrite(SecAdd, 0x00), RegisterWrite(MinAdd, 0x50), RegisterWrite(HrAdd, 0x21),
               RegisterWrite(DDAdd, 0x15), RegisterWrite(MMAdd, 0x05), RegisterWrite(YYAdd, 0x14)]
  {
    var s := DefaultSetpoint;
    assert IsSetpoint(s);
    assert SetpointField(s, 4) == 0 && SetpointField(s, 2) == 50 && SetpointField(s, 0) == 21;
    assert SetpointField(s, 6) == 15 && SetpointField(s, 8) == 5 && SetpointField(s, 10) == 14;
  }
}
