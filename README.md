# DS1339B real-time-clock driver, modelled in Dafny

The DS1339B driver is a single C header for an AVR microcontroller. It talks to
the DS1339B clock chip over the two-wire (I²C) bus. This project models:

- the bus primitives `i2c_start`, `i2c_stop`, `i2c_write` and `i2c_read`. Each
  one appends an event to a bus trace and steps a model of the chip.
- the addressed read and the register write that the driver repeats for every
  field.
- the read functions `RTC_sec`, `RTC_min`, `RTC_hr`, `RTC_DD`, `RTC_MM` and
  `RTC_YY`. Each performs one addressed read and stamps ASCII digits and a
  separator into fixed positions of the global `time` and `date` buffers.
- the refresh routines `Time_update` and `Date_update`, and the `RTC_day` stub.
- the setpoint writer `set_RTC` with `set_Time` and `set_Date`. It slices the
  12-character `New_time_date`, parses each two-digit pair, BCD-encodes it with
  `int2bcd` and writes it to its register.
- `give_me_number`, which parses a two-digit pair back out of `time` or `date`.

Files and modules:

- `types.dfy`, module `Types`: bytes as bit patterns 0..255 and the AVR's
  16-bit `int`.
- `bits.dfy`, module `Bits`: C's `|`, `&`, `<<` and `>>` on non-negative
  integers, defined bit by bit, with the facts about them the driver needs.
- `bcd.dfy`, module `Bcd`: `int2bcd` and the stamped digit characters.
- `address_map.dfy`, module `AddressMap`: the device address (0xD0 for
  writing, 0xD1 for reading) and the register map.
- `i2c.dfy`, module `I2c`: bus events, the two transaction shapes, a parser
  that splits a trace back into transactions, and the chip's reaction to each
  event.
- `ds1339b.dfy`, module `Ds1339b`: class `Rtc`, which holds the driver's
  globals and implements its functions as methods.
- `scenarios.dfy`, module `Scenarios`: whole-driver runs on a fresh `Rtc`.

Modelling decisions:

- **Chip.** The chip follows the reading and writing steps in the header's
  comments. A start or restart makes it wait for a device address. 0xD0 makes
  the next byte the register pointer, and any later bytes are stored at that
  pointer. 0xD1 makes a read return the register at the pointer. A register the
  chip does not hold reads as 0xFF, as on a bus nobody drives.
- **Bytes.** A byte is its bit pattern, an integer 0..255; so is the signed
  `char` that `int2bcd` returns. `int2bcd` exists in two forms:
  `Int2BcdAsWritten` is the C expression with its bit operators, and `Int2Bcd`
  works the bit operators out as arithmetic. The lemma `Int2BcdIsAsWritten`
  proves the two equal, and the driver uses `Int2Bcd`.
- **Truncation.** Every read function keeps only three bits of the tens nibble,
  `(b & 0x70) >> 4`. So a value from 80 to 99 reads back 80 lower: 85 reads as
  05. The model states this behaviour as the code has it.

## Model

| member | source | states |
|---|---|---|
| `Bcd.Int2BcdIsAsWritten` | DS1339B.h:458-471 | the C expression `(0x30 << 4) \| input` / `((input/10) << 4) \| (input%10)`, taken as the bit pattern of the `char` it is stored in, equals the arithmetic form for every 16-bit input |
| `Bcd.Int2BcdAsWritten` | DS1339B.h:458-471 | `(0x30 << 4) \| input` below 10 and `((input/10) << 4) \| (input % 10)` otherwise, as the bit pattern of the `char`, with no range check: the low byte of `input` below 10 (the `0x300` is cut away) and the low byte of `16*(input/10) + input%10` from 10 on |
| `Bcd.Int2Bcd` | DS1339B.h:458-471 | the same with the bit operators worked out as arithmetic, the form the setpoint writes put on the bus; on 0..99 it is `16*(v/10) + v%10`, with the tens digit as high nibble and the ones digit as low nibble; equal to `Int2BcdAsWritten` by `Int2BcdIsAsWritten` |
| `Bcd.Int2BcdNibbles` | DS1339B.h:466-469 | for 10..99 the high nibble is `v/10` and the low nibble is `v%10` |
| `Bcd.Int2BcdSingleDigit` | DS1339B.h:462-465 | for 0..9 the `0x300` of `(0x30 << 4) \| input` lies above the `char`'s eight bits, so the literal C expression stores exactly `v` |
| `Bcd.TensDigit` | DS1339B.h:250 | `(b & 0x70) >> 4` is `(b/16) % 8`: three bits of the high nibble |
| `Bcd.OnesDigit` | DS1339B.h:249 | `b & 0x0F` is `b % 16` |
| `Bcd.TensChar` | DS1339B.h:250 | the stamped tens character is `'0' + (b/16) % 8`, always in `'0'..'7'` |
| `Bcd.OnesChar` | DS1339B.h:249 | the stamped ones character is `'0' + b % 16`, always in `'0'..'?'` |
| `Bcd.PairValue` | DS1339B.h:207 | `10*(hi-48) + (lo-48)` on two digits is the two-digit number 0..99 with `hi` as its tens and `lo` as its ones |
| `Bcd.ToChar8` | DS1339B.h:201-203 | the signed 8-bit `char` result is in -128..127, is congruent to its input mod 256, and equals an input already in range |
| `Bcd.StampedDigits` | DS1339B.h:282-283 | stamping `int2bcd(v)` for 0..99 gives digit characters `'0' + (v/10) % 8` and `'0' + v%10` |
| `Bcd.StampRoundTrip` | DS1339B.h:205-208 | reading back a stamped `int2bcd(v)` gives `v` for 0..79 and `v - 80` for 80..99 |
| `Bcd.EightyFiveReadsAsFive` | DS1339B.h:468 | 85 is written as 0x85, stamped as "05" and read back as 5 |
| `I2c.Events` | DS1339B.h:36-60 | every transaction opens with start, device write address and register address, and closes with stop |
| `I2c.ParseFirstEvents` | DS1339B.h:36-60 | the events of a read or a write are recognised as that transaction whatever follows them |
| `I2c.ParseSerialize` | DS1339B.h:36-60 | any series of reads and writes can be recovered exactly from its bus trace |
| `I2c.SerializeParse` | DS1339B.h:36-60 | a trace that parses is exactly the events of the transactions it parses to |
| `I2c.SerializeAppend` | DS1339B.h:364-369 | the trace of two series run one after the other is the two traces concatenated |
| `I2c.StoredAppend` | DS1339B.h:364-369 | the registers after two series of writes are those of the second applied after the first |
| `Ds1339b.Rtc.constructor` | DS1339B.h:134-150 | at reset the buffers are zeroed, `New_time_date` is "215000150514", `temp_time` is 0 and the bus is empty |
| `Ds1339b.Rtc.I2cStart` | DS1339B.h:164-169 | appends `Start` to the trace and moves the chip to waiting for an address |
| `Ds1339b.Rtc.I2cStop` | DS1339B.h:172-177 | appends `Stop` to the trace and puts the chip back to idle |
| `Ds1339b.Rtc.I2cRead` | DS1339B.h:180-187 | appends `Read` to the trace and returns the byte the chip puts on the bus |
| `Ds1339b.Rtc.I2cWrite` | DS1339B.h:190-195 | appends `Write(data)` to the trace and steps the chip with the byte |
| `Ds1339b.Rtc.ReadRegister` | DS1339B.h:241-247 | emits `[Start, Write(0xD0), Write(reg), Start, Write(0xD1), Read, Stop]` and returns the chip's register `reg`, whatever state the chip was in |
| `Ds1339b.Rtc.WriteRegister` | DS1339B.h:378-385 | emits `[Start, Write(0xD0), Write(reg), Write(value), Stop]` and stores `value` in register `reg` |
| `Ds1339b.Rtc.RtcSec` | DS1339B.h:238-252 | reads register 0x00; sets `time[5]=':'` and `time[6..7]` to the stamped digits; every other entry of `time` and all of `date` unchanged |
| `Ds1339b.Rtc.RtcMin` | DS1339B.h:255-269 | reads register 0x01; sets `time[2]=':'` and `time[3..4]`; everything else unchanged |
| `Ds1339b.Rtc.RtcHr` | DS1339B.h:272-285 | reads register 0x02; sets `time[0..1]`; everything else unchanged |
| `Ds1339b.Rtc.RtcDay` | DS1339B.h:288-291 | returns 0, with no bus traffic and no change to any buffer |
| `Ds1339b.Rtc.TimeUpdate` | DS1339B.h:294-300 | trace is the seconds, minutes, hours reads in that order; `time[..8]` is the rendering `hh:mm:ss` of the three bytes, with ':' at 2 and 5 whatever the bytes; `temp_time` is the hours byte |
| `Ds1339b.Rtc.RtcYY` | DS1339B.h:313-327 | reads register 0x06; sets `date[5]='/'` and `date[6..7]`; everything else unchanged |
| `Ds1339b.Rtc.RtcMM` | DS1339B.h:330-344 | reads register 0x05; sets `date[2]='/'` and `date[3..4]`; everything else unchanged |
| `Ds1339b.Rtc.RtcDD` | DS1339B.h:347-360 | reads register 0x04; sets `date[0..1]`; everything else unchanged |
| `Ds1339b.Rtc.DateUpdate` | DS1339B.h:305-311 | trace is the date, month, year reads in that order; `date[..8]` is `DD/MM/YY` with '/' at 2 and 5 whatever the bytes; `temp_time` is the year byte |
| `Ds1339b.Rtc.SetTime` | DS1339B.h:412-453 | writes `int2bcd` of setpoint offsets 4, 2, 0 to seconds, minutes, hours in that order; `temp_time` is the hour |
| `Ds1339b.Rtc.SetDate` | DS1339B.h:371-410 | writes `int2bcd` of setpoint offsets 6, 8, 10 to date, month, year in that order; `temp_time` is the year |
| `Ds1339b.Rtc.SetRtc` | DS1339B.h:364-369 | six register writes, time fields before date fields, and the chip's registers updated accordingly |
| `Ds1339b.Rtc.GiveMeNumber` | DS1339B.h:201-234 | selectors h, m, s read `time` at 0, 3, 6 and D, M, Y read `date` at 0, 3, 6 (the digit there and the next one); any other selector gives 0 |
| `Ds1339b.SetpointField` | DS1339B.h:423-425 | a two-digit setpoint field is 0..99 with the two characters as its digits |
| `Ds1339b.SetpointRegisters` | DS1339B.h:364-453 | after the setpoint, each of the six registers holds `int2bcd` of its field and every other register is unchanged |
| `Ds1339b.StampedSetpointField` | DS1339B.h:426 | a setpoint field written and stamped back gives its ones character unchanged and its tens character cut to three bits |
| `Ds1339b.Mask3Keeps` | DS1339B.h:250 | a tens digit survives the three-bit cut exactly when it is at most 7 |
| `Ds1339b.SetpointReadBack` | DS1339B.h:364-453 | rendering the written registers shows the setpoint's digits with tens cut to three bits |
| `Ds1339b.DefaultSetpointWrites` | DS1339B.h:144 | "215000150514" writes 0x00, 0x50, 0x21 to seconds, minutes, hours and 0x15, 0x05, 0x14 to date, month, year |
| `Scenarios.ReadTimeScenario` | DS1339B.h:294-300 | registers hours 0x21, minutes 0x50, seconds 0x00 render as "21:50:00", read as seconds, minutes, hours |
| `Scenarios.ReadDateScenario` | DS1339B.h:305-311 | registers date 0x15, month 0x05, year 0x14 render as "15/05/14" |
| `Scenarios.HourReadBack` | DS1339B.h:272-285 | `give_me_number('h')` after `RTC_hr` on `int2bcd(v)` gives `v` below 80 and `v - 80` from 80 on |
| `Scenarios.YearReadBack` | DS1339B.h:313-327 | the same through `RTC_YY` and `give_me_number('Y')` |
| `Scenarios.DefaultSetpointScenario` | DS1339B.h:364-453 | the compiled-in setpoint parses back from the trace as the six writes in order |
| `Scenarios.SetThenRead` | DS1339B.h:364-453 | writing any setpoint and refreshing both buffers shows its digits, tens cut to three bits |

## Left out

- `i2c_init` (DS1339B.h:155-161) only configures the bus controller, so it has no behaviour to model.
- The hardware registers `TWCR`, `TWSR`, `TWBR` and `TWDR` are not modelled. Nor are the busy-wait loops on `TWINT` or the `_delay_ms` calls, because their behaviour depends on the hardware. The primitives are modelled as trace events, so the model does not capture the unbounded hang on a stuck bus.
- Acknowledgement bits are not modelled. The driver never inspects them.
- The chip's own clock is not modelled: its registers change only through writes. So the model does not capture the non-atomic snapshot across the three reads of a refresh; it states only their order.
- The chip's automatic increment of the register pointer is not modelled. The driver re-addresses the register before every access, so it never depends on the increment.
- `Ds1339b.Rtc.SetTime`: requires `New_time_date` to be twelve ASCII digits. The C code runs `atoi` on a two-character array with no terminator, which is undefined behaviour. The model uses the intended two-digit parse `10*d0 + d1`.
- `Ds1339b.Rtc.SetDate`: the same digit requirement and the same two-digit parse in place of `atoi`.
- `Ds1339b.Rtc.SetRtc`: the same digit requirement, since it calls `set_Time` and `set_Date`.
- `LAN_Packet`, `byte_count` and the LCD includes (DS1339B.h:26-31, 142-143) are not modelled. They are unused, or belong to the display and network code.
- Concurrent readers of `time` and `date` are not modelled, because the driver is single-threaded.
- The `time` and `date` buffers hold Dafny characters, and `give_me_number` reads each one by its code. The driver only ever writes `'0'`..`'?'`, `':'` and `'/'`; the model does not cover a character above 127, which a signed C `char` would read as negative.
- The read functions return the raw byte (0..255) rather than a C `int`. `i2c_read` takes its value from the 8-bit data register, so no information is lost.
- `Bcd.Int2Bcd`: returns the bit pattern 0..255 of int2bcd's signed `char`, not its value (int2bcd(85) is -123 as a C value, 0x85 as a pattern). Its only callers (DS1339B.h:384, 396, 408, 426, 438, 450) pass the result to `i2c_write`, which puts that pattern on the bus.
- `Bcd.Int2BcdAsWritten`: for inputs of 20480 and above, `(input/10) << 4` overflows the 16-bit `int`, which is undefined behaviour in C. The model shifts without bound, which gives the same low byte as avr-gcc's wrap-around.
