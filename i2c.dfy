/** The two-wire bus as the driver uses it: the four primitives leave a trace of
    events; an addressed read and a register write are fixed event sequences;
    and the clock chip reacts to the events one at a time. */
module I2c {
  import opened Types
  import opened AddressMap

  /** What one call of `i2c_start`, `i2c_stop`, `i2c_write` or `i2c_read` puts
      on the bus. A restart is a second `Start` inside a transaction. */
  datatype BusEvent = Start | Stop | Write(data: Byte) | Read

  /** The two transactions the driver performs. */
  datatype Transaction = RegisterRead(reg: Byte) | RegisterWrite(reg: Byte, value: Byte)

  datatype Option<T> = None | Some(value: T)

  /** Reading steps: start, device address with write bit, register address,
      restart, device address with read bit, read the data byte, stop.
      Writing steps: start, device address with write bit, register address,
      data byte, stop. */
  function Events(t: Transaction): (es: seq<BusEvent>)
    ensures |es| >= 5 && es[0] == Start && es[|es| - 1] == Stop
    ensures es[1] == Write(SlaveAddWrite) && es[2] == Write(t.reg)
  {
    match t
    case RegisterRead(reg) =>
      [Start, Write(SlaveAddWrite), Write(reg), Start, Write(SlaveAddRead), Read, Stop]
    case RegisterWrite(reg, value) =>
      [Start, Write(SlaveAddWrite), Write(reg), Write(value), Stop]
  }

  /** The events of a series of transactions, back to back. */
  function Serialize(ts: seq<Transaction>): seq<BusEvent>
  {
    if ts == [] then [] else Events(ts[0]) + Serialize(ts[1..])
  }

  /** Recognises the transaction at the head of a trace. */
  function ParseFirst(tr: seq<BusEvent>): (r: Option<Transaction>)
    ensures r.Some? ==> |Events(r.value)| <= |tr| && tr[..|Events(r.value)|] == Events(r.value)
  {
    if |tr| >= 5 && tr[0] == Start && tr[1] == Write(SlaveAddWrite) && tr[2].Write? then
      if tr[3].Write? && tr[4] == Stop then
        Some(RegisterWrite(tr[2].data, tr[3].data))
      else if |tr| >= 7 && tr[3] == Start && tr[4] == Write(SlaveAddRead) && tr[5] == Read && tr[6] == Stop then
        Some(RegisterRead(tr[2].data))
      else None
    else None
  }

  /** Splits a trace into transactions, or `None` when it is not a series of
      well-formed reads and writes. */
  function Parse(tr: seq<BusEvent>): Option<seq<Transaction>>
    decreases |tr|
  {
    if tr == [] then Some([])
    else
      match ParseFirst(tr)
      case None => None
      case Some(t) =>
        match Parse(tr[|Events(t)|..])
        case None => None
        case Some(rest) => Some([t] + rest)
  }

  lemma {:induction false} SerializeAppend(a: seq<Transaction>, b: seq<Transaction>)
    ensures Serialize(a + b) == Serialize(a) + Serialize(b)
  {
    if a == [] {
      assert a + b == b;
    } else {
      assert (a + b)[1..] == a[1..] + b;
      SerializeAppend(a[1..], b);
    }
  }

  lemma SerializeSingle(t: Transaction)
    ensures Serialize([t]) == Events(t)
  {
    assert [t][1..] == [];
  }

  lemma SerializeThree(ts: seq<Transaction>)
    requires |ts| == 3
    ensures Serialize(ts) == Events(ts[0]) + Events(ts[1]) + Events(ts[2])
  {
    assert ts == [ts[0]] + ([ts[1]] + [ts[2]]);
    SerializeAppend([ts[0]], [ts[1]] + [ts[2]]);
    SerializeAppend([ts[1]], [ts[2]]);
    SerializeSingle(ts[0]);
    SerializeSingle(ts[1]);
    SerializeSingle(ts[2]);
  }

  /** The chip's registers after a series of transactions: each write stores
      its value in its register, reads change nothing. */
  function Stored(regs: map<Byte, Byte>, ts: seq<Transaction>): map<Byte, Byte>
    decreases |ts|
  {
    if ts == [] then regs
    else
      var next := match ts[0]
        case RegisterWrite(reg, value) => regs[reg := value]
        case RegisterRead(_) => regs;
      Stored(next, ts[1..])
  }

  lemma {:induction false} StoredAppend(regs: map<Byte, Byte>, a: seq<Transaction>, b: seq<Transaction>)
    ensures Stored(regs, a + b) == Stored(Stored(regs, a), b)
    decreases |a|
  {
    if a == [] {
      assert a + b == b;
    } else {
      assert (a + b)[1..] == a[1..] + b;
      var next := match a[0]
        case RegisterWrite(reg, value) => regs[reg := value]
        case RegisterRead(_) => regs;
      StoredAppend(next, a[1..], b);
    }
  }

  lemma StoredThreeWrites(regs: map<Byte, Byte>, ts: seq<Transaction>)
    requires |ts| == 3 && ts[0].RegisterWrite? && ts[1].RegisterWrite? && ts[2].RegisterWrite?
    ensures Stored(regs, ts) ==
              regs[ts[0].reg := ts[0].value][ts[1].reg := ts[1].value][ts[2].reg := ts[2].value]
  {
    var r1 := regs[ts[0].reg := ts[0].value];
    var r2 := r1[ts[1].reg := ts[1].value];
    var r3 := r2[ts[2].reg := ts[2].value];
    assert ts[1..][1..][1..] == [];
    assert Stored(r3, []) == r3;
    assert Stored(r2, ts[1..][1..]) == r3;
    assert Stored(r1, ts[1..]) == r3;
  }

  /** A transaction's events are recognised as that transaction, whatever follows. */
  lemma ParseFirstEvents(t: Transaction, rest: seq<BusEvent>)
    ensures ParseFirst(Events(t) + rest) == Some(t)
  {
  }

  /** Every series of transactions can be read back from its trace. */
  lemma {:induction false} ParseSerialize(ts: seq<Transaction>)
    ensures Parse(Serialize(ts)) == Some(ts)
  {
    if ts != [] {
      var tr := Serialize(ts);
      ParseFirstEvents(ts[0], Serialize(ts[1..]));
      assert tr[|Events(ts[0])|..] == Serialize(ts[1..]);
      ParseSerialize(ts[1..]);
      assert [ts[0]] + ts[1..] == ts;
    }
  }

  /** A trace that parses is exactly the events of what it parses to. */
  lemma {:induction false} SerializeParse(tr: seq<BusEvent>)
    ensures Parse(tr).Some? ==> Serialize(Parse(tr).value) == tr
    decreases |tr|
  {
    if tr != [] && Parse(tr).Some? {
      var t := ParseFirst(tr).value;
      var n := |Events(t)|;
      SerializeParse(tr[n..]);
      var ts := Parse(tr).value;
      assert ts[0] == t && ts[1..] == Parse(tr[n..]).value;
      assert tr == tr[..n] + tr[n..];
    }
  }

  /** Where the chip is in the protocol. */
  datatype Phase =
    | Idle           // no transaction addressed to the chip
    | AwaitAddress   // a start or restart was seen
    | AwaitRegister  // addressed for writing; the next byte sets the register pointer
    | Receiving      // further bytes are stored at the register pointer
    | Transmitting   // addressed for reading; a read returns the register at the pointer

  /** The clock chip on the bus: its registers, the register pointer and the
      phase of the current transaction. A register outside `regs` reads as
      0xFF. */
  datatype Chip = Chip(regs: map<Byte, Byte>, pointer: Byte, phase: Phase)
  {
    function Reg(a: Byte): Byte
    {
      if a in regs then regs[a] else 0xFF
    }

    function OnStart(): Chip { this.(phase := AwaitAddress) }

    function OnStop(): Chip { this.(phase := Idle) }

    function OnWrite(b: Byte): Chip
    {
      match phase
      case AwaitAddress =>
        this.(phase := if b == SlaveAddWrite then AwaitRegister
                       else if b == SlaveAddRead then Transmitting
                       else Idle)
      case AwaitRegister => this.(pointer := b, phase := Receiving)
      case Receiving => this.(regs := regs[pointer := b])
      case _ => this
    }

    /** The byte the master latches on a read: the addressed register while the
        chip transmits, otherwise the released line's 0xFF. */
    function Received(): Byte
    {
      if phase == Transmitting then Reg(pointer) else 0xFF
    }
  }
}
