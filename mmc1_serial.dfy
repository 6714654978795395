/** The serial port of mapper 1 (cartridge/mappers/mapper1.rs) in
    arithmetic terms: the register file that CPU writes to $8000-$FFFF
    change, one write as a function of the registers, runs of writes, and
    the five-write protocol that loads one 5-bit register. */
module Mmc1Serial {
  import opened Bits

  /** The registers a CPU write to $8000-$FFFF can change. */
  datatype BankRegisters = BankRegisters(
    shift: u8,
    control: u8,
    chr0: u8,
    chr1: u8,
    prgBank: u8,
    prgRamEnable: bool)

  /** Value of the shift register after a reset: the 1 in bit 4 travels
      down one place per write and marks the register full when it reaches
      bit 0. */
  const ShiftReset: u8 := 0x10

  /** Loads a committed 5-bit value into the register the address selects. */
  function Commit(regs: BankRegisters, address: u16, value: nat): (r: BankRegisters)
    requires 0x8000 <= address && value < 0x20
    ensures r.shift == regs.shift
    ensures r.control == (if address <= 0x9FFF then value else regs.control)
    ensures r.chr0 == (if 0xA000 <= address <= 0xBFFF then value else regs.chr0)
    ensures r.chr1 == (if 0xC000 <= address <= 0xDFFF then value else regs.chr1)
    ensures 0xE000 <= address ==>
              r.prgBank < 0x10 && r.prgBank + (if r.prgRamEnable then 0 else 0x10) == value
    ensures address < 0xE000 ==> r.prgBank == regs.prgBank && r.prgRamEnable == regs.prgRamEnable
  {
    if address <= 0x9FFF then regs.(control := value)
    else if address <= 0xBFFF then regs.(chr0 := value)
    else if address <= 0xDFFF then regs.(chr1 := value)
    else regs.(prgBank := value % 0x10, prgRamEnable := value < 0x10)
  }

  /** One CPU write to $8000-$FFFF in arithmetic terms: bit 7 resets the
      shift register; otherwise bit 0 of the data enters at bit 4 and, when
      the register was full, the five collected bits are committed and the
      shift register is reset. */
  function SerialPortWrite(regs: BankRegisters, address: u16, data: u8): (r: BankRegisters)
    requires 0x8000 <= address
    ensures data >= 0x80 ==> r == regs.(shift := ShiftReset)
    ensures data < 0x80 && regs.shift <= 0x1F && regs.shift % 2 == 0 ==>
              r == regs.(shift := regs.shift / 2 + 0x10 * (data % 2))
    ensures data < 0x80 && regs.shift <= 0x1F && regs.shift % 2 == 1 ==>
              r == Commit(regs.(shift := ShiftReset), address, regs.shift / 2 + 0x10 * (data % 2))
  {
    if data >= 0x80 then regs.(shift := ShiftReset)
    else
      var shifted := Or(regs.shift / 2, 0x10 * (data % 2));
      ShiftInSum(regs.shift, data);
      if regs.shift % 2 == 1 then Commit(regs.(shift := ShiftReset), address, shifted % 0x20)
      else regs.(shift := shifted)
  }

  /** Within five bits, shifting right and ORing the data bit into bit 4
      adds it: the value stays within five bits. */
  lemma ShiftInSum(shift: u8, data: u8)
    ensures shift <= 0x1F ==>
              Or(shift / 2, 0x10 * (data % 2)) == shift / 2 + 0x10 * (data % 2) < 0x20
    ensures shift <= 0x1F ==>
              (shift / 2 + 0x10 * (data % 2)) % 0x20 == shift / 2 + 0x10 * (data % 2)
  {
    if shift <= 0x1F {
      OrBelowBit4(shift / 2, data % 2);
    }
  }

  /** A CPU write to the serial port: where and what. */
  datatype PortWrite = PortWrite(address: u16, data: u8)

  predicate ToSerialPort(ws: seq<PortWrite>)
  {
    forall i :: 0 <= i < |ws| ==> 0x8000 <= ws[i].address && ws[i].data < 0x80
  }

  /** The registers after a sequence of serial-port writes, oldest first. */
  function RunWrites(regs: BankRegisters, ws: seq<PortWrite>): (r: BankRegisters)
    requires forall i :: 0 <= i < |ws| ==> 0x8000 <= ws[i].address
    ensures 1 <= regs.shift <= 0x1F ==> 1 <= r.shift <= 0x1F
    ensures |ws| > 0 && ws[|ws| - 1].data >= 0x80 ==> r.shift == ShiftReset
  {
    if |ws| == 0 then regs
    else SerialPortWrite(RunWrites(regs, ws[..|ws| - 1]), ws[|ws| - 1].address, ws[|ws| - 1].data)
  }

  /** The number formed by the low bits of the writes, the first write
      giving the least significant bit. */
  function SerialValue(ws: seq<PortWrite>): (r: nat)
    ensures r < Pow2(|ws|)
  {
    if |ws| == 0 then 0
    else SerialValue(ws[..|ws| - 1]) + (if ws[|ws| - 1].data % 2 == 1 then Pow2(|ws| - 1) else 0)
  }

  /** 0x10 is bit 4. */
  lemma Bit4()
    ensures Pow2(4) == 0x10
  {
  }

  /** The shift register after `k` data writes since a reset have
      collected the value `v`: the sentinel at bit 4 - k with `v` above it
      (spelled out per `k`; `PendingLayout` states the layout). */
  function Pending(k: nat, v: nat): (r: nat)
    requires k <= 4 && v < Pow2(k)
    ensures 1 <= r < 0x20
  {
    if k == 0 then 0x10
    else if k == 1 then 8 + 0x10 * v
    else if k == 2 then
      assert Pow2(2) == 4;
      4 + 8 * v
    else if k == 3 then
      assert Pow2(3) == 8 by { Pow2Table(); }
      2 + 4 * v
    else
      assert Pow2(4) == 0x10 by { Pow2Table(); }
      1 + 2 * v
  }

  /** Between commits the shift register holds the sentinel bit and at most
      four data bits: it never leaves 1..0x1F. */
  lemma ShiftStaysInRange(regs: BankRegisters, address: u16, data: u8)
    requires 0x8000 <= address && 1 <= regs.shift <= 0x1F
    ensures 1 <= SerialPortWrite(regs, address, data).shift <= 0x1F
  {
    if data < 0x80 {
      OrBelowBit4(regs.shift / 2, data % 2);
    }
  }

  /** The sentinel bit `Pow2(4 - k)`, with `v` in the bits above it. */
  lemma PendingLayout(k: nat, v: nat)
    requires k <= 4 && v < Pow2(k)
    ensures Pending(k, v) == Pow2(4 - k) * (1 + 2 * v)
  {
    if k == 0 {
      assert Pow2(4 - k) == 0x10 by { Pow2Table(); }
    } else if k == 1 {
      assert Pow2(4 - k) == 8 by { Pow2Table(); }
    } else if k == 2 {
      assert Pow2(4 - k) == 4;
    }
  }

  /** One data write moves the sentinel from bit 5 - n to bit 4 - n and
      adds the n-th collected bit above it: `v` becomes `s`. */
  lemma SentinelStep(n: nat, v: nat, s: nat, bit: nat)
    requires 1 <= n <= 4 && v < Pow2(n - 1) && bit <= 1
    requires s == v + (if bit == 1 then Pow2(n - 1) else 0)
    ensures s < Pow2(n)
    ensures Pending(n - 1, v) % 2 == 0 && Pending(n - 1, v) / 2 < 0x10
    ensures Pending(n - 1, v) / 2 + 0x10 * bit == Pending(n, s)
  {
    if n == 1 {
      assert Pow2(n - 1) == 1 && Pow2(n) == 2;
    } else if n == 2 {
      assert Pow2(n - 1) == 2 && Pow2(n) == 4;
    } else if n == 3 {
      assert Pow2(n - 1) == 4 && Pow2(n) == 8 by { Pow2Table(); }
    } else {
      assert Pow2(n - 1) == 8 && Pow2(n) == 0x10 by { Pow2Table(); }
    }
  }

  /** The n-th data write after a reset (n <= 4) moves the sentinel down
      and adds the written bit as bit n - 1 of the collected value; nothing
      else changes. */
  lemma PartialStep(regs: BankRegisters, ws: seq<PortWrite>)
    requires 1 <= |ws| <= 4 && ToSerialPort(ws)
    ensures SerialPortWrite(regs.(shift := Pending(|ws| - 1, SerialValue(ws[..|ws| - 1]))),
                            ws[|ws| - 1].address, ws[|ws| - 1].data)
         == regs.(shift := Pending(|ws|, SerialValue(ws)))
  {
    var w := ws[|ws| - 1];
    var low := Pending(|ws| - 1, SerialValue(ws[..|ws| - 1]));
    NextPending(ws);
    ShiftWithoutSentinel(regs.(shift := low), w.address, w.data);
  }

  /** The shift register before and after the last of `ws`, in terms of the
      values the writes before it and all of them collect. */
  lemma NextPending(ws: seq<PortWrite>)
    requires 1 <= |ws| <= 4 && ToSerialPort(ws)
    ensures 0x8000 <= ws[|ws| - 1].address && ws[|ws| - 1].data < 0x80
    ensures var low := Pending(|ws| - 1, SerialValue(ws[..|ws| - 1]));
            low % 2 == 0 && Or(low / 2, 0x10 * (ws[|ws| - 1].data % 2)) == Pending(|ws|, SerialValue(ws))
  {
    var n, v, w := |ws|, SerialValue(ws[..|ws| - 1]), ws[|ws| - 1];
    assert SerialValue(ws) == v + (if w.data % 2 == 1 then Pow2(n - 1) else 0);
    PendingShift(n, v, SerialValue(ws), w.data % 2);
  }

  /** The shift register's side of one data write before the fifth. */
  lemma PendingShift(n: nat, v: nat, s: nat, bit: nat)
    requires 1 <= n <= 4 && v < Pow2(n - 1) && bit <= 1
    requires s == v + (if bit == 1 then Pow2(n - 1) else 0)
    ensures s < Pow2(n)
    ensures Pending(n - 1, v) % 2 == 0
    ensures Or(Pending(n - 1, v) / 2, 0x10 * bit) == Pending(n, s)
  {
    SentinelStep(n, v, s, bit);
    OrBelowBit4(Pending(n - 1, v) / 2, bit);
  }

  /** A data write that does not find the sentinel in bit 0 only shifts. */
  lemma ShiftWithoutSentinel(regs: BankRegisters, address: u16, data: u8)
    requires 0x8000 <= address && data < 0x80 && regs.shift % 2 == 0
    ensures Or(regs.shift / 2, 0x10 * (data % 2)) <= 0xFF
    ensures SerialPortWrite(regs, address, data) == regs.(shift := Or(regs.shift / 2, 0x10 * (data % 2)))
  {
  }

  /** After k <= 4 data writes from a reset shift register, the sentinel
      sits at bit 4 - k with the k collected bits above it, and no other
      register has changed. */
  lemma {:induction false} PartialSerial(regs: BankRegisters, ws: seq<PortWrite>)
    requires regs.shift == ShiftReset && |ws| <= 4 && ToSerialPort(ws)
    ensures RunWrites(regs, ws) == regs.(shift := Pending(|ws|, SerialValue(ws)))
  {
    if |ws| == 0 {
      Bit4();
      assert Pending(0, 0) == ShiftReset;
      assert regs.(shift := ShiftReset) == regs;
    } else {
      var n := |ws|;
      var init := ws[..n - 1];
      assert ToSerialPort(init);
      PartialSerial(regs, init);
      PartialStep(regs, ws);
    }
  }

  /** The serial protocol: five writes without bit 7, starting from a reset
      shift register, commit the five low bits (first write lowest) into the
      register that the fifth write's address selects, and leave the shift
      register reset. */
  lemma SerialCommit(regs: BankRegisters, ws: seq<PortWrite>)
    requires regs.shift == ShiftReset && |ws| == 5 && ToSerialPort(ws)
    ensures SerialValue(ws) == ws[0].data % 2 + 2 * (ws[1].data % 2) + 4 * (ws[2].data % 2)
                             + 8 * (ws[3].data % 2) + 16 * (ws[4].data % 2)
    ensures RunWrites(regs, ws) == Commit(regs.(shift := ShiftReset), ws[4].address, SerialValue(ws))
  {
    SerialValueBits(ws);
    FiveWrites(regs, ws);
  }

  /** The run of five writes is the partial run of four, then the fifth. */
  lemma FiveWrites(regs: BankRegisters, ws: seq<PortWrite>)
    requires regs.shift == ShiftReset && |ws| == 5 && ToSerialPort(ws)
    ensures RunWrites(regs, ws) == Commit(regs.(shift := ShiftReset), ws[4].address, SerialValue(ws))
  {
    FiveWritesCommit(regs, ws);
    FifthBit(ws);
  }

  /** Five writes commit the four collected bits with the fifth write's bit
      on top. */
  lemma FiveWritesCommit(regs: BankRegisters, ws: seq<PortWrite>)
    requires regs.shift == ShiftReset && |ws| == 5 && ToSerialPort(ws)
    ensures SerialValue(ws[..4]) + 0x10 * (ws[4].data % 2) < 0x20
    ensures RunWrites(regs, ws)
         == Commit(regs.(shift := ShiftReset), ws[4].address, SerialValue(ws[..4]) + 0x10 * (ws[4].data % 2))
  {
    var init, last := ws[..4], ws[4];
    assert ToSerialPort(init);
    RunWritesLast(regs, ws);
    FourThenFifth(regs, init, last);
  }

  /** Four partial writes and then the fifth. */
  lemma FourThenFifth(regs: BankRegisters, init: seq<PortWrite>, last: PortWrite)
    requires regs.shift == ShiftReset && |init| == 4 && ToSerialPort(init)
    requires 0x8000 <= last.address && last.data < 0x80
    ensures SerialValue(init) + 0x10 * (last.data % 2) < 0x20
    ensures SerialPortWrite(RunWrites(regs, init), last.address, last.data)
         == Commit(regs.(shift := ShiftReset), last.address, SerialValue(init) + 0x10 * (last.data % 2))
  {
    PartialSerial(regs, init);
    FifthWrite(regs, SerialValue(init), last);
  }

  /** The fifth write's bit 0 is bit 4 of the collected value. */
  lemma FifthBit(ws: seq<PortWrite>)
    requires |ws| == 5
    ensures SerialValue(ws) == SerialValue(ws[..4]) + 0x10 * (ws[4].data % 2)
  {
    SerialValueLast(ws);
    Bit4();
  }

  /** The last write of a run comes after the run of the others. */
  lemma RunWritesLast(regs: BankRegisters, ws: seq<PortWrite>)
    requires 1 <= |ws| && forall i :: 0 <= i < |ws| ==> 0x8000 <= ws[i].address
    ensures RunWrites(regs, ws)
         == SerialPortWrite(RunWrites(regs, ws[..|ws| - 1]), ws[|ws| - 1].address, ws[|ws| - 1].data)
  {
  }

  /** The last write's bit 0 is the top bit of the collected value. */
  lemma SerialValueLast(ws: seq<PortWrite>)
    requires 1 <= |ws|
    ensures SerialValue(ws)
         == SerialValue(ws[..|ws| - 1]) + (if ws[|ws| - 1].data % 2 == 1 then Pow2(|ws| - 1) else 0)
  {
  }

  /** The fifth data write finds the sentinel in bit 0 and commits the four
      collected bits with its own bit on top; the other registers are the
      ones before the load. */
  lemma FifthWrite(regs: BankRegisters, v: nat, w: PortWrite)
    requires v < Pow2(4) && 0x8000 <= w.address && w.data < 0x80
    ensures v + 0x10 * (w.data % 2) < 0x20
    ensures SerialPortWrite(regs.(shift := Pending(4, v)), w.address, w.data)
         == Commit(regs.(shift := ShiftReset), w.address, v + 0x10 * (w.data % 2))
  {
    var before := regs.(shift := Pending(4, v));
    assert Pow2(0) == 1;
    Bit4();
    assert before.shift / 2 == v && before.shift % 2 == 1;
    OrBelowBit4(v, w.data % 2);
    var shifted := Or(before.shift / 2, 0x10 * (w.data % 2));
    assert shifted == v + 0x10 * (w.data % 2) && shifted < 0x20;
    assert shifted % 0x20 == shifted by {
      DivModUnique(shifted, 0x20, 0, shifted);
    }
    assert before.(shift := ShiftReset) == regs.(shift := ShiftReset);
    assert SerialPortWrite(before, w.address, w.data)
        == Commit(regs.(shift := ShiftReset), w.address, shifted % 0x20);
  }

  /** `SerialValue` spelled out for five writes. */
  lemma SerialValueBits(ws: seq<PortWrite>)
    requires |ws| == 5
    ensures SerialValue(ws) == ws[0].data % 2 + 2 * (ws[1].data % 2) + 4 * (ws[2].data % 2)
                             + 8 * (ws[3].data % 2) + 16 * (ws[4].data % 2)
  {
    Pow2Table();
    assert ws[..4][..3] == ws[..3] && ws[..3][..2] == ws[..2] && ws[..2][..1] == ws[..1];
    assert ws[..1][..0] == [];
    assert SerialValue(ws[..1]) == ws[0].data % 2;
    assert SerialValue(ws[..2]) == SerialValue(ws[..1]) + 2 * (ws[1].data % 2);
    assert SerialValue(ws[..3]) == SerialValue(ws[..2]) + 4 * (ws[2].data % 2);
    assert SerialValue(ws[..4]) == SerialValue(ws[..3]) + 8 * (ws[3].data % 2);
    assert ws[..|ws| - 1] == ws[..4];
  }

  /** A write with bit 7 set resynchronises the port from any state: five
      data writes after it commit exactly as from power-up. */
  lemma ResetThenCommit(regs: BankRegisters, reset: PortWrite, ws: seq<PortWrite>)
    requires 0x8000 <= reset.address && reset.data >= 0x80
    requires |ws| == 5 && ToSerialPort(ws)
    ensures RunWrites(regs, [reset] + ws)
         == Commit(regs.(shift := ShiftReset), ws[4].address, SerialValue(ws))
  {
    var after := RunWrites(regs, [reset]);
    assert [reset][..0] == [];
    assert RunWrites(regs, [reset][..0]) == regs;
    assert after == SerialPortWrite(regs, reset.address, reset.data);
    SerialCommit(after, ws);
    RunWritesAppend(regs, [reset], ws);
  }

  lemma {:induction false} RunWritesAppend(regs: BankRegisters, us: seq<PortWrite>, ws: seq<PortWrite>)
    requires forall i :: 0 <= i < |us| ==> 0x8000 <= us[i].address
    requires forall i :: 0 <= i < |ws| ==> 0x8000 <= ws[i].address
    ensures RunWrites(regs, us + ws) == RunWrites(RunWrites(regs, us), ws)
  {
    if |ws| == 0 {
      assert us + ws == us;
    } else {
      var init, last := ws[..|ws| - 1], ws[|ws| - 1];
      assert ws == init + [last];
      assert us + ws == (us + init) + [last];
      RunWritesAppend(regs, us, init);
      RunWritesSnoc(regs, us + init, last);
      RunWritesSnoc(RunWrites(regs, us), init, last);
    }
  }

  /** One more write after a run. */
  lemma RunWritesSnoc(regs: BankRegisters, ws: seq<PortWrite>, w: PortWrite)
    requires forall i :: 0 <= i < |ws| ==> 0x8000 <= ws[i].address
    requires 0x8000 <= w.address
    ensures RunWrites(regs, ws + [w]) == SerialPortWrite(RunWrites(regs, ws), w.address, w.data)
  {
    assert (ws + [w])[..|ws|] == ws;
  }

  /** A commit never reads the shift register, so resetting it before or
      after the commit is the same. */
  lemma CommitIgnoresShift(regs: BankRegisters, s: u8, address: u16, value: nat)
    requires 0x8000 <= address && value < 0x20
    ensures Commit(regs.(shift := s), address, value).(shift := ShiftReset)
         == Commit(regs.(shift := ShiftReset), address, value)
  {
  }

  /** The serial example: from a reset shift register, five writes of
      1, 0, 1, 0, 0 to $A000 load CHR 0 with 0b00101 and nothing else; a
      further write with bit 7 set only resets the shift register. */
  lemma SerialExample(regs: BankRegisters)
    requires regs.shift == ShiftReset
    ensures var ws := [PortWrite(0xA000, 1), PortWrite(0xA000, 0), PortWrite(0xA000, 1),
                       PortWrite(0xA000, 0), PortWrite(0xA000, 0)];
            var loaded := RunWrites(regs, ws);
            loaded == regs.(chr0 := 5)
            && SerialPortWrite(loaded, 0xA000, 0x80) == regs.(chr0 := 5)
  {
    var ws := [PortWrite(0xA000, 1), PortWrite(0xA000, 0), PortWrite(0xA000, 1),
               PortWrite(0xA000, 0), PortWrite(0xA000, 0)];
    LoadsChr0(regs, ws);
  }

  /** Five writes to $A000 whose bits read 0b00101 load CHR 0 with 5. */
  lemma LoadsChr0(regs: BankRegisters, ws: seq<PortWrite>)
    requires regs.shift == ShiftReset && |ws| == 5
    requires forall i :: 0 <= i < 5 ==> ws[i].address == 0xA000
    requires ws[0].data == 1 && ws[1].data == 0 && ws[2].data == 1
    requires ws[3].data == 0 && ws[4].data == 0
    ensures RunWrites(regs, ws) == regs.(chr0 := 5)
  {
    assert regs.(shift := ShiftReset) == regs;
    SerialCommit(regs, ws);
  }
}
