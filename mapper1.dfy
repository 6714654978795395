/** Mapper 1, the serially loaded bank-switching chip
    (cartridge/mappers/mapper1.rs). The CPU loads its four 5-bit registers
    one bit per write through a shift register; the control register picks
    the mirroring and the PRG/CHR banking modes, and the CHR registers also
    carry the PRG-RAM and 512 KiB PRG bits of the larger boards. */
module Mapper1Chip {
  import opened Bits
  import opened Common
  import opened Mmc1Serial

  /** `address & 0x1E`: the low bit dropped, bits 1 to 4 kept. */
  lemma EvenMask(x: nat)
    ensures And(x, 0x1E) == 2 * ((x / 2) % 0x10)
  {
    Pow2Table();
    AndSplit(x, 0x1E, 2, 1);
    ShrDiv(x, 1);
    ShrDiv(0x1E, 1);
    AndLowMask(x / 2, 0xF, 4);
  }

  /** Bits 1-3 of a 4-bit bank number: the even bank at or below it. */
  lemma EvenBankMask(x: nat)
    requires x < 0x10
    ensures And(x, 0x1E) == 2 * (x / 2)
  {
    EvenMask(x);
    DivModUnique(x / 2, 0x10, 0, x / 2);
  }

  /** An even number taken modulo an even count stays even. */
  lemma EvenModEven(b: nat, c: nat)
    requires c > 0 && b % 2 == 0 && c % 2 == 0
    ensures (b % c) % 2 == 0
  {
    var q, k := b / c, c / 2;
    assert b == c * q + b % c;
    assert c * q == 2 * (k * q);
    DivModUnique(b % c, 2, b / 2 - k * q, 0);
  }

  /** The masks and shifts of one serial-port write, in arithmetic terms. */
  lemma SerialMasks(shift: nat, data: nat)
    requires data < 0x100
    ensures (And(data, 0x80) != 0) == (data >= 0x80)
    ensures (And(shift, 1) != 0) == (shift % 2 == 1)
    ensures Shr(shift, 1) == shift / 2
    ensures Shl(And(data, 1), 4) == 0x10 * (data % 2)
  {
    assert Pow2(7) == 0x80 && Pow2(4) == 0x10 && Pow2(1) == 2;
    AndBitZero(data, 0x80, 7);
    AndLowMask(shift, 1, 1);
    ShrDiv(shift, 1);
    AndLowMask(data, 1, 1);
  }

  /** The five collected bits of a commit. */
  lemma FiveBitMask(shifted: nat)
    ensures And(shifted, 0x1F) == shifted % 0x20
  {
    assert Pow2(5) == 0x20;
    AndLowMask(shifted, 0x1F, 5);
  }

  /** The PRG commit keeps the low four bits of the value as the bank and
      takes bit 4 as the PRG-RAM disable. */
  lemma PrgCommitMasks(value: nat)
    requires value < 0x20
    ensures And(value, 0xF) == value % 0x10
    ensures (And(value, 0x10) == 0) == (value < 0x10)
  {
    assert Pow2(4) == 0x10;
    AndLowMask(value, 0xF, 4);
    AndBitZero(value, 0x10, 4);
  }

  /** The two pattern-table masks on an address below $2000. */
  lemma ChrMasks(address: nat)
    requires address <= 0x1FFF
    ensures And(address, 0x1FFF) == address && And(address, 0xFFF) == address % 0x1000
  {
    assert Pow2(12) == 0x1000 && Pow2(13) == 0x2000 by { Pow2Table(); }
    AndLowMask(address, 0x1FFF, 13);
    AndLowMask(address, 0xFFF, 12);
    DivModUnique(address, 0x2000, 0, address);
  }

  /** The two PRG-ROM masks on an address in $8000-$FFFF. */
  lemma PrgMasks(address: nat)
    requires 0x8000 <= address < 0x1_0000
    ensures And(address, 0x7FFF) == address - 0x8000 && And(address, 0x3FFF) == address % 0x4000
  {
    Pow2Table();
    AndLowMask(address, 0x7FFF, 15);
    AndLowMask(address, 0x3FFF, 14);
  }

  /** Where a CPU address lands in a 16 KiB bank, or in a 32 KiB window
      starting at a bank that is not the last. */
  lemma PrgOffset(bank: nat, count: nat, address: nat, wide: bool)
    requires bank < count && 0x8000 <= address < 0x1_0000
    requires wide ==> bank != count - 1
    ensures var o := 0x4000 * bank + (if wide then address - 0x8000 else address % 0x4000);
            o < 0x4000 * count && o % 0x4000 == address % 0x4000
            && o / 0x4000 == bank + (if wide && 0xC000 <= address then 1 else 0)
  {
    var o := 0x4000 * bank + (if wide then address - 0x8000 else address % 0x4000);
    var carry := if wide && 0xC000 <= address then 1 else 0;
    DivModUnique(address, 0x4000, address / 0x4000, address % 0x4000);
    DivModUnique(o, 0x4000, bank + carry, address % 0x4000);
  }

  /** A 4 KiB window (or an 8 KiB one starting at an even bank, when the
      bank count is even) at bank `selected % count` ends inside `count`
      banks. */
  lemma ChrWindowFits(selected: nat, count: nat, wide: bool)
    requires count > 0 && (wide ==> selected % 2 == 0)
    ensures !wide || count % 2 == 0 ==>
              0x1000 * (selected % count) + (if wide then 0x2000 else 0x1000) <= 0x1000 * count
  {
    if wide && count % 2 == 0 {
      EvenModEven(selected, count);
    }
  }

  /** 8 KiB CHR mode: the even bank below CHR 0 (bits 1-4), reduced modulo
      the bank count, with the 13-bit address on top; the window fits when
      the count is even. */
  lemma ChrWideOffset(reg: nat, count: nat, address: nat)
    requires count > 0 && address <= 0x1FFF
    ensures var o := 0x1000 * (And(reg, 0x1E) % count) + And(address, 0x1FFF);
            o == 0x1000 * ((2 * ((reg / 2) % 0x10)) % count) + address
            && (count % 2 == 0 ==> o < 0x1000 * count)
  {
    ChrMasks(address);
    EvenMask(reg);
    ChrWindowFits(And(reg, 0x1E), count, true);
  }

  /** 4 KiB CHR mode: the selected bank reduced modulo the bank count, with
      the offset inside the 4 KiB bank. */
  lemma ChrNarrowOffset(selected: nat, count: nat, address: nat)
    requires count > 0 && address <= 0x1FFF
    ensures var o := 0x1000 * (selected % count) + And(address, 0xFFF);
            o / 0x1000 == selected % count && o % 0x1000 == address % 0x1000
            && o < 0x1000 * count
  {
    ChrMasks(address);
    ChrWindowFits(selected, count, false);
    var bank := selected % count;
    DivModUnique(0x1000 * bank + address % 0x1000, 0x1000, bank, address % 0x1000);
  }

  /** ORing in bit 4 of `reg`: nothing when that bit is clear; when it is
      set, an addition of 0x10 unless `x` already has bit 4. */
  lemma OrBit4(x: nat, reg: nat)
    ensures (reg / 0x10) % 2 == 0 ==> Or(x, And(reg, 0x10)) == x
    ensures (reg / 0x10) % 2 == 1 ==>
              Or(x, And(reg, 0x10)) == x + (if (x / 0x10) % 2 == 0 then 0x10 else 0)
  {
    Pow2Table();
    AndBit(reg, 0x10, 4);
    ShrDiv(reg, 4);
    if (reg / 0x10) % 2 == 1 {
      OrSetsBit(x, 0x10, 4);
    }
  }

  class Mapper1 {
    var shiftRegister: u8
    /** mirroring in bits 0-1, PRG mode in bits 2-3, CHR mode in bit 4 */
    var control: u8
    var chr0Bank: u8
    var chr1Bank: u8
    var prgBank: u8
    var prgRamEnable: bool
    var isChrRam: bool
    /** in 4 KiB units */
    var chrCount: u8
    /** in 16 KiB units */
    var prgCount: u8
    /** in 8 KiB units */
    var prgRamCount: u8

    /** `Mapper1::new`: the power-up control value, everything else cleared. */
    constructor ()
      ensures shiftRegister == ShiftReset && control == 0x0C
      ensures chr0Bank == 0 && chr1Bank == 0 && prgBank == 0 && !prgRamEnable
      ensures !isChrRam && chrCount == 0 && prgCount == 0 && prgRamCount == 0
    {
      shiftRegister, control := ShiftReset, 0x0C;
      chr0Bank, chr1Bank, prgBank, prgRamEnable := 0, 0, 0, false;
      isChrRam, chrCount, prgCount, prgRamCount := false, 0, 0, 0;
    }

    /** Records the cartridge geometry (CHR given in 8 KiB units, kept in
        4 KiB units) and puts the chip in its power-up banking state: the
        last PRG bank selected, 16 KiB mode with the last bank fixed at
        $C000, 4 KiB CHR mode. */
    method Init(prgCount: u8, isChrRam: bool, chrCount: u8, sramCount: u8)
      requires prgCount >= 1 && 2 * chrCount < 0x100
      modifies this
      ensures this.prgCount == prgCount && this.chrCount == 2 * chrCount
      ensures this.isChrRam == isChrRam && prgRamCount == sramCount
      ensures prgBank == prgCount - 1 && control == 0x1C && shiftRegister == ShiftReset
      ensures chr0Bank == old(chr0Bank) && chr1Bank == old(chr1Bank)
      ensures prgRamEnable == old(prgRamEnable)
    {
      this.prgCount := prgCount;
      this.chrCount := chrCount * 2;
      this.isChrRam := isChrRam;
      prgBank := prgCount - 1;
      control := 0x1C;
      prgRamCount := sramCount;
      shiftRegister := ShiftReset;
    }

    function Banking(): BankRegisters
      reads this
    {
      BankRegisters(shiftRegister, control, chr0Bank, chr1Bank, prgBank, prgRamEnable)
    }

    /** Control bits 0-1. */
    function Mirroring(): (r: u8)
      reads this
      ensures r == control % 4
    {
      Pow2Table();
      AndLowMask(control, 3, 2);
      And(control, 3)
    }

    /** The 16 KiB PRG bank register; bit 4 of a PRG commit is not part
        of it. */
    function GetPrgBank(): (r: u8)
      reads this
      ensures r == prgBank % 0x10
    {
      Pow2Table();
      AndLowMask(prgBank, 0xF, 4);
      And(prgBank, 0xF)
    }

    /** Control bit 3 clear: one 32 KiB PRG window. */
    predicate IsPrg32kbMode()
      reads this
      ensures IsPrg32kbMode() <==> (control / 8) % 2 == 0
    {
      Pow2Table();
      AndBitZero(control, 8, 3);
      And(control, 8) == 0
    }

    /** Control bit 2 clear: in 16 KiB mode the first bank sits fixed at
        $8000 and $C000 is switched; set, the last bank sits at $C000. */
    predicate IsFirstPrgChunkFixed()
      reads this
      ensures IsFirstPrgChunkFixed() <==> (control / 4) % 2 == 0
    {
      Pow2Table();
      AndBitZero(control, 4, 2);
      And(control, 4) == 0
    }

    /** Control bit 4 clear: one 8 KiB CHR bank instead of two 4 KiB banks. */
    predicate IsChr8kbMode()
      reads this
      ensures IsChr8kbMode() <==> (control / 0x10) % 2 == 0
    {
      Pow2Table();
      AndBitZero(control, 0x10, 4);
      And(control, 0x10) == 0
    }

    /** The CHR register whose upper bits the larger boards use for PRG-RAM
        and PRG-ROM: CHR 0 in 8 KiB mode, CHR 1 otherwise. */
    function ActiveChrRegister(): u8
      reads this
    {
      if IsChr8kbMode() then chr0Bank else chr1Bank
    }

    /** Boards with more than 256 KiB of PRG and 8 KiB of CHR take PRG bit 4
        from the active CHR register. */
    predicate Is512kbVariant()
      reads this
    {
      prgCount > 16 && chrCount == 2
    }

    /** PRG-RAM is enabled by the PRG register's bit 4 being clear, and, on
        the 8 KiB-CHR boards with at most 256 KiB of PRG, by bit 4 of the
        active CHR register being clear too. */
    predicate IsPrgRamEnabled()
      reads this
      ensures IsPrgRamEnabled() <==>
                prgRamEnable && (chrCount == 2 && prgCount <= 16 ==> (ActiveChrRegister() / 0x10) % 2 == 0)
    {
      Pow2Table();
      AndBitZero(chr0Bank, 0x10, 4);
      AndBitZero(chr1Bank, 0x10, 4);
      var boardEnabled :=
        if chrCount == 2 && prgCount <= 16 then
          if IsChr8kbMode() then And(chr0Bank, 0x10) == 0 else And(chr1Bank, 0x10) == 0
        else true;
      prgRamEnable && boardEnabled
    }

    /** Pattern-table translation. In 8 KiB mode CHR 0 selects an even
        4 KiB bank and the address runs on into the next; in 4 KiB mode
        $0000 uses CHR 0 and $1000 uses CHR 1. The bank is taken modulo the
        CHR size, so the offset stays inside CHR whenever the size is whole
        8 KiB banks (or in 4 KiB mode). */
    function MapPpu(address: u16): (r: MappingResult)
      requires address <= 0x1FFF && chrCount > 0
      reads this
      ensures r.Allowed?
      ensures IsChr8kbMode() ==>
                r.offset == 0x1000 * ((2 * ((chr0Bank / 2) % 0x10)) % chrCount) + address
      ensures !IsChr8kbMode() ==>
                r.offset / 0x1000 == (if address < 0x1000 then chr0Bank else chr1Bank) % chrCount
                && r.offset % 0x1000 == address % 0x1000
      ensures chrCount % 2 == 0 || !IsChr8kbMode() ==> r.offset < 0x1000 * chrCount
    {
      if IsChr8kbMode() then
        ChrWideOffset(chr0Bank, chrCount, address);
        Allowed(0x1000 * (And(chr0Bank, 0x1E) % chrCount) + And(address, 0x1FFF))
      else
        var selected := if address <= 0x0FFF then chr0Bank else chr1Bank;
        ChrNarrowOffset(selected, chrCount, address);
        Allowed(0x1000 * (selected % chrCount) + And(address, 0xFFF))
    }

    /** The 8 KiB PRG-RAM bank: bits 2-3 of the active CHR register when
        the cartridge has more than one, else 0. It is not reduced modulo
        the number of RAM banks. */
    function PrgRamBank(): (r: nat)
      reads this
      ensures r <= 3
      ensures prgRamCount > 1 ==> r == (ActiveChrRegister() / 4) % 4
      ensures prgRamCount <= 1 ==> r == 0
    {
      Pow2Table();
      ShrDiv(ActiveChrRegister(), 2);
      AndLowMask(Shr(ActiveChrRegister(), 2), 3, 2);
      if prgRamCount > 1 then And(Shr(ActiveChrRegister(), 2), 3) else 0
    }

    /** $6000-$7FFF: the selected RAM bank at the address's offset in
        8 KiB, or open bus while RAM is disabled or absent. */
    function MapPrgRam(address: u16): (r: MappingResult)
      reads this
      ensures r.Allowed? <==> IsPrgRamEnabled() && prgRamCount > 0
      ensures r.Allowed? ==> r.offset / 0x2000 == PrgRamBank() && r.offset % 0x2000 == address % 0x2000
    {
      Pow2Table();
      AndLowMask(address, 0x1FFF, 13);
      if IsPrgRamEnabled() && prgRamCount > 0 then
        var bank := PrgRamBank();
        DivModUnique(bank * 0x2000 + And(address, 0x1FFF), 0x2000, bank, address % 0x2000);
        Allowed(bank * 0x2000 + And(address, 0x1FFF))
      else Denied
    }

    /** The 16 KiB bank number the PRG mode selects for a window, before the
        512 KiB bit and the reduction: in 32 KiB mode the even bank below the
        PRG register; in 16 KiB mode bank 0 or the register at $8000, and
        the register or the last bank at $C000. */
    function PrgWindowBank(address: u16): (r: nat)
      requires prgCount >= 1 && 0x8000 <= address
      reads this
      ensures IsPrg32kbMode() ==> r == 2 * ((prgBank % 0x10) / 2)
      ensures !IsPrg32kbMode() && address <= 0xBFFF ==>
                r == if IsFirstPrgChunkFixed() then 0 else prgBank % 0x10
      ensures !IsPrg32kbMode() && 0xC000 <= address ==>
                r == if IsFirstPrgChunkFixed() then prgBank % 0x10 else prgCount - 1
    {
      if IsPrg32kbMode() then
        EvenBankMask(GetPrgBank());
        And(GetPrgBank(), 0x1E)
      else if address <= 0xBFFF then
        if IsFirstPrgChunkFixed() then 0 else GetPrgBank()
      else
        if IsFirstPrgChunkFixed() then GetPrgBank() else prgCount - 1
    }

    /** The 16 KiB PRG bank a CPU read at `address` reaches: the window's
        bank, with bit 4 of the active CHR register ORed in on the 512 KiB
        boards, modulo the PRG size. */
    function PrgRomBank(address: u16): (r: nat)
      requires prgCount >= 1 && 0x8000 <= address
      reads this
      ensures r < prgCount
      ensures !Is512kbVariant() || (ActiveChrRegister() / 0x10) % 2 == 0 ==>
                r == PrgWindowBank(address) % prgCount
      ensures Is512kbVariant() && (ActiveChrRegister() / 0x10) % 2 == 1 ==>
                r == (PrgWindowBank(address) +
                      (if (PrgWindowBank(address) / 0x10) % 2 == 0 then 0x10 else 0)) % prgCount
    {
      var window := PrgWindowBank(address);
      var highBit := And(ActiveChrRegister(), 0x10);
      OrBit4(window, ActiveChrRegister());
      var bank := if Is512kbVariant() then Or(window, highBit) else window;
      bank % prgCount
    }

    /** PRG-ROM translation for $8000-$FFFF. In 32 KiB mode the address
        runs on into the bank after the selected one, unless the selected
        one is the last, where the 16 KiB bank is mirrored instead. The
        offset is inside PRG-ROM for every PRG size. */
    function MapPrgRom(address: u16): (r: MappingResult)
      requires prgCount >= 1 && 0x8000 <= address
      reads this
      ensures r.Allowed? && r.offset < 0x4000 * prgCount
      ensures r.offset % 0x4000 == address % 0x4000
      ensures r.offset / 0x4000 == PrgRomBank(address) +
                (if IsPrg32kbMode() && PrgRomBank(address) != prgCount - 1 && 0xC000 <= address then 1 else 0)
    {
      PrgMasks(address);
      var bank := PrgRomBank(address);
      var startOfBank := 0x4000 * bank;
      var lastBank := 0x4000 * (prgCount - 1);
      var mask := if IsPrg32kbMode() && startOfBank != lastBank then 0x7FFF else 0x3FFF;
      PrgOffset(bank, prgCount, address, mask == 0x7FFF);
      Allowed(startOfBank + And(address, mask))
    }

    /** Address translation for reads: PRG-RAM at $6000-$7FFF, PRG-ROM at
        $8000-$FFFF, open bus at $4020-$5FFF, CHR for the picture
        processor. */
    function MapRead(address: u16, device: Device): (r: MappingResult)
      requires device == Cpu ==> 0x4020 <= address && (0x8000 <= address ==> prgCount >= 1)
      requires device == Ppu ==> address < 0x2000 && chrCount > 0
      reads this
      ensures device == Cpu && address < 0x6000 ==> r == Denied
      ensures device == Cpu && 0x6000 <= address < 0x8000 ==> r == MapPrgRam(address)
      ensures device == Cpu && 0x8000 <= address ==> r == MapPrgRom(address)
      ensures device == Ppu ==> r == MapPpu(address)
    {
      match device
      case Cpu =>
        if 0x6000 <= address <= 0x7FFF then MapPrgRam(address)
        else if 0x8000 <= address then MapPrgRom(address)
        else Denied
      case Ppu => MapPpu(address)
    }

    /** Address translation for writes. PRG-RAM writes translate as reads
        do. A write to $8000-$FFFF feeds the serial port and is denied;
        $4020-$5FFF is open bus. A picture-processor write reaches CHR only
        when CHR is RAM. The cartridge geometry never changes. */
    method MapWrite(address: u16, data: u8, device: Device) returns (r: MappingResult)
      requires device == Cpu ==> 0x4020 <= address
      requires device == Ppu && isChrRam && address <= 0x1FFF ==> chrCount > 0
      modifies this
      ensures chrCount == old(chrCount) && prgCount == old(prgCount)
      ensures prgRamCount == old(prgRamCount) && isChrRam == old(isChrRam)
      ensures device == Cpu && 0x8000 <= address ==>
                Banking() == SerialPortWrite(old(Banking()), address, data) && r == Denied
      ensures !(device == Cpu && 0x8000 <= address) ==> Banking() == old(Banking())
      ensures device == Cpu && address < 0x6000 ==> r == Denied
      ensures device == Cpu && 0x6000 <= address < 0x8000 ==> r == MapPrgRam(address)
      ensures device == Ppu ==> r == if isChrRam && address <= 0x1FFF then MapPpu(address) else Denied
      ensures old(1 <= shiftRegister <= 0x1F) ==> 1 <= shiftRegister <= 0x1F
    {
      if device == Cpu && 0x8000 <= address && 1 <= shiftRegister <= 0x1F {
        ShiftStaysInRange(Banking(), address, data);
      }
      if device == Ppu {
        if isChrRam && address <= 0x1FFF {
          r := MapPpu(address);
        } else {
          r := Denied;
        }
        return;
      }
      if 0x6000 <= address <= 0x7FFF {
        r := MapPrgRam(address);
      } else if 0x8000 <= address {
        SerialWrite(address, data);
        r := Denied;
      } else {
        r := Denied;
      }
    }

    /** A CPU write to $8000-$FFFF: the serial port of the chip. */
    method SerialWrite(address: u16, data: u8)
      requires 0x8000 <= address
      modifies this
      ensures Banking() == SerialPortWrite(old(Banking()), address, data)
      ensures chrCount == old(chrCount) && prgCount == old(prgCount)
      ensures prgRamCount == old(prgRamCount) && isChrRam == old(isChrRam)
    {
      ghost var before := Banking();
      SerialMasks(shiftRegister, data);
      if And(data, 0x80) != 0 {
        shiftRegister := ShiftReset;
      } else {
        var shouldSave := And(shiftRegister, 1) != 0;
        shiftRegister := Shr(shiftRegister, 1);
        shiftRegister := Or(shiftRegister, Shl(And(data, 1), 4));
        ghost var shifted := shiftRegister;
        assert shifted == Or(before.shift / 2, 0x10 * (data % 2));
        if shouldSave {
          FiveBitMask(shiftRegister);
          var result := And(shiftRegister, 0x1F);
          ghost var full := Banking();
          assert full == before.(shift := shifted);
          CommitRegister(address, result);
          shiftRegister := ShiftReset;
          CommitIgnoresShift(before, shifted, address, result);
        } else {
          assert Banking() == before.(shift := shifted);
        }
      }
      assert Banking() == SerialPortWrite(before, address, data);
    }

    /** Loads a committed value into the register the address selects; the
        PRG register keeps the low four bits and bit 4 disables PRG-RAM. */
    method CommitRegister(address: u16, result: u8)
      requires 0x8000 <= address && result < 0x20
      modifies this
      ensures Banking() == Commit(old(Banking()), address, result)
      ensures chrCount == old(chrCount) && prgCount == old(prgCount)
      ensures prgRamCount == old(prgRamCount) && isChrRam == old(isChrRam)
    {
      PrgCommitMasks(result);
      if address <= 0x9FFF {
        control := result;
      } else if address <= 0xBFFF {
        chr0Bank := result;
      } else if address <= 0xDFFF {
        chr1Bank := result;
      } else {
        prgBank := And(result, 0xF);
        prgRamEnable := And(result, 0x10) == 0;
      }
    }

    /** The chip chooses the mirroring itself. */
    predicate IsHardwiredMirrored()
    {
      false
    }

    /** Control bits 0-1 select one-screen low, one-screen high, vertical or
        horizontal mirroring; four-screen is never chosen. */
    function NametableMirroring(): (r: MirroringMode)
      reads this
      ensures r != FourScreen
      ensures control % 4 == 0 <==> r == SingleScreenLowBank
      ensures control % 4 == 1 <==> r == SingleScreenHighBank
      ensures control % 4 == 2 <==> r == Vertical
      ensures control % 4 == 3 <==> r == Horizontal
    {
      [SingleScreenLowBank, SingleScreenHighBank, Vertical, Horizontal][Mirroring()]
    }

    function SaveStateSize(): nat
    {
      10
    }

    /** The registers in the order shift, control, CHR 0, CHR 1, PRG bank,
        CHR count, PRG count, RAM count, RAM-enable flag, CHR-RAM flag. */
    function SaveState(): (r: seq<u8>)
      reads this
      ensures |r| == SaveStateSize()
    {
      [shiftRegister, control, chr0Bank, chr1Bank, prgBank, chrCount, prgCount, prgRamCount,
       if prgRamEnable then 1 else 0, if isChrRam then 1 else 0]
    }

    /** Restores the registers from the first ten bytes of `data`; a flag is
        set when its byte is not zero. */
    method LoadState(data: seq<u8>)
      requires |data| >= SaveStateSize()
      modifies this
      ensures shiftRegister == data[0] && control == data[1] && chr0Bank == data[2]
      ensures chr1Bank == data[3] && prgBank == data[4] && chrCount == data[5]
      ensures prgCount == data[6] && prgRamCount == data[7]
      ensures prgRamEnable == (data[8] != 0) && isChrRam == (data[9] != 0)
    {
      shiftRegister := data[0];
      control := data[1];
      chr0Bank := data[2];
      chr1Bank := data[3];
      prgBank := data[4];
      chrCount := data[5];
      prgCount := data[6];
      prgRamCount := data[7];
      prgRamEnable := data[8] != 0;
      isChrRam := data[9] != 0;
    }

    /** Loading what `src` saved gives this chip all ten registers of
        `src`, hence the same translations from then on. */
    method RestoreFrom(src: Mapper1)
      modifies this
      ensures Banking() == old(src.Banking())
      ensures chrCount == old(src.chrCount) && prgCount == old(src.prgCount)
      ensures prgRamCount == old(src.prgRamCount) && isChrRam == old(src.isChrRam)
    {
      var saved := src.SaveState();
      LoadState(saved);
    }
  }

  /** 16 KiB mode with the first bank fixed: $8000-$BFFF always reads PRG
      bank 0, and $C000-$FFFF the bank the PRG register selects. */
  lemma FirstBankFixed(m: Mapper1, address: u16)
    requires m.prgCount >= 1 && 0x8000 <= address && !m.Is512kbVariant()
    requires !m.IsPrg32kbMode() && m.IsFirstPrgChunkFixed()
    ensures address <= 0xBFFF ==> m.MapPrgRom(address) == Allowed(address - 0x8000)
    ensures 0xC000 <= address ==>
              m.MapPrgRom(address) == Allowed(0x4000 * ((m.prgBank % 0x10) % m.prgCount) + (address - 0xC000))
  {
    var r := m.MapPrgRom(address);
    var bank := m.PrgRomBank(address);
    assert r.offset / 0x4000 == bank;
    DivModUnique(0, m.prgCount, 0, 0);
    OffsetInBank(r.offset, bank, address);
  }

  /** 16 KiB mode with the last bank fixed: $C000-$FFFF always reads the
      last PRG bank, and $8000-$BFFF the bank the PRG register selects. */
  lemma LastBankFixed(m: Mapper1, address: u16)
    requires m.prgCount >= 1 && 0x8000 <= address && !m.Is512kbVariant()
    requires !m.IsPrg32kbMode() && !m.IsFirstPrgChunkFixed()
    ensures 0xC000 <= address ==>
              m.MapPrgRom(address) == Allowed(0x4000 * (m.prgCount - 1) + (address - 0xC000))
    ensures address <= 0xBFFF ==>
              m.MapPrgRom(address) == Allowed(0x4000 * ((m.prgBank % 0x10) % m.prgCount) + (address - 0x8000))
  {
    var r := m.MapPrgRom(address);
    var bank := m.PrgRomBank(address);
    assert r.offset / 0x4000 == bank;
    DivModUnique(m.prgCount - 1, m.prgCount, 0, m.prgCount - 1);
    OffsetInBank(r.offset, bank, address);
  }

  /** An offset is its bank times 16 KiB plus the address's place in a
      16 KiB window. */
  lemma OffsetInBank(offset: nat, bank: nat, address: nat)
    requires 0x8000 <= address < 0x1_0000
    requires offset / 0x4000 == bank && offset % 0x4000 == address % 0x4000
    ensures address <= 0xBFFF ==> offset == 0x4000 * bank + (address - 0x8000)
    ensures 0xC000 <= address ==> offset == 0x4000 * bank + (address - 0xC000)
  {
    DivModUnique(address, 0x4000, address / 0x4000, address % 0x4000);
  }

  /** 32 KiB mode on a cartridge with an even number of 16 KiB banks: the
      low bit of the PRG register is ignored and the whole $8000-$FFFF
      window reads 32 KiB from the even bank it selects. */
  lemma ThirtyTwoKbWindow(m: Mapper1, address: u16)
    requires m.prgCount >= 1 && 0x8000 <= address && !m.Is512kbVariant() && m.IsPrg32kbMode()
    requires m.prgCount % 2 == 0
    ensures m.MapPrgRom(address)
         == Allowed(0x4000 * ((2 * ((m.prgBank % 0x10) / 2)) % m.prgCount) + (address - 0x8000))
  {
    EvenBankSelected(m, address);
    EvenBankWindow(m, address, m.PrgRomBank(address));
  }

  /** In 32 KiB mode without the 512 KiB bit, the bank is the even bank
      below the PRG register reduced modulo an even count: still even. */
  lemma EvenBankSelected(m: Mapper1, address: u16)
    requires m.prgCount >= 1 && 0x8000 <= address && !m.Is512kbVariant() && m.IsPrg32kbMode()
    requires m.prgCount % 2 == 0
    ensures m.PrgRomBank(address) == (2 * ((m.prgBank % 0x10) / 2)) % m.prgCount
    ensures m.PrgRomBank(address) % 2 == 0
  {
    EvenModEven(2 * ((m.prgBank % 0x10) / 2), m.prgCount);
  }

  /** An even bank in 32 KiB mode reads the whole 32 KiB window from it. */
  lemma EvenBankWindow(m: Mapper1, address: u16, bank: nat)
    requires m.prgCount >= 1 && 0x8000 <= address && m.IsPrg32kbMode()
    requires m.prgCount % 2 == 0
    requires m.PrgRomBank(address) == bank && bank % 2 == 0
    ensures m.MapPrgRom(address) == Allowed(0x4000 * bank + (address - 0x8000))
  {
    EvenWindow(m.MapPrgRom(address).offset, bank, m.prgCount, address);
  }

  /** An even bank of an even count starts a 32 KiB window: an offset that
      the mapping puts in the bank after it for $C000-$FFFF is the window's
      offset of the address. */
  lemma EvenWindow(offset: nat, bank: nat, count: nat, address: nat)
    requires 0x8000 <= address < 0x1_0000 && bank < count
    requires bank % 2 == 0 && count % 2 == 0
    requires offset / 0x4000 == bank + (if bank != count - 1 && 0xC000 <= address then 1 else 0)
    requires offset % 0x4000 == address % 0x4000
    ensures offset == 0x4000 * bank + (address - 0x8000)
  {
    EvenIsNotLast(bank, count);
    WindowOffset(offset, bank, address);
  }

  /** With an even count, an even bank is never the last one. */
  lemma EvenIsNotLast(bank: nat, count: nat)
    requires count >= 1 && bank % 2 == 0 && count % 2 == 0
    ensures bank != count - 1
  {
    DivModUnique(count - 1, 2, count / 2 - 1, 1);
  }

  /** An offset in the bank after `bank` for $C000-$FFFF, and in `bank`
      itself for $8000-$BFFF, is `bank`'s 32 KiB window. */
  lemma WindowOffset(offset: nat, bank: nat, address: nat)
    requires 0x8000 <= address < 0x1_0000
    requires offset / 0x4000 == bank + (if 0xC000 <= address then 1 else 0)
    requires offset % 0x4000 == address % 0x4000
    ensures offset == 0x4000 * bank + (address - 0x8000)
  {
    var carry := if 0xC000 <= address then 1 else 0;
    OffsetInBank(offset, bank + carry, address);
  }

  /** With one RAM bank, or with four or more, every enabled PRG-RAM access
      lands inside the RAM. */
  lemma PrgRamInBounds(m: Mapper1, address: u16)
    requires m.prgRamCount == 1 || m.prgRamCount >= 4
    ensures m.MapPrgRam(address).Allowed? ==> m.MapPrgRam(address).offset < 0x2000 * m.prgRamCount
  {
    var r := m.MapPrgRam(address);
    if r.Allowed? {
      assert r.offset == 0x2000 * (r.offset / 0x2000) + r.offset % 0x2000;
    }
  }

  /** With two or three RAM banks the bank bits are used unreduced: bank
      bits 3 reach past the end of the RAM. */
  lemma PrgRamBankUnreduced(m: Mapper1, address: u16)
    requires m.prgRamCount == 2 || m.prgRamCount == 3
    requires m.IsPrgRamEnabled() && (m.ActiveChrRegister() / 4) % 4 == 3
    ensures m.MapPrgRam(address).Allowed? && m.MapPrgRam(address).offset >= 0x2000 * m.prgRamCount
  {
    var r := m.MapPrgRam(address);
    assert r.offset == 0x2000 * (r.offset / 0x2000) + r.offset % 0x2000;
  }

  /** Performs CPU writes to the serial port one after the other: the
      register file ends as `RunWrites` says, and the counts are untouched. */
  method FeedSerialPort(m: Mapper1, ws: seq<PortWrite>)
    requires forall i :: 0 <= i < |ws| ==> 0x8000 <= ws[i].address
    modifies m
    ensures m.Banking() == RunWrites(old(m.Banking()), ws)
    ensures m.chrCount == old(m.chrCount) && m.prgCount == old(m.prgCount)
    ensures m.prgRamCount == old(m.prgRamCount) && m.isChrRam == old(m.isChrRam)
  {
    ghost var start := m.Banking();
    var i := 0;
    while i < |ws|
      invariant 0 <= i <= |ws|
      invariant m.Banking() == RunWrites(start, ws[..i])
      invariant m.chrCount == old(m.chrCount) && m.prgCount == old(m.prgCount)
      invariant m.prgRamCount == old(m.prgRamCount) && m.isChrRam == old(m.isChrRam)
    {
      var _ := m.MapWrite(ws[i].address, ws[i].data, Cpu);
      assert ws[..i + 1][..i] == ws[..i];
      i := i + 1;
    }
    assert ws[..|ws|] == ws;
  }

  /** The same example on a chip: power-up, `Init`, then the five writes
      through `MapWrite`, then a reset write. */
  method Scenario() returns (chrAfterCommit: u8, chrAfterReset: u8, shiftAfterReset: u8)
    ensures chrAfterCommit == 5 && chrAfterReset == 5 && shiftAfterReset == ShiftReset
  {
    var m := new Mapper1();
    m.Init(2, false, 1, 1);
    ghost var start := m.Banking();
    var ws := [PortWrite(0xA000, 1), PortWrite(0xA000, 0), PortWrite(0xA000, 1),
               PortWrite(0xA000, 0), PortWrite(0xA000, 0)];
    FeedSerialPort(m, ws);
    SerialExample(start);
    chrAfterCommit := m.chr0Bank;
    var _ := m.MapWrite(0xA000, 0x80, Cpu);
    chrAfterReset := m.chr0Bank;
    shiftAfterReset := m.shiftRegister;
  }
}
