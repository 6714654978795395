/** Mapper 3, the latched CHR-bank chip (cartridge/mappers/mapper3.rs).
    PRG-ROM is one 32 KiB window, or a 16 KiB bank seen twice; CHR is
    switched in 8 KiB banks by one register that any write to $8000-$FFFF
    loads. Mirroring is hardwired by the cartridge, not chosen by the chip. */
module Mapper3Chip {
  import opened Bits
  import opened Common

  /** `address & 0xBFFF & 0x7FFF` keeps the offset inside a 16 KiB bank. */
  lemma SixteenKbMask(address: u16)
    requires 0x8000 <= address
    ensures And(And(address, 0xBFFF), 0x7FFF) == address % 0x4000
  {
    var high := if address < 0xC000 then 2 else 3;
    DivModUnique(address, 0x4000, high, address - 0x4000 * high);
    ClearBit14(address, high);
    var cleared := And(address, 0xBFFF);
    assert Pow2(15) == 0x8000 by { Pow2Table(); }
    AndLowMask(cleared, 0x7FFF, 15);
    DivModUnique(cleared, 0x8000, 1, address % 0x4000);
  }

  /** `address & 0xBFFF` clears bit 14 of an address in $8000-$FFFF. */
  lemma ClearBit14(address: nat, high: nat)
    requires high == 2 || high == 3
    requires address / 0x4000 == high
    ensures And(address, 0xBFFF) == 0x8000 + address % 0x4000
  {
    assert Pow2(14) == 0x4000 by { Pow2Table(); }
    AndSplit(address, 0xBFFF, 0x4000, 14);
    ShrDiv(address, 14);
    ShrDiv(0xBFFF, 14);
    assert Shr(address, 14) == high;
    assert Shr(0xBFFF, 14) == 2 && 0xBFFF % 0x4000 == 0x3FFF by {
      DivModUnique(0xBFFF, 0x4000, 2, 0x3FFF);
    }
    assert And(high, 2) == 2 by {
      if high == 2 {
        assert And(2, 2) == 2 * And(1, 1);
      } else {
        assert And(3, 2) == 2 * And(1, 1);
      }
    }
    var low := address % 0x4000;
    AndLowMask(low, 0x3FFF, 14);
    assert low % 0x4000 == low by {
      DivModUnique(low, 0x4000, 0, low);
    }
    assert And(address, 0xBFFF) == 0x4000 * And(high, 2) + And(low, 0x3FFF);
  }

  /** `address & 0x7FFF` maps $8000-$FFFF onto a 32 KiB image. */
  lemma ThirtyTwoKbMask(address: u16)
    requires 0x8000 <= address
    ensures And(address, 0x7FFF) == address - 0x8000
  {
    Pow2Table();
    AndLowMask(address, 0x7FFF, 15);
  }

  class Mapper3 {
    var has32kbPrgRom: bool
    var chrBank: u8
    /** in 8 KiB units */
    var chrCount: u8
    var isChrRam: bool

    /** `Mapper3::new`: every register cleared. */
    constructor ()
      ensures !has32kbPrgRom && chrBank == 0 && chrCount == 0 && !isChrRam
    {
      has32kbPrgRom, chrBank, chrCount, isChrRam := false, 0, 0, false;
    }

    /** Records the cartridge geometry; the chip only supports one or two
        16 KiB PRG banks (the source asserts it). The CHR-bank register keeps
        its value. */
    method Init(prgCount: u8, isChrRam: bool, chrCount: u8, sramCount: u8)
      requires prgCount == 1 || prgCount == 2
      modifies this
      ensures has32kbPrgRom <==> prgCount == 2
      ensures this.chrCount == chrCount && this.isChrRam == isChrRam
      ensures chrBank == old(chrBank)
    {
      this.has32kbPrgRom := prgCount == 2;
      this.chrCount := chrCount;
      this.isChrRam := isChrRam;
    }

    /** A pattern-table address lands in the selected 8 KiB CHR bank, taken
        modulo the number of banks, at the same offset inside the bank. */
    function MapPpu(address: u16): (r: MappingResult)
      requires chrCount > 0
      reads this
      ensures r.Allowed?
      ensures r.offset / 0x2000 == chrBank % chrCount
      ensures r.offset % 0x2000 == address % 0x2000
      ensures r.offset < 0x2000 * chrCount
    {
      Pow2Table();
      AndLowMask(address, 0x1FFF, 13);
      var bank := chrBank % chrCount;
      var startOfBank := 0x2000 * bank;
      DivModUnique(startOfBank + And(address, 0x1FFF), 0x2000, bank, address % 0x2000);
      Allowed(startOfBank + And(address, 0x1FFF))
    }

    /** Address translation for reads. The CPU side covers $4020-$FFFF
        (the bus never forwards lower addresses) and the PPU side
        $0000-$1FFF; anything else is a decoding error in the source. */
    function MapRead(address: u16, device: Device): (r: MappingResult)
      requires device == Cpu ==> 0x4020 <= address
      requires device == Ppu ==> address < 0x2000 && chrCount > 0
      reads this
      ensures device == Cpu && address < 0x8000 ==> r == Denied
      ensures device == Cpu && 0x8000 <= address ==> r.Allowed?
      ensures device == Cpu && 0x8000 <= address && has32kbPrgRom ==>
                r.offset == address - 0x8000 && r.offset < 0x8000
      ensures device == Cpu && 0x8000 <= address && !has32kbPrgRom ==>
                r.offset == address % 0x4000 && r.offset < 0x4000
      ensures device == Ppu ==> r == MapPpu(address)
    {
      match device
      case Cpu =>
        if 0x6000 <= address <= 0x7FFF then Denied
        else if 0x8000 <= address then
          ThirtyTwoKbMask(address);
          SixteenKbMask(address);
          // the 16 KiB image repeats in $C000-$FFFF
          Allowed(if has32kbPrgRom then And(address, 0x7FFF) else And(And(address, 0xBFFF), 0x7FFF))
        else Denied
      case Ppu => MapPpu(address)
    }

    /** Address translation for writes. A CPU write to $8000-$FFFF never
        reaches the ROM: it loads the CHR-bank register (only its low two
        bits when the cartridge has at most four CHR banks) and is denied.
        A PPU write reaches CHR only when CHR is RAM. */
    method MapWrite(address: u16, data: u8, device: Device) returns (r: MappingResult)
      requires device == Cpu ==> 0x4020 <= address
      requires device == Ppu && isChrRam && address <= 0x1FFF ==> chrCount > 0
      modifies this
      ensures has32kbPrgRom == old(has32kbPrgRom) && chrCount == old(chrCount) && isChrRam == old(isChrRam)
      ensures device == Cpu && 0x8000 <= address ==>
                chrBank == (if chrCount <= 4 then data % 4 else data)
      ensures !(device == Cpu && 0x8000 <= address) ==> chrBank == old(chrBank)
      ensures device == Cpu ==> r == Denied
      ensures device == Ppu ==> r == if isChrRam && address <= 0x1FFF then MapPpu(address) else Denied
    {
      match device {
        case Cpu =>
          if 0x8000 <= address {
            if chrCount <= 4 {
              // games that expect a 2-bit register may set higher bits
              Pow2Table();
              AndLowMask(data, 0x3, 2);
              chrBank := And(data, 0x3);
            } else {
              chrBank := data;
            }
          }
          r := Denied;
        case Ppu =>
          if isChrRam && address <= 0x1FFF {
            r := MapPpu(address);
          } else {
            r := Denied;
          }
      }
    }

    function SaveStateSize(): nat
    {
      4
    }

    /** Register bytes in the order CHR bank, CHR count, 32 KiB flag,
        CHR-RAM flag. */
    function SaveState(): (r: seq<u8>)
      reads this
      ensures |r| == SaveStateSize()
    {
      [chrBank, chrCount, if has32kbPrgRom then 1 else 0, if isChrRam then 1 else 0]
    }

    /** Restores the registers from the first four bytes of `data`; a flag
        byte is set when it is not zero. */
    method LoadState(data: seq<u8>)
      requires |data| >= SaveStateSize()
      modifies this
      ensures chrBank == data[0] && chrCount == data[1]
      ensures has32kbPrgRom == (data[2] != 0) && isChrRam == (data[3] != 0)
    {
      chrBank := data[0];
      chrCount := data[1];
      has32kbPrgRom := data[2] != 0;
      isChrRam := data[3] != 0;
    }

    /** Loading what `src` saved gives this chip every register of `src`. */
    method RestoreFrom(src: Mapper3)
      modifies this
      ensures chrBank == old(src.chrBank) && chrCount == old(src.chrCount)
      ensures has32kbPrgRom == old(src.has32kbPrgRom) && isChrRam == old(src.isChrRam)
    {
      var saved := src.SaveState();
      LoadState(saved);
    }
  }

  /** With only 16 KiB of PRG-ROM, $C000-$FFFF mirrors $8000-$BFFF. */
  lemma PrgMirrors16k(m: Mapper3, address: u16)
    requires !m.has32kbPrgRom && 0x8000 <= address <= 0xBFFF
    ensures m.MapRead(address + 0x4000, Cpu) == m.MapRead(address, Cpu)
  {
    var high, low := m.MapRead(address + 0x4000, Cpu), m.MapRead(address, Cpu);
    assert high.offset == (address + 0x4000) % 0x4000;
    assert low.offset == address % 0x4000;
    DivModUnique(address + 0x4000, 0x4000, 3, address - 0x8000);
    DivModUnique(address, 0x4000, 2, address - 0x8000);
  }

  /** An offset is its bank's start plus its place in the bank. */
  lemma BankAndPlace(offset: nat, bank: nat, place: nat)
    requires offset / 0x2000 == bank && offset % 0x2000 == place
    ensures offset == 0x2000 * bank + place
  {
  }

  /** A cartridge with 2 PRG banks and 4 CHR banks: after writing 2 to
      $8000, the pattern-table address $0050 reaches CHR offset
      2 * 0x2000 + 0x50. */
  method ChrScenario() returns (chr: MappingResult)
    ensures chr == Allowed(2 * 0x2000 + 0x50)
  {
    var m := new Mapper3();
    m.Init(2, false, 4, 0);
    var _ := m.MapWrite(0x8000, 0x02, Cpu);
    assert m.chrBank == 2 && m.chrCount == 4;
    chr := m.MapRead(0x0050, Ppu);
    BankAndPlace(chr.offset, 2, 0x50);
  }

  /** A cartridge with one 16 KiB PRG bank reads the same byte at $C050 as
      at $8050. */
  method MirrorScenario() returns (high: MappingResult, low: MappingResult)
    ensures high == low && low.Allowed?
  {
    var n := new Mapper3();
    n.Init(1, false, 4, 0);
    assert !n.has32kbPrgRom;
    PrgMirrors16k(n, 0x8050);
    assert 0x8050 + 0x4000 == 0xC050;
    high := n.MapRead(0xC050, Cpu);
    low := n.MapRead(0x8050, Cpu);
  }
}
