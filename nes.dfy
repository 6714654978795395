/** The console's two address decoders and its frame loop (nes.rs). The
    picture processor's bus sends 14-bit addresses to cartridge CHR, the
    name-table memory or the palette; the processor's bus sends 16-bit
    addresses to work RAM, the picture processor's registers, the audio
    processor, the controller port, the unused test registers or the
    cartridge, and merges the interrupt requests of the audio processor and
    the cartridge. The chips behind the buses are not modelled: reads take
    them as functions, and writes report which of them they reach. */
module Nes {
  import opened Bits
  import opened Common
  import opened NameTables

  /** Where a picture-processor access lands, with the address the target
      receives. */
  datatype PpuTarget =
    | Chr(address: u16)
    | NameTable(address: u16)
    | PaletteRam(address: u16)

  /** The picture-processor address map: the 16 KiB space repeats above
      $3FFF; $0000-$1FFF is cartridge CHR, $2000-$3EFF the name tables with
      $3000-$3EFF seen again as $2000-$2EFF, $3F00-$3FFF the palette. */
  function PpuRoute(address: u16): PpuTarget
  {
    var a := address % 0x4000;
    if a < 0x2000 then Chr(a)
    else if a < 0x3F00 then NameTable(0x2000 + a % 0x1000)
    else PaletteRam(a)
  }

  /** The name-table window $3000-$3EFF repeats $2000-$2EFF. */
  lemma NameTableWindowRepeats(address: u16)
    requires 0x3000 <= address <= 0x3EFF
    ensures PpuRoute(address) == PpuRoute(address - 0x1000)
    ensures PpuRoute(address).NameTable? && PpuRoute(address).address < 0x3000
  {
  }

  /** `address & 0x3FFF` folds the 64 KiB space onto 16 KiB. */
  lemma FoldMask(address: u16)
    ensures And(address, 0x3FFF) == address % 0x4000
  {
    Pow2Table();
    AndLowMask(address, 0x3FFF, 14);
  }

  /** `address & 0x2FFF` drops bit 12 of a name-table address. */
  lemma NameTableMask(address: u16)
    requires 0x2000 <= address <= 0x3EFF
    ensures And(address, 0x2FFF) == 0x2000 + address % 0x1000
  {
    var high := if address < 0x3000 then 2 else 3;
    DivModUnique(address, 0x1000, high, address - 0x1000 * high);
    DivModUnique(0x2FFF, 0x1000, 2, 0xFFF);
    HighNibbleMask(address, high);
  }

  lemma HighNibbleMask(address: nat, high: nat)
    requires high == 2 || high == 3
    requires address / 0x1000 == high
    ensures And(address, 0x2FFF) == 0x2000 + address % 0x1000
  {
    assert Pow2(12) == 0x1000 by { Pow2Table(); }
    AndSplit(address, 0x2FFF, 0x1000, 12);
    ShrDiv(address, 12);
    ShrDiv(0x2FFF, 12);
    assert Shr(address, 12) == high;
    assert Shr(0x2FFF, 12) == 2 by {
      DivModUnique(0x2FFF, 0x1000, 2, 0xFFF);
    }
    assert And(high, 2) == 2 by {
      if high == 2 {
        assert And(2, 2) == 2 * And(1, 1);
      } else {
        assert And(3, 2) == 2 * And(1, 1);
      }
    }
    assert 0x2FFF % 0x1000 == 0xFFF by {
      DivModUnique(0x2FFF, 0x1000, 2, 0xFFF);
    }
    var low := address % 0x1000;
    AndLowMask(low, 0xFFF, 12);
    assert low % 0x1000 == low by {
      DivModUnique(low, 0x1000, 0, low);
    }
    assert And(low, 0xFFF) == low;
    assert And(address, 0x2FFF) == 0x1000 * And(high, 2) + And(low, 0xFFF);
  }

  /** What `PpuRoute` gives on each range the bus tests, and that folding
      the address first changes nothing. */
  lemma PpuRouteRanges(address: u16)
    ensures address <= 0x1FFF ==> PpuRoute(address) == Chr(address)
    ensures 0x2000 <= address <= 0x3EFF ==> PpuRoute(address) == NameTable(0x2000 + address % 0x1000)
    ensures 0x3F00 <= address <= 0x3FFF ==> PpuRoute(address) == PaletteRam(address)
    ensures PpuRoute((address % 0x4000) as u16) == PpuRoute(address)
  {
    DivModUnique(address % 0x4000, 0x4000, 0, address % 0x4000);
    if address < 0x4000 {
      DivModUnique(address, 0x4000, 0, address);
    }
  }

  /** The picture processor's bus. The cartridge's CHR and the palette are
      functions of the address and the device; the mirroring mode is the
      one the cartridge reports at the time of the access. */
  class PpuBus {
    const vram: VRam

    ghost predicate Valid()
      reads this, vram
    {
      vram.Valid()
    }

    constructor ()
      ensures Valid() && fresh(vram) && fresh(vram.data)
      ensures forall i :: 0 <= i < vram.data.Length ==> vram.data[i] == 0
    {
      vram := new VRam();
    }

    /** A read reaches the target `PpuRoute` names; above $3FFF the bus
        masks the address and reads again, which happens at most once. */
    function Read(address: u16, device: Device, mode: MirroringMode,
                  chr: (u16, Device) -> u8, palette: (u16, Device) -> u8): (r: u8)
      requires Valid()
      requires PpuRoute(address).NameTable? ==> device == Ppu
      reads this, vram, vram.data
      ensures r == match PpuRoute(address)
                   case Chr(a) => chr(a, device)
                   case NameTable(a) => vram.Read(a, mode, device)
                   case PaletteRam(a) => palette(a, device)
      decreases address
    {
      PpuRouteRanges(address);
      if address <= 0x1FFF then chr(address, device)
      else if address <= 0x3EFF then
        NameTableMask(address);
        vram.Read(And(address, 0x2FFF), mode, device)
      else if address <= 0x3FFF then palette(address, device)
      else
        FoldMask(address);
        Read(And(address, 0x3FFF), device, mode, chr, palette)
    }

    /** A write goes where a read at the same address would go. A name-table
        write changes the one cell the address folds to; a CHR or palette
        write leaves the name tables alone and is reported to the caller. */
    method Write(address: u16, data: u8, device: Device, mode: MirroringMode) returns (target: PpuTarget)
      requires Valid()
      requires PpuRoute(address).NameTable? ==> device == Ppu
      modifies vram.data
      ensures target == PpuRoute(address)
      ensures target.NameTable? ==>
                vram.data[..] == old(vram.data[..])[MapAddress(target.address, mode) := data]
      ensures !target.NameTable? ==> vram.data[..] == old(vram.data[..])
      decreases address
    {
      PpuRouteRanges(address);
      if address <= 0x1FFF {
        target := Chr(address);
      } else if address <= 0x3EFF {
        NameTableMask(address);
        target := NameTable(And(address, 0x2FFF));
        vram.Write(And(address, 0x2FFF), data, mode, device);
      } else if address <= 0x3FFF {
        target := PaletteRam(address);
      } else {
        FoldMask(address);
        target := Write(And(address, 0x3FFF), data, device, mode);
      }
    }
  }

  /** A name-table read through the bus returns the cell of the name-table
      memory that the address folds to under the current mirroring mode. */
  lemma NameTableRead(bus: PpuBus, address: u16, mode: MirroringMode,
                      chr: (u16, Device) -> u8, palette: (u16, Device) -> u8)
    requires bus.Valid() && 0x2000 <= address % 0x4000 < 0x3F00
    ensures bus.Read(address, Ppu, mode, chr, palette)
         == bus.vram.data[MapAddress(0x2000 + address % 0x1000, mode)]
  {
    NestedMod(address);
    assert PpuRoute(address) == NameTable(0x2000 + address % 0x1000);
  }

  /** Within the 16 KiB space, the offset in a 4 KiB window is unchanged. */
  lemma NestedMod(address: nat)
    ensures (address % 0x4000) % 0x1000 == address % 0x1000
  {
    var q := address / 0x4000;
    var low := address % 0x4000;
    DivModUnique(low, 0x1000, low / 0x1000, low % 0x1000);
    DivModUnique(address, 0x1000, 4 * q + low / 0x1000, low % 0x1000);
  }

  /** Where a processor access lands. */
  datatype CpuTarget =
    | Ram(index: nat)
    | PpuRegister(address: u16)
    | Apu(address: u16)
    | ControllerPort(address: u16)
    | TestMode
    | CartridgeSpace(address: u16)

  /** The processor address map: 2 KiB of RAM seen four times, the eight
      picture-processor registers repeated through $2000-$3FFF, the audio
      registers with the sprite-DMA port $4014 and the controller port
      $4016 among them, the disabled test registers $4018-$401F, and the
      cartridge from $4020 on. */
  function CpuRoute(address: u16): CpuTarget
  {
    if address < 0x2000 then Ram(address % 0x800)
    else if address < 0x4000 then PpuRegister(0x2000 + address % 8)
    else if address <= 0x4013 then Apu(address)
    else if address == 0x4014 then PpuRegister(address)
    else if address == 0x4015 then Apu(address)
    else if address == 0x4016 then ControllerPort(address)
    else if address == 0x4017 then Apu(address)
    else if address <= 0x401F then TestMode
    else CartridgeSpace(address)
  }

  /** Two RAM addresses reach the same byte exactly when they agree modulo
      2 KiB. */
  lemma RamMirrors(a: u16, b: u16)
    requires a < 0x2000 && b < 0x2000
    ensures CpuRoute(a) == CpuRoute(b) <==> a % 0x800 == b % 0x800
  {
  }

  /** Two addresses in $2000-$3FFF reach the same picture-processor
      register exactly when they agree modulo 8. */
  lemma PpuRegistersMirror(a: u16, b: u16)
    requires 0x2000 <= a < 0x4000 && 0x2000 <= b < 0x4000
    ensures CpuRoute(a) == CpuRoute(b) <==> a % 8 == b % 8
  {
  }

  /** `address & 0x7FF` selects a byte of the 2 KiB RAM. */
  lemma RamMask(address: u16)
    ensures And(address, 0x7FF) == address % 0x800
  {
    assert Pow2(11) == 0x800 by { Pow2Table(); }
    AndLowMask(address, 0x7FF, 11);
  }

  /** `0x2000 | (address & 0x7)` selects one of the eight registers. */
  lemma RegisterMask(address: u16)
    ensures Or(0x2000, And(address, 0x7)) == 0x2000 + address % 8
  {
    assert Pow2(3) == 8 && Pow2(13) == 0x2000 by { Pow2Table(); }
    AndLowMask(address, 0x7, 3);
    OrPowerOfTwo(address % 8, 0x2000, 13);
    OrCommutes(0x2000, address % 8);
  }

  /** The four RAM mirrors of a byte all reach that byte. */
  lemma RamMirrorIndex(address: u16, k: nat)
    requires k < 4
    ensures 0x800 * k + address % 0x800 < 0x2000
    ensures CpuRoute((0x800 * k + address % 0x800) as u16) == Ram(address % 0x800)
  {
    DivModUnique(0x800 * k + address % 0x800, 0x800, k, address % 0x800);
  }

  /** The chips a processor read can reach, as functions of the address
      they receive. */
  datatype Peripherals = Peripherals(
    ppuRegister: u16 -> u8,
    apu: u16 -> u8,
    controller: u16 -> u8,
    cartridge: u16 -> u8)

  /** The interrupt request of one source: whether it asks the processor
      to look at its pin again, and the pin. */
  class IrqSource {
    var changeRequested: bool
    var pin: bool

    constructor (changeRequested: bool, pin: bool)
      ensures this.changeRequested == changeRequested && this.pin == pin
    {
      this.changeRequested, this.pin := changeRequested, pin;
    }

    /** Acknowledges the request; the pin itself is the source's business. */
    method ClearRequest()
      modifies this
      ensures !changeRequested && pin == old(pin)
    {
      changeRequested := false;
    }
  }

  /** The processor's bus: the work RAM, and the latch that remembers
      whether an interrupt source asked for its pin to be looked at. */
  class CpuBus {
    const ram: array<u8>
    const apuIrq: IrqSource
    const cartridgeIrq: IrqSource
    var irqPinChangeRequested: bool

    ghost predicate Valid()
      reads this
    {
      ram.Length == 0x800
    }

    /** Cleared RAM and no pending interrupt change. */
    constructor (apuIrq: IrqSource, cartridgeIrq: IrqSource)
      ensures Valid() && fresh(ram) && !irqPinChangeRequested
      ensures this.apuIrq == apuIrq && this.cartridgeIrq == cartridgeIrq
      ensures forall i :: 0 <= i < ram.Length ==> ram[i] == 0
    {
      ram := new u8[0x800](_ => 0);
      this.apuIrq, this.cartridgeIrq := apuIrq, cartridgeIrq;
      irqPinChangeRequested := false;
    }

    /** A read returns what the target `CpuRoute` names holds: the RAM
        byte, the peripheral's answer, or 0 for a test register. */
    function Read(address: u16, p: Peripherals): (r: u8)
      requires Valid()
      reads this, ram
      ensures r == match CpuRoute(address)
                   case Ram(i) => ram[i]
                   case PpuRegister(a) => p.ppuRegister(a)
                   case Apu(a) => p.apu(a)
                   case ControllerPort(a) => p.controller(a)
                   case TestMode => 0
                   case CartridgeSpace(a) => p.cartridge(a)
    {
      if address <= 0x1FFF then
        RamMask(address);
        ram[And(address, 0x7FF)]
      else if address <= 0x3FFF then
        RegisterMask(address);
        p.ppuRegister(Or(0x2000, And(address, 0x7)))
      else if address <= 0x4013 then p.apu(address)
      else if address == 0x4014 then p.ppuRegister(address)
      else if address == 0x4015 then p.apu(address)
      else if address == 0x4016 then p.controller(address)
      else if address == 0x4017 then p.apu(address)
      else if address <= 0x401F then 0
      else p.cartridge(address)
    }

    /** A write goes where a read at the same address would go. Only a RAM
        write changes the RAM, in one byte, which all four mirrors then
        read back; every other write is reported to the caller, and a
        test-register write is dropped. */
    method Write(address: u16, data: u8) returns (target: CpuTarget)
      requires Valid()
      modifies ram
      ensures target == CpuRoute(address)
      ensures target.Ram? ==> ram[..] == old(ram[..])[target.index := data]
      ensures !target.Ram? ==> ram[..] == old(ram[..])
      ensures address < 0x2000 ==>
                forall k :: 0 <= k < 4 ==> ram[CpuRoute((0x800 * k + address % 0x800) as u16).index] == data
    {
      if address <= 0x1FFF {
        RamMask(address);
        target := Ram(And(address, 0x7FF));
        ram[And(address, 0x7FF)] := data;
        forall k | 0 <= k < 4
          ensures CpuRoute((0x800 * k + address % 0x800) as u16) == Ram(address % 0x800)
        {
          RamMirrorIndex(address, k);
        }
      } else if address <= 0x3FFF {
        RegisterMask(address);
        target := PpuRegister(Or(0x2000, And(address, 0x7)));
      } else if address <= 0x4013 {
        target := Apu(address);
      } else if address == 0x4014 {
        target := PpuRegister(address);
      } else if address == 0x4015 {
        target := Apu(address);
      } else if address == 0x4016 {
        target := ControllerPort(address);
      } else if address == 0x4017 {
        target := Apu(address);
      } else if address <= 0x401F {
        target := TestMode;
      } else {
        target := CartridgeSpace(address);
      }
    }

    /** Clears all 2 KiB of RAM. */
    method Reset()
      requires Valid()
      modifies ram
      ensures forall i :: 0 <= i < ram.Length ==> ram[i] == 0
      ensures forall a: u16, p: Peripherals :: a < 0x2000 ==> Read(a, p) == 0
    {
      forall i | 0 <= i < ram.Length {
        ram[i] := 0;
      }
    }

    /** Polls both sources and latches whether either asked for a change. */
    method IsIrqChangeRequested() returns (result: bool)
      modifies this
      ensures result == (apuIrq.changeRequested || cartridgeIrq.changeRequested)
      ensures irqPinChangeRequested == result
    {
      result := apuIrq.changeRequested || cartridgeIrq.changeRequested;
      irqPinChangeRequested := result;
    }

    /** The merged interrupt line: low unless a change was latched; then
        the audio processor's pin, or the cartridge's pin when the
        cartridge itself asked. */
    predicate IrqPinState()
      reads this, apuIrq, cartridgeIrq
      ensures IrqPinState() ==> irqPinChangeRequested
      ensures IrqPinState() <==>
                irqPinChangeRequested && (apuIrq.pin || (cartridgeIrq.changeRequested && cartridgeIrq.pin))
    {
      if irqPinChangeRequested then
        var result := apuIrq.pin;
        if cartridgeIrq.changeRequested then result || cartridgeIrq.pin else result
      else false
    }

    /** Acknowledges the interrupt: the latch and both sources' requests
        are cleared, so the line reads low until the next poll. */
    method ClearIrqRequestPin()
      modifies this, apuIrq, cartridgeIrq
      ensures !irqPinChangeRequested && !apuIrq.changeRequested && !cartridgeIrq.changeRequested
      ensures apuIrq.pin == old(apuIrq.pin) && cartridgeIrq.pin == old(cartridgeIrq.pin)
      ensures !IrqPinState()
    {
      irqPinChangeRequested := false;
      cartridgeIrq.ClearRequest();
      apuIrq.ClearRequest();
    }
  }

  /** After a poll that finds no request, the merged line is low whatever
      the pins say. */
  lemma NoRequestNoIrq(bus: CpuBus)
    requires !bus.irqPinChangeRequested
    ensures !bus.IrqPinState()
  {
  }

  /** One clocked unit in the frame loop. */
  datatype Step = ApuClock | CpuStep | PpuClock

  /** Processor cycles in one frame. */
  const CpuCyclesPerFrame: nat := 29780

  /** One iteration of the frame loop: the audio processor, then one
      processor instruction, then three picture-processor clocks. */
  const Iteration: seq<Step> := [ApuClock, CpuStep, PpuClock, PpuClock, PpuClock]

  /** `n` iterations of the frame loop. */
  function Iterations(n: nat): (r: seq<Step>)
    ensures |r| == 5 * n
  {
    if n == 0 then [] else Iterations(n - 1) + Iteration
  }

  /** Step `i` of the loop is the step at position `i % 5` of an iteration. */
  lemma {:induction false} IterationsAt(n: nat, i: nat)
    requires i < 5 * n
    ensures Iterations(n)[i] == Iteration[i % 5]
  {
    if i < 5 * (n - 1) {
      IterationsAt(n - 1, i);
    } else {
      DivModUnique(i, 5, n - 1, i - 5 * (n - 1));
    }
  }

  /** How many times `s` occurs in `trace`. */
  function Count(trace: seq<Step>, s: Step): nat
  {
    if |trace| == 0 then 0
    else (if trace[0] == s then 1 else 0) + Count(trace[1..], s)
  }

  lemma {:induction false} CountAppend(t: seq<Step>, u: seq<Step>, s: Step)
    ensures Count(t + u, s) == Count(t, s) + Count(u, s)
  {
    if |t| == 0 {
      assert t + u == u;
    } else {
      assert (t + u)[1..] == t[1..] + u;
      CountAppend(t[1..], u, s);
    }
  }

  /** One iteration's steps, counted. */
  lemma IterationContents()
    ensures Count(Iteration, ApuClock) == 1
    ensures Count(Iteration, CpuStep) == 1
    ensures Count(Iteration, PpuClock) == 3
  {
    var tail := [PpuClock, PpuClock, PpuClock];
    assert Iteration[1..] == [CpuStep] + tail;
    assert Iteration[1..][1..] == tail;
    assert tail[1..][1..][1..] == [];
  }

  /** Each iteration clocks the audio processor and the processor once and
      the picture processor three times. */
  lemma {:induction false} IterationCounts(n: nat)
    ensures Count(Iterations(n), ApuClock) == n
    ensures Count(Iterations(n), CpuStep) == n
    ensures Count(Iterations(n), PpuClock) == 3 * n
  {
    if n > 0 {
      IterationCounts(n - 1);
      IterationContents();
      var t := Iterations(n - 1);
      CountAppend(t, Iteration, ApuClock);
      CountAppend(t, Iteration, CpuStep);
      CountAppend(t, Iteration, PpuClock);
    } else {
      assert Iterations(0) == [];
    }
  }

  /** One frame: nothing without a cartridge, else 29780 loop iterations.
      The chips' own clocks are not modelled; the result is the order in
      which they are clocked. */
  method ClockForFrame(cartridgeEmpty: bool) returns (trace: seq<Step>)
    ensures cartridgeEmpty ==> trace == []
    ensures !cartridgeEmpty ==> trace == Iterations(CpuCyclesPerFrame)
  {
    trace := [];
    if cartridgeEmpty {
      return;
    }
    var i := 0;
    while i < CpuCyclesPerFrame
      invariant 0 <= i <= CpuCyclesPerFrame
      invariant trace == Iterations(i)
    {
      trace := trace + [ApuClock];
      trace := trace + [CpuStep];
      trace := trace + [PpuClock, PpuClock, PpuClock];
      i := i + 1;
    }
  }

  /** A frame clocks the processor 29780 times, the audio processor as
      often, and the picture processor three times as often, always in the
      order audio, processor, picture x3. */
  lemma FrameSchedule()
    ensures |Iterations(CpuCyclesPerFrame)| == 5 * 29780
    ensures Count(Iterations(CpuCyclesPerFrame), CpuStep) == 29780
    ensures Count(Iterations(CpuCyclesPerFrame), ApuClock) == 29780
    ensures Count(Iterations(CpuCyclesPerFrame), PpuClock) == 3 * 29780
    ensures forall i :: 0 <= i < 5 * 29780 ==> Iterations(CpuCyclesPerFrame)[i] == Iteration[i % 5]
  {
    IterationCounts(CpuCyclesPerFrame);
    forall i | 0 <= i < 5 * 29780
      ensures Iterations(CpuCyclesPerFrame)[i] == Iteration[i % 5]
    {
      IterationsAt(CpuCyclesPerFrame, i);
    }
  }
}
