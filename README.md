# plastic_core in Dafny: cartridge mappers, bus decoders and the length counter

This project models the bit- and range-arithmetic core of the plastic NES
emulator:

- **Mapper 1 (MMC1)**. The cartridge chip that loads its control, CHR-bank
  and PRG-bank registers through a five-write serial shift register, then
  translates processor and picture-processor addresses into PRG-ROM,
  PRG-RAM and CHR offsets (module `Mapper1Chip`; the serial protocol on
  its own is module `Mmc1Serial`).
- **Mapper 3 (CNROM)**. The cartridge chip with one latched CHR-bank
  register and a 16 or 32 KiB PRG window (module `Mapper3Chip`).
- **Name-table memory**. The 4 KiB store behind the picture processor's
  name tables, with the fold from a name-table address to a cell under each
  mirroring mode (module `NameTables`).
- **The two buses of the console** (module `Nes`):
  - the picture processor's address decoder (CHR, name tables, palette);
  - the processor's decoder (work RAM, picture-processor registers, audio
    registers, controller port, test registers, cartridge);
  - the latch that merges the interrupt requests of the audio processor and
    the cartridge;
  - the order in which one frame clocks the chips.
- **The audio length counter**. Its reload table and its three-field state
  machine (module `LengthCounting`).

Chips whose fields the emulator updates in place are classes:

- `Mapper1`
- `Mapper3`
- `VRam`
- `PpuBus`
- `CpuBus`
- `IrqSource`
- `LengthCounter`

Each of their methods states the whole new state, and the pure
translations are functions of the fields.

Each decoder is specified by a reference routing function, `PpuRoute` or
`CpuRoute`. The decoder's read and write are proved to reach the target
that function names. The source's masks (`address & 0x7FF`, `0x2000 |
(address & 0x7)`, `address & 0x2FFF` ...) are kept literally through
bitwise `And`/`Or` on naturals (module `Bits`), with lemmas that turn each
mask into the range arithmetic it stands for.

The MMC1 serial protocol is specified by a pure step function,
`SerialPortWrite`, over the register file `BankRegisters`. `RunWrites`
folds it over a sequence of port writes. The chip's `MapWrite` is proved
to perform exactly that step. Lemmas then prove:

- after a reset, four writes only shift bits in;
- the fifth write commits the five data bits, least significant first,
  into the register its address selects;
- the shift register never loses its sentinel bit.

Integers are unbounded. Every value the source keeps in a `u8` or `u16` is
a subset type with the same range. The one product that can leave its
range, the doubled CHR count of MMC1's `init`, is excluded by a
precondition (see "Left out"); no other arithmetic of the modelled code
wraps.

## Model

| member | source | states |
|---|---|---|
| Mapper1Chip.Mapper1.constructor | plastic_core/src/cartridge/mappers/mapper1.rs:99-116 | a new chip has the shift register at its sentinel 0b10000, control 0x0C, and every other register, flag and count zero |
| Mapper1Chip.Mapper1.Init | plastic_core/src/cartridge/mappers/mapper1.rs:210-221 | records the PRG count, twice the 8 KiB CHR count as 4 KiB banks, the CHR-RAM flag and the PRG-RAM count; selects the last PRG bank, sets control to 0b11100 and resets the shift register; the CHR banks and the RAM-enable flag are left as they were |
| Mapper1Chip.Mapper1.Mirroring | plastic_core/src/cartridge/mappers/mapper1.rs:124-126 | the mirroring field is control bits 0-1 |
| Mapper1Chip.Mapper1.GetPrgBank | plastic_core/src/cartridge/mappers/mapper1.rs:128-130 | the selected 16 KiB PRG bank is the low four bits of the PRG register |
| Mapper1Chip.Mapper1.IsPrg32kbMode | plastic_core/src/cartridge/mappers/mapper1.rs:132-134 | 32 KiB PRG mode holds exactly when control bit 3 is clear |
| Mapper1Chip.Mapper1.IsFirstPrgChunkFixed | plastic_core/src/cartridge/mappers/mapper1.rs:142-144 | the first 16 KiB chunk is fixed exactly when control bit 2 is clear |
| Mapper1Chip.Mapper1.IsChr8kbMode | plastic_core/src/cartridge/mappers/mapper1.rs:146-148 | 8 KiB CHR mode holds exactly when control bit 4 is clear |
| Mapper1Chip.Mapper1.IsPrgRamEnabled | plastic_core/src/cartridge/mappers/mapper1.rs:150-164 | PRG-RAM is enabled exactly when the enable flag is set and, on an SNROM-sized board (two 4 KiB CHR banks, at most 16 PRG banks), bit 4 of the active CHR register is clear |
| Mapper1Chip.Mapper1.MapPpu | plastic_core/src/cartridge/mappers/mapper1.rs:166-189 | always Allowed; in 8 KiB mode the offset is the even bank of CHR register 0 reduced modulo the bank count, plus the address; in 4 KiB mode the bank is CHR register 0 or 1 by address half, reduced modulo the count, and the offset within the bank is kept; the offset is inside CHR memory whenever the count is even or 4 KiB mode is on |
| Mapper1Chip.Mapper1.PrgRamBank | plastic_core/src/cartridge/mappers/mapper1.rs:193-201 | the PRG-RAM bank is bits 2-3 of the active CHR register when there is more than one RAM bank, else 0, and is at most 3 |
| Mapper1Chip.Mapper1.MapPrgRam | plastic_core/src/cartridge/mappers/mapper1.rs:191-206 | Allowed exactly when PRG-RAM is enabled and present; the offset selects that bank in 8 KiB units and keeps the address's low 13 bits |
| Mapper1Chip.Mapper1.PrgWindowBank | plastic_core/src/cartridge/mappers/mapper1.rs:229-247 | the bank before reduction: the even bank in 32 KiB mode; bank 0 or the selected bank at $8000-$BFFF, and the selected bank or the last bank at $C000-$FFFF, by which chunk is fixed |
| Mapper1Chip.Mapper1.PrgRomBank | plastic_core/src/cartridge/mappers/mapper1.rs:249-259 | the bank is always below the PRG count; it is the window bank reduced modulo the count, except on the 512 KiB board (more than 16 PRG banks, two CHR banks) when bit 4 of the active CHR register is set: then bit 4 is ORed into the window bank before the reduction, adding 0x10 when the window bank lacks that bit and nothing when it already has it |
| Mapper1Chip.Mapper1.MapPrgRom | plastic_core/src/cartridge/mappers/mapper1.rs:228-276 | every processor read at $8000-$FFFF is Allowed inside PRG-ROM, for any PRG count; it keeps the offset within the 16 KiB bank and lands in the reduced bank, or the one after it in the upper half of a 32 KiB window unless the reduced bank is the last |
| Mapper1Chip.Mapper1.MapRead | plastic_core/src/cartridge/mappers/mapper1.rs:223-290 | $4020-$5FFF is Denied, $6000-$7FFF goes to PRG-RAM, $8000-$FFFF to PRG-ROM, and picture-processor reads to CHR |
| Mapper1Chip.Mapper1.MapWrite | plastic_core/src/cartridge/mappers/mapper1.rs:292-340 | a processor write at $8000-$FFFF performs one serial-port step on the register file and returns Denied; other writes leave the registers alone, with $4020-$5FFF Denied, $6000-$7FFF mapped to PRG-RAM, and picture-processor writes mapped to CHR only when it is RAM; the counts never change and the shift register stays in 1..0x1F |
| Mapper1Chip.Mapper1.SerialWrite | plastic_core/src/cartridge/mappers/mapper1.rs:298-324 | the register file after the write is the serial-port step of the one before; the counts are untouched |
| Mapper1Chip.Mapper1.CommitRegister | plastic_core/src/cartridge/mappers/mapper1.rs:307-322 | the register file after the commit is the commit of the one before: the five-bit value goes to control, CHR 0, CHR 1, or the PRG register and the inverted RAM-enable bit, by address, and the shift register is reset |
| Mapper1Chip.Mapper1.NametableMirroring | plastic_core/src/cartridge/mappers/mapper1.rs:346-353 | control bits 0-1 equal 0, 1, 2, 3 exactly when the mode is single-screen low, single-screen high, vertical, horizontal; four-screen never occurs |
| Mapper1Chip.Mapper1.SaveState | plastic_core/src/cartridge/mappers/mapper1.rs:355-372 | the saved state has exactly the size the chip declares, ten bytes |
| Mapper1Chip.Mapper1.LoadState | plastic_core/src/cartridge/mappers/mapper1.rs:374-385 | each of the ten registers takes its byte, flags set when their byte is not zero |
| Mapper1Chip.Mapper1.RestoreFrom | plastic_core/src/cartridge/mappers/mapper1.rs:355-385 | loading what another chip saved reproduces its register file and all of its counts |
| Mmc1Serial.ShiftStaysInRange | plastic_core/src/cartridge/mappers/mapper1.rs:118-122 | a serial-port step keeps the shift register in 1..0x1F, so the sentinel bit is never lost |
| Mmc1Serial.Commit | plastic_core/src/cartridge/mappers/mapper1.rs:307-322 | the five-bit value goes to control at $8000-$9FFF, CHR register 0 at $A000-$BFFF, CHR register 1 at $C000-$DFFF, and at $E000-$FFFF splits into the PRG bank (its low four bits) and a RAM enable that is set exactly when bit 4 is clear, so bank and inverted enable bit recombine into the value; every other register and the shift register are kept |
| Mmc1Serial.SerialPortWrite | plastic_core/src/cartridge/mappers/mapper1.rs:298-324 | a write with bit 7 set only resets the shift register; otherwise, with the shift register within five bits, the register shifts right and bit 0 of the data is added as bit 4; when the sentinel was in bit 0 those five bits are committed to the register the address selects and the shift register is reset |
| Mmc1Serial.RunWrites | plastic_core/src/cartridge/mappers/mapper1.rs:292-340 | over any sequence of port writes the shift register starting in 1..0x1F stays there, so the sentinel bit is never lost, and a sequence ending in a write with bit 7 leaves it reset |
| Mmc1Serial.SerialValue | plastic_core/src/cartridge/mappers/mapper1.rs:301-304 | the value shifted in by n writes fits in n bits |
| Mmc1Serial.PartialSerial | plastic_core/src/cartridge/mappers/mapper1.rs:298-304 | after a reset, up to four writes without bit 7 change only the shift register, which holds the bits written so far below the sentinel |
| Mmc1Serial.PartialStep | plastic_core/src/cartridge/mappers/mapper1.rs:298-304 | the n-th data write after a reset (n at most 4) moves the sentinel one bit down and adds the written bit as bit n - 1 of the collected value, changing no other register |
| Mmc1Serial.PendingLayout | plastic_core/src/cartridge/mappers/mapper1.rs:298-304 | after k data writes the shift register holds the sentinel at bit 4 - k with the k collected bits above it |
| Mmc1Serial.SerialCommit | plastic_core/src/cartridge/mappers/mapper1.rs:301-323 | after a reset, five writes without bit 7 commit d1 + 2 d2 + 4 d3 + 8 d4 + 16 d5, where di is bit 0 of write i, into the register the fifth write's address selects, and leave the shift register reset |
| Mmc1Serial.FifthWrite | plastic_core/src/cartridge/mappers/mapper1.rs:301-323 | the fifth write, with the sentinel in bit 0, commits the four earlier bits plus its own bit 0 as bit 4 |
| Mmc1Serial.ResetThenCommit | plastic_core/src/cartridge/mappers/mapper1.rs:298-323 | a write with bit 7 set followed by five data writes commits the five bits whatever state the shift register was in |
| Mmc1Serial.RunWritesAppend | plastic_core/src/cartridge/mappers/mapper1.rs:292-340 | running two sequences of port writes one after the other is running their concatenation |
| Mapper1Chip.SerialMasks | plastic_core/src/cartridge/mappers/mapper1.rs:298-304 | the masks of the serial step: bit 7 of the data, bit 0 of the shift register, the shift right, and data bit 0 moved to bit 4 |
| Mapper1Chip.PrgCommitMasks | plastic_core/src/cartridge/mappers/mapper1.rs:313-316 | a PRG commit keeps the low four bits as the bank, and enables RAM exactly when bit 4 is clear |
| Mapper1Chip.FirstBankFixed | plastic_core/src/cartridge/mappers/mapper1.rs:232-244 | in 16 KiB mode with the first chunk fixed, $8000-$BFFF reads bank 0 and $C000-$FFFF the selected bank |
| Mapper1Chip.LastBankFixed | plastic_core/src/cartridge/mappers/mapper1.rs:232-244 | in 16 KiB mode with the last chunk fixed, $C000-$FFFF reads the last bank and $8000-$BFFF the selected bank |
| Mapper1Chip.ThirtyTwoKbWindow | plastic_core/src/cartridge/mappers/mapper1.rs:229-231 | in 32 KiB mode with an even PRG count, $8000-$FFFF is one contiguous 32 KiB window starting at the even bank |
| Mapper1Chip.EvenBankSelected | plastic_core/src/cartridge/mappers/mapper1.rs:229-259 | in 32 KiB mode with an even PRG count and no 512 KiB bit, the bank read is the even bank below the PRG register reduced modulo the count, and it is even |
| Mapper1Chip.PrgRamInBounds | plastic_core/src/cartridge/mappers/mapper1.rs:191-206 | with one PRG-RAM bank, or four or more, every Allowed PRG-RAM offset is inside PRG-RAM |
| Mapper1Chip.PrgRamBankUnreduced | plastic_core/src/cartridge/mappers/mapper1.rs:193-202 | with two or three PRG-RAM banks, bank bits equal to 3 give an Allowed offset past the end of PRG-RAM, because the bank is not reduced modulo the RAM count |
| Mmc1Serial.SerialExample | plastic_core/src/cartridge/mappers/mapper1.rs:298-323 | writing bits 1,0,1,0,0 to $A000 loads CHR register 0 with 5, and a following reset write keeps it |
| Mapper1Chip.Scenario | plastic_core/src/cartridge/mappers/mapper1.rs:210-323 | on a freshly initialised chip the five writes through the chip give CHR bank 5, and a reset write keeps it and resets the shift register |
| Mapper1Chip.FeedSerialPort | plastic_core/src/cartridge/mappers/mapper1.rs:292-340 | a composition lemma at method level (the source has no such loop): calling `MapWrite` once per write of a sequence at $8000-$FFFF leaves the register file that `RunWrites` gives for the sequence, and no count changes |
| Mapper3Chip.SixteenKbMask | plastic_core/src/cartridge/mappers/mapper3.rs:59 | the double mask keeps an address's offset within its 16 KiB half |
| Mapper3Chip.ThirtyTwoKbMask | plastic_core/src/cartridge/mappers/mapper3.rs:53 | the mask maps $8000-$FFFF onto 0..0x7FFF |
| Mapper3Chip.Mapper3.constructor | plastic_core/src/cartridge/mappers/mapper3.rs:15-22 | a new chip has no 32 KiB PRG, CHR bank 0, no CHR banks and no CHR-RAM |
| Mapper3Chip.Mapper3.Init | plastic_core/src/cartridge/mappers/mapper3.rs:34-40 | requires one or two PRG banks; 32 KiB PRG holds exactly when there are two; records the CHR count and the CHR-RAM flag |
| Mapper3Chip.Mapper3.MapPpu | plastic_core/src/cartridge/mappers/mapper3.rs:24-30 | always Allowed; lands in the CHR bank reduced modulo the bank count, keeps the address within the 8 KiB bank, and stays inside CHR memory |
| Mapper3Chip.Mapper3.MapRead | plastic_core/src/cartridge/mappers/mapper3.rs:42-75 | processor reads below $8000 are Denied; above, they are Allowed at the address less $8000 with 32 KiB PRG, or at the offset within 16 KiB otherwise, both inside the ROM; picture-processor reads go to CHR |
| Mapper3Chip.Mapper3.MapWrite | plastic_core/src/cartridge/mappers/mapper3.rs:77-104 | a processor write at $8000-$FFFF latches the data's low two bits as the CHR bank when there are at most four banks, the whole byte otherwise; nothing else changes; processor writes are Denied; picture-processor writes go to CHR only when it is RAM |
| Mapper3Chip.Mapper3.SaveState | plastic_core/src/cartridge/mappers/mapper3.rs:106-117 | the saved state has exactly the declared size, four bytes |
| Mapper3Chip.Mapper3.LoadState | plastic_core/src/cartridge/mappers/mapper3.rs:119-124 | each register takes its byte, flags set when their byte is not zero |
| Mapper3Chip.Mapper3.RestoreFrom | plastic_core/src/cartridge/mappers/mapper3.rs:106-124 | loading what another chip saved reproduces all four of its registers |
| Mapper3Chip.PrgMirrors16k | plastic_core/src/cartridge/mappers/mapper3.rs:55-60 | with 16 KiB of PRG, $C000-$FFFF reads what $8000-$BFFF reads |
| Mapper3Chip.ChrScenario | plastic_core/src/cartridge/mappers/mapper3.rs:24-104 | on a cartridge with 2 PRG and 4 CHR banks, latching bank 2 makes the pattern address $0050 reach CHR offset 2 * 0x2000 + 0x50 |
| Mapper3Chip.MirrorScenario | plastic_core/src/cartridge/mappers/mapper3.rs:34-60 | on a cartridge with one 16 KiB PRG bank, $C050 and $8050 are Allowed and reach the same byte |
| NameTables.MapAddress | plastic_core/src/ppu2c02/vram.rs:23-39 | every cell is inside the 4 KiB store; outside four-screen mode only the first 2 KiB are used and the offset within 1 KiB is kept; the 1 KiB block is address bit 10 for vertical, bit 11 for horizontal, the low block or the high block for single-screen; four-screen keeps the low 12 bits |
| NameTables.CellClosedForm | plastic_core/src/ppu2c02/vram.rs:23-39 | the cell in closed form: the address modulo 2 KiB under vertical mirroring, bit 11 as the 1 KiB block under horizontal, the offset within 1 KiB in the low or the high block under single-screen |
| NameTables.VerticalAliases | plastic_core/src/ppu2c02/vram.rs:23-39 | under vertical mirroring two addresses reach the same cell exactly when they agree modulo 2 KiB |
| NameTables.HorizontalAliases | plastic_core/src/ppu2c02/vram.rs:23-39 | under horizontal mirroring two addresses reach the same cell exactly when they agree in the low 10 bits and in bit 11 |
| NameTables.SingleScreenAliases | plastic_core/src/ppu2c02/vram.rs:23-39 | under single-screen mirroring two addresses reach the same cell exactly when they agree in the low 10 bits |
| NameTables.FoldIdempotent | plastic_core/src/ppu2c02/vram.rs:23-39 | outside horizontal mode, folding a folded address changes nothing |
| NameTables.HorizontalRefolds | plastic_core/src/ppu2c02/vram.rs:23-39 | under horizontal mirroring a folded address is not a fixed point: $0800 folds to $0400, which folds to $0000 |
| NameTables.HorizontalFirstRow | plastic_core/src/ppu2c02/vram.rs:23-39 | under horizontal mirroring every address of the first 2 KiB folds to its offset within the first 1 KiB block |
| NameTables.VRam.constructor | plastic_core/src/ppu2c02/vram.rs:16-21 | a new store is 4 KiB of zeros |
| NameTables.VRam.Read | plastic_core/src/ppu2c02/vram.rs:43-48 | requires the picture processor as the device; returns the store byte at the address modulo 2 KiB (vertical), at the offset within 1 KiB in the block of bit 11 (horizontal), in the low or the high block (single-screen), or at the address modulo 4 KiB (four-screen) |
| NameTables.VRam.Write | plastic_core/src/ppu2c02/vram.rs:43-56 | requires the picture processor as the device; changes exactly the cell the address folds to, so a read at the same address and mode returns the value and every address folding elsewhere reads as before |
| Nes.NameTableWindowRepeats | plastic_core/src/nes.rs:42 | the name-table window $3000-$3EFF reaches the same cells as $2000-$2EFF |
| Nes.FoldMask | plastic_core/src/nes.rs:45 | the mirror mask folds an address onto the 16 KiB space |
| Nes.NameTableMask | plastic_core/src/nes.rs:42 | the name-table mask drops bit 12 of an address in $2000-$3EFF |
| Nes.PpuRouteRanges | plastic_core/src/nes.rs:39-47 | each range the decoder tests routes where the reference map says, and folding onto 16 KiB does not change the route |
| Nes.PpuBus.constructor | plastic_core/src/nes.rs:26-35 | a new bus owns a fresh name-table store of 4 KiB, every byte zero |
| Nes.PpuBus.Read | plastic_core/src/nes.rs:39-47 | a read returns what the target of the reference map holds: CHR at the address, the name-table cell at the address with bit 12 cleared, or the palette; addresses from $4000 on read as the address folded onto 16 KiB, after one recursive step |
| Nes.PpuBus.Write | plastic_core/src/nes.rs:48-56 | a write reaches the same target as a read at that address; it changes the one name-table cell the address folds to, or nothing in the name tables for a CHR or palette write |
| Nes.NameTableRead | plastic_core/src/nes.rs:39-47 | a picture-processor read anywhere in the name-table window returns the store cell the address folds to under the current mode |
| Nes.RamMirrors | plastic_core/src/nes.rs:109 | two addresses below $2000 reach the same RAM byte exactly when they agree modulo 2 KiB |
| Nes.PpuRegistersMirror | plastic_core/src/nes.rs:110-113 | two addresses in $2000-$3FFF reach the same picture-processor register exactly when they agree modulo 8 |
| Nes.RamMask | plastic_core/src/nes.rs:109 | the RAM mask selects the address modulo 2 KiB |
| Nes.RegisterMask | plastic_core/src/nes.rs:113 | the register expression selects register $2000 plus the address modulo 8 |
| Nes.RamMirrorIndex | plastic_core/src/nes.rs:109 | each of the four mirrors of a RAM byte lies below $2000 and reaches that byte |
| Nes.IrqSource.ClearRequest | plastic_core/src/nes.rs:227-228 | acknowledging a source clears its request and leaves its pin |
| Nes.CpuBus.constructor | plastic_core/src/nes.rs:85-99 | a new bus has 2 KiB of cleared RAM and no latched interrupt change |
| Nes.CpuBus.Read | plastic_core/src/nes.rs:107-125 | a read returns what the target of the reference map holds: the RAM byte modulo 2 KiB, picture-processor register $2000 plus the address modulo 8, the audio registers including $4015 and $4017, the sprite-DMA port through the picture processor, the controller port, 0 in the test window $4018-$401F, and the cartridge at the unchanged address from $4020 on |
| Nes.CpuBus.Write | plastic_core/src/nes.rs:127-148 | a write reaches the same target as a read at that address; a RAM write changes exactly one byte, which all four mirrors then read back; every other write, the dropped test-window ones included, leaves RAM unchanged |
| Nes.CpuBus.Reset | plastic_core/src/nes.rs:150-152 | all 2 KiB of RAM are zero afterwards, so every read below $2000 returns 0 |
| Nes.CpuBus.IsIrqChangeRequested | plastic_core/src/nes.rs:206-211 | returns whether the audio processor or the cartridge asked for a change, and latches that answer |
| Nes.CpuBus.IrqPinState | plastic_core/src/nes.rs:213-223 | the line is asserted exactly when a change is latched and either the audio pin is set or the cartridge both asked and has its pin set |
| Nes.CpuBus.ClearIrqRequestPin | plastic_core/src/nes.rs:225-229 | clears the latch and both sources' requests, keeps the pins, and leaves the line deasserted |
| Nes.NoRequestNoIrq | plastic_core/src/nes.rs:213-222 | with no latched change the line is deasserted whatever the pins |
| Nes.Iterations | plastic_core/src/nes.rs:301-311 | n loop iterations are 5 n steps |
| Nes.IterationsAt | plastic_core/src/nes.rs:301-311 | step i of the loop is the step at position i mod 5 of one iteration: audio, processor, picture, picture, picture |
| Nes.IterationCounts | plastic_core/src/nes.rs:301-311 | n iterations clock the audio processor n times, the processor n times, and the picture processor 3 n times |
| Nes.ClockForFrame | plastic_core/src/nes.rs:294-312 | with no cartridge a frame clocks nothing; otherwise it runs exactly 29780 loop iterations |
| Nes.FrameSchedule | plastic_core/src/nes.rs:299-311 | a frame clocks the processor and the audio processor 29780 times each and the picture processor 89340 times, in the fixed order audio, processor, picture three times |
| LengthCounting.TableEntriesPositive | plastic_core/src/apu2a03/length_counter.rs:5-8 | the reload table has 32 entries and each is positive |
| LengthCounting.LengthCounter.Empty | plastic_core/src/apu2a03/length_counter.rs:18-24 | a new counter is zero, disabled and not halted, and satisfies the invariant |
| LengthCounting.LengthCounter.ReloadCounter | plastic_core/src/apu2a03/length_counter.rs:31-38 | requires an index of at most 0x1F; when enabled the counter takes the table entry, which is positive; when disabled it is unchanged; the invariant is kept |
| LengthCounting.LengthCounter.Decrement | plastic_core/src/apu2a03/length_counter.rs:43-50 | disabled: the counter becomes 0; halted: unchanged; otherwise it drops by one and stops at 0; it never grows and the invariant holds afterwards |
| LengthCounting.LengthCounter.SetEnabled | plastic_core/src/apu2a03/length_counter.rs:52-58 | disabling zeroes the counter and enabling leaves it; the halt flag is kept and the invariant is preserved |
| LengthCounting.LengthCounter.SetHalt | plastic_core/src/apu2a03/length_counter.rs:60-62 | changes only the halt flag, and preserves the invariant |
| LengthCounting.LengthCounter.Counter | plastic_core/src/apu2a03/length_counter.rs:64-66 | a disabled counter that keeps the invariant reads 0 |

The invariant of `LengthCounter` (`Valid`) is that a disabled counter is
zero.

## Left out

- The chips behind the buses (the 6502 processor, the picture processor,
  the audio processor, the palette, the controller and the cartridge's
  storage) are not modelled. Reads take them as functions of the address
  they receive; writes return the target they reach, and the caller
  performs them.
- The mirroring mode is a parameter of every name-table access. It is not
  read from the cartridge through a shared provider.
- The `Savable` stream implementations, ROM-file loading, `Rc<RefCell<..>>`
  sharing, the pixel and audio buffers, and the commented-out save-file
  and UI-thread code of `nes.rs` are left out. They are I/O or host
  plumbing.
- `LengthCountedChannel` (the channel wrapper with its floating-point
  output and its envelope and timer forwarding) is left out. It is
  floating point and forwarding.
- NES reset and power-up, NMI, sprite DMA and DMC sample fetching in
  `nes.rs` are left out. They are connections between chips the model
  does not contain.
- Panics of the source are preconditions:
  - `unreachable!` arms: processor accesses below $4020 reaching a mapper,
    and picture-processor reads at $2000 or above reaching a mapper;
  - division by a zero bank count;
  - `prg_count - 1` with no PRG bank;
  - name-table accesses by the processor;
  - out-of-range length-table indices.
- Mapper1Chip.Mapper1.LoadState: requires at least ten bytes, as the source indexes bytes 0-9 without a check; extra bytes are ignored as in the source.
- Mapper3Chip.Mapper3.LoadState: requires at least four bytes, for the same reason.
- Mapper1Chip.Mapper1.MapPpu: the bound inside CHR memory is stated only for an even bank count or 4 KiB mode. With an odd count in 8 KiB mode the 8 KiB window starting at the last bank runs past the end, as in the source; `Init` always records an even count.
- Mapper1Chip.ThirtyTwoKbWindow: stated only for an even PRG count. With an odd count the source falls back to 16 KiB mirroring at the last bank, and `MapPrgRom` states that case.
- Mapper1Chip.Mapper1.Init: requires twice the CHR count to fit in a byte. The source computes `chr_count * 2` in `u8`, which overflows for 128 or more 8 KiB CHR banks (a panic in a debug build, a wrap-around in a release build); the model does not cover that case.
- Mapper1Chip.Mapper1.PrgRomBank: the 512 KiB board path (the 256 KiB bit taken from the active CHR register) is modelled as written and not claimed to match the hardware.
- Nes.CpuBus.ClearIrqRequestPin: clearing a source is modelled as dropping its change request only. What the audio processor and the cartridge do beyond that is inside chips the model does not contain.
- `Mapper1.is_hardwired_mirrored` is modelled as the constant false. It carries no property beyond that.
- The interrupt sources are `IrqSource` objects holding a request flag and a pin. How the audio processor and the cartridge set them is not modelled.

Further points about the source:

- **MMC1 commit timing.** Descriptions of the chip that count the reset
  write speak of the register being loaded on a sixth write. The code
  commits on the fifth data write after a reset: the write that finds the
  sentinel in bit 0 completes the value. The model follows the code.
- **Horizontal folding.** The name-table fold is not idempotent under
  horizontal mirroring, because a folded cell in the second block has bit
  10 set, not bit 11. `NameTables.HorizontalRefolds` shows it. The source
  folds each address once, so this changes no access.
- **PRG-RAM bank reduction.** The MMC1 PRG-RAM bank is not reduced modulo
  the RAM size. `Mapper1Chip.PrgRamBankUnreduced` shows an Allowed offset
  past the end of a 16 or 24 KiB PRG-RAM, and the model keeps the source's
  arithmetic.
- **SNROM check.** The SNROM RAM-disable check in `is_prg_ram_enabled`
  looks at the CHR bank count and not at the CHR-RAM flag; the model keeps
  that.
