/** The picture processor's name-table memory: 4 KiB in four 1 KiB blocks,
    of which the mirroring mode chooses how the 14-bit name-table addresses
    fold onto the store (ppu2c02/vram.rs). */
module NameTables {
  import opened Bits
  import opened Common

  /** The masks of the fold: the offset within a 1 KiB block, and the
      block bit taken from bit 10 or bit 11. */
  lemma OffsetMask(address: u16)
    ensures And(address, 0x3FF) == address % 0x400
  {
    assert Pow2(10) == 0x400 by { Pow2Table(); }
    AndLowMask(address, 0x3FF, 10);
  }

  lemma BlockBit(address: u16, k: nat)
    requires k == 10 || k == 11
    ensures And(Shr(address, k), 1) == (address / Pow2(k)) % 2
  {
    ShrDiv(address, k);
    assert Pow2(1) == 2;
    AndLowMask(Shr(address, k), 1, 1);
  }

  lemma FourScreenMask(address: u16)
    ensures And(address, 0xFFF) == address % 0x1000
  {
    assert Pow2(12) == 0x1000 by { Pow2Table(); }
    AndLowMask(address, 0xFFF, 12);
  }

  /** Block `b` at offset `x` is cell `0x400 * b + x`. */
  lemma BlockStart(b: nat, x: nat)
    requires b <= 1 && x < 0x400
    ensures Shl(b, 10) + x < 0x800
    ensures (Shl(b, 10) + x) / 0x400 == b && (Shl(b, 10) + x) % 0x400 == x
  {
    assert Pow2(10) == 0x400 by { Pow2Table(); }
    DivModUnique(Shl(b, 10) + x, 0x400, b, x);
  }

  /** The offset in the 4 KiB store that a name-table address reaches under
      `mode`. Every mode except four-screen uses only the first two blocks,
      and keeps the offset inside a block. */
  function MapAddress(address: u16, mode: MirroringMode): (r: nat)
    ensures r < 0x1000
    ensures mode != FourScreen ==> r < 0x800 && r % 0x400 == address % 0x400
    ensures mode == Vertical ==> r / 0x400 == (address / 0x400) % 2
    ensures mode == Horizontal ==> r / 0x400 == (address / 0x800) % 2
    ensures mode == SingleScreenLowBank ==> r < 0x400
    ensures mode == SingleScreenHighBank ==> 0x400 <= r
    ensures mode == FourScreen ==> r == address % 0x1000
  {
    if mode == FourScreen then
      FourScreenMask(address);
      // no folding: the whole store is addressed directly
      And(address, 0xFFF)
    else
      assert Pow2(10) == 0x400 && Pow2(11) == 0x800 by { Pow2Table(); }
      BlockBit(address, 10);
      BlockBit(address, 11);
      var blockNum := match mode
        case Vertical => And(Shr(address, 10), 1)
        case Horizontal => And(Shr(address, 11), 1)
        case SingleScreenLowBank => 0
        case SingleScreenHighBank => 1;
      var startAddress := Shl(blockNum, 10);
      OffsetMask(address);
      BlockStart(blockNum, And(address, 0x3FF));
      startAddress + And(address, 0x3FF)
  }

  /** Under vertical mirroring two addresses share a cell exactly when they
      agree in bits 0 to 10: bit 11 and the bits above it are ignored. */
  lemma VerticalAliases(a: u16, b: u16)
    ensures MapAddress(a, Vertical) == MapAddress(b, Vertical) <==> a % 0x800 == b % 0x800
  {
    ModDoubleHigh(a, 0x400);
    ModDoubleHigh(b, 0x400);
    var ra, rb := MapAddress(a, Vertical), MapAddress(b, Vertical);
    DivModUnique(ra, 0x400, ra / 0x400, a % 0x400);
    DivModUnique(rb, 0x400, rb / 0x400, b % 0x400);
  }

  /** Under horizontal mirroring two addresses share a cell exactly when they
      agree in bits 0 to 9 and in bit 11: bit 10 is ignored. */
  lemma HorizontalAliases(a: u16, b: u16)
    ensures MapAddress(a, Horizontal) == MapAddress(b, Horizontal)
        <==> a % 0x400 == b % 0x400 && (a / 0x800) % 2 == (b / 0x800) % 2
  {
    var ra, rb := MapAddress(a, Horizontal), MapAddress(b, Horizontal);
    DivModUnique(ra, 0x400, ra / 0x400, a % 0x400);
    DivModUnique(rb, 0x400, rb / 0x400, b % 0x400);
  }

  /** Each single-screen mode sends every address to one 1 KiB block. */
  lemma SingleScreenAliases(a: u16, b: u16, mode: MirroringMode)
    requires mode == SingleScreenLowBank || mode == SingleScreenHighBank
    ensures MapAddress(a, mode) == MapAddress(b, mode) <==> a % 0x400 == b % 0x400
  {
    var ra, rb := MapAddress(a, mode), MapAddress(b, mode);
    if a % 0x400 == b % 0x400 {
      SameCell(ra, rb);
    }
  }

  /** Folding an offset that is already folded changes nothing, in every
      mode but horizontal (whose block number comes from bit 11, which a
      folded offset never has). */
  lemma FoldIdempotent(a: u16, mode: MirroringMode)
    requires mode != Horizontal
    ensures MapAddress(MapAddress(a, mode), mode) == MapAddress(a, mode)
  {
    var r := MapAddress(a, mode);
    var rr := MapAddress(r, mode);
    if mode == FourScreen {
      DivModUnique(r, 0x1000, 0, r);
    } else {
      BlockOfCell(r);
      BlockOfCell(rr);
      SameCell(r, rr);
    }
  }

  /** A cell of the first two blocks lies in block 0 or block 1. */
  lemma BlockOfCell(x: nat)
    requires x < 0x800
    ensures x / 0x400 == (if x < 0x400 then 0 else 1)
  {
    if x < 0x400 {
      DivModUnique(x, 0x400, 0, x);
    } else {
      DivModUnique(x, 0x400, 1, x - 0x400);
    }
  }

  /** Two cells agreeing in block and in offset within the block are one. */
  lemma SameCell(r: nat, s: nat)
    requires r < 0x800 && s < 0x800
    requires r % 0x400 == s % 0x400
    requires r < 0x400 <==> s < 0x400
    ensures r == s
  {
    if r < 0x400 {
      DivModUnique(r, 0x400, 0, r);
      DivModUnique(s, 0x400, 0, s);
    } else {
      DivModUnique(r, 0x400, 1, r - 0x400);
      DivModUnique(s, 0x400, 1, s - 0x400);
    }
  }

  /** Horizontal folding is not idempotent: an address at the start of the
      second logical row (such as 0x2800 or 0x2C00) folds to 0x400, which
      folds again to 0. */
  lemma HorizontalRefolds(a: u16)
    requires a % 0x400 == 0 && (a / 0x800) % 2 == 1
    ensures MapAddress(a, Horizontal) == 0x400
    ensures MapAddress(MapAddress(a, Horizontal), Horizontal) == 0
  {
    var r := MapAddress(a, Horizontal);
    assert r / 0x400 == 1 && r % 0x400 == 0;
    CellFromParts(r, 1, 0);
    HorizontalFirstRow(0x400);
  }

  /** An address in the first logical row folds into the first block. */
  lemma HorizontalFirstRow(a: u16)
    requires a < 0x800
    ensures MapAddress(a, Horizontal) == a % 0x400
  {
    var r := MapAddress(a, Horizontal);
    assert a / 0x800 == 0;
    CellFromParts(r, 0, a % 0x400);
  }

  /** The cell of each mirroring mode in closed form: the address modulo
      2 KiB for vertical, bit 11 as the block for horizontal, one fixed
      block for single-screen (four-screen is stated by `MapAddress`). */
  lemma CellClosedForm(a: u16, mode: MirroringMode)
    ensures mode == Vertical ==> MapAddress(a, mode) == a % 0x800
    ensures mode == Horizontal ==> MapAddress(a, mode) == 0x400 * ((a / 0x800) % 2) + a % 0x400
    ensures mode == SingleScreenLowBank ==> MapAddress(a, mode) == a % 0x400
    ensures mode == SingleScreenHighBank ==> MapAddress(a, mode) == 0x400 + a % 0x400
  {
    var r := MapAddress(a, mode);
    match mode {
      case Vertical =>
        ModDoubleHigh(a, 0x400);
        CellFromParts(r, (a / 0x400) % 2, a % 0x400);
      case Horizontal =>
        CellFromParts(r, (a / 0x800) % 2, a % 0x400);
      case SingleScreenLowBank =>
        DivModUnique(r, 0x400, 0, r);
      case SingleScreenHighBank =>
        BlockOfCell(r);
        CellFromParts(r, 1, a % 0x400);
      case FourScreen =>
    }
  }

  /** A cell is its block's start plus its offset in the block. */
  lemma CellFromParts(r: nat, b: nat, x: nat)
    requires r / 0x400 == b && r % 0x400 == x
    ensures r == 0x400 * b + x
  {
  }

  /** The name-table memory. The mirroring mode is read from the cartridge
      on every access; here it is a parameter of each access. */
  class VRam {
    const data: array<u8>

    ghost predicate Valid()
      reads this
    {
      data.Length == 0x1000
    }

    /** A cleared 4 KiB store. */
    constructor ()
      ensures Valid() && fresh(data)
      ensures forall i :: 0 <= i < data.Length ==> data[i] == 0
    {
      data := new u8[0x1000](_ => 0);
    }

    /** Only the picture processor reads name tables. */
    function Read(address: u16, mode: MirroringMode, device: Device): (r: u8)
      requires Valid() && device == Ppu
      reads this, data
      ensures mode == Vertical ==> r == data[address % 0x800]
      ensures mode == Horizontal ==> r == data[0x400 * ((address / 0x800) % 2) + address % 0x400]
      ensures mode == SingleScreenLowBank ==> r == data[address % 0x400]
      ensures mode == SingleScreenHighBank ==> r == data[0x400 + address % 0x400]
      ensures mode == FourScreen ==> r == data[address % 0x1000]
    {
      CellClosedForm(address, mode);
      data[MapAddress(address, mode)]
    }

    /** Stores `value` in the one cell `address` folds to under `mode`. */
    method Write(address: u16, value: u8, mode: MirroringMode, device: Device)
      requires Valid() && device == Ppu
      modifies data
      ensures data[..] == old(data[..])[MapAddress(address, mode) := value]
      ensures Read(address, mode, device) == value
      ensures forall b: u16 :: MapAddress(b, mode) != MapAddress(address, mode) ==>
                Read(b, mode, device) == old(Read(b, mode, device))
    {
      var offset := MapAddress(address, mode);
      data[offset] := value;
    }
  }
}
