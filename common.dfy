/** Types shared by the buses, the mappers and the name-table memory. */
module Common {

  /** Which bus master issues an access: the two address spaces overlap
      numerically but mean different things. */
  datatype Device = Cpu | Ppu

  /** Outcome of a mapper's address translation: an offset into the
      cartridge's PRG-ROM, CHR or PRG-RAM store, or an open-bus access that
      the caller ignores. */
  datatype MappingResult = Allowed(offset: nat) | Denied

  /** How the four logical name tables fold onto the name-table memory. */
  datatype MirroringMode =
    | Vertical
    | Horizontal
    | SingleScreenLowBank
    | SingleScreenHighBank
    | FourScreen
}
