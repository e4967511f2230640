/** What every board has: a nametable arrangement, and addresses that it maps into its memories. */
module Mapping {
  datatype Mirroring = Vertical | Horizontal | SingleScreenA | SingleScreenB | FourScreen

  /** The memory and the offset in it that an address leads to. */
  datatype Mapped = Chr(offset: nat) | PrgRam(offset: nat) | PrgRom(offset: nat) | ExRam(offset: nat) | Nothing
}
