/**
 * The memory-management module's data structures: page-table entries, page tables
 * and memory regions, with the C field widths of a 64-bit kernel.
 */
module Layout {

  /** C `unsigned int`. */
  newtype u32 = x: int | 0 <= x < 0x1_0000_0000

  /** C `unsigned long` on a 64-bit kernel. */
  newtype u64 = x: int | 0 <= x < 0x1_0000_0000_0000_0000

  /** Number of entries of one page table (`struct evo_page_table`). */
  const ENTRIES: nat := 1024

  /** `struct evo_pte`: one page-table entry. */
  datatype Pte = Pte(physicalAddress: u64, flags: u32)

  /** An all-zero entry, as `vzalloc` leaves every entry. */
  const ZeroPte: Pte := Pte(0, 0)

  /** Every entry is zero. */
  predicate Zeroed(entries: seq<Pte>)
  {
    forall i :: 0 <= i < |entries| ==> entries[i] == ZeroPte
  }

  /**
   * `struct evo_memory_region`: an address range and a pointer to its page table.
   * A page table (`struct evo_page_table`, a struct holding nothing but its entry
   * array) is represented by that array, `array<Pte>` of length ENTRIES.
   */
  class MemoryRegion {
    var startAddress: u64
    var endAddress: u64
    var pageTable: array?<Pte>

    /** Fresh storage from `kmalloc`: its fields hold whatever the memory held. */
    constructor ()
    {
    }
  }
}
