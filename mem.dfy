/**
 * The buffer that holds generated machine code (src/jit/mem/mod.rs): a
 * fixed number of pages, zero-filled when created, with a write cursor that
 * `Push` appends at and an indexed read and write for patching bytes that
 * were emitted earlier.
 */
module Mem {
  import opened Bytes

  /** The size of one page of the region, in bytes. */
  const PAGE_SIZE: nat := 4096

  /** The number of bytes of a region of `pages` pages. */
  function RegionSize(pages: nat): (size: nat)
    ensures pages <= size
    ensures size % PAGE_SIZE == 0 && size / PAGE_SIZE == pages
  {
    pages * PAGE_SIZE
  }

  /**
   * The page count chosen for a region built from `len` bytes: the least
   * number of pages whose bytes outnumber `len`, so that every byte fits and
   * at least one byte of room is left.
   */
  function PagesFor(len: nat): (pages: nat)
    ensures 1 <= pages
    ensures len < RegionSize(pages)
    ensures RegionSize(pages - 1) <= len
  {
    len / PAGE_SIZE + 1
  }

  /** A region of executable memory, modelled as an array of bytes. */
  class MappedRegion {
    var region: array<u8>
    var offset: nat
    var pages: nat

    /** The region has `pages` pages and the cursor lies within it. */
    ghost predicate Valid()
      reads this
    {
      region.Length == RegionSize(pages) && offset <= region.Length
    }

    /** A zero-filled region of `pages` pages, with the cursor at its start. */
    constructor (pages: nat)
      ensures Valid() && fresh(region)
      ensures this.pages == pages && offset == 0
      ensures region.Length == RegionSize(pages)
      ensures forall i | 0 <= i < region.Length :: region[i] == 0
    {
      region := new u8[RegionSize(pages)](_ => 0);
      this.pages := pages;
      offset := 0;
    }

    /** Appends `op` at the cursor and moves the cursor one byte on. */
    method Push(op: u8)
      requires Valid() && offset < region.Length
      modifies this, region
      ensures Valid() && region == old(region) && pages == old(pages)
      ensures offset == old(offset) + 1
      ensures region[..] == old(region[..])[old(offset) := op]
    {
      var at := offset;
      IndexMut(at, op);
      offset := offset + 1;
    }

    /** The byte at `idx`. */
    method Index(idx: nat) returns (b: u8)
      requires Valid() && idx < region.Length
      ensures b == region[idx]
    {
      b := region[idx];
    }

    /** Writes `value` over the byte at `idx`; the cursor, the page count and every other byte stay. */
    method IndexMut(idx: nat, value: u8)
      requires Valid() && idx < region.Length
      modifies region
      ensures Valid() && offset == old(offset) && pages == old(pages)
      ensures region[..] == old(region[..])[idx := value]
    {
      region[idx] := value;
    }

    /**
     * A region sized for `ops` with `ops` pushed in order: the bytes before
     * the cursor are `ops` and every byte after them is still zero.
     */
    static method From(ops: seq<u8>) returns (r: MappedRegion)
      ensures r.Valid() && fresh(r) && fresh(r.region)
      ensures r.pages == PagesFor(|ops|) && r.offset == |ops|
      ensures r.region[..|ops|] == ops
      ensures forall i | |ops| <= i < r.region.Length :: r.region[i] == 0
    {
      var pages := PagesFor(|ops|);
      r := new MappedRegion(pages);
      for k := 0 to |ops|
        invariant r.Valid() && fresh(r.region) && r.pages == pages && r.offset == k
        invariant forall i | 0 <= i < k :: r.region[i] == ops[i]
        invariant forall i | k <= i < r.region.Length :: r.region[i] == 0
      {
        r.Push(ops[k]);
      }
      assert r.region[..|ops|] == ops;
    }
  }

  /**
   * The number of bytes that `new` allocates, protects and zeroes as the
   * original is written: the page count itself rather than the size computed
   * from it, so any region of at least one page gets fewer bytes than it has.
   */
  function AllocatedAsWritten(pages: nat): (size: nat)
    ensures 0 < pages ==> size < RegionSize(pages)
  {
    pages
  }

  /**
   * As written, a region built from two or more bytes has fewer allocated
   * bytes than it is given to push, so the last push writes past the
   * allocation; two bytes already show it.  With the intended size every push
   * of `From` stays inside the region.
   */
  lemma AllocationTooSmall(len: nat)
    requires 2 <= len
    ensures AllocatedAsWritten(PagesFor(len)) < len
    ensures len < RegionSize(PagesFor(len))
    ensures PagesFor(2) == 1 && AllocatedAsWritten(PagesFor(2)) == 1
  {
  }

  /** No smaller page count would hold `len` bytes with room to spare. */
  lemma PagesForLeast(len: nat, pages: nat)
    requires len < RegionSize(pages)
    ensures PagesFor(len) <= pages
  {
  }
}
