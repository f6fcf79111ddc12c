/** The progress bitmap of the MQTT downloader: one bit per block, set while the block is still to be received. */
module Bitmap {
  /** Bit `k` of a cell. */
  predicate Bit(cell: bv8, k: nat)
    requires k < 8
  {
    cell & (1 << k) != 0
  }

  function CellCount(blocks: nat): nat {
    (blocks + 7) / 8
  }

  predicate Pending(cells: seq<bv8>, block: nat)
    requires block < 8 * |cells|
  {
    Bit(cells[block / 8], block % 8)
  }

  /** How many of the first `n` blocks are still to be received. */
  function PendingCount(cells: seq<bv8>, n: nat): (c: nat)
    requires n <= 8 * |cells|
    ensures c <= n
  {
    if n == 0 then 0 else PendingCount(cells, n - 1) + if Pending(cells, n - 1) then 1 else 0
  }

  function AllPending(blocks: nat): seq<bv8> {
    seq(CellCount(blocks), _ => 0xff)
  }

  function Processed(cells: seq<bv8>, block: nat): (r: seq<bv8>)
    requires block < 8 * |cells|
    ensures |r| == |cells|
  {
    cells[block / 8 := cells[block / 8] & !(1 << (block % 8))]
  }

  lemma {:induction false} AllPendingCount(cells: seq<bv8>, n: nat)
    requires n <= 8 * |cells| && forall i | 0 <= i < |cells| :: cells[i] == 0xff
    ensures PendingCount(cells, n) == n
  {
    if n > 0 {
      AllPendingCount(cells, n - 1);
    }
  }

  lemma ClearedBit(cell: bv8, k: nat, j: nat)
    requires k < 8 && j < 8
    ensures Bit(cell & !(1 << k), j) == (Bit(cell, j) && j != k)
  {
  }

  /** Processing a block changes the state of no other one. */
  lemma ProcessedPending(cells: seq<bv8>, block: nat, b: nat)
    requires block < 8 * |cells| && b < 8 * |cells|
    ensures Pending(Processed(cells, block), b) == (Pending(cells, b) && b != block)
  {
    hide Bit;
    ClearedBit(cells[block / 8], block % 8, b % 8);
  }

  lemma {:induction false} ProcessedCount(cells: seq<bv8>, block: nat, n: nat)
    requires block < 8 * |cells| && n <= 8 * |cells|
    ensures PendingCount(Processed(cells, block), n)
            == PendingCount(cells, n) - if block < n && Pending(cells, block) then 1 else 0
  {
    hide Pending, Processed;
    if n > 0 {
      ProcessedCount(cells, block, n - 1);
      ProcessedPending(cells, block, n - 1);
    }
  }

  /* ---------- Counting by cells ---------- */

  function BitsBelow(cell: bv8, k: nat): nat
    requires k <= 8
  {
    if k == 0 then 0 else BitsBelow(cell, k - 1) + One(Bit(cell, k - 1))
  }

  function One(b: bool): nat {
    if b then 1 else 0
  }

  /** `__builtin_popcount` of one cell. */
  function Popcount(cell: bv8): nat {
    One(Bit(cell, 0)) + One(Bit(cell, 1)) + One(Bit(cell, 2)) + One(Bit(cell, 3))
    + One(Bit(cell, 4)) + One(Bit(cell, 5)) + One(Bit(cell, 6)) + One(Bit(cell, 7))
  }

  lemma MaskedBit(cell: bv8, k: nat, j: nat)
    requires k < 8 && j < 8
    ensures Bit(cell & ((1 << k) - 1), j) == (Bit(cell, j) && j < k)
  {
  }

  lemma {:induction false} MaskedBelow(cell: bv8, k: nat, j: nat)
    requires k < 8 && j <= 8
    ensures BitsBelow(cell & ((1 << k) - 1), j) == BitsBelow(cell, if j <= k then j else k)
  {
    if j > 0 {
      MaskedBelow(cell, k, j - 1);
      MaskedBit(cell, k, j - 1);
    }
  }

  lemma PopcountBelow(cell: bv8)
    ensures Popcount(cell) == BitsBelow(cell, 8)
  {
    hide Bit;
    assert BitsBelow(cell, 1) == BitsBelow(cell, 0) + One(Bit(cell, 0));
    assert BitsBelow(cell, 2) == One(Bit(cell, 0)) + One(Bit(cell, 1));
    assert BitsBelow(cell, 4) == BitsBelow(cell, 3) + One(Bit(cell, 3));
    assert BitsBelow(cell, 6) == BitsBelow(cell, 5) + One(Bit(cell, 5));
    assert BitsBelow(cell, 8) == BitsBelow(cell, 7) + One(Bit(cell, 7));
  }

  lemma {:induction false} CellPending(cells: seq<bv8>, i: nat, k: nat)
    requires i < |cells| && k <= 8
    ensures PendingCount(cells, 8 * i + k) == PendingCount(cells, 8 * i) + BitsBelow(cells[i], k)
  {
    if k > 0 {
      CellPending(cells, i, k - 1);
      assert (8 * i + k - 1) / 8 == i && (8 * i + k - 1) % 8 == k - 1;
    }
  }

  /** The cell that is counted: without the padding bits behind the last block. */
  function Counted(cells: seq<bv8>, blocks: nat, c: nat): bv8
    requires c < |cells|
  {
    if c == |cells| - 1 && blocks % 8 != 0 then cells[c] & ((1 << (blocks % 8)) - 1) else cells[c]
  }

  function Before(blocks: nat, c: nat): nat {
    if 8 * c <= blocks then 8 * c else blocks
  }

  lemma CountedCell(cells: seq<bv8>, blocks: nat, c: nat)
    requires |cells| == CellCount(blocks) && c < |cells|
    ensures PendingCount(cells, Before(blocks, c + 1))
            == PendingCount(cells, Before(blocks, c)) + Popcount(Counted(cells, blocks, c))
  {
    hide PendingCount, Popcount, BitsBelow;
    PopcountBelow(Counted(cells, blocks, c));
    if c == |cells| - 1 && blocks % 8 != 0 {
      MaskedBelow(cells[c], blocks % 8, 8);
      CellPending(cells, c, blocks % 8);
    } else {
      CellPending(cells, c, 8);
    }
  }

  /** The count of `resume_attempt`, cell by cell. */
  method CountPending(cells: seq<bv8>, blocks: nat) returns (pending: nat)
    requires |cells| == CellCount(blocks)
    ensures pending == PendingCount(cells, blocks)
  {
    pending := 0;
    for c := 0 to |cells|
      invariant pending == PendingCount(cells, Before(blocks, c))
    {
      hide PendingCount, Popcount, Counted;
      CountedCell(cells, blocks, c);
      pending := pending + Popcount(Counted(cells, blocks, c));
    }
  }

  /* ---------- The bitmap of a download ---------- */

  class ProgressBitmap {
    const cells: array<bv8>
    const blockCount: nat
    var unprocessed: nat

    ghost predicate Valid()
      reads this, cells
    {
      && cells.Length == CellCount(blockCount)
      && unprocessed == PendingCount(cells[..], blockCount)
    }

    /** `mqtt_downloader_bitmap_init`: every block is to be received. */
    constructor (blocks: nat)
      requires blocks > 0
      ensures Valid() && fresh(cells) && blockCount == blocks && unprocessed == blocks
      ensures cells[..] == AllPending(blocks)
    {
      cells := new bv8[CellCount(blocks)](_ => 0xff);
      blockCount := blocks;
      unprocessed := blocks;
      new;
      AllPendingCount(cells[..], blocks);
    }

    method IsProcessed(block: int) returns (done: bool)
      requires Valid()
      ensures done <==> 0 <= block < blockCount && !Pending(cells[..], block)
    {
      done := 0 <= block < blockCount && cells[block / 8] & (1 << (block % 8)) == 0;
    }

    /** A block is processed once: the count of pending ones falls by one, and no other block changes. */
    method SetProcessed(block: int) returns (ok: bool)
      requires Valid()
      modifies this`unprocessed, cells
      ensures Valid()
      ensures ok <==> 0 <= block < blockCount && old(Pending(cells[..], block))
      ensures ok ==> cells[..] == Processed(old(cells[..]), block) && unprocessed == old(unprocessed) - 1
      ensures !ok ==> cells[..] == old(cells[..]) && unprocessed == old(unprocessed)
    {
      if !(0 <= block < blockCount) || cells[block / 8] & (1 << (block % 8)) == 0 {
        return false;
      }
      ProcessedCount(cells[..], block, blockCount);
      PendingIsCounted(cells[..], block, blockCount);
      cells[block / 8] := cells[block / 8] & !(1 << (block % 8));
      unprocessed := unprocessed - 1;
      ok := true;
      assert cells[..] == Processed(old(cells[..]), block);
    }

    /** The end of `resume_attempt`: a tracker of the right length that is partly done replaces the fresh bitmap. */
    method Overlay(tracker: seq<bv8>) returns (taken: bool)
      requires Valid()
      modifies this`unprocessed, cells
      ensures Valid()
      ensures taken <==> |tracker| == cells.Length && 0 < PendingCount(tracker, blockCount) < blockCount
      ensures cells[..] == if taken then tracker else old(cells[..])
    {
      if |tracker| != cells.Length {
        return false;
      }
      var pending := CountPending(tracker, blockCount);
      if pending == 0 || pending == blockCount {
        return false;
      }
      forall i | 0 <= i < cells.Length {
        cells[i] := tracker[i];
      }
      unprocessed := pending;
      taken := true;
      assert cells[..] == tracker;
    }
  }

  lemma {:induction false} PendingIsCounted(cells: seq<bv8>, block: nat, n: nat)
    requires block < n <= 8 * |cells| && Pending(cells, block)
    ensures PendingCount(cells, n) > 0
  {
    if block < n - 1 {
      PendingIsCounted(cells, block, n - 1);
    }
  }
}
