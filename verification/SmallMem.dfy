/**
  The small memory allocator (rt-thread/src/mem.c): address-ordered first fit over blocks whose
  headers live inside the managed memory.

  A heap is described by its blocks in address order.  The first half of the module defines what
  the operations do to that description and proves its properties; `SmallHeap` carries the
  operations out on the memory itself.  A header occupies HEADER cells, the first word of each
  field being kept in one cell; every payload byte is one cell.
*/
module SmallMem {
  import opened Common

  const ALIGN: nat := 64
  const HEADER: nat := 64        // SIZEOF_STRUCT_MEM
  const MIN_SIZE: nat := 12
  const MIN_ALIGNED: nat := 64   // MIN_SIZE_ALIGNED
  const NEXT: nat := 4           // position of the header fields
  const PREV: nat := 8

  function Aligned(n: nat): (r: nat)
    ensures r % ALIGN == 0 && n <= r < n + ALIGN
  {
    (n + ALIGN - 1) / ALIGN * ALIGN
  }

  /** A block starts at its header; it reaches up to the next block, or to the end of the heap. */
  datatype Block = Block(start: nat, used: bool)

  function Next(bs: seq<Block>, end: nat, i: nat): nat
    requires i < |bs|
  {
    if i + 1 < |bs| then bs[i + 1].start else end
  }

  function Payload(bs: seq<Block>, end: nat, i: nat): int
    requires i < |bs|
  {
    Next(bs, end, i) - bs[i].start - HEADER
  }

  /** The blocks tile the heap from 0 to `end` in strictly increasing, aligned order. */
  ghost predicate Tiled(bs: seq<Block>, end: nat) {
    && |bs| > 0 && bs[0].start == 0 && end % ALIGN == 0
    && (forall i :: 0 <= i < |bs| ==> bs[i].start % ALIGN == 0 && bs[i].start + HEADER <= end)
    && (forall i, j :: 0 <= i < j < |bs| ==> bs[i].start + HEADER <= bs[j].start)
  }

  ghost predicate Coalesced(bs: seq<Block>) {
    forall i, j :: 0 <= i < j < |bs| && j == i + 1 ==> bs[i].used || bs[j].used
  }

  ghost predicate Good(bs: seq<Block>, end: nat) {
    Tiled(bs, end) && Coalesced(bs)
  }

  /** How many blocks precede the first free one. */
  function FirstFree(bs: seq<Block>): (k: nat)
    ensures k <= |bs|
    ensures forall j :: 0 <= j < k ==> bs[j].used
    ensures k < |bs| ==> !bs[k].used
  {
    if bs == [] || !bs[0].used then 0 else 1 + FirstFree(bs[1..])
  }

  /** Where the lowest free block starts, or `end`. */
  function LowestFree(bs: seq<Block>, end: nat): nat {
    var k := FirstFree(bs);
    if k < |bs| then bs[k].start else end
  }

  /** The summed spans, headers included, of the used blocks. */
  function UsedSpan(bs: seq<Block>, end: nat): int {
    if bs == [] then 0
    else UsedSpan(bs[1..], end) + if bs[0].used then Next(bs, end, 0) - bs[0].start else 0
  }

  function FreeSpan(bs: seq<Block>, end: nat): int {
    if bs == [] then 0
    else FreeSpan(bs[1..], end) + if bs[0].used then 0 else Next(bs, end, 0) - bs[0].start
  }

  ghost predicate Fits(bs: seq<Block>, end: nat, i: nat, size: nat) {
    i < |bs| && !bs[i].used && Payload(bs, end, i) >= size
  }

  /** The lowest-address free block that holds `size` bytes. */
  ghost predicate FirstFit(bs: seq<Block>, end: nat, i: nat, size: nat) {
    Fits(bs, end, i, size) && forall j: nat :: j < i ==> !Fits(bs, end, j, size)
  }

  // --------------------------------------------------------------- the operations

  /** Starts a new free block behind `size` bytes of block `i`. */
  function Split(bs: seq<Block>, i: nat, size: nat): seq<Block>
    requires i < |bs|
  {
    InsertAt(bs, i + 1, Block(bs[i].start + HEADER + size, false))
  }

  /** Lets the block before block `i` take it over. */
  function Absorb(bs: seq<Block>, i: nat): seq<Block>
    requires i < |bs|
  {
    bs[..i] + bs[i + 1..]
  }

  /** Uses block `i` for `size` bytes, splitting off the rest if it can hold a minimal block. */
  function AllocAt(bs: seq<Block>, end: nat, i: nat, size: nat): seq<Block>
    requires i < |bs|
  {
    if Payload(bs, end, i) >= size + HEADER + MIN_ALIGNED
    then Split(bs, i, size)[i := Block(bs[i].start, true)]
    else bs[i := Block(bs[i].start, true)]
  }

  function PlugForward(bs: seq<Block>, i: nat): seq<Block>
    requires i < |bs|
  {
    if i + 1 < |bs| && !bs[i + 1].used then Absorb(bs, i + 1) else bs
  }

  function PlugBackward(bs: seq<Block>, i: nat): seq<Block>
    requires i < |bs|
  {
    if i > 0 && !bs[i - 1].used then Absorb(bs, i) else bs
  }

  /** `plug_holes` on the free block `i`. */
  function Plug(bs: seq<Block>, i: nat): seq<Block>
    requires i < |bs|
  {
    PlugBackward(PlugForward(bs, i), i)
  }

  function Unmark(bs: seq<Block>, i: nat): seq<Block>
    requires i < |bs|
  {
    bs[i := Block(bs[i].start, false)]
  }

  function FreeAt(bs: seq<Block>, i: nat): seq<Block>
    requires i < |bs|
  {
    Plug(Unmark(bs, i), i)
  }

  /** Keeps `size` bytes of the used block `i` and frees the rest. */
  function ShrinkAt(bs: seq<Block>, i: nat, size: nat): seq<Block>
    requires i < |bs|
  {
    Plug(Split(bs, i, size), i + 1)
  }

  // ---------------------------------------------------------------- their effects

  lemma AlignedSum(a: int, b: int)
    requires a % ALIGN == 0 && b % ALIGN == 0
    ensures (a + b) % ALIGN == 0
  {
  }

  lemma SplitTiled(bs: seq<Block>, end: nat, i: nat, size: nat)
    requires Tiled(bs, end) && i < |bs| && size % ALIGN == 0 && size + HEADER <= Payload(bs, end, i)
    ensures Tiled(Split(bs, i, size), end)
  {
    var r := Split(bs, i, size);
    var start := bs[i].start + HEADER + size;
    AlignedSum(bs[i].start + HEADER, size);
    assert start % ALIGN == 0 && start + HEADER <= Next(bs, end, i);
    forall k | 0 <= k < |r|
      ensures r[k].start % ALIGN == 0 && r[k].start + HEADER <= end
      ensures r[k] == if k <= i then bs[k] else if k == i + 1 then Block(start, false) else bs[k - 1]
    {
    }
    forall x, y | 0 <= x < y < |r| ensures r[x].start + HEADER <= r[y].start {
      if x <= i < i + 1 == y {
        assert x < i ==> bs[x].start + HEADER <= bs[i].start;
      } else if x == i + 1 {
        assert y > i + 2 ==> bs[i + 1].start + HEADER <= bs[y - 1].start;
      }
    }
  }

  lemma AbsorbTiled(bs: seq<Block>, end: nat, i: nat)
    requires Tiled(bs, end) && 0 < i < |bs|
    ensures Tiled(Absorb(bs, i), end)
    ensures |Absorb(bs, i)| == |bs| - 1
    ensures forall k :: 0 <= k < i ==> Absorb(bs, i)[k] == bs[k]
    ensures forall k :: i <= k < |bs| - 1 ==> Absorb(bs, i)[k] == bs[k + 1]
  {
    var r := Absorb(bs, i);
    forall k | 0 <= k < |r| ensures r[k] == bs[if k < i then k else k + 1] {
    }
  }

  lemma UsedGood(bs: seq<Block>, end: nat, i: nat)
    requires Tiled(bs, end) && i < |bs|
    requires forall k, j :: 0 <= k < j < |bs| && j == k + 1 && k != i && j != i ==> bs[k].used || bs[j].used
    ensures Good(bs[i := Block(bs[i].start, true)], end)
  {
  }

  lemma AllocGood(bs: seq<Block>, end: nat, i: nat, size: nat)
    requires Good(bs, end) && Fits(bs, end, i, size) && size % ALIGN == 0
    ensures Good(AllocAt(bs, end, i, size), end)
  {
    if Payload(bs, end, i) >= size + HEADER + MIN_ALIGNED {
      var m := Split(bs, i, size);
      SplitTiled(bs, end, i, size);
      assert forall k :: 0 <= k <= i ==> m[k] == bs[k];
      assert forall k :: i + 1 < k < |m| ==> m[k] == bs[k - 1];
      UsedGood(m, end, i);
    } else {
      UsedGood(bs, end, i);
    }
  }

  /** Only the neighbours of the free block `i` may be free as well. */
  ghost predicate CoalescedAround(bs: seq<Block>, i: nat) {
    && i < |bs| && !bs[i].used
    && (forall k, j :: 0 <= k < j < |bs| && j == k + 1 && k != i && j != i ==> bs[k].used || bs[j].used)
    && (i > 1 ==> bs[i - 1].used || bs[i - 2].used)
    && (i + 2 < |bs| ==> bs[i + 1].used || bs[i + 2].used)
  }

  lemma PlugGood(bs: seq<Block>, end: nat, i: nat)
    requires Tiled(bs, end) && CoalescedAround(bs, i)
    ensures Good(Plug(bs, i), end)
  {
    if i + 1 < |bs| && !bs[i + 1].used {
      AbsorbTiled(bs, end, i + 1);
      PlugForwardGood(bs, Absorb(bs, i + 1), i);
      PlugBackwardGood(Absorb(bs, i + 1), end, i);
    } else {
      PlugBackwardGood(bs, end, i);
    }
  }

  lemma PlugForwardGood(bs: seq<Block>, b: seq<Block>, i: nat)
    requires CoalescedAround(bs, i) && i + 1 < |bs| && !bs[i + 1].used && |b| == |bs| - 1
    requires forall k :: 0 <= k <= i ==> b[k] == bs[k]
    requires forall k :: i < k < |b| ==> b[k] == bs[k + 1]
    ensures CoalescedAround(b, i) && (i + 1 < |b| ==> b[i + 1].used)
  {
  }

  lemma PlugBackwardGood(b: seq<Block>, end: nat, i: nat)
    requires Tiled(b, end) && CoalescedAround(b, i) && (i + 1 < |b| ==> b[i + 1].used)
    ensures Good(PlugBackward(b, i), end)
  {
    if i > 0 && !b[i - 1].used {
      AbsorbTiled(b, end, i);
    }
  }

  lemma FreeGood(bs: seq<Block>, end: nat, i: nat)
    requires Good(bs, end) && i < |bs| && bs[i].used
    ensures Good(FreeAt(bs, i), end)
  {
    PlugGood(Unmark(bs, i), end, i);
  }

  lemma ShrinkGood(bs: seq<Block>, end: nat, i: nat, size: nat)
    requires Good(bs, end) && i < |bs| && bs[i].used && size % ALIGN == 0
    requires size + HEADER <= Payload(bs, end, i)
    ensures Good(ShrinkAt(bs, i, size), end)
  {
    var b := Split(bs, i, size);
    SplitTiled(bs, end, i, size);
    assert forall k :: 0 <= k <= i ==> b[k] == bs[k];
    assert forall k :: i + 1 < k < |b| ==> b[k] == bs[k - 1];
    PlugGood(b, end, i + 1);
  }

  /** Freeing a block that was just allocated restores the heap, and with it the lowest free
      block and the amount in use, which depend on the blocks only. */
  lemma AllocThenFree(bs: seq<Block>, end: nat, i: nat, size: nat)
    requires Good(bs, end) && Fits(bs, end, i, size)
    ensures i < |AllocAt(bs, end, i, size)|
    ensures FreeAt(AllocAt(bs, end, i, size), i) == bs
  {
    var r := AllocAt(bs, end, i, size);
    assert i > 0 ==> bs[i - 1].used;
    assert i + 1 < |bs| ==> bs[i + 1].used;
    var f := r[i := Block(r[i].start, false)];
    if Payload(bs, end, i) >= size + HEADER + MIN_ALIGNED {
      assert f[..i + 1] == bs[..i + 1];
      assert f[i + 2..] == bs[i + 1..];
      assert bs == bs[..i + 1] + bs[i + 1..];
    } else {
      assert f == bs;
    }
  }

  // ------------------------------------------------------------------- accounting

  lemma {:induction false} SetUsedSpan(bs: seq<Block>, end: nat, i: nat, used: bool)
    requires i < |bs|
    ensures var span := Next(bs, end, i) - bs[i].start;
      UsedSpan(bs[i := Block(bs[i].start, used)], end)
        == UsedSpan(bs, end) - (if bs[i].used then span else 0) + (if used then span else 0)
  {
    var r := bs[i := Block(bs[i].start, used)];
    if i == 0 {
      assert r[1..] == bs[1..];
    } else {
      assert r[1..] == bs[1..][i - 1 := Block(bs[i].start, used)];
      SetUsedSpan(bs[1..], end, i - 1, used);
    }
  }

  lemma {:induction false} SplitSpan(bs: seq<Block>, end: nat, i: nat, size: nat)
    requires i < |bs|
    ensures UsedSpan(Split(bs, i, size), end)
         == UsedSpan(bs, end) - (if bs[i].used then Payload(bs, end, i) - size else 0)
  {
    var r := Split(bs, i, size);
    var b := Block(bs[i].start + HEADER + size, false);
    if i == 0 {
      assert r[1..] == [b] + bs[1..];
      assert ([b] + bs[1..])[1..] == bs[1..];
    } else {
      assert r[1..] == Split(bs[1..], i - 1, size);
      SplitSpan(bs[1..], end, i - 1, size);
    }
  }

  lemma {:induction false} AbsorbSpan(bs: seq<Block>, end: nat, i: nat)
    requires 0 < i < |bs| && !bs[i].used && !bs[i - 1].used
    ensures UsedSpan(Absorb(bs, i), end) == UsedSpan(bs, end)
  {
    var r := Absorb(bs, i);
    if i == 1 {
      assert r[1..] == bs[1..][1..];
    } else {
      assert r[1..] == Absorb(bs[1..], i - 1);
      AbsorbSpan(bs[1..], end, i - 1);
    }
  }

  lemma PlugSpan(bs: seq<Block>, end: nat, i: nat)
    requires i < |bs| && !bs[i].used
    ensures UsedSpan(Plug(bs, i), end) == UsedSpan(bs, end)
  {
    var b := bs;
    if i + 1 < |bs| && !bs[i + 1].used {
      AbsorbSpan(bs, end, i + 1);
      b := Absorb(bs, i + 1);
    }
    if i > 0 && !b[i - 1].used {
      AbsorbSpan(b, end, i);
    }
  }

  lemma AllocSpan(bs: seq<Block>, end: nat, i: nat, size: nat)
    requires Fits(bs, end, i, size)
    ensures UsedSpan(AllocAt(bs, end, i, size), end) == UsedSpan(bs, end)
      + if Payload(bs, end, i) >= size + HEADER + MIN_ALIGNED then size + HEADER else Payload(bs, end, i) + HEADER
  {
    if Payload(bs, end, i) >= size + HEADER + MIN_ALIGNED {
      SplitSpan(bs, end, i, size);
      SetUsedSpan(Split(bs, i, size), end, i, true);
    } else {
      SetUsedSpan(bs, end, i, true);
    }
  }

  lemma FreeSpanDrop(bs: seq<Block>, end: nat, i: nat)
    requires i < |bs| && bs[i].used
    ensures UsedSpan(FreeAt(bs, i), end) == UsedSpan(bs, end) - (Next(bs, end, i) - bs[i].start)
  {
    SetUsedSpan(bs, end, i, false);
    PlugSpan(Unmark(bs, i), end, i);
  }

  lemma ShrinkSpan(bs: seq<Block>, end: nat, i: nat, size: nat)
    requires i < |bs| && bs[i].used
    ensures UsedSpan(ShrinkAt(bs, i, size), end) == UsedSpan(bs, end) - (Payload(bs, end, i) - size)
  {
    SplitSpan(bs, end, i, size);
    PlugSpan(Split(bs, i, size), end, i + 1);
  }

  /** Nothing is lost: used and free spans together are the whole heap. */
  lemma {:induction false} SpansCoverHeap(bs: seq<Block>, end: nat)
    requires bs != []
    ensures UsedSpan(bs, end) + FreeSpan(bs, end) == end - bs[0].start
  {
    if |bs| > 1 {
      SpansCoverHeap(bs[1..], end);
    } else {
      assert UsedSpan(bs[1..], end) == 0 && FreeSpan(bs[1..], end) == 0;
    }
  }

  // ------------------------------------------------------------- the lowest free block

  lemma FirstFreeIs(bs: seq<Block>, k: nat)
    requires k <= |bs| && (forall j :: 0 <= j < k ==> bs[j].used) && (k < |bs| ==> !bs[k].used)
    ensures FirstFree(bs) == k
  {
  }

  lemma PlugForwardLowest(bs: seq<Block>, end: nat, i: nat)
    requires i < |bs| && !bs[i].used
    ensures LowestFree(PlugForward(bs, i), end) == LowestFree(bs, end)
    ensures PlugForward(bs, i)[..i + 1] == bs[..i + 1]
  {
    var b := PlugForward(bs, i);
    assert forall j :: 0 <= j <= i ==> b[j] == bs[j];
    FirstFreeIs(b, FirstFree(bs));
  }

  lemma PlugBackwardLowest(bs: seq<Block>, end: nat, i: nat)
    requires i < |bs| && !bs[i].used
    ensures LowestFree(PlugBackward(bs, i), end) == LowestFree(bs, end)
  {
    var b := PlugBackward(bs, i);
    if b != bs {
      assert forall j :: 0 <= j < i ==> b[j] == bs[j];
      FirstFreeIs(b, FirstFree(bs));
    }
  }

  // -------------------------------------------------------- the blocks in memory

  function Previous(bs: seq<Block>, i: nat): nat
    requires i < |bs|
  {
    if i == 0 then 0 else bs[i - 1].start
  }

  function Word(pool: int, used: bool): int {
    if used then pool + 1 else pool
  }

  /** The header of block `i`. */
  ghost predicate HeaderOf(c: seq<int>, pool: int, bs: seq<Block>, end: nat, i: nat)
    requires i < |bs|
  {
    var at := bs[i].start;
    && at + HEADER <= |c|
    && c[at] == Word(pool, bs[i].used)
    && c[at + NEXT] == Next(bs, end, i)
    && c[at + PREV] == Previous(bs, i)
  }

  /** The headers in `c` describe the blocks `bs`; the `prev` of the end mark is never read. */
  ghost predicate Rep(c: seq<int>, pool: int, bs: seq<Block>, end: nat) {
    && |c| == end + HEADER
    && pool % 2 == 0
    && c[end] == pool + 1 && c[end + NEXT] == end
    && forall i: nat :: i < |bs| ==> HeaderOf(c, pool, bs, end, i)
  }

  /** Headers do not overlap. */
  ghost predicate Apart(x: nat, y: nat) {
    x == y || x + HEADER <= y || y + HEADER <= x
  }

  lemma StartsApart(bs: seq<Block>, end: nat, i: nat, j: nat)
    requires Tiled(bs, end) && i < |bs| && j < |bs|
    ensures Apart(bs[i].start, bs[j].start) && (i != j ==> bs[i].start != bs[j].start)
    ensures Apart(bs[i].start, Next(bs, end, j)) && (bs[i].start == Next(bs, end, j) <==> i == j + 1)
  {
  }

  lemma AbsorbCells(c: seq<int>, p: nat, b: nat, n: nat, at: nat)
    requires p + HEADER <= b && b + HEADER <= n && n + HEADER <= |c| && at + HEADER <= |c|
    requires Apart(at, p) && Apart(at, b) && Apart(at, n) && at != b
    ensures var c' := c[b := 0][p + NEXT := n][n + PREV := p];
      && c'[at] == c[at]
      && c'[at + NEXT] == (if at == p then n else c[at + NEXT])
      && c'[at + PREV] == (if at == n then p else c[at + PREV])
  {
  }

  lemma AbsorbHeader(c: seq<int>, c': seq<int>, pool: int, bs: seq<Block>, end: nat, i: nat, k: nat)
    requires Tiled(bs, end) && Rep(c, pool, bs, end) && 0 < i < |bs| && k < |bs| - 1
    requires var p, b, n := bs[i - 1].start, bs[i].start, Next(bs, end, i);
      n + PREV < |c| && p + NEXT < |c| && c' == c[b := 0][p + NEXT := n][n + PREV := p]
    ensures |Absorb(bs, i)| == |bs| - 1 && HeaderOf(c', pool, Absorb(bs, i), end, k)
  {
    var j := if k < i then k else k + 1;
    var p, b, n := bs[i - 1].start, bs[i].start, Next(bs, end, i);
    assert HeaderOf(c, pool, bs, end, j);
    StartsApart(bs, end, j, i);
    StartsApart(bs, end, j, i - 1);
    AbsorbCells(c, p, b, n, bs[j].start);
    AbsorbNeighbours(bs, end, i, k);
  }

  lemma AbsorbNeighbours(bs: seq<Block>, end: nat, i: nat, k: nat)
    requires Tiled(bs, end) && 0 < i < |bs| && k < |bs| - 1
    ensures var r, j := Absorb(bs, i), if k < i then k else k + 1;
      && |r| == |bs| - 1 && r[k] == bs[j]
      && Next(r, end, k) == (if k == i - 1 then Next(bs, end, i) else Next(bs, end, j))
      && Previous(r, k) == (if k == i then bs[i - 1].start else Previous(bs, j))
  {
    AbsorbTiled(bs, end, i);
  }

  /** Merging block `i` into its predecessor, as both halves of `plug_holes` do it. */
  lemma AbsorbRep(c: seq<int>, pool: int, bs: seq<Block>, end: nat, i: nat)
    requires Tiled(bs, end) && Rep(c, pool, bs, end) && 0 < i < |bs|
    ensures var p, n := bs[i - 1].start, Next(bs, end, i);
      p + NEXT < |c| && n + PREV < |c|
      && Rep(c[bs[i].start := 0][p + NEXT := n][n + PREV := p], pool, Absorb(bs, i), end)
  {
    var p, n := bs[i - 1].start, Next(bs, end, i);
    var r := Absorb(bs, i);
    AbsorbTiled(bs, end, i);
    assert n + HEADER <= |c|;
    var c' := c[bs[i].start := 0][p + NEXT := n][n + PREV := p];
    forall k: nat | k < |r| ensures HeaderOf(c', pool, r, end, k) {
      AbsorbHeader(c, c', pool, bs, end, i, k);
    }
  }

  /** The memory after writing the header of a new free block inside block `i`. */
  function SplitCells(c: seq<int>, pool: int, bs: seq<Block>, end: nat, i: nat, size: nat): seq<int>
    requires i < |bs| && bs[i].start + 2 * HEADER + size <= Next(bs, end, i) <= end && |c| == end + HEADER
  {
    var p, n := bs[i].start, Next(bs, end, i);
    var s := p + HEADER + size;
    var c1 := c[s := pool][s + NEXT := n][s + PREV := p][p + NEXT := s];
    if n != end then c1[n + PREV := s] else c1
  }

  lemma SplitNeighbours(bs: seq<Block>, end: nat, i: nat, size: nat, k: nat)
    requires i < |bs| && k < |bs|
    ensures var r, at := Split(bs, i, size), if k <= i then k else k + 1; var s := bs[i].start + HEADER + size;
      && |r| == |bs| + 1 && r[at] == bs[k] && r[i + 1] == Block(s, false)
      && Next(r, end, at) == (if k == i then s else Next(bs, end, k))
      && Previous(r, at) == (if k == i + 1 then s else Previous(bs, k))
      && Next(r, end, i + 1) == Next(bs, end, i) && Previous(r, i + 1) == bs[i].start
  {
  }

  lemma SplitCell(c: seq<int>, pool: int, bs: seq<Block>, end: nat, i: nat, size: nat, at: nat)
    requires i < |bs| && bs[i].start + 2 * HEADER + size <= Next(bs, end, i) <= end && |c| == end + HEADER && at + HEADER <= |c|
    requires Apart(at, bs[i].start) && Apart(at, Next(bs, end, i))
    ensures var c' := SplitCells(c, pool, bs, end, i, size); var p, n := bs[i].start, Next(bs, end, i); var s := p + HEADER + size;
      && |c'| == |c|
      && c'[s] == pool && c'[s + NEXT] == n && c'[s + PREV] == p
      && (at == p || at + HEADER <= p || n <= at ==>
            && c'[at] == c[at]
            && c'[at + NEXT] == (if at == p then s else c[at + NEXT])
            && c'[at + PREV] == (if at == n && n != end then s else c[at + PREV]))
  {
  }

  lemma SplitHeader(c: seq<int>, pool: int, bs: seq<Block>, end: nat, i: nat, size: nat, k: nat)
    requires Tiled(bs, end) && Rep(c, pool, bs, end) && i < |bs| && k < |bs|
    requires size % ALIGN == 0 && size + HEADER <= Payload(bs, end, i)
    ensures HeaderOf(SplitCells(c, pool, bs, end, i, size), pool, Split(bs, i, size), end, if k <= i then k else k + 1)
  {
    assert HeaderOf(c, pool, bs, end, k);
    StartsApart(bs, end, k, i);
    SplitNeighbours(bs, end, i, size, k);
    SplitCell(c, pool, bs, end, i, size, bs[k].start);
  }

  lemma SplitRep(c: seq<int>, pool: int, bs: seq<Block>, end: nat, i: nat, size: nat)
    requires Tiled(bs, end) && Rep(c, pool, bs, end) && i < |bs|
    requires size % ALIGN == 0 && size + HEADER <= Payload(bs, end, i)
    ensures Rep(SplitCells(c, pool, bs, end, i, size), pool, Split(bs, i, size), end)
  {
    var r := Split(bs, i, size);
    var c' := SplitCells(c, pool, bs, end, i, size);
    forall k: nat | k < |r| ensures HeaderOf(c', pool, r, end, k) {
      if k == i + 1 {
        SplitNeighbours(bs, end, i, size, i);
      } else {
        SplitHeader(c, pool, bs, end, i, size, if k <= i then k else k - 1);
      }
    }
  }

  lemma SetUsedRep(c: seq<int>, pool: int, bs: seq<Block>, end: nat, i: nat, used: bool)
    requires Tiled(bs, end) && Rep(c, pool, bs, end) && i < |bs|
    ensures Rep(c[bs[i].start := Word(pool, used)], pool, bs[i := Block(bs[i].start, used)], end)
  {
    var r := bs[i := Block(bs[i].start, used)];
    var c' := c[bs[i].start := Word(pool, used)];
    forall k: nat | k < |r| ensures HeaderOf(c', pool, r, end, k) {
      assert HeaderOf(c, pool, bs, end, k);
    }
  }

  // ------------------------------------------------------------ untouched payloads

  /** Cell `x` is payload of the used block `k`. */
  ghost predicate Live(bs: seq<Block>, end: nat, k: nat, x: nat) {
    k < |bs| && bs[k].used && bs[k].start + HEADER <= x < Next(bs, end, k)
  }

  /** Every live cell of `bs` holds the same in both memories. */
  ghost predicate SamePayload(c: seq<int>, c': seq<int>, bs: seq<Block>, end: nat) {
    |c| == |c'| && forall k: nat, x: nat :: Live(bs, end, k, x) && x < |c| ==> c'[x] == c[x]
  }

  lemma LiveOutside(bs: seq<Block>, end: nat, k: nat, x: nat, j: nat)
    requires Tiled(bs, end) && Live(bs, end, k, x) && j < |bs|
    ensures x < bs[j].start || bs[j].start + HEADER <= x
    ensures j != k ==> x < bs[j].start || Next(bs, end, j) <= x
    ensures x < end
  {
  }

  lemma AbsorbPayload(c: seq<int>, bs: seq<Block>, end: nat, i: nat)
    requires Tiled(bs, end) && |c| == end + HEADER && 0 < i < |bs| && !bs[i].used
    ensures var p, n := bs[i - 1].start, Next(bs, end, i);
      SamePayload(c, c[bs[i].start := 0][p + NEXT := n][n + PREV := p], bs, end)
  {
    var p, n := bs[i - 1].start, Next(bs, end, i);
    var c' := c[bs[i].start := 0][p + NEXT := n][n + PREV := p];
    forall k: nat, x: nat | Live(bs, end, k, x) && x < |c| ensures c'[x] == c[x] {
      LiveOutside(bs, end, k, x, i);
      LiveOutside(bs, end, k, x, i - 1);
      if i + 1 < |bs| { LiveOutside(bs, end, k, x, i + 1); }
    }
  }

  lemma SplitPayload(c: seq<int>, pool: int, bs: seq<Block>, end: nat, i: nat, size: nat)
    requires Tiled(bs, end) && |c| == end + HEADER && i < |bs| && size + HEADER <= Payload(bs, end, i)
    ensures var c' := SplitCells(c, pool, bs, end, i, size);
      forall k: nat, x: nat :: Live(bs, end, k, x) && x < |c| && (k != i || x < bs[i].start + HEADER + size) ==> c'[x] == c[x]
  {
    var c' := SplitCells(c, pool, bs, end, i, size);
    forall k: nat, x: nat | Live(bs, end, k, x) && x < |c| && (k != i || x < bs[i].start + HEADER + size)
      ensures c'[x] == c[x]
    {
      LiveOutside(bs, end, k, x, i);
      if i + 1 < |bs| { LiveOutside(bs, end, k, x, i + 1); }
    }
  }

  /** Live cells stay live, and payloads equal, when a free block is merged or a block is split. */
  lemma PayloadChain(a: seq<int>, b: seq<int>, c: seq<int>, bs: seq<Block>, bs': seq<Block>, end: nat)
    requires SamePayload(a, b, bs, end) && SamePayload(b, c, bs', end)
    requires forall k: nat, x: nat :: Live(bs, end, k, x) ==> exists k': nat :: Live(bs', end, k', x)
    ensures SamePayload(a, c, bs, end)
  {
    forall k: nat, x: nat | Live(bs, end, k, x) && x < |a| ensures c[x] == a[x] {
      var k': nat :| Live(bs', end, k', x);
    }
  }

  lemma AbsorbLive(bs: seq<Block>, end: nat, i: nat)
    requires Tiled(bs, end) && 0 < i < |bs| && !bs[i].used
    ensures forall k: nat, x: nat :: Live(bs, end, k, x) ==> exists k': nat :: Live(Absorb(bs, i), end, k', x)
  {
    forall k: nat, x: nat | Live(bs, end, k, x) ensures exists k': nat :: Live(Absorb(bs, i), end, k', x) {
      AbsorbNeighbours(bs, end, i, if k < i then k else k - 1);
      assert Live(Absorb(bs, i), end, if k < i then k else k - 1, x);
    }
  }

  // ------------------------------------------------------- what becomes of other blocks

  /** Block `k` of `bs` is `b`, reaching up to `next`. */
  ghost predicate IsBlock(bs: seq<Block>, end: nat, k: nat, b: Block, next: nat) {
    k < |bs| && bs[k] == b && Next(bs, end, k) == next
  }

  /** Block `k` exists unchanged, with the same extent, in `bs'`. */
  ghost predicate Kept(bs: seq<Block>, bs': seq<Block>, end: nat, k: nat) {
    k < |bs| && exists k': nat :: IsBlock(bs', end, k', bs[k], Next(bs, end, k))
  }

  lemma KeptTrans(a: seq<Block>, b: seq<Block>, c: seq<Block>, end: nat, k: nat, k': nat)
    requires k < |a| && IsBlock(b, end, k', a[k], Next(a, end, k)) && Kept(b, c, end, k')
    ensures Kept(a, c, end, k)
  {
  }

  lemma AllocKeeps(bs: seq<Block>, end: nat, i: nat, size: nat, k: nat)
    requires i < |bs| && k < |bs| && k != i
    ensures Kept(bs, AllocAt(bs, end, i, size), end, k)
  {
    var r := AllocAt(bs, end, i, size);
    if Payload(bs, end, i) >= size + HEADER + MIN_ALIGNED {
      SplitNeighbours(bs, end, i, size, k);
      assert IsBlock(r, end, if k <= i then k else k + 1, bs[k], Next(bs, end, k));
    } else {
      assert IsBlock(r, end, k, bs[k], Next(bs, end, k));
    }
  }

  lemma AbsorbKeeps(bs: seq<Block>, end: nat, i: nat, k: nat) returns (k': nat)
    requires Tiled(bs, end) && 0 < i < |bs| && k < |bs| && k != i && k != i - 1
    ensures k' == (if k < i then k else k - 1) && IsBlock(Absorb(bs, i), end, k', bs[k], Next(bs, end, k))
  {
    k' := if k < i then k else k - 1;
    AbsorbNeighbours(bs, end, i, k');
  }

  lemma PlugKeeps(bs: seq<Block>, end: nat, i: nat, k: nat)
    requires Tiled(bs, end) && i < |bs| && !bs[i].used && k < |bs| && bs[k].used
    ensures Kept(bs, Plug(bs, i), end, k)
  {
    var b, k' := bs, k;
    if i + 1 < |bs| && !bs[i + 1].used {
      k' := AbsorbKeeps(bs, end, i + 1, k);
      AbsorbTiled(bs, end, i + 1);
      b := Absorb(bs, i + 1);
    }
    if i > 0 && !b[i - 1].used {
      var k'' := AbsorbKeeps(b, end, i, k');
      KeptTrans(bs, b, Absorb(b, i), end, k, k');
    } else {
      assert IsBlock(b, end, k', bs[k], Next(bs, end, k));
    }
  }

  lemma FreeKeeps(bs: seq<Block>, end: nat, i: nat, k: nat)
    requires Tiled(bs, end) && i < |bs| && k < |bs| && bs[k].used && k != i
    ensures Kept(bs, FreeAt(bs, i), end, k)
  {
    PlugKeeps(Unmark(bs, i), end, i, k);
    KeptTrans(bs, Unmark(bs, i), FreeAt(bs, i), end, k, k);
  }

  lemma SplitKeeps(bs: seq<Block>, end: nat, i: nat, size: nat, k: nat) returns (k': nat)
    requires i < |bs| && k < |bs| && k != i
    ensures k' == (if k <= i then k else k + 1) && IsBlock(Split(bs, i, size), end, k', bs[k], Next(bs, end, k))
  {
    SplitNeighbours(bs, end, i, size, k);
    k' := if k <= i then k else k + 1;
  }

  lemma PlugAfter(bs: seq<Block>, b: seq<Block>, end: nat, j: nat, k: nat, k': nat)
    requires Tiled(b, end) && j < |b| && !b[j].used
    requires k < |bs| && bs[k].used && IsBlock(b, end, k', bs[k], Next(bs, end, k))
    ensures Kept(bs, Plug(b, j), end, k)
  {
    PlugKeeps(b, end, j, k');
    KeptTrans(bs, b, Plug(b, j), end, k, k');
  }

  lemma ShrinkKeeps(bs: seq<Block>, end: nat, i: nat, size: nat, k: nat)
    requires Tiled(bs, end) && i < |bs| && k < |bs| && bs[k].used && k != i
    requires size % ALIGN == 0 && size + HEADER <= Payload(bs, end, i)
    ensures Kept(bs, ShrinkAt(bs, i, size), end, k)
  {
    SplitTiled(bs, end, i, size);
    var k' := SplitKeeps(bs, end, i, size, k);
    PlugAfter(bs, Split(bs, i, size), end, i + 1, k, k');
  }

  lemma ShrinkSelf(bs: seq<Block>, end: nat, i: nat, size: nat)
    requires Tiled(bs, end) && i < |bs| && bs[i].used
    requires size % ALIGN == 0 && size + HEADER <= Payload(bs, end, i)
    ensures IsBlock(ShrinkAt(bs, i, size), end, i, bs[i], bs[i].start + HEADER + size)
  {
    var b := Split(bs, i, size);
    SplitNeighbours(bs, end, i, size, i);
    if i + 2 < |b| && !b[i + 2].used {
      SplitTiled(bs, end, i, size);
      AbsorbNeighbours(b, end, i + 2, i);
    }
  }

  /** Writing into the payload of one block disturbs neither headers nor other payloads. */
  lemma WritePayload(c: seq<int>, c': seq<int>, pool: int, bs: seq<Block>, end: nat, j: nat)
    requires Tiled(bs, end) && Rep(c, pool, bs, end) && j < |bs| && |c'| == |c|
    requires forall x: nat :: x < |c| && (x < bs[j].start + HEADER || Next(bs, end, j) <= x) ==> c'[x] == c[x]
    ensures Rep(c', pool, bs, end)
    ensures forall k: nat, x: nat :: Live(bs, end, k, x) && k != j && x < |c| ==> c'[x] == c[x]
  {
    forall k: nat | k < |bs| ensures HeaderOf(c', pool, bs, end, k) {
      assert HeaderOf(c, pool, bs, end, k);
      StartsApart(bs, end, k, j);
    }
    forall k: nat, x: nat | Live(bs, end, k, x) && k != j && x < |c| ensures c'[x] == c[x] {
      LiveOutside(bs, end, k, x, j);
    }
  }

  // --------------------------------------------------------------- the code, in place

  /** A pointer handed to the caller: the offset of a payload, or null. */
  type Pointer = Option<nat>

  lemma PayloadAligned(bs: seq<Block>, end: nat, i: nat)
    requires Tiled(bs, end) && i < |bs|
    ensures Payload(bs, end, i) % ALIGN == 0 && Payload(bs, end, i) >= 0
  {
    assert bs[i].start % 64 == 0 && Next(bs, end, i) % 64 == 0;
    assert i + 1 < |bs| ==> bs[i].start + HEADER <= bs[i + 1].start;
  }

  /** Because payloads are multiples of the alignment, a block holds a size exactly when it holds the rounded one. */
  lemma FitsRounded(bs: seq<Block>, end: nat, size: nat)
    requires Tiled(bs, end)
    ensures forall j: nat :: Fits(bs, end, j, size) <==> Fits(bs, end, j, Aligned(size))
  {
    forall j: nat ensures Fits(bs, end, j, size) <==> Fits(bs, end, j, Aligned(size)) {
      if j < |bs| {
        PayloadAligned(bs, end, j);
      }
    }
  }

  /** How much of block `i` an allocation takes: all of it, unless the rest has room for a header and the least payload. */
  lemma TakenSize(bs: seq<Block>, end: nat, i: nat, size: nat)
    requires Tiled(bs, end) && Fits(bs, end, i, size)
    ensures var r, all := AllocAt(bs, end, i, size), Payload(bs, end, i);
      && i < |r| && r[i] == Block(bs[i].start, true)
      && Payload(r, end, i) == if all - size >= HEADER + MIN_ALIGNED then size else all
  {
  }

  /** The heap object and its memory. */
  datatype Snapshot = Snapshot(bs: seq<Block>, lfree: int, used: int, max: int, cells: seq<int>)

  class SmallHeap {
    const end: nat               // offset of heap_end
    const pool: int              // address of the management record
    const heap: array<int>
    var lfree: int
    var used: int
    var max: int
    ghost var bs: seq<Block>

    ghost predicate Described()
      reads this`bs, heap
    {
      var described := Tiled(bs, end) && Rep(heap[..], pool, bs, end);
      described
    }

    ghost function Now(): Snapshot
      reads this, heap
    {
      Snapshot(bs, lfree, used, max, heap[..])
    }

    ghost predicate Valid()
      reads this, heap
    {
      && Described() && Coalesced(bs)
      && lfree == LowestFree(bs, end)
      && used == UsedSpan(bs, end) && used <= max
    }

    /** `rt_smem_init` on an aligned range with room for `memSize` bytes between its two headers. */
    constructor (memSize: nat, pool: int)
      requires memSize % ALIGN == 0 && pool % 2 == 0
      ensures Valid() && fresh(heap) && end == memSize + HEADER && this.pool == pool
      ensures bs == [Block(0, false)] && used == 0
    {
      end := memSize + HEADER;
      this.pool := pool;
      heap := new int[memSize + 2 * HEADER];
      lfree, used, max := 0, 0, 0;
      bs := [Block(0, false)];
      new;
      heap[0] := pool;
      heap[NEXT] := end;
      heap[PREV] := 0;
      heap[end] := pool + 1;
      heap[end + NEXT] := end;
      heap[end + PREV] := end;
      assert HeaderOf(heap[..], pool, bs, end, 0);
      assert UsedSpan(bs[1..], end) == 0;
    }

    /** `MEM_ISUSED` */
    predicate IsUsed(at: nat)
      requires at < heap.Length
      reads heap
    {
      heap[at] % 2 == 1
    }

    /** Takes the header at `mem`, which stands between `pmem` and `next`, out of the list. */
    method RemoveHeader(pmem: nat, mem: nat, next: nat)
      requires pmem + HEADER <= heap.Length && mem < heap.Length && next + HEADER <= heap.Length
      modifies heap
      ensures heap[..] == old(heap[..])[mem := 0][pmem + NEXT := next][next + PREV := pmem]
    {
      heap[mem] := 0;
      heap[pmem + NEXT] := next;
      heap[next + PREV] := pmem;
    }

    /** One merge of `plug_holes`: the block at `pmem` takes over the free block `i` at `mem`. */
    method Merge(pmem: nat, mem: nat, ghost i: nat)
      requires Described() && 0 < i < |bs| && !bs[i].used && bs[i].start == mem && bs[i - 1].start == pmem
      modifies this`bs, heap
      ensures bs == Absorb(old(bs), i) && Described()
      ensures SamePayload(old(heap[..]), heap[..], old(bs), end)
    {
      AbsorbRep(heap[..], pool, bs, end, i);
      AbsorbPayload(heap[..], bs, end, i);
      AbsorbTiled(bs, end, i);
      assert HeaderOf(heap[..], pool, bs, end, i);
      RemoveHeader(pmem, mem, heap[mem + NEXT]);
      bs := Absorb(bs, i);
    }

    /** The first half of `plug_holes`: merge with the block behind. */
    method PlugHoleForward(mem: nat, ghost i: nat)
      requires Described() && i < |bs| && !bs[i].used && bs[i].start == mem && lfree == LowestFree(bs, end)
      modifies this`bs, this`lfree, heap
      ensures bs == PlugForward(old(bs), i) && Described() && lfree == LowestFree(bs, end)
      ensures SamePayload(old(heap[..]), heap[..], old(bs), end)
    {
      PlugForwardLowest(bs, end, i);
      assert HeaderOf(heap[..], pool, bs, end, i);
      var nmem := heap[mem + NEXT];
      assert i + 1 < |bs| ==> HeaderOf(heap[..], pool, bs, end, i + 1);
      if mem != nmem && !IsUsed(nmem) && nmem != end {
        lfree := if lfree == nmem then mem else lfree;
        Merge(mem, nmem, i + 1);
      }
    }

    /** The second half of `plug_holes`: merge with the block in front. */
    method PlugHoleBackward(mem: nat, ghost i: nat)
      requires Described() && i < |bs| && !bs[i].used && bs[i].start == mem && lfree == LowestFree(bs, end)
      modifies this`bs, this`lfree, heap
      ensures bs == PlugBackward(old(bs), i) && Described() && lfree == LowestFree(bs, end)
      ensures SamePayload(old(heap[..]), heap[..], old(bs), end)
    {
      PlugBackwardLowest(bs, end, i);
      assert HeaderOf(heap[..], pool, bs, end, i);
      var pmem := heap[mem + PREV];
      assert i > 0 ==> HeaderOf(heap[..], pool, bs, end, i - 1);
      if pmem != mem && !IsUsed(pmem) {
        lfree := if lfree == mem then pmem else lfree;
        Merge(pmem, mem, i);
      }
    }

    /** `plug_holes` */
    method PlugHoles(mem: nat, ghost i: nat)
      requires Described() && i < |bs| && !bs[i].used && bs[i].start == mem && lfree == LowestFree(bs, end)
      modifies this`bs, this`lfree, heap
      ensures bs == Plug(old(bs), i) && Described() && lfree == LowestFree(bs, end)
      ensures SamePayload(old(heap[..]), heap[..], old(bs), end)
    {
      ghost var bs0, c0 := bs, heap[..];
      PlugForwardLowest(bs, end, i);
      PlugHoleForward(mem, i);
      assert bs[i] == bs0[i];
      ghost var bs1, c1 := bs, heap[..];
      PlugHoleBackward(mem, i);
      if bs1 != bs0 {
        AbsorbLive(bs0, end, i + 1);
        PayloadChain(c0, c1, heap[..], bs0, bs1, end);
      }
    }

    /** Writes a header at `mem2` between `mem` and `next`, and links it on both sides. */
    method InsertHeader(mem: nat, mem2: nat, next: nat)
      requires mem + HEADER <= heap.Length && mem2 + HEADER <= heap.Length && next + HEADER <= heap.Length && end + HEADER == heap.Length
      modifies heap
      ensures var c := old(heap[..])[mem2 := pool][mem2 + NEXT := next][mem2 + PREV := mem][mem + NEXT := mem2];
        heap[..] == if next != end then c[next + PREV := mem2] else c
    {
      heap[mem2] := pool;
      heap[mem2 + NEXT] := next;
      heap[mem2 + PREV] := mem;
      heap[mem + NEXT] := mem2;
      if next != end {
        heap[next + PREV] := mem2;
      }
    }

    /** Writes the header of a new free block behind `size` bytes of block `i`, which starts at `mem`. */
    method SplitBlock(mem: nat, size: nat, ghost i: nat)
      requires Described() && i < |bs| && bs[i].start == mem && size % ALIGN == 0 && size + HEADER <= Payload(bs, end, i)
      modifies this`bs, heap
      ensures bs == Split(old(bs), i, size) && Described()
      ensures heap[..] == SplitCells(old(heap[..]), pool, old(bs), end, i, size)
    {
      SplitRep(heap[..], pool, bs, end, i, size);
      SplitTiled(bs, end, i, size);
      assert HeaderOf(heap[..], pool, bs, end, i);
      assert Next(bs, end, i) <= end;
      InsertHeader(mem, mem + HEADER + size, heap[mem + NEXT]);
      bs := Split(bs, i, size);
    }

    /** The loop of `rt_smem_alloc` that moves `lfree` to the next free block. */
    method AdvanceLowest(ghost i: nat)
      requires Described() && i <= FirstFree(bs) && i < |bs| && bs[i].start == lfree
      modifies this`lfree
      ensures lfree == LowestFree(bs, end)
    {
      ghost var k := i;
      assert HeaderOf(heap[..], pool, bs, end, k);
      while IsUsed(lfree) && lfree != end
        invariant k <= FirstFree(bs)
        invariant lfree == if k < |bs| then bs[k].start else end
        decreases |bs| - k
      {
        assert HeaderOf(heap[..], pool, bs, end, k);
        lfree := heap[lfree + NEXT];
        k := k + 1;
      }
      assert k < |bs| ==> HeaderOf(heap[..], pool, bs, end, k);
    }

    /** The search loop of `rt_smem_alloc`: it starts at `lfree` and misses nothing. */
    method Search(size: nat) returns (ptr: nat, found: bool, ghost i: nat)
      requires Valid() && size + HEADER <= end
      ensures found ==> FirstFit(bs, end, i, size) && ptr == bs[i].start
      ensures !found ==> forall j: nat :: !Fits(bs, end, j, size)
    {
      ptr := lfree;
      i := FirstFree(bs);
      while ptr <= end - HEADER - size
        invariant i <= |bs| && ptr == if i < |bs| then bs[i].start else end
        invariant forall j: nat :: j < i ==> !Fits(bs, end, j, size)
        decreases |bs| - i
      {
        assert HeaderOf(heap[..], pool, bs, end, i);
        if !IsUsed(ptr) && heap[ptr + NEXT] - (ptr + HEADER) >= size {
          return ptr, true, i;
        }
        ptr := heap[ptr + NEXT];
        i := i + 1;
      }
      found := false;
    }

    /** Writes MEM_USED or MEM_FREED into the header of block `i`. */
    method Mark(mem: nat, flag: bool, ghost i: nat)
      requires Described() && i < |bs| && bs[i].start == mem
      modifies this`bs, heap
      ensures bs == old(bs)[i := Block(mem, flag)] && Described()
      ensures forall x: nat :: x < heap.Length && x != mem ==> heap[x] == old(heap[x])
      ensures SamePayload(old(heap[..]), heap[..], old(bs), end)
    {
      SetUsedRep(heap[..], pool, bs, end, i, flag);
      assert HeaderOf(heap[..], pool, bs, end, i);
      ghost var c := heap[..];
      heap[mem] := if flag then pool + 1 else pool;
      assert heap[..] == c[mem := Word(pool, flag)];
      forall k: nat, x: nat | Live(bs, end, k, x) && x < |c| ensures heap[..][x] == c[x] {
        LiveOutside(bs, end, k, x, i);
      }
      bs := bs[i := Block(mem, flag)];
    }

    /** Splits block `i` where it is big enough and accounts for what will be in use. */
    method Carve(mem: nat, size: nat, ghost i: nat)
      requires Valid() && Fits(bs, end, i, size) && bs[i].start == mem && size % ALIGN == 0
      modifies this`bs, this`used, heap
      ensures Described() && i < |bs| && bs[i].start == mem
      ensures bs[i := Block(mem, true)] == AllocAt(old(bs), end, i, size)
      ensures used == UsedSpan(AllocAt(old(bs), end, i, size), end)
      ensures SamePayload(old(heap[..]), heap[..], old(bs), end)
      ensures forall k: nat, x: nat :: Live(old(bs), end, k, x) ==> exists k': nat :: Live(bs, end, k', x)
    {
      AllocSpan(bs, end, i, size);
      assert HeaderOf(heap[..], pool, bs, end, i);
      if heap[mem + NEXT] - (mem + HEADER) >= size + HEADER + MIN_ALIGNED {
        SplitPayload(heap[..], pool, bs, end, i, size);
        SplitLive(bs, end, i, size);
        SplitBlock(mem, size, i);
        used := used + size + HEADER;
      } else {
        used := used + heap[mem + NEXT] - mem;
      }
    }

    /** Takes the block `i` found by the search into use and keeps the books. */
    method Claim(mem: nat, size: nat, ghost i: nat)
      requires Valid() && Fits(bs, end, i, size) && bs[i].start == mem && size % ALIGN == 0
      modifies this, heap
      ensures bs == AllocAt(old(bs), end, i, size) && Described() && Coalesced(bs)
      ensures used == UsedSpan(bs, end) && max == Max(old(max), used) && lfree == old(lfree)
      ensures SamePayload(old(heap[..]), heap[..], old(bs), end)
    {
      AllocGood(bs, end, i, size);
      ghost var bs0, c0 := bs, heap[..];
      Carve(mem, size, i);
      if max < used {
        max := used;
      }
      ghost var bs1, c1 := bs, heap[..];
      Mark(mem, true, i);
      PayloadChain(c0, c1, heap[..], bs0, bs1, end);
    }

    /** The search of `rt_smem_alloc` and what follows it, for an adjusted size. */
    method AllocAligned(need: nat) returns (p: Pointer, ghost i: nat)
      requires Valid() && need % ALIGN == 0 && need + HEADER <= end
      modifies this, heap
      ensures Valid()
      ensures p.Some? ==> FirstFit(old(bs), end, i, need) && p == Some(old(bs)[i].start + HEADER)
      ensures p.Some? ==> bs == AllocAt(old(bs), end, i, need) && max == Max(old(max), used)
      ensures p.None? ==> unchanged(this) && heap[..] == old(heap[..]) && forall j: nat :: !Fits(bs, end, j, need)
      ensures SamePayload(old(heap[..]), heap[..], old(bs), end)
    {
      var ptr, found;
      ptr, found, i := Search(need);
      if !found {
        return None, i;
      }
      AllocLowest(bs, end, i, need);
      Claim(ptr, need, i);
      if ptr == lfree {
        AdvanceLowest(i);
      }
      p := Some(ptr + HEADER);
    }

    /** `rt_smem_alloc`: exact first fit. */
    method Alloc(size: nat) returns (p: Pointer, ghost i: nat)
      requires Valid()
      modifies this, heap
      ensures Valid()
      ensures p.None? <==> size == 0 || forall j: nat :: !Fits(old(bs), end, j, size)
      ensures p.Some? ==> FirstFit(old(bs), end, i, size) && p == Some(old(bs)[i].start + HEADER)
      ensures p.Some? ==> i < |bs| && bs[i].used && p.value == bs[i].start + HEADER && Payload(bs, end, i) >= size
      ensures p.Some? ==> bs == AllocAt(old(bs), end, i, Aligned(size)) && max == Max(old(max), used)
      ensures p.None? ==> unchanged(this) && heap[..] == old(heap[..])
      ensures SamePayload(old(heap[..]), heap[..], old(bs), end)
    {
      if size == 0 {
        return None, 0;
      }
      var need := Aligned(size);
      if need < MIN_ALIGNED {
        need := MIN_ALIGNED;
      }
      assert need == Aligned(size);
      FitsRounded(bs, end, size);
      if need > end - HEADER {
        NoneFits(bs, end, need);
        return None, 0;
      }
      ghost var bs0 := bs;
      p, i := AllocAligned(need);
      if p.Some? {
        TakenSize(bs0, end, i, need);
      }
    }

    /** Marks block `i` free and merges it with its neighbours. */
    method Release(mem: nat, ghost i: nat)
      requires Valid() && i < |bs| && bs[i].used && mem == bs[i].start
      modifies this`bs, this`lfree, this`used, heap
      ensures bs == FreeAt(old(bs), i) && Described() && lfree == LowestFree(bs, end)
      ensures used == old(used) - (Next(old(bs), end, i) - mem)
      ensures SamePayload(old(heap[..]), heap[..], Unmark(old(bs), i), end)
    {
      FreedLowest(bs, end, i);
      ghost var bs0, c0 := bs, heap[..];
      Mark(mem, false, i);
      ghost var bs1, c1 := bs, heap[..];
      if mem < lfree {
        lfree := mem;
      }
      var next := heap[mem + NEXT];
      assert next == Next(bs0, end, i) by {
        assert HeaderOf(heap[..], pool, bs, end, i);
        assert Next(bs, end, i) == Next(bs0, end, i);
      }
      used := used - (next - mem);
      Close(mem, i, bs0, c0, bs1, c1);
    }

    /** The end of a release: the block is merged, and no live payload has changed since `c0`. */
    method Close(mem: nat, ghost i: nat, ghost bs0: seq<Block>, ghost c0: seq<int>, ghost bs1: seq<Block>, ghost c1: seq<int>)
      requires Described() && i < |bs0| && bs0[i].used && bs == bs1 == Unmark(bs0, i) && mem == bs[i].start
      requires lfree == LowestFree(bs, end)
      requires c1 == heap[..] && |c0| == |c1| && SamePayload(c0, c1, bs0, end)
      modifies this`bs, this`lfree, heap
      ensures Described() && bs == FreeAt(bs0, i) && lfree == LowestFree(bs, end)
      ensures SamePayload(c0, heap[..], bs1, end)
    {
      PlugHoles(mem, i);
      ghost var c2 := heap[..];
      FreedPayload(c0, c1, c2, bs0, bs1, end, i);
    }

    /** `rt_smem_free` on a pointer got from this heap, or on null. */
    method Free(rmem: Pointer, ghost i: nat)
      requires Valid()
      requires rmem.Some? ==> i < |bs| && bs[i].used && rmem.value == bs[i].start + HEADER
      modifies this, heap
      ensures Valid() && max == old(max)
      ensures rmem.None? ==> unchanged(this) && heap[..] == old(heap[..])
      ensures rmem.Some? ==> bs == FreeAt(old(bs), i)
      ensures rmem.Some? ==> SamePayload(old(heap[..]), heap[..], Unmark(old(bs), i), end)
    {
      if rmem.Some? {
        FreeSpanDrop(bs, end, i);
        FreeGood(bs, end, i);
        assert Next(bs, end, i) >= bs[i].start;
        Release(rmem.value - HEADER, i);
      }
    }

    /** The split of `rt_smem_realloc` before `plug_holes`. */
    method CutTail(mem: nat, size: nat, ghost i: nat)
      requires Valid() && i < |bs| && bs[i].used && mem == bs[i].start
      requires size % ALIGN == 0 && size + HEADER <= Payload(bs, end, i)
      modifies this`bs, this`used, this`lfree, heap
      ensures bs == Split(old(bs), i, size) && Described() && lfree == LowestFree(bs, end)
      ensures used == old(used) - (Payload(old(bs), end, i) - size)
      ensures heap[..] == SplitCells(old(heap[..]), pool, old(bs), end, i, size)
    {
      SplitLowest(bs, end, i, size);
      assert HeaderOf(heap[..], pool, bs, end, i);
      used := used - (heap[mem + NEXT] - mem - HEADER - size);
      SplitBlock(mem, size, i);
      if mem + HEADER + size < lfree {
        lfree := mem + HEADER + size;
      }
    }

    /** The end of the split: the rest behind block `i` of `bs0` is merged with what follows. */
    method CloseTail(mem: nat, size: nat, ghost i: nat, ghost bs0: seq<Block>, ghost c0: seq<int>)
      requires Described() && Tiled(bs0, end) && i < |bs0| && bs0[i].used && mem == bs0[i].start
      requires size % ALIGN == 0 && size + HEADER <= Payload(bs0, end, i) && |c0| == end + HEADER
      requires bs == Split(bs0, i, size) && lfree == LowestFree(bs, end)
      requires heap[..] == SplitCells(c0, pool, bs0, end, i, size)
      modifies this`bs, this`lfree, heap
      ensures Described() && bs == ShrinkAt(bs0, i, size) && lfree == LowestFree(bs, end)
      ensures forall k: nat, x: nat :: Live(bs0, end, k, x) && (k != i || x < mem + HEADER + size) ==>
                x < heap.Length && heap[..][x] == c0[x]
    {
      SplitPayload(c0, pool, bs0, end, i, size);
      SplitNeighbours(bs0, end, i, size, i);
      ghost var c1 := heap[..];
      PlugHoles(mem + HEADER + size, i + 1);
      ShrunkPayload(c0, c1, heap[..], bs0, end, i, size);
    }

    /** The split of `rt_smem_realloc`: keep `size` bytes of block `i`, free the rest. */
    method Shrink(mem: nat, size: nat, ghost i: nat)
      requires Valid() && i < |bs| && bs[i].used && mem == bs[i].start
      requires size % ALIGN == 0 && size + HEADER <= Payload(bs, end, i)
      modifies this, heap
      ensures Valid() && max == old(max) && bs == ShrinkAt(old(bs), i, size)
      ensures forall k: nat, x: nat :: Live(old(bs), end, k, x) && (k != i || x < mem + HEADER + size) ==>
                x < heap.Length && heap[..][x] == old(heap[..])[x]
    {
      ghost var bs0, c0 := bs, heap[..];
      ShrinkSpan(bs, end, i, size);
      ShrinkGood(bs, end, i, size);
      CutTail(mem, size, i);
      CloseTail(mem, size, i, bs0, c0);
    }

    /** The end of the slow path of `rt_smem_realloc`: copy block `i` into block `a`, then free it. */
    method MoveInto(nmem: nat, rmem: nat, need: nat, ghost a: nat, ghost i: nat) returns (n: nat)
      requires Valid() && a < |bs| && i < |bs| && a != i && bs[a].used && bs[i].used
      requires nmem == bs[a].start + HEADER && rmem == bs[i].start + HEADER && need <= Payload(bs, end, a)
      modifies this, heap
      ensures Valid() && max == old(max) && bs == FreeAt(old(bs), i)
      ensures n == Min(Payload(old(bs), end, i), need) && SameBytes(old(heap[..]), heap[..], rmem, nmem, n)
      ensures OthersSame(old(heap[..]), heap[..], old(bs), end, {a, i})
    {
      ghost var bs0, c0 := bs, heap[..];
      assert HeaderOf(heap[..], pool, bs, end, i);
      assert Next(bs, end, a) <= end && Next(bs, end, i) <= end;
      StartsApart(bs, end, i, a);
      StartsApart(bs, end, a, i);
      n := Min(heap[rmem - HEADER + NEXT] - rmem, need);
      CopyBytes(heap, nmem, rmem, n);
      ghost var c1 := heap[..];
      assert SameBytes(c0, c1, rmem, nmem, n);
      WritePayload(c0, c1, pool, bs, end, a);
      assert Valid();
      Free(Some(rmem), i);
      MovedPayload(c0, c1, heap[..], bs0, end, a, i, n);
    }

    /** The slow path once block `a` of the heap `s` has been allocated. */
    method MoveBehind(nmem: nat, rmem: nat, need: nat, ghost s: Snapshot, ghost i: nat, ghost a: nat) returns (ghost j: nat, ghost i1: nat)
      requires Valid() && Good(s.bs, end) && FirstFit(s.bs, end, a, need) && bs == AllocAt(s.bs, end, a, need) && need % ALIGN == 0
      requires i < |s.bs| && s.bs[i].used && rmem == s.bs[i].start + HEADER && nmem == s.bs[a].start + HEADER
      requires |s.cells| == end + HEADER && SamePayload(s.cells, heap[..], s.bs, end) && max == Max(s.max, used)
      modifies this, heap
      ensures Valid() && Carried(s, Now(), end, i, need, nmem, j) && TakenThenFreed(s, Now(), end, i, need, nmem, a, i1)
    {
      ghost var bs1, c1 := bs, heap[..];
      j, i1 := MovePlan(s.bs, bs1, end, i, a, need);
      var n := MoveInto(nmem, rmem, need, a, i1);
      ghost var t := Now();
      MoveKept(s.cells, c1, t.cells, s.bs, bs1, end, i, a, i1, need, rmem, nmem, n);
      IsTakenThenFreed(s, t, bs1, end, i, need, a, i1);
      IsCarried(s, t, end, i, need, rmem, nmem, j, n);
    }

    /** The slow path of `rt_smem_realloc`: allocate, copy, free. */
    method Move(rmem: nat, need: nat, ghost i: nat) returns (p: Pointer, ghost j: nat)
      requires Valid() && i < |bs| && bs[i].used && rmem == bs[i].start + HEADER
      requires 0 < need && need % ALIGN == 0 && need + HEADER <= end
      requires need != Payload(bs, end, i) && !CutsInPlace(bs, end, i, need)
      modifies this, heap
      ensures Valid() && ResizeOutcome(old(Now()), Now(), end, i, need, p, j)
    {
      ghost var s, a, i1 := Now(), 0, 0;
      assert 0 <= Payload(bs, end, i);
      j := i;
      p, a := AllocAligned(need);
      if p.Some? {
        j, i1 := MoveBehind(p.value, rmem, need, s, i, a);
        MoveOutcome(s, Now(), end, i, need, p.value, j, a, i1);
      } else {
        FailOutcome(s, end, i, need, j);
      }
    }

    /** `rt_smem_realloc` for a live block and a positive aligned size that the heap can hold. */
    method Resize(rmem: nat, need: nat, ghost i: nat) returns (p: Pointer, ghost j: nat)
      requires Valid() && i < |bs| && bs[i].used && rmem == bs[i].start + HEADER
      requires 0 < need && need % ALIGN == 0 && need + HEADER <= end
      modifies this, heap
      ensures Valid() && ResizeOutcome(old(Now()), Now(), end, i, need, p, j)
    {
      ghost var s := Now();
      assert HeaderOf(heap[..], pool, bs, end, i);
      assert Payload(bs, end, i) >= 0 && Next(bs, end, i) <= end;
      var mem := rmem - HEADER;
      var size := heap[mem + NEXT] - mem - HEADER;
      j := i;
      if size == need {
        KeepOutcome(s, end, i, need);
        return Some(rmem), i;
      }
      if need + HEADER + MIN_SIZE < size {
        Shrink(mem, need, i);
        ShrinkOutcome(s, Now(), end, i, need);
        return Some(rmem), i;
      }
      p, j := Move(rmem, need, i);
    }

    /** `rt_smem_realloc` */
    method Realloc(rmem: Pointer, newsize: nat, ghost i: nat) returns (p: Pointer, ghost j: nat)
      requires Valid()
      requires rmem.Some? ==> i < |bs| && bs[i].used && rmem.value == bs[i].start + HEADER
      modifies this, heap
      ensures Valid()
      ensures newsize == 0 ==> p == None && max == old(max) && bs == if rmem.Some? then FreeAt(old(bs), i) else old(bs)
      ensures newsize > 0 && rmem.Some? ==> ResizeOutcome(old(Now()), Now(), end, i, Aligned(newsize), p, j)
      ensures newsize > 0 && p.Some? ==> j < |bs| && bs[j].used && p.value == bs[j].start + HEADER && Payload(bs, end, j) >= newsize
      ensures newsize > 0 && rmem.None? ==> (p.Some? <==> exists k: nat :: Fits(old(bs), end, k, Aligned(newsize)))
      ensures newsize > 0 && rmem.None? && p.Some? ==>
                && FirstFit(old(bs), end, j, Aligned(newsize)) && p.value == old(bs)[j].start + HEADER
                && bs == AllocAt(old(bs), end, j, Aligned(newsize)) && max == Max(old(max), used)
      ensures newsize > 0 && rmem.None? && p.None? ==> Now() == old(Now())
    {
      var need := Aligned(newsize);
      j := 0;
      if need > end - HEADER {
        NoneFits(bs, end, need);
        assert rmem.Some? ==> Payload(bs, end, i) <= end - HEADER;
        return None, j;
      } else if need == 0 {
        Free(rmem, i);
        return None, j;
      }
      if rmem == None {
        assert Aligned(need) == need;
        p, j := Alloc(need);
        return;
      }
      p, j := Resize(rmem.value, need, i);
    }
  }

  // ------------------------------------------------------------------ what a resize does

  /** Block `i` is so much larger than `need` that the rest is split off. */
  predicate CutsInPlace(bs: seq<Block>, end: nat, i: nat, need: nat)
    requires i < |bs|
  {
    need + HEADER + MIN_SIZE < Payload(bs, end, i)
  }

  /** Block `a` was allocated for `need` bytes, then block `i`, which is block `i1` by then, was freed. */
  ghost predicate TakenThenFreed(s: Snapshot, t: Snapshot, end: nat, i: nat, need: nat, q: int, a: nat, i1: nat)
    requires i < |s.bs|
  {
    var moved :=
      && FirstFit(s.bs, end, a, need) && q == s.bs[a].start + HEADER
      && var taken := AllocAt(s.bs, end, a, need);
      && IsBlock(taken, end, i1, s.bs[i], Next(s.bs, end, i)) && t.bs == FreeAt(taken, i1)
      && t.max == Max(s.max, UsedSpan(taken, end));
    moved
  }

  /** The blocks after a successful resize and the maximum of use, which counts the moment when both blocks are in use. */
  ghost predicate Booked(s: Snapshot, t: Snapshot, end: nat, i: nat, need: nat, q: int)
    requires i < |s.bs|
  {
    if need != Payload(s.bs, end, i) && !CutsInPlace(s.bs, end, i, need) then
      exists a: nat, i1: nat :: TakenThenFreed(s, t, end, i, need, q, a, i1)
    else
      q == s.bs[i].start + HEADER && t.max == s.max && t.bs == if need == Payload(s.bs, end, i) then s.bs else ShrinkAt(s.bs, i, need)
  }

  /** The block `j` at `q` has room for `need` bytes and the old first bytes; other blocks and their bytes are as before. */
  ghost predicate Carried(s: Snapshot, t: Snapshot, end: nat, i: nat, need: nat, q: nat, j: nat)
    requires i < |s.bs|
  {
    var resized :=
      && q >= HEADER && Holds(t.bs, end, j, q - HEADER, need)
      && OthersKept(s.bs, t.bs, end, i, q - HEADER)
      && SameBytes(s.cells, t.cells, s.bs[i].start + HEADER, q, Min(Max(0, Payload(s.bs, end, i)), need))
      && OthersSame(s.cells, t.cells, s.bs, end, {i});
    resized
  }

  /** What `rt_smem_realloc` promises for the live block `i` and a positive aligned size; `j` is the block returned. */
  ghost predicate ResizeOutcome(s: Snapshot, t: Snapshot, end: nat, i: nat, need: nat, p: Pointer, j: nat) {
    var kept :=
      && i < |s.bs|
      && (p.None? <==> need != Payload(s.bs, end, i) && !CutsInPlace(s.bs, end, i, need) && forall k: nat :: !Fits(s.bs, end, k, need))
      && (p.None? ==> t == s)
      && (p.Some? ==> Carried(s, t, end, i, need, p.value, j) && Booked(s, t, end, i, need, p.value));
    kept
  }

  /** A resize leaves the block where it is exactly when it has the size already, or so much more that a rest can be split off. */
  lemma StaysIff(s: Snapshot, t: Snapshot, end: nat, i: nat, need: nat, p: Pointer, j: nat)
    requires Tiled(s.bs, end) && ResizeOutcome(s, t, end, i, need, p, j) && s.bs[i].used
    ensures var payload := Next(s.bs, end, i) - s.bs[i].start - HEADER;
      p == Some(s.bs[i].start + HEADER) <==> need == payload || need + HEADER + MIN_SIZE < payload
  {
    if p.Some? && need != Payload(s.bs, end, i) && !CutsInPlace(s.bs, end, i, need) {
      var a: nat, i1: nat :| TakenThenFreed(s, t, end, i, need, p.value, a, i1);
      StartsApart(s.bs, end, i, a);
    }
  }

  /** Where the blocks are once block `a` has been allocated, and will be once block `i` is freed. */
  lemma MovePlan(bs: seq<Block>, bs1: seq<Block>, end: nat, i: nat, a: nat, need: nat) returns (j: nat, i1: nat)
    requires Good(bs, end) && Fits(bs, end, a, need) && bs1 == AllocAt(bs, end, a, need) && need % ALIGN == 0
    requires i < |bs| && bs[i].used
    ensures IsBlock(bs1, end, i1, bs[i], Next(bs, end, i)) && i1 != a
    ensures a < |bs1| && bs1[a] == Block(bs[a].start, true) && need <= Payload(bs1, end, a)
    ensures Holds(FreeAt(bs1, i1), end, j, bs[a].start, need) && OthersKept(bs, FreeAt(bs1, i1), end, i, bs[a].start)
  {
    TakenSize(bs, end, a, need);
    AllocKeeps(bs, end, a, need, i);
    i1 :| IsBlock(bs1, end, i1, bs[i], Next(bs, end, i));
    StartsApart(bs, end, i, a);
    j := MovedBlocks(bs, bs1, end, i, a, i1, need);
  }

  lemma IsTakenThenFreed(s: Snapshot, t: Snapshot, bs1: seq<Block>, end: nat, i: nat, need: nat, a: nat, i1: nat)
    requires i < |s.bs| && FirstFit(s.bs, end, a, need) && bs1 == AllocAt(s.bs, end, a, need)
    requires IsBlock(bs1, end, i1, s.bs[i], Next(s.bs, end, i)) && t.bs == FreeAt(bs1, i1) && t.max == Max(s.max, UsedSpan(bs1, end))
    ensures TakenThenFreed(s, t, end, i, need, s.bs[a].start + HEADER, a, i1)
  {
  }

  lemma MoveKept(c: seq<int>, c1: seq<int>, c2: seq<int>, bs: seq<Block>, bs1: seq<Block>, end: nat, i: nat, a: nat, i1: nat, need: nat,
                 p: nat, q: nat, n: nat)
    requires Good(bs, end) && Fits(bs, end, a, need) && bs1 == AllocAt(bs, end, a, need) && need % ALIGN == 0
    requires i < |bs| && bs[i].used && IsBlock(bs1, end, i1, bs[i], Next(bs, end, i)) && n == Min(Payload(bs1, end, i1), need)
    requires p == bs[i].start + HEADER && q == bs[a].start + HEADER && |c| == end + HEADER && SamePayload(c, c1, bs, end)
    requires SameBytes(c1, c2, p, q, n) && OthersSame(c1, c2, bs1, end, {a, i1})
    ensures n == Min(Max(0, Payload(bs, end, i)), need)
    ensures SameBytes(c, c2, p, q, n) && OthersSame(c, c2, bs, end, {i})
  {
    assert n == Min(Max(0, Payload(bs, end, i)), need);
    MoveResult(c, c1, c2, bs, bs1, end, i, a, i1, need, n);
  }

  lemma IsCarried(s: Snapshot, t: Snapshot, end: nat, i: nat, need: nat, p: nat, q: nat, j: nat, n: nat)
    requires i < |s.bs| && n == Min(Max(0, Payload(s.bs, end, i)), need) && p == s.bs[i].start + HEADER && q >= HEADER
    requires Holds(t.bs, end, j, q - HEADER, need) && OthersKept(s.bs, t.bs, end, i, q - HEADER)
    requires SameBytes(s.cells, t.cells, p, q, n) && OthersSame(s.cells, t.cells, s.bs, end, {i})
    ensures Carried(s, t, end, i, need, q, j)
  {
  }

  lemma MoveOutcome(s: Snapshot, t: Snapshot, end: nat, i: nat, need: nat, q: nat, j: nat, a: nat, i1: nat)
    requires i < |s.bs| && 0 <= Payload(s.bs, end, i) != need && !CutsInPlace(s.bs, end, i, need)
    requires TakenThenFreed(s, t, end, i, need, q, a, i1) && Carried(s, t, end, i, need, q, j)
    ensures ResizeOutcome(s, t, end, i, need, Some(q), j)
  {
  }

  lemma FailOutcome(s: Snapshot, end: nat, i: nat, need: nat, j: nat)
    requires i < |s.bs| && Payload(s.bs, end, i) != need && !CutsInPlace(s.bs, end, i, need)
    requires forall k: nat :: !Fits(s.bs, end, k, need)
    ensures ResizeOutcome(s, s, end, i, need, None, j)
  {
  }

  lemma KeepOutcome(s: Snapshot, end: nat, i: nat, need: nat)
    requires Tiled(s.bs, end) && i < |s.bs| && s.bs[i].used && need == Payload(s.bs, end, i) && |s.cells| == end + HEADER
    ensures ResizeOutcome(s, s, end, i, need, Some(s.bs[i].start + HEADER), i)
  {
    KeptSelf(s.bs, end, i);
  }

  lemma ShrinkOutcome(s: Snapshot, t: Snapshot, end: nat, i: nat, need: nat)
    requires Tiled(s.bs, end) && i < |s.bs| && s.bs[i].used && need % ALIGN == 0 && |s.cells| == |t.cells| == end + HEADER
    requires CutsInPlace(s.bs, end, i, need) && t.bs == ShrinkAt(s.bs, i, need) && t.max == s.max
    requires forall k: nat, x: nat :: Live(s.bs, end, k, x) && (k != i || x < s.bs[i].start + HEADER + need) ==> x < |s.cells| && t.cells[x] == s.cells[x]
    ensures ResizeOutcome(s, t, end, i, need, Some(s.bs[i].start + HEADER), i)
  {
    ShrinkResult(s.bs, end, i, need);
    ShrunkBytes(s.cells, t.cells, s.bs, end, i, need);
  }

  /** The live cells of all blocks but those in `except` hold what they held. */
  ghost predicate OthersSame(c: seq<int>, c': seq<int>, bs: seq<Block>, end: nat, except: set<nat>) {
    |c| == |c'| && forall k: nat, x: nat :: Live(bs, end, k, x) && k !in except && x < |c| ==> c'[x] == c[x]
  }

  /** Every used block but `i` is still there, and none of them starts at `start`. */
  ghost predicate OthersKept(bs: seq<Block>, bs': seq<Block>, end: nat, i: nat, start: nat) {
    forall k: nat :: k < |bs| && k != i && bs[k].used ==> Kept(bs, bs', end, k) && bs[k].start != start
  }

  lemma KeptSelf(bs: seq<Block>, end: nat, i: nat)
    requires Tiled(bs, end) && i < |bs|
    ensures OthersKept(bs, bs, end, i, bs[i].start)
  {
    forall k: nat | k < |bs| && k != i ensures Kept(bs, bs, end, k) && bs[k].start != bs[i].start {
      assert IsBlock(bs, end, k, bs[k], Next(bs, end, k));
      StartsApart(bs, end, k, i);
    }
  }

  lemma ShrinkResult(bs: seq<Block>, end: nat, i: nat, size: nat)
    requires Tiled(bs, end) && i < |bs| && bs[i].used && size % ALIGN == 0 && size + HEADER <= Payload(bs, end, i)
    ensures OthersKept(bs, ShrinkAt(bs, i, size), end, i, bs[i].start)
    ensures Holds(ShrinkAt(bs, i, size), end, i, bs[i].start, size)
  {
    ShrinkSelf(bs, end, i, size);
    forall k: nat | k < |bs| && k != i && bs[k].used
      ensures Kept(bs, ShrinkAt(bs, i, size), end, k) && bs[k].start != bs[i].start
    {
      ShrinkKeeps(bs, end, i, size, k);
      StartsApart(bs, end, k, i);
    }
  }

  lemma ShrunkBytes(c: seq<int>, c': seq<int>, bs: seq<Block>, end: nat, i: nat, size: nat)
    requires Tiled(bs, end) && i < |bs| && bs[i].used && |c| == |c'| == end + HEADER && size + HEADER <= Payload(bs, end, i)
    requires forall k: nat, x: nat :: Live(bs, end, k, x) && (k != i || x < bs[i].start + HEADER + size) ==> x < |c| && c'[x] == c[x]
    ensures SameBytes(c, c', bs[i].start + HEADER, bs[i].start + HEADER, size)
    ensures OthersSame(c, c', bs, end, {i})
  {
    var q := bs[i].start + HEADER;
    var before, after := c[q..q + size], c'[q..q + size];
    forall y: nat | y < size ensures after[y] == before[y] {
      assert Live(bs, end, i, q + y);
    }
    assert after == before;
  }

  lemma MoveResult(c0: seq<int>, c1: seq<int>, c2: seq<int>, bs: seq<Block>, bs1: seq<Block>, end: nat, i: nat, a: nat, i1: nat, need: nat, n: nat)
    requires Good(bs, end) && Fits(bs, end, a, need) && bs1 == AllocAt(bs, end, a, need) && need % ALIGN == 0
    requires i < |bs| && bs[i].used && IsBlock(bs1, end, i1, bs[i], Next(bs, end, i)) && n <= Payload(bs, end, i)
    requires |c0| == end + HEADER && SamePayload(c0, c1, bs, end)
    requires SameBytes(c1, c2, bs[i].start + HEADER, bs[a].start + HEADER, n)
    requires OthersSame(c1, c2, bs1, end, {a, i1})
    ensures SameBytes(c0, c2, bs[i].start + HEADER, bs[a].start + HEADER, n)
    ensures OthersSame(c0, c2, bs, end, {i})
  {
    var q := bs[i].start + HEADER;
    var before, after := c0[q..q + n], c1[q..q + n];
    forall y: nat | y < n ensures after[y] == before[y] {
      assert Live(bs, end, i, q + y);
    }
    assert after == before;
    forall k: nat, x: nat | Live(bs, end, k, x) && k != i && x < |c0| ensures c2[x] == c0[x] {
      var k1 := MovedIndex(bs, bs1, end, i, a, i1, need, k);
      assert Live(bs1, end, k1, x);
    }
  }

  /** The used block `j` starts at `start` and has at least `need` bytes of payload. */
  ghost predicate Holds(bs: seq<Block>, end: nat, j: nat, start: nat, need: nat) {
    j < |bs| && bs[j] == Block(start, true) && Payload(bs, end, j) >= need
  }

  lemma MovedPayload(c0: seq<int>, c1: seq<int>, c2: seq<int>, bs: seq<Block>, end: nat, a: nat, i: nat, n: nat)
    requires Tiled(bs, end) && a < |bs| && i < |bs| && a != i && bs[a].used && bs[i].used
    requires |c0| == |c1| == end + HEADER && n <= Payload(bs, end, a)
    requires SamePayload(c1, c2, Unmark(bs, i), end)
    requires forall k: nat, x: nat :: Live(bs, end, k, x) && k != a && x < |c0| ==> c1[x] == c0[x]
    ensures SameBytes(c1, c2, bs[a].start + HEADER, bs[a].start + HEADER, n)
    ensures OthersSame(c0, c2, bs, end, {a, i})
  {
    var p := bs[a].start + HEADER;
    var before, after := c1[p..p + n], c2[p..p + n];
    forall y: nat | y < n ensures after[y] == before[y] {
      assert Live(Unmark(bs, i), end, a, p + y);
    }
    forall k: nat, x: nat | Live(bs, end, k, x) && k != a && k != i && x < |c0| ensures c2[x] == c0[x] {
      assert Live(Unmark(bs, i), end, k, x);
    }
  }

  /** Where the used block `k` of `bs` is after allocating block `a`. */
  lemma MovedIndex(bs: seq<Block>, bs1: seq<Block>, end: nat, i: nat, a: nat, i1: nat, need: nat, k: nat) returns (k1: nat)
    requires Tiled(bs, end) && Fits(bs, end, a, need) && bs1 == AllocAt(bs, end, a, need) && need % ALIGN == 0 && Coalesced(bs)
    requires i < |bs| && bs[i].used && IsBlock(bs1, end, i1, bs[i], Next(bs, end, i))
    requires k < |bs| && bs[k].used && k != i
    ensures IsBlock(bs1, end, k1, bs[k], Next(bs, end, k)) && k1 != a && k1 != i1 && i1 != a
  {
    AllocKeeps(bs, end, a, need, k);
    TakenSize(bs, end, a, need);
    k1 :| IsBlock(bs1, end, k1, bs[k], Next(bs, end, k));
    StartsApart(bs, end, k, a);
    StartsApart(bs, end, k, i);
    StartsApart(bs, end, i, a);
  }

  lemma MovedBlocks(bs: seq<Block>, bs1: seq<Block>, end: nat, i: nat, a: nat, i1: nat, need: nat) returns (j: nat)
    requires Tiled(bs, end) && Fits(bs, end, a, need) && bs1 == AllocAt(bs, end, a, need) && need % ALIGN == 0 && Coalesced(bs)
    requires i < |bs| && bs[i].used && IsBlock(bs1, end, i1, bs[i], Next(bs, end, i))
    ensures Holds(FreeAt(bs1, i1), end, j, bs[a].start, need)
    ensures bs1[a].start == bs[a].start && OthersKept(bs, FreeAt(bs1, i1), end, i, bs[a].start)
  {
    AllocGood(bs, end, a, need);
    TakenSize(bs, end, a, need);
    StartsApart(bs, end, i, a);
    FreeKeeps(bs1, end, i1, a);
    assert bs1[a].start == bs[a].start;
    j := KeptHolds(bs1, FreeAt(bs1, i1), end, a, need);
    forall k: nat | k < |bs| && k != i && bs[k].used
      ensures Kept(bs, FreeAt(bs1, i1), end, k) && bs[k].start != bs[a].start
    {
      MovedOther(bs, bs1, end, i, a, i1, need, k);
    }
  }

  lemma KeptHolds(bs: seq<Block>, bs': seq<Block>, end: nat, a: nat, need: nat) returns (j: nat)
    requires Kept(bs, bs', end, a) && bs[a].used && Payload(bs, end, a) >= need
    ensures Holds(bs', end, j, bs[a].start, need)
  {
    j :| IsBlock(bs', end, j, bs[a], Next(bs, end, a));
  }

  lemma MovedOther(bs: seq<Block>, bs1: seq<Block>, end: nat, i: nat, a: nat, i1: nat, need: nat, k: nat)
    requires Good(bs, end) && Fits(bs, end, a, need) && bs1 == AllocAt(bs, end, a, need) && need % ALIGN == 0
    requires i < |bs| && bs[i].used && IsBlock(bs1, end, i1, bs[i], Next(bs, end, i))
    requires k < |bs| && bs[k].used && k != i && Tiled(bs1, end)
    ensures Kept(bs, FreeAt(bs1, i1), end, k) && bs[k].start != bs[a].start
  {
    var k1 := MovedIndex(bs, bs1, end, i, a, i1, need, k);
    FreeKeeps(bs1, end, i1, k1);
    KeptTrans(bs, bs1, FreeAt(bs1, i1), end, k, k1);
    StartsApart(bs, end, k, a);
  }

  lemma SplitLowest(bs: seq<Block>, end: nat, i: nat, size: nat)
    requires Tiled(bs, end) && i < |bs| && bs[i].used && size + HEADER <= Payload(bs, end, i)
    ensures LowestFree(Split(bs, i, size), end) == Min(bs[i].start + HEADER + size, LowestFree(bs, end))
  {
    var r := Split(bs, i, size);
    var k := FirstFree(bs);
    assert forall j :: 0 <= j <= i ==> r[j] == bs[j];
    FirstFreeIs(r, if k <= i then k else i + 1);
  }

  lemma ShrunkPayload(a: seq<int>, b: seq<int>, c: seq<int>, bs: seq<Block>, end: nat, i: nat, size: nat)
    requires Tiled(bs, end) && i < |bs| && bs[i].used && |a| == |b| == end + HEADER
    requires size + HEADER <= Payload(bs, end, i)
    requires forall k: nat, x: nat :: Live(bs, end, k, x) && x < |a| && (k != i || x < bs[i].start + HEADER + size) ==> b[x] == a[x]
    requires SamePayload(b, c, Split(bs, i, size), end)
    ensures forall k: nat, x: nat :: Live(bs, end, k, x) && (k != i || x < bs[i].start + HEADER + size) ==> x < |a| && c[x] == a[x]
  {
    forall k: nat, x: nat | Live(bs, end, k, x) && (k != i || x < bs[i].start + HEADER + size) ensures x < |a| && c[x] == a[x] {
      LiveOutside(bs, end, k, x, i);
      SplitNeighbours(bs, end, i, size, k);
      assert Live(Split(bs, i, size), end, if k <= i then k else k + 1, x);
    }
  }

  lemma NoneFits(bs: seq<Block>, end: nat, size: nat)
    requires Tiled(bs, end) && size + HEADER > end
    ensures forall j: nat :: !Fits(bs, end, j, size)
  {
    forall j: nat ensures !Fits(bs, end, j, size) {
      assert Fits(bs, end, j, size) ==> Next(bs, end, j) <= end;
    }
  }

  /** The live cells of the other blocks survive marking one block free. */
  lemma FreedPayload(a: seq<int>, b: seq<int>, c: seq<int>, bs: seq<Block>, bs1: seq<Block>, end: nat, i: nat)
    requires SamePayload(a, b, bs, end) && SamePayload(b, c, bs1, end)
    requires i < |bs| && bs[i].used && bs1 == Unmark(bs, i)
    ensures SamePayload(a, c, bs1, end)
  {
    forall k: nat, x: nat | Live(bs1, end, k, x) && x < |a| ensures c[x] == a[x] {
      assert Live(bs, end, k, x);
    }
  }

  lemma SplitLive(bs: seq<Block>, end: nat, i: nat, size: nat)
    requires i < |bs| && !bs[i].used
    ensures forall k: nat, x: nat :: Live(bs, end, k, x) ==> exists k': nat :: Live(Split(bs, i, size), end, k', x)
  {
    forall k: nat, x: nat | Live(bs, end, k, x) ensures exists k': nat :: Live(Split(bs, i, size), end, k', x) {
      SplitNeighbours(bs, end, i, size, k);
      assert Live(Split(bs, i, size), end, if k <= i then k else k + 1, x);
    }
  }

  /** Allocating behind the lowest free block does not move it. */
  lemma AllocLowest(bs: seq<Block>, end: nat, i: nat, size: nat)
    requires Tiled(bs, end) && Fits(bs, end, i, size)
    ensures var r := AllocAt(bs, end, i, size);
      && FirstFree(bs) <= i < |r| && r[i].start == bs[i].start
      && (if bs[i].start == LowestFree(bs, end) then i <= FirstFree(r) else LowestFree(r, end) == LowestFree(bs, end))
  {
    var r := AllocAt(bs, end, i, size);
    var k := FirstFree(bs);
    assert forall j :: 0 <= j < i ==> r[j] == bs[j];
    if k < i {
      FirstFreeIs(r, k);
    }
  }

  lemma FreedLowest(bs: seq<Block>, end: nat, i: nat)
    requires Tiled(bs, end) && i < |bs| && bs[i].used
    ensures LowestFree(Unmark(bs, i), end) == Min(bs[i].start, LowestFree(bs, end))
  {
    var k := FirstFree(bs);
    FirstFreeIs(Unmark(bs, i), if i < k then i else k);
  }
}
