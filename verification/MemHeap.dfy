/**
  The memory heap (`rt-thread/src/memheap.c`): a circular block list in address order with a tail block, and a separate
  circular list of the free blocks that starts at a sentinel.

  Headers are records kept by the address they live at.  Block sequences and what splitting and merging do to them are
  those of the small memory allocator: `RT_MEMHEAP_SIZE` is one header of 64 bytes as well.
 */
module MemHeap {
  import opened Common
  import opened SmallMem

  /** `RT_MEMHEAP_MINIALLOC` */
  const MINIALLOC: nat := 12

  /** The address of the free list header, which lies outside the pool. */
  const SENTINEL := -1

  /** `RT_NULL` among header addresses. */
  const NULL := -2

  /** `struct rt_memheap_item`; `used` is the low bit of `magic`. */
  datatype Item = Item(used: bool, next: int, prev: int, nextFree: int, prevFree: int)

  type Items = map<int, Item>

  // ---------------------------------------------------------------------------------------------
  // What the headers say

  function Before(bs: seq<Block>, end: nat, i: nat): int
    requires i < |bs|
  {
    if i == 0 then end else bs[i - 1].start
  }

  /** The header of block `i`. */
  ghost predicate BlockItem(items: Items, bs: seq<Block>, end: nat, i: nat)
    requires i < |bs|
  {
    && bs[i].start in items
    && var h := items[bs[i].start]; h.used == bs[i].used && h.next == Next(bs, end, i) && h.prev == Before(bs, end, i)
  }

  /** The block list is circular: the used, empty tail block at `end` closes it. */
  ghost predicate TailItem(items: Items, bs: seq<Block>, end: nat) {
    end in items && |bs| > 0 && items[end].used && items[end].next == bs[0].start && items[end].prev == bs[|bs| - 1].start
  }

  ghost predicate BlockList(items: Items, bs: seq<Block>, end: nat) {
    && TailItem(items, bs, end)
    && forall i: nat {:trigger BlockItem(items, bs, end, i)} :: i < |bs| ==> BlockItem(items, bs, end, i)
  }

  /** The `k`-th address on the free list; the sentinel is in front of the first and behind the last. */
  function At(fl: seq<int>, k: int): int {
    if 0 <= k < |fl| then fl[k] else SENTINEL
  }

  ghost predicate Forward(items: Items, fl: seq<int>, k: int) {
    At(fl, k) in items && items[At(fl, k)].nextFree == At(fl, k + 1)
  }

  ghost predicate Backward(items: Items, fl: seq<int>, k: int) {
    At(fl, k) in items && items[At(fl, k)].prevFree == At(fl, k - 1)
  }

  ghost predicate FreeList(items: Items, fl: seq<int>) {
    && Distinct(fl) && SENTINEL !in fl
    && (forall k: int {:trigger Forward(items, fl, k)} :: -1 <= k < |fl| ==> Forward(items, fl, k))
    && (forall k: int {:trigger Backward(items, fl, k)} :: 0 <= k <= |fl| ==> Backward(items, fl, k))
  }

  /** `x` is where a free block starts. */
  ghost predicate FreeStart(bs: seq<Block>, x: int) {
    exists i: nat :: i < |bs| && !bs[i].used && bs[i].start == x
  }

  /** The free list holds exactly the free blocks. */
  ghost predicate ListsFree(bs: seq<Block>, fl: seq<int>) {
    Distinct(fl) && forall x {:trigger FreeStart(bs, x)} :: x in fl <==> FreeStart(bs, x)
  }

  /** The summed payloads of the free blocks. */
  function FreePayload(bs: seq<Block>, end: nat): int {
    if bs == [] then 0
    else FreePayload(bs[1..], end) + if bs[0].used then 0 else Payload(bs, end, 0)
  }

  /** Only `used`, `next` and `prev` of some headers change. */
  ghost predicate FreeLinksKept(items: Items, items': Items, fl: seq<int>) {
    (forall k: int {:trigger At(fl, k)} :: -1 <= k <= |fl| && At(fl, k) in items ==>
       && At(fl, k) in items'
       && items'[At(fl, k)].nextFree == items[At(fl, k)].nextFree && items'[At(fl, k)].prevFree == items[At(fl, k)].prevFree)
  }

  lemma FreeListFrame(items: Items, items': Items, fl: seq<int>)
    requires FreeList(items, fl) && FreeLinksKept(items, items', fl)
    ensures FreeList(items', fl)
  {
    forall k: int | -1 <= k < |fl| ensures Forward(items', fl, k) {
      assert Forward(items, fl, k);
    }
    forall k: int | 0 <= k <= |fl| ensures Backward(items', fl, k) {
      assert Backward(items, fl, k);
    }
  }

  /** Only the free links of some headers change. */
  ghost predicate BlockLinksKept(items: Items, items': Items) {
    forall a :: a in items ==> a in items' && items'[a].used == items[a].used && items'[a].next == items[a].next && items'[a].prev == items[a].prev
  }

  lemma BlockListFrame(items: Items, items': Items, bs: seq<Block>, end: nat)
    requires BlockList(items, bs, end) && BlockLinksKept(items, items')
    ensures BlockList(items', bs, end)
  {
    forall i: nat | i < |bs| ensures BlockItem(items', bs, end, i) {
      assert BlockItem(items, bs, end, i);
    }
  }

  // ---------------------------------------------------------------------------------------------
  // The free list

  function SetNextFree(items: Items, a: int, v: int): Items
    requires a in items
  {
    items[a := items[a].(nextFree := v)]
  }

  function SetPrevFree(items: Items, a: int, v: int): Items
    requires a in items
  {
    items[a := items[a].(prevFree := v)]
  }

  ghost predicate HasFreeLinks(items: Items, a: int) {
    a in items && items[a].nextFree in items && items[a].prevFree in items
  }

  /** Unlinking `a`: its neighbours are joined. */
  function Unlink(items: Items, a: int): (r: Items)
    requires HasFreeLinks(items, a)
    ensures BlockLinksKept(items, r) && r.Keys == items.Keys
  {
    var m := SetPrevFree(items, items[a].nextFree, items[a].prevFree);
    SetNextFree(m, items[a].prevFree, items[a].nextFree)
  }

  /** Linking `a` in behind the sentinel. */
  function PushFree(items: Items, a: int): (r: Items)
    requires a in items && SENTINEL in items && items[SENTINEL].nextFree in items
    ensures BlockLinksKept(items, r) && r.Keys == items.Keys
  {
    var first := items[SENTINEL].nextFree;
    var m := SetPrevFree(SetNextFree(items, a, first), a, SENTINEL);
    SetNextFree(SetPrevFree(m, first, a), SENTINEL, a)
  }

  function Drop(fl: seq<int>, j: nat): seq<int>
    requires j < |fl|
  {
    fl[..j] + fl[j + 1..]
  }

  lemma DropAt(fl: seq<int>, j: nat, k: int)
    requires j < |fl| && -1 <= k <= |fl| - 1
    ensures At(Drop(fl, j), k) == At(fl, if k < j then k else k + 1)
  {
  }

  lemma AtDistinct(fl: seq<int>, i: int, j: int)
    requires Distinct(fl) && SENTINEL !in fl && -1 <= i <= |fl| && -1 <= j <= |fl|
    ensures At(fl, i) == At(fl, j) <==> i == j || (i in {-1, |fl|} && j in {-1, |fl|})
  {
    assert 0 <= i < |fl| ==> fl[i] in fl;
    assert 0 <= j < |fl| ==> fl[j] in fl;
  }

  lemma DropDistinct(fl: seq<int>, j: nat)
    requires Distinct(fl) && j < |fl|
    ensures Distinct(Drop(fl, j))
    ensures forall x :: x in Drop(fl, j) <==> x in fl && x != fl[j]
  {
    var r := Drop(fl, j);
    assert forall i :: 0 <= i < |r| ==> r[i] == fl[if i < j then i else i + 1];
    forall x | x in fl && x != fl[j] ensures x in r {
      var i :| 0 <= i < |fl| && fl[i] == x;
      assert r[if i < j then i else i - 1] == x;
    }
  }

  lemma UnlinkKeeps(items: Items, fl: seq<int>, j: nat)
    requires FreeList(items, fl) && j < |fl|
    ensures HasFreeLinks(items, fl[j]) && FreeList(Unlink(items, fl[j]), Drop(fl, j))
  {
    assert Forward(items, fl, j) && Backward(items, fl, j) && Forward(items, fl, j - 1) && Backward(items, fl, j + 1);
    var r, d := Unlink(items, fl[j]), Drop(fl, j);
    DropDistinct(fl, j);
    forall k: int | -1 <= k < |d| ensures Forward(r, d, k) {
      UnlinkForward(items, fl, j, k);
    }
    forall k: int | 0 <= k <= |d| ensures Backward(r, d, k) {
      UnlinkBackward(items, fl, j, k);
    }
  }

  lemma UnlinkForward(items: Items, fl: seq<int>, j: nat, k: int)
    requires FreeList(items, fl) && j < |fl| && -1 <= k < |fl| - 1 && HasFreeLinks(items, fl[j])
    ensures Forward(Unlink(items, fl[j]), Drop(fl, j), k)
  {
    var from := if k < j then k else k + 1;
    assert Forward(items, fl, j) && Backward(items, fl, j) && Forward(items, fl, from);
    DropAt(fl, j, k);
    DropAt(fl, j, k + 1);
    AtDistinct(fl, from, j - 1);
  }

  lemma UnlinkBackward(items: Items, fl: seq<int>, j: nat, k: int)
    requires FreeList(items, fl) && j < |fl| && 0 <= k <= |fl| - 1 && HasFreeLinks(items, fl[j])
    ensures Backward(Unlink(items, fl[j]), Drop(fl, j), k)
  {
    var from := if k < j then k else k + 1;
    assert Forward(items, fl, j) && Backward(items, fl, j) && Backward(items, fl, from);
    DropAt(fl, j, k);
    DropAt(fl, j, k - 1);
    AtDistinct(fl, from, j + 1);
    AtDistinct(fl, j - 1, j + 1);
  }

  lemma PushAt(fl: seq<int>, a: int, k: int)
    requires 0 < k <= |fl| + 1
    ensures At([a] + fl, k) == At(fl, k - 1)
  {
  }

  lemma PushKeeps(items: Items, fl: seq<int>, a: int)
    requires FreeList(items, fl) && a in items && a !in fl && a != SENTINEL
    ensures SENTINEL in items && items[SENTINEL].nextFree in items && FreeList(PushFree(items, a), [a] + fl)
  {
    assert Forward(items, fl, -1) && Backward(items, fl, 0);
    var r, p := PushFree(items, a), [a] + fl;
    forall k: int | -1 <= k < |p| ensures Forward(r, p, k) {
      PushForward(items, fl, a, k);
    }
    forall k: int | 0 <= k <= |p| ensures Backward(r, p, k) {
      PushBackward(items, fl, a, k);
    }
    forall i, j | 0 <= i < j < |p| ensures p[i] != p[j] {
      assert i == 0 ==> p[j] in fl;
    }
  }

  lemma PushForward(items: Items, fl: seq<int>, a: int, k: int)
    requires FreeList(items, fl) && a in items && a !in fl && a != SENTINEL && -1 <= k <= |fl|
    requires SENTINEL in items && items[SENTINEL].nextFree in items
    ensures Forward(PushFree(items, a), [a] + fl, k)
  {
    assert Forward(items, fl, -1) && Backward(items, fl, 0);
    if k > 0 {
      assert Forward(items, fl, k - 1);
      AtDistinct(fl, k - 1, -1);
      PushAt(fl, a, k);
      assert fl[k - 1] in fl;
    }
    if k >= 0 {
      PushAt(fl, a, k + 1);
    }
  }

  lemma PushBackward(items: Items, fl: seq<int>, a: int, k: int)
    requires FreeList(items, fl) && a in items && a !in fl && a != SENTINEL && 0 <= k <= |fl| + 1
    requires SENTINEL in items && items[SENTINEL].nextFree in items
    ensures Backward(PushFree(items, a), [a] + fl, k)
  {
    assert Forward(items, fl, -1) && Backward(items, fl, 0);
    if k > 0 {
      assert Backward(items, fl, k - 1);
      AtDistinct(fl, k - 1, 0);
      PushAt(fl, a, k);
      assert k <= |fl| ==> fl[k - 1] in fl;
    }
    if k > 1 {
      PushAt(fl, a, k - 1);
    }
  }

  // ---------------------------------------------------------------------------------------------
  // Splitting and merging on the headers

  /** Builds a free header at `b` behind the one at `a` and links it into the block list. */
  function SplitItems(items: Items, a: int, b: int): (r: Items)
    requires a in items && items[a].next in items
  {
    var next := items[a].next;
    var m := items[b := Item(false, next, a, NULL, NULL)];
    var m' := m[next := m[next].(prev := b)];
    m'[a := m'[a].(next := b)]
  }

  /** The header at `a` takes over the block behind it. */
  function MergeItems(items: Items, a: int): (r: Items)
    requires a in items && items[a].next in items && items[items[a].next].next in items
  {
    var far := items[items[a].next].next;
    var m := items[far := items[far].(prev := a)];
    m[a := m[a].(next := far)]
  }

  function MarkItem(items: Items, a: int, used: bool): Items
    requires a in items
  {
    items[a := items[a].(used := used)]
  }

  lemma StartsDiffer(bs: seq<Block>, end: nat, i: nat, j: nat)
    requires Tiled(bs, end) && i < |bs| && j < |bs|
    ensures bs[i].start == bs[j].start <==> i == j
    ensures bs[i].start < end && Next(bs, end, i) <= end && (Next(bs, end, i) == end <==> i == |bs| - 1)
  {
    StartsApart(bs, end, i, j);
  }

  lemma ItemsHere(items: Items, bs: seq<Block>, end: nat, i: nat)
    requires BlockList(items, bs, end) && i < |bs|
    ensures bs[i].start in items && items[bs[i].start].next == Next(bs, end, i) && Next(bs, end, i) in items
    ensures items[bs[i].start].prev == Before(bs, end, i) && Before(bs, end, i) in items
    ensures items[bs[i].start].used == bs[i].used
    ensures i + 1 < |bs| ==>
              && items[Next(bs, end, i)].used == bs[i + 1].used
              && items[Next(bs, end, i)].next == Next(bs, end, i + 1) && Next(bs, end, i + 1) in items
    ensures i + 1 == |bs| ==> items[Next(bs, end, i)].used
    ensures i > 0 ==> items[Before(bs, end, i)].used == bs[i - 1].used
    ensures i == 0 ==> items[Before(bs, end, i)].used
  {
    assert BlockItem(items, bs, end, i);
    if i + 1 < |bs| {
      assert BlockItem(items, bs, end, i + 1);
    }
    if i + 2 < |bs| {
      assert BlockItem(items, bs, end, i + 2);
    }
    if i > 0 {
      assert BlockItem(items, bs, end, i - 1);
    }
  }

  lemma SplitPlaces(bs: seq<Block>, end: nat, i: nat, size: nat, k: nat)
    requires i < |bs| && k <= |bs|
    ensures var r, b := Split(bs, i, size), bs[i].start + HEADER + size;
            && r[k] == (if k <= i then bs[k] else if k == i + 1 then Block(b, false) else bs[k - 1])
            && Next(r, end, k) == (if k == i then b else if k == i + 1 then Next(bs, end, i) else if k < i then Next(bs, end, k) else Next(bs, end, k - 1))
            && Before(r, end, k) == (if k <= i then Before(bs, end, k) else if k == i + 1 then bs[i].start else if k == i + 2 then b else Before(bs, end, k - 1))
  {
  }

  lemma AbsorbPlaces(bs: seq<Block>, end: nat, i: nat, k: nat)
    requires i + 1 < |bs| && k < |bs| - 1
    ensures var r, was := Absorb(bs, i + 1), if k <= i then k else k + 1;
            && r[k] == bs[was]
            && Next(r, end, k) == (if k == i then Next(bs, end, i + 1) else Next(bs, end, was))
            && Before(r, end, k) == (if k == i + 1 then bs[i].start else Before(bs, end, was))
  {
  }

  lemma SplitHeader(items: Items, a: int, b: int, x: int)
    requires a in items && items[a].next in items && x in items && b != a && b != items[a].next && x != b
    ensures var r := SplitItems(items, a, b);
            && x in r && b in r
            && r[x].used == items[x].used
            && r[x].next == (if x == a then b else items[x].next)
            && r[x].prev == (if x == items[a].next then b else items[x].prev)
            && !r[b].used && r[b].next == items[a].next && r[b].prev == a
  {
  }

  lemma MergeHeader(items: Items, a: int, x: int)
    requires a in items && items[a].next in items && items[items[a].next].next in items && x in items
    ensures var r, far := MergeItems(items, a), items[items[a].next].next;
            && x in r
            && r[x].used == items[x].used
            && r[x].next == (if x == a then far else items[x].next)
            && r[x].prev == (if x == far then a else items[x].prev)
  {
  }

  lemma SplitItem(items: Items, bs: seq<Block>, end: nat, i: nat, size: nat, k: nat)
    requires BlockList(items, bs, end) && Tiled(bs, end) && i < |bs| && size % ALIGN == 0 && size + HEADER <= Payload(bs, end, i)
    requires bs[i].start in items && items[bs[i].start].next in items && k <= |bs|
    ensures BlockItem(SplitItems(items, bs[i].start, bs[i].start + HEADER + size), Split(bs, i, size), end, k)
  {
    var a, b := bs[i].start, bs[i].start + HEADER + size;
    SplitPlaces(bs, end, i, size, k);
    assert BlockItem(items, bs, end, i);
    StartsDiffer(bs, end, i, i);
    if k == i + 1 {
      SplitHeader(items, a, b, a);
    } else {
      var was := if k <= i then k else k - 1;
      assert BlockItem(items, bs, end, was);
      StartsDiffer(bs, end, was, i);
      SplitHeader(items, a, b, bs[was].start);
      if i + 1 < |bs| {
        StartsDiffer(bs, end, was, i + 1);
      }
    }
  }

  lemma SplitKeepsList(items: Items, bs: seq<Block>, end: nat, i: nat, size: nat)
    requires BlockList(items, bs, end) && Tiled(bs, end) && i < |bs| && size % ALIGN == 0 && size + HEADER <= Payload(bs, end, i)
    ensures bs[i].start in items && items[bs[i].start].next in items
    ensures BlockList(SplitItems(items, bs[i].start, bs[i].start + HEADER + size), Split(bs, i, size), end)
  {
    ItemsHere(items, bs, end, i);
    var r, m := Split(bs, i, size), SplitItems(items, bs[i].start, bs[i].start + HEADER + size);
    forall k: nat | k < |r| ensures BlockItem(m, r, end, k) {
      SplitItem(items, bs, end, i, size, k);
    }
    StartsDiffer(bs, end, i, i);
    SplitHeader(items, bs[i].start, bs[i].start + HEADER + size, end);
  }

  lemma MergeItem(items: Items, bs: seq<Block>, end: nat, i: nat, k: nat)
    requires BlockList(items, bs, end) && Tiled(bs, end) && i + 1 < |bs| && k < |bs| - 1
    requires bs[i].start in items && items[bs[i].start].next == bs[i + 1].start && bs[i + 1].start in items && items[bs[i + 1].start].next in items
    ensures BlockItem(MergeItems(items, bs[i].start), Absorb(bs, i + 1), end, k)
  {
    AbsorbPlaces(bs, end, i, k);
    assert BlockItem(items, bs, end, i + 1);
    var was := if k <= i then k else k + 1;
    assert BlockItem(items, bs, end, was);
    MergeHeader(items, bs[i].start, bs[was].start);
    StartsDiffer(bs, end, was, i);
    if i + 2 < |bs| {
      StartsDiffer(bs, end, was, i + 2);
    }
  }

  lemma MergeKeepsList(items: Items, bs: seq<Block>, end: nat, i: nat)
    requires BlockList(items, bs, end) && Tiled(bs, end) && i + 1 < |bs|
    ensures bs[i].start in items && items[bs[i].start].next == bs[i + 1].start && bs[i + 1].start in items && items[bs[i + 1].start].next in items
    ensures BlockList(MergeItems(items, bs[i].start), Absorb(bs, i + 1), end)
  {
    ItemsHere(items, bs, end, i);
    ItemsHere(items, bs, end, i + 1);
    var m, r := MergeItems(items, bs[i].start), Absorb(bs, i + 1);
    forall k: nat | k < |r| ensures BlockItem(m, r, end, k) {
      MergeItem(items, bs, end, i, k);
    }
    MergeHeader(items, bs[i].start, end);
    StartsDiffer(bs, end, i, i);
    StartsDiffer(bs, end, i + 1, i + 1);
    AbsorbPlaces(bs, end, i, 0);
    AbsorbPlaces(bs, end, i, |bs| - 2);
  }

  lemma MarkKeepsList(items: Items, bs: seq<Block>, end: nat, i: nat, used: bool)
    requires BlockList(items, bs, end) && Tiled(bs, end) && i < |bs|
    ensures bs[i].start in items && BlockList(MarkItem(items, bs[i].start, used), bs[i := Block(bs[i].start, used)], end)
  {
    assert BlockItem(items, bs, end, i);
    var r := bs[i := Block(bs[i].start, used)];
    forall k: nat | k < |r| ensures BlockItem(MarkItem(items, bs[i].start, used), r, end, k) {
      assert BlockItem(items, bs, end, k);
      StartsDiffer(bs, end, k, i);
    }
  }

  // ---------------------------------------------------------------------------------------------
  // Which blocks are free, and how much they hold

  lemma MarkFreeStart(bs: seq<Block>, end: nat, i: nat, used: bool, x: int)
    requires Tiled(bs, end) && i < |bs|
    ensures FreeStart(bs[i := Block(bs[i].start, used)], x) <==> if x == bs[i].start then !used else FreeStart(bs, x)
  {
    var r := bs[i := Block(bs[i].start, used)];
    if FreeStart(bs, x) && x != bs[i].start {
      var k: nat :| k < |bs| && !bs[k].used && bs[k].start == x;
      assert r[k] == bs[k];
    }
    if FreeStart(r, x) && x == bs[i].start {
      var k: nat :| k < |r| && !r[k].used && r[k].start == x;
      StartsDiffer(bs, end, k, i);
    }
    assert r[i].start == bs[i].start;
  }

  lemma SplitFreeStart(bs: seq<Block>, end: nat, i: nat, size: nat, x: int)
    requires Tiled(bs, end) && i < |bs| && size + HEADER <= Payload(bs, end, i)
    ensures FreeStart(Split(bs, i, size), x) <==> FreeStart(bs, x) || x == bs[i].start + HEADER + size
  {
    var r := Split(bs, i, size);
    assert r[i + 1] == Block(bs[i].start + HEADER + size, false);
    if FreeStart(bs, x) {
      var k: nat :| k < |bs| && !bs[k].used && bs[k].start == x;
      assert r[if k <= i then k else k + 1] == bs[k];
    }
    if FreeStart(r, x) && x != bs[i].start + HEADER + size {
      var k: nat :| k < |r| && !r[k].used && r[k].start == x;
      assert r[k] == bs[if k <= i then k else k - 1];
    }
  }

  lemma AbsorbFreeStart(bs: seq<Block>, end: nat, i: nat, x: int)
    requires Tiled(bs, end) && 0 < i < |bs|
    ensures FreeStart(Absorb(bs, i), x) <==> FreeStart(bs, x) && x != bs[i].start
  {
    AbsorbTiled(bs, end, i);
    var r := Absorb(bs, i);
    if FreeStart(bs, x) && x != bs[i].start {
      var k: nat :| k < |bs| && !bs[k].used && bs[k].start == x;
      assert r[if k < i then k else k - 1] == bs[k];
    }
    if FreeStart(r, x) {
      var k: nat :| k < |r| && !r[k].used && r[k].start == x;
      StartsDiffer(bs, end, if k < i then k else k + 1, i);
    }
  }

  lemma {:induction false} MarkPayload(bs: seq<Block>, end: nat, i: nat, used: bool)
    requires i < |bs|
    ensures FreePayload(bs[i := Block(bs[i].start, used)], end) ==
            FreePayload(bs, end) - (if bs[i].used then 0 else Payload(bs, end, i)) + (if used then 0 else Payload(bs, end, i))
  {
    var r := bs[i := Block(bs[i].start, used)];
    if i == 0 {
      assert r[1..] == bs[1..];
    } else {
      assert r[1..] == bs[1..][i - 1 := Block(bs[i].start, used)];
      MarkPayload(bs[1..], end, i - 1, used);
    }
  }

  lemma {:induction false} SplitPayloads(bs: seq<Block>, end: nat, i: nat, size: nat)
    requires i < |bs|
    ensures FreePayload(Split(bs, i, size), end) ==
            FreePayload(bs, end) + (if bs[i].used then Payload(bs, end, i) - size else 0) - HEADER
  {
    var r := Split(bs, i, size);
    var b := Block(bs[i].start + HEADER + size, false);
    if i == 0 {
      assert r[1..] == [b] + bs[1..];
      assert ([b] + bs[1..])[1..] == bs[1..];
    } else {
      assert r[1..] == Split(bs[1..], i - 1, size);
      SplitPayloads(bs[1..], end, i - 1, size);
    }
  }

  lemma {:induction false} AbsorbPayloads(bs: seq<Block>, end: nat, i: nat)
    requires 0 < i < |bs| && !bs[i].used
    ensures FreePayload(Absorb(bs, i), end) == FreePayload(bs, end) + (if bs[i - 1].used then - Payload(bs, end, i) else HEADER)
  {
    var r := Absorb(bs, i);
    if i == 1 {
      assert r[1..] == bs[1..][1..];
    } else {
      assert r[1..] == Absorb(bs[1..], i - 1);
      AbsorbPayloads(bs[1..], end, i - 1);
    }
  }

  /** How many blocks there are on each side of the account. */
  function FreeCount(bs: seq<Block>): nat {
    if bs == [] then 0 else (if bs[0].used then 0 else 1) + FreeCount(bs[1..])
  }

  /** All headers and payloads together, with the tail block, are the pool. */
  lemma {:induction false} PoolAccount(bs: seq<Block>, end: nat)
    requires bs != []
    ensures UsedSpan(bs, end) + FreePayload(bs, end) + HEADER * FreeCount(bs) + HEADER == end + HEADER - bs[0].start
  {
    if |bs| > 1 {
      PoolAccount(bs[1..], end);
    } else {
      assert bs[1..] == [];
    }
  }

  /** The payloads of free blocks are not negative, so each one is at most the total. */
  lemma {:induction false} PayloadAtMostTotal(bs: seq<Block>, end: nat, i: nat)
    requires i < |bs| && !bs[i].used && forall k :: 0 <= k < |bs| ==> Payload(bs, end, k) >= 0
    ensures Payload(bs, end, i) <= FreePayload(bs, end)
  {
    if i > 0 {
      assert forall k :: 0 <= k < |bs| - 1 ==> Payload(bs[1..], end, k) == Payload(bs, end, k + 1);
      PayloadAtMostTotal(bs[1..], end, i - 1);
    } else {
      FreePayloadPositive(bs, end);
    }
  }

  lemma {:induction false} FreePayloadPositive(bs: seq<Block>, end: nat)
    requires forall k :: 0 <= k < |bs| ==> Payload(bs, end, k) >= 0
    ensures FreePayload(bs, end) >= 0 && (bs != [] ==> FreePayload(bs[1..], end) >= 0)
  {
    if bs != [] {
      assert forall k :: 0 <= k < |bs| - 1 ==> Payload(bs[1..], end, k) == Payload(bs, end, k + 1);
      FreePayloadPositive(bs[1..], end);
    }
  }

  // ---------------------------------------------------------------------------------------------
  // The whole structure

  ghost predicate HeapOk(items: Items, bs: seq<Block>, fl: seq<int>, end: nat) {
    var good := Good(bs, end) && BlockList(items, bs, end) && FreeList(items, fl) && ListsFree(bs, fl);
    good
  }

  /** The headers and the free list belong to the blocks `bs`, whatever the free list holds. */
  ghost predicate Wired(items: Items, bs: seq<Block>, fl: seq<int>, end: nat) {
    var wired := BlockList(items, bs, end) && FreeList(items, fl) && Tiled(bs, end);
    wired
  }

  /** The header at `a` forgets its free links. */
  function Forget(items: Items, a: int): (r: Items)
    requires a in items
    ensures BlockLinksKept(items, r) && r.Keys == items.Keys
  {
    items[a := items[a].(nextFree := NULL, prevFree := NULL)]
  }

  lemma RemoveIsDrop(fl: seq<int>, x: int) returns (j: nat)
    requires x in fl
    ensures j < |fl| && fl[j] == x && Remove(fl, x) == Drop(fl, j)
  {
    j := IndexOf(fl, x);
  }

  lemma UnlinkRemoves(items: Items, fl: seq<int>, x: int)
    requires FreeList(items, fl) && x in fl
    ensures HasFreeLinks(items, x) && FreeList(Unlink(items, x), Remove(fl, x)) && x !in Remove(fl, x)
  {
    var j := RemoveIsDrop(fl, x);
    UnlinkKeeps(items, fl, j);
    RemoveContents(fl, x);
  }

  lemma ForgetKeeps(items: Items, fl: seq<int>, a: int)
    requires FreeList(items, fl) && a in items && a !in fl && a != SENTINEL
    ensures FreeList(Forget(items, a), fl)
  {
    forall k: int | -1 <= k <= |fl| ensures At(fl, k) != a {
      assert 0 <= k < |fl| ==> fl[k] in fl;
    }
    FreeListFrame(items, Forget(items, a), fl);
  }

  lemma SplitKeepsFree(items: Items, fl: seq<int>, a: int, b: int)
    requires FreeList(items, fl) && a in items && items[a].next in items && b !in fl && b != SENTINEL
    ensures FreeList(SplitItems(items, a, b), fl) && b in SplitItems(items, a, b)
  {
    forall k: int | -1 <= k <= |fl| ensures At(fl, k) != b {
      assert 0 <= k < |fl| ==> fl[k] in fl;
    }
    FreeListFrame(items, SplitItems(items, a, b), fl);
  }

  lemma MergeKeepsFree(items: Items, fl: seq<int>, a: int)
    requires FreeList(items, fl) && a in items && items[a].next in items && items[items[a].next].next in items
    ensures FreeList(MergeItems(items, a), fl)
  {
    FreeListFrame(items, MergeItems(items, a), fl);
  }

  lemma MarkKeepsFree(items: Items, fl: seq<int>, a: int, used: bool)
    requires FreeList(items, fl) && a in items
    ensures FreeList(MarkItem(items, a, used), fl)
  {
    FreeListFrame(items, MarkItem(items, a, used), fl);
  }

  lemma NotAStart(bs: seq<Block>, end: nat, i: nat, b: int)
    requires Tiled(bs, end) && i < |bs| && bs[i].start < b < Next(bs, end, i)
    ensures !FreeStart(bs, b) && b != SENTINEL
  {
    forall k: nat | k < |bs| ensures bs[k].start != b {
      if k < i {
        StartsDiffer(bs, end, k, i);
      } else if k > i {
        assert k == i + 1 || bs[i + 1].start + HEADER <= bs[k].start;
      }
    }
  }

  lemma ListedBlock(bs: seq<Block>, fl: seq<int>, end: nat, i: nat)
    requires Tiled(bs, end) && ListsFree(bs, fl) && i < |bs|
    ensures bs[i].start in fl <==> !bs[i].used
    ensures SENTINEL !in fl
  {
    assert bs[i].start in fl <==> FreeStart(bs, bs[i].start);
    if bs[i].start in fl {
      var k: nat :| k < |bs| && !bs[k].used && bs[k].start == bs[i].start;
      StartsDiffer(bs, end, k, i);
    }
    assert !FreeStart(bs, SENTINEL);
  }

  /** The free list after block `i` is allocated. */
  function TakenList(bs: seq<Block>, fl: seq<int>, end: nat, i: nat, size: nat): seq<int>
    requires i < |bs|
  {
    var rest := Remove(fl, bs[i].start);
    if Payload(bs, end, i) >= size + HEADER + MINIALLOC then [bs[i].start + HEADER + size] + rest else rest
  }

  /** The minimal rest and the alignment make the source's threshold that of the block model. */
  lemma {:induction false} FreePayloadAligned(bs: seq<Block>, end: nat)
    requires end % ALIGN == 0 && forall k :: 0 <= k < |bs| ==> bs[k].start % ALIGN == 0
    ensures FreePayload(bs, end) % ALIGN == 0
  {
    if bs != [] {
      FreePayloadAligned(bs[1..], end);
      AlignedSum(FreePayload(bs[1..], end), Next(bs, end, 0) - bs[0].start - HEADER);
    }
  }

  lemma SameThreshold(bs: seq<Block>, end: nat, i: nat, size: nat)
    requires Tiled(bs, end) && i < |bs| && size % ALIGN == 0
    ensures Payload(bs, end, i) >= size + HEADER + MINIALLOC <==> Payload(bs, end, i) >= size + HEADER + MIN_ALIGNED
    ensures Payload(bs, end, i) % ALIGN == 0 && Payload(bs, end, i) >= 0
  {
    PayloadAligned(bs, end, i);
    AlignedGap(Payload(bs, end, i), size);
  }

  lemma AlignedGap(payload: int, size: nat)
    requires payload % ALIGN == 0 && size % ALIGN == 0
    ensures payload >= size + HEADER + MINIALLOC <==> payload >= size + HEADER + MIN_ALIGNED
  {
  }

  lemma TakenStarts(bs: seq<Block>, end: nat, i: nat, size: nat, x: int)
    requires Tiled(bs, end) && Fits(bs, end, i, size) && size % ALIGN == 0
    ensures FreeStart(AllocAt(bs, end, i, size), x) <==>
            x != bs[i].start && (FreeStart(bs, x) || (Payload(bs, end, i) >= size + HEADER + MINIALLOC && x == bs[i].start + HEADER + size))
  {
    SameThreshold(bs, end, i, size);
    if Payload(bs, end, i) >= size + HEADER + MINIALLOC {
      SplitTiled(bs, end, i, size);
      SplitFreeStart(bs, end, i, size, x);
      MarkFreeStart(Split(bs, i, size), end, i, true, x);
    } else {
      MarkFreeStart(bs, end, i, true, x);
    }
  }

  lemma TakenMember(bs: seq<Block>, fl: seq<int>, end: nat, i: nat, size: nat, x: int)
    requires Tiled(bs, end) && Distinct(fl) && (x in fl <==> FreeStart(bs, x)) && Fits(bs, end, i, size) && size % ALIGN == 0
    ensures x in TakenList(bs, fl, end, i, size) <==> FreeStart(AllocAt(bs, end, i, size), x)
  {
    RemoveContents(fl, bs[i].start);
    TakenStarts(bs, end, i, size, x);
  }

  lemma PushDistinct(fl: seq<int>, b: int)
    requires Distinct(fl) && b !in fl
    ensures Distinct([b] + fl)
  {
    InsertContents(fl, 0, b);
    assert InsertAt(fl, 0, b) == [b] + fl;
  }

  lemma TakenLists(bs: seq<Block>, fl: seq<int>, end: nat, i: nat, size: nat)
    requires Tiled(bs, end) && ListsFree(bs, fl) && Fits(bs, end, i, size) && size % ALIGN == 0
    ensures ListsFree(AllocAt(bs, end, i, size), TakenList(bs, fl, end, i, size))
  {
    var a, b := bs[i].start, bs[i].start + HEADER + size;
    var r, t := AllocAt(bs, end, i, size), TakenList(bs, fl, end, i, size);
    assert Distinct(t) by {
      RemoveContents(fl, a);
      if Payload(bs, end, i) >= size + HEADER + MINIALLOC {
        NotAStart(bs, end, i, b);
        PushDistinct(Remove(fl, a), b);
      }
    }
    forall x: int ensures x in t <==> FreeStart(r, x) {
      TakenMember(bs, fl, end, i, size, x);
    }
  }

  lemma PushOrder(fl: seq<int>, x: int, a: int, b: int)
    requires x !in fl && b in fl
    ensures a in fl ==> (InFront([x] + fl, a, b) <==> InFront(fl, a, b))
    ensures InFront([x] + fl, x, b)
  {
    assert InsertAt(fl, 0, x) == [x] + fl;
    if a in fl {
      InsertOrder(fl, 0, x, a, b);
    }
    FrontAt([x] + fl, 0, 1 + IndexOf(fl, b));
  }

  /** Free blocks that stay in the list keep their order, and one that is new to it stands in front of them. */
  ghost predicate NewInFront(fl: seq<int>, fl': seq<int>) {
    forall a, b {:trigger InFront(fl', a, b)} :: a in fl' && b in fl && b in fl' ==> (InFront(fl', a, b) <==> a !in fl || InFront(fl, a, b))
  }

  lemma RemoveInFront(fl: seq<int>, x: int)
    requires Distinct(fl)
    ensures NewInFront(fl, Remove(fl, x))
  {
    var r := Remove(fl, x);
    RemoveContents(fl, x);
    forall a, b | a in fl && b in fl && a in r && b in r ensures InFront(r, a, b) <==> InFront(fl, a, b) {
      RemoveOrder(fl, x, a, b);
    }
  }

  lemma PushInFront(fl: seq<int>, rest: seq<int>, x: int)
    requires NewInFront(fl, rest) && x !in fl && forall y :: y in rest ==> y in fl
    ensures NewInFront(fl, [x] + rest)
  {
    var r := [x] + rest;
    forall a, b | b in fl && a in r && b in r
      ensures a in fl ==> (InFront(r, a, b) <==> InFront(fl, a, b))
      ensures a !in fl ==> InFront(r, a, b)
    {
      PushOrder(rest, x, a, b);
    }
  }

  lemma PushTaken(fl: seq<int>, a: int, b: int)
    requires Distinct(fl) && NewInFront(fl, Remove(fl, a)) && b !in fl
    ensures NewInFront(fl, [b] + Remove(fl, a))
  {
    RemoveContents(fl, a);
    PushInFront(fl, Remove(fl, a), b);
  }

  /** The rest that an allocation cuts off goes to the front of the free list. */
  lemma TakenInFront(bs: seq<Block>, fl: seq<int>, end: nat, i: nat, size: nat)
    requires Tiled(bs, end) && ListsFree(bs, fl) && Fits(bs, end, i, size) && size % ALIGN == 0
    ensures NewInFront(fl, TakenList(bs, fl, end, i, size))
  {
    var a, b := bs[i].start, bs[i].start + HEADER + size;
    RemoveInFront(fl, a);
    if Payload(bs, end, i) >= size + HEADER + MINIALLOC {
      assert b !in fl by {
        NotAStart(bs, end, i, b);
      }
      PushTaken(fl, a, b);
    }
  }

  /** Whether the neighbours of block `i` are free. */
  predicate FreeBefore(bs: seq<Block>, i: nat)
    requires i < |bs|
  {
    i > 0 && !bs[i - 1].used
  }

  predicate FreeBehind(bs: seq<Block>, i: nat)
    requires i < |bs|
  {
    i + 1 < |bs| && !bs[i + 1].used
  }

  /** The free list without the block behind block `i`. */
  function WithoutNext(bs: seq<Block>, fl: seq<int>, i: nat): seq<int>
    requires i < |bs|
  {
    if FreeBehind(bs, i) then Remove(fl, bs[i + 1].start) else fl
  }

  /** The bytes that the block behind block `i` has to give. */
  function NextFree(bs: seq<Block>, end: nat, i: nat): int
    requires i < |bs|
  {
    if FreeBehind(bs, i) then Payload(bs, end, i + 1) else 0
  }

  /** Block `i` merged with a free block behind it. */
  function JoinNext(bs: seq<Block>, i: nat): seq<Block>
    requires i < |bs|
  {
    if FreeBehind(bs, i) then Absorb(bs, i + 1) else bs
  }

  /** The free list after block `i` is freed: a free left neighbour keeps its place, otherwise the block goes first. */
  function FreedList(bs: seq<Block>, fl: seq<int>, i: nat): seq<int>
    requires i < |bs|
  {
    var rest := WithoutNext(bs, fl, i);
    if FreeBefore(bs, i) then rest else [bs[i].start] + rest
  }

  /** Block `i` merged with its free neighbours, to the left and then to the right. */
  function Joined(bs: seq<Block>, i: nat): seq<Block>
    requires i < |bs|
  {
    if FreeBefore(bs, i) then
      if FreeBehind(bs, i) then Absorb(Absorb(bs, i), i) else Absorb(bs, i)
    else if FreeBehind(bs, i) then Absorb(bs, i + 1) else bs
  }

  /** A merge to the left leaves the right neighbour as it is. */
  lemma BehindMerged(bs: seq<Block>, i: nat)
    requires i < |bs|
    ensures FreeBefore(bs, i) ==>
              var b := Absorb(bs, i);
              |b| == |bs| - 1 && FreeBehind(b, i - 1) == FreeBehind(bs, i) && (i + 1 < |bs| ==> b[i] == bs[i + 1])
  {
  }

  /** Merging to the left and then to the right, as the source does, comes to the same as the other order. */
  lemma MergeOrder(bs: seq<Block>, i: nat)
    requires i < |bs| && bs[i].used
    ensures FreeAt(bs, i) == Joined(Unmark(bs, i), i)
  {
    var u := Unmark(bs, i);
    if FreeBefore(bs, i) && FreeBehind(bs, i) {
      assert Absorb(Absorb(u, i), i) == u[..i] + u[i + 2..] == Absorb(Absorb(u, i + 1), i);
    }
  }

  lemma UnmarkNeighbours(bs: seq<Block>, fl: seq<int>, i: nat)
    requires i < |bs|
    ensures var u := Unmark(bs, i);
      |u| == |bs| && FreeBefore(u, i) == FreeBefore(bs, i) && FreeBehind(u, i) == FreeBehind(bs, i) && FreedList(u, fl, i) == FreedList(bs, fl, i)
  {
  }

  lemma FreedStarts(bs: seq<Block>, end: nat, i: nat, x: int)
    requires Tiled(bs, end) && i < |bs| && bs[i].used
    ensures FreeStart(FreeAt(bs, i), x) <==>
            (FreeStart(bs, x) || (x == bs[i].start && !FreeBefore(bs, i))) && !(FreeBehind(bs, i) && x == bs[i + 1].start)
  {
    var u := Unmark(bs, i);
    MarkFreeStart(bs, end, i, false, x);
    MergeOrder(bs, i);
    if i + 1 < |bs| {
      StartsDiffer(bs, end, i, i + 1);
    }
    if FreeBefore(bs, i) {
      FreedLeftStarts(bs, end, i, x);
    } else if FreeBehind(bs, i) {
      AbsorbFreeStart(u, end, i + 1, x);
    }
  }

  lemma FreedLeftStarts(bs: seq<Block>, end: nat, i: nat, x: int)
    requires Tiled(bs, end) && i < |bs| && bs[i].used && FreeBefore(bs, i)
    ensures FreeStart(FreeAt(bs, i), x) <==> FreeStart(bs, x) && !(FreeBehind(bs, i) && x == bs[i + 1].start)
  {
    var u := Unmark(bs, i);
    MergeOrder(bs, i);
    MarkFreeStart(bs, end, i, false, x);
    AbsorbFreeStart(u, end, i, x);
    ListedStart(bs, end, i, x);
    if FreeBehind(bs, i) {
      AbsorbTiled(u, end, i);
      AbsorbFreeStart(Absorb(u, i), end, i, x);
    }
  }

  lemma ListedStart(bs: seq<Block>, end: nat, i: nat, x: int)
    requires Tiled(bs, end) && i < |bs| && bs[i].used
    ensures FreeStart(bs, x) ==> x != bs[i].start
  {
    if FreeStart(bs, x) {
      var k: nat :| k < |bs| && !bs[k].used && bs[k].start == x;
      StartsDiffer(bs, end, k, i);
    }
  }

  lemma FreedMember(bs: seq<Block>, fl: seq<int>, end: nat, i: nat, x: int)
    requires Tiled(bs, end) && Distinct(fl) && (x in fl <==> FreeStart(bs, x)) && i < |bs| && bs[i].used
    ensures x in FreedList(bs, fl, i) <==> FreeStart(FreeAt(bs, i), x)
  {
    if FreeBehind(bs, i) {
      RemoveContents(fl, bs[i + 1].start);
      StartsDiffer(bs, end, i, i + 1);
    }
    FreedStarts(bs, end, i, x);
  }

  lemma FreedLists(bs: seq<Block>, fl: seq<int>, end: nat, i: nat)
    requires Tiled(bs, end) && ListsFree(bs, fl) && i < |bs| && bs[i].used
    ensures ListsFree(FreeAt(bs, i), FreedList(bs, fl, i))
  {
    var f := FreedList(bs, fl, i);
    assert Distinct(f) by {
      var rest := if FreeBehind(bs, i) then Remove(fl, bs[i + 1].start) else fl;
      if FreeBehind(bs, i) {
        RemoveContents(fl, bs[i + 1].start);
      }
      ListedStart(bs, end, i, bs[i].start);
      PushDistinct(rest, bs[i].start);
    }
    forall x: int ensures x in f <==> FreeStart(FreeAt(bs, i), x) {
      FreedMember(bs, fl, end, i, x);
    }
  }

  /** A freed block goes to the front of the free list unless it joins one that is free before it. */
  lemma FreedInFront(bs: seq<Block>, fl: seq<int>, end: nat, i: nat)
    requires Tiled(bs, end) && ListsFree(bs, fl) && i < |bs| && bs[i].used
    ensures NewInFront(fl, FreedList(bs, fl, i))
  {
    var rest := WithoutNext(bs, fl, i);
    if FreeBehind(bs, i) {
      RemoveInFront(fl, bs[i + 1].start);
      RemoveContents(fl, bs[i + 1].start);
    }
    ListedStart(bs, end, i, bs[i].start);
    PushInFront(fl, rest, bs[i].start);
  }

  lemma FreedPayloads(bs: seq<Block>, end: nat, i: nat)
    requires i < |bs| && bs[i].used
    ensures FreePayload(FreeAt(bs, i), end) ==
            FreePayload(bs, end) + Payload(bs, end, i) + (if FreeBefore(bs, i) then HEADER else 0) + (if FreeBehind(bs, i) then HEADER else 0)
  {
    var u := Unmark(bs, i);
    MarkPayload(bs, end, i, false);
    MergeOrder(bs, i);
    if FreeBefore(bs, i) {
      AbsorbPayloads(u, end, i);
      if FreeBehind(bs, i) {
        AbsorbPayloads(Absorb(u, i), end, i);
      }
    } else if FreeBehind(bs, i) {
      AbsorbPayloads(u, end, i + 1);
    }
  }

  lemma TakenPayloads(bs: seq<Block>, end: nat, i: nat, size: nat)
    requires Fits(bs, end, i, size) && Tiled(bs, end) && size % ALIGN == 0
    ensures FreePayload(AllocAt(bs, end, i, size), end) ==
            FreePayload(bs, end) - (if Payload(bs, end, i) >= size + HEADER + MINIALLOC then size + HEADER else Payload(bs, end, i))
  {
    SameThreshold(bs, end, i, size);
    if Payload(bs, end, i) >= size + HEADER + MINIALLOC {
      SplitPayloads(bs, end, i, size);
      MarkPayload(Split(bs, i, size), end, i, true);
    } else {
      MarkPayload(bs, end, i, true);
    }
  }

  // ---------------------------------------------------------------------------------------------
  // The operations as the source performs them

  /** The heap object and the bytes of its pool. */
  datatype State = State(items: Items, bs: seq<Block>, fl: seq<int>, available: int, maxUsed: int, bytes: seq<int>)

  class MemHeapObject {
    const end: nat
    const poolSize: nat
    var items: Items
    var available: int
    var maxUsed: int
    const bytes: array<int>

    ghost var bs: seq<Block>
    ghost var fl: seq<int>

    ghost predicate Valid()
      reads this
    {
      && HeapOk(items, bs, fl, end)
      && poolSize == end + HEADER == bytes.Length
      && available == FreePayload(bs, end)
      && poolSize - available <= maxUsed
    }

    ghost function Now(): State
      reads this, bytes
    {
      State(items, bs, fl, available, maxUsed, bytes[..])
    }

    /** `rt_memheap_init` */
    constructor (size: nat)
      requires size >= 3 * HEADER
      ensures Valid() && fresh(bytes) && bs == [Block(0, false)] && fl == [0]
      ensures poolSize == size / ALIGN * ALIGN && maxUsed == poolSize - available == 2 * HEADER
    {
      var pool := size / ALIGN * ALIGN;
      poolSize, end, available, maxUsed := pool, pool - HEADER, pool - 2 * HEADER, 2 * HEADER;
      items := map[SENTINEL := Item(false, NULL, NULL, 0, 0),
                   0 := Item(false, pool - HEADER, pool - HEADER, SENTINEL, SENTINEL),
                   pool - HEADER := Item(true, 0, 0, NULL, NULL)];
      bytes := new int[pool];
      bs, fl := [Block(0, false)], [0];
      new;
      assert FreeStart(bs, 0) by {
        assert !bs[0].used && bs[0].start == 0;
      }
      assert BlockItem(items, bs, end, 0);
      forall k: int | -1 <= k < |fl| ensures Forward(items, fl, k) {
      }
      forall k: int | 0 <= k <= |fl| ensures Backward(items, fl, k) {
      }
      assert bs[1..] == [];
    }

    /** Takes the header at `a` out of the free list. */
    method UnlinkItem(a: int)
      requires HasFreeLinks(items, a)
      modifies this`items
      ensures items == Unlink(old(items), a)
    {
      var n, p := items[a].nextFree, items[a].prevFree;
      items := items[n := items[n].(prevFree := p)];
      items := items[p := items[p].(nextFree := n)];
    }

    /** Puts the header at `a` behind the free list header. */
    method PushItem(a: int)
      requires a in items && SENTINEL in items && items[SENTINEL].nextFree in items
      modifies this`items
      ensures items == PushFree(old(items), a)
    {
      var n := items[SENTINEL].nextFree;
      items := items[a := items[a].(nextFree := n)];
      items := items[a := items[a].(prevFree := SENTINEL)];
      items := items[n := items[n].(prevFree := a)];
      items := items[SENTINEL := items[SENTINEL].(nextFree := a)];
    }

    /** Builds a free header at `b` behind the one at `a`. */
    method NewItem(a: int, b: int)
      requires a in items && items[a].next in items && a != b
      modifies this`items
      ensures items == SplitItems(old(items), a, b)
    {
      var next := items[a].next;
      items := items[b := Item(false, next, a, NULL, NULL)];
      items := items[next := items[next].(prev := b)];
      items := items[a := items[a].(next := b)];
    }

    /** Lets the header at `a` take over the next block. */
    method MergeNext(a: int)
      requires a in items && items[a].next in items && items[items[a].next].next in items
      modifies this`items
      ensures items == MergeItems(old(items), a)
    {
      var far := items[items[a].next].next;
      items := items[far := items[far].(prev := a)];
      items := items[a := items[a].(next := far)];
    }

    method Mark(a: int, used: bool)
      requires a in items
      modifies this`items
      ensures items == MarkItem(old(items), a, used)
    {
      items := items[a := items[a].(used := used)];
    }

    method NoteUse()
      modifies this`maxUsed
      ensures maxUsed == Max(old(maxUsed), poolSize - available)
    {
      if poolSize - available > maxUsed {
        maxUsed := poolSize - available;
      }
    }

    /** The loop over the free list: the first block on it that is large enough. */
    method Search(size: nat) returns (a: int, found: bool, ghost k: nat)
      requires Valid() && size > 0
      ensures found ==> k < |fl| && a == fl[k] && a in items && items[a].next - a - HEADER >= size
      ensures found ==> forall j :: 0 <= j < k ==> fl[j] in items && items[fl[j]].next - fl[j] - HEADER < size
      ensures !found ==> forall j :: 0 <= j < |fl| ==> fl[j] in items && items[fl[j]].next - fl[j] - HEADER < size
    {
      var freeSize := 0;
      assert Forward(items, fl, -1);
      a := items[SENTINEL].nextFree;
      k := 0;
      while a != SENTINEL && freeSize < size
        invariant 0 <= k <= |fl| && a == At(fl, k)
        invariant freeSize >= size ==> k < |fl| && a in items && freeSize == items[a].next - a - HEADER
        invariant forall j :: 0 <= j < k ==> fl[j] in items && items[fl[j]].next - fl[j] - HEADER < size
        decreases |fl| - k, size - freeSize
      {
        assert k < |fl| && Forward(items, fl, k);
        freeSize := items[a].next - a - HEADER;
        if freeSize < size {
          a := items[a].nextFree;
          k := k + 1;
        }
      }
      assert a == SENTINEL ==> k == |fl| by {
        assert k < |fl| ==> fl[k] in fl;
      }
      found := freeSize >= size;
    }

    /** Cuts the block at `a` behind `need` bytes: the rest goes to the front of the free list, the block leaves it. */
    method CutFree(a: int, need: nat, ghost i: nat)
      requires HeapOk(items, bs, fl, end) && i < |bs| && !bs[i].used && a == bs[i].start
      requires need % ALIGN == 0 && need + 2 * HEADER <= Payload(bs, end, i)
      modifies this`items, this`fl, this`bs
      ensures BlockList(items, bs, end) && FreeList(items, fl) && bs == Split(old(bs), i, need)
      ensures fl == [a + HEADER + need] + Remove(old(fl), a)
    {
      var b := a + HEADER + need;
      ListedBlock(bs, fl, end, i);
      NotAStart(bs, end, i, b);
      SplitPlaces(bs, end, i, need, i + 1);
      Cut(a, need, i);
      RemoveContents(fl, a);
      TakeOut(a, bs);
      GoFirst(b, i + 1);
    }

    /** The headers and the free list when block `i` is taken for `need` bytes. */
    method Detach(a: int, need: nat, ghost i: nat)
      requires HeapOk(items, bs, fl, end) && Fits(bs, end, i, need) && a == bs[i].start && need % ALIGN == 0
      modifies this`items, this`fl, this`bs
      ensures BlockList(items, bs, end) && FreeList(items, fl)
      ensures bs == AllocAt(old(bs), end, i, need) && fl == TakenList(old(bs), old(fl), end, i, need)
    {
      ghost var bs0 := bs;
      ListedPayload(items, bs, end, i);
      ListedBlock(bs, fl, end, i);
      SameThreshold(bs, end, i, need);
      if items[a].next - a - HEADER >= need + HEADER + MINIALLOC {
        SplitTiled(bs, end, i, need);
        CutFree(a, need, i);
      } else {
        TakeOut(a, bs);
      }
      MarkKeepsList(items, bs, end, i, true);
      MarkKeepsFree(items, fl, a, true);
      Mark(a, true);
      bs := bs[i := Block(a, true)];
      assert bs == AllocAt(bs0, end, i, need);
    }

    /** Takes block `i` for `need` bytes. */
    method Carve(a: int, need: nat, ghost i: nat)
      requires Valid() && Fits(bs, end, i, need) && a == bs[i].start && need % ALIGN == 0 && need > 0
      modifies this
      ensures Valid() && bs == AllocAt(old(bs), end, i, need) && fl == TakenList(old(bs), old(fl), end, i, need)
      ensures maxUsed == Max(old(maxUsed), poolSize - available)
    {
      ListedPayload(items, bs, end, i);
      TakenLists(bs, fl, end, i, need);
      TakenPayloads(bs, end, i, need);
      AllocGood(bs, end, i, need);
      var freeSize := items[a].next - a - HEADER;
      Detach(a, need, i);
      if freeSize >= need + HEADER + MINIALLOC {
        available := available - need - HEADER;
      } else {
        available := available - freeSize;
      }
      NoteUse();
    }

    /** Removes the header at `a` from the free list for good. */
    method TakeOut(a: int, ghost b: seq<Block>)
      requires FreeList(items, fl) && a in fl && BlockList(items, b, end)
      modifies this`items, this`fl
      ensures FreeList(items, fl) && fl == Remove(old(fl), a) && BlockList(items, b, end) && items.Keys == old(items).Keys
    {
      UnlinkRemoves(items, fl, a);
      BlockListFrame(items, Unlink(items, a), b, end);
      UnlinkItem(a);
      fl := Remove(fl, a);
      ForgetKeeps(items, fl, a);
      BlockListFrame(items, Forget(items, a), b, end);
      items := items[a := items[a].(nextFree := NULL)];
      items := items[a := items[a].(prevFree := NULL)];
      assert items == Forget(Unlink(old(items), a), a);
    }

    /** The search, in terms of blocks. */
    method FindListed(need: nat) returns (a: int, found: bool, ghost i: nat)
      requires Valid() && need > 0
      ensures found ==> Fits(bs, end, i, need) && a == bs[i].start && FirstListed(bs, fl, end, i, need)
      ensures !found ==> forall k: nat :: !Fits(bs, end, k, need)
    {
      ghost var k;
      i := 0;
      a, found, k := Search(need);
      SearchResult(items, bs, fl, end, need, k, found);
      if found {
        i :| i < |bs| && !bs[i].used && bs[i].start == fl[k];
      }
    }

    /** `rt_memheap_alloc` for an aligned size. */
    method AllocAligned(need: nat) returns (p: Option<int>, ghost i: nat)
      requires Valid() && need > 0 && need % ALIGN == 0
      modifies this
      ensures Valid()
      ensures p.None? <==> need >= old(available) || forall k: nat :: !Fits(old(bs), end, k, need)
      ensures p.None? ==> items == old(items) && available == old(available) && maxUsed == old(maxUsed) && bs == old(bs) && fl == old(fl)
      ensures p.Some? ==> Fits(old(bs), end, i, need) && p.value == old(bs)[i].start + HEADER && FirstListed(old(bs), old(fl), end, i, need)
      ensures p.Some? ==> bs == AllocAt(old(bs), end, i, need) && fl == TakenList(old(bs), old(fl), end, i, need)
      ensures p.Some? ==> maxUsed == Max(old(maxUsed), poolSize - available)
      ensures p.Some? ==> i < |bs| && bs[i].used && p.value == bs[i].start + HEADER && Payload(bs, end, i) >= need
    {
      i := 0;
      if need >= available {
        return None, i;
      }
      var a, found;
      a, found, i := FindListed(need);
      if !found {
        return None, i;
      }
      TakenSize(bs, end, i, need);
      Carve(a, need, i);
      return Some(a + HEADER), i;
    }

    /** `rt_memheap_alloc`; the minimal size is never reached, for an aligned positive size is at least 64. */
    method Alloc(size: nat) returns (p: Option<int>, ghost i: nat)
      requires Valid() && size > 0
      modifies this
      ensures Valid()
      ensures p.None? <==> size > old(available) - ALIGN || forall k: nat :: !Fits(old(bs), end, k, size)
      ensures p.None? ==> items == old(items) && available == old(available) && maxUsed == old(maxUsed) && bs == old(bs) && fl == old(fl)
      ensures p.Some? ==> Fits(old(bs), end, i, size) && p.value == old(bs)[i].start + HEADER
      ensures p.Some? ==> i < |bs| && bs[i].used && p.value == bs[i].start + HEADER && Payload(bs, end, i) >= size
      ensures p.Some? ==> FirstListed(old(bs), old(fl), end, i, Aligned(size))
      ensures p.Some? ==> bs == AllocAt(old(bs), end, i, Aligned(size)) && fl == TakenList(old(bs), old(fl), end, i, Aligned(size))
      ensures p.Some? ==> maxUsed == Max(old(maxUsed), poolSize - available)
    {
      var need: nat := Max(Aligned(size), MINIALLOC);
      assert need == Aligned(size);
      FitsRounded(bs, end, size);
      FreePayloadAligned(bs, end);
      p, i := AllocAligned(need);
    }

    /** Lets block `i` take over the block behind it. */
    method Swallow(h: int, ghost i: nat)
      requires Wired(items, bs, fl, end) && i + 1 < |bs| && h == bs[i].start
      modifies this`items, this`bs
      ensures Wired(items, bs, fl, end) && bs == Absorb(old(bs), i + 1)
    {
      MergeKeepsList(items, bs, end, i);
      MergeKeepsFree(items, fl, h);
      AbsorbTiled(bs, end, i + 1);
      MergeNext(h);
      bs := Absorb(bs, i + 1);
    }

    /** Merges block `i` with the free block behind it, which leaves the free list. */
    method TakeOver(h: int, ghost i: nat)
      requires Wired(items, bs, fl, end) && i + 1 < |bs| && h == bs[i].start
      requires bs[i + 1].start in fl
      modifies this`items, this`bs, this`fl
      ensures Wired(items, bs, fl, end)
      ensures bs == Absorb(old(bs), i + 1) && fl == Remove(old(fl), old(bs)[i + 1].start)
    {
      ItemsHere(items, bs, end, i);
      var n := items[h].next;
      Swallow(h, i);
      UnlinkRemoves(items, fl, n);
      BlockListFrame(items, Unlink(items, n), bs, end);
      UnlinkItem(n);
      fl := Remove(fl, n);
    }

    /** Merges the free block `i` with a free right neighbour, if there is one. */
    method MergeRight(h: int, ghost i: nat)
      requires Wired(items, bs, fl, end) && i < |bs| && h == bs[i].start
      requires FreeBehind(bs, i) ==> bs[i + 1].start in fl
      modifies this`items, this`available, this`bs, this`fl
      ensures Wired(items, bs, fl, end)
      ensures FreeBehind(old(bs), i) ==>
                && bs == Absorb(old(bs), i + 1) && fl == Remove(old(fl), old(bs)[i + 1].start) && available == old(available) + HEADER
      ensures !FreeBehind(old(bs), i) ==> bs == old(bs) && fl == old(fl) && available == old(available)
    {
      ItemsHere(items, bs, end, i);
      if !items[items[h].next].used {
        available := available + HEADER;
        TakeOver(h, i);
      }
    }

    /** Merges the free block `i` with a free left neighbour, if there is one, which keeps its place on the free list. */
    method MergeLeft(h: int, ghost i: nat) returns (h': int, insert: bool, ghost i': nat)
      requires Wired(items, bs, fl, end) && i < |bs| && h == bs[i].start
      modifies this`items, this`available, this`bs
      ensures Wired(items, bs, fl, end) && i' < |bs| && h' == bs[i'].start
      ensures insert == !FreeBefore(old(bs), i)
      ensures !insert ==> bs == Absorb(old(bs), i) && i' == i - 1 && available == old(available) + HEADER
      ensures insert ==> bs == old(bs) && i' == i && available == old(available)
    {
      ItemsHere(items, bs, end, i);
      h', insert, i' := h, true, i;
      if !items[items[h].prev].used {
        available := available + HEADER;
        h', insert, i' := items[h].prev, false, i - 1;
        ItemsHere(items, bs, end, i - 1);
        Swallow(h', i - 1);
      }
    }

    /** Puts the free block `k` in front of the free list. */
    method GoFirst(h: int, ghost k: nat)
      requires Wired(items, bs, fl, end) && k < |bs| && h == bs[k].start && h !in fl
      modifies this`items, this`fl
      ensures Wired(items, bs, fl, end) && fl == [h] + old(fl)
    {
      ItemsHere(items, bs, end, k);
      PushKeeps(items, fl, h);
      BlockListFrame(items, PushFree(items, h), bs, end);
      PushItem(h);
      fl := [h] + fl;
    }

    /** Merges block `k` with a free right neighbour, and puts it in front of the free list if it is to be inserted. */
    method Finish(at: int, insert: bool, ghost k: nat)
      requires Wired(items, bs, fl, end) && k < |bs| && at == bs[k].start && (insert ==> at !in fl)
      requires FreeBehind(bs, k) ==> bs[k + 1].start in fl
      modifies this`items, this`available, this`bs, this`fl
      ensures Wired(items, bs, fl, end) && bs == JoinNext(old(bs), k)
      ensures fl == (if insert then [at] else []) + WithoutNext(old(bs), old(fl), k)
      ensures available == old(available) + (if FreeBehind(old(bs), k) then HEADER else 0)
    {
      ghost var bs0, fl0 := bs, fl;
      MergeRight(at, k);
      if insert {
        assert at !in fl by {
          if FreeBehind(bs0, k) {
            RemoveContents(fl0, bs0[k + 1].start);
          }
        }
        GoFirst(at, k);
      }
    }

    /** Merges the free block `i` with its free neighbours and sees to the free list. */
    method Coalesce(h: int, ghost i: nat)
      requires Wired(items, bs, fl, end) && i < |bs| && h == bs[i].start && h !in fl
      requires i + 1 < |bs| && !bs[i + 1].used ==> bs[i + 1].start in fl
      modifies this`items, this`available, this`bs, this`fl
      ensures Wired(items, bs, fl, end)
      ensures var left, right := FreeBefore(old(bs), i), FreeBehind(old(bs), i);
              && bs == Joined(old(bs), i)
              && fl == FreedList(old(bs), old(fl), i)
              && available == old(available) + (if left then HEADER else 0) + (if right then HEADER else 0)
    {
      ghost var bs0 := bs;
      var at, insert;
      ghost var k;
      at, insert, k := MergeLeft(h, i);
      BehindMerged(bs0, i);
      Finish(at, insert, k);
    }

    /** Block `i` is free and still has to be merged and listed. */
    method Unuse(h: int, ghost i: nat)
      requires HeapOk(items, bs, fl, end) && i < |bs| && bs[i].used && h == bs[i].start
      modifies this`items, this`bs
      ensures Wired(items, bs, fl, end) && bs == Unmark(old(bs), i)
      ensures h !in fl && (FreeBehind(bs, i) ==> bs[i + 1].start in fl)
    {
      ListedBlock(bs, fl, end, i);
      if i + 1 < |bs| {
        ListedBlock(bs, fl, end, i + 1);
      }
      MarkKeepsList(items, bs, end, i, false);
      MarkKeepsFree(items, fl, h, false);
      Mark(h, false);
      bs := Unmark(bs, i);
    }

    /** The headers and the free list when block `i` is freed. */
    method Reattach(h: int, ghost i: nat)
      requires HeapOk(items, bs, fl, end) && i < |bs| && bs[i].used && h == bs[i].start
      modifies this`items, this`available, this`bs, this`fl
      ensures Wired(items, bs, fl, end) && bs == FreeAt(old(bs), i) && fl == FreedList(old(bs), old(fl), i)
      ensures available == old(available) + (if FreeBefore(old(bs), i) then HEADER else 0) + (if FreeBehind(old(bs), i) then HEADER else 0)
    {
      MergeOrder(bs, i);
      UnmarkNeighbours(bs, fl, i);
      Unuse(h, i);
      Coalesce(h, i);
    }

    /** `rt_memheap_free` for the used block `i`. */
    method Release(ptr: int, ghost i: nat)
      requires Valid() && i < |bs| && bs[i].used && ptr == bs[i].start + HEADER
      modifies this
      ensures Valid() && bs == FreeAt(old(bs), i) && fl == FreedList(old(bs), old(fl), i)
      ensures available >= old(available) && maxUsed == old(maxUsed)
    {
      var h := ptr - HEADER;
      ListedPayload(items, bs, end, i);
      SameThreshold(bs, end, i, 0);
      FreeGood(bs, end, i);
      FreedLists(bs, fl, end, i);
      FreedPayloads(bs, end, i);
      available := available + (items[h].next - h - HEADER);
      Reattach(h, i);
    }

    /** Grows block `i` into the free block behind it, whose rest becomes a new free block. */
    method Grow(a: int, need: nat, ghost i: nat)
      requires Valid() && i < |bs| && bs[i].used && FreeBehind(bs, i) && a == bs[i].start && need % ALIGN == 0
      requires Payload(bs, end, i) < need && need + MINIALLOC < Payload(bs, end, i) + Payload(bs, end, i + 1)
      modifies this
      ensures Valid() && bs == GrowAt(old(bs), i, need)
      ensures fl == [a + HEADER + need] + Remove(old(fl), old(bs)[i + 1].start)
      ensures available == old(available) - (need - Payload(old(bs), end, i)) && maxUsed == Max(old(maxUsed), poolSize - available)
    {
      GrowFits(bs, end, i, need);
      GrowLists(bs, fl, end, i, need);
      GrowPayloads(bs, end, i, need);
      ListedBlock(bs, fl, end, i + 1);
      ListedPayload(items, bs, end, i);
      available := available - (need - (items[a].next - a - HEADER));
      NoteUse();
      ghost var bs0 := bs;
      TakeOver(a, i);
      Renew(a, need, i);
    }

    /** Builds a free block behind `need` bytes of the used block `i`. */
    method Renew(a: int, need: nat, ghost i: nat)
      requires Wired(items, bs, fl, end) && i < |bs| && a == bs[i].start
      requires need % ALIGN == 0 && need + HEADER <= Payload(bs, end, i) && a + HEADER + need !in fl
      modifies this`items, this`fl, this`bs
      ensures Wired(items, bs, fl, end)
      ensures bs == Split(old(bs), i, need) && fl == [a + HEADER + need] + old(fl)
    {
      SplitPlaces(bs, end, i, need, i + 1);
      Cut(a, need, i);
      GoFirst(a + HEADER + need, i + 1);
    }

    /** A free block `k` that is not on the free list takes over a free block behind it, which no longer counts. */
    method JoinRest(h: int, ghost k: nat)
      requires Wired(items, bs, fl, end) && k < |bs| && h == bs[k].start && h !in fl
      requires FreeBehind(bs, k) ==> bs[k + 1].start in fl
      modifies this`items, this`fl, this`bs, this`available
      ensures Wired(items, bs, fl, end) && k < |bs| && h == bs[k].start && h !in fl
      ensures bs == JoinNext(old(bs), k) && fl == WithoutNext(old(bs), old(fl), k)
      ensures available == old(available) - NextFree(old(bs), end, k)
    {
      ItemsHere(items, bs, end, k);
      var free := items[h].next;
      if !items[free].used {
        ListedPayload(items, bs, end, k + 1);
        RemoveContents(fl, free);
        available := available - (items[free].next - free - HEADER);
        TakeOver(h, k);
      }
    }

    /** A free block behind `need` bytes of block `i`, not on the free list yet. */
    method Cut(a: int, need: nat, ghost i: nat)
      requires Wired(items, bs, fl, end) && i < |bs| && a == bs[i].start
      requires need % ALIGN == 0 && need + HEADER <= Payload(bs, end, i) && a + HEADER + need !in fl
      modifies this`items, this`bs
      ensures Wired(items, bs, fl, end) && bs == Split(old(bs), i, need)
    {
      SplitTiled(bs, end, i, need);
      SplitKeepsList(items, bs, end, i, need);
      SplitKeepsFree(items, fl, a, a + HEADER + need);
      NewItem(a, a + HEADER + need);
      bs := Split(bs, i, need);
    }

    /** The headers, the free list and the account when block `i` is cut down to `need` bytes. */
    method CutOff(a: int, b: int, need: nat, ghost i: nat)
      requires HeapOk(items, bs, fl, end) && i < |bs| && bs[i].used && a == bs[i].start && need % ALIGN == 0
      requires need + HEADER + MINIALLOC < Payload(bs, end, i) && b == a + HEADER + need && b !in fl
      modifies this`items, this`fl, this`bs, this`available
      ensures Wired(items, bs, fl, end) && i < |old(bs)| && bs == JoinNext(Split(old(bs), i, need), i + 1)
      ensures fl == [b] + WithoutNext(old(bs), old(fl), i)
      ensures i + 1 < |bs| && available == old(available) - NextFree(old(bs), end, i) + Payload(bs, end, i + 1)
    {
      ghost var s, fl0 := bs, fl;
      CutPlaces(bs, fl, end, i, need);
      CutListed(a, b, need, i);
      assert WithoutNext(bs, fl, i + 1) == WithoutNext(s, fl0, i);
      JoinRest(b, i + 1);
      ListRest(b, i + 1);
    }

    /** The cut, and what lies behind it. */
    method CutListed(a: int, b: int, need: nat, ghost i: nat)
      requires HeapOk(items, bs, fl, end) && i < |bs| && bs[i].used && a == bs[i].start && need % ALIGN == 0
      requires need + HEADER <= Payload(bs, end, i) && b == a + HEADER + need && b !in fl
      modifies this`items, this`bs
      ensures Wired(items, bs, fl, end) && bs == Split(old(bs), i, need)
      ensures i + 1 < |bs| && b == bs[i + 1].start && (FreeBehind(bs, i + 1) ==> bs[i + 2].start in fl)
    {
      NextListed(bs, fl, end, i, need);
      Cut(a, need, i);
    }

    /** Puts the free block `k` in front of the free list and counts its bytes as available. */
    method ListRest(b: int, ghost k: nat)
      requires Wired(items, bs, fl, end) && k < |bs| && b == bs[k].start && b !in fl
      modifies this`items, this`fl, this`available
      ensures Wired(items, bs, fl, end) && fl == [b] + old(fl) && available == old(available) + Payload(bs, end, k)
    {
      GoFirst(b, k);
      ListedPayload(items, bs, end, k);
      available := available + (items[b].next - b - HEADER);
    }

    /** Cuts block `i` down to `need` bytes; the rest is merged with a free block behind it. */
    method Shrink(a: int, need: nat, ghost i: nat)
      requires Valid() && i < |bs| && bs[i].used && a == bs[i].start && need % ALIGN == 0
      requires need + HEADER + MINIALLOC < Payload(bs, end, i)
      modifies this
      ensures Valid() && bs == ShrinkAt(old(bs), i, need) && maxUsed == old(maxUsed) && available >= old(available)
      ensures fl == [a + HEADER + need] + WithoutNext(old(bs), old(fl), i)
    {
      var b := a + HEADER + need;
      ShrinkGood(bs, end, i, need);
      ShrinkLists(bs, fl, end, i, need, b);
      ShrinkPayloads(bs, end, i, need);
      assert b !in fl by {
        NotAStart(bs, end, i, b);
      }
      CutPlaces(bs, fl, end, i, need);
      CutOff(a, b, need, i);
    }

    /** Copies block `i` of `bs0` into the block `a` that was allocated since, and frees it. */
    method MoveInto(ptr: int, dst: int, size: nat, need: nat, ghost bs0: seq<Block>, ghost fl0: seq<int>, ghost max0: int,
                    ghost inUse: int, ghost i: nat, ghost a: nat)
      returns (ghost j: nat, ghost i1: nat)
      requires Valid() && Good(bs0, end) && Fits(bs0, end, a, need) && bs == AllocAt(bs0, end, a, need) && need % ALIGN == 0
      requires i < |bs0| && bs0[i].used && ptr == bs0[i].start + HEADER && dst == bs0[a].start + HEADER
      requires size == Payload(bs0, end, i) < need && FirstListed(bs0, fl0, end, a, need)
      requires inUse == poolSize - available && maxUsed == Max(max0, inUse)
      modifies this, bytes
      ensures Valid() && Resized(bs0, bs, end, i, need, dst, j, old(bytes[..]), bytes[..])
      ensures MovedVia(bs0, fl0, bs, end, i, need, dst, poolSize, max0, maxUsed, a, i1)
    {
      BlocksApart(bs0, end, i, a);
      CopyBytes(bytes, dst, ptr, if size < need then size else need);
      i1 := MovedFrom(bs0, bs, end, i, a, need);
      ghost var c := bytes[..];
      ghost var n := FreeAt(bs, i1);
      j := MoveResized(bs0, bs, end, i, a, i1, need, ptr, dst, size, old(bytes[..]), c);
      ViaMoved(bs0, fl0, bs, n, end, i, need, dst, poolSize, inUse, max0, maxUsed, a, i1);
      Release(ptr, i1);
      assert bytes[..] == c && bs == n;
    }

    /** Allocate, copy, free. */
    method Move(ptr: int, need: nat, ghost i: nat) returns (p: Option<int>, ghost j: nat)
      requires Valid() && i < |bs| && bs[i].used && ptr == bs[i].start + HEADER && need % ALIGN == 0 && need > 0
      requires Payload(bs, end, i) < need && !GrowsInPlace(bs, end, i, need)
      modifies this, bytes
      ensures Valid() && Reallocated(old(Now()), Now(), end, poolSize, i, need, p, j)
    {
      ghost var s, a, i1 := Now(), 0, 0;
      j := i;
      ListedPayload(items, bs, end, i);
      PayloadAligned(bs, end, i);
      var size := items[ptr - HEADER].next - ptr;
      p, a := AllocAligned(need);
      assert bytes[..] == s.bytes;
      if p.Some? {
        j, i1 := MoveInto(ptr, p.value, size, need, s.bs, s.fl, s.maxUsed, poolSize - available, i, a);
        MoveReallocated(s, Now(), end, poolSize, i, need, p.value, j, a, i1);
      } else {
        FailReallocated(s, end, poolSize, i, need, j);
      }
    }

    /** `rt_memheap_realloc` for a live block that has to grow. */
    method Extend(ptr: int, need: nat, ghost i: nat) returns (p: Option<int>, ghost j: nat)
      requires Valid() && i < |bs| && bs[i].used && ptr == bs[i].start + HEADER && need % ALIGN == 0
      requires 0 <= Payload(bs, end, i) < need
      modifies this, bytes
      ensures Valid() && Reallocated(old(Now()), Now(), end, poolSize, i, need, p, j)
    {
      var grows := CanGrow(ptr, need, i);
      if grows {
        GrowHere(ptr, need, i);
        p, j := Some(ptr), i;
      } else {
        p, j := Move(ptr, need, i);
      }
    }

    /** A live block grows in place. */
    method GrowHere(ptr: int, need: nat, ghost i: nat)
      requires Valid() && i < |bs| && bs[i].used && ptr == bs[i].start + HEADER && need % ALIGN == 0
      requires 0 <= Payload(bs, end, i) < need && GrowsInPlace(bs, end, i, need)
      modifies this
      ensures Valid() && Reallocated(old(Now()), Now(), end, poolSize, i, need, Some(ptr), i)
    {
      ghost var s := Now();
      Grow(ptr - HEADER, need, i);
      GrowReallocated(s, Now(), end, poolSize, i, need);
    }

    /** The test for growing in place: what both payloads hold together, without the header between them. */
    method CanGrow(ptr: int, need: nat, ghost i: nat) returns (grows: bool)
      requires Valid() && i < |bs| && ptr == bs[i].start + HEADER
      ensures grows <==> GrowsInPlace(bs, end, i, need)
      ensures grows <==> i + 1 < |bs| && !bs[i + 1].used && Next(bs, end, i + 1) - bs[i].start - 2 * HEADER > need + MINIALLOC
    {
      ItemsHere(items, bs, end, i);
      var next := items[ptr - HEADER].next;
      if items[next].used {
        return false;
      }
      ListedPayload(items, bs, end, i);
      ListedPayload(items, bs, end, i + 1);
      grows := items[next].next - next - HEADER + (next - ptr) > need + MINIALLOC;
    }

    /** `rt_memheap_realloc` for a live block and a positive aligned size. */
    method Resize(ptr: int, need: nat, ghost i: nat) returns (p: Option<int>, ghost j: nat)
      requires Valid() && need > 0 && need % ALIGN == 0 && i < |bs| && bs[i].used && ptr == bs[i].start + HEADER
      modifies this, bytes
      ensures Valid() && Reallocated(old(Now()), Now(), end, poolSize, i, need, p, j)
    {
      ListedPayload(items, bs, end, i);
      PayloadAligned(bs, end, i);
      var oldsize := items[ptr - HEADER].next - ptr;
      if need > oldsize {
        p, j := Extend(ptr, need, i);
        return;
      }
      p, j := Some(ptr), i;
      ghost var s := Now();
      if need + HEADER + MINIALLOC >= oldsize {
        KeepReallocated(s, end, poolSize, i, need);
      } else {
        Shrink(ptr - HEADER, need, i);
        ShrinkReallocated(s, Now(), end, poolSize, i, need);
      }
    }

    /** `rt_memheap_realloc` */
    method Realloc(ptr: Option<int>, newsize: nat, ghost i: nat) returns (p: Option<int>, ghost j: nat)
      requires Valid() && (ptr.Some? ==> i < |bs| && bs[i].used && ptr.value == bs[i].start + HEADER)
      modifies this, bytes
      ensures Valid()
      ensures newsize == 0 ==> p.None? && maxUsed == old(maxUsed) && bytes[..] == old(bytes[..])
      ensures newsize == 0 ==> bs == (if ptr.Some? then FreeAt(old(bs), i) else old(bs))
      ensures newsize > 0 && ptr.Some? ==> Reallocated(old(Now()), Now(), end, poolSize, i, Aligned(newsize), p, j)
      ensures newsize > 0 && p.Some? ==> j < |bs| && bs[j].used && p.value == bs[j].start + HEADER && Payload(bs, end, j) >= newsize
      ensures newsize > 0 && ptr.None? ==>
                (p.None? <==> Aligned(newsize) >= old(available) || forall k: nat :: !Fits(old(bs), end, k, Aligned(newsize)))
      ensures newsize > 0 && ptr.None? && p.None? ==> Now() == old(Now())
      ensures newsize > 0 && ptr.None? && p.Some? ==>
                && Fits(old(bs), end, j, Aligned(newsize)) && FirstListed(old(bs), old(fl), end, j, Aligned(newsize))
                && bs == AllocAt(old(bs), end, j, Aligned(newsize)) && p.value == old(bs)[j].start + HEADER
                && maxUsed == Max(old(maxUsed), poolSize - available) && bytes[..] == old(bytes[..])
    {
      j := 0;
      if newsize == 0 {
        if ptr.Some? {
          Release(ptr.value, i);
        }
        return None, j;
      }
      var need: nat := Aligned(newsize);
      if ptr.None? {
        p, j := AllocAligned(need);
        return;
      }
      ghost var s := Now();
      p, j := Resize(ptr.value, need, i);
      if p.Some? {
        ReallocatedHolds(s, Now(), end, poolSize, i, need, p.value, j, newsize);
      }
    }
  }

  /** A new heap refuses a request for all that it says is available, though its one block has the room. */
  method AskForAll(size: nat) returns (n: nat, p: Option<int>)
    requires size >= 4 * HEADER
    ensures n == size / ALIGN * ALIGN - 2 * HEADER && Fits([Block(0, false)], n + HEADER, 0, n)
    ensures p.None?
  {
    var h := new MemHeapObject(size);
    ghost var i;
    n := h.available;
    assert n % ALIGN == 0 && Aligned(n) == n;
    p, i := h.Alloc(n);
  }

  /** The payload of a block as the source reads it from the header. */
  lemma ListedPayload(items: Items, bs: seq<Block>, end: nat, i: nat)
    requires BlockList(items, bs, end) && i < |bs|
    ensures bs[i].start in items && items[bs[i].start].next - bs[i].start - HEADER == Payload(bs, end, i)
  {
    ItemsHere(items, bs, end, i);
  }

  /** Block `i` is the first on the free list that holds `need` bytes. */
  ghost predicate FirstListed(bs: seq<Block>, fl: seq<int>, end: nat, i: nat, need: nat) {
    var listed := i < |bs| && exists k: nat :: k < |fl| && fl[k] == bs[i].start && NoneListed(bs, fl, end, k, need);
    listed
  }

  ghost predicate NoneListed(bs: seq<Block>, fl: seq<int>, end: nat, k: nat, need: nat) {
    forall j: nat, m: nat :: j < k && j < |fl| && m < |bs| && bs[m].start == fl[j] ==> !Fits(bs, end, m, need)
  }

  lemma SearchResult(items: Items, bs: seq<Block>, fl: seq<int>, end: nat, need: nat, k: nat, found: bool)
    requires HeapOk(items, bs, fl, end)
    requires found ==> k < |fl| && fl[k] in items && items[fl[k]].next - fl[k] - HEADER >= need
    requires forall j :: 0 <= j < (if found then k else |fl|) ==> j < |fl| && fl[j] in items && items[fl[j]].next - fl[j] - HEADER < need
    ensures !found ==> forall m: nat :: !Fits(bs, end, m, need)
    ensures found ==> exists i: nat :: i < |bs| && !bs[i].used && bs[i].start == fl[k]
    ensures found ==> forall i: nat :: i < |bs| && bs[i].start == fl[k] ==> Fits(bs, end, i, need) && FirstListed(bs, fl, end, i, need)
  {
    if found {
      assert fl[k] in fl && FreeStart(bs, fl[k]);
      forall i: nat | i < |bs| && bs[i].start == fl[k] ensures Fits(bs, end, i, need) && FirstListed(bs, fl, end, i, need) {
        ListedPayload(items, bs, end, i);
        ListedBlock(bs, fl, end, i);
        forall j: nat, m: nat | j < k && j < |fl| && m < |bs| && bs[m].start == fl[j] ensures !Fits(bs, end, m, need) {
          ListedPayload(items, bs, end, m);
        }
        assert NoneListed(bs, fl, end, k, need);
      }
    } else {
      forall m: nat ensures !Fits(bs, end, m, need) {
        if Fits(bs, end, m, need) {
          ListedPayload(items, bs, end, m);
          ListedBlock(bs, fl, end, m);
        }
      }
    }
  }

  // ---------------------------------------------------------------------------------------------
  // Growing and shrinking

  /** Block `i` grown to `size` bytes into the free block behind it. */
  function GrowAt(bs: seq<Block>, i: nat, size: nat): seq<Block>
    requires i + 1 < |bs|
  {
    Split(Absorb(bs, i + 1), i, size)
  }

  lemma GrowFits(bs: seq<Block>, end: nat, i: nat, size: nat)
    requires Good(bs, end) && i < |bs| && bs[i].used && FreeBehind(bs, i) && size % ALIGN == 0
    requires Payload(bs, end, i) < size && size + MINIALLOC < Payload(bs, end, i) + Payload(bs, end, i + 1)
    ensures Tiled(Absorb(bs, i + 1), end) && size + HEADER <= Payload(Absorb(bs, i + 1), end, i)
    ensures Payload(Absorb(bs, i + 1), end, i) == Payload(bs, end, i) + HEADER + Payload(bs, end, i + 1)
    ensures Good(GrowAt(bs, i, size), end)
    ensures bs[i + 1].start < bs[i].start + HEADER + size < Next(bs, end, i + 1)
  {
    var m := Absorb(bs, i + 1);
    AbsorbTiled(bs, end, i + 1);
    AbsorbPlaces(bs, end, i, i);
    SplitTiled(m, end, i, size);
    SplitCoalesced(m, i, size);
  }

  /** Behind a used block, the rest that is split off has no free neighbour. */
  lemma SplitCoalesced(m: seq<Block>, i: nat, size: nat)
    requires i < |m| && m[i].used && (i + 1 < |m| ==> m[i + 1].used) && Coalesced(m)
    ensures Coalesced(Split(m, i, size))
  {
    var r := Split(m, i, size);
    forall k | 0 <= k < |r| ensures r[k].used == if k <= i then m[k].used else if k == i + 1 then false else m[k - 1].used {
    }
  }

  lemma GrowStarts(bs: seq<Block>, end: nat, i: nat, size: nat, x: int)
    requires Tiled(bs, end) && i + 1 < |bs| && Tiled(Absorb(bs, i + 1), end) && size + HEADER <= Payload(Absorb(bs, i + 1), end, i)
    ensures FreeStart(GrowAt(bs, i, size), x) <==>
            (FreeStart(bs, x) && x != bs[i + 1].start) || x == bs[i].start + HEADER + size
  {
    AbsorbFreeStart(bs, end, i + 1, x);
    SplitFreeStart(Absorb(bs, i + 1), end, i, size, x);
  }

  lemma GrowLists(bs: seq<Block>, fl: seq<int>, end: nat, i: nat, size: nat)
    requires Good(bs, end) && ListsFree(bs, fl) && i < |bs| && bs[i].used && FreeBehind(bs, i) && size % ALIGN == 0
    requires Payload(bs, end, i) < size && size + MINIALLOC < Payload(bs, end, i) + Payload(bs, end, i + 1)
    ensures ListsFree(GrowAt(bs, i, size), [bs[i].start + HEADER + size] + Remove(fl, bs[i + 1].start))
    ensures bs[i].start + HEADER + size !in Remove(fl, bs[i + 1].start)
  {
    var b := bs[i].start + HEADER + size;
    var rest := Remove(fl, bs[i + 1].start);
    GrowFits(bs, end, i, size);
    NotAStart(bs, end, i + 1, b);
    RemoveContents(fl, bs[i + 1].start);
    PushDistinct(rest, b);
    forall x: int ensures x in [b] + rest <==> FreeStart(GrowAt(bs, i, size), x) {
      GrowStarts(bs, end, i, size, x);
    }
  }

  lemma GrowPayloads(bs: seq<Block>, end: nat, i: nat, size: nat)
    requires Good(bs, end) && i < |bs| && bs[i].used && FreeBehind(bs, i)
    ensures FreePayload(GrowAt(bs, i, size), end) == FreePayload(bs, end) - (size - Payload(bs, end, i))
  {
    AbsorbPayloads(bs, end, i + 1);
    AbsorbPlaces(bs, end, i, i);
    SplitPayloads(Absorb(bs, i + 1), end, i, size);
  }

  lemma GrowKeeps(bs: seq<Block>, end: nat, i: nat, size: nat, k: nat)
    requires Tiled(bs, end) && i + 1 < |bs| && k < |bs| && k != i && k != i + 1
    ensures Kept(bs, GrowAt(bs, i, size), end, k) && bs[k].start != bs[i].start
  {
    var was := AbsorbKeeps(bs, end, i + 1, k);
    var at := SplitKeeps(Absorb(bs, i + 1), end, i, size, was);
    assert IsBlock(GrowAt(bs, i, size), end, at, bs[k], Next(bs, end, k));
    StartsDiffer(bs, end, k, i);
  }

  lemma GrowResult(bs: seq<Block>, end: nat, i: nat, size: nat)
    requires Good(bs, end) && i < |bs| && bs[i].used && FreeBehind(bs, i) && size % ALIGN == 0
    requires Payload(bs, end, i) < size && size + MINIALLOC < Payload(bs, end, i) + Payload(bs, end, i + 1)
    ensures Holds(GrowAt(bs, i, size), end, i, bs[i].start, size) && OthersKept(bs, GrowAt(bs, i, size), end, i, bs[i].start)
  {
    GrowFits(bs, end, i, size);
    AbsorbPlaces(bs, end, i, i);
    SplitPlaces(Absorb(bs, i + 1), end, i, size, i);
    forall k: nat | k < |bs| && k != i && bs[k].used
      ensures Kept(bs, GrowAt(bs, i, size), end, k) && bs[k].start != bs[i].start
    {
      GrowKeeps(bs, end, i, size, k);
    }
  }

  lemma ShrinkIs(bs: seq<Block>, end: nat, i: nat, size: nat)
    requires i < |bs| && bs[i].used
    ensures ShrinkAt(bs, i, size) == if FreeBehind(bs, i) then Absorb(Split(bs, i, size), i + 2) else Split(bs, i, size)
    ensures i + 1 < |ShrinkAt(bs, i, size)| && ShrinkAt(bs, i, size)[i + 1] == Block(bs[i].start + HEADER + size, false)
  {
    var m := Split(bs, i, size);
    SplitPlaces(bs, end, i, size, i);
    SplitPlaces(bs, end, i, size, i + 1);
    if i + 1 < |bs| {
      SplitPlaces(bs, end, i, size, i + 2);
    }
  }

  /** What lies behind the cut, and what merging it gives. */
  lemma CutPlaces(bs: seq<Block>, fl: seq<int>, end: nat, i: nat, size: nat)
    requires i < |bs| && bs[i].used
    ensures var r := Split(bs, i, size);
            && i + 1 < |r| && r[i + 1] == Block(bs[i].start + HEADER + size, false) && FreeBehind(r, i + 1) == FreeBehind(bs, i)
            && (FreeBehind(bs, i) ==> r[i + 2] == bs[i + 1])
            && WithoutNext(r, fl, i + 1) == WithoutNext(bs, fl, i) && NextFree(r, end, i + 1) == NextFree(bs, end, i)
            && ShrinkAt(bs, i, size) == JoinNext(r, i + 1)
    ensures i + 1 < |ShrinkAt(bs, i, size)|
  {
    ShrinkIs(bs, end, i, size);
    SplitPlaces(bs, end, i, size, i + 1);
    if i + 1 < |bs| {
      SplitPlaces(bs, end, i, size, i + 2);
    }
  }

  /** A free block behind the cut is on the free list. */
  lemma NextListed(bs: seq<Block>, fl: seq<int>, end: nat, i: nat, size: nat)
    requires Tiled(bs, end) && ListsFree(bs, fl) && i < |bs|
    ensures var r := Split(bs, i, size);
            && i + 1 < |r| && r[i + 1].start == bs[i].start + HEADER + size && (FreeBehind(r, i + 1) ==> r[i + 2].start in fl)
  {
    SplitPlaces(bs, end, i, size, i + 1);
    if i + 1 < |bs| {
      SplitPlaces(bs, end, i, size, i + 2);
      ListedBlock(bs, fl, end, i + 1);
    }
  }

  lemma ShrinkStarts(bs: seq<Block>, end: nat, i: nat, size: nat, x: int)
    requires Tiled(bs, end) && i < |bs| && bs[i].used && size % ALIGN == 0 && size + HEADER <= Payload(bs, end, i)
    ensures FreeStart(ShrinkAt(bs, i, size), x) <==>
            (FreeStart(bs, x) || x == bs[i].start + HEADER + size) && !(FreeBehind(bs, i) && x == bs[i + 1].start)
  {
    ShrinkIs(bs, end, i, size);
    SplitTiled(bs, end, i, size);
    SplitFreeStart(bs, end, i, size, x);
    if FreeBehind(bs, i) {
      SplitPlaces(bs, end, i, size, i + 2);
      AbsorbFreeStart(Split(bs, i, size), end, i + 2, x);
    }
  }

  lemma ShrinkLists(bs: seq<Block>, fl: seq<int>, end: nat, i: nat, size: nat, b: int)
    requires Tiled(bs, end) && ListsFree(bs, fl) && i < |bs| && bs[i].used && size % ALIGN == 0 && size + HEADER < Payload(bs, end, i)
    requires b == bs[i].start + HEADER + size
    ensures ListsFree(ShrinkAt(bs, i, size), [b] + WithoutNext(bs, fl, i))
  {
    var rest := WithoutNext(bs, fl, i);
    NotAStart(bs, end, i, b);
    if FreeBehind(bs, i) {
      RemoveContents(fl, bs[i + 1].start);
    }
    PushDistinct(rest, b);
    forall x: int ensures x in [b] + rest <==> FreeStart(ShrinkAt(bs, i, size), x) {
      ShrinkStarts(bs, end, i, size, x);
    }
  }

  lemma ShrinkPayloads(bs: seq<Block>, end: nat, i: nat, size: nat)
    requires i < |bs| && bs[i].used
    ensures var r := ShrinkAt(bs, i, size);
            && i + 1 < |r|
            && FreePayload(r, end) == FreePayload(bs, end) - NextFree(bs, end, i) + Payload(r, end, i + 1)
            && Payload(r, end, i + 1) == Payload(bs, end, i) - size - HEADER + (if FreeBehind(bs, i) then Payload(bs, end, i + 1) + HEADER else 0)
  {
    var m := Split(bs, i, size);
    ShrinkIs(bs, end, i, size);
    SplitPayloads(bs, end, i, size);
    SplitPlaces(bs, end, i, size, i + 1);
    if FreeBehind(bs, i) {
      SplitPlaces(bs, end, i, size, i + 2);
      AbsorbPayloads(m, end, i + 2);
      AbsorbPlaces(m, end, i + 1, i + 1);
    }
  }

  /** Where block `i` is after block `a` was allocated. */
  lemma MovedFrom(bs: seq<Block>, bs1: seq<Block>, end: nat, i: nat, a: nat, need: nat) returns (i1: nat)
    requires Good(bs, end) && i < |bs| && bs[i].used && Fits(bs, end, a, need) && need % ALIGN == 0 && bs1 == AllocAt(bs, end, a, need)
    ensures IsBlock(bs1, end, i1, bs[i], Next(bs, end, i))
  {
    AllocKeeps(bs, end, a, need, i);
    i1 :| IsBlock(bs1, end, i1, bs[i], Next(bs, end, i));
  }

  /** What a successful reallocation of block `i` to `need` bytes returns at `q`. */
  ghost predicate Resized(bs: seq<Block>, bs': seq<Block>, end: nat, i: nat, need: nat, q: int, j: nat, c: seq<int>, c': seq<int>) {
    && i < |bs| && q >= HEADER
    && Holds(bs', end, j, q - HEADER, need) && OthersKept(bs, bs', end, i, q - HEADER)
    && SameBytes(c, c', bs[i].start + HEADER, q, Min(Max(0, Payload(bs, end, i)), need))
    && |c'| == |c| && (forall x :: 0 <= x < |c| && !(q <= x < q + need) ==> c'[x] == c[x])
  }

  /** The block behind the used block `i` is free and both together have room for `need` bytes. */
  ghost predicate GrowsInPlace(bs: seq<Block>, end: nat, i: nat, need: nat)
    requires i < |bs|
  {
    FreeBehind(bs, i) && Payload(bs, end, i) + Payload(bs, end, i + 1) > need + MINIALLOC
  }

  /** When a reallocation of block `i` fails: it cannot grow where it is, and a new block is refused. */
  ghost predicate Refused(bs: seq<Block>, end: nat, i: nat, need: nat, available: int)
    requires i < |bs|
  {
    && need > Payload(bs, end, i) && !GrowsInPlace(bs, end, i, need)
    && (need >= available || forall k: nat :: !Fits(bs, end, k, need))
  }

  /** Block `a` was allocated for `need` bytes, then block `i`, which is block `i1` by then, was freed. */
  ghost predicate MovedVia(bs: seq<Block>, fl: seq<int>, bs': seq<Block>, end: nat, i: nat, need: nat, q: int, pool: nat,
                           max: int, max': int, a: nat, i1: nat)
    requires i < |bs|
  {
    && Fits(bs, end, a, need) && FirstListed(bs, fl, end, a, need) && q == bs[a].start + HEADER
    && var taken := AllocAt(bs, end, a, need);
    && IsBlock(taken, end, i1, bs[i], Next(bs, end, i)) && bs' == FreeAt(taken, i1)
    && max' == Max(max, pool - FreePayload(taken, end))
  }

  /**
    The blocks after a successful reallocation of block `i` to `need` bytes, and the maximum of use. What is available is
    what the blocks leave free. The maximum of a move counts the moment when both blocks are in use.
   */
  ghost predicate Accounted(s: State, t: State, end: nat, pool: nat, i: nat, need: nat, q: int)
    requires i < |s.bs|
  {
    var accounted :=
      if need > Payload(s.bs, end, i) && !GrowsInPlace(s.bs, end, i, need) then
        exists a: nat, i1: nat :: MovedVia(s.bs, s.fl, t.bs, end, i, need, q, pool, s.maxUsed, t.maxUsed, a, i1)
      else
        q == s.bs[i].start + HEADER &&
        if need > Payload(s.bs, end, i) then
          t.bs == GrowAt(s.bs, i, need) && t.maxUsed == Max(s.maxUsed, pool - FreePayload(t.bs, end))
        else
          t.maxUsed == s.maxUsed && t.bs == (if need + HEADER + MINIALLOC >= Payload(s.bs, end, i) then s.bs else ShrinkAt(s.bs, i, need));
    accounted
  }

  /** What `rt_memheap_realloc` promises for block `i` and an aligned size; `j` is the block that is returned. */
  ghost predicate Reallocated(s: State, t: State, end: nat, pool: nat, i: nat, need: nat, p: Option<int>, j: nat) {
    var kept :=
      && i < |s.bs|
      && (p.None? <==> Refused(s.bs, end, i, need, s.available))
      && (p.None? ==> t == s)
      && (p.Some? ==> Resized(s.bs, t.bs, end, i, need, p.value, j, s.bytes, t.bytes) && Accounted(s, t, end, pool, i, need, p.value));
    kept
  }

  /** A resize leaves the block where it is exactly when it is large enough, or the block behind it is free and makes it so. */
  lemma StaysIff(s: State, t: State, end: nat, pool: nat, i: nat, need: nat, p: Option<int>, j: nat)
    requires Tiled(s.bs, end) && Reallocated(s, t, end, pool, i, need, p, j) && s.bs[i].used
    ensures var bs, start := s.bs, s.bs[i].start;
      p == Some(start + HEADER) <==>
        || need <= Next(bs, end, i) - start - HEADER
        || (i + 1 < |bs| && !bs[i + 1].used && Next(bs, end, i + 1) - start - 2 * HEADER > need + MINIALLOC)
  {
    if p.Some? && need > Payload(s.bs, end, i) && !GrowsInPlace(s.bs, end, i, need) {
      var a: nat, i1: nat :| MovedVia(s.bs, s.fl, t.bs, end, i, need, p.value, pool, s.maxUsed, t.maxUsed, a, i1);
      StartsDiffer(s.bs, end, i, a);
    }
  }

  lemma ViaMoved(bs: seq<Block>, fl: seq<int>, taken: seq<Block>, bs': seq<Block>, end: nat, i: nat, need: nat, q: int, pool: nat,
                 inUse: int, max: int, max': int, a: nat, i1: nat)
    requires i < |bs| && Fits(bs, end, a, need) && FirstListed(bs, fl, end, a, need) && q == bs[a].start + HEADER
    requires taken == AllocAt(bs, end, a, need) && IsBlock(taken, end, i1, bs[i], Next(bs, end, i)) && bs' == FreeAt(taken, i1)
    requires inUse == pool - FreePayload(taken, end) && max' == Max(max, inUse)
    ensures MovedVia(bs, fl, bs', end, i, need, q, pool, max, max', a, i1)
  {
  }

  lemma MoveReallocated(s: State, t: State, end: nat, pool: nat, i: nat, need: nat, q: int, j: nat, a: nat, i1: nat)
    requires i < |s.bs| && need > Payload(s.bs, end, i) && !GrowsInPlace(s.bs, end, i, need) && need < s.available
    requires Resized(s.bs, t.bs, end, i, need, q, j, s.bytes, t.bytes)
    requires MovedVia(s.bs, s.fl, t.bs, end, i, need, q, pool, s.maxUsed, t.maxUsed, a, i1)
    ensures Reallocated(s, t, end, pool, i, need, Some(q), j)
  {
  }

  lemma FailReallocated(s: State, end: nat, pool: nat, i: nat, need: nat, j: nat)
    requires i < |s.bs| && need > Payload(s.bs, end, i) && !GrowsInPlace(s.bs, end, i, need)
    requires need >= s.available || forall k: nat :: !Fits(s.bs, end, k, need)
    ensures Reallocated(s, s, end, pool, i, need, None, j)
  {
  }

  /** The block that is returned is in use and large enough. */
  lemma ReallocatedHolds(s: State, t: State, end: nat, pool: nat, i: nat, need: nat, q: int, j: nat, size: nat)
    requires Reallocated(s, t, end, pool, i, need, Some(q), j) && size <= need
    ensures j < |t.bs| && t.bs[j].used && q == t.bs[j].start + HEADER && Payload(t.bs, end, j) >= size
  {
  }

  lemma KeepReallocated(s: State, end: nat, pool: nat, i: nat, need: nat)
    requires Tiled(s.bs, end) && i < |s.bs| && s.bs[i].used && |s.bytes| == end + HEADER
    requires need <= Payload(s.bs, end, i) <= need + HEADER + MINIALLOC
    ensures Reallocated(s, s, end, pool, i, need, Some(s.bs[i].start + HEADER), i)
  {
    KeepResized(s.bs, end, i, need, s.bytes);
  }

  lemma ShrinkReallocated(s: State, t: State, end: nat, pool: nat, i: nat, need: nat)
    requires Tiled(s.bs, end) && i < |s.bs| && s.bs[i].used && need % ALIGN == 0 && |s.bytes| == end + HEADER
    requires need + HEADER + MINIALLOC < Payload(s.bs, end, i)
    requires t.bs == ShrinkAt(s.bs, i, need) && t.maxUsed == s.maxUsed && t.bytes == s.bytes
    ensures Reallocated(s, t, end, pool, i, need, Some(s.bs[i].start + HEADER), i)
  {
    ShrinkResized(s.bs, end, i, need, s.bytes);
  }

  lemma GrowReallocated(s: State, t: State, end: nat, pool: nat, i: nat, need: nat)
    requires Good(s.bs, end) && i < |s.bs| && s.bs[i].used && need % ALIGN == 0 && |s.bytes| == end + HEADER
    requires 0 <= Payload(s.bs, end, i) < need && GrowsInPlace(s.bs, end, i, need)
    requires t.bs == GrowAt(s.bs, i, need) && t.maxUsed == Max(s.maxUsed, pool - FreePayload(t.bs, end)) && t.bytes == s.bytes
    ensures Reallocated(s, t, end, pool, i, need, Some(s.bs[i].start + HEADER), i)
  {
    GrowResized(s.bs, end, i, need, s.bytes);
  }

  lemma SameBytesSelf(c: seq<int>, q: nat, n: nat)
    requires q + n <= |c|
    ensures SameBytes(c, c, q, q, n)
  {
  }

  /** The payloads of two blocks do not meet. */
  lemma BlocksApart(bs: seq<Block>, end: nat, i: nat, a: nat)
    requires Tiled(bs, end) && i < |bs| && a < |bs| && i != a
    ensures var p, q := bs[i].start + HEADER, bs[a].start + HEADER;
            && p + Payload(bs, end, i) <= end && q + Payload(bs, end, a) <= end
            && (p + Payload(bs, end, i) <= q || q + Payload(bs, end, a) <= p)
  {
    StartsDiffer(bs, end, i, a);
    StartsDiffer(bs, end, a, i);
    if i < a {
      assert i + 1 == a || bs[i + 1].start + HEADER <= bs[a].start;
    } else {
      assert a + 1 == i || bs[a + 1].start + HEADER <= bs[i].start;
    }
  }

  lemma MoveResized(bs: seq<Block>, bs1: seq<Block>, end: nat, i: nat, a: nat, i1: nat, need: nat, src: nat, dst: nat, size: nat,
                    c: seq<int>, c': seq<int>)
    returns (j: nat)
    requires Good(bs, end) && Fits(bs, end, a, need) && bs1 == AllocAt(bs, end, a, need) && need % ALIGN == 0
    requires i < |bs| && bs[i].used && IsBlock(bs1, end, i1, bs[i], Next(bs, end, i)) && 0 <= Payload(bs, end, i) < need
    requires src == bs[i].start + HEADER && dst == bs[a].start + HEADER && size == Payload(bs, end, i)
    requires SameBytes(c, c', src, dst, size) && |c'| == |c|
    requires forall x: nat :: x < |c| && !(dst <= x < dst + size) ==> c'[x] == c[x]
    ensures Resized(bs, FreeAt(bs1, i1), end, i, need, dst, j, c, c')
  {
    j := MovedBlocks(bs, bs1, end, i, a, i1, need);
  }

  lemma KeepResized(bs: seq<Block>, end: nat, i: nat, need: nat, c: seq<int>)
    requires Tiled(bs, end) && i < |bs| && bs[i].used && need <= Payload(bs, end, i) && |c| == end + HEADER
    ensures Resized(bs, bs, end, i, need, bs[i].start + HEADER, i, c, c)
  {
    KeptSelf(bs, end, i);
    SameBytesSelf(c, bs[i].start + HEADER, need);
  }

  lemma ShrinkResized(bs: seq<Block>, end: nat, i: nat, need: nat, c: seq<int>)
    requires Tiled(bs, end) && i < |bs| && bs[i].used && need % ALIGN == 0 && need + HEADER <= Payload(bs, end, i) && |c| == end + HEADER
    ensures Resized(bs, ShrinkAt(bs, i, need), end, i, need, bs[i].start + HEADER, i, c, c)
  {
    ShrinkResult(bs, end, i, need);
    SameBytesSelf(c, bs[i].start + HEADER, need);
  }

  lemma GrowResized(bs: seq<Block>, end: nat, i: nat, need: nat, c: seq<int>)
    requires Good(bs, end) && i < |bs| && bs[i].used && FreeBehind(bs, i) && need % ALIGN == 0 && |c| == end + HEADER
    requires 0 <= Payload(bs, end, i) < need && need + MINIALLOC < Payload(bs, end, i) + Payload(bs, end, i + 1)
    ensures Resized(bs, GrowAt(bs, i, need), end, i, need, bs[i].start + HEADER, i, c, c)
  {
    GrowResult(bs, end, i, need);
    StartsDiffer(bs, end, i, i);
    SameBytesSelf(c, bs[i].start + HEADER, Payload(bs, end, i));
  }
}
