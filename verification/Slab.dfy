/**
  The slab allocator (`rt-thread/src/slab.c`): zones of equal chunks cut from runs of pages.

  Addresses count from the start of the heap. A zone header, which the source keeps at the start of its zone, is a
  record found under the number of the zone's first page; a free chunk is named by its position in the zone.
 */
module Slab {
  import opened Common
  import opened SlabPages

  const PAGE: nat := 4096
  const NZONES: nat := 72
  /** Size of the zone header on a 32-bit machine. */
  const HEADER: nat := 36

  /** An entry of the page usage table. */
  datatype Usage = FreePage | SmallPage(offset: nat) | LargePage(count: nat)

  datatype Zone = Zone(index: nat, chunk: nat, off: nat, nmax: nat, nfree: nat, uindex: nat, chain: seq<nat>)

  /** What a client holds: a run of pages, or one chunk of a zone. */
  datatype Ref = LargeRef(page: nat) | ChunkRef(zone: nat, slot: nat)

  /**
    `zp` is the number of pages of a zone. `blocks` and `larges` are history: what the page allocator has handed out,
    and which of it went directly to clients. Block 0 is the usage table itself.
   */
  datatype State = State(npages: nat, zp: nat, pages: seq<Run>, usage: seq<Usage>, zones: map<nat, Zone>,
                         lists: seq<seq<nat>>, free: seq<nat>, used: int, max: int,
                         blocks: map<nat, nat>, larges: set<nat>)

  // ---------------------------------------------------------------------------------------------
  // Chunk sizes

  function RoundUp(n: nat, k: nat): nat
    requires k > 0
  {
    (n + k - 1) / k * k
  }

  /** `zoneindex`: the request rounded to its chunk size, and the zone list for it. */
  function ZoneIndex(n: nat): (nat, int) {
    if n < 128 then var c := RoundUp(n, 8); (c, c / 8 - 1)
    else if n < 256 then var c := RoundUp(n, 16); (c, c / 16 + 7)
    else if n < 512 then var c := RoundUp(n, 32); (c, c / 32 + 15)
    else if n < 1024 then var c := RoundUp(n, 64); (c, c / 64 + 23)
    else if n < 2048 then var c := RoundUp(n, 128); (c, c / 128 + 31)
    else if n < 4096 then var c := RoundUp(n, 256); (c, c / 256 + 39)
    else if n < 8192 then var c := RoundUp(n, 512); (c, c / 512 + 47)
    else if n < 16384 then var c := RoundUp(n, 1024); (c, c / 1024 + 55)
    else (n, 0)
  }

  /** The chunk size that list `i` serves. */
  function ChunkAt(i: nat): (c: nat)
    requires i < NZONES
    ensures 8 <= c <= 16384
  {
    if i <= 15 then 8 * (i + 1)
    else if i <= 23 then 16 * (i - 7)
    else if i <= 31 then 32 * (i - 15)
    else if i <= 39 then 64 * (i - 23)
    else if i <= 47 then 128 * (i - 31)
    else if i <= 55 then 256 * (i - 39)
    else if i <= 63 then 512 * (i - 47)
    else 1024 * (i - 55)
  }

  lemma ChunksGrow(i: nat, j: nat)
    requires i < j < NZONES
    ensures ChunkAt(i) < ChunkAt(j)
  {
  }

  /** The list determines the chunk size, and the size is the least one that holds the request. */
  lemma ZoneIndexFits(n: nat)
    requires 0 < n < 16384
    ensures var (c, i) := ZoneIndex(n); 0 <= i < NZONES && c == ChunkAt(i)
    ensures n <= ZoneIndex(n).0
    ensures var i := ZoneIndex(n).1; i > 0 ==> ChunkAt(i - 1) < n
  {
    if n < 256 {
      FitsLow(n);
    } else if n < 1024 {
      FitsMiddle(n);
    } else if n < 4096 {
      FitsHigh(n);
    } else {
      FitsTop(n);
    }
  }

  lemma FitsLow(n: nat)
    requires 0 < n < 256
    ensures Fits(n)
  {
  }

  lemma FitsMiddle(n: nat)
    requires 256 <= n < 1024
    ensures Fits(n)
  {
  }

  lemma FitsHigh(n: nat)
    requires 1024 <= n < 4096
    ensures Fits(n)
  {
  }

  lemma FitsTop(n: nat)
    requires 4096 <= n < 16384
    ensures Fits(n)
  {
  }

  ghost predicate Fits(n: nat) {
    var (c, i) := ZoneIndex(n);
    0 <= i < NZONES && c == ChunkAt(i) && n <= c && (i > 0 ==> ChunkAt(i - 1) < n)
  }

  lemma ZoneIndexLeast(n: nat, j: nat)
    requires 0 < n < 16384 && j < NZONES && n <= ChunkAt(j)
    ensures ZoneIndex(n).0 <= ChunkAt(j) && ZoneIndex(n).1 <= j
  {
    ZoneIndexFits(n);
    var i := ZoneIndex(n).1;
    if i < j {
      ChunksGrow(i, j);
    }
  }

  /** At most an eighth of the request is wasted, or seven bytes. */
  lemma ZoneIndexWaste(n: nat)
    requires 0 < n < 16384
    ensures var waste := ZoneIndex(n).0 - n; 0 <= waste < 8 || 8 * waste < n
  {
  }

  predicate PowerOfTwo(c: nat) {
    c == 1 || (c > 1 && c % 2 == 0 && PowerOfTwo(c / 2))
  }

  /** Where the chunks start in their zone. */
  function BaseOffset(c: nat): nat
    requires c > 0
  {
    RoundUp(HEADER, if PowerOfTwo(c) then c else 8)
  }

  /** Requests of this size and above go to the page allocator. */
  function Limit(zp: nat): nat {
    Min(zp * PAGE / 4, 16384)
  }

  function FreshZone(zp: nat, index: nat, c: nat): Zone
    requires c > 0 && zp * PAGE >= BaseOffset(c) + c
  {
    var off := BaseOffset(c);
    DivAtLeast(zp * PAGE - off, c, 1);
    var nmax := (zp * PAGE - off) / c;
    Zone(index, c, off, nmax, nmax - 1, 0, [])
  }

  lemma DivAtLeast(a: int, c: int, k: nat)
    requires c > 0 && a >= k * c
    ensures a / c >= k && a / c * c <= a
  {
    var q := a / c;
    assert a == q * c + a % c;
    SmallFactor(k - q, c, a % c);
  }

  lemma SmallFactor(x: int, c: int, r: int)
    requires 0 <= r < c && x * c <= r
    ensures x <= 0
  {
  }

  predicate ZonePages(zp: nat) {
    zp == 8 || zp == 16 || zp == 32
  }

  ghost predicate ShapeOk(zp: nat, z: Zone) {
    && z.index < NZONES
    && z.chunk == ChunkAt(z.index)
    && z.chunk <= Limit(zp)
    && z.off == BaseOffset(z.chunk)
    && z.nmax == (zp * PAGE - z.off) / z.chunk
  }

  lemma OffsetBounds(c: nat)
    requires c >= 8
    ensures HEADER <= BaseOffset(c) && (BaseOffset(c) < HEADER + c || BaseOffset(c) == 40)
  {
    var k := if PowerOfTwo(c) then c else 8;
    RoundUpBounds(HEADER, k);
  }

  lemma RoundUpBounds(n: nat, k: nat)
    requires k > 0
    ensures n <= RoundUp(n, k) < n + k
  {
    DivAtLeast(n + k - 1, k, 0);
    var q := (n + k - 1) / k;
    assert n + k - 1 < (q + 1) * k == q * k + k by {
      assert (n + k - 1) == q * k + (n + k - 1) % k;
    }
  }

  /** Chunks that a zone can be cut into leave room for the header and at least two of them. */
  lemma ShapeFits(zp: nat, c: nat)
    requires ZonePages(zp) && 8 <= c <= Limit(zp)
    ensures var off := BaseOffset(c);
            var nmax := (zp * PAGE - off) / c;
            HEADER <= off && nmax >= 2 && off + nmax * c <= zp * PAGE && zp * PAGE >= off + c
  {
    OffsetBounds(c);
    DivAtLeast(zp * PAGE - BaseOffset(c), c, 2);
  }

  function SlotAddress(start: nat, z: Zone, i: nat): nat {
    start * PAGE + z.off + i * z.chunk
  }

  lemma ShapeRoom(zp: nat, z: Zone)
    requires ZonePages(zp) && ShapeOk(zp, z)
    ensures Room(zp, z)
  {
    ShapeFits(zp, z.chunk);
  }

  predicate Room(zp: nat, z: Zone) {
    HEADER <= z.off && z.chunk >= 8 && z.off + z.nmax * z.chunk <= zp * PAGE
  }

  lemma SlotInside(zp: nat, start: nat, z: Zone, i: nat)
    requires Room(zp, z) && i < z.nmax
    ensures var a := SlotAddress(start, z, i);
            start * PAGE + HEADER <= a && a + z.chunk <= (start + zp) * PAGE
  {
    InOrder(i, z.nmax, z.chunk);
  }

  lemma InOrder(i: nat, n: nat, c: nat)
    requires i < n
    ensures i * c + c <= n * c
  {
    assert (i + 1) * c <= n * c;
  }

  lemma SlotPage(zp: nat, start: nat, z: Zone, i: nat)
    requires Room(zp, z) && i < z.nmax
    ensures start <= SlotAddress(start, z, i) / PAGE < start + zp
  {
    SlotInside(zp, start, z, i);
  }

  lemma SlotIndex(start: nat, z: Zone, i: nat)
    requires z.chunk > 0
    ensures (SlotAddress(start, z, i) - start * PAGE - z.off) / z.chunk == i
  {
    MulDiv(i, z.chunk);
    assert SlotAddress(start, z, i) - start * PAGE - z.off == i * z.chunk;
  }

  lemma MulDiv(i: nat, c: nat)
    requires c > 0
    ensures i * c / c == i
  {
    var q := i * c / c;
    DivAtLeast(i * c, c, i);
    SmallFactor(q - i, c, 0);
  }

  lemma SlotsApart(start: nat, z: Zone, i: nat, j: nat)
    requires i < j
    ensures SlotAddress(start, z, i) + z.chunk <= SlotAddress(start, z, j)
  {
    InOrder(i, j, z.chunk);
  }

  // ---------------------------------------------------------------------------------------------
  // What must hold between operations

  /** A zone is as long as its chunk size asks for, and its free chunks are those never used and those in the chain. */
  ghost predicate ZoneOk(zp: nat, z: Zone) {
    var good :=
      && ShapeOk(zp, z)
      && z.uindex < z.nmax
      && Distinct(z.chain)
      && Below(z.chain, z.uindex + 1)
      && z.nfree == z.nmax - 1 - z.uindex + |z.chain|;
    good
  }

  ghost predicate ZonesOk(zp: nat, zones: map<nat, Zone>) {
    forall z :: z in zones ==> ZoneOk(zp, zones[z])
  }

  /** The list at `i` holds distinct zones of that chunk size that have free chunks. */
  ghost predicate ListOk(list: seq<nat>, i: nat, zones: map<nat, Zone>) {
    && Distinct(list)
    && (forall z :: z in list ==> z in zones && zones[z].index == i && zones[z].nfree > 0)
  }

  /** A zone is on the list of its chunk size exactly when it has a free chunk. */
  ghost predicate ListsOk(lists: seq<seq<nat>>, zones: map<nat, Zone>) {
    && |lists| == NZONES
    && (forall i :: 0 <= i < NZONES ==> ListOk(lists[i], i, zones))
    && (forall z :: z in zones && zones[z].index < NZONES && zones[z].nfree > 0 ==> z in lists[zones[z].index])
  }

  /** The usage table leads from every page of the zone to its start. */
  ghost predicate Marked(usage: seq<Usage>, z: nat, zp: nat) {
    z + zp <= |usage| && forall q :: z <= q < z + zp ==> usage[q] == SmallPage(q - z)
  }

  ghost predicate ZoneHeld(usage: seq<Usage>, blocks: map<nat, nat>, z: nat, zp: nat) {
    z in blocks && blocks[z] == zp && z != 0 && Marked(usage, z, zp)
  }

  /** Every block handed out is the usage table, a zone in use, a free zone or a large allocation, and only one. */
  ghost predicate OwnersOk(s: State) {
    && 0 in s.blocks
    && (forall z :: z in s.zones ==> ZoneHeld(s.usage, s.blocks, z, s.zp) && z !in s.free)
    && (forall z :: z in s.free ==> ZoneHeld(s.usage, s.blocks, z, s.zp))
    && (forall b :: b in s.larges ==> b in s.blocks && b < |s.usage| && b != 0 && s.usage[b] == LargePage(s.blocks[b]))
    && (forall b :: b in s.blocks ==> b == 0 || b in s.zones || b in s.free || b in s.larges)
    && Distinct(s.free)
  }

  /** Size of the chunks handed out. */
  function ZoneValue(z: Zone): int {
    (z.nmax - z.nfree) * z.chunk
  }

  /** What the client holds that starts in page `q`: the chunks of a zone, or a large allocation. */
  function Value(s: State, q: nat): int {
    if q in s.zones then ZoneValue(s.zones[q])
    else if q in s.larges && q in s.blocks then s.blocks[q] * PAGE
    else 0
  }

  function Total(s: State, n: nat): int {
    if n == 0 then 0 else Total(s, n - 1) + Value(s, n - 1)
  }

  ghost predicate Core(s: State) {
    var good :=
      && ZonePages(s.zp)
      && |s.usage| == s.npages
      && PagesOk(s.pages, s.blocks, s.npages)
      && OwnersOk(s)
      && ZonesOk(s.zp, s.zones)
      && ListsOk(s.lists, s.zones)
      && s.used == Total(s, s.npages);
    good
  }

  ghost predicate Inv(s: State) {
    Core(s) && |s.free| <= 2 && s.used <= s.max
  }

  ghost predicate Live(s: State, r: Ref) {
    match r
    case LargeRef(b) => b in s.larges
    case ChunkRef(z, i) => z in s.zones && SlotLive(s.zones[z], i)
  }

  ghost predicate SlotLive(z: Zone, i: nat) {
    i <= z.uindex && i !in z.chain
  }

  ghost predicate Named(s: State, r: Ref) {
    match r
    case LargeRef(b) => b in s.blocks
    case ChunkRef(z, _) => z in s.zones
  }

  function Address(s: State, r: Ref): nat
    requires Named(s, r)
  {
    match r
    case LargeRef(b) => b * PAGE
    case ChunkRef(z, i) => SlotAddress(z, s.zones[z], i)
  }

  function Size(s: State, r: Ref): nat
    requires Named(s, r)
  {
    match r
    case LargeRef(b) => s.blocks[b] * PAGE
    case ChunkRef(z, _) => s.zones[z].chunk
  }

  /** The pages of what the client holds. */
  function FirstPage(r: Ref): nat {
    match r
    case LargeRef(b) => b
    case ChunkRef(z, _) => z
  }

  lemma LiveNamed(s: State, r: Ref)
    requires Core(s) && Live(s, r)
    ensures Named(s, r) && FirstPage(r) in s.blocks && FirstPage(r) != 0
  {
  }

  /** An allocation lies within its block of pages. */
  lemma LiveInside(s: State, r: Ref)
    requires Core(s) && Live(s, r) && Named(s, r) && FirstPage(r) in s.blocks
    ensures var b := FirstPage(r);
            b * PAGE <= Address(s, r) && Address(s, r) + Size(s, r) <= (b + s.blocks[b]) * PAGE
    ensures Address(s, r) / PAGE < s.npages
  {
    if r.ChunkRef? {
      var z := s.zones[r.zone];
      assert ZoneOk(s.zp, z) && ZoneHeld(s.usage, s.blocks, r.zone, s.zp);
      ShapeRoom(s.zp, z);
      SlotInside(s.zp, r.zone, z, r.slot);
      SlotPage(s.zp, r.zone, z, r.slot);
    }
  }

  /** No two allocations overlap. */
  lemma LiveApart(s: State, r: Ref, q: Ref)
    requires Core(s) && Live(s, r) && Live(s, q) && r != q && Named(s, r) && Named(s, q)
    ensures Address(s, r) + Size(s, r) <= Address(s, q) || Address(s, q) + Size(s, q) <= Address(s, r)
  {
    LiveNamed(s, r);
    LiveNamed(s, q);
    var b, c := FirstPage(r), FirstPage(q);
    LiveInside(s, r);
    LiveInside(s, q);
    if b < c {
      assert b + s.blocks[b] <= c;
    } else if c < b {
      assert c + s.blocks[c] <= b;
    } else {
      KindsDiffer(s, b);
      var z := s.zones[b];
      if r.slot < q.slot {
        SlotsApart(b, z, r.slot, q.slot);
      } else {
        SlotsApart(b, z, q.slot, r.slot);
      }
    }
  }

  lemma KindsDiffer(s: State, b: nat)
    requires OwnersOk(s) && ZonePages(s.zp)
    ensures b in s.larges ==> b !in s.zones && b !in s.free
  {
    if b in s.zones || b in s.free {
      assert ZoneHeld(s.usage, s.blocks, b, s.zp);
      assert s.usage[b] == SmallPage(b - b);
    }
  }

  /** `rt_slab_free`'s way from an address to what it stands for. */
  predicate Findable(s: State, p: nat) {
    var page := p / PAGE;
    && page < |s.usage|
    && !s.usage[page].FreePage?
    && (s.usage[page].SmallPage? ==> ZoneAt(s, page, s.usage[page].offset, p))
  }

  predicate ZoneAt(s: State, page: nat, o: nat, p: nat) {
    o <= page && page - o in s.zones && s.zones[page - o].chunk > 0 && p >= (page - o) * PAGE + s.zones[page - o].off
  }

  function Find(s: State, p: nat): Ref
    requires Findable(s, p)
  {
    var page := p / PAGE;
    if s.usage[page].LargePage? then LargeRef(page)
    else
      var z := page - s.usage[page].offset;
      ChunkRef(z, (p - z * PAGE - s.zones[z].off) / s.zones[z].chunk)
  }

  /** The address of a live allocation leads back to it. */
  lemma FindLive(s: State, r: Ref)
    requires Core(s) && Live(s, r) && Named(s, r)
    ensures Findable(s, Address(s, r)) && Find(s, Address(s, r)) == r
  {
    match r
    case LargeRef(b) =>
      assert s.usage[b] == LargePage(s.blocks[b]);
    case ChunkRef(z, i) =>
      assert ZoneOk(s.zp, s.zones[z]) && ZoneHeld(s.usage, s.blocks, z, s.zp);
      FindChunk(s, z, i);
  }

  lemma FindChunk(s: State, z: nat, i: nat)
    requires z in s.zones && ShapeOk(s.zp, s.zones[z]) && i < s.zones[z].nmax && ZonePages(s.zp)
    requires Marked(s.usage, z, s.zp)
    ensures var p := SlotAddress(z, s.zones[z], i); Findable(s, p) && Find(s, p) == ChunkRef(z, i)
  {
    var zone := s.zones[z];
    var p := SlotAddress(z, zone, i);
    ShapeRoom(s.zp, zone);
    SlotPage(s.zp, z, zone, i);
    SlotIndex(z, zone, i);
    var page := p / PAGE;
    assert s.usage[page] == SmallPage(page - z);
    assert ZoneAt(s, page, page - z, p);
  }

  // ---------------------------------------------------------------------------------------------
  // The operations

  function Charge(s: State, n: int): State {
    s.(used := s.used + n, max := Max(s.max, s.used + n))
  }

  /** A large allocation of `n` pages. */
  function TakeLarge(s: State, n: nat): (State, Option<Ref>)
    requires PagesOk(s.pages, s.blocks, s.npages) && |s.usage| == s.npages && n > 0
  {
    var r := TakePages(s.pages, n);
    if r.1.None? then (s, None)
    else
      HandOut(s.pages, s.blocks, s.npages, n);
      var b := r.1.value;
      var t := s.(pages := r.0, usage := s.usage[b := LargePage(n)], blocks := s.blocks[b := n], larges := s.larges + {b});
      (Charge(t, n * PAGE),
       Some(LargeRef(b)))
  }

  predicate HasChunk(z: Zone) {
    z.nfree > 0 && (z.uindex + 1 == z.nmax ==> z.chain != [])
  }

  /** A chunk of a zone: one never used, if there is one, or the head of the chain. */
  function TakeChunk(zone: Zone): (Zone, nat)
    requires HasChunk(zone)
  {
    var z := zone.(nfree := zone.nfree - 1);
    if z.uindex + 1 != z.nmax then (z.(uindex := z.uindex + 1), z.uindex + 1)
    else (z.(chain := z.chain[1..]), z.chain[0])
  }

  /** Allocation from the first zone on the list. */
  function UseZone(s: State, i: nat): (State, Option<Ref>)
    requires i < |s.lists| && s.lists[i] != [] && s.lists[i][0] in s.zones && HasChunk(s.zones[s.lists[i][0]])
  {
    var z: nat := s.lists[i][0];
    var t := TakeChunk(s.zones[z]);
    var lists := if t.0.nfree == 0 then s.lists[i := s.lists[i][1..]] else s.lists;
    (Charge(s.(zones := s.zones[z := t.0], lists := lists), t.0.chunk), Some(ChunkRef(z, t.1)))
  }

  function Mark(usage: seq<Usage>, z: nat, zp: nat): (r: seq<Usage>)
    ensures |r| == |usage|
  {
    seq(|usage|, q requires 0 <= q < |usage| => if z <= q < z + zp then SmallPage(q - z) else usage[q])
  }

  function Unmark(usage: seq<Usage>, z: nat, zp: nat): (r: seq<Usage>)
    ensures |r| == |usage|
  {
    seq(|usage|, q requires 0 <= q < |usage| => if z <= q < z + zp then FreePage else usage[q])
  }

  /** A zone from the page allocator, as a free zone. */
  function AddZone(s: State, b: nat, pages: seq<Run>): State {
    s.(pages := pages, usage := Mark(s.usage, b, s.zp), blocks := s.blocks[b := s.zp], free := [b] + s.free)
  }

  /** The first free zone is cut into chunks, and its first chunk handed out. */
  function OpenZone(s: State, i: nat, c: nat): (State, Option<Ref>)
    requires s.free != [] && i < |s.lists| && c > 0 && s.zp * PAGE >= BaseOffset(c) + c
  {
    var z: nat := s.free[0];
    (Charge(s.(free := s.free[1..], zones := s.zones[z := FreshZone(s.zp, i, c)], lists := s.lists[i := [z] + s.lists[i]]), c),
     Some(ChunkRef(z, 0)))
  }

  /** `rt_slab_alloc` */
  function AllocBlock(s: State, size: nat): (State, Option<Ref>)
    requires Core(s)
  {
    if size == 0 then (s, None)
    else if size >= Limit(s.zp) then
      RoundUpBounds(size, PAGE);
      TakeLarge(s, RoundUp(size, PAGE) / PAGE)
    else
      SmallRequest(s.zp, size);
      var (c, i) := ZoneIndex(size);
      if s.lists[i] != [] then
        ListHead(s, i);
        UseZone(s, i)
      else if s.free != [] then OpenZone(s, i, c)
      else
        var r := TakePages(s.pages, s.zp);
        if r.1.None? then (s, None) else OpenZone(AddZone(s, r.1.value, r.0), i, c)
  }

  lemma SmallRequest(zp: nat, size: nat)
    requires ZonePages(zp) && 0 < size < Limit(zp)
    ensures var (c, i) := ZoneIndex(size);
            && 0 <= i < NZONES && c == ChunkAt(i) && size <= c <= Limit(zp)
            && zp * PAGE >= BaseOffset(c) + c
  {
    ZoneIndexFits(size);
    ZoneIndexLeast(size, if zp == 8 then 63 else 71);
    ShapeFits(zp, ZoneIndex(size).0);
  }

  /** Chunk `i` goes to the head of the chain. */
  function PushChunk(s: State, z: nat, i: nat): State
    requires z in s.zones && s.zones[z].index < |s.lists|
  {
    var zone := s.zones[z];
    var lists := if zone.nfree == 0 then s.lists[zone.index := [z] + s.lists[zone.index]] else s.lists;
    s.(zones := s.zones[z := Pushed(zone, i)], lists := lists, used := s.used - zone.chunk)
  }

  /** A zone without allocations leaves its list and becomes a free zone. */
  function RetireZone(s: State, z: nat): State
    requires z in s.zones && s.zones[z].index < |s.lists|
  {
    var i := s.zones[z].index;
    s.(lists := s.lists[i := Remove(s.lists[i], z)], zones := s.zones - {z}, free := [z] + s.free)
  }

  /** The first free zone goes back to the page allocator. */
  function ReleaseZone(s: State): State
    requires s.free != []
  {
    var z: nat := s.free[0];
    s.(free := s.free[1..], usage := Unmark(s.usage, z, s.zp), pages := GivePages(s.pages, z, s.zp),
       blocks := s.blocks - {z})
  }

  function FreeLarge(s: State, b: nat): State
    requires b in s.blocks && b < |s.usage|
  {
    var n := s.blocks[b];
    s.(usage := s.usage[b := LargePage(0)], used := s.used - n * PAGE, pages := GivePages(s.pages, b, n),
       blocks := s.blocks - {b}, larges := s.larges - {b})
  }

  function FreeChunk(s: State, z: nat, i: nat): State
    requires z in s.zones && s.zones[z].index < |s.lists|
  {
    var t := PushChunk(s, z, i);
    if t.zones[z].nfree == t.zones[z].nmax && t.lists[t.zones[z].index] != [z] then
      var u := RetireZone(t, z);
      if |u.free| > 2 then ReleaseZone(u) else u
    else t
  }

  /** `rt_slab_free` */
  function FreeBlock(s: State, r: Ref): State
    requires Core(s) && Live(s, r)
  {
    match r
    case LargeRef(b) => FreeLarge(s, b)
    case ChunkRef(z, i) =>
      assert ZoneOk(s.zp, s.zones[z]);
      FreeChunk(s, z, i)
  }

  // ---------------------------------------------------------------------------------------------
  // What the operations do to the allocations

  /** Nothing but `r` is gained, and nothing moves. */
  ghost predicate Gains(s: State, t: State, r: Ref) {
    && !Live(s, r) && Live(t, r)
    && (forall q :: Live(t, q) <==> Live(s, q) || q == r)
    && (forall q :: Live(s, q) ==> Stays(s, t, q))
  }

  /** The block of pages of `q` is the same in both states, and cut in the same way. */
  ghost predicate Stays(s: State, t: State, q: Ref) {
    match q
    case LargeRef(b) => b in s.blocks && b in t.blocks && s.blocks[b] == t.blocks[b]
    case ChunkRef(z, _) => z in s.zones && z in t.zones && SameCut(s.zones[z], t.zones[z])
  }

  predicate SameCut(z: Zone, y: Zone) {
    z.chunk == y.chunk && z.off == y.off
  }

  lemma StaysMeans(s: State, t: State, q: Ref)
    requires Stays(s, t, q)
    ensures Named(s, q) && Named(t, q) && Address(s, q) == Address(t, q) && Size(s, q) == Size(t, q)
  {
  }

  ghost predicate SameLive(s: State, t: State) {
    && (forall q :: Live(t, q) <==> Live(s, q))
    && (forall q :: Live(s, q) ==> Stays(s, t, q))
  }

  /** The two states agree on what the block at `p` holds. */
  ghost predicate Agree(s: State, t: State, p: nat) {
    if p in s.zones then p in t.zones && t.zones[p] == s.zones[p]
    else
      && p !in t.zones
      && (p in s.larges <==> p in t.larges)
      && (p in s.larges ==> p in s.blocks && p in t.blocks && s.blocks[p] == t.blocks[p])
  }

  ghost predicate AgreeOff(s: State, t: State, q: nat) {
    forall p: nat :: p != q ==> Agree(s, t, p)
  }

  lemma {:induction false} TotalOne(s: State, t: State, q: nat, n: nat)
    requires AgreeOff(s, t, q)
    ensures Total(t, n) - Total(s, n) == if q < n then Value(t, q) - Value(s, q) else 0
  {
    if n > 0 {
      TotalOne(s, t, q, n - 1);
      assert n - 1 != q ==> Agree(s, t, n - 1);
    }
  }

  /** A chunk of zone `z` changes hands. */
  lemma ChunkTotal(s: State, t: State, z: nat, n: nat, k: int)
    requires AgreeOff(s, t, z) && z < n && z in s.zones && z in t.zones
    requires t.zones[z].chunk == s.zones[z].chunk && t.zones[z].nmax == s.zones[z].nmax
    requires t.zones[z].nfree + k == s.zones[z].nfree
    ensures Total(t, n) == Total(s, n) + k * s.zones[z].chunk
  {
    TotalOne(s, t, z, n);
    Distribute(s.zones[z].nmax - s.zones[z].nfree, k, s.zones[z].chunk);
  }

  lemma Distribute(n: int, k: int, c: int)
    ensures (n + k) * c == n * c + k * c
  {
  }

  /** The large allocations are the same, and lie where they did. */
  ghost predicate SameLarges(s: State, t: State) {
    && t.larges == s.larges
    && (forall b :: b in s.larges ==> b in s.blocks && b in t.blocks && s.blocks[b] == t.blocks[b])
  }

  lemma ChunkGained(s: State, t: State, z: nat, i: nat)
    requires SameLarges(s, t)
    requires z in t.zones && t.zones == s.zones[z := t.zones[z]]
    requires z in s.zones ==> SameCut(s.zones[z], t.zones[z]) && !SlotLive(s.zones[z], i)
    requires forall j: nat :: SlotLive(t.zones[z], j) <==> (z in s.zones && SlotLive(s.zones[z], j)) || j == i
    ensures Gains(s, t, ChunkRef(z, i))
  {
    assert SlotLive(t.zones[z], i);
    forall q ensures Live(t, q) <==> Live(s, q) || q == ChunkRef(z, i) {
      if q.ChunkRef? && q.zone == z {
        assert SlotLive(t.zones[z], q.slot) <==> (z in s.zones && SlotLive(s.zones[z], q.slot)) || q.slot == i;
      }
    }
  }

  lemma LargeGained(s: State, t: State, b: nat)
    requires b !in s.larges && t.larges == s.larges + {b} && t.zones == s.zones
    requires forall c :: c in s.larges ==> c in s.blocks && c in t.blocks && s.blocks[c] == t.blocks[c]
    ensures Gains(s, t, LargeRef(b))
  {
  }

  lemma TakeLargeOwners(s: State, n: nat)
    requires Core(s) && n > 0 && TakeLarge(s, n).1.Some?
    ensures OwnersOk(TakeLarge(s, n).0)
  {
    var r := TakePages(s.pages, n);
    var b := r.1.value;
    var t := TakeLarge(s, n).0;
    HandOut(s.pages, s.blocks, s.npages, n);
    assert 0 in s.blocks && b != 0;
    forall z: nat | ZoneHeld(s.usage, s.blocks, z, s.zp) ensures ZoneHeld(t.usage, t.blocks, z, t.zp) {
      assert z + s.blocks[z] <= b || b + n <= z;
    }
  }

  lemma TakeLargeKeeps(s: State, n: nat)
    requires Core(s) && n > 0 && TakeLarge(s, n).1.Some?
    ensures Core(TakeLarge(s, n).0)
    ensures Gains(s, TakeLarge(s, n).0, TakeLarge(s, n).1.value)
  {
    var b := TakePages(s.pages, n).1.value;
    var t := TakeLarge(s, n).0;
    HandOut(s.pages, s.blocks, s.npages, n);
    TakeLargeOwners(s, n);
    LargeGained(s, t, b);
    TotalOne(s, t, b, s.npages);
  }

  lemma TakeChunkOk(zp: nat, z: Zone)
    requires ZoneOk(zp, z) && z.nfree > 0
    ensures HasChunk(z)
    ensures var t := TakeChunk(z);
            && ZoneOk(zp, t.0)
            && t.0 == z.(nfree := z.nfree - 1, uindex := t.0.uindex, chain := t.0.chain)
            && !SlotLive(z, t.1)
            && (forall i: nat :: SlotLive(t.0, i) <==> SlotLive(z, i) || i == t.1)
  {
    if z.uindex + 1 == z.nmax {
      assert z.chain == [z.chain[0]] + z.chain[1..];
    }
  }

  /** The first zone of a list gives a chunk, and leaves the list when it was the last. */
  lemma HeadUsed(lists: seq<seq<nat>>, zones: map<nat, Zone>, i: nat, zone: Zone)
    requires ListsOk(lists, zones) && i < NZONES && lists[i] != [] && lists[i][0] in zones
    requires zone.index == zones[lists[i][0]].index == i
    ensures var z := lists[i][0];
            ListsOk(if zone.nfree == 0 then lists[i := lists[i][1..]] else lists, zones[z := zone])
  {
    var z := lists[i][0];
    var next := if zone.nfree == 0 then lists[i := lists[i][1..]] else lists;
    var m := zones[z := zone];
    assert ListOk(lists[i], i, zones);
    forall j | 0 <= j < NZONES ensures ListOk(next[j], j, m) {
      assert ListOk(lists[j], j, zones);
    }
    forall y | y in m && m[y].index < NZONES && m[y].nfree > 0 ensures y in next[m[y].index] {
      assert y != z ==> y in lists[zones[y].index];
      assert lists[i] == [z] + lists[i][1..];
    }
  }

  lemma ListHead(s: State, i: nat)
    requires Core(s) && i < NZONES && s.lists[i] != []
    ensures var z := s.lists[i][0];
            z in s.zones && HasChunk(s.zones[z]) && s.zones[z].index == i && ZoneOk(s.zp, s.zones[z])
  {
    assert ListOk(s.lists[i], i, s.zones) && ZoneOk(s.zp, s.zones[s.lists[i][0]]);
    TakeChunkOk(s.zp, s.zones[s.lists[i][0]]);
  }

  /** Every zone has its pages. */
  lemma ZonePlace(s: State, z: nat)
    requires Core(s) && (z in s.zones || z in s.free)
    ensures z in s.blocks && z < s.npages
  {
    assert ZoneHeld(s.usage, s.blocks, z, s.zp);
  }

  lemma UseZoneTotal(s: State, i: nat)
    requires Core(s) && i < NZONES && s.lists[i] != []
    requires var z := s.lists[i][0]; z in s.zones && HasChunk(s.zones[z]) && ZoneOk(s.zp, s.zones[z]) && s.zones[z].nfree > 0
    ensures Total(UseZone(s, i).0, s.npages) == UseZone(s, i).0.used
  {
    var z: nat := s.lists[i][0];
    ZonePlace(s, z);
    TakeChunkOk(s.zp, s.zones[z]);
    ChunkTotal(s, UseZone(s, i).0, z, s.npages, 1);
  }

  lemma UseZoneKeeps(s: State, i: nat)
    requires Core(s) && i < NZONES && s.lists[i] != []
    ensures var z := s.lists[i][0]; z in s.zones && HasChunk(s.zones[z])
    ensures Core(UseZone(s, i).0)
  {
    ListHead(s, i);
    var z: nat := s.lists[i][0];
    TakeChunkOk(s.zp, s.zones[z]);
    var t := UseZone(s, i).0;
    HeadUsed(s.lists, s.zones, i, t.zones[z]);
    UseZoneTotal(s, i);
  }

  lemma UseZoneGives(s: State, i: nat)
    requires Core(s) && i < NZONES && s.lists[i] != []
    requires var z := s.lists[i][0]; z in s.zones && HasChunk(s.zones[z])
    ensures Gains(s, UseZone(s, i).0, UseZone(s, i).1.value)
  {
    var z: nat := s.lists[i][0];
    ListHead(s, i);
    TakeChunkOk(s.zp, s.zones[z]);
    ChunkGained(s, UseZone(s, i).0, z, TakeChunk(s.zones[z]).1);
  }

  lemma MarkHeld(usage: seq<Usage>, blocks: map<nat, nat>, b: nat, zp: nat)
    requires b != 0 && b + zp <= |usage|
    ensures ZoneHeld(Mark(usage, b, zp), blocks[b := zp], b, zp)
  {
  }

  lemma AddZoneOwners(s: State)
    requires PagesOk(s.pages, s.blocks, s.npages) && OwnersOk(s) && ZonePages(s.zp) && |s.usage| == s.npages
    requires s.free == [] && TakePages(s.pages, s.zp).1.Some?
    ensures var r := TakePages(s.pages, s.zp); OwnersOk(AddZone(s, r.1.value, r.0))
  {
    var r := TakePages(s.pages, s.zp);
    var b := r.1.value;
    var t := AddZone(s, b, r.0);
    HandOut(s.pages, s.blocks, s.npages, s.zp);
    assert 0 in s.blocks && b != 0;
    MarkHeld(s.usage, s.blocks, b, s.zp);
    forall z: nat | ZoneHeld(s.usage, s.blocks, z, s.zp) ensures ZoneHeld(t.usage, t.blocks, z, t.zp) {
      assert z + s.blocks[z] <= b || b + s.zp <= z;
    }
    forall c | c in s.larges ensures t.usage[c] == s.usage[c] {
      assert c + s.blocks[c] <= b || b + s.zp <= c;
    }
  }

  lemma AddZoneKeeps(s: State)
    requires Core(s) && s.free == [] && TakePages(s.pages, s.zp).1.Some?
    ensures var r := TakePages(s.pages, s.zp); Core(AddZone(s, r.1.value, r.0))
    ensures var r := TakePages(s.pages, s.zp); SameLive(s, AddZone(s, r.1.value, r.0))
  {
    var r := TakePages(s.pages, s.zp);
    var t := AddZone(s, r.1.value, r.0);
    HandOut(s.pages, s.blocks, s.npages, s.zp);
    AddZoneOwners(s);
    TotalOne(s, t, r.1.value, s.npages);
  }

  /** A zone that becomes usable goes to the head of its list. */
  lemma HeadLinked(lists: seq<seq<nat>>, zones: map<nat, Zone>, z: nat, zone: Zone)
    requires ListsOk(lists, zones) && zone.index < NZONES && zone.nfree > 0
    requires z in zones ==> zones[z].index == zone.index && zones[z].nfree == 0
    ensures ListsOk(lists[zone.index := [z] + lists[zone.index]], zones[z := zone])
  {
    var i := zone.index;
    var next, m := lists[i := [z] + lists[i]], zones[z := zone];
    forall j | 0 <= j < NZONES ensures ListOk(next[j], j, m) {
      assert ListOk(lists[j], j, zones);
      assert z !in lists[j];
    }
    forall y | y in m && m[y].index < NZONES && m[y].nfree > 0 ensures y in next[m[y].index] {
      assert y != z ==> y in lists[zones[y].index];
    }
  }

  lemma FreshZoneOk(zp: nat, i: nat)
    requires ZonePages(zp) && i < NZONES && ChunkAt(i) <= Limit(zp)
    ensures zp * PAGE >= BaseOffset(ChunkAt(i)) + ChunkAt(i)
    ensures var z := FreshZone(zp, i, ChunkAt(i)); ZoneOk(zp, z) && z.nfree == z.nmax - 1 > 0
  {
    ShapeFits(zp, ChunkAt(i));
  }

  lemma OpenZoneOwners(s: State, i: nat)
    requires Core(s) && s.free != [] && i < NZONES && s.zp * PAGE >= BaseOffset(ChunkAt(i)) + ChunkAt(i)
    ensures OwnersOk(OpenZone(s, i, ChunkAt(i)).0)
  {
    var z: nat := s.free[0];
    assert s.free == [z] + s.free[1..];
    assert ZoneHeld(s.usage, s.blocks, z, s.zp);
  }

  lemma OneChunk(z: Zone)
    requires z.nmax - z.nfree == 1
    ensures ZoneValue(z) == z.chunk
  {
  }

  lemma OpenZoneKeeps(s: State, i: nat)
    requires Core(s) && s.free != [] && i < NZONES && ChunkAt(i) <= Limit(s.zp)
    ensures s.zp * PAGE >= BaseOffset(ChunkAt(i)) + ChunkAt(i)
    ensures Core(OpenZone(s, i, ChunkAt(i)).0)
  {
    FreshZoneOk(s.zp, i);
    var z: nat := s.free[0];
    var t := OpenZone(s, i, ChunkAt(i)).0;
    assert s.free == [z] + s.free[1..];
    assert ZoneHeld(s.usage, s.blocks, z, s.zp) && z + s.blocks[z] <= s.npages;
    KindsDiffer(s, z);
    HeadLinked(s.lists, s.zones, z, t.zones[z]);
    OpenZoneOwners(s, i);
    OpenZoneTotal(s, i);
  }

  lemma OpenZoneTotal(s: State, i: nat)
    requires Core(s) && s.free != [] && i < NZONES && s.zp * PAGE >= BaseOffset(ChunkAt(i)) + ChunkAt(i)
    ensures Total(OpenZone(s, i, ChunkAt(i)).0, s.npages) == Total(s, s.npages) + ChunkAt(i)
  {
    var z: nat := s.free[0];
    var t := OpenZone(s, i, ChunkAt(i)).0;
    KindsDiffer(s, z);
    ZonePlace(s, z);
    assert AgreeOff(s, t, z);
    TotalOne(s, t, z, s.npages);
    assert t.zones[z] == FreshZone(s.zp, i, ChunkAt(i));
    OneChunk(t.zones[z]);
  }

  lemma OpenZoneGives(s: State, i: nat)
    requires Core(s) && s.free != [] && i < NZONES && s.zp * PAGE >= BaseOffset(ChunkAt(i)) + ChunkAt(i)
    ensures Gains(s, OpenZone(s, i, ChunkAt(i)).0, OpenZone(s, i, ChunkAt(i)).1.value)
  {
    ChunkGained(s, OpenZone(s, i, ChunkAt(i)).0, s.free[0], 0);
  }

  function Pushed(zone: Zone, i: nat): Zone {
    zone.(chain := [i] + zone.chain, nfree := zone.nfree + 1)
  }

  lemma PushChunkZone(zp: nat, zone: Zone, i: nat)
    requires ZoneOk(zp, zone) && SlotLive(zone, i)
    ensures ZoneOk(zp, Pushed(zone, i))
  {
    assert Distinct([i] + zone.chain);
  }

  lemma PushChunkSlots(zone: Zone, i: nat)
    requires SlotLive(zone, i)
    ensures forall j: nat :: SlotLive(zone, j) <==> SlotLive(Pushed(zone, i), j) || j == i
  {
    var chain := [i] + zone.chain;
    forall j: nat ensures j in chain <==> j in zone.chain || j == i {
    }
  }

  lemma PushChunkKeeps(s: State, z: nat, i: nat)
    requires Core(s) && Live(s, ChunkRef(z, i)) && s.zones[z].index < |s.lists|
    ensures Core(PushChunk(s, z, i))
  {
    var zone := s.zones[z];
    PushChunkZone(s.zp, zone, i);
    PushChunkLists(s, z, i);
    assert z < s.npages;
    PushChunkTotal(s, z, i);
    PushChunkOwners(s, z, i);
  }

  lemma PushChunkOwners(s: State, z: nat, i: nat)
    requires OwnersOk(s) && z in s.zones && s.zones[z].index < |s.lists|
    ensures OwnersOk(PushChunk(s, z, i))
  {
    assert PushChunk(s, z, i).zones.Keys == s.zones.Keys;
  }

  lemma PushChunkTotal(s: State, z: nat, i: nat)
    requires z in s.zones && z < s.npages && s.zones[z].index < |s.lists|
    requires forall b :: b in s.larges ==> b in s.blocks
    ensures Total(PushChunk(s, z, i), s.npages) == Total(s, s.npages) - s.zones[z].chunk
  {
    ChunkTotal(s, PushChunk(s, z, i), z, s.npages, -1);
  }

  lemma PushChunkLists(s: State, z: nat, i: nat)
    requires ListsOk(s.lists, s.zones) && z in s.zones && s.zones[z].index < |s.lists|
    ensures ListsOk(PushChunk(s, z, i).lists, PushChunk(s, z, i).zones)
  {
    var next := PushChunk(s, z, i).zones[z];
    if s.zones[z].nfree == 0 {
      HeadLinked(s.lists, s.zones, z, next);
    } else {
      Relinked(s.lists, s.zones, z, next);
    }
  }

  lemma PushChunkGives(s: State, z: nat, i: nat)
    requires Core(s) && Live(s, ChunkRef(z, i)) && s.zones[z].index < |s.lists|
    ensures Gains(PushChunk(s, z, i), s, ChunkRef(z, i))
  {
    var t := PushChunk(s, z, i);
    assert ZoneOk(s.zp, s.zones[z]);
    PushChunkSlots(s.zones[z], i);
    assert s.zones == t.zones[z := s.zones[z]];
    ChunkGained(t, s, z, i);
  }

  lemma Relinked(lists: seq<seq<nat>>, zones: map<nat, Zone>, z: nat, zone: Zone)
    requires ListsOk(lists, zones) && z in zones && zones[z].index == zone.index && zone.nfree > 0 && zones[z].nfree > 0
    ensures ListsOk(lists, zones[z := zone])
  {
    var m := zones[z := zone];
    forall j | 0 <= j < NZONES ensures ListOk(lists[j], j, m) {
      assert ListOk(lists[j], j, zones);
    }
    forall y | y in m && m[y].index < NZONES && m[y].nfree > 0 ensures y in lists[m[y].index] {
      assert y in zones && y in lists[zones[y].index];
    }
  }

  /** Distinct numbers below `n`, as many as there are, leave none out. */
  lemma AllThere(s: seq<nat>, n: nat, i: nat)
    requires Distinct(s) && Below(s, n) && |s| == n && i < n
    ensures i in s
  {
    if i !in s {
      DistinctLast(s, i);
      Pigeonhole(s + [i], n);
    }
  }

  /** The client holds no chunk of a wholly free zone. */
  lemma EmptyZone(zp: nat, zone: Zone, i: nat)
    requires ZoneOk(zp, zone) && zone.nfree == zone.nmax
    ensures !SlotLive(zone, i)
  {
    if i <= zone.uindex {
      AllThere(zone.chain, zone.uindex + 1, i);
    }
  }

  lemma RetireZoneOwners(s: State, z: nat)
    requires Core(s) && z in s.zones && s.zones[z].index < |s.lists|
    ensures OwnersOk(RetireZone(s, z))
  {
    assert ZoneHeld(s.usage, s.blocks, z, s.zp);
  }

  lemma RetireZoneKeeps(s: State, z: nat)
    requires Core(s) && z in s.zones && s.zones[z].nfree == s.zones[z].nmax
    ensures s.zones[z].index < |s.lists|
    ensures Core(RetireZone(s, z))
  {
    var zone := s.zones[z];
    assert ZoneOk(s.zp, zone);
    KindsDiffer(s, z);
    var t := RetireZone(s, z);
    Unlinked(s.lists, s.zones, z);
    RetireZoneOwners(s, z);
    TotalOne(s, t, z, s.npages);
  }

  lemma RetireZoneSame(s: State, z: nat)
    requires Core(s) && z in s.zones && s.zones[z].nfree == s.zones[z].nmax && s.zones[z].index < |s.lists|
    ensures SameLive(s, RetireZone(s, z))
  {
    var zone, t := s.zones[z], RetireZone(s, z);
    forall i ensures !SlotLive(zone, i) {
      EmptyZone(s.zp, zone, i);
    }
    forall q ensures Live(t, q) <==> Live(s, q) {
      assert q.ChunkRef? && q.zone == z ==> !SlotLive(zone, q.slot);
    }
  }

  lemma Unlinked(lists: seq<seq<nat>>, zones: map<nat, Zone>, z: nat)
    requires ListsOk(lists, zones) && z in zones && zones[z].index < NZONES
    ensures ListsOk(lists[zones[z].index := Remove(lists[zones[z].index], z)], zones - {z})
  {
    var i, m := zones[z].index, zones - {z};
    var next := lists[i := Remove(lists[i], z)];
    RemoveContents(lists[i], z);
    forall j | 0 <= j < NZONES ensures ListOk(next[j], j, m) {
      assert ListOk(lists[j], j, zones) && ListOk(lists[i], i, zones);
    }
    forall y | y in m && m[y].index < NZONES && m[y].nfree > 0 ensures y in next[m[y].index] {
      assert y in lists[zones[y].index];
    }
  }

  lemma ReleaseZoneOwners(s: State)
    requires Core(s) && s.free != []
    ensures OwnersOk(ReleaseZone(s))
  {
    var z: nat := s.free[0];
    var t := ReleaseZone(s);
    assert s.free == [z] + s.free[1..];
    assert ZoneHeld(s.usage, s.blocks, z, s.zp);
    KindsDiffer(s, z);
    forall y: nat | ZoneHeld(s.usage, s.blocks, y, s.zp) && y != z ensures ZoneHeld(t.usage, t.blocks, y, t.zp) {
      assert y + s.blocks[y] <= z || z + s.blocks[z] <= y;
    }
    forall b | b in s.larges ensures t.usage[b] == s.usage[b] && b in t.blocks {
      assert b + s.blocks[b] <= z || z + s.blocks[z] <= b;
    }
  }

  lemma ReleaseZoneKeeps(s: State)
    requires Core(s) && s.free != []
    ensures Core(ReleaseZone(s))
  {
    var z: nat := s.free[0];
    var t := ReleaseZone(s);
    assert ZoneHeld(s.usage, s.blocks, z, s.zp);
    KindsDiffer(s, z);
    HandBack(s.pages, s.blocks, s.npages, z);
    ReleaseZoneOwners(s);
    TotalOne(s, t, z, s.npages);
  }

  lemma ReleaseZoneSame(s: State)
    requires Core(s) && s.free != []
    ensures SameLive(s, ReleaseZone(s))
  {
    KindsDiffer(s, s.free[0]);
  }

  lemma FreeLargeOwners(s: State, b: nat)
    requires Core(s) && b in s.larges && b in s.blocks && b < |s.usage|
    ensures OwnersOk(FreeLarge(s, b))
  {
    var t := FreeLarge(s, b);
    KindsDiffer(s, b);
    forall y: nat | ZoneHeld(s.usage, s.blocks, y, s.zp) ensures ZoneHeld(t.usage, t.blocks, y, t.zp) {
      assert s.usage[y] == SmallPage(y - y);
      assert y + s.blocks[y] <= b || b + s.blocks[b] <= y;
    }
  }

  lemma FreeLargeKeeps(s: State, b: nat)
    requires Core(s) && b in s.larges
    ensures b in s.blocks && b < |s.usage|
    ensures Core(FreeLarge(s, b)) && Gains(FreeLarge(s, b), s, LargeRef(b))
  {
    var t := FreeLarge(s, b);
    KindsDiffer(s, b);
    HandBack(s.pages, s.blocks, s.npages, b);
    FreeLargeOwners(s, b);
    TotalOne(s, t, b, s.npages);
    LargeGained(t, s, b);
  }

  // ---------------------------------------------------------------------------------------------
  // Every operation

  /** What an allocation may do to a good state. */
  ghost predicate Allocated(s: State, t: State, r: Option<Ref>) {
    if r.None? then t == s else Gains(s, t, r.value)
  }

  lemma AllocLarge(s: State, size: nat)
    requires Inv(s) && size >= Limit(s.zp)
    ensures Inv(AllocBlock(s, size).0)
    ensures Allocated(s, AllocBlock(s, size).0, AllocBlock(s, size).1)
  {
    RoundUpBounds(size, PAGE);
    var n := RoundUp(size, PAGE) / PAGE;
    if TakeLarge(s, n).1.Some? {
      TakeLargeKeeps(s, n);
    }
  }

  lemma AllocUsed(s: State, size: nat)
    requires Inv(s) && 0 < size < Limit(s.zp) && 0 <= ZoneIndex(size).1 < NZONES && s.lists[ZoneIndex(size).1] != []
    ensures Inv(AllocBlock(s, size).0)
    ensures Allocated(s, AllocBlock(s, size).0, AllocBlock(s, size).1)
  {
    var i := ZoneIndex(size).1;
    UseZoneKeeps(s, i);
    UseZoneGives(s, i);
    assert AllocBlock(s, size) == UseZone(s, i);
  }

  lemma AllocOpened(s: State, size: nat)
    requires Inv(s) && 0 < size < Limit(s.zp) && 0 <= ZoneIndex(size).1 < NZONES && s.lists[ZoneIndex(size).1] == []
    requires s.free != []
    ensures Inv(AllocBlock(s, size).0)
    ensures Allocated(s, AllocBlock(s, size).0, AllocBlock(s, size).1)
  {
    SmallRequest(s.zp, size);
    var i := ZoneIndex(size).1;
    OpenZoneKeeps(s, i);
    OpenZoneGives(s, i);
    assert AllocBlock(s, size) == OpenZone(s, i, ChunkAt(i));
  }

  lemma AllocAdded(s: State, size: nat)
    requires Inv(s) && 0 < size < Limit(s.zp) && 0 <= ZoneIndex(size).1 < NZONES && s.lists[ZoneIndex(size).1] == []
    requires s.free == []
    ensures Inv(AllocBlock(s, size).0)
    ensures Allocated(s, AllocBlock(s, size).0, AllocBlock(s, size).1)
  {
    SmallRequest(s.zp, size);
    var i := ZoneIndex(size).1;
    if TakePages(s.pages, s.zp).1.Some? {
      var r := TakePages(s.pages, s.zp);
      var u := AddZone(s, r.1.value, r.0);
      AddZoneKeeps(s);
      OpenZoneKeeps(u, i);
      OpenZoneGives(u, i);
      assert AllocBlock(s, size) == OpenZone(u, i, ChunkAt(i));
      GainsAfter(s, u, AllocBlock(s, size).0, AllocBlock(s, size).1.value);
    }
  }

  lemma GainsAfter(s: State, u: State, t: State, r: Ref)
    requires SameLive(s, u) && Gains(u, t, r)
    ensures Gains(s, t, r)
  {
    forall q | Live(s, q) ensures Stays(s, t, q) {
      assert Stays(s, u, q) && Stays(u, t, q);
    }
  }

  lemma GainsBefore(t: State, u: State, s: State, r: Ref)
    requires SameLive(t, u) && Gains(t, s, r)
    ensures Gains(u, s, r)
  {
    forall q | Live(u, q) ensures Stays(u, s, q) {
      assert Stays(t, u, q) && Stays(t, s, q);
    }
  }

  /** An allocation adds one block and moves none; a refusal changes nothing. */
  lemma AllocKeeps(s: State, size: nat)
    requires Inv(s)
    ensures Inv(AllocBlock(s, size).0)
    ensures Allocated(s, AllocBlock(s, size).0, AllocBlock(s, size).1)
  {
    if size >= Limit(s.zp) {
      AllocLarge(s, size);
    } else if size > 0 {
      SmallRequest(s.zp, size);
      if s.lists[ZoneIndex(size).1] != [] {
        AllocUsed(s, size);
      } else if s.free != [] {
        AllocOpened(s, size);
      } else {
        AllocAdded(s, size);
      }
    }
  }

  lemma FreeChunkKeeps(s: State, z: nat, i: nat)
    requires Inv(s) && Live(s, ChunkRef(z, i))
    ensures Inv(FreeBlock(s, ChunkRef(z, i)))
  {
    assert ZoneOk(s.zp, s.zones[z]);
    PushChunkKeeps(s, z, i);
    var t := PushChunk(s, z, i);
    if t.zones[z].nfree == t.zones[z].nmax && t.lists[t.zones[z].index] != [z] {
      RetireZoneKeeps(t, z);
      var u := RetireZone(t, z);
      if |u.free| > 2 {
        ReleaseZoneKeeps(u);
      }
    }
  }

  lemma FreeChunkGives(s: State, z: nat, i: nat)
    requires Inv(s) && Live(s, ChunkRef(z, i))
    ensures Gains(FreeBlock(s, ChunkRef(z, i)), s, ChunkRef(z, i))
  {
    assert ZoneOk(s.zp, s.zones[z]);
    PushChunkKeeps(s, z, i);
    PushChunkGives(s, z, i);
    var t := PushChunk(s, z, i);
    if t.zones[z].nfree == t.zones[z].nmax && t.lists[t.zones[z].index] != [z] {
      RetireZoneKeeps(t, z);
      var u := RetireZone(t, z);
      RetireZoneSame(t, z);
      GainsBefore(t, u, s, ChunkRef(z, i));
      if |u.free| > 2 {
        ReleaseZoneKeeps(u);
        ReleaseZoneSame(u);
        GainsBefore(u, ReleaseZone(u), s, ChunkRef(z, i));
      }
    }
  }

  /** Freeing takes away that block alone. */
  /** Another zone of the same chunk size has a free chunk. */
  ghost predicate HasSpare(s: State, z: nat)
    requires z in s.zones && s.zones[z].index < |s.lists|
  {
    var spare := exists y: nat :: y != z && y in s.lists[s.zones[z].index];
    spare
  }

  /**
    What becomes of the zone of a freed chunk: it is given up exactly when no chunk of it is out any more and another zone
    can serve the size. Two such zones are kept; a further one goes back to the page allocator.
   */
  lemma ChunkFreed(s: State, z: nat, i: nat)
    requires Inv(s) && Live(s, ChunkRef(z, i))
    ensures s.zones[z].index < |s.lists|
    ensures var t := FreeBlock(s, ChunkRef(z, i));
      && (z in t.zones <==> s.zones[z].nfree + 1 != s.zones[z].nmax || !HasSpare(s, z))
      && (z in t.zones ==> t.free == s.free && t.blocks == s.blocks && t.pages == s.pages)
      && (z !in t.zones && |s.free| < 2 ==> t.free == [z] + s.free && t.blocks == s.blocks && t.pages == s.pages)
      && (z !in t.zones && |s.free| == 2 ==> t.free == s.free && t.blocks == s.blocks - {z} && t.pages == GivePages(s.pages, z, s.zp))
  {
    assert ZoneOk(s.zp, s.zones[z]);
    ListsSpare(s, z, i);
    var t := PushChunk(s, z, i);
    assert t.zones[z] == Pushed(s.zones[z], i) && t.free == s.free && t.blocks == s.blocks && t.pages == s.pages && t.zp == s.zp;
    ChunkTail(t, z, s.zones[z].nfree + 1 != s.zones[z].nmax || !HasSpare(s, z), FreeBlock(s, ChunkRef(z, i)));
  }

  lemma ChunkTail(t: State, z: nat, stays: bool, r: State)
    requires z in t.zones && t.zones[z].index < |t.lists| && |t.free| <= 2
    requires stays <==> !(t.zones[z].nfree == t.zones[z].nmax && t.lists[t.zones[z].index] != [z])
    requires r == if stays then t else var u := RetireZone(t, z); if |u.free| > 2 then ReleaseZone(u) else u
    ensures z in r.zones <==> stays
    ensures stays ==> r == t
    ensures !stays && |t.free| < 2 ==> r.free == [z] + t.free && r.blocks == t.blocks && r.pages == t.pages
    ensures !stays && |t.free| == 2 ==> r.free == t.free && r.blocks == t.blocks - {z} && r.pages == GivePages(t.pages, z, t.zp)
  {
    RetireFields(t, z);
    assert RetireZone(t, z).free[1..] == t.free;
  }

  lemma RetireFields(t: State, z: nat)
    requires z in t.zones && t.zones[z].index < |t.lists|
    ensures var u := RetireZone(t, z); z !in u.zones && u.free == [z] + t.free && u.blocks == t.blocks && u.pages == t.pages && u.zp == t.zp
  {
  }

  /** Once a chunk of it is free, the zone is on its list, and alone there if no other zone can serve. */
  lemma ListsSpare(s: State, z: nat, i: nat)
    requires Inv(s) && Live(s, ChunkRef(z, i)) && ZoneOk(s.zp, s.zones[z])
    ensures PushChunk(s, z, i).lists[s.zones[z].index] == [z] <==> !HasSpare(s, z)
  {
    var j := s.zones[z].index;
    assert ListOk(s.lists[j], j, s.zones);
    Alone(s.lists[j], z);
    if s.zones[z].nfree == 0 {
      assert ([z] + s.lists[j])[1..] == s.lists[j];
    }
  }

  /** A list without others is empty or holds `z` alone. */
  lemma Alone(list: seq<nat>, z: nat)
    requires Distinct(list)
    ensures (exists y: nat :: y != z && y in list) <==> list != [] && list != [z]
  {
    assert |list| > 1 ==> list[0] != list[1];
    if list != [] && list != [z] {
      assert list[0] in list && (|list| > 1 ==> list[1] in list);
    }
  }

  lemma FreeKeeps(s: State, r: Ref)
    requires Inv(s) && Live(s, r)
    ensures Inv(FreeBlock(s, r))
    ensures Gains(FreeBlock(s, r), s, r)
  {
    match r
    case LargeRef(b) => FreeLargeKeeps(s, b);
    case ChunkRef(z, i) =>
      FreeChunkKeeps(s, z, i);
      FreeChunkGives(s, z, i);
  }

  /** The chunk that a small request gets is of the size it was rounded to. */
  lemma AllocChunk(s: State, size: nat)
    requires Inv(s) && 0 < size < Limit(s.zp) && AllocBlock(s, size).1.Some?
    ensures var (t, r) := AllocBlock(s, size);
            r.value.ChunkRef? && Named(t, r.value) && t.zones[r.value.zone].chunk == ZoneIndex(size).0
  {
    SmallRequest(s.zp, size);
    var i := ZoneIndex(size).1;
    if s.lists[i] != [] {
      ListHead(s, i);
    }
  }

  /** The block handed out is as large as asked. */
  lemma AllocSize(s: State, size: nat)
    requires Inv(s) && AllocBlock(s, size).1.Some?
    ensures var (t, r) := AllocBlock(s, size); Named(t, r.value) && Size(t, r.value) >= size > 0
  {
    if size >= Limit(s.zp) {
      RoundUpBounds(size, PAGE);
      assert RoundUp(size, PAGE) / PAGE * PAGE == RoundUp(size, PAGE);
    } else if size > 0 {
      ZoneIndexFits(size);
      AllocChunk(s, size);
    }
  }

  /**
    Which chunk a small request gets: the first zone of its list serves it, with the next chunk that was never out, and
    when there is none with the one freed last. Nothing else of any zone changes.
   */
  lemma AllocServes(s: State, size: nat)
    requires Inv(s) && 0 < size < Limit(s.zp) && s.lists[ZoneIndex(size).1] != []
    ensures var i := ZoneIndex(size).1; var z, r := s.lists[i][0], AllocBlock(s, size);
      && z in s.zones && z in r.0.zones && r.1.Some? && r.1.value.ChunkRef? && r.1.value.zone == z
      && var (was, now, slot) := (s.zones[z], r.0.zones[z], r.1.value.slot);
      && (was.uindex + 1 != was.nmax ==> slot == was.uindex + 1 && now.uindex == slot && now.chain == was.chain)
      && (was.uindex + 1 == was.nmax ==> was.chain == [slot] + now.chain && now.uindex == was.uindex)
      && now.nfree == was.nfree - 1
      && (forall y :: y in s.zones && y != z ==> y in r.0.zones && r.0.zones[y] == s.zones[y])
  {
    SmallRequest(s.zp, size);
    ListHead(s, ZoneIndex(size).1);
  }

  /** A chunk that is freed is the next one out of its zone, once all chunks of the zone have been out. */
  lemma ChunkReused(s: State, z: nat, i: nat, size: nat)
    requires Inv(s) && Live(s, ChunkRef(z, i)) && 0 < size < Limit(s.zp)
    requires s.zones[z].uindex + 1 == s.zones[z].nmax
    requires var t := FreeBlock(s, ChunkRef(z, i));
             z in t.zones && ZoneIndex(size).1 < |t.lists| && t.lists[ZoneIndex(size).1] != [] && t.lists[ZoneIndex(size).1][0] == z
    ensures var t := FreeBlock(s, ChunkRef(z, i));
            Inv(t) && AllocBlock(t, size).1 == Some(ChunkRef(z, i))
  {
    var t := FreeBlock(s, ChunkRef(z, i));
    assert ZoneOk(s.zp, s.zones[z]);
    FreeKeeps(s, ChunkRef(z, i));
    FreedZone(s, z, i);
    AllocServes(t, size);
  }

  /** A freed chunk goes to the head of the chain of its zone, if the zone stays. */
  lemma FreedZone(s: State, z: nat, i: nat)
    requires Inv(s) && Live(s, ChunkRef(z, i)) && z in FreeBlock(s, ChunkRef(z, i)).zones
    ensures var now := FreeBlock(s, ChunkRef(z, i)).zones[z];
            now.chain == [i] + s.zones[z].chain && now.nfree == s.zones[z].nfree + 1 && now.uindex == s.zones[z].uindex && now.nmax == s.zones[z].nmax
  {
    assert ZoneOk(s.zp, s.zones[z]);
    var t := PushChunk(s, z, i);
    assert t.zones[z] == Pushed(s.zones[z], i);
    RetireFields(t, z);
  }

  /** The account goes up by the size of what is handed out, which may be more than was asked for, and the peak with it. */
  lemma AllocAccount(s: State, size: nat)
    requires Inv(s)
    ensures var (t, q) := AllocBlock(s, size);
      && (q.None? ==> t == s)
      && (q.Some? ==>
            && Named(t, q.value) && t.used == s.used + Size(t, q.value)
            && t.max == if t.used > s.max then t.used else s.max)
  {
    var (t, q) := AllocBlock(s, size);
    if q.Some? {
      AllocKeeps(s, size);
      if size < Limit(s.zp) {
        SmallRequest(s.zp, size);
        if s.lists[ZoneIndex(size).1] != [] {
          AllocServes(s, size);
        }
      } else {
        RoundUpBounds(size, PAGE);
      }
    }
  }

  /** A free takes the size of the block off, and leaves the peak. */
  lemma FreeAccount(s: State, r: Ref)
    requires Inv(s) && Live(s, r)
    ensures Named(s, r) && FreeBlock(s, r).used == s.used - Size(s, r) && FreeBlock(s, r).max == s.max
  {
    LiveNamed(s, r);
  }

  /** A request is refused exactly when there is no chunk for it and no run of pages that is long enough. */
  lemma AllocRefused(s: State, size: nat)
    requires Inv(s) && size > 0
    ensures var n := if size >= Limit(s.zp) then RoundUp(size, PAGE) / PAGE else s.zp;
            AllocBlock(s, size).1.None? <==>
            && (size < Limit(s.zp) ==>
                  && s.free == []
                  && forall z :: z in s.zones && s.zones[z].chunk == ZoneIndex(size).0 ==> s.zones[z].nfree == 0)
            && (forall i :: 0 <= i < |s.pages| ==> s.pages[i].count < n)
  {
    if size >= Limit(s.zp) {
      RoundUpBounds(size, PAGE);
      TakeFails(s.pages, RoundUp(size, PAGE) / PAGE);
    } else {
      TakeFails(s.pages, s.zp);
      SmallRequest(s.zp, size);
      NoZone(s, ZoneIndex(size).1);
    }
  }

  lemma NoZone(s: State, i: nat)
    requires Core(s) && i < NZONES
    ensures s.lists[i] == [] <==> forall z :: z in s.zones && s.zones[z].chunk == ChunkAt(i) ==> s.zones[z].nfree == 0
  {
    assert ListOk(s.lists[i], i, s.zones);
    if s.lists[i] != [] {
      var z: nat := s.lists[i][0];
      assert ZoneOk(s.zp, s.zones[z]);
    } else {
      forall z | z in s.zones && s.zones[z].chunk == ChunkAt(i) ensures s.zones[z].nfree == 0 {
        assert ZoneOk(s.zp, s.zones[z]);
        OneIndex(s.zones[z].index, i);
      }
    }
  }

  lemma OneIndex(i: nat, j: nat)
    requires i < NZONES && j < NZONES && ChunkAt(i) == ChunkAt(j)
    ensures i == j
  {
    if i < j {
      ChunksGrow(i, j);
    } else if j < i {
      ChunksGrow(j, i);
    }
  }

  /** What is live is clear of the zone headers and of the free pages. */
  lemma LiveClear(s: State, r: Ref, p: nat)
    requires Core(s) && Live(s, r) && Named(s, r) && p < s.npages && Covers(s.pages, p)
    ensures r.ChunkRef? ==> r.zone * PAGE + HEADER <= Address(s, r)
    ensures Address(s, r) + Size(s, r) <= p * PAGE || (p + 1) * PAGE <= Address(s, r)
  {
    LiveNamed(s, r);
    LiveInside(s, r);
    var b := FirstPage(r);
    assert !(b <= p < b + s.blocks[b]) by {
      assert !Held(s.blocks, p);
    }
    if r.ChunkRef? {
      assert ZoneOk(s.zp, s.zones[r.zone]);
      ShapeRoom(s.zp, s.zones[r.zone]);
      SlotInside(s.zp, r.zone, s.zones[r.zone], r.slot);
    }
  }

  function UpTo(n: nat): (r: set<nat>)
    ensures |r| == n && forall i: nat :: i in r <==> i < n
  {
    if n == 0 then {} else UpTo(n - 1) + {n - 1}
  }

  function Elements(s: seq<nat>): (r: set<nat>)
    ensures forall i :: i in r <==> i in s
    ensures Distinct(s) ==> |r| == |s|
  {
    if s == [] then {}
    else
      assert s == [s[0]] + s[1..];
      assert Distinct(s) ==> s[0] !in s[1..];
      Elements(s[1..]) + {s[0]}
  }

  function LiveSlots(z: Zone): set<nat> {
    UpTo(z.uindex + 1) - Elements(z.chain)
  }

  /** `nmax - nfree` counts the chunks of a zone that the client holds. */
  lemma LiveCount(zp: nat, z: Zone)
    requires ZoneOk(zp, z)
    ensures forall i: nat :: i in LiveSlots(z) <==> SlotLive(z, i)
    ensures |LiveSlots(z)| == z.nmax - z.nfree
  {
    CountRest(z.chain, z.uindex + 1);
  }

  lemma CountRest(s: seq<nat>, n: nat)
    requires Distinct(s) && Below(s, n)
    ensures |UpTo(n) - Elements(s)| == n - |s|
  {
    var all, some := UpTo(n), Elements(s);
    assert some <= all;
    assert |all| == |all - some| + |some| by {
      assert all == (all - some) + some;
    }
  }

  lemma {:induction false} PowerDivides(c: nat, n: nat)
    requires PowerOfTwo(c) && PowerOfTwo(n) && c <= n
    ensures n % c == 0
  {
    if c > 1 {
      PowerDivides(c / 2, n / 2);
      var d, k := c / 2, n / 2 / (c / 2);
      assert n / 2 == k * d;
      assert n == k * c by {
        assert n == 2 * (k * d) && c == 2 * d;
      }
      ModUnique(n, k, 0, c);
    }
  }

  lemma PagePower()
    ensures PowerOfTwo(PAGE) && PowerOfTwo(2 * PAGE)
  {
    assert PowerOfTwo(8);
    assert PowerOfTwo(32);
    assert PowerOfTwo(128);
    assert PowerOfTwo(512);
    assert PowerOfTwo(2048);
  }

  /**
    The chunks of a size that is a power of two are aligned to that size exactly when their zone is; zones are only
    aligned to pages, so this holds for every size up to a page, and can fail above.
   */
  lemma PowerAligned(zp: nat, start: nat, z: Zone, i: nat)
    requires ZonePages(zp) && ShapeOk(zp, z) && PowerOfTwo(z.chunk)
    ensures SlotAddress(start, z, i) % z.chunk == 0 <==> start * PAGE % z.chunk == 0
    ensures z.chunk <= PAGE ==> SlotAddress(start, z, i) % z.chunk == 0
  {
    var c := z.chunk;
    var k := (HEADER + c - 1) / c;
    OffsetMultiple(start * PAGE, k, i, c);
    if c <= PAGE {
      PagePower();
      PowerDivides(c, PAGE);
      Multiple(PAGE, start, c);
    }
  }

  lemma OffsetMultiple(a: nat, k: nat, i: nat, c: nat)
    requires c > 0
    ensures (a + k * c + i * c) % c == a % c
  {
    var q := a / c;
    assert a == q * c + a % c;
    assert a + k * c + i * c == (q + k + i) * c + a % c;
    ModUnique(a + k * c + i * c, q + k + i, a % c, c);
  }

  lemma Multiple(n: nat, m: nat, c: nat)
    requires c > 0 && n % c == 0
    ensures m * n % c == 0
  {
    var k := n / c;
    assert n == k * c;
    assert m * n == m * k * c;
    ModUnique(m * n, m * k, 0, c);
  }

  lemma ModUnique(a: nat, q: nat, r: nat, c: nat)
    requires c > 0 && r < c && a == q * c + r
    ensures a % c == r
  {
    var p := a / c;
    assert a == p * c + a % c;
    assert (p - q) * c == p * c - q * c == r - a % c;
    assert (q - p) * c == q * c - p * c == a % c - r;
    SmallFactor(p - q, c, r);
    SmallFactor(q - p, c, a % c);
  }

  /** The page where the next allocation of this size is cut from: a zone in use, a free zone, or the first run that fits. */
  function NextPage(s: State, size: nat): Option<nat>
    requires Core(s) && size > 0
  {
    if size >= Limit(s.zp) then TakePages(s.pages, RoundUp(size, PAGE) / PAGE).1
    else
      SmallRequest(s.zp, size);
      var i := ZoneIndex(size).1;
      if s.lists[i] != [] then Some(s.lists[i][0])
      else if s.free != [] then Some(s.free[0])
      else TakePages(s.pages, s.zp).1
  }

  lemma NextPageIs(s: State, size: nat)
    requires Inv(s) && size > 0
    ensures var r := AllocBlock(s, size).1;
            NextPage(s, size) == if r.None? then None else Some(FirstPage(r.value))
  {
    if size < Limit(s.zp) {
      SmallRequest(s.zp, size);
    }
  }

  lemma {:induction false} PowersList(c: nat)
    requires PowerOfTwo(c) && c < 16384
    ensures c in {1, 2, 4, 8, 16, 32, 64, 128, 256, 512, 1024, 2048, 4096, 8192}
  {
    if c > 1 {
      PowersList(c / 2);
    }
  }

  /** A size that is a power of two is its own chunk size, from eight bytes on. */
  lemma PowerChunk(size: nat)
    requires PowerOfTwo(size) && size < 16384
    ensures ZoneIndex(size).0 == Max(size, 8)
  {
    PowersList(size);
  }

  lemma ScaleMod(x: nat, m: nat)
    requires m > 0
    ensures x * PAGE % (m * PAGE) == 0 <==> x % m == 0
  {
    var q := x / m;
    assert x == q * m + x % m;
    assert x * PAGE == q * (m * PAGE) + x % m * PAGE;
    assert x % m * PAGE < m * PAGE;
    ModUnique(x * PAGE, q, x % m * PAGE, m * PAGE);
  }

  function Rest(a: nat, c: nat): nat
    requires c > 0
  {
    a % c
  }

  /** Where the first byte of a chunk or of a run of pages lies relative to a power of two. */
  lemma RefAligned(t: State, r: Ref, heap: nat, c: nat)
    requires Core(t) && Live(t, r) && Named(t, r) && c > 0
    requires r.ChunkRef? ==> t.zones[r.zone].chunk == c && PowerOfTwo(c)
    ensures Rest(heap + Address(t, r), c) == Rest(heap + FirstPage(r) * PAGE, c)
  {
    if r.ChunkRef? {
      assert ZoneOk(t.zp, t.zones[r.zone]);
      SlotAligned(r.zone, t.zones[r.zone], r.slot, heap);
    }
  }

  lemma SlotAligned(start: nat, z: Zone, i: nat, heap: nat)
    requires z.chunk > 0 && PowerOfTwo(z.chunk) && z.off == BaseOffset(z.chunk)
    ensures Rest(heap + SlotAddress(start, z, i), z.chunk) == Rest(heap + start * PAGE, z.chunk)
  {
    var k := (HEADER + z.chunk - 1) / z.chunk;
    assert z.off == k * z.chunk;
    OffsetMultiple(heap + start * PAGE, k, i, z.chunk);
  }

  lemma PagesAligned(heap: nat, b: nat, size: nat)
    requires PowerOfTwo(size) && heap % PAGE == 0 && size > PAGE
    ensures (heap + b * PAGE) % size == 0 <==> (heap / PAGE + b) % (size / PAGE) == 0
  {
    PagePower();
    PowerDivides(PAGE, size);
    var n, m := heap / PAGE + b, size / PAGE;
    assert heap + b * PAGE == n * PAGE && size == m * PAGE;
    ScaleMod(n, m);
  }

  lemma UpToPageAligned(heap: nat, b: nat, size: nat, c: nat, a: nat)
    requires PowerOfTwo(size) && heap % PAGE == 0 && size <= c <= PAGE && PowerOfTwo(c)
    requires a % c == (heap + b * PAGE) % c
    ensures a % size == 0
  {
    PagePower();
    PowerDivides(c, PAGE);
    var n := heap / PAGE + b;
    assert heap + b * PAGE == n * PAGE;
    Multiple(PAGE, n, c);
    PowerDivides(size, c);
    assert a == a / c * c;
    Multiple(c, a / c, size);
  }

  lemma EightAtLeast(size: nat)
    requires PowerOfTwo(size)
    ensures PowerOfTwo(Max(size, 8))
  {
    assert PowerOfTwo(8);
  }

  lemma AlignedLike(heap: nat, b: nat, size: nat, a: nat)
    requires PowerOfTwo(size) && heap % PAGE == 0 && PowerOfTwo(Max(size, 8))
    requires var c := Max(size, 8); Rest(a, c) == Rest(heap + b * PAGE, c)
    ensures Rest(a, size) == 0 <==> size <= PAGE || Rest(heap / PAGE + b, size / PAGE) == 0
  {
    if size > PAGE {
      PagesAligned(heap, b, size);
    } else {
      UpToPageAligned(heap, b, size, Max(size, 8), a);
    }
  }

  /** `r` is aligned to `size` if and only if `size` is at most a page or its first page is so aligned. */
  ghost predicate AlignedIff(t: State, r: Ref, size: nat, heap: nat, page: nat)
    requires Named(t, r) && size > 0
  {
    Rest(heap + Address(t, r), size) == 0 <==> size <= PAGE || Rest(heap / PAGE + page, size / PAGE) == 0
  }

  lemma RefAlignedIff(t: State, r: Ref, size: nat, heap: nat)
    requires Core(t) && Live(t, r) && Named(t, r) && PowerOfTwo(size) && heap % PAGE == 0
    requires if r.ChunkRef? then t.zones[r.zone].chunk == Max(size, 8) else size >= 8
    ensures AlignedIff(t, r, size, heap, FirstPage(r))
  {
    EightAtLeast(size);
    RefAligned(t, r, heap, Max(size, 8));
    AlignedLike(heap, FirstPage(r), size, heap + Address(t, r));
  }

  lemma AllocRef(s: State, size: nat)
    requires Inv(s) && size > 0 && AllocBlock(s, size).1.Some?
    ensures Core(AllocBlock(s, size).0) && Live(AllocBlock(s, size).0, AllocBlock(s, size).1.value)
    ensures NextPage(s, size) == Some(FirstPage(AllocBlock(s, size).1.value))
    ensures size >= Limit(s.zp) ==> AllocBlock(s, size).1.value.LargeRef?
  {
    AllocKeeps(s, size);
    NextPageIs(s, size);
  }

  /**
    The alignment that the comments promise: an allocation whose size is a power of two is aligned to its size if and
    only if the size is at most a page, or the page it is cut from is so aligned, counted from address 0. The heap starts
    at `heap`, which is aligned to pages.
   */
  lemma AllocAlignedIff(s: State, size: nat, heap: nat)
    requires Inv(s) && PowerOfTwo(size) && heap % PAGE == 0 && AllocBlock(s, size).1.Some?
    ensures NextPage(s, size).Some? && Named(AllocBlock(s, size).0, AllocBlock(s, size).1.value)
    ensures AlignedIff(AllocBlock(s, size).0, AllocBlock(s, size).1.value, size, heap, NextPage(s, size).value)
  {
    AllocRef(s, size);
    var t, r := AllocBlock(s, size).0, AllocBlock(s, size).1.value;
    LiveNamed(t, r);
    if size < Limit(s.zp) {
      AllocChunk(s, size);
      PowerChunk(size);
    }
    RefAlignedIff(t, r, size, heap);
  }

  /** What a caller can rely on: up to a page, powers of two are always aligned to themselves. */
  lemma SmallAligned(s: State, size: nat, heap: nat)
    requires Inv(s) && PowerOfTwo(size) && heap % PAGE == 0 && size <= PAGE && AllocBlock(s, size).1.Some?
    ensures Named(AllocBlock(s, size).0, AllocBlock(s, size).1.value)
    ensures Rest(heap + Address(AllocBlock(s, size).0, AllocBlock(s, size).1.value), size) == 0
  {
    AllocAlignedIff(s, size, heap);
  }

  // ---------------------------------------------------------------------------------------------
  // Resizing and whole runs

  /** What `rt_slab_realloc` asks for: the chunk size when the block is a chunk. */
  function Wanted(r: Ref, size: nat): nat {
    if r.ChunkRef? then ZoneIndex(size).0 else size
  }

  /** `rt_slab_realloc` of an allocation */
  function ReallocBlock(s: State, r: Ref, size: nat): (State, Option<Ref>)
    requires Inv(s) && Live(s, r)
  {
    if size == 0 then (FreeBlock(s, r), None)
    else if r.ChunkRef? && s.zones[r.zone].chunk == Wanted(r, size) then (s, Some(r))
    else
      AllocKeeps(s, Wanted(r, size));
      var a := AllocBlock(s, Wanted(r, size));
      if a.1.None? then (s, None) else (FreeBlock(a.0, r), a.1)
  }

  lemma WantedFits(r: Ref, size: nat)
    requires size > 0
    ensures Wanted(r, size) >= size
  {
    if size < 16384 {
      ZoneIndexFits(size);
    }
  }

  /** The block `r` gives way to `q`, and no other changes. */
  ghost predicate Replaces(s: State, t: State, r: Ref, q: Ref) {
    && Live(t, q)
    && (forall p :: Live(t, p) <==> p == q || (p != r && Live(s, p)))
    && (forall p :: Live(s, p) && p != r ==> Stays(s, t, p))
  }

  lemma ReallocKeeps(s: State, r: Ref, size: nat)
    requires Inv(s) && Live(s, r) && size > 0
    ensures Inv(ReallocBlock(s, r, size).0)
    ensures ReallocBlock(s, r, size).1.None? ==> ReallocBlock(s, r, size).0 == s
    ensures ReallocBlock(s, r, size).1.Some? ==> Replaces(s, ReallocBlock(s, r, size).0, r, ReallocBlock(s, r, size).1.value)
  {
    var n := Wanted(r, size);
    if !(r.ChunkRef? && s.zones[r.zone].chunk == n) {
      AllocKeeps(s, n);
      var a := AllocBlock(s, n);
      if a.1.Some? {
        FreeKeeps(a.0, r);
        ReplacesBy(s, a.0, FreeBlock(a.0, r), r, a.1.value);
      }
    } else {
      LiveNamed(s, r);
      StaysHere(s);
    }
  }

  /** What a resize returns is named by the new state and as large as asked, kept, grown or moved. */
  lemma ReallocSize(s: State, r: Ref, size: nat)
    requires Inv(s) && Live(s, r) && size > 0 && ReallocBlock(s, r, size).1.Some?
    ensures var (t, q) := ReallocBlock(s, r, size); Named(t, q.value) && Size(t, q.value) >= size
  {
    var n := Wanted(r, size);
    WantedFits(r, size);
    if r.ChunkRef? && s.zones[r.zone].chunk == n {
      LiveNamed(s, r);
    } else {
      AllocKeeps(s, n);
      AllocSize(s, n);
      var (u, q) := AllocBlock(s, n);
      FreeKeeps(u, r);
      StaysMeans(FreeBlock(u, r), u, q.value);
    }
  }

  /** A chunk is kept exactly when it has the size that the request is rounded to; then nothing changes at all. */
  lemma ReallocStays(s: State, r: Ref, size: nat)
    requires Inv(s) && Live(s, r) && size > 0
    ensures ReallocBlock(s, r, size).1 == Some(r) <==> r.ChunkRef? && s.zones[r.zone].chunk == ZoneIndex(size).0
    ensures ReallocBlock(s, r, size).1 == Some(r) ==> ReallocBlock(s, r, size).0 == s
  {
    var n := Wanted(r, size);
    if !(r.ChunkRef? && s.zones[r.zone].chunk == n) {
      AllocKeeps(s, n);
    }
  }

  /** A resize is refused exactly when it cannot stay, and there is neither a chunk nor a run of pages for a new block. */
  lemma ReallocRefused(s: State, r: Ref, size: nat)
    requires Inv(s) && Live(s, r) && size > 0
    ensures var n := if r.ChunkRef? then ZoneIndex(size).0 else size;
            ReallocBlock(s, r, size).1.None? <==>
            && !(r.ChunkRef? && s.zones[r.zone].chunk == n)
            && (n < Limit(s.zp) ==>
                  && s.free == []
                  && forall z :: z in s.zones && s.zones[z].chunk == ZoneIndex(n).0 ==> s.zones[z].nfree == 0)
            && (forall i :: 0 <= i < |s.pages| ==>
                  s.pages[i].count < if n >= Limit(s.zp) then RoundUp(n, PAGE) / PAGE else s.zp)
  {
    WantedFits(r, size);
    AllocRefused(s, Wanted(r, size));
  }

  /** A resize to nothing is a free: exactly that block is gone. */
  lemma ReallocToZero(s: State, r: Ref)
    requires Inv(s) && Live(s, r)
    ensures var (t, q) := ReallocBlock(s, r, 0);
      && q == None && Inv(t)
      && (forall p :: Live(t, p) <==> Live(s, p) && p != r)
      && (forall p :: Live(t, p) ==> Stays(t, s, p))
  {
    FreeKeeps(s, r);
  }

  lemma StaysHere(s: State)
    requires Core(s)
    ensures forall q :: Live(s, q) ==> Stays(s, s, q)
  {
    forall q | Live(s, q) ensures Stays(s, s, q) {
      LiveNamed(s, q);
    }
  }

  lemma ReplacesBy(s: State, u: State, t: State, r: Ref, q: Ref)
    requires Live(s, r) && Gains(s, u, q) && Gains(t, u, r)
    ensures Replaces(s, t, r, q)
  {
    forall p | Live(s, p) && p != r ensures Stays(s, t, p) {
      assert Stays(s, u, p) && Live(t, p) && Stays(t, u, p);
    }
  }

  /**
    The copy of a resize stays within both blocks, which do not overlap, and takes all that both have room for.
   */
  lemma ReallocCopies(s: State, r: Ref, size: nat)
    requires Inv(s) && Live(s, r) && size > 0 && Named(s, r)
    requires ReallocBlock(s, r, size).1.Some? && ReallocBlock(s, r, size).1.value != r
    ensures var n := Wanted(r, size);
            var u := AllocBlock(s, n).0;
            var q := ReallocBlock(s, r, size).1.value;
            Named(u, q) && Named(u, r) && CopyFits(s, u, r, q, size)
  {
    WantedFits(r, size);
    AllocCopies(s, r, size, AllocBlock(s, Wanted(r, size)).0, AllocBlock(s, Wanted(r, size)).1.value);
  }

  lemma AllocCopies(s: State, r: Ref, size: nat, u: State, q: Ref)
    requires Inv(s) && Live(s, r) && 0 < size <= Wanted(r, size) && Named(s, r)
    requires AllocBlock(s, Wanted(r, size)) == (u, Some(q))
    ensures Named(u, q) && Named(u, r) && CopyFits(s, u, r, q, size)
  {
    var n := Wanted(r, size);
    AllocKeeps(s, n);
    AllocSize(s, n);
    StaysMeans(s, u, r);
    LiveApart(u, r, q);
  }

  /** Copying to `q`, while `r` is still held */
  ghost predicate CopyFits(s: State, u: State, r: Ref, q: Ref, size: nat)
    requires Named(s, r) && Named(u, r) && Named(u, q)
  {
    && Address(u, r) == Address(s, r)
    && Min(size, Size(s, r)) <= Min(Wanted(r, size), Size(s, r)) <= Min(Size(u, q), Size(u, r))
    && (Address(u, r) + Size(u, r) <= Address(u, q) || Address(u, q) + Size(u, q) <= Address(u, r))
  }

  datatype Op = AllocOp(size: nat) | FreeOp(r: Ref) | ReallocOp(r: Ref, size: nat)

  /** Clients free and resize what they hold. */
  ghost predicate Allowed(s: State, op: Op) {
    match op
    case AllocOp(_) => true
    case FreeOp(r) => Live(s, r)
    case ReallocOp(r, _) => Live(s, r)
  }

  function Step(s: State, op: Op): State
    requires Inv(s) && Allowed(s, op)
  {
    match op
    case AllocOp(size) => AllocBlock(s, size).0
    case FreeOp(r) => FreeBlock(s, r)
    case ReallocOp(r, size) => ReallocBlock(s, r, size).0
  }

  lemma StepKeeps(s: State, op: Op)
    requires Inv(s) && Allowed(s, op)
    ensures Inv(Step(s, op))
  {
    match op
    case AllocOp(size) => AllocKeeps(s, size);
    case FreeOp(r) => FreeKeeps(s, r);
    case ReallocOp(r, size) =>
      if size == 0 {
        FreeKeeps(s, r);
      } else {
        ReallocKeeps(s, r, size);
      }
  }

  /** Every operation of the run is allowed when its turn comes. */
  ghost predicate CanRun(s: State, ops: seq<Op>)
    decreases |ops|
  {
    ops != [] && Inv(s) ==> Allowed(s, ops[0]) && CanRun(Step(s, ops[0]), ops[1..])
  }

  function Play(s: State, ops: seq<Op>): State
    requires Inv(s) && CanRun(s, ops)
    decreases |ops|
  {
    if ops == [] then s
    else
      StepKeeps(s, ops[0]);
      Play(Step(s, ops[0]), ops[1..])
  }

  lemma {:induction false} RunKeeps(s: State, ops: seq<Op>)
    requires Inv(s) && CanRun(s, ops)
    ensures Inv(Play(s, ops))
    decreases |ops|
  {
    if ops != [] {
      StepKeeps(s, ops[0]);
      RunKeeps(Step(s, ops[0]), ops[1..]);
    }
  }

  // ---------------------------------------------------------------------------------------------
  // The start

  /** `rt_slab_init`: the zone size for a heap of `limit` bytes, starting from size `z`. */
  function ZoneSize(limit: nat, z: nat): (r: nat)
    requires z > 0
    decreases 131072 - z
  {
    if z < 131072 && 2 * z < limit / 1024 then ZoneSize(limit, 2 * z) else z
  }

  lemma ZoneSizeOk(limit: nat)
    ensures ZoneSize(limit, 32768) in {32768, 65536, 131072}
    ensures ZonePages(ZoneSize(limit, 32768) / PAGE)
  {
    assert ZoneSize(limit, 131072) == 131072;
    assert ZoneSize(limit, 65536) in {65536, 131072};
  }

  /** Pages of the usage table: four bytes for each page. */
  function TablePages(npages: nat): nat {
    RoundUp(4 * npages, PAGE) / PAGE
  }

  function Init(npages: nat, usage: seq<Usage>): State
    requires npages > 0
  {
    var m := TablePages(npages);
    State(npages, ZoneSize(npages * PAGE, 32768) / PAGE, TakePages([Run(0, npages)], m).0, usage, map[],
          seq(NZONES, _ => []), [], 0, 0, map[0 := m], {})
  }

  /** The state after `rt_slab_init` is good whatever the table holds, which is not cleared. */
  lemma InitGood(npages: nat, usage: seq<Usage>)
    requires npages > 0 && |usage| == npages
    ensures Inv(Init(npages, usage))
    ensures TakePages([Run(0, npages)], TablePages(npages)).1 == Some(0)
    ensures !exists r :: Live(Init(npages, usage), r)
  {
    var s, m := Init(npages, usage), TablePages(npages);
    ZoneSizeOk(npages * PAGE);
    assert [Run(0, npages)][1..] == [];
    assert 0 < m <= npages;
    var none: map<nat, nat> := map[];
    forall p | 0 <= p < npages ensures Covers([Run(0, npages)], p) <==> !Held(none, p) {
    }
    HandOut([Run(0, npages)], none, npages, m);
    TotalNone(s, npages);
  }

  /** The first free pages lie behind the usage table. */
  lemma InitPages(npages: nat, usage: seq<Usage>, m: nat)
    requires npages > m == TablePages(npages) && |usage| == npages
    ensures Inv(Init(npages, usage)) && Init(npages, usage).pages == [Run(m, npages - m)]
  {
    InitGood(npages, usage);
  }

  lemma OddMisaligned(t: State, r: Ref, size: nat, heap: nat, page: nat)
    requires size == 8192 && Named(t, r) && AlignedIff(t, r, size, heap, page)
    requires Rest(heap / PAGE + page, size / PAGE) == 1
    ensures Rest(heap + Address(t, r), size) != 0
  {
  }

  lemma AllocAlignedAt(s: State, size: nat, heap: nat, t: State, r: Ref, page: nat)
    requires Inv(s) && PowerOfTwo(size) && heap % PAGE == 0
    requires AllocBlock(s, size) == (t, Some(r)) && NextPage(s, size) == Some(page)
    ensures Named(t, r) && AlignedIff(t, r, size, heap, page)
  {
    AllocAlignedIff(s, size, heap);
  }

  /** Two pages that are cut from an odd one are not aligned to their size. */
  lemma OddPageMisaligned(s: State, size: nat, heap: nat, t: State, r: Ref, page: nat)
    requires Inv(s) && size == 8192 && heap % 8192 == 0
    requires AllocBlock(s, size) == (t, Some(r)) && NextPage(s, size) == Some(page) && page % 2 == 1
    ensures PowerOfTwo(size) && Named(t, r) && Rest(heap + Address(t, r), size) != 0
  {
    PagePower();
    AllocAlignedAt(s, size, heap, t, r, page);
    OddSum(heap, page);
    OddMisaligned(t, r, size, heap, page);
  }

  lemma OddSum(heap: nat, page: nat)
    requires heap % 8192 == 0 && page % 2 == 1
    ensures Rest(heap / PAGE + page, 8192 / PAGE) == 1
  {
  }

  /** In a heap of up to 1024 pages the first request of 8192 bytes gets the odd page behind the usage table. */
  lemma LargeMisaligned(npages: nat, s: State, size: nat, heap: nat)
    requires 4 <= npages <= 1024 && |s.usage| == npages && s == Init(npages, s.usage)
    requires size == 8192 && heap % 8192 == 0
    ensures Inv(s) && AllocBlock(s, size).1 == Some(LargeRef(1)) && Named(AllocBlock(s, size).0, LargeRef(1))
    ensures Rest(heap + Address(AllocBlock(s, size).0, LargeRef(1)), size) != 0
  {
    InitPages(npages, s.usage, 1);
    assert s.zp == 8 && Limit(8) == 8192;
    assert AllocBlock(s, size) == TakeLarge(s, 2);
    OddPageMisaligned(s, size, heap, AllocBlock(s, size).0, LargeRef(1), 1);
  }

  /** In a heap of 16385 pages the usage table ends at an odd page, and the first zone of 8192-byte chunks starts there. */
  lemma ChunkMisaligned(s: State, size: nat, heap: nat)
    requires |s.usage| == 16385 && s == Init(16385, s.usage) && size == 8192 && heap % 8192 == 0
    ensures Inv(s) && AllocBlock(s, size).1 == Some(ChunkRef(17, 0)) && Named(AllocBlock(s, size).0, ChunkRef(17, 0))
    ensures Rest(heap + Address(AllocBlock(s, size).0, ChunkRef(17, 0)), size) != 0
  {
    LargerHeap(s);
    FirstZoneAt17(s, size);
    OddPageMisaligned(s, size, heap, AllocBlock(s, size).0, ChunkRef(17, 0), 17);
  }

  lemma LargerHeap(s: State)
    requires |s.usage| == 16385 && s == Init(16385, s.usage)
    ensures Inv(s) && s.zp == 16 && s.lists[63] == [] && s.free == [] && TakePages(s.pages, 16).1 == Some(17)
  {
    InitPages(16385, s.usage, 17);
    MediumZones();
    FirstFits(17, 16368, 16);
  }

  lemma FirstZoneAt17(s: State, size: nat)
    requires Core(s) && s.zp == 16 && s.lists[63] == [] && s.free == [] && TakePages(s.pages, 16).1 == Some(17)
    requires size == 8192
    ensures AllocBlock(s, size).1 == Some(ChunkRef(17, 0)) && NextPage(s, size) == Some(17)
  {
    IndexOf8192(size);
    AllocFresh(s, size, 17);
  }

  lemma MediumZones()
    ensures ZoneSize(16385 * PAGE, 32768) == 65536
  {
    assert ZoneSize(16385 * PAGE, 65536) == 65536;
  }

  lemma IndexOf8192(size: nat)
    requires size == 8192
    ensures ZoneIndex(size) == (size, 63)
  {
  }

  lemma FirstFits(start: nat, count: nat, n: nat)
    requires count > n > 0
    ensures TakePages([Run(start, count)], n).1 == Some(start)
  {
  }

  /** Without zones of the size, the first chunk of a new zone is handed out. */
  lemma AllocFresh(s: State, size: nat, b: nat)
    requires Core(s) && 0 < size < Limit(s.zp) && 0 <= ZoneIndex(size).1 < NZONES
    requires s.lists[ZoneIndex(size).1] == [] && s.free == [] && TakePages(s.pages, s.zp).1 == Some(b)
    ensures AllocBlock(s, size).1 == Some(ChunkRef(b, 0)) && NextPage(s, size) == Some(b)
  {
    SmallRequest(s.zp, size);
    var i, c := ZoneIndex(size).1, ZoneIndex(size).0;
    var u := AddZone(s, b, TakePages(s.pages, s.zp).0);
    assert AllocBlock(s, size) == OpenZone(u, i, c);
  }

  lemma {:induction false} TotalNone(s: State, n: nat)
    requires s.zones == map[] && s.larges == {}
    ensures Total(s, n) == 0
  {
    if n > 0 {
      TotalNone(s, n - 1);
    }
  }

  // ---------------------------------------------------------------------------------------------
  // The allocator itself

  class SlabHeap {
    const npages: nat
    const zonePageCount: nat
    const pages: PageList
    const memusage: array<Usage>
    var zones: map<nat, Zone>
    var zoneArray: seq<seq<nat>>
    var zoneFree: seq<nat>
    var zoneFreeCount: nat
    var used: int
    var max: int
    const bytes: array<int>      // what the clients have stored; the source keeps its own links in what is free of it
    ghost var blocks: map<nat, nat>
    ghost var larges: set<nat>

    ghost function Now(): State
      reads this, pages, memusage
    {
      State(npages, zonePageCount, pages.list, memusage[..], zones, zoneArray, zoneFree, used, max, blocks, larges)
    }

    ghost predicate Valid()
      reads this, pages, memusage
    {
      var good := zoneFreeCount == |zoneFree| && bytes.Length == npages * PAGE && Inv(Now());
      good
    }

    /** `rt_slab_init`, on a heap of at least one page */
    constructor (npages: nat)
      requires npages > 0
      ensures Valid() && Now() == Init(npages, memusage[..])
      ensures fresh(pages) && fresh(memusage) && fresh(bytes)
    {
      var size: nat := 32768;
      while size < 131072 && 2 * size < npages * PAGE / 1024
        invariant 32768 <= size <= 131072
        invariant ZoneSize(npages * PAGE, size) == ZoneSize(npages * PAGE, 32768)
        decreases 131072 - size
      {
        size := 2 * size;
      }
      var list := new PageList(npages);
      var table := list.Alloc(TablePages(npages));
      this.npages := npages;
      zonePageCount := size / PAGE;
      pages := list;
      memusage := new Usage[npages];
      bytes := new int[npages * PAGE];
      zones, zoneArray, zoneFree, zoneFreeCount := map[], seq(NZONES, _ => []), [], 0;
      used, max := 0, 0;
      blocks, larges := map[0 := TablePages(npages)], {};
      new;
      InitGood(npages, memusage[..]);
    }

    method ChargeBytes(n: int)
      modifies this`used, this`max
      ensures used == old(used) + n && max == Max(old(max), used)
    {
      used := used + n;
      if used > max {
        max := used;
      }
    }

    /** The large branch of `rt_slab_alloc` */
    method AllocLarge(size: nat) returns (p: Option<nat>)
      requires Valid() && size >= Limit(zonePageCount)
      modifies pages, memusage, this`used, this`max, this`blocks, this`larges
      ensures Now() == AllocBlock(old(Now()), size).0
      ensures var r := AllocBlock(old(Now()), size).1;
              if r.None? then p == None else Named(Now(), r.value) && p == Some(Address(Now(), r.value))
    {
      ghost var s := Now();
      RoundUpBounds(size, PAGE);
      var n := RoundUp(size, PAGE) / PAGE;
      TakeKeeps(s.pages, n, 0, npages);
      var b := pages.Alloc(n);
      if b.None? {
        assert Now() == s;
        return None;
      }
      HandOut(s.pages, s.blocks, s.npages, n);
      memusage[b.value] := LargePage(n);
      ChargeBytes(n * PAGE);
      blocks, larges := blocks[b.value := n], larges + {b.value};
      p := Some(b.value * PAGE);
      assert memusage[..] == s.usage[b.value := LargePage(n)];
      assert Now() == TakeLarge(s, n).0;
    }

    /** Allocation from the first zone on list `i` */
    method AllocFromZone(i: nat) returns (p: nat)
      requires i < |zoneArray| && zoneArray[i] != [] && zoneArray[i][0] in zones && HasChunk(zones[zoneArray[i][0]])
      modifies this`zones, this`zoneArray, this`used, this`max
      ensures var (t, r) := UseZone(old(Now()), i);
              zones == t.zones && zoneArray == t.lists && used == t.used && max == t.max && p == Address(t, r.value)
    {
      var z := zoneArray[i][0];
      var zone := zones[z];
      ghost var taken := TakeChunk(zone);
      zone := zone.(nfree := zone.nfree - 1);
      if zone.nfree == 0 {
        zoneArray := zoneArray[i := zoneArray[i][1..]];
      }
      var slot: nat;
      if zone.uindex + 1 != zone.nmax {
        zone := zone.(uindex := zone.uindex + 1);
        slot := zone.uindex;
      } else {
        slot := zone.chain[0];
        zone := zone.(chain := zone.chain[1..]);
      }
      assert taken == (zone, slot);
      zones := zones[z := zone];
      ChargeBytes(zone.chunk);
      p := SlotAddress(z, zone, slot);
    }

    method MarkPages(z: nat)
      requires z + zonePageCount <= memusage.Length
      modifies memusage
      ensures memusage[..] == Mark(old(memusage[..]), z, zonePageCount)
    {
      var off := 0;
      while off < zonePageCount
        invariant off <= zonePageCount
        invariant forall q :: 0 <= q < memusage.Length ==>
          memusage[q] == if z <= q < z + off then SmallPage(q - z) else old(memusage[q])
      {
        memusage[z + off] := SmallPage(off);
        off := off + 1;
      }
    }

    method UnmarkPages(z: nat)
      requires z + zonePageCount <= memusage.Length
      modifies memusage
      ensures memusage[..] == Unmark(old(memusage[..]), z, zonePageCount)
    {
      var i := 0;
      while i < zonePageCount
        invariant i <= zonePageCount
        invariant forall q :: 0 <= q < memusage.Length ==>
          memusage[q] == if z <= q < z + i then FreePage else old(memusage[q])
      {
        memusage[z + i] := FreePage;
        i := i + 1;
      }
    }

    /** The new zone of `rt_slab_alloc`: a free one, or pages */
    method ObtainZone() returns (z: Option<nat>)
      requires Valid()
      modifies pages, memusage, this`zoneFree, this`zoneFreeCount, this`blocks
      ensures zoneFreeCount == |zoneFree|
      ensures z.None? <==> old(zoneFree) == [] && TakePages(old(pages.list), zonePageCount).1.None?
      ensures z.None? ==> Now() == old(Now())
      ensures z.Some? ==> Now() == Unlisted(Ready(old(Now()))) && z.value == Ready(old(Now())).free[0]
    {
      ghost var s := Now();
      if zoneFree != [] {
        z := Some(zoneFree[0]);
        zoneFree, zoneFreeCount := zoneFree[1..], zoneFreeCount - 1;
        assert Now() == Unlisted(s);
        return;
      }
      TakeKeeps(s.pages, s.zp, 0, npages);
      z := pages.Alloc(zonePageCount);
      if z.None? {
        assert Now() == s;
        return;
      }
      HandOut(s.pages, s.blocks, s.npages, s.zp);
      MarkPages(z.value);
      blocks := blocks[z.value := zonePageCount];
      assert ([z.value] + s.free)[1..] == s.free;
    }

    /** The header of zone `z` is written, its first chunk taken, and the zone linked to list `i`. */
    method OpenAt(z: nat, i: nat, chunk: nat) returns (p: nat)
      requires i < |zoneArray| && chunk > 0 && zonePageCount * PAGE >= BaseOffset(chunk) + chunk
      modifies this`zones, this`zoneArray, this`used, this`max
      ensures zones == old(zones)[z := FreshZone(zonePageCount, i, chunk)]
      ensures zoneArray == old(zoneArray)[i := [z] + old(zoneArray)[i]]
      ensures used == old(used) + chunk && max == Max(old(max), used)
      ensures p == SlotAddress(z, FreshZone(zonePageCount, i, chunk), 0)
    {
      var off := BaseOffset(chunk);
      DivAtLeast(zonePageCount * PAGE - off, chunk, 1);
      var nmax := (zonePageCount * PAGE - off) / chunk;
      var zone := Zone(i, chunk, off, nmax, nmax - 1, 0, []);
      zones := zones[z := zone];
      zoneArray := zoneArray[i := [z] + zoneArray[i]];
      ChargeBytes(chunk);
      p := SlotAddress(z, zone, 0);
    }

    /** `rt_slab_alloc` below the limit */
    method AllocSmall(size: nat) returns (p: Option<nat>)
      requires Valid() && 0 < size < Limit(zonePageCount)
      modifies this, pages, memusage
      ensures zoneFreeCount == |zoneFree| && Now() == AllocBlock(old(Now()), size).0
      ensures var r := AllocBlock(old(Now()), size).1;
              if r.None? then p == None else Named(Now(), r.value) && p == Some(Address(Now(), r.value))
    {
      ghost var s := Now();
      SmallRequest(zonePageCount, size);
      var (chunk, i) := ZoneIndex(size);
      if zoneArray[i] != [] {
        ListHead(s, i);
        var a := AllocFromZone(i);
        assert Now() == UseZone(s, i).0;
        return Some(a);
      }
      var z := ObtainZone();
      if z.None? {
        return None;
      }
      assert zoneArray == s.lists && zones == s.zones;
      var a := OpenAt(z.value, i, chunk);
      assert Now() == OpenZone(Ready(s), i, chunk).0;
      p := Some(a);
    }

    /** `rt_slab_alloc` */
    method Alloc(size: nat) returns (p: Option<nat>)
      requires Valid()
      modifies this, pages, memusage
      ensures Valid() && Now() == AllocBlock(old(Now()), size).0
      ensures var r := AllocBlock(old(Now()), size).1;
              if r.None? then p == None else Named(Now(), r.value) && p == Some(Address(Now(), r.value))
    {
      AllocKeeps(Now(), size);
      if size == 0 {
        p := None;
      } else if size >= Limit(zonePageCount) {
        p := AllocLarge(size);
      } else {
        p := AllocSmall(size);
      }
    }

    /** The large branch of `rt_slab_free` */
    method FreePages(page: nat)
      requires Valid() && page in larges && page < memusage.Length
      requires page in blocks && memusage[page] == LargePage(blocks[page]) && blocks[page] > 0
      modifies pages, memusage, this`used, this`blocks, this`larges
      ensures zoneFreeCount == |zoneFree| && Now() == FreeLarge(old(Now()), page)
    {
      ghost var s := Now();
      var n := memusage[page].count;
      memusage[page] := LargePage(0);
      used := used - n * PAGE;
      pages.Free(page, n);
      blocks, larges := blocks - {page}, larges - {page};
      assert memusage[..] == s.usage[page := LargePage(0)];
    }

    /** Takes zone `z` off list `i`, which it is searched on. */
    method Unlink(z: nat, i: nat)
      requires i < |zoneArray| && z in zoneArray[i]
      modifies this`zoneArray
      ensures zoneArray == old(zoneArray)[i := Remove(old(zoneArray)[i], z)]
    {
      var list, k := zoneArray[i], 0;
      while list[k] != z
        invariant k <= IndexOf(list, z)
        decreases |list| - k
      {
        k := k + 1;
      }
      assert k == IndexOf(list, z);
      zoneArray := zoneArray[i := list[..k] + list[k + 1..]];
    }

    /** The chunk goes on the chain of its zone, and the zone back on its list when it was full. */
    method PutChunk(z: nat, slot: nat)
      requires z in zones && zones[z].index < |zoneArray|
      modifies this`zones, this`zoneArray, this`used
      ensures var t := PushChunk(old(Now()), z, slot); zones == t.zones && zoneArray == t.lists && used == t.used
    {
      var zone := zones[z];
      zone := zone.(chain := [slot] + zone.chain);
      used := used - zone.chunk;
      if zone.nfree == 0 {
        zoneArray := zoneArray[zone.index := [z] + zoneArray[zone.index]];
      }
      zones := zones[z := zone.(nfree := zone.nfree + 1)];
    }

    /** The first free zone goes back to the page allocator. */
    method ReleaseFirst()
      requires zoneFree != [] && zoneFreeCount == |zoneFree|
      requires zoneFree[0] + zonePageCount <= memusage.Length && zonePageCount > 0
      modifies pages, memusage, this`zoneFree, this`zoneFreeCount, this`blocks
      ensures Now() == ReleaseZone(old(Now())) && zoneFreeCount == |zoneFree|
    {
      var z := zoneFree[0];
      zoneFree, zoneFreeCount := zoneFree[1..], zoneFreeCount - 1;
      UnmarkPages(z);
      pages.Free(z, zonePageCount);
      blocks := blocks - {z};
    }

    /** A wholly free zone goes from its list to the free zones. */
    method RetireAt(z: nat)
      requires z in zones && zones[z].index < |zoneArray| && z in zoneArray[zones[z].index]
      modifies this`zones, this`zoneArray, this`zoneFree, this`zoneFreeCount
      ensures Now() == RetireZone(old(Now()), z) && zoneFreeCount == old(zoneFreeCount) + 1
    {
      Unlink(z, zones[z].index);
      zones := zones - {z};
      zoneFree, zoneFreeCount := [z] + zoneFree, zoneFreeCount + 1;
    }

    /** The zone branch of `rt_slab_free` */
    method ReturnChunk(z: nat, slot: nat)
      requires Valid() && Live(Now(), ChunkRef(z, slot)) && z in zones && zones[z].index < |zoneArray|
      modifies this, pages, memusage
      ensures zoneFreeCount == |zoneFree| && Now() == FreeChunk(old(Now()), z, slot)
    {
      ghost var s := Now();
      PushChunkKeeps(s, z, slot);
      PutChunk(z, slot);
      assert Now() == PushChunk(s, z, slot);
      var zone := zones[z];
      if zone.nfree == zone.nmax && zoneArray[zone.index] != [z] {
        OnItsList(Now(), z);
        RetireAt(z);
        if zoneFreeCount > 2 {
          ReleaseFirst();
        }
      }
    }

    /** The page, or the zone and chunk, that the address `p` belongs to */
    method LookUp(p: nat, ghost r: Ref) returns (large: bool, start: nat, slot: nat)
      requires Valid() && Live(Now(), r) && Named(Now(), r) && p == Address(Now(), r)
      ensures r == if large then LargeRef(start) else ChunkRef(start, slot)
      ensures large ==> start in blocks && start < memusage.Length
      ensures large ==> blocks[start] > 0 && memusage[start] == LargePage(blocks[start])
      ensures !large ==> start in zones && zones[start].index < |zoneArray|
    {
      FindLive(Now(), r);
      var page := p / PAGE;
      if memusage[page].LargePage? {
        return true, page, 0;
      }
      var z := page - memusage[page].offset;
      assert z in zones && r.ChunkRef? && r.zone == z;
      ZoneIndexed(Now(), z);
      return false, z, (p - z * PAGE - zones[z].off) / zones[z].chunk;
    }

    /** `rt_slab_free` of the allocation at `p`, or of null */
    method Free(p: Option<nat>, ghost r: Ref)
      requires Valid()
      requires p.Some? ==> Live(Now(), r) && Named(Now(), r) && p.value == Address(Now(), r)
      modifies this, pages, memusage
      ensures Valid() && Now() == if p.Some? then FreeBlock(old(Now()), r) else old(Now())
    {
      if p.None? {
        return;
      }
      ghost var s := Now();
      FreeKeeps(s, r);
      var large, start, slot := LookUp(p.value, r);
      if large {
        FreePages(start);
        assert Now() == FreeBlock(s, r);
      } else {
        ReturnChunk(start, slot);
        assert Now() == FreeBlock(s, r);
      }
    }

    /** Copies the first `m` bytes of `r` to the new block `q`. */
    method CopyOver(p: nat, to: nat, m: nat, ghost r: Ref, ghost q: Ref)
      requires Valid() && Live(Now(), r) && Live(Now(), q) && r != q && Named(Now(), r) && Named(Now(), q)
      requires p == Address(Now(), r) && to == Address(Now(), q) && m <= Size(Now(), r) && m <= Size(Now(), q)
      modifies bytes
      ensures SameBytes(old(bytes[..]), bytes[..], p, to, m) && OthersHold(Now(), old(bytes[..]), bytes[..], q)
    {
      ghost var c := bytes[..];
      LiveInPool(Now(), r);
      LiveInPool(Now(), q);
      LiveApart(Now(), r, q);
      CopyBytes(bytes, to, p, m);
      CopyHolds(Now(), c, bytes[..], q, to, m);
    }

    /** A new block of `n` bytes for the allocation at `p` of `room` bytes, which is copied and freed if there is one. */
    method Move(p: nat, n: nat, room: nat, ghost r: Ref) returns (q: Option<nat>, copied: nat)
      requires Valid() && Live(Now(), r) && Named(Now(), r) && p == Address(Now(), r) && room == Size(Now(), r) && n > 0
      modifies this, pages, memusage, bytes
      ensures var a := AllocBlock(old(Now()), n);
              if a.1.None? then q == None && copied == 0 && Now() == old(Now()) && bytes[..] == old(bytes[..])
              else
                && Live(a.0, r) && Inv(a.0) && Now() == FreeBlock(a.0, r)
                && Named(Now(), a.1.value) && q == Some(Address(Now(), a.1.value))
                && copied == Min(n, room) && SameBytes(old(bytes[..]), bytes[..], p, q.value, copied)
      ensures OthersHold(old(Now()), old(bytes[..]), bytes[..], r)
      ensures Valid()
    {
      ghost var s, c := Now(), bytes[..];
      AllocKeeps(s, n);
      q := Alloc(n);
      copied := 0;
      if q.None? {
        return;
      }
      ghost var u, a := Now(), AllocBlock(s, n).1.value;
      AllocSize(s, n);
      StaysMeans(s, u, r);
      copied := Min(n, room);
      CopyOver(p, q.value, copied, r, a);
      HoldsBefore(s, u, c, bytes[..], r, a);
      FreeKeeps(u, r);
      Free(Some(p), r);
      StaysMeans(Now(), u, a);
    }

    /** `rt_slab_realloc`; `copied` is the number of bytes that it copies. */
    method Realloc(p: Option<nat>, size: nat, ghost r: Ref) returns (q: Option<nat>, copied: nat)
      requires Valid()
      requires p.Some? ==> Live(Now(), r) && Named(Now(), r) && p.value == Address(Now(), r)
      modifies this, pages, memusage, bytes
      ensures Valid()
      ensures Now() == if p.None? then AllocBlock(old(Now()), size).0 else ReallocBlock(old(Now()), r, size).0
      ensures var a := if p.None? then AllocBlock(old(Now()), size).1 else ReallocBlock(old(Now()), r, size).1;
              if a.None? then q == None else Named(Now(), a.value) && q == Some(Address(Now(), a.value))
      ensures copied == if p.None? || ReallocBlock(old(Now()), r, size).1 in {None, Some(r)} then 0
                        else Min(Wanted(r, size), old(Size(Now(), r)))
      ensures copied > 0 ==> q.Some? && SameBytes(old(bytes[..]), bytes[..], p.value, q.value, copied)
      ensures if copied > 0 then OthersHold(old(Now()), old(bytes[..]), bytes[..], r) else bytes[..] == old(bytes[..])
    {
      copied := 0;
      if p.None? {
        q := Alloc(size);
        return;
      }
      if size == 0 {
        Free(p, r);
        q := None;
        return;
      }
      ghost var s := Now();
      AllocKeeps(s, Wanted(r, size));
      var large, start, _ := LookUp(p.value, r);
      if large {
        q, copied := Move(p.value, size, memusage[start].count * PAGE, r);
      } else {
        var room := zones[start].chunk;
        var n := ZoneIndex(size).0;
        if room == n {
          return p, 0;
        }
        WantedFits(r, size);
        q, copied := Move(p.value, n, room, r);
      }
    }
  }

  /** What is held lies within the managed pages. */
  lemma LiveInPool(s: State, r: Ref)
    requires Core(s) && Live(s, r) && Named(s, r)
    ensures Address(s, r) + Size(s, r) <= s.npages * PAGE
  {
    LiveNamed(s, r);
    LiveInside(s, r);
    var b: nat := FirstPage(r);
    assert b + s.blocks[b] <= s.npages;
  }

  /** What every allocation but `r` holds is the same in both memories. */
  ghost predicate OthersHold(s: State, c: seq<int>, c': seq<int>, r: Ref) {
    |c| == |c'| && forall t: Ref, x: nat :: Live(s, t) && t != r && Covered(s, t, x) && x < |c| ==> c'[x] == c[x]
  }

  /** `x` is an address of the allocation `t`. */
  ghost predicate Covered(s: State, t: Ref, x: nat) {
    Named(s, t) && Address(s, t) <= x < Address(s, t) + Size(s, t)
  }

  lemma CopyHolds(s: State, c: seq<int>, c': seq<int>, q: Ref, to: nat, m: nat)
    requires Core(s) && Live(s, q) && Named(s, q) && to == Address(s, q) && m <= Size(s, q) && |c| == |c'|
    requires forall x: nat :: x < |c| && !(to <= x < to + m) ==> c'[x] == c[x]
    ensures OthersHold(s, c, c', q)
  {
    forall t: Ref, x: nat | Live(s, t) && t != q && Covered(s, t, x) && x < |c| ensures c'[x] == c[x] {
      LiveApart(s, t, q);
    }
  }

  /** What was held before block `a` was added is held by the same addresses after it. */
  lemma HoldsBefore(s: State, u: State, c: seq<int>, c': seq<int>, r: Ref, a: Ref)
    requires Gains(s, u, a) && OthersHold(u, c, c', a)
    ensures OthersHold(s, c, c', r)
  {
    forall t: Ref, x: nat | Live(s, t) && t != r && Covered(s, t, x) && x < |c| ensures c'[x] == c[x] {
      StaysMeans(s, u, t);
      assert Covered(u, t, x);
    }
  }

  lemma ZoneIndexed(s: State, z: nat)
    requires Core(s) && z in s.zones
    ensures s.zones[z].index < |s.lists|
  {
    assert ZoneOk(s.zp, s.zones[z]);
  }

  /** A zone with a free chunk is on its list, and its pages are in the usage table. */
  lemma OnItsList(s: State, z: nat)
    requires Core(s) && z in s.zones && s.zones[z].nfree == s.zones[z].nmax
    ensures s.zones[z].index < |s.lists| && z in s.lists[s.zones[z].index]
    ensures z + s.zp <= |s.usage|
  {
    assert ZoneOk(s.zp, s.zones[z]) && ZoneHeld(s.usage, s.blocks, z, s.zp);
  }

  /** The state with a free zone at hand. */
  function Ready(s: State): (t: State)
    requires s.free != [] || TakePages(s.pages, s.zp).1.Some?
    ensures t.free != []
  {
    if s.free != [] then s
    else
      var r := TakePages(s.pages, s.zp);
      AddZone(s, r.1.value, r.0)
  }

  function Unlisted(s: State): State
    requires s.free != []
  {
    s.(free := s.free[1..])
  }
}
