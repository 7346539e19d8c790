/**
  The page allocator under the slab (`rt-thread/src/slab.c`): runs of free pages in address order.

  Pages are numbered from the start of the heap; the list links, which the source keeps in the first page of each run,
  are represented by the order of the runs.
 */
module SlabPages {
  import opened Common

  /** `count` free pages from page `start` on. */
  datatype Run = Run(start: nat, count: nat)

  /** Sorted, disjoint and never adjacent, from page `lo` on and below page `hi`. */
  ghost predicate Runs(rs: seq<Run>, lo: nat, hi: nat) {
    rs == [] ||
    (lo <= rs[0].start && rs[0].count > 0 && rs[0].start + rs[0].count <= hi &&
     Runs(rs[1..], rs[0].start + rs[0].count + 1, hi))
  }

  predicate Covers(rs: seq<Run>, p: nat) {
    rs != [] && (rs[0].start <= p < rs[0].start + rs[0].count || Covers(rs[1..], p))
  }

  /** `rt_slab_page_alloc` for `n > 0`: the first run that is large enough, from its front. */
  function TakePages(rs: seq<Run>, n: nat): (r: (seq<Run>, Option<nat>)) {
    if rs == [] then ([], None)
    else if rs[0].count > n then ([Run(rs[0].start + n, rs[0].count - n)] + rs[1..], Some(rs[0].start))
    else if rs[0].count == n then (rs[1..], Some(rs[0].start))
    else var r := TakePages(rs[1..], n); ([rs[0]] + r.0, r.1)
  }

  /** `rt_slab_page_free` */
  function GivePages(rs: seq<Run>, s: nat, n: nat): seq<Run> {
    if rs == [] then [Run(s, n)]
    else
      var b, end := rs[0], rs[0].start + rs[0].count;
      if end == s then
        if |rs| > 1 && s + n == rs[1].start then [Run(b.start, b.count + n + rs[1].count)] + rs[2..]
        else [Run(b.start, b.count + n)] + rs[1..]
      else if b.start == s + n then [Run(s, n + b.count)] + rs[1..]
      else if b.start > s + n then [Run(s, n)] + rs
      else [b] + GivePages(rs[1..], s, n)
  }

  lemma {:induction false} RunsLower(rs: seq<Run>, lo: nat, lo': nat, hi: nat)
    requires Runs(rs, lo, hi) && lo' <= lo
    ensures Runs(rs, lo', hi)
  {
  }

  lemma {:induction false} CoversFrom(rs: seq<Run>, lo: nat, hi: nat, p: nat)
    requires Runs(rs, lo, hi) && Covers(rs, p)
    ensures lo <= p < hi
  {
    if !(rs[0].start <= p < rs[0].start + rs[0].count) {
      CoversFrom(rs[1..], rs[0].start + rs[0].count + 1, hi, p);
    }
  }

  /** Taking pages keeps the list in order; the pages were free and exactly they are gone. */
  lemma {:induction false} TakeKeeps(rs: seq<Run>, n: nat, lo: nat, hi: nat)
    requires Runs(rs, lo, hi) && n > 0
    ensures var r := TakePages(rs, n);
            && Runs(r.0, lo, hi)
            && (r.1.None? ==> r.0 == rs)
            && (r.1.Some? ==> lo <= r.1.value && r.1.value + n <= hi)
  {
    if rs != [] && rs[0].count < n {
      var r := TakePages(rs[1..], n);
      TakeKeeps(rs[1..], n, rs[0].start + rs[0].count + 1, hi);
      assert ([rs[0]] + r.0)[1..] == r.0;
      if r.1.None? {
        assert rs == [rs[0]] + rs[1..];
      }
    } else if rs != [] && rs[0].count > n {
      assert ([Run(rs[0].start + n, rs[0].count - n)] + rs[1..])[1..] == rs[1..];
    } else if rs != [] {
      RunsLower(rs[1..], rs[0].start + rs[0].count + 1, lo, hi);
    }
  }

  lemma {:induction false} TakeCovers(rs: seq<Run>, n: nat, lo: nat, hi: nat, p: nat)
    requires Runs(rs, lo, hi) && n > 0 && TakePages(rs, n).1.Some?
    ensures var r := TakePages(rs, n);
            Covers(rs, p) <==> Covers(r.0, p) || r.1.value <= p < r.1.value + n
    ensures var r := TakePages(rs, n); Covers(r.0, p) ==> !(r.1.value <= p < r.1.value + n)
  {
    var r := TakePages(rs, n);
    if rs[0].count < n {
      var t := TakePages(rs[1..], n);
      assert ([rs[0]] + t.0)[1..] == t.0;
      TakeCovers(rs[1..], n, rs[0].start + rs[0].count + 1, hi, p);
      TakeKeeps(rs[1..], n, rs[0].start + rs[0].count + 1, hi);
    } else {
      if rs[0].count > n {
        assert ([Run(rs[0].start + n, rs[0].count - n)] + rs[1..])[1..] == rs[1..];
      }
      if Covers(rs[1..], p) {
        CoversFrom(rs[1..], rs[0].start + rs[0].count + 1, hi, p);
      }
    }
  }

  /** First fit: nothing is returned only when no run is large enough. */
  lemma {:induction false} TakeFails(rs: seq<Run>, n: nat)
    ensures TakePages(rs, n).1.None? <==> forall i :: 0 <= i < |rs| ==> rs[i].count < n
  {
    if rs != [] {
      TakeFails(rs[1..], n);
      forall i | 0 < i < |rs| ensures rs[i] == rs[1..][i - 1] {
      }
      if rs[0].count < n && TakePages(rs[1..], n).1.Some? {
        var i :| 0 <= i < |rs[1..]| && rs[1..][i].count >= n;
        assert rs[i + 1].count >= n;
      }
    }
  }

  /** The pages come from the front of the first run that is long enough. */
  lemma {:induction false} TakeFirst(rs: seq<Run>, n: nat) returns (i: nat)
    requires TakePages(rs, n).1.Some?
    ensures i < |rs| && TakePages(rs, n).1.value == rs[i].start && rs[i].count >= n
    ensures forall j :: 0 <= j < i ==> rs[j].count < n
  {
    i := 0;
    if rs[0].count < n {
      var k := TakeFirst(rs[1..], n);
      i := k + 1;
      forall j | 0 < j < i ensures rs[j].count < n {
        assert rs[1..][j - 1].count < n;
      }
    }
  }

  /** None of the pages is free yet. */
  ghost predicate Outside(rs: seq<Run>, s: nat, n: nat) {
    forall p :: s <= p < s + n ==> !Covers(rs, p)
  }

  lemma OutsideHead(rs: seq<Run>, lo: nat, hi: nat, s: nat, n: nat)
    requires Runs(rs, lo, hi) && rs != [] && Outside(rs, s, n) && n > 0
    ensures s + n <= rs[0].start || rs[0].start + rs[0].count <= s
    ensures Outside(rs[1..], s, n)
  {
    if s < rs[0].start + rs[0].count && rs[0].start < s + n {
      var p := Max(s, rs[0].start);
      assert Covers(rs, p);
    }
    forall p | s <= p < s + n ensures !Covers(rs[1..], p) {
      assert !Covers(rs, p);
    }
  }

  /** Freeing keeps the list sorted and coalesced. */
  lemma {:induction false} GiveKeeps(rs: seq<Run>, s: nat, n: nat, lo: nat, hi: nat)
    requires Runs(rs, lo, hi) && n > 0 && lo <= s && s + n <= hi && Outside(rs, s, n)
    ensures Runs(GivePages(rs, s, n), lo, hi)
  {
    if rs != [] {
      OutsideHead(rs, lo, hi, s, n);
      var b, end := rs[0], rs[0].start + rs[0].count;
      var r := GivePages(rs, s, n);
      assert rs[1..] != [] ==> rs[1..][0] == rs[1] && rs[1..][1..] == rs[2..];
      if end == s {
        if |rs| > 1 {
          OutsideHead(rs[1..], end + 1, hi, s, n);
        }
        if |rs| > 1 && s + n == rs[1].start {
          assert r[1..] == rs[2..];
        } else {
          assert r[1..] == rs[1..];
        }
      } else if b.start == s + n {
        assert r[1..] == rs[1..];
      } else if b.start > s + n {
        assert r[1..] == rs;
      } else {
        GiveKeeps(rs[1..], s, n, end + 1, hi);
        assert r[1..] == GivePages(rs[1..], s, n);
      }
    } else {
      assert [Run(s, n)][1..] == [];
    }
  }

  lemma {:induction false} GiveCovers(rs: seq<Run>, s: nat, n: nat, lo: nat, hi: nat, p: nat)
    requires Runs(rs, lo, hi) && n > 0 && lo <= s && s + n <= hi && Outside(rs, s, n)
    ensures Covers(GivePages(rs, s, n), p) <==> Covers(rs, p) || s <= p < s + n
  {
    if rs != [] {
      OutsideHead(rs, lo, hi, s, n);
      var b, end := rs[0], rs[0].start + rs[0].count;
      var r := GivePages(rs, s, n);
      if end == s {
        if |rs| > 1 && s + n == rs[1].start {
          assert r[1..] == rs[2..] == rs[1..][1..];
        } else {
          assert r[1..] == rs[1..];
        }
      } else if b.start == s + n {
        assert r[1..] == rs[1..];
      } else if b.start > s + n {
        assert r[1..] == rs;
      } else {
        GiveCovers(rs[1..], s, n, end + 1, hi, p);
        assert r[1..] == GivePages(rs[1..], s, n);
      }
    } else {
      assert [Run(s, n)][1..] == [];
    }
  }

  /** Giving back what was just taken restores the list. */
  lemma {:induction false} TakeThenGive(rs: seq<Run>, n: nat, lo: nat, hi: nat)
    requires Runs(rs, lo, hi) && n > 0 && TakePages(rs, n).1.Some?
    ensures GivePages(TakePages(rs, n).0, TakePages(rs, n).1.value, n) == rs
  {
    var r := TakePages(rs, n);
    assert rs == [rs[0]] + rs[1..];
    if rs[0].count < n {
      var t := TakePages(rs[1..], n);
      TakeThenGive(rs[1..], n, rs[0].start + rs[0].count + 1, hi);
      TakeKeeps(rs[1..], n, rs[0].start + rs[0].count + 1, hi);
      assert r.0[0] == rs[0] && r.0[1..] == t.0;
    } else if rs[0].count > n {
      assert r.0[1..] == rs[1..];
    } else if |rs| > 1 {
      assert rs[1..][0] == rs[1];
    }
  }

  // ---------------------------------------------------------------------------------------------
  // The pages handed out

  /** Page `p` belongs to one of the blocks, given as first page and number of pages. */
  ghost predicate Held(blocks: map<nat, nat>, p: nat) {
    exists b :: b in blocks && b <= p < b + blocks[b]
  }

  ghost predicate Apart(blocks: map<nat, nat>) {
    forall b, c :: b in blocks && c in blocks && b < c ==> b + blocks[b] <= c
  }

  /** The blocks handed out are disjoint, and a page is either in one of them or free. */
  ghost predicate PagesOk(rs: seq<Run>, blocks: map<nat, nat>, npages: nat) {
    && Runs(rs, 0, npages)
    && (forall b :: b in blocks ==> blocks[b] > 0 && b + blocks[b] <= npages)
    && Apart(blocks)
    && (forall p :: 0 <= p < npages ==> (Covers(rs, p) <==> !Held(blocks, p)))
  }

  lemma HandOut(rs: seq<Run>, blocks: map<nat, nat>, npages: nat, n: nat)
    requires PagesOk(rs, blocks, npages) && n > 0 && TakePages(rs, n).1.Some?
    ensures var r := TakePages(rs, n);
            var b := r.1.value;
            && b !in blocks
            && b + n <= npages
            && (forall c :: c in blocks ==> c + blocks[c] <= b || b + n <= c)
            && PagesOk(r.0, blocks[b := n], npages)
  {
    var r := TakePages(rs, n);
    var b := r.1.value;
    TakeKeeps(rs, n, 0, npages);
    forall c | c in blocks ensures c + blocks[c] <= b || b + n <= c {
      if b < c + blocks[c] && c < b + n {
        var p := Max(b, c);
        assert Held(blocks, p);
        TakeCovers(rs, n, 0, npages, p);
      }
    }
    var next := blocks[b := n];
    forall p | 0 <= p < npages ensures Covers(r.0, p) <==> !Held(next, p) {
      TakeCovers(rs, n, 0, npages, p);
      if Held(blocks, p) {
        var c :| c in blocks && c <= p < c + blocks[c];
        assert c in next && next[c] == blocks[c];
      }
      if b <= p < b + n {
        assert b in next;
      }
    }
  }

  lemma HandBack(rs: seq<Run>, blocks: map<nat, nat>, npages: nat, b: nat)
    requires PagesOk(rs, blocks, npages) && b in blocks
    ensures PagesOk(GivePages(rs, b, blocks[b]), blocks - {b}, npages)
  {
    var n, next := blocks[b], blocks - {b};
    forall p | b <= p < b + n ensures !Covers(rs, p) {
      assert Held(blocks, p);
    }
    GiveKeeps(rs, b, n, 0, npages);
    var r := GivePages(rs, b, n);
    forall p | 0 <= p < npages ensures Covers(r, p) <==> !Held(next, p) {
      GiveCovers(rs, b, n, 0, npages, p);
      if Held(next, p) {
        var c :| c in next && c <= p < c + next[c];
        assert c in blocks && c != b && blocks[c] == next[c];
      } else if Held(blocks, p) {
        var c :| c in blocks && c <= p < c + blocks[c];
        assert c != b ==> c in next;
      }
    }
  }

  // ---------------------------------------------------------------------------------------------
  // The loops of the source

  class PageList {
    var list: seq<Run>

    constructor (npages: nat)
      requires npages > 0
      ensures list == GivePages([], 0, npages) && Runs(list, 0, npages)
    {
      list := [Run(0, npages)];
      assert [Run(0, npages)][1..] == [];
    }

    /** `rt_slab_page_alloc` */
    method Alloc(npages: nat) returns (start: Option<nat>)
      modifies this
      ensures npages == 0 ==> start.None? && list == old(list)
      ensures npages > 0 ==> (list, start) == TakePages(old(list), npages)
    {
      start := None;
      if npages == 0 {
        return;
      }
      var i := 0;
      assert list[..0] + TakePages(list[0..], npages).0 == TakePages(list, npages).0;
      while i < |list|
        invariant 0 <= i <= |list| && list == old(list)
        invariant TakePages(list, npages) == (list[..i] + TakePages(list[i..], npages).0, TakePages(list[i..], npages).1)
      {
        var b := list[i];
        var rest := list[i + 1..];
        assert list[i..][1..] == rest && list[..i + 1] == list[..i] + [b] && list[i..][0] == b;
        ghost var t := TakePages(rest, npages);
        assert list[..i] + ([b] + t.0) == list[..i + 1] + t.0;
        if b.count > npages {
          list := list[..i] + ([Run(b.start + npages, b.count - npages)] + list[i + 1..]);
          return Some(b.start);
        }
        if b.count == npages {
          list := list[..i] + list[i + 1..];
          return Some(b.start);
        }
        i := i + 1;
      }
      assert list[i..] == [] && list[..i] + [] == list;
    }

    /** The run at which the loop of `rt_slab_page_free` stops */
    method Locate(start: nat, npages: nat) returns (i: nat)
      requires npages > 0
      ensures i <= |list| && GivePages(list, start, npages) == list[..i] + GivePages(list[i..], start, npages)
      ensures i < |list| ==> list[i].start + list[i].count == start || list[i].start >= start + npages
    {
      i := 0;
      assert list[..0] + GivePages(list[0..], start, npages) == GivePages(list, start, npages);
      while i < |list| && list[i].start + list[i].count != start && list[i].start < start + npages
        invariant i <= |list|
        invariant GivePages(list, start, npages) == list[..i] + GivePages(list[i..], start, npages)
      {
        GiveHead(list, i, start, npages);
        ghost var rest := GivePages(list[i + 1..], start, npages);
        assert list[..i + 1] + rest == list[..i] + ([list[i]] + rest);
        i := i + 1;
      }
    }

    /** `rt_slab_page_free` */
    method Free(start: nat, npages: nat)
      requires npages > 0
      modifies this
      ensures list == GivePages(old(list), start, npages)
    {
      var i := Locate(start, npages);
      if i < |list| {
        GiveHead(list, i, start, npages);
        var b := list[i];
        if b.start + b.count == start {
          b := Run(b.start, b.count + npages);
          if i + 1 < |list| && b.start + b.count == list[i + 1].start {
            list := list[..i] + ([Run(b.start, b.count + list[i + 1].count)] + list[i + 2..]);
          } else {
            list := list[..i] + ([b] + list[i + 1..]);
          }
          return;
        }
        if b.start == start + npages {
          list := list[..i] + ([Run(start, b.count + npages)] + list[i + 1..]);
          return;
        }
      }
      list := list[..i] + ([Run(start, npages)] + list[i..]);
    }
  }

  /** One turn of the loop of `PageList.Locate` */
  lemma GiveHead(list: seq<Run>, i: nat, s: nat, n: nat)
    requires i < |list|
    ensures var b, rest := list[i], list[i + 1..];
            GivePages(list[i..], s, n) ==
            if b.start + b.count == s then
              if rest != [] && s + n == rest[0].start then [Run(b.start, b.count + n + rest[0].count)] + list[i + 2..]
              else [Run(b.start, b.count + n)] + rest
            else if b.start == s + n then [Run(s, n + b.count)] + rest
            else if b.start > s + n then [Run(s, n)] + list[i..]
            else [b] + GivePages(rest, s, n)
  {
    var t := list[i..];
    assert t[0] == list[i] && t[1..] == list[i + 1..];
    if |t| > 1 {
      assert t[1] == list[i + 1..][0] && t[2..] == list[i + 2..];
    }
  }
}
