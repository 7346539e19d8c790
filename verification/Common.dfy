/** Small helpers shared by the kernel models. */
module Common {

  datatype Option<+T> = None | Some(value: T)

  function Min(a: int, b: int): int {
    if a < b then a else b
  }

  function Max(a: int, b: int): int {
    if a < b then b else a
  }

  /** No element occurs twice. */
  ghost predicate Distinct<T>(s: seq<T>) {
    forall i, j :: 0 <= i < j < |s| ==> s[i] != s[j]
  }

  function IndexOf<T(==)>(s: seq<T>, x: T): (i: nat)
    requires x in s
    ensures i < |s| && s[i] == x && x !in s[..i]
  {
    if s[0] == x then 0 else 1 + IndexOf(s[1..], x)
  }

  /** Unlinks `x`, which the source does through the node's own links. */
  function Remove<T(==)>(s: seq<T>, x: T): seq<T> {
    if x in s then var i := IndexOf(s, x); s[..i] + s[i + 1..] else s
  }

  function InsertAt<T>(s: seq<T>, i: nat, x: T): seq<T>
    requires i <= |s|
  {
    s[..i] + [x] + s[i..]
  }

  lemma RemoveMultiset<T>(s: seq<T>, x: T)
    ensures multiset(Remove(s, x)) == multiset(s) - multiset{x}
  {
    if x in s {
      var i := IndexOf(s, x);
      assert s == s[..i] + [x] + s[i + 1..];
    }
  }

  /** Element by element, `Remove` closes the gap. */
  lemma RemoveAt<T>(s: seq<T>, x: T, j: nat)
    requires x in s && j < |s| - 1
    ensures |Remove(s, x)| == |s| - 1 && Remove(s, x)[j] == s[if j < IndexOf(s, x) then j else j + 1]
  {
    var i := IndexOf(s, x);
    var front, back := s[..i], s[i + 1..];
    if j < i {
      assert (front + back)[j] == front[j];
    } else {
      assert (front + back)[j] == back[j - i];
    }
  }

  lemma RemoveSubset<T>(s: seq<T>, x: T, y: T)
    ensures y in Remove(s, x) ==> y in s
    ensures y in s && y != x ==> y in Remove(s, x)
  {
    if x in s {
      var i := IndexOf(s, x);
      if y in s && y != x {
        var j :| 0 <= j < |s| && s[j] == y;
        RemoveAt(s, x, if j < i then j else j - 1);
      }
      assert s == s[..i] + [x] + s[i + 1..];
    }
  }

  lemma RemoveDistinct<T>(s: seq<T>, x: T)
    requires Distinct(s)
    ensures Distinct(Remove(s, x)) && x !in Remove(s, x)
  {
    if x in s {
      var i, r := IndexOf(s, x), Remove(s, x);
      forall j, k | 0 <= j < k < |r| ensures r[j] != r[k] {
        RemoveAt(s, x, j);
        RemoveAt(s, x, k);
      }
      forall j | 0 <= j < |r| ensures r[j] != x {
        RemoveAt(s, x, j);
      }
    }
  }

  lemma RemoveContents<T>(s: seq<T>, x: T)
    ensures forall y :: y in Remove(s, x) ==> y in s
    ensures forall y :: y in s && y != x ==> y in Remove(s, x)
    ensures Distinct(s) ==> Distinct(Remove(s, x)) && x !in Remove(s, x)
  {
    forall y ensures (y in Remove(s, x) ==> y in s) && (y in s && y != x ==> y in Remove(s, x)) {
      RemoveSubset(s, x, y);
    }
    if Distinct(s) {
      RemoveDistinct(s, x);
    }
  }

  lemma InsertContents<T>(s: seq<T>, i: nat, x: T)
    requires i <= |s|
    ensures multiset(InsertAt(s, i, x)) == multiset(s) + multiset{x}
    ensures Distinct(s) && x !in s ==> Distinct(InsertAt(s, i, x))
    ensures forall y :: y in InsertAt(s, i, x) <==> y in s || y == x
  {
    var front, back := s[..i], s[i..];
    assert s == front + back;
    var r := InsertAt(s, i, x);
    forall y ensures y in r <==> y in s || y == x {
      assert y in r <==> y in front || y == x || y in back;
    }
  }

  lemma DistinctLast<T>(s: seq<T>, x: T)
    ensures Distinct(s + [x]) <==> Distinct(s) && x !in s
  {
    var r := s + [x];
    if Distinct(r) {
      forall i | 0 <= i < |s| ensures s[i] != x {
        assert r[i] == s[i] && r[|s|] == x;
      }
      forall i, j | 0 <= i < j < |s| ensures s[i] != s[j] {
        assert r[i] == s[i] && r[j] == s[j];
      }
    }
  }

  // ---------------------------------------------------------------------------------------------
  // Order in a queue

  /** `a` stands somewhere in front of `b`. */
  ghost predicate InFront<T>(q: seq<T>, a: T, b: T) {
    var front := exists i, j :: 0 <= i < j < |q| && q[i] == a && q[j] == b;
    front
  }

  lemma FrontAt<T>(q: seq<T>, i: nat, j: nat)
    requires i < j < |q|
    ensures InFront(q, q[i], q[j])
  {
  }

  /** The newcomer stands behind exactly those in front of its place. */
  lemma InsertPlace<T>(s: seq<T>, i: nat, x: T, w: T)
    requires i <= |s| && x !in s && w in s
    ensures InFront(InsertAt(s, i, x), w, x) <==> w in s[..i]
  {
    var r := InsertAt(s, i, x);
    if w in s[..i] {
      var k :| 0 <= k < i && s[k] == w;
      FrontAt(r, k, i);
    }
    assert forall k :: 0 <= k < |r| ==> r[k] == if k < i then s[k] else if k == i then x else s[k - 1];
    if InFront(r, w, x) {
      var k, j :| 0 <= k < j < |r| && r[k] == w && r[j] == x;
      assert s[..i][k] == w;
    }
  }

  /** The others keep their order. */
  lemma InsertOrder<T>(s: seq<T>, i: nat, x: T, a: T, b: T)
    requires i <= |s| && a != x && b != x
    ensures InFront(InsertAt(s, i, x), a, b) <==> InFront(s, a, b)
  {
    var r := InsertAt(s, i, x);
    assert forall k :: 0 <= k < |s| ==> s[k] == r[if k < i then k else k + 1];
    if InFront(s, a, b) {
      var k, j :| 0 <= k < j < |s| && s[k] == a && s[j] == b;
      FrontAt(r, if k < i then k else k + 1, if j < i then j else j + 1);
    }
    if InFront(r, a, b) {
      var k, j :| 0 <= k < j < |r| && r[k] == a && r[j] == b;
      FrontAt(s, if k < i then k else k - 1, if j < i then j else j - 1);
    }
  }

  lemma RemoveOrder<T>(s: seq<T>, x: T, a: T, b: T)
    requires a != x && b != x
    ensures InFront(Remove(s, x), a, b) <==> InFront(s, a, b)
  {
    if x in s {
      var i, r := IndexOf(s, x), Remove(s, x);
      assert InsertAt(r, i, x) == s;
      InsertOrder(r, i, x, a, b);
    }
  }

  lemma EitherInFront<T>(q: seq<T>, a: T, b: T)
    requires Distinct(q) && a in q && b in q && a != b
    ensures InFront(q, a, b) <==> !InFront(q, b, a)
  {
    var i, j := IndexOf(q, a), IndexOf(q, b);
    if i < j {
      FrontAt(q, i, j);
    } else {
      FrontAt(q, j, i);
    }
  }

  ghost predicate Below(s: seq<nat>, n: nat) {
    forall i :: 0 <= i < |s| ==> s[i] < n
  }

  lemma RemoveBelow(s: seq<nat>, n: nat)
    requires 0 < n && Distinct(s) && Below(s, n)
    ensures Below(Remove(s, n - 1), n - 1)
  {
    RemoveContents(s, n - 1);
    var r := Remove(s, n - 1);
    forall i | 0 <= i < |r| ensures r[i] < n - 1 {
      assert r[i] in r && r[i] in s;
    }
  }

  /** A sequence of distinct numbers below `n` has at most `n` elements. */
  lemma {:induction false} Pigeonhole(s: seq<nat>, n: nat)
    requires Distinct(s) && Below(s, n)
    ensures |s| <= n
  {
    if |s| > 0 {
      assert s[0] < n;
      RemoveContents(s, n - 1);
      RemoveBelow(s, n);
      Pigeonhole(Remove(s, n - 1), n - 1);
    }
  }

  // ---------------------------------------------------------------------------------------------
  // Memory

  /** `n` bytes at `src` in `c` are found at `dst` in `c'`. */
  ghost predicate SameBytes(c: seq<int>, c': seq<int>, src: nat, dst: nat, n: nat) {
    src + n <= |c| && dst + n <= |c'| && c'[dst..dst + n] == c[src..src + n]
  }

  /** `rt_memcpy` between two ranges that do not overlap. */
  method CopyBytes(bytes: array<int>, dst: nat, src: nat, n: nat)
    requires dst + n <= bytes.Length && src + n <= bytes.Length && (dst + n <= src || src + n <= dst)
    modifies bytes
    ensures SameBytes(old(bytes[..]), bytes[..], src, dst, n)
    ensures forall x: nat :: x < bytes.Length && !(dst <= x < dst + n) ==> bytes[x] == old(bytes[x])
  {
    for k := 0 to n
      invariant forall y :: dst <= y < dst + k ==> bytes[y] == old(bytes[y - dst + src])
      invariant forall y: nat :: y < bytes.Length && !(dst <= y < dst + k) ==> bytes[y] == old(bytes[y])
    {
      bytes[dst + k] := bytes[src + k];
    }
  }
}
