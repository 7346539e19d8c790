/**
  The timer list (`rt-thread/src/timer.c`): a skip list of any height, ordered by tick counts that wrap around.

  `Started` says where a linear scan of each row would put a timer and `CheckFrom` what firing a list of timers does.
  The lemmas show what those keep; the class walks the rows the way the source does and is proved to do the same.
 */
module TimerList {
  import opened Common

  /** Number of tick values: `rt_tick_t` is an unsigned 32-bit word. */
  const TICKS := 0x1_0000_0000

  /** `RT_TICK_MAX / 2` */
  const HALF := 0x7FFF_FFFF

  type Tick = t: int | 0 <= t < 0x1_0000_0000

  type TimerId = nat

  /** `stamp` remembers which start put the timer on the list; the source has no such field. */
  datatype Timer = Timer(timeout: Tick, init: Tick, periodic: bool, activated: bool, stamp: nat)

  /**
    `rows[0]` is the sparsest row and the last row holds every pending timer; `firing` is the local list of
    `rt_timer_check`; `starts` counts the starts, so that `random_nr` is `starts % TICKS`.
   */
  datatype State = State(timers: seq<Timer>, rows: seq<seq<TimerId>>, firing: seq<TimerId>, starts: nat)

  /** What a callback does to its own timer. */
  datatype Action = StopIt | StartIt

  /** `a - b` on unsigned words. */
  function Minus(a: Tick, b: Tick): Tick {
    if b <= a then a - b else a - b + TICKS
  }

  /** The scan of `rt_timer_start` stops in front of a timeout `a` when it inserts `b`. */
  predicate Later(a: Tick, b: Tick) {
    Minus(a, b) != 0 && Minus(a, b) < HALF
  }

  /** `rt_timer_check` at tick `now` fires a timer with this timeout. */
  predicate IsDue(timeout: Tick, now: Tick) {
    Minus(now, timeout) < HALF
  }

  /** Earlier timeout first, and among equal timeouts the one started first. */
  predicate Before(x: Timer, y: Timer) {
    Later(y.timeout, x.timeout) || (x.timeout == y.timeout && x.stamp < y.stamp)
  }

  ghost predicate Ordered(row: seq<TimerId>, ts: seq<Timer>) {
    Below(row, |ts|) && forall i, j {:trigger Before(ts[row[i]], ts[row[j]])} :: 0 <= i < j < |row| ==> Before(ts[row[i]], ts[row[j]])
  }

  /** All timeouts in the row lie less than half the tick range after `base`. */
  ghost predicate Window(row: seq<TimerId>, ts: seq<Timer>, base: Tick) {
    Below(row, |ts|) && forall i {:trigger Minus(ts[row[i]].timeout, base)} :: 0 <= i < |row| ==> Minus(ts[row[i]].timeout, base) < HALF
  }

  /** `x` comes before `y` in the duplicate-free `s`. */
  ghost predicate InOrder(s: seq<TimerId>, x: TimerId, y: TimerId) {
    x in s && y in s && IndexOf(s, x) < IndexOf(s, y)
  }

  /** `r` is a subsequence of the duplicate-free `s`. */
  ghost predicate Sub(r: seq<TimerId>, s: seq<TimerId>) {
    && (forall x :: x in r ==> x in s)
    && (forall i, j {:trigger InOrder(s, r[i], r[j])} :: 0 <= i < j < |r| ==> InOrder(s, r[i], r[j]))
  }

  /** How many timers of the row a linear scan passes before it inserts a timer with timeout `limit`. */
  function Scan(row: seq<TimerId>, ts: seq<Timer>, limit: Tick): (p: nat)
    requires Below(row, |ts|)
    ensures p <= |row|
    ensures forall i :: 0 <= i < p ==> !Later(ts[row[i]].timeout, limit)
    ensures p < |row| ==> Later(ts[row[p]].timeout, limit)
  {
    if row == [] || Later(ts[row[0]].timeout, limit) then 0 else 1 + Scan(row[1..], ts, limit)
  }

  /** How many rows above the bottom one a start with counter value `n` uses, at most `most`. */
  function Extra(n: nat, most: nat): (h: nat)
    ensures h <= most
  {
    if most == 0 || n % 4 != 0 then 0 else 1 + Extra(n / 4, most - 1)
  }

  function PowerOf4(k: nat): (p: nat)
    ensures p > 0
  {
    if k == 0 then 1 else 4 * PowerOf4(k - 1)
  }

  lemma DivideTwice(n: nat, p: nat)
    requires p > 0
    ensures n % (4 * p) == 0 <==> n % 4 == 0 && (n / 4) % p == 0
  {
    var q, r := n / 4, n % 4;
    var a, b := q / p, q % p;
    assert n == (4 * p) * a + (4 * b + r) by {
      assert q == p * a + b;
    }
    assert 0 <= 4 * b + r < 4 * p;
    RemainderIs(n, 4 * p, a, 4 * b + r);
  }

  lemma RemainderIs(n: nat, d: nat, a: nat, r: nat)
    requires r < d && n == d * a + r
    ensures n % d == r
  {
    assert n == d * (n / d) + n % d;
    var k := a - n / d;
    assert d * k == n % d - r;
    Multiple(d, k);
  }

  lemma Multiple(d: int, k: int)
    requires d > 0
    ensures k >= 1 ==> d * k >= d
    ensures k <= -1 ==> d * k <= -d
  {
  }

  /** The `k`-th row above the bottom one is used by the starts whose count `4^k` divides. */
  lemma {:induction false} ExtraIs(n: nat, most: nat, k: nat)
    ensures k <= Extra(n, most) <==> k <= most && n % PowerOf4(k) == 0
  {
    if k > 0 && most > 0 {
      DivideTwice(n, PowerOf4(k - 1));
      if n % 4 == 0 {
        ExtraIs(n / 4, most - 1, k - 1);
      }
    }
  }

  /** The sparsest of `levels` rows that the `n`-th start links the timer into. */
  function TopRow(n: nat, levels: nat): (top: nat)
    requires levels > 0
    ensures top < levels
  {
    levels - 1 - Extra(n % TICKS, levels - 1)
  }

  function Bottom(s: State): seq<TimerId>
    requires |s.rows| > 0
  {
    s.rows[|s.rows| - 1]
  }

  function UnlinkRows(rows: seq<seq<TimerId>>, t: TimerId): (r: seq<seq<TimerId>>)
    ensures |r| == |rows| && forall i :: 0 <= i < |r| ==> r[i] == Remove(rows[i], t)
  {
    seq(|rows|, i requires 0 <= i < |rows| => Remove(rows[i], t))
  }

  /** `_timer_remove`, with the activation flag set to `flag`. */
  function Unlinked(s: State, t: TimerId, flag: bool): State
    requires t < |s.timers|
  {
    s.(timers := s.timers[t := s.timers[t].(activated := flag)], rows := UnlinkRows(s.rows, t), firing := Remove(s.firing, t))
  }

  /** `rt_timer_stop` */
  function Stopped(s: State, t: TimerId): State
    requires t < |s.timers|
  {
    if s.timers[t].activated then Unlinked(s, t, false) else s
  }

  function Expiry(timer: Timer, now: Tick): Tick {
    if now + timer.init < TICKS then now + timer.init else now + timer.init - TICKS
  }

  ghost predicate InRange(s: State) {
    |s.rows| > 0 && Below(s.firing, |s.timers|) && forall i :: 0 <= i < |s.rows| ==> Below(s.rows[i], |s.timers|)
  }

  /** The row after a start: a linear scan decides the place. */
  function WithTimer(row: seq<TimerId>, ts: seq<Timer>, t: TimerId, limit: Tick, linked: bool): seq<TimerId>
    requires Below(row, |ts|)
  {
    if linked then InsertAt(row, Scan(row, ts, limit), t) else row
  }

  /** `rt_timer_start` */
  function Started(s: State, t: TimerId, now: Tick): (r: State)
    requires InRange(s) && t < |s.timers|
    ensures InRange(r) && |r.timers| == |s.timers| && |r.rows| == |s.rows|
  {
    UnlinkedInRange(s, t, false);
    var u := Unlinked(s, t, false);
    var limit := Expiry(s.timers[t], now);
    var n := s.starts + 1;
    var top := TopRow(n, |s.rows|);
    State(Rearm(u.timers, t, limit, n),
          seq(|u.rows|, i requires 0 <= i < |u.rows| => WithTimer(u.rows[i], u.timers, t, limit, top <= i)), u.firing, n)
  }

  lemma UnlinkedInRange(s: State, t: TimerId, flag: bool)
    requires InRange(s) && t < |s.timers|
    ensures InRange(Unlinked(s, t, flag))
  {
    RemoveInRange(s.firing, |s.timers|, t);
    forall i | 0 <= i < |s.rows| ensures Below(Remove(s.rows[i], t), |s.timers|) {
      RemoveInRange(s.rows[i], |s.timers|, t);
    }
  }

  lemma RemoveInRange(row: seq<TimerId>, n: nat, t: TimerId)
    requires Below(row, n)
    ensures Below(Remove(row, t), n)
  {
    RemoveContents(row, t);
    var r := Remove(row, t);
    forall i | 0 <= i < |r| ensures r[i] < n {
      assert r[i] in r;
    }
  }

  // ---------------------------------------------------------------------------------------------
  // Wrapping ticks

  /** Inside a window the wrapping comparison is the order of the distances from its base. */
  lemma LaterIsDistance(a: Tick, b: Tick, base: Tick)
    requires Minus(a, base) < HALF && Minus(b, base) < HALF
    ensures Later(a, b) <==> Minus(b, base) < Minus(a, base)
    ensures IsDue(a, b) <==> Minus(a, base) <= Minus(b, base)
    ensures a == b <==> Minus(a, base) == Minus(b, base)
  {
  }

  // ---------------------------------------------------------------------------------------------
  // Rows

  lemma IndexIs(s: seq<TimerId>, i: nat)
    requires Distinct(s) && i < |s|
    ensures IndexOf(s, s[i]) == i
  {
  }

  /** A scan of an ordered row splits it: later timeouts are exactly the rest. */
  lemma ScanSplits(row: seq<TimerId>, ts: seq<Timer>, limit: Tick, base: Tick, i: nat)
    requires Ordered(row, ts) && Window(row, ts, base) && Minus(limit, base) < HALF && i < |row|
    ensures Later(ts[row[i]].timeout, limit) <==> Scan(row, ts, limit) <= i
  {
    var p := Scan(row, ts, limit);
    if p < i {
      assert Before(ts[row[p]], ts[row[i]]);
      LaterIsDistance(ts[row[p]].timeout, limit, base);
      LaterIsDistance(ts[row[i]].timeout, limit, base);
      LaterIsDistance(ts[row[i]].timeout, ts[row[p]].timeout, base);
    }
  }

  lemma RemoveIndices(s: seq<TimerId>, t: TimerId)
    ensures t !in s ==> Remove(s, t) == s
    ensures t in s ==> var p := IndexOf(s, t); var r := Remove(s, t);
                       |r| == |s| - 1 && (forall i :: 0 <= i < |r| ==> r[i] == s[if i < p then i else i + 1])
  {
  }

  lemma RemoveKeeps(row: seq<TimerId>, ts: seq<Timer>, us: seq<Timer>, t: TimerId, base: Tick)
    requires Distinct(row) && Ordered(row, ts) && Window(row, ts, base) && t < |ts| == |us|
    requires forall x: TimerId :: x < |ts| && x != t ==> ts[x] == us[x]
    ensures Distinct(Remove(row, t)) && Ordered(Remove(row, t), us) && Window(Remove(row, t), us, base)
  {
    RemoveInRange(row, |ts|, t);
    RemoveContents(row, t);
    RemoveIndices(row, t);
    var r := Remove(row, t);
    var p := if t in row then IndexOf(row, t) else |row|;
    forall i | 0 <= i < |r| ensures us[r[i]] == ts[r[i]] {
      assert r[i] in r;
    }
    forall i, j | 0 <= i < j < |r| ensures Before(us[r[i]], us[r[j]]) {
      assert Before(ts[row[if i < p then i else i + 1]], ts[row[if j < p then j else j + 1]]);
    }
  }

  lemma RemoveIndexOf(s: seq<TimerId>, t: TimerId, x: TimerId)
    requires Distinct(s) && x in s && x != t
    ensures x in Remove(s, t)
    ensures IndexOf(Remove(s, t), x) == IndexOf(s, x) - (if t in s && IndexOf(s, t) < IndexOf(s, x) then 1 else 0)
  {
    RemoveContents(s, t);
    RemoveIndices(s, t);
    var r, i := Remove(s, t), IndexOf(s, x);
    IndexIs(r, if t in s && IndexOf(s, t) < i then i - 1 else i);
  }

  lemma RemoveSub(r: seq<TimerId>, s: seq<TimerId>, t: TimerId)
    requires Distinct(r) && Distinct(s) && Sub(r, s)
    ensures Sub(Remove(r, t), Remove(s, t))
  {
    RemoveContents(r, t);
    RemoveContents(s, t);
    RemoveIndices(r, t);
    var q := Remove(r, t);
    forall i, j | 0 <= i < j < |q| ensures InOrder(Remove(s, t), q[i], q[j]) {
      assert q[i] in q && q[j] in q;
      assert InOrder(s, q[i], q[j]) by {
        var p := if t in r then IndexOf(r, t) else |r|;
        assert InOrder(s, r[if i < p then i else i + 1], r[if j < p then j else j + 1]);
      }
      RemoveIndexOf(s, t, q[i]);
      RemoveIndexOf(s, t, q[j]);
    }
  }

  lemma InsertIndexOf(s: seq<TimerId>, p: nat, t: TimerId, x: TimerId)
    requires Distinct(s) && p <= |s| && x in s && t !in s
    ensures x in InsertAt(s, p, t) && IndexOf(InsertAt(s, p, t), x) == IndexOf(s, x) + (if IndexOf(s, x) < p then 0 else 1)
  {
    InsertContents(s, p, t);
    var r, i := InsertAt(s, p, t), IndexOf(s, x);
    IndexIs(r, if i < p then i else i + 1);
  }

  lemma InsertedAt(s: seq<TimerId>, p: nat, t: TimerId)
    requires Distinct(s) && p <= |s| && t !in s
    ensures t in InsertAt(s, p, t) && IndexOf(InsertAt(s, p, t), t) == p
  {
    InsertContents(s, p, t);
    IndexIs(InsertAt(s, p, t), p);
  }

  lemma InsertedElement(r: seq<TimerId>, q: nat, t: TimerId, i: nat)
    requires q <= |r| && i <= |r|
    ensures InsertAt(r, q, t)[i] == if i == q then t else r[Skip(i, q)]
  {
  }

  /** A row that does not get the timer stays a subsequence of one that does. */
  lemma InsertBelowSub(r: seq<TimerId>, s: seq<TimerId>, p: nat, t: TimerId)
    requires Distinct(s) && Sub(r, s) && p <= |s| && t !in s
    ensures Sub(r, InsertAt(s, p, t))
  {
    InsertContents(s, p, t);
    forall i, j | 0 <= i < j < |r| ensures InOrder(InsertAt(s, p, t), r[i], r[j]) {
      assert r[i] in r && r[j] in r && InOrder(s, r[i], r[j]);
      InsertIndexOf(s, p, t, r[i]);
      InsertIndexOf(s, p, t, r[j]);
    }
  }

  function Skip(i: nat, q: nat): nat
    requires i != q
  {
    if i < q then i else i - 1
  }

  lemma InsertedIndex(r: seq<TimerId>, s: seq<TimerId>, q: nat, p: nat, t: TimerId, i: nat)
    requires Distinct(s) && p <= |s| && q <= |r| && t !in s && i <= |r|
    requires i != q ==> r[Skip(i, q)] in s && (IndexOf(s, r[Skip(i, q)]) < p <==> i < q)
    ensures InsertAt(r, q, t)[i] in InsertAt(s, p, t)
    ensures IndexOf(InsertAt(s, p, t), InsertAt(r, q, t)[i]) ==
            if i == q then p else IndexOf(s, r[Skip(i, q)]) + (if i < q then 0 else 1)
  {
    InsertedElement(r, q, t, i);
    if i == q {
      InsertedAt(s, p, t);
    } else {
      InsertIndexOf(s, p, t, r[Skip(i, q)]);
    }
  }

  lemma InsertBothSub(r: seq<TimerId>, s: seq<TimerId>, q: nat, p: nat, t: TimerId)
    requires Distinct(s) && Sub(r, s) && p <= |s| && q <= |r| && t !in s
    requires forall k :: 0 <= k < |r| ==> (IndexOf(s, r[k]) < p <==> k < q)
    ensures Sub(InsertAt(r, q, t), InsertAt(s, p, t))
  {
    var r', s' := InsertAt(r, q, t), InsertAt(s, p, t);
    forall x | x in r' ensures x in s' {
      InsertContents(r, q, t);
      InsertContents(s, p, t);
    }
    forall i, j | 0 <= i < j < |r'| ensures InOrder(s', r'[i], r'[j]) {
      InsertedIndex(r, s, q, p, t, i);
      InsertedIndex(r, s, q, p, t, j);
      if i != q && j != q {
        assert InOrder(s, r[Skip(i, q)], r[Skip(j, q)]);
      }
    }
  }

  /** The two scans agree on which timers of the sparser row come first. */
  lemma ScansAgree(r: seq<TimerId>, s: seq<TimerId>, ts: seq<Timer>, limit: Tick, base: Tick, i: nat)
    requires Sub(r, s) && Ordered(r, ts) && Window(r, ts, base) && Ordered(s, ts) && Window(s, ts, base)
    requires Minus(limit, base) < HALF && i < |r|
    ensures IndexOf(s, r[i]) < Scan(s, ts, limit) <==> i < Scan(r, ts, limit)
  {
    assert r[i] in r;
    ScanSplits(r, ts, limit, base, i);
    ScanSplits(s, ts, limit, base, IndexOf(s, r[i]));
  }

  lemma WithTimerSub(r: seq<TimerId>, s: seq<TimerId>, ts: seq<Timer>, t: TimerId, limit: Tick, base: Tick, upper: bool, lower: bool)
    requires Distinct(r) && Distinct(s) && Sub(r, s) && t !in s && (upper ==> lower)
    requires Ordered(r, ts) && Window(r, ts, base) && Ordered(s, ts) && Window(s, ts, base) && Minus(limit, base) < HALF
    ensures Sub(WithTimer(r, ts, t, limit, upper), WithTimer(s, ts, t, limit, lower))
  {
    var q, p := Scan(r, ts, limit), Scan(s, ts, limit);
    if upper {
      forall i | 0 <= i < |r| ensures IndexOf(s, r[i]) < p <==> i < q {
        ScansAgree(r, s, ts, limit, base, i);
      }
      InsertBothSub(r, s, q, p, t);
    } else if lower {
      InsertBelowSub(r, s, p, t);
    }
  }

  function Rearm(ts: seq<Timer>, t: TimerId, limit: Tick, n: nat): seq<Timer>
    requires t < |ts|
  {
    ts[t := ts[t].(timeout := limit, activated := true, stamp := n)]
  }

  /** The scanned place is right: everything in front comes before the newcomer, everything behind after it. */
  lemma ScanFits(row: seq<TimerId>, ts: seq<Timer>, t: TimerId, limit: Tick, n: nat, base: Tick, i: nat)
    requires Ordered(row, ts) && Window(row, ts, base) && t < |ts| && t !in row && i < |row|
    requires Minus(limit, base) < HALF && ts[row[i]].stamp < n
    ensures Rearm(ts, t, limit, n)[row[i]] == ts[row[i]]
    ensures i < Scan(row, ts, limit) ==> Before(ts[row[i]], Rearm(ts, t, limit, n)[t])
    ensures i >= Scan(row, ts, limit) ==> Before(Rearm(ts, t, limit, n)[t], ts[row[i]])
  {
    assert row[i] in row;
    ScanSplits(row, ts, limit, base, i);
    LaterIsDistance(ts[row[i]].timeout, limit, base);
    LaterIsDistance(limit, ts[row[i]].timeout, base);
  }

  /** Inserting at the scanned place keeps the order; the new stamp makes the newcomer last among its equals. */
  lemma WithTimerOrdered(row: seq<TimerId>, ts: seq<Timer>, t: TimerId, limit: Tick, n: nat, base: Tick, linked: bool)
    requires Ordered(row, ts) && Window(row, ts, base) && t < |ts| && t !in row
    requires Minus(limit, base) < HALF && forall i :: 0 <= i < |row| ==> ts[row[i]].stamp < n
    ensures Ordered(WithTimer(row, ts, t, limit, linked), Rearm(ts, t, limit, n))
    ensures Window(WithTimer(row, ts, t, limit, linked), Rearm(ts, t, limit, n), base)
  {
    var p := Scan(row, ts, limit);
    var us := Rearm(ts, t, limit, n);
    var r := WithTimer(row, ts, t, limit, linked);
    forall i | 0 <= i < |row| ensures us[row[i]] == ts[row[i]] {
      ScanFits(row, ts, t, limit, n, base, i);
    }
    if linked {
      assert forall i :: 0 <= i < |r| ==> r[i] == if i == p then t else row[Skip(i, p)];
      forall i, j | 0 <= i < j < |r| ensures Before(us[r[i]], us[r[j]]) {
        if i == p {
          ScanFits(row, ts, t, limit, n, base, Skip(j, p));
        } else if j == p {
          ScanFits(row, ts, t, limit, n, base, Skip(i, p));
        } else {
          assert Before(ts[row[Skip(i, p)]], ts[row[Skip(j, p)]]);
        }
      }
    }
  }

  lemma WithTimerDistinct(row: seq<TimerId>, ts: seq<Timer>, t: TimerId, limit: Tick, linked: bool)
    requires Below(row, |ts|) && Distinct(row) && t !in row
    ensures Distinct(WithTimer(row, ts, t, limit, linked))
    ensures forall x :: x in WithTimer(row, ts, t, limit, linked) <==> x in row || (linked && x == t)
  {
    InsertContents(row, Scan(row, ts, limit), t);
  }

  // ---------------------------------------------------------------------------------------------
  // The whole list

  ghost predicate RowOk(row: seq<TimerId>, ts: seq<Timer>, base: Tick) {
    Distinct(row) && Ordered(row, ts) && Window(row, ts, base)
  }

  ghost predicate RowLink(rows: seq<seq<TimerId>>, i: nat)
    requires i + 1 < |rows|
  {
    Sub(rows[i], rows[i + 1])
  }

  /** The skip list is sound: ordered rows, each a subsequence of the next one. */
  ghost predicate Linked(s: State, base: Tick) {
    var linked :=
      && InRange(s)
      && (forall i :: 0 <= i < |s.rows| ==> RowOk(s.rows[i], s.timers, base))
      && (forall i: nat :: i + 1 < |s.rows| ==> RowLink(s.rows, i))
      && (forall t: TimerId :: t < |s.timers| ==> s.timers[t].stamp <= s.starts);
    linked
  }

  /** A timer is activated exactly while it is on one list, and it is on at most one. */
  ghost predicate Flags(s: State)
    requires |s.rows| > 0
  {
    var flags :=
      && Distinct(s.firing)
      && (forall t: TimerId :: t < |s.timers| && t in Bottom(s) ==> s.timers[t].activated && t !in s.firing)
      && (forall t: TimerId :: t < |s.timers| && s.timers[t].activated ==> t in Bottom(s) || t in s.firing);
    flags
  }

  lemma UnlinkKeeps(s: State, t: TimerId, flag: bool, base: Tick)
    requires Linked(s, base) && t < |s.timers|
    ensures Linked(Unlinked(s, t, flag), base)
    ensures forall i :: 0 <= i < |s.rows| ==> t !in Unlinked(s, t, flag).rows[i]
  {
    var u := Unlinked(s, t, flag);
    UnlinkedInRange(s, t, flag);
    forall i | 0 <= i < |s.rows| ensures RowOk(u.rows[i], u.timers, base) && t !in u.rows[i] {
      assert RowOk(s.rows[i], s.timers, base);
      RemoveContents(s.rows[i], t);
      forall x: TimerId | x in s.rows[i] && x != t ensures s.timers[x] == u.timers[x] {
      }
      RemoveKeepsOrder(s.rows[i], s.timers, u.timers, t, base);
    }
    forall i: nat | i + 1 < |s.rows| ensures RowLink(u.rows, i) {
      assert RowOk(s.rows[i], s.timers, base) && RowOk(s.rows[i + 1], s.timers, base) && RowLink(s.rows, i);
      RemoveSub(s.rows[i], s.rows[i + 1], t);
    }
  }

  lemma RemoveKeepsOrder(row: seq<TimerId>, ts: seq<Timer>, us: seq<Timer>, t: TimerId, base: Tick)
    requires RowOk(row, ts, base) && t < |ts| == |us|
    requires forall x: TimerId :: x < |ts| && x != t ==> ts[x] == us[x]
    ensures RowOk(Remove(row, t), us, base)
  {
    RemoveKeeps(row, ts, us, t, base);
  }

  lemma WithTimerOk(row: seq<TimerId>, ts: seq<Timer>, t: TimerId, limit: Tick, n: nat, base: Tick, linked: bool)
    requires RowOk(row, ts, base) && t < |ts| && t !in row && Minus(limit, base) < HALF
    requires forall x: TimerId :: x < |ts| ==> ts[x].stamp < n
    ensures RowOk(WithTimer(row, ts, t, limit, linked), Rearm(ts, t, limit, n), base)
  {
    WithTimerDistinct(row, ts, t, limit, linked);
    WithTimerOrdered(row, ts, t, limit, n, base, linked);
  }

  lemma StartedRow(s: State, t: TimerId, now: Tick, i: nat)
    requires InRange(s) && t < |s.timers| && i < |s.rows|
    ensures var u, r, limit := Unlinked(s, t, false), Started(s, t, now), Expiry(s.timers[t], now);
            && InRange(u) && |u.rows| == |s.rows| && |u.timers| == |s.timers|
            && r.rows[i] == WithTimer(u.rows[i], u.timers, t, limit, TopRow(s.starts + 1, |s.rows|) <= i)
            && r.timers == Rearm(u.timers, t, limit, s.starts + 1)
  {
    UnlinkedInRange(s, t, false);
  }

  lemma StartRow(s: State, t: TimerId, now: Tick, base: Tick, i: nat)
    requires Linked(s, base) && t < |s.timers| && Minus(Expiry(s.timers[t], now), base) < HALF && i < |s.rows|
    ensures RowOk(Started(s, t, now).rows[i], Started(s, t, now).timers, base)
  {
    UnlinkKeeps(s, t, false, base);
    var u, r := Unlinked(s, t, false), Started(s, t, now);
    var row, limit, linked := u.rows[i], Expiry(s.timers[t], now), TopRow(s.starts + 1, |s.rows|) <= i;
    WithTimerOk(row, u.timers, t, limit, s.starts + 1, base, linked);
    StartedRow(s, t, now, i);
  }

  lemma StartSub(s: State, t: TimerId, now: Tick, base: Tick, i: nat)
    requires Linked(s, base) && t < |s.timers| && Minus(Expiry(s.timers[t], now), base) < HALF && i + 1 < |s.rows|
    ensures RowLink(Started(s, t, now).rows, i)
  {
    UnlinkKeeps(s, t, false, base);
    var u, limit := Unlinked(s, t, false), Expiry(s.timers[t], now);
    var top := TopRow(s.starts + 1, |s.rows|);
    StartedRow(s, t, now, i);
    StartedRow(s, t, now, i + 1);
    StartedSub(u.rows, Started(s, t, now).rows, u.timers, t, limit, base, i, top);
  }

  lemma StartedSub(rows: seq<seq<TimerId>>, rows': seq<seq<TimerId>>, ts: seq<Timer>, t: TimerId, limit: Tick, base: Tick, i: nat, top: int)
    requires i + 1 < |rows| == |rows'| && t !in rows[i + 1] && RowLink(rows, i) && Minus(limit, base) < HALF
    requires RowOk(rows[i], ts, base) && RowOk(rows[i + 1], ts, base)
    requires rows'[i] == WithTimer(rows[i], ts, t, limit, top <= i) && rows'[i + 1] == WithTimer(rows[i + 1], ts, t, limit, top <= i + 1)
    ensures RowLink(rows', i)
  {
    WithTimerSub(rows[i], rows[i + 1], ts, t, limit, base, top <= i, top <= i + 1);
  }

  /** `rt_timer_start` keeps every row ordered and a subsequence of the row below it. */
  lemma StartKeeps(s: State, t: TimerId, now: Tick, base: Tick)
    requires Linked(s, base) && t < |s.timers| && Minus(Expiry(s.timers[t], now), base) < HALF
    ensures Linked(Started(s, t, now), base)
  {
    forall i | 0 <= i < |s.rows| ensures RowOk(Started(s, t, now).rows[i], Started(s, t, now).timers, base) {
      StartRow(s, t, now, base, i);
    }
    forall i: nat | i + 1 < |s.rows| ensures RowLink(Started(s, t, now).rows, i) {
      StartSub(s, t, now, base, i);
    }
  }

  /** A linear scan stops behind everything that is not later, seen from the base of the window. */
  lemma ScanPlace(row: seq<TimerId>, ts: seq<Timer>, limit: Tick, base: Tick)
    requires RowOk(row, ts, base) && Minus(limit, base) < HALF
    ensures forall i :: 0 <= i < Scan(row, ts, limit) ==> Minus(ts[row[i]].timeout, base) <= Minus(limit, base)
    ensures forall i :: Scan(row, ts, limit) <= i < |row| ==> Minus(limit, base) < Minus(ts[row[i]].timeout, base)
  {
    forall i | 0 <= i < |row| ensures Minus(limit, base) < Minus(ts[row[i]].timeout, base) <==> Scan(row, ts, limit) <= i {
      ScanSplits(row, ts, limit, base, i);
      LaterIsDistance(ts[row[i]].timeout, limit, base);
    }
  }

  /**
    Which rows a start links the timer into: the bottom one always, and the `k`-th above it when `4^k` divides the
    number of starts so far, which the source counts in a 32-bit word. Other timers stay in the rows they are in.
   */
  lemma StartRows(s: State, t: TimerId, now: Tick, i: nat)
    requires InRange(s) && t < |s.timers| && i < |s.rows| && Distinct(s.rows[i])
    ensures var r := Started(s, t, now);
            && (t in r.rows[i] <==> ((s.starts + 1) % TICKS) % PowerOf4(|s.rows| - 1 - i) == 0)
            && (forall x: TimerId :: x != t ==> (x in r.rows[i] <==> x in s.rows[i]))
            && r.starts == s.starts + 1
  {
    var u := Unlinked(s, t, false);
    StartedRow(s, t, now, i);
    RemoveContents(s.rows[i], t);
    WithTimerDistinct(u.rows[i], u.timers, t, Expiry(s.timers[t], now), TopRow(s.starts + 1, |s.rows|) <= i);
    ExtraIs((s.starts + 1) % TICKS, |s.rows| - 1, |s.rows| - 1 - i);
  }

  /** The bottom row after a start is the old one without the timer, with the timer behind all that are not later. */
  lemma StartPlaces(s: State, t: TimerId, now: Tick, base: Tick) returns (p: nat)
    requires Linked(s, base) && t < |s.timers| && Minus(Expiry(s.timers[t], now), base) < HALF
    ensures var rest, limit := Remove(Bottom(s), t), Expiry(s.timers[t], now);
            && Below(rest, |s.timers|) && p <= |rest| && Bottom(Started(s, t, now)) == InsertAt(rest, p, t)
            && (forall i :: 0 <= i < p ==> Minus(s.timers[rest[i]].timeout, base) <= Minus(limit, base))
            && (forall i :: p <= i < |rest| ==> Minus(limit, base) < Minus(s.timers[rest[i]].timeout, base))
            && Started(s, t, now).timers[t].timeout == limit
  {
    var ts, rest, limit := Unlinked(s, t, false).timers, Remove(Bottom(s), t), Expiry(s.timers[t], now);
    RestOk(s, t, base);
    p := Scan(rest, ts, limit);
    ScanPlace(rest, ts, limit, base);
    StartedRow(s, t, now, |s.rows| - 1);
    forall i | 0 <= i < |rest| ensures ts[rest[i]].timeout == s.timers[rest[i]].timeout {
    }
  }

  lemma RestOk(s: State, t: TimerId, base: Tick)
    requires Linked(s, base) && t < |s.timers|
    ensures var u, rest := Unlinked(s, t, false), Remove(Bottom(s), t);
      && |s.rows| > 0 && |u.rows| == |s.rows| && Bottom(u) == rest && RowOk(rest, u.timers, base)
      && |u.timers| == |s.timers| && (forall x: TimerId :: x < |s.timers| ==> u.timers[x].timeout == s.timers[x].timeout)
  {
    UnlinkKeeps(s, t, false, base);
    assert RowOk(Bottom(Unlinked(s, t, false)), Unlinked(s, t, false).timers, base);
  }

  lemma StopFlags(s: State, t: TimerId, flag: bool)
    requires InRange(s) && Flags(s) && t < |s.timers| && Distinct(Bottom(s))
    ensures Flags(Unlinked(s, t, false))
    ensures t !in Bottom(Unlinked(s, t, flag)) && t !in Unlinked(s, t, flag).firing
  {
    RemoveContents(Bottom(s), t);
    RemoveContents(s.firing, t);
  }

  lemma StartedBottom(s: State, t: TimerId, now: Tick)
    requires InRange(s) && t < |s.timers| && Distinct(Bottom(s))
    ensures forall x :: x in Bottom(Started(s, t, now)) <==> x in Bottom(s) || x == t
    ensures Distinct(Bottom(Started(s, t, now)))
  {
    var u, r, i := Unlinked(s, t, false), Started(s, t, now), |s.rows| - 1;
    RemovedBottom(s, t);
    var p := StartedLast(s, t, now, i);
    BottomGains(u, r, i, p, t);
  }

  lemma BottomGains(u: State, r: State, i: nat, p: nat, t: TimerId)
    requires |u.rows| == |r.rows| == i + 1 && p <= |u.rows[i]| && r.rows[i] == InsertAt(u.rows[i], p, t)
    requires Distinct(Bottom(u)) && t !in Bottom(u)
    ensures Distinct(Bottom(r)) && forall x :: x in Bottom(r) <==> x in Bottom(u) || x == t
  {
    InsertContents(u.rows[i], p, t);
  }

  /** The bottom row always gets the timer. */
  lemma StartedLast(s: State, t: TimerId, now: Tick, i: nat) returns (p: nat)
    requires InRange(s) && t < |s.timers| && i + 1 == |s.rows|
    ensures var u, r := Unlinked(s, t, false), Started(s, t, now);
            |u.rows| == |r.rows| == i + 1 && p <= |u.rows[i]| && r.rows[i] == InsertAt(u.rows[i], p, t)
  {
    StartedRow(s, t, now, i);
    p := Scan(Unlinked(s, t, false).rows[i], Unlinked(s, t, false).timers, Expiry(s.timers[t], now));
  }

  lemma RemovedBottom(s: State, t: TimerId)
    requires InRange(s) && t < |s.timers| && Distinct(Bottom(s))
    ensures var u := Unlinked(s, t, false);
      && |u.rows| == |s.rows| && Below(Bottom(u), |u.timers|) && Distinct(Bottom(u))
      && forall x :: x in Bottom(u) <==> x in Bottom(s) && x != t
  {
    UnlinkedInRange(s, t, false);
    RemoveContents(Bottom(s), t);
  }

  lemma StartFlags(s: State, t: TimerId, now: Tick)
    requires InRange(s) && Flags(s) && t < |s.timers| && Distinct(Bottom(s))
    ensures Flags(Started(s, t, now))
  {
    StartedBottom(s, t, now);
    var r := Started(s, t, now);
    RemoveContents(s.firing, t);
    assert r.firing == Remove(s.firing, t);
    forall x: TimerId | x < |s.timers| && x != t ensures r.timers[x] == s.timers[x] {
    }
    assert r.timers[t].activated;
  }

  // ---------------------------------------------------------------------------------------------
  // Firing

  function Act(s: State, t: TimerId, a: Action, now: Tick): (r: State)
    requires InRange(s) && t < |s.timers|
    ensures InRange(r) && |r.timers| == |s.timers| && |r.rows| == |s.rows|
  {
    UnlinkedInRange(s, t, false);
    match a
    case StopIt => Stopped(s, t)
    case StartIt => Started(s, t, now)
  }

  /** The callback of timer `t`. */
  function Play(s: State, t: TimerId, script: seq<Action>, now: Tick): (r: State)
    requires InRange(s) && t < |s.timers|
    ensures InRange(r) && |r.timers| == |s.timers| && |r.rows| == |s.rows|
  {
    if script == [] then s else Act(Play(s, t, script[..|script| - 1], now), t, script[|script| - 1], now)
  }

  /** One round of the loop of `rt_timer_check`, up to the call of the callback. */
  function Lifted(s: State, t: TimerId): (r: State)
    requires InRange(s) && t < |s.timers|
    ensures InRange(r) && |r.timers| == |s.timers| && |r.rows| == |s.rows|
  {
    var flag := s.timers[t].periodic && s.timers[t].activated;
    UnlinkedInRange(s, t, flag);
    var u := Unlinked(s, t, flag);
    u.(firing := [t] + u.firing)
  }

  /** The rest of the round. */
  function Lowered(s: State, t: TimerId, now: Tick): (r: State)
    requires InRange(s) && t < |s.timers|
    ensures InRange(r) && |r.timers| == |s.timers| && |r.rows| == |s.rows|
  {
    RemoveInRange(s.firing, |s.timers|, t);
    if s.firing == [] then s
    else
      var w := s.(firing := Remove(s.firing, t));
      if w.timers[t].periodic && w.timers[t].activated then Started(w, t, now) else w
  }

  function Fire(s: State, t: TimerId, script: seq<Action>, now: Tick): (r: State)
    requires InRange(s) && t < |s.timers|
    ensures InRange(r) && |r.timers| == |s.timers| && |r.rows| == |s.rows|
  {
    Lowered(Play(Lifted(s, t), t, script, now), t, now)
  }

  /** Fires the timers in `todo` in that order. */
  function CheckFrom(s: State, scripts: seq<seq<Action>>, now: Tick, todo: seq<TimerId>): (r: State)
    requires InRange(s) && Below(todo, |s.timers|) && |scripts| == |s.timers|
    ensures InRange(r) && |r.timers| == |s.timers| && |r.rows| == |s.rows|
    decreases |todo|
  {
    if todo == [] then s else CheckFrom(Fire(s, todo[0], scripts[todo[0]], now), scripts, now, todo[1..])
  }

  /** The timers of the row that have expired, in row order. */
  function Due(row: seq<TimerId>, ts: seq<Timer>, now: Tick): (d: seq<TimerId>)
    requires Below(row, |ts|)
    ensures Below(d, |ts|)
  {
    if row == [] then []
    else (if IsDue(ts[row[0]].timeout, now) then [row[0]] else []) + Due(row[1..], ts, now)
  }

  /** What a round leaves behind: periodic timers come back unless their callback decided otherwise. */
  predicate Rearmed(timer: Timer, script: seq<Action>) {
    if script == [] then timer.periodic else script[|script| - 1] == StartIt
  }

  /** Apart from `t` nothing differs between the two states. */
  ghost predicate SameOthers(s: State, r: State, t: TimerId) {
    && |r.timers| == |s.timers| && |r.rows| == |s.rows| && t < |s.timers|
    && (forall x: TimerId :: x < |s.timers| && x != t ==> r.timers[x] == s.timers[x])
    && r.timers[t].init == s.timers[t].init && r.timers[t].periodic == s.timers[t].periodic
    && (forall i :: 0 <= i < |s.rows| ==> Remove(r.rows[i], t) == Remove(s.rows[i], t))
  }

  /** Where the timer of a running callback is. */
  datatype Phase = Waiting | Armed | Halted

  ghost predicate InPhase(s: State, t: TimerId, phase: Phase, limit: Tick)
    requires |s.rows| > 0 && t < |s.timers|
  {
    match phase
    case Waiting => s.firing == [t] && t !in Bottom(s)
    case Armed => s.firing == [] && t in Bottom(s) && s.timers[t].activated && s.timers[t].timeout == limit
    case Halted => s.firing == [] && t !in Bottom(s) && !s.timers[t].activated
  }

  lemma RemoveTwice(row: seq<TimerId>, t: TimerId)
    requires Distinct(row)
    ensures Remove(Remove(row, t), t) == Remove(row, t)
  {
    RemoveContents(row, t);
    RemoveIndices(Remove(row, t), t);
  }

  lemma RemoveInserted(row: seq<TimerId>, p: nat, t: TimerId)
    requires Distinct(row) && p <= |row| && t !in row
    ensures Remove(InsertAt(row, p, t), t) == row
  {
    InsertContents(row, p, t);
    InsertedAt(row, p, t);
    RemoveIndices(InsertAt(row, p, t), t);
  }

  lemma UnlinkedOthers(s: State, t: TimerId, flag: bool, base: Tick)
    requires Linked(s, base) && t < |s.timers|
    ensures SameOthers(s, Unlinked(s, t, flag), t)
  {
    forall i | 0 <= i < |s.rows| ensures Remove(Unlinked(s, t, flag).rows[i], t) == Remove(s.rows[i], t) {
      assert RowOk(s.rows[i], s.timers, base);
      RemoveTwice(s.rows[i], t);
    }
  }

  lemma StartedOthers(s: State, t: TimerId, now: Tick, base: Tick)
    requires Linked(s, base) && t < |s.timers|
    ensures SameOthers(s, Started(s, t, now), t)
  {
    UnlinkKeeps(s, t, false, base);
    var u, r := Unlinked(s, t, false), Started(s, t, now);
    forall i | 0 <= i < |s.rows| ensures Remove(r.rows[i], t) == Remove(s.rows[i], t) {
      assert RowOk(s.rows[i], s.timers, base) && RowOk(u.rows[i], u.timers, base);
      RemoveTwice(s.rows[i], t);
      RemoveInserted(u.rows[i], Scan(u.rows[i], u.timers, Expiry(s.timers[t], now)), t);
    }
  }

  lemma OthersTrans(a: State, b: State, c: State, t: TimerId)
    requires SameOthers(a, b, t) && SameOthers(b, c, t)
    ensures SameOthers(a, c, t)
  {
    forall i | 0 <= i < |a.rows| ensures Remove(c.rows[i], t) == Remove(a.rows[i], t) {
      assert Remove(b.rows[i], t) == Remove(a.rows[i], t);
    }
  }

  /** The phase after one action of the callback. */
  function Moved(phase: Phase, active: bool, a: Action): Phase {
    if a == StartIt then Armed else if phase == Waiting && !active then Waiting else Halted
  }

  lemma ActKeeps(s: State, t: TimerId, a: Action, now: Tick, base: Tick, phase: Phase)
    requires Linked(s, base) && t < |s.timers| && Minus(Expiry(s.timers[t], now), base) < HALF
    requires InPhase(s, t, phase, Expiry(s.timers[t], now))
    ensures var r := Act(s, t, a, now);
            Linked(r, base) && SameOthers(s, r, t) && InPhase(r, t, Moved(phase, s.timers[t].activated, a), Expiry(s.timers[t], now))
    ensures Moved(phase, s.timers[t].activated, a) == Waiting ==> Act(s, t, a, now) == s
  {
    assert RowOk(Bottom(s), s.timers, base);
    RemoveContents(s.firing, t);
    if a == StartIt {
      StartKeeps(s, t, now, base);
      StartedOthers(s, t, now, base);
      StartedBottom(s, t, now);
    } else {
      UnlinkKeeps(s, t, false, base);
      UnlinkedOthers(s, t, false, base);
    }
  }

  /** Where the callback leaves its timer. */
  function PhaseAfter(timer: Timer, script: seq<Action>): Phase {
    if script == [] then Waiting
    else if script[|script| - 1] == StartIt then Armed
    else if timer.activated || StartIt in script then Halted
    else Waiting
  }

  lemma PhaseStep(timer: Timer, script: seq<Action>, active: bool)
    requires script != [] && (PhaseAfter(timer, script[..|script| - 1]) == Waiting ==> active == timer.activated)
    ensures PhaseAfter(timer, script) == Moved(PhaseAfter(timer, script[..|script| - 1]), active, script[|script| - 1])
  {
    var most := script[..|script| - 1];
    assert script == most + [script[|script| - 1]];
    assert StartIt in script <==> StartIt in most || script[|script| - 1] == StartIt;
  }

  /** What holds while the callback of `t` runs. */
  ghost predicate During(s: State, r: State, t: TimerId, phase: Phase, limit: Tick, base: Tick) {
    && Linked(r, base) && SameOthers(s, r, t) && InPhase(r, t, phase, limit)
    && (phase == Waiting ==> r == s)
  }

  lemma DuringAct(s: State, m: State, t: TimerId, a: Action, now: Tick, base: Tick, phase: Phase)
    requires InRange(s) && t < |s.timers| && Minus(Expiry(s.timers[t], now), base) < HALF
    requires During(s, m, t, phase, Expiry(s.timers[t], now), base)
    ensures During(s, Act(m, t, a, now), t, Moved(phase, m.timers[t].activated, a), Expiry(s.timers[t], now), base)
  {
    assert Expiry(m.timers[t], now) == Expiry(s.timers[t], now);
    var r := Act(m, t, a, now);
    ActKeeps(m, t, a, now, base, phase);
    OthersTrans(s, m, r, t);
  }

  lemma {:induction false} PlayKeeps(s: State, t: TimerId, script: seq<Action>, now: Tick, base: Tick)
    requires Linked(s, base) && t < |s.timers| && Minus(Expiry(s.timers[t], now), base) < HALF
    requires InPhase(s, t, Waiting, Expiry(s.timers[t], now))
    ensures During(s, Play(s, t, script, now), t, PhaseAfter(s.timers[t], script), Expiry(s.timers[t], now), base)
  {
    if script != [] {
      var most, last := script[..|script| - 1], script[|script| - 1];
      PlayKeeps(s, t, most, now, base);
      var m := Play(s, t, most, now);
      PhaseStep(s.timers[t], script, m.timers[t].activated);
      DuringAct(s, m, t, last, now, base, PhaseAfter(s.timers[t], most));
    }
  }

  // ---------------------------------------------------------------------------------------------
  // One round and the whole check

  /** Restarting any timer at `now` gives a timeout after `now` that is still inside the window. */
  ghost predicate Armable(s: State, now: Tick, base: Tick) {
    && Minus(now, base) < HALF
    && (forall t: TimerId :: t < |s.timers| ==> 1 <= s.timers[t].init && Minus(now, base) + s.timers[t].init < HALF)
  }

  lemma ExpiryAhead(timer: Timer, now: Tick, base: Tick)
    requires 1 <= timer.init && Minus(now, base) + timer.init < HALF
    ensures Minus(Expiry(timer, now), base) == Minus(now, base) + timer.init
    ensures !IsDue(Expiry(timer, now), now)
  {
  }

  /** What holds before and after every round of the check. */
  ghost predicate Checkable(s: State, now: Tick, base: Tick) {
    Linked(s, base) && Flags(s) && s.firing == [] && Armable(s, now, base)
  }

  ghost predicate Fired(s: State, r: State, t: TimerId, script: seq<Action>, now: Tick)
    requires |s.rows| > 0 && t < |s.timers|
  {
    && SameOthers(s, r, t) && r.firing == []
    && (t in Bottom(r) <==> Rearmed(s.timers[t], script))
    && r.timers[t].activated == Rearmed(s.timers[t], script)
    && (Rearmed(s.timers[t], script) ==> r.timers[t].timeout == Expiry(s.timers[t], now))
  }

  lemma LiftKeeps(s: State, t: TimerId, limit: Tick, base: Tick)
    requires Linked(s, base) && Flags(s) && s.firing == [] && t in Bottom(s) && t < |s.timers|
    ensures Linked(Lifted(s, t), base) && SameOthers(s, Lifted(s, t), t) && InPhase(Lifted(s, t), t, Waiting, limit)
    ensures Lifted(s, t).timers[t].activated == s.timers[t].periodic
  {
    var flag := s.timers[t].periodic && s.timers[t].activated;
    UnlinkKeeps(s, t, flag, base);
    UnlinkedOthers(s, t, flag, base);
  }

  lemma LowerKeeps(u: State, v: State, t: TimerId, script: seq<Action>, now: Tick, base: Tick)
    requires InRange(u) && t < |u.timers| && u.timers[t].activated == u.timers[t].periodic
    requires Minus(Expiry(u.timers[t], now), base) < HALF
    requires During(u, v, t, PhaseAfter(u.timers[t], script), Expiry(u.timers[t], now), base)
    ensures Linked(Lowered(v, t, now), base) && Fired(u, Lowered(v, t, now), t, script, now)
  {
    assert Expiry(v.timers[t], now) == Expiry(u.timers[t], now);
    RemoveContents(v.firing, t);
    if v.firing != [] {
      assert RowOk(Bottom(v), v.timers, base);
      RemoveIndices(v.firing, t);
      var w := v.(firing := Remove(v.firing, t));
      assert w.firing == [] && Linked(w, base);
      if v.timers[t].periodic {
        StartKeeps(w, t, now, base);
        StartedOthers(w, t, now, base);
        StartedBottom(w, t, now);
        OthersTrans(u, w, Started(w, t, now), t);
      }
    }
  }

  /** One round of `rt_timer_check`: the timer comes back exactly when it should, and nothing else changes. */
  lemma FireKeeps(s: State, t: TimerId, script: seq<Action>, now: Tick, base: Tick)
    requires Linked(s, base) && Flags(s) && s.firing == [] && t in Bottom(s) && t < |s.timers| && Armable(s, now, base)
    ensures Linked(Fire(s, t, script, now), base) && Fired(s, Fire(s, t, script, now), t, script, now)
  {
    ExpiryAhead(s.timers[t], now, base);
    var u := Lifted(s, t);
    LiftKeeps(s, t, Expiry(s.timers[t], now), base);
    assert Expiry(u.timers[t], now) == Expiry(s.timers[t], now);
    PlayKeeps(u, t, script, now, base);
    var v := Play(u, t, script, now);
    LowerKeeps(u, v, t, script, now, base);
    OthersTrans(s, u, Lowered(v, t, now), t);
  }

  lemma ArmableAfter(s: State, r: State, t: TimerId, script: seq<Action>, now: Tick, base: Tick)
    requires |s.rows| > 0 && t < |s.timers| && Fired(s, r, t, script, now) && Armable(s, now, base)
    ensures Armable(r, now, base)
  {
    forall x: TimerId | x < |r.timers| ensures r.timers[x].init == s.timers[x].init {
      assert x != t ==> r.timers[x] == s.timers[x];
    }
  }

  lemma FiredFlags(s: State, r: State, t: TimerId, script: seq<Action>, now: Tick)
    requires |s.rows| > 0 && t < |s.timers| && Flags(s) && s.firing == [] && Fired(s, r, t, script, now)
    ensures Flags(r)
    ensures forall x :: x != t ==> (x in Bottom(r) <==> x in Bottom(s))
  {
    assert Remove(Bottom(r), t) == Remove(Bottom(s), t);
    RemoveContents(Bottom(r), t);
    RemoveContents(Bottom(s), t);
  }

  lemma RemoveHead(row: seq<TimerId>, t: TimerId)
    requires row != []
    ensures Remove(row, t) == if row[0] == t then row[1..] else [row[0]] + Remove(row[1..], t)
  {
  }

  /** A timer that is not due can be left out. */
  lemma {:induction false} DueWithout(row: seq<TimerId>, ts: seq<Timer>, us: seq<Timer>, t: TimerId, now: Tick)
    requires Distinct(row) && Below(row, |ts|) && |us| == |ts|
    requires forall x: TimerId :: x < |ts| && x != t ==> ts[x] == us[x]
    requires t in row ==> !IsDue(us[t].timeout, now)
    ensures Below(Remove(row, t), |ts|) && Due(row, us, now) == Due(Remove(row, t), ts, now)
  {
    RemoveInRange(row, |ts|, t);
    if row != [] {
      RemoveHead(row, t);
      RemoveInRange(row[1..], |ts|, t);
      DueWithout(row[1..], ts, us, t, now);
      if row[0] == t {
        assert t !in row[1..];
        RemoveIndices(row[1..], t);
      } else {
        var rest := Remove(row[1..], t);
        assert ([row[0]] + rest)[1..] == rest;
      }
    }
  }

  lemma {:induction false} NoneDue(row: seq<TimerId>, ts: seq<Timer>, now: Tick)
    requires Below(row, |ts|) && forall i :: 0 <= i < |row| ==> !IsDue(ts[row[i]].timeout, now)
    ensures Due(row, ts, now) == []
  {
    if row != [] {
      NoneDue(row[1..], ts, now);
    }
  }

  /** Looking at the head of an ordered row is enough. */
  lemma DueHead(row: seq<TimerId>, ts: seq<Timer>, now: Tick, base: Tick)
    requires Ordered(row, ts) && Window(row, ts, base) && Minus(now, base) < HALF
    ensures Due(row, ts, now) == [] <==> row == [] || !IsDue(ts[row[0]].timeout, now)
    ensures Due(row, ts, now) != [] ==> Due(row, ts, now)[0] == row[0] && Due(row, ts, now)[1..] == Due(row[1..], ts, now)
  {
    if row != [] && !IsDue(ts[row[0]].timeout, now) {
      forall i | 0 <= i < |row| ensures !IsDue(ts[row[i]].timeout, now) {
        LaterIsDistance(now, ts[row[0]].timeout, base);
        LaterIsDistance(now, ts[row[i]].timeout, base);
        if i > 0 {
          assert Before(ts[row[0]], ts[row[i]]);
          LaterIsDistance(ts[row[i]].timeout, ts[row[0]].timeout, base);
        }
      }
      NoneDue(row, ts, now);
    }
  }

  lemma FiredDue(s: State, r: State, t: TimerId, script: seq<Action>, now: Tick, base: Tick)
    requires Linked(s, base) && Linked(r, base) && t < |s.timers| && Fired(s, r, t, script, now) && Armable(s, now, base)
    requires Due(Bottom(s), s.timers, now) != [] && t == Due(Bottom(s), s.timers, now)[0]
    ensures Due(Bottom(r), r.timers, now) == Due(Bottom(s), s.timers, now)[1..]
  {
    assert RowOk(Bottom(s), s.timers, base) && RowOk(Bottom(r), r.timers, base);
    ExpiryAhead(s.timers[t], now, base);
    DueHead(Bottom(s), s.timers, now, base);
    RemoveHead(Bottom(s), t);
    DueWithout(Bottom(r), s.timers, r.timers, t, now);
  }

  /** What a check with the expired timers `todo` leaves of timer `x`. */
  ghost predicate Outcome(s: State, r: State, x: TimerId, script: seq<Action>, now: Tick, todo: seq<TimerId>)
    requires |s.rows| > 0 && |r.rows| > 0 && x < |s.timers| && |r.timers| == |s.timers|
  {
    if x in todo then
      && (x in Bottom(r) <==> Rearmed(s.timers[x], script))
      && (Rearmed(s.timers[x], script) ==> r.timers[x].timeout == Expiry(s.timers[x], now))
      && r.timers[x].init == s.timers[x].init && r.timers[x].periodic == s.timers[x].periodic
    else (x in Bottom(r) <==> x in Bottom(s)) && r.timers[x] == s.timers[x]
  }

  lemma DueContents(row: seq<TimerId>, ts: seq<Timer>, now: Tick)
    requires Below(row, |ts|)
    ensures forall x :: x in Due(row, ts, now) <==> x in row && IsDue(ts[x].timeout, now)
    ensures Distinct(row) ==> Distinct(Due(row, ts, now))
  {
    if row != [] {
      DueContents(row[1..], ts, now);
      assert forall x :: x in row <==> x == row[0] || x in row[1..];
    }
  }

  lemma OutcomeStep(s: State, m: State, r: State, x: TimerId, t: TimerId, scripts: seq<seq<Action>>, now: Tick, rest: seq<TimerId>)
    requires |s.rows| > 0 && |r.rows| > 0 && x < |s.timers| == |scripts| && |r.timers| == |s.timers| && t < |s.timers| && t !in rest
    requires Fired(s, m, t, scripts[t], now) && (x != t ==> (x in Bottom(m) <==> x in Bottom(s)))
    requires Outcome(m, r, x, scripts[x], now, rest)
    ensures Outcome(s, r, x, scripts[x], now, [t] + rest)
  {
  }

  /**
    `rt_timer_check` fires the expired timers, each once and in list order, and leaves exactly the others and the
    re-armed ones pending, in order again.
   */
  lemma {:induction false} CheckKeeps(s: State, scripts: seq<seq<Action>>, now: Tick, base: Tick)
    requires Linked(s, base) && Flags(s) && s.firing == [] && Armable(s, now, base) && |scripts| == |s.timers|
    ensures var todo := Due(Bottom(s), s.timers, now); var r := CheckFrom(s, scripts, now, todo);
            && Linked(r, base) && Flags(r) && r.firing == [] && Due(Bottom(r), r.timers, now) == []
            && forall x: TimerId :: x < |s.timers| ==> Outcome(s, r, x, scripts[x], now, todo)
    decreases |Due(Bottom(s), s.timers, now)|
  {
    var todo := Due(Bottom(s), s.timers, now);
    if todo != [] {
      var t := todo[0];
      DueContents(Bottom(s), s.timers, now);
      assert RowOk(Bottom(s), s.timers, base);
      var m := Fire(s, t, scripts[t], now);
      FireKeeps(s, t, scripts[t], now, base);
      FiredFlags(s, m, t, scripts[t], now);
      FiredDue(s, m, t, scripts[t], now, base);
      ArmableAfter(s, m, t, scripts[t], now, base);
      CheckKeeps(m, scripts, now, base);
      var rest, r := todo[1..], CheckFrom(s, scripts, now, todo);
      assert r == CheckFrom(m, scripts, now, rest) && todo == [t] + rest && t !in rest;
      forall x: TimerId | x < |s.timers| ensures Outcome(s, r, x, scripts[x], now, todo) {
        assert Outcome(m, r, x, scripts[x], now, rest);
        OutcomeStep(s, m, r, x, t, scripts, now, rest);
      }
    }
  }

  // ---------------------------------------------------------------------------------------------
  // Runs of the tick interrupt

  /** The list at tick `now`, after the check of that tick. */
  datatype Clock = Clock(list: State, now: Tick)

  datatype Op = Start(t: TimerId) | Stop(t: TimerId) | Advance(scripts: seq<seq<Action>>)

  function NextTick(now: Tick): Tick {
    if now + 1 < TICKS then now + 1 else 0
  }

  predicate Allowed(c: Clock, op: Op) {
    match op
    case Start(t) => t < |c.list.timers|
    case Stop(t) => t < |c.list.timers|
    case Advance(scripts) => |scripts| == |c.list.timers|
  }

  function Step(c: Clock, op: Op): Clock
    requires InRange(c.list) && Allowed(c, op)
  {
    match op
    case Start(t) => c.(list := Started(c.list, t, c.now))
    case Stop(t) => c.(list := Stopped(c.list, t))
    case Advance(scripts) =>
      var now := NextTick(c.now);
      Clock(CheckFrom(c.list, scripts, now, Due(Bottom(c.list), c.list.timers, now)), now)
  }

  /** Every pending timer lies ahead, less than half the tick range away, and all lists are in order. */
  ghost predicate Sound(c: Clock) {
    var sound :=
      && Linked(c.list, c.now) && Flags(c.list) && c.list.firing == [] && Armable(c.list, c.now, c.now)
      && Due(Bottom(c.list), c.list.timers, c.now) == [];
    sound
  }

  /** `rt_timer_init` */
  function NewTimer(init: Tick, periodic: bool): Timer {
    Timer(0, init, periodic, false, 0)
  }

  /** The empty list of `levels` rows, and timers that have never been started; `settings[t]` is the time and kind of timer `t`. */
  function NewClock(levels: nat, settings: seq<(Tick, bool)>, now: Tick): Clock
    requires levels > 0
  {
    Clock(State(seq(|settings|, t requires 0 <= t < |settings| => NewTimer(settings[t].0, settings[t].1)),
                seq(levels, _ => []), [], 0), now)
  }

  /** The list is sound from the start, for timers of any positive time that `rt_timer_init` accepts. */
  lemma InitSound(levels: nat, settings: seq<(Tick, bool)>, now: Tick)
    requires levels > 0 && forall t :: 0 <= t < |settings| ==> 1 <= settings[t].0 < HALF
    ensures Sound(NewClock(levels, settings, now))
  {
    var s := NewClock(levels, settings, now).list;
    assert InRange(s) && Due(Bottom(s), s.timers, now) == [];
    forall i: nat | i + 1 < |s.rows| ensures RowLink(s.rows, i) {
    }
  }

  lemma Rebase(c: Clock)
    requires Sound(c)
    ensures Linked(c.list, NextTick(c.now)) && Armable(c.list, NextTick(c.now), NextTick(c.now))
    ensures forall x: TimerId :: x in Bottom(c.list) && x < |c.list.timers| ==>
              (IsDue(c.list.timers[x].timeout, NextTick(c.now)) <==> c.list.timers[x].timeout == NextTick(c.now))
  {
    var s, next := c.list, NextTick(c.now);
    DueContents(Bottom(s), s.timers, c.now);
    forall i | 0 <= i < |s.rows| ensures RowOk(s.rows[i], s.timers, next) {
      RebaseRow(s, i, c.now);
    }
    assert RowOk(Bottom(s), s.timers, c.now);
  }

  lemma RebaseRow(s: State, i: nat, now: Tick)
    requires Linked(s, now) && i < |s.rows| && Due(Bottom(s), s.timers, now) == []
    ensures RowOk(s.rows[i], s.timers, NextTick(now))
  {
    var row := s.rows[i];
    assert RowOk(row, s.timers, now);
    DueContents(Bottom(s), s.timers, now);
    forall k | 0 <= k < |row| ensures Minus(s.timers[row[k]].timeout, NextTick(now)) < HALF {
      assert Minus(s.timers[row[k]].timeout, now) < HALF;
      assert row[k] in row;
      InBottom(s, i, row[k]);
    }
  }

  lemma {:induction false} InBottom(s: State, i: nat, x: TimerId)
    requires |s.rows| > 0 && i < |s.rows| && x in s.rows[i]
    requires forall i: nat :: i + 1 < |s.rows| ==> RowLink(s.rows, i)
    ensures x in Bottom(s)
    decreases |s.rows| - i
  {
    if i + 1 < |s.rows| {
      assert RowLink(s.rows, i);
      InBottom(s, i + 1, x);
    }
  }

  lemma StillNoneDue(row: seq<TimerId>, ts: seq<Timer>, r: seq<TimerId>, us: seq<Timer>, now: Tick)
    requires Below(row, |ts|) && Below(r, |us|) && |us| == |ts| && Due(row, ts, now) == []
    requires forall x: TimerId :: x in r && x < |us| ==> (x in row && ts[x].timeout == us[x].timeout) || !IsDue(us[x].timeout, now)
    ensures Due(r, us, now) == []
  {
    DueContents(row, ts, now);
    forall i | 0 <= i < |r| ensures !IsDue(us[r[i]].timeout, now) {
      assert r[i] in r;
    }
    NoneDue(r, us, now);
  }

  lemma StartedTimers(s: State, t: TimerId, now: Tick)
    requires InRange(s) && t < |s.timers|
    ensures forall x: TimerId :: x < |s.timers| ==> Started(s, t, now).timers[x].init == s.timers[x].init
    ensures forall x: TimerId :: x < |s.timers| && x != t ==> Started(s, t, now).timers[x] == s.timers[x]
    ensures Started(s, t, now).timers[t].timeout == Expiry(s.timers[t], now)
    ensures s.firing == [] ==> Started(s, t, now).firing == []
  {
  }

  lemma StartNoneDue(s: State, t: TimerId, now: Tick)
    requires InRange(s) && Distinct(Bottom(s)) && t < |s.timers| && Armable(s, now, now) && Due(Bottom(s), s.timers, now) == []
    ensures Due(Bottom(Started(s, t, now)), Started(s, t, now).timers, now) == []
  {
    var r := Started(s, t, now);
    ExpiryAhead(s.timers[t], now, now);
    StartedBottom(s, t, now);
    StartedTimers(s, t, now);
    StillNoneDue(Bottom(s), s.timers, Bottom(r), r.timers, now);
  }

  lemma StartLinked(c: Clock, t: TimerId)
    requires Sound(c) && t < |c.list.timers|
    ensures Linked(Started(c.list, t, c.now), c.now)
  {
    ExpiryAhead(c.list.timers[t], c.now, c.now);
    StartKeeps(c.list, t, c.now, c.now);
  }

  lemma StartRest(c: Clock, t: TimerId)
    requires Sound(c) && t < |c.list.timers|
    ensures Flags(Started(c.list, t, c.now))
    ensures Due(Bottom(Started(c.list, t, c.now)), Started(c.list, t, c.now).timers, c.now) == []
  {
    assert RowOk(Bottom(c.list), c.list.timers, c.now);
    StartFlags(c.list, t, c.now);
    StartNoneDue(c.list, t, c.now);
  }

  lemma StartArmable(s: State, t: TimerId, now: Tick)
    requires InRange(s) && t < |s.timers| && Armable(s, now, now) && s.firing == []
    ensures Armable(Started(s, t, now), now, now) && Started(s, t, now).firing == []
  {
    StartedTimers(s, t, now);
  }

  lemma StartSound(c: Clock, t: TimerId)
    requires Sound(c) && t < |c.list.timers|
    ensures Sound(Step(c, Start(t)))
  {
    StartLinked(c, t);
    StartRest(c, t);
    StartArmable(c.list, t, c.now);
  }

  lemma UnlinkedBottom(s: State, t: TimerId, flag: bool)
    requires InRange(s) && t < |s.timers|
    ensures forall x :: x in Bottom(Unlinked(s, t, flag)) ==> x in Bottom(s)
    ensures forall x: TimerId :: x < |s.timers| ==>
              var u := Unlinked(s, t, flag); u.timers[x].init == s.timers[x].init && u.timers[x].timeout == s.timers[x].timeout
    ensures s.firing == [] ==> Unlinked(s, t, flag).firing == []
  {
    RemoveContents(Bottom(s), t);
  }

  lemma StopSound(c: Clock, t: TimerId)
    requires Sound(c) && t < |c.list.timers|
    ensures Sound(Step(c, Stop(t)))
  {
    var s, now := c.list, c.now;
    var r := Unlinked(s, t, false);
    assert Distinct(Bottom(s)) by {
      assert RowOk(Bottom(s), s.timers, now);
    }
    assert Linked(r, now) by {
      UnlinkKeeps(s, t, false, now);
    }
    assert Flags(r) by {
      StopFlags(s, t, false);
    }
    UnlinkedBottom(s, t, false);
    StillNoneDue(Bottom(s), s.timers, Bottom(r), r.timers, now);
  }

  lemma AdvanceSound(c: Clock, scripts: seq<seq<Action>>)
    requires Sound(c) && |scripts| == |c.list.timers|
    ensures Sound(Step(c, Advance(scripts)))
  {
    var s, now := c.list, NextTick(c.now);
    Rebase(c);
    CheckKeeps(s, scripts, now, now);
    CheckedArmable(s, CheckFrom(s, scripts, now, Due(Bottom(s), s.timers, now)), scripts, now, Due(Bottom(s), s.timers, now));
  }

  /** A check leaves the times that the timers are set to. */
  lemma CheckedArmable(s: State, r: State, scripts: seq<seq<Action>>, now: Tick, todo: seq<TimerId>)
    requires Armable(s, now, now) && |r.timers| == |s.timers| == |scripts| && |s.rows| > 0 && |r.rows| > 0
    requires forall x: TimerId :: x < |s.timers| ==> Outcome(s, r, x, scripts[x], now, todo)
    ensures Armable(r, now, now)
  {
    forall x: TimerId | x < |r.timers| ensures r.timers[x].init == s.timers[x].init {
      assert Outcome(s, r, x, scripts[x], now, todo);
    }
  }

  lemma StepSound(c: Clock, op: Op)
    requires Sound(c) && Allowed(c, op)
    ensures Sound(Step(c, op))
  {
    match op
    case Start(t) => StartSound(c, t);
    case Stop(t) => StopSound(c, t);
    case Advance(scripts) => AdvanceSound(c, scripts);
  }

  ghost predicate Follows(c: Clock, op: Op, d: Clock) {
    InRange(c.list) && Allowed(c, op) && d == Step(c, op)
  }

  ghost predicate IsRun(cs: seq<Clock>, ops: seq<Op>) {
    && |cs| == |ops| + 1
    && (forall i, j :: 0 <= i < j < |cs| && j == i + 1 ==> Follows(cs[i], ops[i], cs[j]))
  }

  lemma FollowsSound(c: Clock, op: Op, d: Clock)
    requires Sound(c) && Follows(c, op, d)
    ensures Sound(d)
  {
    StepSound(c, op);
  }

  /** Over any run of starts, stops and ticks the list stays sound, however often the tick count wraps. */
  lemma {:induction false} RunKeeps(cs: seq<Clock>, ops: seq<Op>, i: nat)
    requires IsRun(cs, ops) && Sound(cs[0]) && i < |cs|
    ensures Sound(cs[i])
  {
    if i > 0 {
      RunKeeps(cs, ops, i - 1);
      FollowsSound(cs[i - 1], ops[i - 1], cs[i]);
    }
  }

  /** In a sound state the next tick fires exactly the timers whose timeout it is. */
  lemma FiresOnTime(c: Clock, x: TimerId)
    requires Sound(c) && x < |c.list.timers|
    ensures x in Due(Bottom(c.list), c.list.timers, NextTick(c.now)) <==>
            x in Bottom(c.list) && c.list.timers[x].timeout == NextTick(c.now)
  {
    Rebase(c);
    DueContents(Bottom(c.list), c.list.timers, NextTick(c.now));
  }

  // ---------------------------------------------------------------------------------------------
  // When a timer fires

  /** Timer `x` is pending and has `left` ticks to go. */
  ghost predicate Pending(c: Clock, x: TimerId, left: nat) {
    var pending :=
      x < |c.list.timers| && |c.list.rows| > 0 && x in Bottom(c.list) && Minus(c.list.timers[x].timeout, c.now) == left;
    pending
  }

  predicate Touches(op: Op, x: TimerId) {
    op == Start(x) || op == Stop(x)
  }

  /** How many ticks pass in the operations `i` to `k`. */
  function Ticks(ops: seq<Op>, i: nat, k: nat): nat
    requires i <= k <= |ops|
  {
    if k == i then 0 else Ticks(ops, i, k - 1) + (if ops[k - 1].Advance? then 1 else 0)
  }

  /** The timers that the tick of `op` fires. */
  function Fires(c: Clock, op: Op): seq<TimerId>
    requires InRange(c.list)
  {
    if op.Advance? then Due(Bottom(c.list), c.list.timers, NextTick(c.now)) else []
  }

  lemma PendingStart(c: Clock, x: TimerId)
    requires Sound(c) && x < |c.list.timers|
    ensures Pending(Step(c, Start(x)), x, c.list.timers[x].init)
  {
    ExpiryAhead(c.list.timers[x], c.now, c.now);
    assert RowOk(Bottom(c.list), c.list.timers, c.now);
    StartedBottom(c.list, x, c.now);
    StartedTimers(c.list, x, c.now);
  }

  lemma PendingOthers(c: Clock, op: Op, x: TimerId, left: nat)
    requires Sound(c) && Allowed(c, op) && Pending(c, x, left) && !Touches(op, x) && !op.Advance?
    ensures Pending(Step(c, op), x, left)
  {
    assert RowOk(Bottom(c.list), c.list.timers, c.now);
    match op
    case Start(t) =>
      StartedBottom(c.list, t, c.now);
      StartedTimers(c.list, t, c.now);
    case Stop(t) =>
      RemovedBottom(c.list, t);
    case Advance(_) =>
  }

  lemma PendingTick(c: Clock, scripts: seq<seq<Action>>, x: TimerId, left: nat)
    requires Sound(c) && Allowed(c, Advance(scripts)) && Pending(c, x, left) && left > 0
    ensures x in Fires(c, Advance(scripts)) <==> left == 1
    ensures left > 1 ==> Pending(Step(c, Advance(scripts)), x, left - 1)
  {
    var s, now := c.list, NextTick(c.now);
    FiresOnTime(c, x);
    Rebase(c);
    CheckKeeps(s, scripts, now, now);
    assert Outcome(s, Step(c, Advance(scripts)).list, x, scripts[x], now, Due(Bottom(s), s.timers, now));
  }

  /** A pending timer always has a tick to go. */
  lemma PendingAhead(c: Clock, x: TimerId, left: nat)
    requires Sound(c) && Pending(c, x, left)
    ensures left > 0
  {
    DueContents(Bottom(c.list), c.list.timers, c.now);
    assert x !in Due(Bottom(c.list), c.list.timers, c.now);
  }

  lemma PendingStep(c: Clock, op: Op, d: Clock, x: TimerId, left: nat)
    requires Sound(c) && Follows(c, op, d) && Pending(c, x, left) && !Touches(op, x)
    ensures left > 0 && (x in Fires(c, op) <==> op.Advance? && left == 1)
    ensures !op.Advance? ==> Pending(d, x, left)
    ensures op.Advance? && left > 1 ==> Pending(d, x, left - 1)
  {
    PendingAhead(c, x, left);
    if op.Advance? {
      PendingTick(c, op.scripts, x, left);
    } else {
      PendingOthers(c, op, x, left);
    }
  }

  /** Step `i` of the run sets `x` to `init` ticks, no other step before `k` starts or stops it, and `left` ticks are still to pass. */
  ghost predicate LeftAlone(cs: seq<Clock>, ops: seq<Op>, i: nat, k: nat, x: TimerId, init: Tick, left: nat) {
    var alone :=
      && IsRun(cs, ops) && Sound(cs[0]) && i < k < |cs|
      && ops[i] == Start(x) && x < |cs[i].list.timers| && cs[i].list.timers[x].init == init
      && (forall j :: i < j < k ==> !Touches(ops[j], x))
      && Ticks(ops, i + 1, k) + left == init;
    alone
  }

  lemma AloneStart(cs: seq<Clock>, ops: seq<Op>, i: nat, k: nat, x: TimerId, init: Tick, left: nat)
    requires LeftAlone(cs, ops, i, k, x, init, left) && k == i + 1
    ensures k < |cs| && Pending(cs[k], x, left)
  {
    RunKeeps(cs, ops, i);
    assert Follows(cs[i], ops[i], cs[k]);
    PendingStart(cs[i], x);
  }

  /** How many ticks were to go one step earlier. */
  function LeftBefore(op: Op, left: nat): nat {
    if op.Advance? then left + 1 else left
  }

  lemma AloneBefore(cs: seq<Clock>, ops: seq<Op>, i: nat, k: nat, x: TimerId, init: Tick, left: nat)
    requires LeftAlone(cs, ops, i, k, x, init, left) && i + 1 < k
    ensures k < |cs| == |ops| + 1 && LeftAlone(cs, ops, i, k - 1, x, init, LeftBefore(ops[k - 1], left))
  {
  }

  lemma AloneFollows(cs: seq<Clock>, ops: seq<Op>, i: nat, k: nat, x: TimerId, init: Tick, left: nat)
    requires LeftAlone(cs, ops, i, k, x, init, left) && i + 1 < k
    ensures k < |cs| == |ops| + 1 && Sound(cs[k - 1]) && Follows(cs[k - 1], ops[k - 1], cs[k]) && !Touches(ops[k - 1], x)
  {
    RunKeeps(cs, ops, k - 1);
  }

  lemma AloneStep(cs: seq<Clock>, ops: seq<Op>, i: nat, k: nat, x: TimerId, init: Tick, left: nat)
    requires LeftAlone(cs, ops, i, k, x, init, left) && i + 1 < k < |cs| == |ops| + 1
    requires Pending(cs[k - 1], x, LeftBefore(ops[k - 1], left))
    ensures left > 0 ==> Pending(cs[k], x, left)
    ensures InRange(cs[k - 1].list) && (x in Fires(cs[k - 1], ops[k - 1]) <==> ops[k - 1].Advance? && left == 0)
  {
    AloneFollows(cs, ops, i, k, x, init, left);
    PendingStep(cs[k - 1], ops[k - 1], cs[k], x, LeftBefore(ops[k - 1], left));
  }

  /** As long as fewer ticks have passed than the timer was set to, it is pending with the rest of its time to go. */
  lemma {:induction false} StaysPending(cs: seq<Clock>, ops: seq<Op>, i: nat, k: nat, x: TimerId, init: Tick, left: nat)
    requires LeftAlone(cs, ops, i, k, x, init, left) && left > 0
    ensures k < |cs| && Pending(cs[k], x, left)
    decreases k
  {
    if k == i + 1 {
      AloneStart(cs, ops, i, k, x, init, left);
    } else {
      AloneBefore(cs, ops, i, k, x, init, left);
      StaysPending(cs, ops, i, k - 1, x, init, LeftBefore(ops[k - 1], left));
      AloneStep(cs, ops, i, k, x, init, left);
    }
  }

  /**
    Over any run a timer that is started and then left alone fires in the tick that is as many ticks after its start
    as it was set to, and in none before, whatever other timers do and however often the tick count wraps.
   */
  lemma FiresWhenDue(cs: seq<Clock>, ops: seq<Op>, i: nat, k: nat, x: TimerId, init: Tick, left: nat)
    requires i + 1 < k < |cs| == |ops| + 1 && LeftAlone(cs, ops, i, k, x, init, left) && ops[k - 1].Advance?
    ensures InRange(cs[k - 1].list) && (x in Fires(cs[k - 1], ops[k - 1]) <==> left == 0)
  {
    AloneBefore(cs, ops, i, k, x, init, left);
    StaysPending(cs, ops, i, k - 1, x, init, left + 1);
    AloneStep(cs, ops, i, k, x, init, left);
  }

  /** A stopped timer is on no list, and nothing else has changed. */
  lemma StopEffect(c: Clock, t: TimerId, i: nat, x: TimerId)
    requires Sound(c) && t < |c.list.timers| && i < |c.list.rows| && x < |c.list.timers|
    ensures var s, r := c.list, Step(c, Stop(t)).list;
      && Step(c, Stop(t)).now == c.now && |r.rows| == |s.rows| && r.firing == [] && r.starts == s.starts
      && (x in r.rows[i] <==> x in s.rows[i] && x != t)
      && r.timers == s.timers[t := s.timers[t].(activated := false)]
  {
    var s := c.list;
    assert RowOk(s.rows[i], s.timers, c.now);
    RemoveContents(s.rows[i], t);
    if t in s.rows[i] {
      InBottom(s, i, t);
    }
  }

  /** Step `i` of the run stops `x`, and no other step before step `k` starts it again. */
  ghost predicate StoppedSince(cs: seq<Clock>, ops: seq<Op>, i: nat, k: nat, x: TimerId) {
    var stopped :=
      && IsRun(cs, ops) && Sound(cs[0]) && i < k < |cs|
      && ops[i] == Stop(x) && x < |cs[i].list.timers|
      && (forall j :: i < j < k ==> ops[j] != Start(x));
    stopped
  }

  ghost predicate OffList(c: Clock, x: TimerId) {
    x < |c.list.timers| && |c.list.rows| > 0 && x !in Bottom(c.list)
  }

  /**
    A timer that has fired is pending again with all of its time to go when its callback restarted it last, or when it is
    periodic and its callback left it alone. Otherwise it is off the list.
   */
  lemma FiredAgain(c: Clock, scripts: seq<seq<Action>>, x: TimerId)
    requires Sound(c) && |scripts| == |c.list.timers| && x < |c.list.timers| && x in Fires(c, Advance(scripts))
    ensures var d, timer, script := Step(c, Advance(scripts)), c.list.timers[x], scripts[x];
      if (script == [] && timer.periodic) || (script != [] && script[|script| - 1] == StartIt)
      then Pending(d, x, timer.init) else OffList(d, x)
  {
    var s, now := c.list, NextTick(c.now);
    Rebase(c);
    CheckKeeps(s, scripts, now, now);
    ExpiryAhead(s.timers[x], now, now);
    assert Outcome(s, Step(c, Advance(scripts)).list, x, scripts[x], now, Due(Bottom(s), s.timers, now));
  }

  lemma StopsStep(c: Clock, op: Op, d: Clock, x: TimerId)
    requires Sound(c) && Follows(c, op, d) && OffList(c, x) && op != Start(x)
    ensures OffList(d, x) && x !in Fires(c, op)
  {
    assert RowOk(Bottom(c.list), c.list.timers, c.now);
    match op
    case Start(t) =>
      StartedBottom(c.list, t, c.now);
    case Stop(t) =>
      RemovedBottom(c.list, t);
    case Advance(scripts) =>
      var s, now := c.list, NextTick(c.now);
      Rebase(c);
      CheckKeeps(s, scripts, now, now);
      DueContents(Bottom(s), s.timers, now);
      assert Outcome(s, d.list, x, scripts[x], now, Due(Bottom(s), s.timers, now));
  }

  lemma StopsOff(c: Clock, d: Clock, x: TimerId)
    requires Sound(c) && Follows(c, Stop(x), d) && x < |c.list.timers|
    ensures OffList(d, x)
  {
    StopEffect(c, x, |c.list.rows| - 1, x);
  }

  lemma StoppedFirst(cs: seq<Clock>, ops: seq<Op>, i: nat, k: nat, x: TimerId)
    requires StoppedSince(cs, ops, i, k, x) && k == i + 1
    ensures k < |cs| && OffList(cs[k], x)
  {
    RunKeeps(cs, ops, i);
    assert Follows(cs[i], ops[i], cs[k]);
    StopsOff(cs[i], cs[k], x);
  }

  lemma StoppedBefore(cs: seq<Clock>, ops: seq<Op>, i: nat, k: nat, x: TimerId)
    requires StoppedSince(cs, ops, i, k, x) && k > i + 1
    ensures k < |cs| == |ops| + 1 && StoppedSince(cs, ops, i, k - 1, x)
  {
  }

  lemma StoppedFollows(cs: seq<Clock>, ops: seq<Op>, i: nat, k: nat, x: TimerId)
    requires StoppedSince(cs, ops, i, k, x) && k > i + 1
    ensures k < |cs| == |ops| + 1 && Sound(cs[k - 1]) && Follows(cs[k - 1], ops[k - 1], cs[k]) && ops[k - 1] != Start(x)
  {
    RunKeeps(cs, ops, k - 1);
  }

  lemma StoppedNext(cs: seq<Clock>, ops: seq<Op>, i: nat, k: nat, x: TimerId)
    requires StoppedSince(cs, ops, i, k, x) && i + 1 < k < |cs| == |ops| + 1 && OffList(cs[k - 1], x)
    ensures OffList(cs[k], x) && InRange(cs[k - 1].list) && x !in Fires(cs[k - 1], ops[k - 1])
  {
    StoppedFollows(cs, ops, i, k, x);
    StopsStep(cs[k - 1], ops[k - 1], cs[k], x);
  }

  /** Over any run a stopped timer is off the list until it is started again. */
  lemma {:induction false} StaysStopped(cs: seq<Clock>, ops: seq<Op>, i: nat, k: nat, x: TimerId)
    requires StoppedSince(cs, ops, i, k, x)
    ensures k < |cs| && OffList(cs[k], x)
    decreases k
  {
    if k == i + 1 {
      StoppedFirst(cs, ops, i, k, x);
    } else {
      StoppedBefore(cs, ops, i, k, x);
      StaysStopped(cs, ops, i, k - 1, x);
      StoppedNext(cs, ops, i, k, x);
    }
  }

  /** So it never fires before. */
  lemma NeverFiresStopped(cs: seq<Clock>, ops: seq<Op>, i: nat, k: nat, x: TimerId)
    requires StoppedSince(cs, ops, i, k, x) && i + 1 < k
    ensures k < |cs| == |ops| + 1 && InRange(cs[k - 1].list) && x !in Fires(cs[k - 1], ops[k - 1])
  {
    StoppedBefore(cs, ops, i, k, x);
    StaysStopped(cs, ops, i, k - 1, x);
    StoppedNext(cs, ops, i, k, x);
  }

  // ---------------------------------------------------------------------------------------------
  // The operations as the source performs them

  lemma DescentPlace(s: State, limit: Tick, base: Tick, i: nat, k: nat)
    requires Linked(s, base) && Minus(limit, base) < HALF && i + 1 < |s.rows| && 0 < k <= Scan(s.rows[i], s.timers, limit)
    ensures s.rows[i][k - 1] in s.rows[i + 1]
    ensures IndexOf(s.rows[i + 1], s.rows[i][k - 1]) < Scan(s.rows[i + 1], s.timers, limit)
  {
    assert RowLink(s.rows, i) && RowOk(s.rows[i], s.timers, base) && RowOk(s.rows[i + 1], s.timers, base);
    assert s.rows[i][k - 1] in s.rows[i];
    ScansAgree(s.rows[i], s.rows[i + 1], s.timers, limit, base, k - 1);
  }

  class TimerQueue {
    var timers: seq<Timer>
    var rows: seq<seq<TimerId>>
    var firing: seq<TimerId>
    var starts: nat
    var randomNr: nat
    var tick: Tick

    ghost predicate Valid()
      reads this
    {
      InRange(Now()) && randomNr == starts % TICKS
    }

    ghost function Now(): State
      reads this`timers, this`rows, this`firing, this`starts
    {
      State(timers, rows, firing, starts)
    }

    constructor (inits: seq<Timer>, levels: nat)
      requires 0 < levels
      requires forall t :: 0 <= t < |inits| ==> !inits[t].activated && inits[t].stamp == 0
      ensures Valid() && timers == inits && |rows| == levels
      ensures forall base: Tick :: Linked(Now(), base)
      ensures Flags(Now()) && firing == [] && Bottom(Now()) == []
    {
      timers := inits;
      rows := seq(levels, i => []);
      firing, starts, randomNr, tick := [], 0, 0, 0;
      new;
      forall base: Tick ensures Linked(Now(), base) {
        forall i | 0 <= i < |rows| ensures RowOk(rows[i], timers, base) {
        }
        forall i: nat | i + 1 < |rows| ensures RowLink(rows, i) {
        }
      }
    }

    /** `_timer_remove` */
    method RemoveTimer(t: TimerId)
      requires Valid() && t < |timers|
      modifies this`rows, this`firing
      ensures rows == UnlinkRows(old(rows), t) && firing == Remove(old(firing), t)
    {
      var i := 0;
      while i < |rows|
        invariant 0 <= i <= |rows| == |old(rows)|
        invariant forall j :: 0 <= j < i ==> rows[j] == Remove(old(rows)[j], t)
        invariant forall j :: i <= j < |rows| ==> rows[j] == old(rows)[j]
        modifies this`rows
      {
        rows := rows[i := Remove(rows[i], t)];
        i := i + 1;
      }
      firing := Remove(firing, t);
      assert rows == UnlinkRows(old(rows), t);
    }

    /** The nested search of `rt_timer_start`: each row is entered where the sparser row above was left. */
    method FindPlaces(limit: Tick, ghost base: Tick) returns (heads: seq<nat>)
      requires Valid() && Linked(Now(), base) && Minus(limit, base) < HALF
      ensures |heads| == |rows| && forall i :: 0 <= i < |rows| ==> heads[i] == Scan(rows[i], timers, limit)
    {
      heads := [];
      var head: nat := 0;
      var lvl := 0;
      while lvl < |rows|
        invariant 0 <= lvl <= |rows| && |heads| == lvl
        invariant forall i :: 0 <= i < lvl ==> heads[i] == Scan(rows[i], timers, limit)
        invariant lvl < |rows| ==> head <= Scan(rows[lvl], timers, limit)
      {
        while head != |rows[lvl]|
          invariant head <= Scan(rows[lvl], timers, limit)
          decreases |rows[lvl]| - head
        {
          var ahead := Minus(timers[rows[lvl][head]].timeout, limit);
          if ahead != 0 && ahead < HALF {
            break;
          }
          head := head + 1;
        }
        heads := heads + [head];
        if lvl != |rows| - 1 && head != 0 {
          DescentPlace(Now(), limit, base, lvl, head);
          head := IndexOf(rows[lvl + 1], rows[lvl][head - 1]) + 1;
        }
        lvl := lvl + 1;
      }
    }

    /** Links the timer into the bottom row and, as the counter decides, into rows above it. */
    method Link(t: TimerId, heads: seq<nat>)
      requires |rows| > 0 && randomNr == starts % TICKS
      requires |heads| == |rows| && forall i :: 0 <= i < |rows| ==> heads[i] <= |rows[i]|
      modifies this`rows, this`starts, this`randomNr
      ensures starts == old(starts) + 1 && randomNr == starts % TICKS && |rows| == |old(rows)|
      ensures forall i :: 0 <= i < |rows| ==>
                rows[i] == if TopRow(starts, |rows|) <= i then InsertAt(old(rows)[i], heads[i], t) else old(rows)[i]
    {
      starts := starts + 1;
      randomNr := (randomNr + 1) % TICKS;
      var nr := randomNr;
      var n := |rows|;
      rows := rows[n - 1 := InsertAt(rows[n - 1], heads[n - 1], t)];
      var lvl := 2;
      while lvl <= n
        invariant 2 <= lvl <= n + 1 && |rows| == n
        invariant Extra(randomNr, n - 1) == lvl - 2 + Extra(nr, n + 1 - lvl)
        invariant forall i :: n - lvl < i < n ==> rows[i] == InsertAt(old(rows)[i], heads[i], t)
        invariant forall i :: 0 <= i <= n - lvl ==> rows[i] == old(rows)[i]
        modifies this`rows
      {
        if nr % 4 != 0 {
          break;
        }
        rows := rows[n - lvl := InsertAt(rows[n - lvl], heads[n - lvl], t)];
        nr := nr / 4;
        lvl := lvl + 1;
      }
    }

    /** `rt_timer_start` */
    method Start(t: TimerId, ghost base: Tick)
      requires Valid() && t < |timers| && Linked(Now(), base) && Minus(Expiry(timers[t], tick), base) < HALF
      modifies this`timers, this`rows, this`firing, this`starts, this`randomNr
      ensures Valid() && Now() == Started(old(Now()), t, tick)
    {
      ghost var s := Now();
      UnlinkKeeps(s, t, false, base);
      RemoveTimer(t);
      timers := timers[t := timers[t].(activated := false)];
      ghost var u := Now();
      assert u == Unlinked(s, t, false);
      var limit := Expiry(timers[t], tick);
      var heads := FindPlaces(limit, base);
      Link(t, heads);
      timers := timers[t := timers[t].(timeout := limit, activated := true, stamp := starts)];
      LinkedIsStarted(s, t, tick, Now(), heads);
    }

    /** `rt_timer_stop` */
    method Stop(t: TimerId) returns (ok: bool)
      requires Valid() && t < |timers|
      modifies this`timers, this`rows, this`firing
      ensures ok == old(timers)[t].activated
      ensures Valid() && Now() == Stopped(old(Now()), t)
    {
      if !timers[t].activated {
        return false;
      }
      UnlinkedInRange(Now(), t, false);
      RemoveTimer(t);
      timers := timers[t := timers[t].(activated := false)];
      return true;
    }

    method Perform(t: TimerId, a: Action, ghost base: Tick)
      requires Valid() && t < |timers| && Linked(Now(), base) && Minus(Expiry(timers[t], tick), base) < HALF
      modifies this`timers, this`rows, this`firing, this`starts, this`randomNr
      ensures Valid() && Now() == Act(old(Now()), t, a, tick)
    {
      match a {
        case StopIt => var _ := Stop(t);
        case StartIt => Start(t, base);
      }
    }

    /** A callback that stops or restarts its own timer. */
    method Callback(t: TimerId, script: seq<Action>, ghost base: Tick)
      requires Valid() && t < |timers| && Linked(Now(), base) && Minus(Expiry(timers[t], tick), base) < HALF
      requires InPhase(Now(), t, Waiting, Expiry(timers[t], tick))
      modifies this`timers, this`rows, this`firing, this`starts, this`randomNr
      ensures Valid() && Now() == Play(old(Now()), t, script, tick)
    {
      ghost var s := Now();
      var i := 0;
      while i < |script|
        invariant 0 <= i <= |script| && Valid()
        invariant Now() == Play(s, t, script[..i], tick)
      {
        ghost var most := script[..i];
        PlayKeeps(s, t, most, tick, base);
        assert script[..i + 1][..i] == most && script[..i + 1][i] == script[i];
        assert Expiry(timers[t], tick) == Expiry(s.timers[t], tick);
        Perform(t, script[i], base);
        i := i + 1;
      }
      assert script[..|script|] == script;
    }

    /** The part of a round before the callback. */
    method Lift(t: TimerId)
      requires Valid() && t < |timers|
      modifies this`timers, this`rows, this`firing
      ensures Valid() && Now() == Lifted(old(Now()), t)
    {
      UnlinkedInRange(Now(), t, timers[t].activated && timers[t].periodic);
      RemoveTimer(t);
      if !timers[t].periodic {
        timers := timers[t := timers[t].(activated := false)];
      }
      firing := [t] + firing;
    }

    /** The part of a round after the callback. */
    method Lower(t: TimerId, ghost base: Tick)
      requires Valid() && t < |timers| && Linked(Now(), base) && Minus(Expiry(timers[t], tick), base) < HALF
      modifies this`timers, this`rows, this`firing, this`starts, this`randomNr
      ensures Valid() && Now() == Lowered(old(Now()), t, tick)
    {
      RemoveInRange(firing, |timers|, t);
      if firing == [] {
        return;
      }
      firing := Remove(firing, t);
      if timers[t].periodic && timers[t].activated {
        StartAgain(Now(), t, tick);
        FlagKeeps(Now(), t, false, base);
        timers := timers[t := timers[t].(activated := false)];
        Start(t, base);
      }
    }

    /** One round of the loop of `rt_timer_check`. */
    method FireHead(t: TimerId, script: seq<Action>, ghost base: Tick)
      requires Valid() && Checkable(Now(), tick, base) && t < |timers| && t in Bottom(Now())
      modifies this`timers, this`rows, this`firing, this`starts, this`randomNr
      ensures Valid() && Now() == Fire(old(Now()), t, script, tick)
    {
      ghost var limit := Expiry(timers[t], tick);
      ExpiryAhead(timers[t], tick, base);
      LiftKeeps(Now(), t, limit, base);
      Lift(t);
      assert Expiry(timers[t], tick) == limit;
      PlayKeeps(Now(), t, script, tick, base);
      Callback(t, script, base);
      assert Expiry(timers[t], tick) == limit;
      Lower(t, base);
    }

    /** The loop body of `rt_timer_check`; `more` is false where it breaks out. */
    method Round(scripts: seq<seq<Action>>, ghost base: Tick, ghost fired: seq<TimerId>,
                 ghost all: seq<TimerId>, ghost goal: State) returns (more: bool, t: TimerId)
      requires Valid() && Midway(Now(), scripts, tick, base, fired, all, goal) && Bottom(Now()) != []
      modifies this`timers, this`rows, this`firing, this`starts, this`randomNr
      ensures Valid() && Midway(Now(), scripts, tick, base, if more then fired + [t] else fired, all, goal)
      ensures more ==> |fired| < |all|
      ensures !more ==> fired == all && Now() == goal
    {
      t := rows[|rows| - 1][0];
      assert t in rows[|rows| - 1];
      ghost var m := Now();
      ghost var n := MidwayStep(m, scripts, tick, base, fired, all, goal);
      more := Minus(tick, timers[t].timeout) < HALF;
      if more {
        FireHead(t, scripts[t], base);
        assert Now() == n;
      }
    }

    /** `rt_timer_check` at tick `tick`; `fired` lists the callbacks it ran. */
    method Check(scripts: seq<seq<Action>>, ghost base: Tick) returns (fired: seq<TimerId>)
      requires Valid() && Checkable(Now(), tick, base) && |scripts| == |timers|
      modifies this`timers, this`rows, this`firing, this`starts, this`randomNr
      ensures Valid() && fired == DueOf(old(Now()), tick)
      ensures Now() == CheckFrom(old(Now()), scripts, tick, fired)
    {
      ghost var all, goal := DueOf(Now(), tick), Checked(Now(), scripts, tick);
      fired := [];
      MidwayStart(Now(), scripts, tick, base);
      while rows[|rows| - 1] != []
        invariant Valid() && Midway(Now(), scripts, tick, base, fired, all, goal)
        decreases |all| - |fired|
      {
        var more, t := Round(scripts, base, fired, all, goal);
        if !more {
          return;
        }
        fired := fired + [t];
      }
      MidwayEnd(Now(), scripts, tick, base, fired, all, goal);
    }

    /** `_timer_list_next_timeout`: no pending timer expires before the reported tick. */
    method NextTimeout(ghost base: Tick) returns (next: Option<Tick>)
      requires Valid() && Linked(Now(), base)
      ensures next.None? <==> Bottom(Now()) == []
      ensures next.Some? ==> (exists t: TimerId :: t < |timers| && t in Bottom(Now()) && timers[t].timeout == next.value)
      ensures next.Some? ==> forall t: TimerId :: t < |timers| && t in Bottom(Now()) ==> Minus(next.value, base) <= Minus(timers[t].timeout, base)
    {
      var row := rows[|rows| - 1];
      if row == [] {
        return None;
      }
      assert RowOk(Bottom(Now()), timers, base);
      forall i | 0 <= i < |row| ensures Minus(timers[row[0]].timeout, base) <= Minus(timers[row[i]].timeout, base) {
        if i > 0 {
          assert Before(timers[row[0]], timers[row[i]]);
          LaterIsDistance(timers[row[i]].timeout, timers[row[0]].timeout, base);
        }
      }
      return Some(timers[row[0]].timeout);
    }
  }

  /** Linking at the scanned places is what `Started` says. */
  lemma LinkedIsStarted(s: State, t: TimerId, now: Tick, r: State, heads: seq<nat>)
    requires InRange(s) && t < |s.timers| && |heads| == |s.rows| == |r.rows|
    requires InRange(Unlinked(s, t, false))
    requires var u := Unlinked(s, t, false);
             && r.firing == u.firing && r.starts == s.starts + 1
             && r.timers == Rearm(u.timers, t, Expiry(s.timers[t], now), r.starts)
             && (forall i :: 0 <= i < |r.rows| ==> heads[i] == Scan(u.rows[i], u.timers, Expiry(s.timers[t], now)))
             && (forall i :: 0 <= i < |r.rows| ==>
                   r.rows[i] == if TopRow(r.starts, |r.rows|) <= i then InsertAt(u.rows[i], heads[i], t) else u.rows[i])
    ensures r == Started(s, t, now)
  {
    var q := Started(s, t, now);
    forall i | 0 <= i < |r.rows| ensures r.rows[i] == q.rows[i] {
    }
    assert r.rows == q.rows;
  }

  lemma FlagKeeps(v: State, t: TimerId, flag: bool, base: Tick)
    requires Linked(v, base) && t < |v.timers|
    ensures Linked(v.(timers := v.timers[t := v.timers[t].(activated := flag)]), base)
  {
    var x := v.(timers := v.timers[t := v.timers[t].(activated := flag)]);
    forall i | 0 <= i < |v.rows| ensures RowOk(x.rows[i], x.timers, base) {
      assert RowOk(v.rows[i], v.timers, base);
      var row := v.rows[i];
      forall j, k | 0 <= j < k < |row| ensures Before(x.timers[row[j]], x.timers[row[k]]) {
        assert Before(v.timers[row[j]], v.timers[row[k]]);
      }
    }
  }

  /** Clearing the flag before the restart makes no difference. */
  lemma StartAgain(w: State, t: TimerId, now: Tick)
    requires InRange(w) && t < |w.timers|
    ensures var x := w.(timers := w.timers[t := w.timers[t].(activated := false)]);
            InRange(x) && Started(x, t, now) == Started(w, t, now)
  {
    var x := w.(timers := w.timers[t := w.timers[t].(activated := false)]);
    assert Unlinked(x, t, false) == Unlinked(w, t, false);
  }

  function DueOf(s: State, now: Tick): seq<TimerId>
    requires InRange(s)
  {
    Due(Bottom(s), s.timers, now)
  }

  function Checked(s: State, scripts: seq<seq<Action>>, now: Tick): State
    requires InRange(s) && |scripts| == |s.timers|
  {
    CheckFrom(s, scripts, now, DueOf(s, now))
  }

  /** The head of the bottom row tells whether a round is due, and the round brings the check one timer further. */
  lemma RoundKeeps(m: State, scripts: seq<seq<Action>>, now: Tick, base: Tick) returns (n: State)
    requires Checkable(m, now, base) && |scripts| == |m.timers|
    ensures DueOf(m, now) == [] <==> Bottom(m) == [] || !IsDue(m.timers[Bottom(m)[0]].timeout, now)
    ensures Checkable(n, now, base) && |scripts| == |n.timers|
    ensures DueOf(m, now) != [] ==>
              && n == Fire(m, Bottom(m)[0], scripts[Bottom(m)[0]], now)
              && DueOf(m, now) == [Bottom(m)[0]] + DueOf(n, now)
    ensures Checked(m, scripts, now) == Checked(n, scripts, now)
  {
    n := m;
    assert RowOk(Bottom(m), m.timers, base);
    DueHead(Bottom(m), m.timers, now, base);
    if DueOf(m, now) != [] {
      var t := Bottom(m)[0];
      n := Fire(m, t, scripts[t], now);
      FireKeeps(m, t, scripts[t], now, base);
      FiredFlags(m, n, t, scripts[t], now);
      FiredDue(m, n, t, scripts[t], now, base);
      ArmableAfter(m, n, t, scripts[t], now, base);
    }
  }

  /** The check has fired `fired` out of `all`, and will end in `goal` when it has fired the rest. */
  ghost predicate Midway(s: State, scripts: seq<seq<Action>>, now: Tick, base: Tick,
                         fired: seq<TimerId>, all: seq<TimerId>, goal: State)
  {
    var good :=
      && Checkable(s, now, base) && |scripts| == |s.timers|
      && all == fired + DueOf(s, now)
      && goal == Checked(s, scripts, now);
    good
  }

  lemma MidwayStart(s: State, scripts: seq<seq<Action>>, now: Tick, base: Tick)
    requires Checkable(s, now, base) && |scripts| == |s.timers|
    ensures Midway(s, scripts, now, base, [], DueOf(s, now), Checked(s, scripts, now))
  {
    assert [] + DueOf(s, now) == DueOf(s, now);
  }

  lemma MidwayEnd(s: State, scripts: seq<seq<Action>>, now: Tick, base: Tick,
                  fired: seq<TimerId>, all: seq<TimerId>, goal: State)
    requires Midway(s, scripts, now, base, fired, all, goal) && |s.rows| > 0 && Bottom(s) == []
    ensures fired == all && s == goal
  {
    assert fired + [] == fired;
  }

  lemma MidwayStep(m: State, scripts: seq<seq<Action>>, now: Tick, base: Tick,
                   fired: seq<TimerId>, all: seq<TimerId>, goal: State) returns (n: State)
    requires Midway(m, scripts, now, base, fired, all, goal) && |m.rows| > 0 && Bottom(m) != []
    ensures var t := Bottom(m)[0];
            && t < |m.timers| == |scripts| && Checkable(m, now, base)
            && (IsDue(m.timers[t].timeout, now) ==>
                  && n == Fire(m, t, scripts[t], now) && |fired| < |all|
                  && Midway(n, scripts, now, base, fired + [t], all, goal))
            && (!IsDue(m.timers[t].timeout, now) ==> fired == all && m == goal)
  {
    n := RoundKeeps(m, scripts, now, base);
    var t := Bottom(m)[0];
    if IsDue(m.timers[t].timeout, now) {
      assert fired + ([t] + DueOf(n, now)) == (fired + [t]) + DueOf(n, now);
    } else {
      assert fired + [] == fired;
    }
  }
}
