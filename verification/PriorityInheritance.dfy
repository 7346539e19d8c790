/**
  Non-ceiling mutexes with transitive priority inheritance
  (rt-thread/src/ipc.c, with the priority change of thread.c).

  Threads and mutexes live in two tables; a pointer is an index into its table.
  A smaller priority number is more urgent.  The functions of this module are the
  specification of one critical section each; `MutexKernel` at the end performs the
  same critical sections in place, with the loops and the recursion of the source.
*/
module PriorityInheritance {
  import opened Common

  const NO_PRIORITY: nat := 0xff
  const HOLD_MAX: nat := 0xff
  const PRIORITY_MAX: nat := 32

  type ThreadId = nat
  type MutexId = nat

  datatype Stat = Init | Ready | Running | Suspend | Close
  datatype Error = EOk | ETimeout | EError

  datatype Thread = Thread(
    initPriority: nat,
    currentPriority: nat,
    stat: Stat,
    error: Error,
    pending: Option<MutexId>,
    taken: seq<MutexId>)

  datatype Mutex = Mutex(
    owner: Option<ThreadId>,
    hold: nat,
    priority: nat,
    waiters: seq<ThreadId>)

  datatype State = State(threads: seq<Thread>, mutexes: seq<Mutex>)

  /** What a call reports to its caller; `Blocked` means the caller was suspended. */
  datatype Outcome = Ok | Full | TimedOut | NotOwner | Blocked

  // ------------------------------------------------------------------ invariant

  ghost predicate IsThread(s: State, t: ThreadId) { t < |s.threads| }

  ghost predicate IsMutex(s: State, m: MutexId) { m < |s.mutexes| }

  /** `t` is suspended in the wait queue of `m`. */
  ghost predicate WaitsFor(s: State, t: ThreadId, m: MutexId) {
    t < |s.threads| && s.threads[t].stat == Suspend && s.threads[t].pending == Some(m)
  }

  ghost predicate ThreadShape(s: State, t: ThreadId)
    requires IsThread(s, t)
  {
    var th := s.threads[t];
    && th.initPriority <= NO_PRIORITY
    && Distinct(th.taken)
    && (forall m :: m in th.taken ==> m < |s.mutexes| && s.mutexes[m].owner == Some(t))
    && (th.pending.Some? ==> th.stat == Suspend || th.stat == Close)
    && (th.stat == Suspend && th.pending.Some? ==>
          && th.pending.value < |s.mutexes|
          && t in s.mutexes[th.pending.value].waiters)
  }

  ghost predicate MutexShape(s: State, m: MutexId)
    requires IsMutex(s, m)
  {
    var mx := s.mutexes[m];
    && Distinct(mx.waiters)
    && (forall t :: t in mx.waiters ==> WaitsFor(s, t, m) && mx.owner != Some(t))
    && mx.hold <= HOLD_MAX
    && (mx.owner.Some? ==>
          && mx.owner.value < |s.threads|
          && m in s.threads[mx.owner.value].taken
          && mx.hold > 0)
    && (mx.owner.None? ==> mx.waiters == [] && mx.hold == 0)
  }

  ghost predicate Shape(s: State) {
    && (forall t: ThreadId :: IsThread(s, t) ==> ThreadShape(s, t))
    && (forall m: MutexId :: IsMutex(s, m) ==> MutexShape(s, m))
  }

  /** The queue holds threads and is sorted by current priority, and the mutex
      caches the priority of its head. */
  ghost predicate QueueOk(s: State, m: MutexId)
    requires IsMutex(s, m)
  {
    var q := s.mutexes[m].waiters;
    && Below(q, |s.threads|)
    && (forall i, j :: 0 <= i < j < |q| ==>
          s.threads[q[i]].currentPriority <= s.threads[q[j]].currentPriority)
    && s.mutexes[m].priority == HeadPriority(s.threads, q)
  }

  /** The current priority is the minimum of the initial one and of the taken mutexes. */
  ghost predicate GoalOk(s: State, t: ThreadId)
    requires IsThread(s, t)
  {
    && TakenBelow(s, t)
    && s.threads[t].currentPriority == Goal(s, t)
  }

  ghost predicate TakenBelow(s: State, t: ThreadId)
    requires IsThread(s, t)
  {
    Below(s.threads[t].taken, |s.mutexes|)
  }

  /** The inheritance fixpoint, everywhere except possibly at `hole`. */
  ghost predicate InvExcept(s: State, hole: Option<ThreadId>) {
    && Shape(s)
    && (forall m: MutexId :: IsMutex(s, m) ==> QueueOk(s, m))
    && (forall t: ThreadId :: IsThread(s, t) && Some(t) != hole ==> GoalOk(s, t))
  }

  ghost predicate Inv(s: State) {
    var inv := InvExcept(s, None);
    inv
  }

  // ------------------------------------------------------------- computed values

  /** What `_mutex_update_priority` stores: the head waiter's priority, 0xff if none. */
  function HeadPriority(threads: seq<Thread>, waiters: seq<ThreadId>): nat
    requires Below(waiters, |threads|)
  {
    if waiters == [] then NO_PRIORITY else threads[waiters[0]].currentPriority
  }

  /** The least of `acc` and the priorities of the listed mutexes. */
  function LeastPriority(mutexes: seq<Mutex>, taken: seq<MutexId>, acc: nat): (r: nat)
    requires Below(taken, |mutexes|)
    ensures r <= acc
    ensures forall i :: 0 <= i < |taken| ==> r <= mutexes[taken[i]].priority
    ensures r == acc || exists i :: 0 <= i < |taken| && r == mutexes[taken[i]].priority
  {
    if taken == [] then acc
    else
      assert forall i :: 0 <= i < |taken| - 1 ==> taken[1..][i] == taken[i + 1];
      LeastPriority(mutexes, taken[1..], Min(acc, mutexes[taken[0]].priority))
  }

  function Goal(s: State, t: ThreadId): nat
    requires IsThread(s, t) && TakenBelow(s, t)
  {
    LeastPriority(s.mutexes, s.threads[t].taken, s.threads[t].initPriority)
  }

  /** Where a thread of priority `p` is queued: before the first strictly less urgent one. */
  function QueuePosition(threads: seq<Thread>, waiters: seq<ThreadId>, p: nat): (i: nat)
    requires Below(waiters, |threads|)
    ensures i <= |waiters|
    ensures forall k :: 0 <= k < i ==> threads[waiters[k]].currentPriority <= p
    ensures i < |waiters| ==> p < threads[waiters[i]].currentPriority
  {
    if waiters == [] || p < threads[waiters[0]].currentPriority then 0
    else
      assert forall k :: 0 <= k < |waiters| - 1 ==> waiters[1..][k] == waiters[k + 1];
      1 + QueuePosition(threads, waiters[1..], p)
  }

  function Enqueued(threads: seq<Thread>, waiters: seq<ThreadId>, t: ThreadId): (q: seq<ThreadId>)
    requires t < |threads|
    requires Below(waiters, |threads|)
    ensures |q| == |waiters| + 1 && Below(q, |threads|)
  {
    InsertAt(waiters, QueuePosition(threads, waiters, threads[t].currentPriority), t)
  }

  // -------------------------------------------------- the recursive priority update

  function SetCurrent(s: State, t: ThreadId, p: nat): State
    requires IsThread(s, t)
  {
    s.(threads := s.threads[t := s.threads[t].(currentPriority := p)])
  }

  function SetQueue(s: State, m: MutexId, waiters: seq<ThreadId>, p: nat): State
    requires IsMutex(s, m)
  {
    s.(mutexes := s.mutexes[m := s.mutexes[m].(waiters := waiters, priority := p)])
  }

  /** The wait queue of `m` once its waiter `t` was unlinked and queued again at priority `p`. */
  function Requeued(s: State, t: ThreadId, p: nat, m: MutexId): seq<ThreadId>
    requires Shape(s) && IsMutex(s, m) && WaitsFor(s, t, m)
  {
    assert ThreadShape(s, t);
    UnlinkMembers(s, t, m);
    Enqueued(SetCurrent(s, t, p).threads, Remove(s.mutexes[m].waiters, t), t)
  }

  lemma UnlinkMembers(s: State, t: ThreadId, m: MutexId)
    requires Shape(s) && IsMutex(s, m) && WaitsFor(s, t, m)
    ensures t in s.mutexes[m].waiters
    ensures var rest := Remove(s.mutexes[m].waiters, t);
      Below(rest, |s.threads|) && t !in rest
  {
    assert ThreadShape(s, t) && MutexShape(s, m);
    var rest := Remove(s.mutexes[m].waiters, t);
    RemoveContents(s.mutexes[m].waiters, t);
    forall k | 0 <= k < |rest| ensures rest[k] < |s.threads| {
      assert rest[k] in rest && WaitsFor(s, rest[k], m);
    }
  }

  /** Gives `t` priority `p` and, if it waits for a mutex, re-queues it there and
      refreshes the cached priority of that mutex. */
  function Reprioritize(s: State, t: ThreadId, p: nat): State
    requires Shape(s) && IsThread(s, t)
  {
    var s1 := SetCurrent(s, t, p);
    if s.threads[t].stat == Suspend && s.threads[t].pending.Some? then
      assert ThreadShape(s, t);
      var m := s.threads[t].pending.value;
      var q := Requeued(s, t, p, m);
      SetQueue(s1, m, q, s1.threads[q[0]].currentPriority)
    else s1
  }

  /** `t` is the one thread whose priority has to change, and `p` is what it has to become. */
  ghost predicate NeedsUpdate(s: State, t: ThreadId, p: nat) {
    && InvExcept(s, Some(t))
    && IsThread(s, t)
    && TakenBelow(s, t)
    && p == Goal(s, t)
    && p != s.threads[t].currentPriority
  }

  /** The owner of the mutex `t` waits for, if any. */
  function Blocker(s: State, t: ThreadId): Option<ThreadId>
    requires IsThread(s, t)
  {
    var th := s.threads[t];
    if th.stat == Suspend && th.pending.Some? && th.pending.value < |s.mutexes|
    then s.mutexes[th.pending.value].owner else None
  }


  /** Two states that differ only in current priorities, cached mutex priorities
      and the order inside wait queues. */
  ghost predicate SameSkeleton(a: State, b: State) {
    && |a.threads| == |b.threads|
    && |a.mutexes| == |b.mutexes|
    && (forall t: ThreadId :: IsThread(a, t) ==> SameThread(a.threads[t], b.threads[t]))
    && (forall m: MutexId :: IsMutex(a, m) ==> SameMutex(a.mutexes[m], b.mutexes[m]))
  }

  ghost predicate SameThread(a: Thread, b: Thread) {
    b == a.(currentPriority := b.currentPriority)
  }

  ghost predicate SameMutex(a: Mutex, b: Mutex) {
    && b == a.(priority := b.priority, waiters := b.waiters)
    && multiset(b.waiters) == multiset(a.waiters)
  }

  lemma SkeletonTrans(a: State, b: State, c: State)
    requires SameSkeleton(a, b) && SameSkeleton(b, c)
    ensures SameSkeleton(a, c)
  {
    forall t: ThreadId | IsThread(a, t) ensures SameThread(a.threads[t], c.threads[t]) {
      assert SameThread(a.threads[t], b.threads[t]) && SameThread(b.threads[t], c.threads[t]);
    }
    forall m: MutexId | IsMutex(a, m) ensures SameMutex(a.mutexes[m], c.mutexes[m]) {
      assert SameMutex(a.mutexes[m], b.mutexes[m]) && SameMutex(b.mutexes[m], c.mutexes[m]);
    }
  }

  lemma SameMembers<T>(a: seq<T>, b: seq<T>)
    requires multiset(a) == multiset(b)
    ensures |a| == |b| && forall x :: x in a <==> x in b
  {
    assert |multiset(a)| == |a| && |multiset(b)| == |b|;
    forall x ensures x in a <==> x in b {
      assert x in a <==> x in multiset(a);
      assert x in b <==> x in multiset(b);
    }
  }

  lemma OnceInDistinct<T>(s: seq<T>, x: T)
    requires Distinct(s) && x in s
    ensures multiset(s)[x] == 1
  {
    var i := IndexOf(s, x);
    assert s == s[..i] + [x] + s[i + 1..];
    assert x !in s[i + 1..];
  }

  lemma TwiceOtherwise<T>(s: seq<T>, i: nat, j: nat)
    requires i < j < |s| && s[i] == s[j]
    ensures multiset(s)[s[i]] >= 2
  {
    assert s == s[..i] + [s[i]] + s[i + 1..j] + [s[j]] + s[j + 1..];
  }

  lemma DistinctMultiset<T>(s: seq<T>)
    ensures Distinct(s) <==> forall x :: x in s ==> multiset(s)[x] == 1
  {
    if Distinct(s) {
      forall x | x in s ensures multiset(s)[x] == 1 {
        OnceInDistinct(s, x);
      }
    } else {
      var i, j :| 0 <= i < j < |s| && s[i] == s[j];
      TwiceOtherwise(s, i, j);
      assert s[i] in s;
    }
  }

  /** Re-queueing keeps the ownership and waiting structure. */
  lemma SkeletonShape(a: State, b: State)
    requires Shape(a) && SameSkeleton(a, b)
    ensures Shape(b)
  {
    forall m: MutexId | IsMutex(b, m) ensures MutexShape(b, m) {
      assert IsMutex(a, m) && MutexShape(a, m) && SameMutex(a.mutexes[m], b.mutexes[m]);
      SameMembers(a.mutexes[m].waiters, b.mutexes[m].waiters);
      DistinctMultiset(a.mutexes[m].waiters);
      DistinctMultiset(b.mutexes[m].waiters);
      forall t | t in b.mutexes[m].waiters ensures WaitsFor(b, t, m) {
        assert WaitsFor(a, t, m) && IsThread(a, t) && SameThread(a.threads[t], b.threads[t]);
      }
      if b.mutexes[m].owner.Some? {
        var o := b.mutexes[m].owner.value;
        assert IsThread(a, o) && SameThread(a.threads[o], b.threads[o]);
      }
    }
    forall t: ThreadId | IsThread(b, t) ensures ThreadShape(b, t) {
      assert IsThread(a, t) && ThreadShape(a, t) && SameThread(a.threads[t], b.threads[t]);
      forall m | m in b.threads[t].taken ensures m < |b.mutexes| && b.mutexes[m].owner == Some(t) {
        assert IsMutex(a, m) && SameMutex(a.mutexes[m], b.mutexes[m]);
      }
      if b.threads[t].stat == Suspend && b.threads[t].pending.Some? {
        var m := b.threads[t].pending.value;
        assert IsMutex(a, m) && SameMutex(a.mutexes[m], b.mutexes[m]);
        SameMembers(a.mutexes[m].waiters, b.mutexes[m].waiters);
      }
    }
  }

  lemma RequeuedMembers(s: State, t: ThreadId, p: nat, m: MutexId)
    requires Shape(s) && IsMutex(s, m) && WaitsFor(s, t, m)
    ensures multiset(Requeued(s, t, p, m)) == multiset(s.mutexes[m].waiters)
  {
    UnlinkMembers(s, t, m);
    var q := s.mutexes[m].waiters;
    var rest := Remove(q, t);
    RemoveMultiset(q, t);
    InsertContents(rest, QueuePosition(SetCurrent(s, t, p).threads, rest, p), t);
    assert t in multiset(q);
  }

  lemma ReprioritizeSkeleton(s: State, t: ThreadId, p: nat)
    requires Shape(s) && IsThread(s, t)
    ensures SameSkeleton(s, Reprioritize(s, t, p))
  {
    if s.threads[t].stat == Suspend && s.threads[t].pending.Some? {
      assert ThreadShape(s, t);
      RequeuedMembers(s, t, p, s.threads[t].pending.value);
    }
  }

  /** The queue that is left after unlinking `t` is still sorted, and stays so when
      only `t` changes its priority. */
  lemma UnlinkSorted(s: State, t: ThreadId, m: MutexId)
    requires Shape(s) && IsMutex(s, m) && QueueOk(s, m) && WaitsFor(s, t, m) && t in s.mutexes[m].waiters
    ensures var rest := Remove(s.mutexes[m].waiters, t);
      && Below(rest, |s.threads|) && t !in rest
      && (forall i, j :: 0 <= i < j < |rest| ==>
            s.threads[rest[i]].currentPriority <= s.threads[rest[j]].currentPriority)
  {
    var q := s.mutexes[m].waiters;
    assert MutexShape(s, m);
    RemoveContents(q, t);
    var i := IndexOf(q, t);
    var rest := Remove(q, t);
    forall k | 0 <= k < |rest|
      ensures rest[k] == q[if k < i then k else k + 1] && rest[k] in rest
    {}
  }

  lemma EnqueueSorted(threads: seq<Thread>, rest: seq<ThreadId>, t: ThreadId)
    requires t < |threads|
    requires Below(rest, |threads|)
    requires forall i, j :: 0 <= i < j < |rest| ==> threads[rest[i]].currentPriority <= threads[rest[j]].currentPriority
    ensures var q := Enqueued(threads, rest, t);
      && Below(q, |threads|)
      && (forall i, j :: 0 <= i < j < |q| ==> threads[q[i]].currentPriority <= threads[q[j]].currentPriority)
  {
    var p := threads[t].currentPriority;
    var i := QueuePosition(threads, rest, p);
    var q := Enqueued(threads, rest, t);
    assert forall k :: 0 <= k < |q| ==> q[k] == if k < i then rest[k] else if k == i then t else rest[k - 1];
  }

  /** The threads of `q` are in the order of their priorities. */
  ghost predicate InOrder(threads: seq<Thread>, q: seq<ThreadId>) {
    var sorted :=
      && Below(q, |threads|)
      && forall i, j :: 0 <= i < j < |q| ==> threads[q[i]].currentPriority <= threads[q[j]].currentPriority;
    sorted
  }

  lemma RestSorted(s: State, t: ThreadId, p: nat, m: MutexId)
    requires Shape(s) && IsMutex(s, m) && WaitsFor(s, t, m) && QueueOk(s, m)
    ensures InOrder(SetCurrent(s, t, p).threads, Remove(s.mutexes[m].waiters, t))
  {
    UnlinkMembers(s, t, m);
    UnlinkSorted(s, t, m);
    var threads, rest := SetCurrent(s, t, p).threads, Remove(s.mutexes[m].waiters, t);
    forall i, j | 0 <= i < j < |rest| ensures threads[rest[i]].currentPriority <= threads[rest[j]].currentPriority {
      assert rest[i] in rest && rest[j] in rest;
    }
  }

  lemma EnqueuedInOrder(threads: seq<Thread>, rest: seq<ThreadId>, t: ThreadId)
    requires t < |threads| && InOrder(threads, rest)
    ensures Below(rest, |threads|) && InOrder(threads, Enqueued(threads, rest, t))
  {
    EnqueueSorted(threads, rest, t);
  }

  lemma RequeuedAt(s: State, t: ThreadId, p: nat, m: MutexId)
    requires Shape(s) && IsMutex(s, m) && WaitsFor(s, t, m) && Below(Remove(s.mutexes[m].waiters, t), |s.threads|)
    ensures var r, threads := Reprioritize(s, t, p), SetCurrent(s, t, p).threads;
      && r.threads == threads && IsMutex(r, m)
      && r.mutexes[m].waiters == Enqueued(threads, Remove(s.mutexes[m].waiters, t), t)
      && Below(r.mutexes[m].waiters, |threads|) && r.mutexes[m].priority == HeadPriority(threads, r.mutexes[m].waiters)
  {
  }

  lemma RequeuedSorted(s: State, t: ThreadId, p: nat, m: MutexId)
    requires Shape(s) && IsMutex(s, m) && WaitsFor(s, t, m) && QueueOk(s, m)
    ensures QueueOk(Reprioritize(s, t, p), m)
  {
    RestSorted(s, t, p, m);
    EnqueuedInOrder(SetCurrent(s, t, p).threads, Remove(s.mutexes[m].waiters, t), t);
    RequeuedAt(s, t, p, m);
  }

  lemma ReprioritizeQueues(s: State, t: ThreadId, p: nat)
    requires InvExcept(s, Some(t)) && IsThread(s, t)
    ensures var r := Reprioritize(s, t, p); forall m: MutexId :: IsMutex(r, m) ==> QueueOk(r, m)
  {
    var r := Reprioritize(s, t, p);
    assert ThreadShape(s, t);
    forall m: MutexId | IsMutex(r, m) ensures QueueOk(r, m) {
      assert IsMutex(s, m) && MutexShape(s, m) && QueueOk(s, m);
      if s.threads[t].stat == Suspend && s.threads[t].pending == Some(m) {
        RequeuedSorted(s, t, p, m);
      } else {
        var q := s.mutexes[m].waiters;
        assert r.mutexes[m] == s.mutexes[m];
        forall i | 0 <= i < |q| ensures q[i] != t {
          assert q[i] in q && WaitsFor(s, q[i], m);
        }
      }
    }
  }

  /** The head of a well-kept queue carries the least priority number in it. */
  lemma HeadIsLeast(s: State, m: MutexId, t: ThreadId)
    requires IsMutex(s, m) && QueueOk(s, m) && t in s.mutexes[m].waiters
    ensures t < |s.threads| && s.mutexes[m].priority <= s.threads[t].currentPriority
  {
    var i := IndexOf(s.mutexes[m].waiters, t);
  }

  /** A priority change of a waiter moves the cached mutex priority the same way. */
  lemma ReprioritizeMutex(s: State, t: ThreadId, p: nat, m: MutexId)
    requires InvExcept(s, Some(t)) && WaitsFor(s, t, m) && IsMutex(s, m)
    ensures var r := Reprioritize(s, t, p);
      && IsMutex(r, m)
      && (p <= s.threads[t].currentPriority ==> r.mutexes[m].priority <= s.mutexes[m].priority)
      && (p >= s.threads[t].currentPriority ==> r.mutexes[m].priority >= s.mutexes[m].priority)
  {
    var r := Reprioritize(s, t, p);
    assert ThreadShape(s, t) && QueueOk(s, m);
    ReprioritizeQueues(s, t, p);
    ReprioritizeSkeleton(s, t, p);
    assert IsMutex(r, m) && QueueOk(r, m);
    assert SameMutex(s.mutexes[m], r.mutexes[m]);
    var q, q' := s.mutexes[m].waiters, r.mutexes[m].waiters;
    SameMembers(q, q');
    assert q[0] in q' && q'[0] in q;
    HeadIsLeast(r, m, q[0]);
    HeadIsLeast(s, m, q'[0]);
  }

  /** `Goal` follows the cached priorities monotonically. */
  lemma GoalMonotone(a: State, b: State, t: ThreadId)
    requires IsThread(a, t) && IsThread(b, t) && TakenBelow(a, t) && TakenBelow(b, t)
    requires a.threads[t].taken == b.threads[t].taken && a.threads[t].initPriority == b.threads[t].initPriority
    requires forall m :: m in a.threads[t].taken && IsMutex(a, m) && IsMutex(b, m) ==> b.mutexes[m].priority <= a.mutexes[m].priority
    ensures Goal(b, t) <= Goal(a, t)
  {
    var taken := a.threads[t].taken;
    if Goal(a, t) != a.threads[t].initPriority {
      var i :| 0 <= i < |taken| && Goal(a, t) == a.mutexes[taken[i]].priority;
      assert taken[i] in taken && IsMutex(a, taken[i]) && IsMutex(b, taken[i]);
    }
  }

  lemma ShapeTakenBelow(s: State, t: ThreadId)
    requires Shape(s) && IsThread(s, t)
    ensures TakenBelow(s, t)
  {
    assert ThreadShape(s, t);
    forall i | 0 <= i < |s.threads[t].taken| ensures s.threads[t].taken[i] < |s.mutexes| {
      assert s.threads[t].taken[i] in s.threads[t].taken;
    }
  }

  /** The owner of the mutex `t` waits for has to move in the same direction as `t`. */
  lemma BlockerFollows(s: State, t: ThreadId, p: nat, o: ThreadId)
    requires NeedsUpdate(s, t, p) && Blocker(s, t) == Some(o)
    ensures var r := Reprioritize(s, t, p);
      && o != t && IsThread(r, o) && TakenBelow(r, o)
      && r.threads[o] == s.threads[o]
      && (p < s.threads[t].currentPriority ==> Goal(r, o) <= r.threads[o].currentPriority)
      && (p > s.threads[t].currentPriority ==> Goal(r, o) >= r.threads[o].currentPriority)
  {
    var r := Reprioritize(s, t, p);
    var m := s.threads[t].pending.value;
    assert ThreadShape(s, t) && IsMutex(s, m) && MutexShape(s, m) && IsThread(s, o);
    ReprioritizeMutex(s, t, p, m);
    ShapeTakenBelow(s, o);
    assert GoalOk(s, o);
    assert |r.mutexes| == |s.mutexes|;
    if p < s.threads[t].currentPriority {
      GoalMonotone(s, r, o);
    } else {
      GoalMonotone(r, s, o);
    }
  }

  /** One step of the recursion: the equation of `t` is repaired, and the only one that
      may have broken is that of the thread blocking `t`. */
  lemma UpdateStep(s: State, t: ThreadId, p: nat)
    requires NeedsUpdate(s, t, p)
    ensures SameSkeleton(s, Reprioritize(s, t, p))
    ensures InvExcept(Reprioritize(s, t, p), Blocker(s, t))
  {
    var r := Reprioritize(s, t, p);
    ReprioritizeSkeleton(s, t, p);
    SkeletonShape(s, r);
    ReprioritizeQueues(s, t, p);
    forall x: ThreadId | IsThread(r, x) && Some(x) != Blocker(s, t) ensures GoalOk(r, x) {
      ReprioritizeOther(s, t, p, x);
    }
  }

  lemma ReprioritizeOther(s: State, t: ThreadId, p: nat, x: ThreadId)
    requires NeedsUpdate(s, t, p) && IsThread(s, x) && Some(x) != Blocker(s, t)
    ensures IsThread(Reprioritize(s, t, p), x) && GoalOk(Reprioritize(s, t, p), x)
  {
    var r := Reprioritize(s, t, p);
    ReprioritizeSkeleton(s, t, p);
    assert ThreadShape(s, t) && ThreadShape(s, x);
    ShapeTakenBelow(s, x);
    assert SameThread(s.threads[x], r.threads[x]);
    forall m | m in s.threads[x].taken && IsMutex(s, m) ensures r.mutexes[m] == s.mutexes[m] {
      assert s.mutexes[m].owner == Some(x);
    }
    GoalMonotone(s, r, x);
    GoalMonotone(r, s, x);
    if x != t {
      assert GoalOk(s, x);
    }
  }

  // The recursion moves priorities in one direction only, so this sum strictly decreases.

  function Distance(th: Thread, rising: bool): nat {
    if rising then th.currentPriority else Max(0, NO_PRIORITY + 1 - th.currentPriority)
  }

  function TotalDistance(threads: seq<Thread>, rising: bool): nat {
    if threads == [] then 0 else Distance(threads[0], rising) + TotalDistance(threads[1..], rising)
  }

  lemma {:induction false} TotalDistanceUpdate(threads: seq<Thread>, i: nat, th: Thread, rising: bool)
    requires i < |threads|
    ensures TotalDistance(threads[i := th], rising)
         == TotalDistance(threads, rising) - Distance(threads[i], rising) + Distance(th, rising)
  {
    if i == 0 {
      assert threads[0 := th][1..] == threads[1..];
    } else {
      assert threads[i := th][1..] == threads[1..][i - 1 := th];
      TotalDistanceUpdate(threads[1..], i - 1, th, rising);
    }
  }

  lemma DistanceDrops(s: State, t: ThreadId, p: nat)
    requires NeedsUpdate(s, t, p)
    ensures var rising := p < s.threads[t].currentPriority;
      TotalDistance(Reprioritize(s, t, p).threads, rising) < TotalDistance(s.threads, rising)
  {
    var rising := p < s.threads[t].currentPriority;
    var th := s.threads[t];
    assert ThreadShape(s, t);
    assert Reprioritize(s, t, p).threads == s.threads[t := th.(currentPriority := p)];
    TotalDistanceUpdate(s.threads, t, th.(currentPriority := p), rising);
  }

  /** No thread moved against the given direction. */
  ghost predicate Moved(a: State, b: State, rising: bool) {
    && |a.threads| == |b.threads|
    && forall t: ThreadId :: IsThread(a, t) ==>
         if rising then b.threads[t].currentPriority <= a.threads[t].currentPriority
         else b.threads[t].currentPriority >= a.threads[t].currentPriority
  }

  /** What is left to do after one level of the recursion: nothing, or the same for the blocker. */
  lemma UpdateNext(s: State, t: ThreadId, p: nat)
    requires NeedsUpdate(s, t, p)
    ensures SameSkeleton(s, Reprioritize(s, t, p))
    ensures Blocker(s, t) == None ==> Inv(Reprioritize(s, t, p))
    ensures Blocker(s, t).Some? ==>
              IsThread(Reprioritize(s, t, p), Blocker(s, t).value) && TakenBelow(Reprioritize(s, t, p), Blocker(s, t).value)
  {
    UpdateStep(s, t, p);
    if Blocker(s, t).Some? {
      BlockerFollows(s, t, p, Blocker(s, t).value);
    }
  }

  lemma UpdateOwner(s: State, t: ThreadId, p: nat, o: ThreadId)
    requires NeedsUpdate(s, t, p) && Blocker(s, t) == Some(o)
    ensures IsThread(Reprioritize(s, t, p), o) && TakenBelow(Reprioritize(s, t, p), o)
    ensures var r := Reprioritize(s, t, p); var goal := Goal(r, o);
      if goal == r.threads[o].currentPriority then Inv(r)
      else NeedsUpdate(r, o, goal) && (goal < r.threads[o].currentPriority <==> p < s.threads[t].currentPriority)
  {
    UpdateStep(s, t, p);
    BlockerFollows(s, t, p, o);
  }

  lemma ReprioritizeMoves(s: State, t: ThreadId, p: nat)
    requires NeedsUpdate(s, t, p)
    ensures Moved(s, Reprioritize(s, t, p), p < s.threads[t].currentPriority)
  {
  }

  lemma MovedTrans(a: State, b: State, c: State, rising: bool)
    requires Moved(a, b, rising) && Moved(b, c, rising)
    ensures Moved(a, c, rising)
  {
    forall t: ThreadId | IsThread(a, t)
      ensures if rising then c.threads[t].currentPriority <= a.threads[t].currentPriority
              else c.threads[t].currentPriority >= a.threads[t].currentPriority
    {
      assert IsThread(b, t);
    }
  }

  /** `_thread_update_priority`.  It terminates and restores the fixpoint on every
      wait-for graph, cyclic ones included. */
  function UpdatePriority(s: State, t: ThreadId, p: nat): (r: State)
    requires NeedsUpdate(s, t, p)
    ensures Inv(r)
    ensures SameSkeleton(s, r)
    ensures Moved(s, r, p < s.threads[t].currentPriority)
    decreases TotalDistance(s.threads, p < s.threads[t].currentPriority)
  {
    UpdateNext(s, t, p);
    ReprioritizeMoves(s, t, p);
    var s1 := Reprioritize(s, t, p);
    match Blocker(s, t)
    case None => s1
    case Some(o) =>
      UpdateOwner(s, t, p, o);
      var goal := Goal(s1, o);
      if goal == s1.threads[o].currentPriority then s1
      else
        DistanceDrops(s, t, p);
        var r := UpdatePriority(s1, o, goal);
        SkeletonTrans(s, s1, r);
        MovedTrans(s, s1, r, p < s.threads[t].currentPriority);
        r
  }

  // ------------------------------------------------------------- critical sections

  function SetThread(s: State, t: ThreadId, th: Thread): State
    requires IsThread(s, t)
  {
    s.(threads := s.threads[t := th])
  }

  function SetMutex(s: State, m: MutexId, mx: Mutex): State
    requires IsMutex(s, m)
  {
    s.(mutexes := s.mutexes[m := mx])
  }

  /** `t` is executing: it may call into the kernel. */
  ghost predicate Executing(s: State, t: ThreadId) {
    IsThread(s, t) && s.threads[t].stat == Running
  }

  ghost predicate OwnedByOther(s: State, t: ThreadId, m: MutexId) {
    IsMutex(s, m) && s.mutexes[m].owner.Some? && s.mutexes[m].owner != Some(t)
  }

  /** Suspends `t` on `m` and lowers the cached priority of `m` to that of `t` if needed. */
  function JoinQueue(s: State, t: ThreadId, m: MutexId): State
    requires Inv(s) && Executing(s, t) && OwnedByOther(s, t, m)
  {
    var mx := s.mutexes[m];
    assert QueueOk(s, m);
    var p := s.threads[t].currentPriority;
    var th := s.threads[t].(stat := Suspend, error := EOk, pending := Some(m));
    var q := Enqueued(s.threads, mx.waiters, t);
    SetMutex(SetThread(s, t, th), m, mx.(waiters := q, priority := Min(p, mx.priority)))
  }

  lemma NotQueued(s: State, t: ThreadId, n: MutexId)
    requires Inv(s) && Executing(s, t) && IsMutex(s, n)
    ensures t !in s.mutexes[n].waiters
  {
    assert MutexShape(s, n) && !WaitsFor(s, t, n);
  }

  lemma JoinQueueThread(s: State, t: ThreadId, m: MutexId, x: ThreadId)
    requires Inv(s) && Executing(s, t) && OwnedByOther(s, t, m) && IsThread(s, x)
    ensures ThreadShape(JoinQueue(s, t, m), x)
  {
    assert ThreadShape(s, x) && QueueOk(s, m);
    var q := s.mutexes[m].waiters;
    InsertContents(q, QueuePosition(s.threads, q, s.threads[t].currentPriority), t);
  }

  lemma JoinedMutex(s: State, t: ThreadId, m: MutexId)
    requires Inv(s) && Executing(s, t) && OwnedByOther(s, t, m)
    ensures MutexShape(JoinQueue(s, t, m), m)
  {
    var r := JoinQueue(s, t, m);
    assert MutexShape(s, m) && QueueOk(s, m);
    NotQueued(s, t, m);
    var q := s.mutexes[m].waiters;
    InsertContents(q, QueuePosition(s.threads, q, s.threads[t].currentPriority), t);
    forall x | x in r.mutexes[m].waiters ensures WaitsFor(r, x, m) && r.mutexes[m].owner != Some(x) {
      if x != t {
        assert WaitsFor(s, x, m);
      }
    }
  }

  lemma JoinQueueMutex(s: State, t: ThreadId, m: MutexId, n: MutexId)
    requires Inv(s) && Executing(s, t) && OwnedByOther(s, t, m) && IsMutex(s, n) && n != m
    ensures MutexShape(JoinQueue(s, t, m), n)
  {
    var r := JoinQueue(s, t, m);
    assert MutexShape(s, n);
    NotQueued(s, t, n);
    forall x | x in r.mutexes[n].waiters ensures WaitsFor(r, x, n) {
      assert WaitsFor(s, x, n);
    }
  }

  lemma JoinQueueShape(s: State, t: ThreadId, m: MutexId)
    requires Inv(s) && Executing(s, t) && OwnedByOther(s, t, m)
    ensures Shape(JoinQueue(s, t, m))
  {
    var r := JoinQueue(s, t, m);
    forall x: ThreadId | IsThread(r, x) ensures ThreadShape(r, x) {
      JoinQueueThread(s, t, m, x);
    }
    forall n: MutexId | IsMutex(r, n) ensures MutexShape(r, n) {
      if n == m {
        JoinedMutex(s, t, m);
      } else {
        JoinQueueMutex(s, t, m, n);
      }
    }
  }

  lemma JoinedQueue(s: State, t: ThreadId, m: MutexId)
    requires Inv(s) && Executing(s, t) && OwnedByOther(s, t, m)
    ensures QueueOk(JoinQueue(s, t, m), m)
  {
    assert QueueOk(s, m);
    EnqueueSorted(s.threads, s.mutexes[m].waiters, t);
    assert ThreadShape(s, t) && GoalOk(s, t);
  }

  lemma JoinQueueQueues(s: State, t: ThreadId, m: MutexId)
    requires Inv(s) && Executing(s, t) && OwnedByOther(s, t, m)
    ensures forall n: MutexId :: IsMutex(s, n) ==> QueueOk(JoinQueue(s, t, m), n)
  {
    var r := JoinQueue(s, t, m);
    forall n: MutexId | IsMutex(s, n) ensures QueueOk(r, n) {
      assert QueueOk(s, n);
      if n == m {
        JoinedQueue(s, t, m);
      }
    }
  }

  lemma JoinQueueGoals(s: State, t: ThreadId, m: MutexId)
    requires Inv(s) && Executing(s, t) && OwnedByOther(s, t, m)
    ensures var r := JoinQueue(s, t, m);
      var o := s.mutexes[m].owner.value;
      && IsThread(r, o) && TakenBelow(r, o)
      && Goal(r, o) == Min(s.threads[t].currentPriority, s.threads[o].currentPriority)
      && forall x: ThreadId :: IsThread(r, x) && x != o ==> GoalOk(r, x)
  {
    var r := JoinQueue(s, t, m);
    var o := s.mutexes[m].owner.value;
    assert MutexShape(s, m);
    forall x: ThreadId | IsThread(r, x) ensures TakenBelow(r, x) && (x != o ==> GoalOk(r, x)) {
      assert ThreadShape(s, x) && GoalOk(s, x);
      assert x != o ==> m !in s.threads[x].taken;
      if x != o {
        assert TakenBelow(r, x);
        GoalMonotone(s, r, x);
        GoalMonotone(r, s, x);
      }
    }
    JoinQueueOwner(s, t, m);
  }

  lemma JoinQueueOwner(s: State, t: ThreadId, m: MutexId)
    requires Inv(s) && Executing(s, t) && OwnedByOther(s, t, m)
    requires IsThread(s, s.mutexes[m].owner.value) && TakenBelow(s, s.mutexes[m].owner.value)
    ensures var r := JoinQueue(s, t, m);
      var o := s.mutexes[m].owner.value;
      Goal(r, o) == Min(s.threads[t].currentPriority, s.threads[o].currentPriority)
  {
    var r := JoinQueue(s, t, m);
    var o := s.mutexes[m].owner.value;
    var p := s.threads[t].currentPriority;
    var taken := s.threads[o].taken;
    assert MutexShape(s, m) && GoalOk(s, o) && m in taken;
    var i := IndexOf(taken, m);
    assert r.mutexes[taken[i]].priority == Min(p, s.mutexes[m].priority);
    GoalMonotone(s, r, o);
    if Goal(r, o) != s.threads[o].initPriority {
      var k :| 0 <= k < |taken| && Goal(r, o) == r.mutexes[taken[k]].priority;
      assert s.mutexes[taken[k]].priority >= Goal(s, o);
    }
  }

  /** After joining, the owner may have to become as urgent as the caller, and nobody else has to change. */
  lemma JoinedNext(s: State, t: ThreadId, m: MutexId)
    requires Inv(s) && Executing(s, t) && OwnedByOther(s, t, m)
    ensures s.mutexes[m].owner.value < |s.threads|
    ensures var q, o, p := JoinQueue(s, t, m), s.mutexes[m].owner.value, s.threads[t].currentPriority;
      if p < s.mutexes[m].priority && p < s.threads[o].currentPriority then NeedsUpdate(q, o, p) && p < q.threads[o].currentPriority
      else Inv(q)
  {
    JoinQueueShape(s, t, m);
    JoinQueueQueues(s, t, m);
    JoinQueueGoals(s, t, m);
    OwnerBelowMutex(s, m);
  }

  lemma JoinMovesNobody(s: State, t: ThreadId, m: MutexId)
    requires Inv(s) && Executing(s, t) && OwnedByOther(s, t, m)
    ensures Moved(s, JoinQueue(s, t, m), true)
  {
  }

  lemma SkeletonSelf(s: State)
    ensures SameSkeleton(s, s)
  {
  }

  /** The blocking part of `rt_mutex_take`: join the queue, then let the owner inherit. */
  function Block(s: State, t: ThreadId, m: MutexId): (r: State)
    requires Inv(s) && Executing(s, t) && OwnedByOther(s, t, m)
    ensures Inv(r)
    ensures SameSkeleton(JoinQueue(s, t, m), r)
    ensures Moved(s, r, true)
  {
    JoinedNext(s, t, m);
    JoinMovesNobody(s, t, m);
    var s1 := JoinQueue(s, t, m);
    var o := s.mutexes[m].owner.value;
    var p := s.threads[t].currentPriority;
    if p < s.mutexes[m].priority && p < s.threads[o].currentPriority
    then
      var r := UpdatePriority(s1, o, p);
      MovedTrans(s, s1, r, true);
      r
    else
      SkeletonSelf(s1);
      s1
  }

  /** What a take that blocks leaves, in terms of the update that follows the queueing. */
  lemma BlockIs(s: State, t: ThreadId, m: MutexId)
    requires Inv(s) && Executing(s, t) && OwnedByOther(s, t, m)
    ensures s.mutexes[m].owner.value < |s.threads|
    ensures var q, o, p := JoinQueue(s, t, m), s.mutexes[m].owner.value, s.threads[t].currentPriority;
            if p < s.mutexes[m].priority && p < s.threads[o].currentPriority
            then NeedsUpdate(q, o, p) && Block(s, t, m) == UpdatePriority(q, o, p)
            else Block(s, t, m) == q
  {
    JoinedNext(s, t, m);
  }

  lemma OwnerBelowMutex(s: State, m: MutexId)
    requires Inv(s) && IsMutex(s, m) && s.mutexes[m].owner.Some?
    ensures s.mutexes[m].owner.value < |s.threads|
    ensures s.threads[s.mutexes[m].owner.value].currentPriority <= s.mutexes[m].priority
  {
    assert MutexShape(s, m);
    var o := s.mutexes[m].owner.value;
    assert IsThread(s, o) && GoalOk(s, o);
    var i := IndexOf(s.threads[o].taken, m);
  }

  /** `rt_mutex_take` with timeout 0 (`!forever`) or `RT_WAITING_FOREVER`. */
  function Take(s: State, t: ThreadId, m: MutexId, forever: bool): (r: (State, Outcome))
    requires Inv(s) && Executing(s, t) && IsMutex(s, m)
  {
    var mx := s.mutexes[m];
    var th := s.threads[t].(error := EOk);
    if mx.owner == Some(t) then
      if mx.hold < HOLD_MAX
      then (SetMutex(SetThread(s, t, th), m, mx.(hold := mx.hold + 1)), Ok)
      else (SetThread(s, t, th), Full)
    else if mx.owner == None then
      (SetMutex(SetThread(s, t, th.(taken := [m] + th.taken)), m,
                mx.(owner := Some(t), hold := 1, priority := NO_PRIORITY)), Ok)
    else if !forever then
      (SetThread(s, t, th.(error := ETimeout)), TimedOut)
    else (Block(s, t, m), Blocked)
  }

  /** The mutex is handed to the head of its queue, or left without an owner. */
  function HandOver(s: State, m: MutexId): State
    requires IsMutex(s, m) && Below(s.mutexes[m].waiters, |s.threads|)
  {
    var mx := s.mutexes[m];
    if mx.waiters == [] then
      SetMutex(s, m, mx.(owner := None, hold := 0, priority := NO_PRIORITY))
    else
      var n := mx.waiters[0];
      var th := s.threads[n].(taken := [m] + s.threads[n].taken, pending := None, stat := Ready);
      assert Below(mx.waiters[1..], |s.threads|) by {
        assert forall i :: 0 <= i < |mx.waiters| - 1 ==> mx.waiters[1..][i] == mx.waiters[i + 1];
      }
      SetMutex(SetThread(s, n, th), m,
               mx.(owner := Some(n), hold := 1, waiters := mx.waiters[1..],
                   priority := HeadPriority(s.threads, mx.waiters[1..])))
  }

  /** The last hold is given up: unlink the mutex and take back an inherited priority. */
  function GiveUp(s: State, t: ThreadId, m: MutexId): State
    requires IsThread(s, t) && IsMutex(s, m) && TakenBelow(s, t)
  {
    var th := s.threads[t];
    SetThread(s, t, th.(taken := Remove(th.taken, m), currentPriority := KeptPriority(s.mutexes, th, m)))
  }

  function KeptPriority(ms: seq<Mutex>, th: Thread, m: MutexId): nat
    requires Below(th.taken, |ms|) && m < |ms|
  {
    UnlinkLeast(ms, th.taken, m, th.initPriority);
    if th.currentPriority == ms[m].priority
    then LeastPriority(ms, Remove(th.taken, m), th.initPriority)
    else th.currentPriority
  }

  function Release(s: State, t: ThreadId, m: MutexId): (r: (State, Outcome))
    requires Inv(s) && Executing(s, t) && IsMutex(s, m)
  {
    var mx := s.mutexes[m];
    assert QueueOk(s, m);
    if mx.owner != Some(t) then
      (SetThread(s, t, s.threads[t].(error := EError)), NotOwner)
    else if mx.hold > 1 then
      (SetMutex(s, m, mx.(hold := mx.hold - 1)), Ok)
    else
      assert GoalOk(s, t);
      (HandOver(GiveUp(s, t, m), m), Ok)
  }

  // ------------------------------------------ every critical section keeps the fixpoint

  /** Changing nothing but `error` or the hold count of an owned mutex. */
  lemma MinorChange(s: State, t: ThreadId, e: Error, m: MutexId, h: nat)
    requires Inv(s) && IsThread(s, t) && IsMutex(s, m)
    requires h == s.mutexes[m].hold || (0 < h <= HOLD_MAX && s.mutexes[m].owner.Some?)
    ensures Inv(SetMutex(SetThread(s, t, s.threads[t].(error := e)), m, s.mutexes[m].(hold := h)))
  {
    var r := SetMutex(SetThread(s, t, s.threads[t].(error := e)), m, s.mutexes[m].(hold := h));
    forall x: ThreadId | IsThread(r, x) ensures ThreadShape(r, x) && GoalOk(r, x) {
      assert IsThread(s, x) && ThreadShape(s, x) && GoalOk(s, x);
      assert TakenBelow(r, x);
      GoalMonotone(s, r, x);
      GoalMonotone(r, s, x);
    }
    forall n: MutexId | IsMutex(r, n) ensures MutexShape(r, n) && QueueOk(r, n) {
      assert IsMutex(s, n) && MutexShape(s, n) && QueueOk(s, n);
      forall x | x in r.mutexes[n].waiters ensures WaitsFor(r, x, n) {
        assert WaitsFor(s, x, n);
      }
    }
  }

  lemma AcquireThread(s: State, t: ThreadId, m: MutexId, x: ThreadId)
    requires Inv(s) && Executing(s, t) && IsMutex(s, m) && s.mutexes[m].owner == None && IsThread(s, x)
    ensures ThreadShape(Take(s, t, m, false).0, x)
  {
    assert MutexShape(s, m) && ThreadShape(s, x);
  }

  lemma AcquireOther(s: State, t: ThreadId, m: MutexId, x: ThreadId)
    requires Inv(s) && Executing(s, t) && IsMutex(s, m) && s.mutexes[m].owner == None && IsThread(s, x) && x != t
    ensures GoalOk(Take(s, t, m, false).0, x)
  {
    var r := Take(s, t, m, false).0;
    assert MutexShape(s, m) && QueueOk(s, m) && ThreadShape(s, x) && GoalOk(s, x);
    assert TakenBelow(r, x);
    GoalMonotone(s, r, x);
    GoalMonotone(r, s, x);
  }

  lemma AcquireMutex(s: State, t: ThreadId, m: MutexId, n: MutexId)
    requires Inv(s) && Executing(s, t) && IsMutex(s, m) && s.mutexes[m].owner == None && IsMutex(s, n)
    ensures MutexShape(Take(s, t, m, false).0, n) && QueueOk(Take(s, t, m, false).0, n)
  {
    var r := Take(s, t, m, false).0;
    assert MutexShape(s, n) && QueueOk(s, n);
    forall x | x in r.mutexes[n].waiters ensures WaitsFor(r, x, n) {
      assert WaitsFor(s, x, n);
    }
  }

  lemma AcquireInv(s: State, t: ThreadId, m: MutexId)
    requires Inv(s) && Executing(s, t) && IsMutex(s, m) && s.mutexes[m].owner == None
    ensures Inv(Take(s, t, m, false).0)
  {
    var r := Take(s, t, m, false).0;
    forall x: ThreadId | IsThread(r, x) ensures ThreadShape(r, x) && GoalOk(r, x) {
      AcquireThread(s, t, m, x);
      if x == t {
        AcquireGoal(s, t, m);
      } else {
        AcquireOther(s, t, m, x);
      }
    }
    forall n: MutexId | IsMutex(r, n) ensures MutexShape(r, n) && QueueOk(r, n) {
      AcquireMutex(s, t, m, n);
    }
  }

  lemma AcquireGoal(s: State, t: ThreadId, m: MutexId)
    requires Inv(s) && Executing(s, t) && IsMutex(s, m) && s.mutexes[m].owner == None
    ensures GoalOk(Take(s, t, m, false).0, t)
  {
    var r := Take(s, t, m, false).0;
    assert MutexShape(s, m) && ThreadShape(s, t) && GoalOk(s, t) && QueueOk(s, m);
    assert s.mutexes[m].priority == r.mutexes[m].priority == NO_PRIORITY;
    var taken := s.threads[t].taken;
    assert forall i :: 0 <= i < |taken| ==> ([m] + taken)[i + 1] == taken[i];
    PrependGoal(s.mutexes, r.mutexes, taken, m, s.threads[t].initPriority);
  }

  /** A mutex that nobody waits for does not change the minimum. */
  lemma PrependGoal(ms: seq<Mutex>, ms': seq<Mutex>, taken: seq<MutexId>, m: MutexId, acc: nat)
    requires Below(taken, |ms|) && m < |ms| == |ms'|
    requires forall i :: 0 <= i < |taken| ==> ms[taken[i]].priority == ms'[taken[i]].priority
    requires ms'[m].priority >= LeastPriority(ms, taken, acc)
    ensures Below([m] + taken, |ms'|)
    ensures LeastPriority(ms', [m] + taken, acc) == LeastPriority(ms, taken, acc)
  {
    var all := [m] + taken;
    assert forall i :: 0 <= i < |taken| ==> all[i + 1] == taken[i];
    var a, b := LeastPriority(ms, taken, acc), LeastPriority(ms', all, acc);
    if b != acc {
      var i :| 0 <= i < |all| && b == ms'[all[i]].priority;
      if i > 0 { assert a <= ms[taken[i - 1]].priority; }
    }
    if a != acc {
      var i :| 0 <= i < |taken| && a == ms[taken[i]].priority;
      assert b <= ms'[all[i + 1]].priority;
    }
  }

  lemma TakeInv(s: State, t: ThreadId, m: MutexId, forever: bool)
    requires Inv(s) && Executing(s, t) && IsMutex(s, m)
    ensures Inv(Take(s, t, m, forever).0)
  {
    var mx := s.mutexes[m];
    if mx.owner == Some(t) {
      MinorChange(s, t, EOk, m, if mx.hold < HOLD_MAX then mx.hold + 1 else mx.hold);
      assert mx.hold >= HOLD_MAX ==> s.mutexes[m := mx] == s.mutexes;
    } else if mx.owner == None {
      AcquireInv(s, t, m);
    } else if !forever {
      MinorChange(s, t, ETimeout, m, mx.hold);
      assert s.mutexes[m := mx] == s.mutexes;
    }
  }

  /** Unlinking a mutex can only raise the minimum, and does so only if that mutex held it. */
  lemma UnlinkLeast(ms: seq<Mutex>, taken: seq<MutexId>, m: MutexId, acc: nat)
    requires Below(taken, |ms|) && m < |ms|
    ensures var rest := Remove(taken, m);
      && Below(rest, |ms|)
      && LeastPriority(ms, rest, acc) >= LeastPriority(ms, taken, acc)
      && (LeastPriority(ms, taken, acc) != ms[m].priority ==>
            LeastPriority(ms, rest, acc) == LeastPriority(ms, taken, acc))
  {
    var rest := Remove(taken, m);
    RemoveContents(taken, m);
    assert forall i :: 0 <= i < |rest| ==> rest[i] in rest && rest[i] in taken;
    var a, b := LeastPriority(ms, taken, acc), LeastPriority(ms, rest, acc);
    if b != acc {
      var i :| 0 <= i < |rest| && b == ms[rest[i]].priority;
      var k := IndexOf(taken, rest[i]);
    }
    if a != ms[m].priority && a != acc {
      var i :| 0 <= i < |taken| && a == ms[taken[i]].priority;
      var k := IndexOf(rest, taken[i]);
    }
  }

  /** What the last release of `m` by `t` changes, field by field. */
  ghost predicate LastReleased(s: State, r: State, t: ThreadId, m: MutexId) {
    && IsThread(s, t) && IsMutex(s, m)
    && |r.threads| == |s.threads| && |r.mutexes| == |s.mutexes|
    && (forall n: MutexId :: IsMutex(s, n) && n != m ==> r.mutexes[n] == s.mutexes[n])
    && (var q := s.mutexes[m].waiters;
        && Below(q, |s.threads|) && t !in q
        && r.threads[t] == s.threads[t].(taken := Remove(s.threads[t].taken, m),
                                         currentPriority := r.threads[t].currentPriority)
        && (forall x: ThreadId :: IsThread(s, x) && x != t && (q == [] || x != q[0]) ==> r.threads[x] == s.threads[x])
        && (q != [] ==>
              && r.threads[q[0]] == s.threads[q[0]].(taken := [m] + s.threads[q[0]].taken, pending := None, stat := Ready)
              && r.mutexes[m].owner == Some(q[0]) && r.mutexes[m].hold == 1
              && r.mutexes[m].waiters == q[1..]
              && r.mutexes[m].priority == if |q| == 1 then NO_PRIORITY else s.threads[q[1]].currentPriority)
        && (q == [] ==> r.mutexes[m] == s.mutexes[m].(owner := None, hold := 0, priority := NO_PRIORITY)))
  }

  ghost predicate CanGiveUp(s: State, t: ThreadId, m: MutexId) {
    Inv(s) && Executing(s, t) && IsMutex(s, m) && s.mutexes[m].owner == Some(t)
  }

  lemma HandOverEffect(s: State, t: ThreadId, m: MutexId, th: Thread)
    requires IsThread(s, t) && IsMutex(s, m)
    requires Below(s.mutexes[m].waiters, |s.threads|) && t !in s.mutexes[m].waiters
    requires th == s.threads[t].(taken := Remove(s.threads[t].taken, m), currentPriority := th.currentPriority)
    ensures LastReleased(s, HandOver(SetThread(s, t, th), m), t, m)
  {
    var q := s.mutexes[m].waiters;
    assert |q| > 1 ==> q[1..][0] == q[1] && q[1] in q && q[1] != t;
    assert |q| > 0 ==> q[0] in q;
  }

  /** After the last release the thread keeps exactly the urgency it still has to inherit. */
  lemma KeptLeast(ms: seq<Mutex>, th: Thread, m: MutexId)
    requires Below(th.taken, |ms|) && m < |ms|
    requires th.currentPriority == LeastPriority(ms, th.taken, th.initPriority)
    ensures Below(Remove(th.taken, m), |ms|)
    ensures th.currentPriority <= KeptPriority(ms, th, m) == LeastPriority(ms, Remove(th.taken, m), th.initPriority)
  {
    UnlinkLeast(ms, th.taken, m, th.initPriority);
  }

  lemma LastReleaseEffect(s: State, t: ThreadId, m: MutexId)
    requires CanGiveUp(s, t, m)
    ensures Below(s.mutexes[m].waiters, |s.threads|) && TakenBelow(s, t)
    ensures var r := HandOver(GiveUp(s, t, m), m);
      && LastReleased(s, r, t, m)
      && r.threads[t].currentPriority >= s.threads[t].currentPriority
      && Below(r.threads[t].taken, |s.mutexes|)
      && r.threads[t].currentPriority == LeastPriority(s.mutexes, r.threads[t].taken, s.threads[t].initPriority)
  {
    assert QueueOk(s, m) && GoalOk(s, t);
    NotQueued(s, t, m);
    KeptLeast(s.mutexes, s.threads[t], m);
    var s1 := GiveUp(s, t, m);
    HandOverEffect(s, t, m, s1.threads[t]);
    var q := s.mutexes[m].waiters;
    assert q != [] ==> q[0] in q;
    assert HandOver(s1, m).threads[t] == s1.threads[t];
  }

  lemma ReleasedThread(s: State, r: State, t: ThreadId, m: MutexId)
    requires CanGiveUp(s, t, m) && LastReleased(s, r, t, m)
    ensures ThreadShape(r, t)
  {
    assert ThreadShape(s, t);
    RemoveContents(s.threads[t].taken, m);
  }

  lemma WokenThread(s: State, r: State, t: ThreadId, m: MutexId)
    requires CanGiveUp(s, t, m) && LastReleased(s, r, t, m) && s.mutexes[m].waiters != []
    ensures ThreadShape(r, s.mutexes[m].waiters[0])
  {
    var x := s.mutexes[m].waiters[0];
    assert MutexShape(s, m) && ThreadShape(s, x);
    assert x in s.mutexes[m].waiters && WaitsFor(s, x, m);
  }

  lemma LastReleaseThread(s: State, r: State, t: ThreadId, m: MutexId, x: ThreadId)
    requires CanGiveUp(s, t, m) && LastReleased(s, r, t, m) && IsThread(s, x) && x != t
    requires s.mutexes[m].waiters != [] ==> x != s.mutexes[m].waiters[0]
    ensures ThreadShape(r, x)
  {
    var q := s.mutexes[m].waiters;
    assert MutexShape(s, m) && ThreadShape(s, x);
    if s.threads[x].stat == Suspend && s.threads[x].pending == Some(m) {
      assert x in q && x != q[0];
      assert q == [q[0]] + q[1..];
    }
  }

  lemma LastReleaseThreads(s: State, r: State, t: ThreadId, m: MutexId)
    requires CanGiveUp(s, t, m) && LastReleased(s, r, t, m)
    ensures forall x: ThreadId :: IsThread(r, x) ==> ThreadShape(r, x)
  {
    var q := s.mutexes[m].waiters;
    forall x: ThreadId | IsThread(r, x) ensures ThreadShape(r, x) {
      if x == t {
        ReleasedThread(s, r, t, m);
      } else if q != [] && x == q[0] {
        WokenThread(s, r, t, m);
      } else {
        LastReleaseThread(s, r, t, m, x);
      }
    }
  }

  lemma LastReleaseMutexes(s: State, r: State, t: ThreadId, m: MutexId)
    requires CanGiveUp(s, t, m) && LastReleased(s, r, t, m)
    ensures forall n: MutexId :: IsMutex(r, n) ==> MutexShape(r, n)
  {
    var q := s.mutexes[m].waiters;
    assert MutexShape(s, m);
    RemoveContents(s.threads[t].taken, m);
    forall n: MutexId | IsMutex(r, n) ensures MutexShape(r, n) {
      assert IsMutex(s, n) && MutexShape(s, n);
      NotQueued(s, t, n);
      if n == m {
        assert forall i :: 0 <= i < |r.mutexes[m].waiters| ==> r.mutexes[m].waiters[i] == q[i + 1];
      }
      forall x | x in r.mutexes[n].waiters ensures WaitsFor(r, x, n) && r.mutexes[n].owner != Some(x) {
        assert x in s.mutexes[n].waiters && WaitsFor(s, x, n);
        if q != [] {
          assert WaitsFor(s, q[0], m);
        }
      }
    }
  }

  /** A sorted queue stays sorted, and so does any tail of it, when none of its
      members changes priority. */
  lemma QueueTransfer(s: State, r: State, n: MutexId, k: nat)
    requires IsMutex(s, n) && IsMutex(r, n) && QueueOk(s, n) && |s.threads| == |r.threads|
    requires k <= |s.mutexes[n].waiters| && r.mutexes[n].waiters == s.mutexes[n].waiters[k..]
    requires forall x :: x in s.mutexes[n].waiters && IsThread(s, x) ==> r.threads[x].currentPriority == s.threads[x].currentPriority
    requires r.mutexes[n].priority == HeadPriority(s.threads, s.mutexes[n].waiters[k..])
    ensures QueueOk(r, n)
  {
    var q, q' := s.mutexes[n].waiters, r.mutexes[n].waiters;
    forall i | 0 <= i < |q'| ensures q'[i] < |r.threads| && r.threads[q'[i]].currentPriority == s.threads[q[i + k]].currentPriority {
      assert q'[i] == q[i + k] && q[i + k] in q;
    }
  }

  lemma LastReleaseQueues(s: State, r: State, t: ThreadId, m: MutexId)
    requires CanGiveUp(s, t, m) && LastReleased(s, r, t, m)
    ensures forall n: MutexId :: IsMutex(r, n) ==> QueueOk(r, n)
  {
    assert forall x: ThreadId :: IsThread(s, x) && x != t ==> r.threads[x].currentPriority == s.threads[x].currentPriority;
    forall n: MutexId | IsMutex(r, n) ensures QueueOk(r, n) {
      assert IsMutex(s, n) && QueueOk(s, n);
      NotQueued(s, t, n);
      var q := s.mutexes[n].waiters;
      if n == m && q != [] {
        assert |q| > 1 ==> q[1..][0] == q[1];
        QueueTransfer(s, r, n, 1);
      } else {
        assert q[0..] == q;
        QueueTransfer(s, r, n, 0);
      }
    }
  }

  lemma LastReleaseGoal(s: State, r: State, t: ThreadId, m: MutexId, x: ThreadId)
    requires CanGiveUp(s, t, m) && LastReleased(s, r, t, m) && IsThread(s, x) && x != t
    ensures GoalOk(r, x)
  {
    assert MutexShape(s, m) && ThreadShape(s, x) && QueueOk(s, m) && GoalOk(s, x);
    var q, taken := s.mutexes[m].waiters, s.threads[x].taken;
    assert m !in taken;
    if q != [] && x == q[0] {
      PrependGoal(s.mutexes, r.mutexes, taken, m, s.threads[x].initPriority);
    } else {
      SamePriorities(s.mutexes, r.mutexes, taken, s.threads[x].initPriority);
    }
  }

  lemma LastReleaseGoals(s: State, r: State, t: ThreadId, m: MutexId)
    requires CanGiveUp(s, t, m) && LastReleased(s, r, t, m)
    requires Below(r.threads[t].taken, |s.mutexes|)
    requires r.threads[t].currentPriority == LeastPriority(s.mutexes, r.threads[t].taken, s.threads[t].initPriority)
    ensures forall x: ThreadId :: IsThread(r, x) ==> GoalOk(r, x)
  {
    assert ThreadShape(s, t);
    RemoveContents(s.threads[t].taken, m);
    SamePriorities(s.mutexes, r.mutexes, r.threads[t].taken, s.threads[t].initPriority);
    forall x: ThreadId | IsThread(r, x) ensures GoalOk(r, x) {
      if x != t {
        LastReleaseGoal(s, r, t, m, x);
      }
    }
  }

  lemma SamePriorities(ms: seq<Mutex>, ms': seq<Mutex>, taken: seq<MutexId>, acc: nat)
    requires Below(taken, |ms|) && |ms| == |ms'|
    requires forall i :: 0 <= i < |taken| ==> ms[taken[i]].priority == ms'[taken[i]].priority
    ensures LeastPriority(ms', taken, acc) == LeastPriority(ms, taken, acc)
  {
  }

  lemma ReleaseInv(s: State, t: ThreadId, m: MutexId)
    requires Inv(s) && Executing(s, t) && IsMutex(s, m)
    ensures Inv(Release(s, t, m).0)
  {
    var mx := s.mutexes[m];
    assert QueueOk(s, m);
    if mx.owner != Some(t) {
      MinorChange(s, t, EError, m, mx.hold);
      assert s.mutexes[m := mx] == s.mutexes;
    } else if mx.hold > 1 {
      MinorChange(s, t, s.threads[t].error, m, mx.hold - 1);
      assert s.threads[t := s.threads[t]] == s.threads;
    } else {
      var r := HandOver(GiveUp(s, t, m), m);
      LastReleaseEffect(s, t, m);
      LastReleaseThreads(s, r, t, m);
      LastReleaseMutexes(s, r, t, m);
      LastReleaseQueues(s, r, t, m);
      LastReleaseGoals(s, r, t, m);
    }
  }

  // ------------------------------------------------- deletion of a waiting thread

  ghost predicate CanDrop(s: State, t: ThreadId, m: MutexId) {
    Inv(s) && IsMutex(s, m) && WaitsFor(s, t, m) && s.threads[t].taken == []
  }

  /** `t` is closed and unlinked from the queue of `m`, whose cached priority is refreshed. */
  function LeaveQueue(s: State, t: ThreadId, m: MutexId): State
    requires CanDrop(s, t, m)
  {
    UnlinkMembers(s, t, m);
    var rest := Remove(s.mutexes[m].waiters, t);
    SetMutex(SetThread(s, t, s.threads[t].(stat := Close)), m,
             s.mutexes[m].(waiters := rest, priority := HeadPriority(s.threads, rest)))
  }

  lemma LeaveQueueShape(s: State, t: ThreadId, m: MutexId)
    requires CanDrop(s, t, m)
    ensures Shape(LeaveQueue(s, t, m))
  {
    var r := LeaveQueue(s, t, m);
    UnlinkMembers(s, t, m);
    RemoveContents(s.mutexes[m].waiters, t);
    assert ThreadShape(s, t) && MutexShape(s, m);
    forall x: ThreadId | IsThread(r, x) ensures ThreadShape(r, x) {
      assert IsThread(s, x) && ThreadShape(s, x);
    }
    forall n: MutexId | IsMutex(r, n) ensures MutexShape(r, n) {
      assert IsMutex(s, n) && MutexShape(s, n);
      forall x | x in r.mutexes[n].waiters ensures WaitsFor(r, x, n) && r.mutexes[n].owner != Some(x) {
        assert WaitsFor(s, x, n);
      }
    }
  }

  lemma LeftQueue(s: State, t: ThreadId, m: MutexId)
    requires CanDrop(s, t, m)
    ensures QueueOk(LeaveQueue(s, t, m), m)
  {
    var r := LeaveQueue(s, t, m);
    assert forall x: ThreadId :: IsThread(s, x) ==> r.threads[x].currentPriority == s.threads[x].currentPriority;
    assert QueueOk(s, m);
    UnlinkMembers(s, t, m);
    UnlinkSorted(s, t, m);
  }

  lemma LeaveQueueAt(s: State, t: ThreadId, m: MutexId, n: MutexId)
    requires CanDrop(s, t, m) && IsMutex(s, n) && n != m
    ensures QueueOk(LeaveQueue(s, t, m), n)
  {
    var r := LeaveQueue(s, t, m);
    assert forall x: ThreadId :: IsThread(s, x) ==> r.threads[x].currentPriority == s.threads[x].currentPriority;
    assert QueueOk(s, n);
    assert s.mutexes[n].waiters[0..] == s.mutexes[n].waiters;
    QueueTransfer(s, r, n, 0);
  }

  lemma LeaveQueueQueues(s: State, t: ThreadId, m: MutexId)
    requires CanDrop(s, t, m)
    ensures forall n: MutexId :: IsMutex(s, n) ==> QueueOk(LeaveQueue(s, t, m), n)
  {
    forall n: MutexId | IsMutex(s, n) ensures QueueOk(LeaveQueue(s, t, m), n) {
      if n == m {
        LeftQueue(s, t, m);
      } else {
        LeaveQueueAt(s, t, m, n);
      }
    }
  }

  /** Only the owner may have to give up urgency, and only if it was as urgent as `t`. */
  lemma LeaveQueueGoal(s: State, t: ThreadId, m: MutexId, x: ThreadId)
    requires CanDrop(s, t, m) && IsThread(s, x)
    ensures var r := LeaveQueue(s, t, m); TakenBelow(r, x) && (Some(x) != s.mutexes[m].owner ==> GoalOk(r, x))
  {
    var r := LeaveQueue(s, t, m);
    assert ThreadShape(s, t) && MutexShape(s, m) && ThreadShape(s, x) && GoalOk(s, x);
    if Some(x) != s.mutexes[m].owner {
      assert m !in s.threads[x].taken;
      SamePriorities(s.mutexes, r.mutexes, s.threads[x].taken, s.threads[x].initPriority);
    }
  }

  lemma LeaveQueueGoals(s: State, t: ThreadId, m: MutexId)
    requires CanDrop(s, t, m)
    ensures OwnedByOther(s, t, m)
    ensures var r := LeaveQueue(s, t, m);
      var o := s.mutexes[m].owner.value;
      && IsThread(r, o) && TakenBelow(r, o) && r.threads[o] == s.threads[o]
      && (forall x: ThreadId :: IsThread(r, x) && x != o ==> GoalOk(r, x))
      && Goal(r, o) >= s.threads[o].currentPriority
      && (s.threads[o].currentPriority != s.threads[t].currentPriority ==> GoalOk(r, o))
  {
    var r := LeaveQueue(s, t, m);
    assert ThreadShape(s, t) && MutexShape(s, m);
    var o := s.mutexes[m].owner.value;
    forall x: ThreadId | IsThread(r, x) ensures TakenBelow(r, x) && (x != o ==> GoalOk(r, x)) {
      LeaveQueueGoal(s, t, m, x);
    }
    assert IsThread(s, o) && GoalOk(s, o);
    LeaveQueuePriority(s, t, m);
    GoalMonotone(r, s, o);
    if s.threads[o].currentPriority != s.threads[t].currentPriority {
      OwnerBelowMutex(s, m);
      GoalUnaffected(s.mutexes, r.mutexes, s.threads[o].taken, m, s.threads[o].initPriority);
    }
  }

  lemma LeaveQueuePriority(s: State, t: ThreadId, m: MutexId)
    requires CanDrop(s, t, m)
    ensures var r := LeaveQueue(s, t, m);
      && r.mutexes[m].priority >= s.mutexes[m].priority
      && (s.mutexes[m].priority != s.threads[t].currentPriority ==> r.mutexes[m].priority == s.mutexes[m].priority)
  {
    var r := LeaveQueue(s, t, m);
    UnlinkMembers(s, t, m);
    var q, rest := s.mutexes[m].waiters, Remove(s.mutexes[m].waiters, t);
    assert QueueOk(s, m) && ThreadShape(s, t) && GoalOk(s, t);
    RemoveContents(q, t);
    HeadIsLeast(s, m, t);
    if rest != [] {
      assert rest[0] in rest;
      HeadIsLeast(s, m, rest[0]);
    }
    if q[0] != t {
      var i := IndexOf(q, t);
      assert rest[0] == q[0];
    }
  }

  /** A mutex that does not attain the minimum may become less urgent without any effect. */
  lemma GoalUnaffected(ms: seq<Mutex>, ms': seq<Mutex>, taken: seq<MutexId>, m: MutexId, acc: nat)
    requires Below(taken, |ms|) && |ms| == |ms'| && m < |ms|
    requires forall i :: 0 <= i < |taken| && taken[i] != m ==> ms'[taken[i]].priority == ms[taken[i]].priority
    requires ms'[m].priority >= ms[m].priority
    requires ms'[m].priority == ms[m].priority || ms[m].priority > LeastPriority(ms, taken, acc)
    ensures LeastPriority(ms', taken, acc) == LeastPriority(ms, taken, acc)
  {
    var a, b := LeastPriority(ms, taken, acc), LeastPriority(ms', taken, acc);
    if a != acc {
      var i :| 0 <= i < |taken| && a == ms[taken[i]].priority;
      assert b <= ms'[taken[i]].priority;
    }
    if b != acc {
      var i :| 0 <= i < |taken| && b == ms'[taken[i]].priority;
      assert a <= ms[taken[i]].priority;
    }
  }

  /** `rt_mutex_drop_thread`: unlink the dying waiter and let the owner give up what
      it inherited from it. */
  function DropWaiter(s: State, t: ThreadId, m: MutexId): (r: State)
    requires CanDrop(s, t, m)
    ensures Inv(r)
    ensures SameSkeleton(LeaveQueue(s, t, m), r)
    ensures Moved(s, r, false)
  {
    var s1 := LeaveQueue(s, t, m);
    LeaveQueueShape(s, t, m);
    LeaveQueueQueues(s, t, m);
    LeaveQueueGoals(s, t, m);
    var o := s.mutexes[m].owner.value;
    assert InvExcept(s1, Some(o));
    if s.threads[o].currentPriority == s.threads[t].currentPriority && Goal(s1, o) != s1.threads[o].currentPriority
    then UpdatePriority(s1, o, Goal(s1, o))
    else
      assert GoalOk(s1, o);
      s1
  }

  /** Changes of a thread that has no part in the waiting structure. */
  ghost predicate Detached(th: Thread) {
    th.pending.None? || th.stat == Close
  }

  lemma DetachedChange(s: State, t: ThreadId, st: Stat, pend: Option<MutexId>)
    requires Inv(s) && IsThread(s, t) && Detached(s.threads[t])
    requires pend == None || (pend == s.threads[t].pending && st == Close)
    ensures Inv(SetThread(s, t, s.threads[t].(stat := st, pending := pend)))
  {
    var r := SetThread(s, t, s.threads[t].(stat := st, pending := pend));
    forall x: ThreadId | IsThread(r, x) ensures ThreadShape(r, x) && GoalOk(r, x) {
      assert IsThread(s, x) && ThreadShape(s, x) && GoalOk(s, x);
      SamePriorities(s.mutexes, r.mutexes, s.threads[x].taken, s.threads[x].initPriority);
    }
    forall n: MutexId | IsMutex(r, n) ensures MutexShape(r, n) && QueueOk(r, n) {
      assert IsMutex(s, n) && MutexShape(s, n) && QueueOk(s, n);
      forall x | x in r.mutexes[n].waiters ensures WaitsFor(r, x, n) {
        assert WaitsFor(s, x, n);
      }
    }
  }

  /** `rt_thread_detach` or `rt_thread_delete` of a thread that owns no mutex. */
  function Delete(s: State, t: ThreadId): (r: State)
    requires Inv(s) && IsThread(s, t) && s.threads[t].stat != Close && s.threads[t].taken == []
    ensures Inv(r)
  {
    var th := s.threads[t];
    if th.pending.Some? then
      assert ThreadShape(s, t);
      var s1 := DropWaiter(s, t, th.pending.value);
      assert SameThread(LeaveQueue(s, t, th.pending.value).threads[t], s1.threads[t]);
      DetachedChange(s1, t, Close, None);
      SetThread(s1, t, s1.threads[t].(stat := Close, pending := None))
    else
      DetachedChange(s, t, Close, None);
      SetThread(s, t, th.(stat := Close, pending := None))
  }

  // ------------------------------------------------------------------------- runs

  datatype Event =
    | CreateThread(priority: nat)
    | CreateMutex
    | Schedule(t: ThreadId, stat: Stat)
    | TakeMutex(t: ThreadId, m: MutexId, forever: bool)
    | ReleaseMutex(t: ThreadId, m: MutexId)
    | DeleteThread(t: ThreadId)

  /** Which critical sections may come next.  `Schedule` stands for every state change made
      elsewhere in the kernel: starting, dispatching, preempting, sleeping or waiting on
      another kind of object, and waking up from there. */
  ghost predicate Enabled(s: State, e: Event) {
    match e
    case CreateThread(p) => p < PRIORITY_MAX
    case CreateMutex => true
    case Schedule(t, stat) => IsThread(s, t) && s.threads[t].pending.None? && s.threads[t].stat != Close && stat != Close
    case TakeMutex(t, m, _) => Executing(s, t) && IsMutex(s, m)
    case ReleaseMutex(t, m) => Executing(s, t) && IsMutex(s, m)
    case DeleteThread(t) => IsThread(s, t) && s.threads[t].stat != Close && s.threads[t].taken == []
  }

  function Step(s: State, e: Event): State
    requires Inv(s) && Enabled(s, e)
  {
    match e
    case CreateThread(p) => s.(threads := s.threads + [Thread(p, p, Init, EOk, None, [])])
    case CreateMutex => s.(mutexes := s.mutexes + [Mutex(None, 0, NO_PRIORITY, [])])
    case Schedule(t, stat) => SetThread(s, t, s.threads[t].(stat := stat))
    case TakeMutex(t, m, forever) => Take(s, t, m, forever).0
    case ReleaseMutex(t, m) => Release(s, t, m).0
    case DeleteThread(t) => Delete(s, t)
  }

  lemma CreateInv(s: State, e: Event)
    requires Inv(s) && Enabled(s, e) && (e.CreateThread? || e.CreateMutex?)
    ensures Inv(Step(s, e))
  {
    var r := Step(s, e);
    forall x: ThreadId | IsThread(r, x) ensures ThreadShape(r, x) && GoalOk(r, x) {
      if IsThread(s, x) {
        assert ThreadShape(s, x) && GoalOk(s, x);
        assert TakenBelow(r, x);
        GoalMonotone(s, r, x);
        GoalMonotone(r, s, x);
      }
    }
    forall n: MutexId | IsMutex(r, n) ensures MutexShape(r, n) && QueueOk(r, n) {
      if IsMutex(s, n) {
        assert MutexShape(s, n) && QueueOk(s, n);
        forall x | x in r.mutexes[n].waiters ensures WaitsFor(r, x, n) {
          assert WaitsFor(s, x, n);
        }
      }
    }
  }

  lemma StepKeepsInv(s: State, e: Event)
    requires Inv(s) && Enabled(s, e)
    ensures Inv(Step(s, e))
  {
    match e
    case CreateThread(_) => CreateInv(s, e);
    case CreateMutex => CreateInv(s, e);
    case Schedule(t, stat) => DetachedChange(s, t, stat, None);
    case TakeMutex(t, m, forever) => TakeInv(s, t, m, forever);
    case ReleaseMutex(t, m) => ReleaseInv(s, t, m);
    case DeleteThread(t) =>
  }

  /** `states` is a run of the kernel from boot: every step is an enabled event. */
  ghost predicate IsRun(states: seq<State>, events: seq<Event>) {
    && |states| == |events| + 1
    && states[0] == State([], [])
    && forall i :: 0 <= i < |events| ==> IsStep(states[i], events[i], states[i + 1])
  }

  ghost predicate IsStep(s: State, e: Event, r: State) {
    Enabled(s, e) && (Inv(s) ==> r == Step(s, e))
  }

  /** In every state of every run the priorities solve the inheritance equations. */
  lemma {:induction false} RunKeepsInv(states: seq<State>, events: seq<Event>)
    requires IsRun(states, events)
    ensures forall i :: 0 <= i < |states| ==> Inv(states[i])
  {
    if events == [] {
      assert Inv(states[0]);
    } else {
      var n := |events| - 1;
      var before := states[..n + 1];
      assert IsRun(before, events[..n]) by {
        forall i | 0 <= i < n ensures IsStep(before[i], events[..n][i], before[i + 1]) {
          assert IsStep(states[i], events[i], states[i + 1]);
        }
      }
      RunKeepsInv(before, events[..n]);
      assert before[n] == states[n];
      assert IsStep(states[n], events[n], states[n + 1]);
      StepKeepsInv(states[n], events[n]);
      forall i | 0 <= i < |states| ensures Inv(states[i]) {
        assert i <= n ==> states[i] == before[i];
      }
    }
  }

  // ------------------------------------------- what the fixpoint means for blocking

  /** Each thread of the chain waits for a mutex owned by the next one. */
  ghost predicate BlockingChain(s: State, chain: seq<ThreadId>) {
    && |chain| > 0
    && Below(chain, |s.threads|)
    && forall i :: 0 <= i < |chain| - 1 ==> Blocker(s, chain[i]) == Some(chain[i + 1])
  }

  /** A thread is at least as urgent as every thread transitively blocked behind it. */
  lemma {:induction false} OwnerAtLeastAsUrgent(s: State, chain: seq<ThreadId>)
    requires Inv(s) && BlockingChain(s, chain)
    ensures s.threads[chain[|chain| - 1]].currentPriority <= s.threads[chain[0]].currentPriority
    ensures s.threads[chain[0]].currentPriority <= s.threads[chain[0]].initPriority
  {
    var t := chain[0];
    assert IsThread(s, t) && GoalOk(s, t);
    if |chain| > 1 {
      var o, rest := chain[1], chain[1..];
      assert Blocker(s, t) == Some(o);
      assert forall i :: 0 <= i < |rest| ==> rest[i] == chain[i + 1];
      assert BlockingChain(s, rest) by {
        forall i | 0 <= i < |rest| - 1 ensures Blocker(s, rest[i]) == Some(rest[i + 1]) {
          assert Blocker(s, chain[i + 1]) == Some(chain[i + 2]);
        }
      }
      OwnerAtLeastAsUrgent(s, rest);
      BlockerUrgent(s, t);
    }
  }

  lemma BlockerUrgent(s: State, t: ThreadId)
    requires Inv(s) && IsThread(s, t) && Blocker(s, t).Some?
    ensures Blocker(s, t).value < |s.threads|
    ensures s.threads[Blocker(s, t).value].currentPriority <= s.threads[t].currentPriority
  {
    var m := s.threads[t].pending.value;
    assert ThreadShape(s, t) && IsMutex(s, m) && QueueOk(s, m);
    OwnerBelowMutex(s, m);
    HeadIsLeast(s, m, t);
  }

  /** There is no deadlock: nobody is blocked behind itself. */
  ghost predicate Acyclic(s: State) {
    forall chain :: BlockingChain(s, chain) && |chain| > 1 ==> chain[0] != chain[|chain| - 1]
  }

  /** `x` is blocked behind itself. */
  ghost predicate OnCycle(s: State, x: ThreadId) {
    exists loop :: IsLoop(s, loop, x)
  }

  ghost predicate IsLoop(s: State, loop: seq<ThreadId>, x: ThreadId) {
    BlockingChain(s, loop) && |loop| > 1 && loop[0] == x == loop[|loop| - 1]
  }

  /** Without deadlock no urgency is left over from the past: a thread runs at exactly the
      least initial priority found among itself and the threads blocked behind it.  It is
      enough that the thread itself is not part of a deadlock. */
  lemma PriorityIsExact(s: State, t: ThreadId)
    requires Inv(s) && IsThread(s, t) && (Acyclic(s) || !OnCycle(s, t))
    ensures forall chain :: BlockingChain(s, chain) && chain[|chain| - 1] == t ==>
              s.threads[t].currentPriority <= s.threads[chain[0]].initPriority
    ensures exists chain :: BlockingChain(s, chain) && chain[|chain| - 1] == t
              && s.threads[t].currentPriority == s.threads[chain[0]].initPriority
  {
    forall chain | BlockingChain(s, chain) && chain[|chain| - 1] == t
      ensures s.threads[t].currentPriority <= s.threads[chain[0]].initPriority
    {
      OwnerAtLeastAsUrgent(s, chain);
    }
    var chain := InheritedFrom(s, [t]);
  }

  /** Follows the inherited priority back to the thread it comes from. */
  lemma {:induction false} InheritedFrom(s: State, chain: seq<ThreadId>) returns (full: seq<ThreadId>)
    requires Inv(s) && BlockingChain(s, chain) && Distinct(chain) && !OnCycle(s, chain[|chain| - 1])
    requires s.threads[chain[0]].currentPriority == s.threads[chain[|chain| - 1]].currentPriority
    ensures BlockingChain(s, full) && full[|full| - 1] == chain[|chain| - 1]
    ensures s.threads[full[0]].initPriority == s.threads[full[|full| - 1]].currentPriority
    decreases |s.threads| - |chain|
  {
    var t := chain[0];
    assert IsThread(s, t) && GoalOk(s, t);
    if s.threads[t].initPriority == s.threads[t].currentPriority {
      return chain;
    }
    var w := BoostingWaiter(s, None, t);
    var longer := [w] + chain;
    assert BlockingChain(s, longer) by {
      forall i | 0 <= i < |longer| - 1 ensures Blocker(s, longer[i]) == Some(longer[i + 1]) {
        assert i > 0 ==> Blocker(s, chain[i - 1]) == Some(chain[i]);
      }
    }
    assert longer[1..] == chain;
    NoRepeat(s, longer);
    Pigeonhole(longer, |s.threads|);
    full := InheritedFrom(s, longer);
  }

  /** A goal that is not the initial priority is the current one of a thread that waits for `t`. */
  lemma BoostingWaiter(s: State, hole: Option<ThreadId>, t: ThreadId) returns (w: ThreadId)
    requires InvExcept(s, hole) && IsThread(s, t) && TakenBelow(s, t) && s.threads[t].initPriority != Goal(s, t)
    ensures IsThread(s, w) && w != t && Blocker(s, w) == Some(t)
    ensures s.threads[w].currentPriority == Goal(s, t)
  {
    assert ThreadShape(s, t);
    var taken := s.threads[t].taken;
    var i :| 0 <= i < |taken| && Goal(s, t) == s.mutexes[taken[i]].priority;
    var m := taken[i];
    assert m in taken && IsMutex(s, m) && QueueOk(s, m) && MutexShape(s, m);
    w := s.mutexes[m].waiters[0];
    assert w in s.mutexes[m].waiters && WaitsFor(s, w, m);
  }

  /** A chain that ends outside every cycle visits no thread twice. */
  lemma NoRepeat(s: State, chain: seq<ThreadId>)
    requires BlockingChain(s, chain) && Distinct(chain[1..]) && !OnCycle(s, chain[|chain| - 1])
    ensures Distinct(chain)
  {
    forall i, j | 0 <= i < j < |chain| ensures chain[i] != chain[j] {
      if i > 0 {
        assert chain[1..][i - 1] != chain[1..][j - 1];
      } else if chain[0] == chain[j] {
        CycleStays(s, chain, j);
      }
    }
  }

  /** A chain never leaves a cycle, since every thread is blocked by at most one other. */
  lemma {:induction false} CycleStays(s: State, chain: seq<ThreadId>, j: nat)
    requires BlockingChain(s, chain) && 0 < j < |chain| && chain[0] == chain[j]
    ensures OnCycle(s, chain[|chain| - 1])
    decreases |chain|
  {
    if j == |chain| - 1 {
      assert IsLoop(s, chain, chain[j]);
    } else {
      assert Blocker(s, chain[0]) == Some(chain[1]) && Blocker(s, chain[j]) == Some(chain[j + 1]);
      var rest := chain[1..];
      forall k | 0 <= k < |rest| ensures rest[k] == chain[k + 1] {
      }
      assert BlockingChain(s, rest) by {
        forall k | 0 <= k < |rest| - 1 ensures Blocker(s, rest[k]) == Some(rest[k + 1]) {
          assert Blocker(s, chain[k + 1]) == Some(chain[k + 2]);
        }
      }
      CycleStays(s, rest, j);
    }
  }

  // -------------------------------------------- what each call does to ownership

  lemma TakeEffect(s: State, t: ThreadId, m: MutexId, forever: bool)
    requires Inv(s) && Executing(s, t) && IsMutex(s, m)
    ensures var (r, out) := Take(s, t, m, forever); var mx := s.mutexes[m];
      && (out == Blocked <==> OwnedByOther(s, t, m) && forever)
      && (out == TimedOut <==> OwnedByOther(s, t, m) && !forever)
      && (out == Full <==> mx.owner == Some(t) && mx.hold == HOLD_MAX)
      && |r.threads| == |s.threads| && |r.mutexes| == |s.mutexes|
      && (out == Ok ==>
            && r.mutexes[m] == mx.(owner := Some(t), hold := mx.hold + 1)
            && multiset(r.threads[t].taken) == multiset(s.threads[t].taken) + (if mx.owner == None then multiset{m} else multiset{}))
      && (out == TimedOut || out == Full ==> r.mutexes == s.mutexes)
      && (out != Blocked ==> forall x: ThreadId :: IsThread(s, x) && x != t ==> r.threads[x] == s.threads[x])
      && (forall n: MutexId :: IsMutex(s, n) && n != m && out != Blocked ==> r.mutexes[n] == s.mutexes[n])
  {
    assert MutexShape(s, m) && QueueOk(s, m);
  }

  /** What a take leaves in the caller's own record. */
  lemma TakeTells(s: State, t: ThreadId, m: MutexId, forever: bool)
    requires Inv(s) && Executing(s, t) && IsMutex(s, m)
    ensures var (r, out) := Take(s, t, m, forever);
      && IsThread(r, t)
      && r.threads[t].error == (if out == TimedOut then ETimeout else EOk)
      && r.threads[t].stat == (if out == Blocked then Suspend else Running)
      && r.threads[t].pending == (if out == Blocked then Some(m) else s.threads[t].pending)
      && (out == Ok && s.mutexes[m].owner == None ==> m in r.threads[t].taken)
      && (out == TimedOut || out == Full ==> r.threads[t].taken == s.threads[t].taken)
  {
    if OwnedByOther(s, t, m) && forever {
      var q := JoinQueue(s, t, m);
      assert IsThread(q, t) && SameThread(q.threads[t], Take(s, t, m, forever).0.threads[t]);
    }
  }

  /** A blocked take queues the caller and leaves all ownership alone; priorities of other
      threads only become more urgent. */
  lemma TakeBlocks(s: State, t: ThreadId, m: MutexId)
    requires Inv(s) && Executing(s, t) && OwnedByOther(s, t, m)
    ensures var r := Take(s, t, m, true).0;
      && WaitsFor(r, t, m)
      && |r.threads| == |s.threads| && |r.mutexes| == |s.mutexes|
      && (forall n: MutexId :: IsMutex(s, n) ==>
            && r.mutexes[n].owner == s.mutexes[n].owner && r.mutexes[n].hold == s.mutexes[n].hold
            && multiset(r.mutexes[n].waiters) == multiset(s.mutexes[n].waiters) + (if n == m then multiset{t} else multiset{}))
      && (forall x: ThreadId :: IsThread(s, x) ==>
            && r.threads[x].currentPriority <= s.threads[x].currentPriority
            && r.threads[x].taken == s.threads[x].taken
            && (x != t ==> SameThread(s.threads[x], r.threads[x])))
  {
    var q := JoinQueue(s, t, m);
    var r := Take(s, t, m, true).0;
    assert QueueOk(s, m);
    InsertContents(s.mutexes[m].waiters, QueuePosition(s.threads, s.mutexes[m].waiters, s.threads[t].currentPriority), t);
    assert IsThread(q, t) && SameThread(q.threads[t], r.threads[t]);
    forall n: MutexId | IsMutex(s, n)
      ensures r.mutexes[n].owner == s.mutexes[n].owner && r.mutexes[n].hold == s.mutexes[n].hold
      ensures multiset(r.mutexes[n].waiters) == multiset(s.mutexes[n].waiters) + (if n == m then multiset{t} else multiset{})
    {
      assert IsMutex(q, n) && SameMutex(q.mutexes[n], r.mutexes[n]);
    }
    forall x: ThreadId | IsThread(s, x)
      ensures r.threads[x].taken == s.threads[x].taken && (x != t ==> SameThread(s.threads[x], r.threads[x]))
    {
      assert IsThread(q, x) && SameThread(q.threads[x], r.threads[x]);
    }
  }

  /** The last release hands the mutex to the most urgent waiter, wakes exactly that one, and
      leaves the releasing thread with the least priority it still inherits. */
  lemma ReleaseHandsOver(s: State, t: ThreadId, m: MutexId)
    requires CanGiveUp(s, t, m) && s.mutexes[m].hold == 1
    ensures var (r, out) := Release(s, t, m); var q := s.mutexes[m].waiters;
      && out == Ok
      && |r.threads| == |s.threads| && |r.mutexes| == |s.mutexes|
      && m !in r.threads[t].taken
      && r.threads[t].currentPriority >= s.threads[t].currentPriority
      && (q == [] <==> r.mutexes[m].owner == None)
      && (q != [] ==>
            && var n := q[0];
            && IsThread(s, n)
            && r.mutexes[m].owner == Some(n) && r.mutexes[m].hold == 1
            && r.threads[n].stat == Ready
            && r.threads[n].currentPriority == s.threads[n].currentPriority
            && (forall w :: w in q ==> IsThread(s, w) && s.threads[n].currentPriority <= s.threads[w].currentPriority)
            && multiset(r.mutexes[m].waiters) == multiset(q) - multiset{n})
      && (forall x: ThreadId :: IsThread(s, x) && x != t && (q == [] || x != q[0]) ==> r.threads[x] == s.threads[x])
  {
    LastReleaseEffect(s, t, m);
    assert ThreadShape(s, t) && QueueOk(s, m);
    RemoveContents(s.threads[t].taken, m);
    var q := s.mutexes[m].waiters;
    if q != [] {
      assert q == [q[0]] + q[1..];
      forall w | w in q ensures IsThread(s, w) && s.threads[q[0]].currentPriority <= s.threads[w].currentPriority {
        HeadIsLeast(s, m, w);
      }
    }
  }

  /** Only the last release of the owner gives the mutex up; before that a release takes one off, and anybody else's is an error. */
  lemma ReleaseEffect(s: State, t: ThreadId, m: MutexId)
    requires Inv(s) && Executing(s, t) && IsMutex(s, m)
    ensures var (r, out) := Release(s, t, m); var mx := s.mutexes[m];
      && (out == Ok || out == NotOwner) && (out == NotOwner <==> mx.owner != Some(t))
      && (out == NotOwner ==> r == s.(threads := s.threads[t := s.threads[t].(error := EError)]))
      && (out == Ok && mx.hold > 1 ==> r == s.(mutexes := s.mutexes[m := mx.(hold := mx.hold - 1)]))
      && (out == Ok && mx.hold == 1 ==> IsMutex(r, m) && r.mutexes[m].owner != Some(t))
  {
    if s.mutexes[m].owner == Some(t) {
      assert MutexShape(s, m);
      if s.mutexes[m].hold == 1 {
        LastReleaseEffect(s, t, m);
      }
    }
  }

  /** A deleted thread is closed and in no queue; ownership stays, and priorities only become less urgent. */
  lemma DeleteRemoves(s: State, t: ThreadId)
    requires Inv(s) && IsThread(s, t) && s.threads[t].stat != Close && s.threads[t].taken == []
    ensures var r := Delete(s, t);
      && |r.threads| == |s.threads| && |r.mutexes| == |s.mutexes|
      && r.threads[t] == s.threads[t].(stat := Close, pending := None, currentPriority := r.threads[t].currentPriority)
      && (forall x: ThreadId :: IsThread(s, x) ==> s.threads[x].currentPriority <= r.threads[x].currentPriority)
      && (forall x: ThreadId :: IsThread(s, x) && x != t ==> SameThread(s.threads[x], r.threads[x]))
      && (forall n: MutexId :: IsMutex(s, n) ==>
            && r.mutexes[n].owner == s.mutexes[n].owner && r.mutexes[n].hold == s.mutexes[n].hold
            && (forall w :: w in r.mutexes[n].waiters <==> w in s.mutexes[n].waiters && w != t))
  {
    if s.threads[t].pending.Some? {
      DropRemoves(s, t, s.threads[t].pending.value);
    } else {
      forall n: MutexId | IsMutex(s, n) ensures t !in s.mutexes[n].waiters {
        assert MutexShape(s, n) && QueueOk(s, n);
      }
    }
  }

  lemma DropRemoves(s: State, t: ThreadId, m: MutexId)
    requires CanDrop(s, t, m)
    ensures var r := DropWaiter(s, t, m);
      && |r.threads| == |s.threads| && |r.mutexes| == |s.mutexes|
      && (forall x: ThreadId :: IsThread(s, x) ==> s.threads[x].currentPriority <= r.threads[x].currentPriority)
      && SameThread(s.threads[t].(stat := Close), r.threads[t])
      && (forall x: ThreadId :: IsThread(s, x) && x != t ==> SameThread(s.threads[x], r.threads[x]))
      && (forall n: MutexId :: IsMutex(s, n) ==>
            && r.mutexes[n].owner == s.mutexes[n].owner && r.mutexes[n].hold == s.mutexes[n].hold
            && (forall w :: w in r.mutexes[n].waiters <==> w in s.mutexes[n].waiters && w != t))
  {
    var u, r := LeaveQueue(s, t, m), DropWaiter(s, t, m);
    RemoveContents(s.mutexes[m].waiters, t);
    forall n: MutexId | IsMutex(s, n)
      ensures r.mutexes[n].owner == s.mutexes[n].owner && r.mutexes[n].hold == s.mutexes[n].hold
      ensures forall w :: w in r.mutexes[n].waiters <==> w in s.mutexes[n].waiters && w != t
    {
      assert SameMutex(u.mutexes[n], r.mutexes[n]) && MutexShape(s, n) && QueueOk(s, n);
      forall w ensures w in r.mutexes[n].waiters <==> w in u.mutexes[n].waiters {
        assert w in multiset(r.mutexes[n].waiters) <==> w in multiset(u.mutexes[n].waiters);
      }
    }
    forall x: ThreadId | IsThread(s, x) ensures SameThread(u.threads[x], r.threads[x]) {
    }
  }

  lemma AcquireThenRelease(s: State, t: ThreadId, m: MutexId, r: State)
    requires IsThread(s, t) && IsMutex(s, m) && GoalOk(s, t)
    requires s.mutexes[m] == Mutex(None, 0, NO_PRIORITY, [])
    requires var th := s.threads[t];
      r == SetMutex(SetThread(s, t, th.(error := EOk, taken := [m] + th.taken)), m, Mutex(Some(t), 1, NO_PRIORITY, []))
    requires TakenBelow(r, t)
    ensures HandOver(GiveUp(r, t, m), m) == SetThread(s, t, s.threads[t].(error := EOk))
  {
    var g := GiveUp(r, t, m);
    AcquiredKept(s, t, m, r);
    HandBack(s, g, m);
  }

  lemma AcquiredKept(s: State, t: ThreadId, m: MutexId, r: State)
    requires IsThread(s, t) && IsMutex(s, m) && GoalOk(s, t) && |r.mutexes| == |s.mutexes|
    requires r.threads == s.threads[t := s.threads[t].(error := EOk, taken := [m] + s.threads[t].taken)] && TakenBelow(r, t)
    requires forall n: MutexId :: IsMutex(s, n) ==> r.mutexes[n].priority == s.mutexes[n].priority
    ensures GiveUp(r, t, m) == State(s.threads[t := s.threads[t].(error := EOk)], r.mutexes)
  {
    var th := s.threads[t];
    assert Remove([m] + th.taken, m) == th.taken;
    SamePriorities(s.mutexes, r.mutexes, th.taken, th.initPriority);
    assert KeptPriority(r.mutexes, r.threads[t], m) == th.currentPriority;
    assert GiveUp(r, t, m).threads == s.threads[t := th.(error := EOk)];
  }

  lemma HandBack(s: State, g: State, m: MutexId)
    requires IsMutex(s, m) && s.mutexes[m] == Mutex(None, 0, NO_PRIORITY, []) && |g.mutexes| == |s.mutexes|
    requires g.mutexes[m].waiters == [] && g.mutexes == s.mutexes[m := g.mutexes[m]]
    ensures HandOver(g, m) == State(g.threads, s.mutexes)
  {
    assert HandOver(g, m).mutexes == s.mutexes;
  }

  /** A release undoes the take before it. */
  lemma TakeThenRelease(s: State, t: ThreadId, m: MutexId, forever: bool)
    requires Inv(s) && Executing(s, t) && IsMutex(s, m) && Take(s, t, m, forever).1 == Ok
    ensures var r := Take(s, t, m, forever).0;
      && Inv(r) && Executing(r, t) && IsMutex(r, m)
      && Release(r, t, m) == (SetThread(s, t, s.threads[t].(error := EOk)), Ok)
  {
    TakeInv(s, t, m, forever);
    var r := Take(s, t, m, forever).0;
    assert MutexShape(s, m);
    if s.mutexes[m].owner == None {
      assert QueueOk(s, m) && GoalOk(s, t) && GoalOk(r, t);
      AcquireThenRelease(s, t, m, r);
    } else {
      assert Release(r, t, m).0.mutexes == s.mutexes;
    }
  }

  // --------------------------------------------------------- the code, in place

  lemma QueuePositionIs(threads: seq<Thread>, waiters: seq<ThreadId>, p: nat, i: nat)
    requires Below(waiters, |threads|) && i <= |waiters|
    requires forall k :: 0 <= k < i ==> threads[waiters[k]].currentPriority <= p
    requires i < |waiters| ==> p < threads[waiters[i]].currentPriority
    ensures i == QueuePosition(threads, waiters, p)
  {
  }

  /** The two object tables of the kernel and the functions of ipc.c working on them. */
  class MutexKernel {
    var threads: seq<Thread>
    var mutexes: seq<Mutex>

    ghost function Now(): State
      reads this
    {
      State(threads, mutexes)
    }

    constructor ()
      ensures Now() == State([], []) && Inv(Now())
    {
      threads, mutexes := [], [];
    }

    /** `_ipc_list_suspend` with RT_IPC_FLAG_PRIO; `rt_thread_suspend` leaves a thread that is
        already suspended as it is. */
    method ListSuspend(t: ThreadId, m: MutexId)
      requires t < |threads| && m < |mutexes| && Below(mutexes[m].waiters, |threads|)
      modifies this
      ensures threads == old(threads)[t := old(threads)[t].(stat :=
          if old(threads)[t].stat == Ready || old(threads)[t].stat == Running then Suspend else old(threads)[t].stat)]
      ensures mutexes == old(mutexes)[m := old(mutexes)[m].(waiters := Enqueued(old(threads), old(mutexes)[m].waiters, t))]
    {
      if threads[t].stat == Ready || threads[t].stat == Running {
        threads := threads[t := threads[t].(stat := Suspend)];
      }
      var q := mutexes[m].waiters;
      var i := 0;
      while i < |q| && threads[q[i]].currentPriority <= threads[t].currentPriority
        invariant i <= |q|
        invariant forall k :: 0 <= k < i ==> old(threads)[q[k]].currentPriority <= old(threads)[t].currentPriority
      {
        i := i + 1;
      }
      QueuePositionIs(old(threads), q, old(threads)[t].currentPriority, i);
      mutexes := mutexes[m := mutexes[m].(waiters := InsertAt(q, i, t))];
    }

    /** `_mutex_update_priority` */
    method MutexUpdatePriority(m: MutexId)
      requires m < |mutexes| && Below(mutexes[m].waiters, |threads|)
      modifies this`mutexes
      ensures mutexes == old(mutexes)[m := old(mutexes)[m].(priority := HeadPriority(threads, old(mutexes)[m].waiters))]
    {
      var q := mutexes[m].waiters;
      if q != [] {
        mutexes := mutexes[m := mutexes[m].(priority := threads[q[0]].currentPriority)];
      } else {
        mutexes := mutexes[m := mutexes[m].(priority := NO_PRIORITY)];
      }
    }

    /** `_thread_get_mutex_priority` */
    method ThreadGetMutexPriority(t: ThreadId) returns (priority: nat)
      requires t < |threads| && TakenBelow(Now(), t)
      ensures priority == Goal(Now(), t)
    {
      priority := threads[t].initPriority;
      var taken := threads[t].taken;
      var i := 0;
      while i < |taken|
        invariant i <= |taken| && Below(taken[i..], |mutexes|)
        invariant LeastPriority(mutexes, taken[i..], priority) == Goal(Now(), t)
      {
        var rest := taken[i + 1..];
        assert taken[i..][1..] == rest;
        assert forall k :: 0 <= k < |rest| ==> rest[k] == taken[k + i + 1];
        if priority > mutexes[taken[i]].priority {
          priority := mutexes[taken[i]].priority;
        }
        i := i + 1;
      }
    }

    /** The part of `_thread_update_priority` before its recursive call. */
    method ChangePriority(t: ThreadId, p: nat)
      requires Shape(Now()) && IsThread(Now(), t)
      modifies this
      ensures Now() == Reprioritize(old(Now()), t, p)
    {
      ghost var s := Now();
      threads := threads[t := threads[t].(currentPriority := p)];
      if threads[t].stat == Suspend && threads[t].pending.Some? {
        var m := threads[t].pending.value;
        assert ThreadShape(s, t);
        UnlinkMembers(s, t, m);
        mutexes := mutexes[m := mutexes[m].(waiters := Remove(mutexes[m].waiters, t))];
        ListSuspend(t, m);
        assert threads == SetCurrent(s, t, p).threads;
        MutexUpdatePriority(m);
        assert mutexes == Reprioritize(s, t, p).mutexes;
      }
    }

    /** `_thread_update_priority` */
    method ThreadUpdatePriority(t: ThreadId, p: nat)
      requires NeedsUpdate(Now(), t, p)
      modifies this
      ensures Now() == UpdatePriority(old(Now()), t, p)
      decreases TotalDistance(threads, p < threads[t].currentPriority)
    {
      ghost var s := Now();
      UpdateStep(s, t, p);
      DistanceDrops(s, t, p);
      var blocker := Blocker(State(threads, mutexes), t);
      ChangePriority(t, p);
      if blocker.Some? {
        BlockerFollows(s, t, p, blocker.value);
        var priority := ThreadGetMutexPriority(blocker.value);
        if priority != threads[blocker.value].currentPriority {
          ThreadUpdatePriority(blocker.value, priority);
        }
      }
    }

    /** The blocking part of `rt_mutex_take`. */
    method BlockOn(t: ThreadId, m: MutexId)
      requires Inv(Now()) && Executing(Now(), t) && OwnedByOther(Now(), t, m) && threads[t].error == EOk
      modifies this
      ensures Now() == Block(old(Now()), t, m)
    {
      ghost var s := Now();
      JoinQueueShape(s, t, m);
      JoinQueueQueues(s, t, m);
      JoinQueueGoals(s, t, m);
      assert QueueOk(s, m);
      var owner := mutexes[m].owner.value;
      var priority := threads[t].currentPriority;
      ListSuspend(t, m);
      threads := threads[t := threads[t].(pending := Some(m))];
      assert threads == JoinQueue(s, t, m).threads;
      if priority < mutexes[m].priority {
        mutexes := mutexes[m := mutexes[m].(priority := priority)];
        assert mutexes == JoinQueue(s, t, m).mutexes;
        if mutexes[m].priority < threads[owner].currentPriority {
          ThreadUpdatePriority(owner, priority);
        }
      } else {
        assert mutexes == JoinQueue(s, t, m).mutexes;
      }
    }

    /** `rt_mutex_take` up to the point where a blocked caller gives up the processor. */
    method TakeMutex(t: ThreadId, m: MutexId, forever: bool) returns (out: Outcome)
      requires Inv(Now()) && Executing(Now(), t) && IsMutex(Now(), m)
      modifies this
      ensures (Now(), out) == Take(old(Now()), t, m, forever)
      ensures Inv(Now())
    {
      ghost var s := Now();
      TakeInv(s, t, m, forever);
      ErrorIrrelevant(s, t, m);
      threads := threads[t := threads[t].(error := EOk)];
      if mutexes[m].owner == Some(t) {
        if mutexes[m].hold < HOLD_MAX {
          mutexes := mutexes[m := mutexes[m].(hold := mutexes[m].hold + 1)];
          out := Ok;
        } else {
          out := Full;
        }
        assert Now() == Take(s, t, m, forever).0;
      } else if mutexes[m].owner == None {
        mutexes := mutexes[m := mutexes[m].(owner := Some(t), priority := NO_PRIORITY, hold := 1)];
        threads := threads[t := threads[t].(taken := [m] + threads[t].taken)];
        assert threads == Take(s, t, m, forever).0.threads;
        out := Ok;
      } else if !forever {
        threads := threads[t := threads[t].(error := ETimeout)];
        assert threads == Take(s, t, m, forever).0.threads;
        out := TimedOut;
      } else {
        BlockOn(t, m);
        out := Blocked;
      }
    }

    /** The part of `rt_mutex_release` that wakes the first waiter. */
    method WakeFirst(m: MutexId)
      requires IsMutex(Now(), m) && mutexes[m].hold == 0 && Below(mutexes[m].waiters, |threads|)
      modifies this
      ensures Now() == HandOver(old(Now()), m)
    {
      var q := mutexes[m].waiters;
      if q != [] {
        var next := q[0];
        assert forall k :: 0 <= k < |q| - 1 ==> q[1..][k] == q[k + 1];
        mutexes := mutexes[m := mutexes[m].(waiters := q[1..], owner := Some(next), hold := 1)];
        threads := threads[next := threads[next].(taken := [m] + threads[next].taken, pending := None, stat := Ready)];
        MutexUpdatePriority(m);
      } else {
        mutexes := mutexes[m := mutexes[m].(owner := None, priority := NO_PRIORITY)];
      }
    }

    /** The part of `rt_mutex_release` that unlinks the mutex from its owner. */
    method Unlink(t: ThreadId, m: MutexId)
      requires IsThread(Now(), t) && IsMutex(Now(), m) && TakenBelow(Now(), t)
      modifies this`threads
      ensures Now() == GiveUp(old(Now()), t, m)
    {
      UnlinkLeast(mutexes, threads[t].taken, m, threads[t].initPriority);
      threads := threads[t := threads[t].(taken := Remove(threads[t].taken, m))];
      if threads[t].currentPriority == mutexes[m].priority {
        var priority := ThreadGetMutexPriority(t);
        threads := threads[t := threads[t].(currentPriority := priority)];
      }
    }

    /** `rt_mutex_release` */
    method ReleaseMutex(t: ThreadId, m: MutexId) returns (out: Outcome)
      requires Inv(Now()) && Executing(Now(), t) && IsMutex(Now(), m)
      modifies this
      ensures (Now(), out) == Release(old(Now()), t, m)
      ensures Inv(Now())
    {
      ghost var s := Now();
      ReleaseInv(s, t, m);
      assert QueueOk(s, m) && MutexShape(s, m) && GoalOk(s, t);
      if mutexes[m].owner != Some(t) {
        threads := threads[t := threads[t].(error := EError)];
        return NotOwner;
      }
      mutexes := mutexes[m := mutexes[m].(hold := mutexes[m].hold - 1)];
      if mutexes[m].hold == 0 {
        HoldIrrelevant(s, t, m);
        Unlink(t, m);
        WakeFirst(m);
      }
      out := Ok;
    }

    /** `rt_mutex_drop_thread`, called by `rt_thread_detach` once `t` is closed. */
    method DropThread(t: ThreadId, m: MutexId)
      requires IsThread(Now(), t) && threads[t].stat == Close
      requires CanDrop(State(threads[t := threads[t].(stat := Suspend)], mutexes), t, m)
      modifies this
      ensures Now() == DropWaiter(
          State(old(threads)[t := old(threads)[t].(stat := Suspend)], old(mutexes)), t, m)
      ensures Inv(Now())
    {
      ghost var s := State(threads[t := threads[t].(stat := Suspend)], mutexes);
      LeaveQueueShape(s, t, m);
      LeaveQueueQueues(s, t, m);
      LeaveQueueGoals(s, t, m);
      UnlinkMembers(s, t, m);
      mutexes := mutexes[m := mutexes[m].(waiters := Remove(mutexes[m].waiters, t))];
      var owner := mutexes[m].owner.value;
      var needUpdate := threads[owner].currentPriority == threads[t].currentPriority;
      MutexUpdatePriority(m);
      assert Now() == LeaveQueue(s, t, m) by {
        assert threads == s.threads[t := s.threads[t].(stat := Close)];
      }
      if needUpdate {
        var priority := ThreadGetMutexPriority(owner);
        if priority != threads[owner].currentPriority {
          ThreadUpdatePriority(owner, priority);
        }
      }
    }
  }

  lemma SameEnqueued(a: seq<Thread>, b: seq<Thread>, waiters: seq<ThreadId>, t: ThreadId)
    requires |a| == |b| && t < |a| && Below(waiters, |a|)
    requires forall x: nat :: x < |a| ==> a[x].currentPriority == b[x].currentPriority
    ensures Enqueued(a, waiters, t) == Enqueued(b, waiters, t)
  {
    QueuePositionIs(b, waiters, b[t].currentPriority, QueuePosition(a, waiters, a[t].currentPriority));
  }

  /** Clearing the hold count first makes no difference to the last release. */
  lemma HoldIrrelevant(s: State, t: ThreadId, m: MutexId)
    requires IsThread(s, t) && IsMutex(s, m) && TakenBelow(s, t) && Below(s.mutexes[m].waiters, |s.threads|)
    ensures var s' := SetMutex(s, m, s.mutexes[m].(hold := 0));
      && TakenBelow(s', t)
      && HandOver(GiveUp(s', t, m), m) == HandOver(GiveUp(s, t, m), m)
  {
    var s' := SetMutex(s, m, s.mutexes[m].(hold := 0));
    var th := s.threads[t];
    UnlinkLeast(s.mutexes, th.taken, m, th.initPriority);
    SamePriorities(s.mutexes, s'.mutexes, Remove(th.taken, m), th.initPriority);
    assert GiveUp(s', t, m) == SetMutex(GiveUp(s, t, m), m, s.mutexes[m].(hold := 0));
    HandOverIgnoresHold(GiveUp(s, t, m), m);
  }

  lemma HandOverIgnoresHold(s: State, m: MutexId)
    requires IsMutex(s, m) && Below(s.mutexes[m].waiters, |s.threads|)
    ensures HandOver(SetMutex(s, m, s.mutexes[m].(hold := 0)), m) == HandOver(s, m)
  {
    var r, u := HandOver(SetMutex(s, m, s.mutexes[m].(hold := 0)), m), HandOver(s, m);
    assert r.mutexes[m] == u.mutexes[m];
    assert r.mutexes == u.mutexes;
  }

  /** Resetting the caller's error first makes no difference to a blocking take. */
  lemma ErrorIrrelevant(s: State, t: ThreadId, m: MutexId)
    requires Inv(s) && Executing(s, t) && IsMutex(s, m)
    ensures var s' := SetThread(s, t, s.threads[t].(error := EOk));
      Inv(s') && (OwnedByOther(s, t, m) ==> Block(s', t, m) == Block(s, t, m))
  {
    var s' := SetThread(s, t, s.threads[t].(error := EOk));
    MinorChange(s, t, EOk, m, s.mutexes[m].hold);
    assert s.mutexes[m := s.mutexes[m]] == s.mutexes;
    if OwnedByOther(s, t, m) {
      assert QueueOk(s, m) && MutexShape(s, m);
      SameEnqueued(s.threads, s'.threads, s.mutexes[m].waiters, t);
      assert JoinQueue(s', t, m).threads == JoinQueue(s, t, m).threads;
    }
  }
}
