/**
  Whose turn it is: the order in which the waiters of a mutex are served
  (rt-thread/src/ipc.c:124-171, 748-788, 1105-1444).

  A newcomer stands behind exactly those that are at least as urgent, nobody passes anybody while both keep their
  priority, and a mutex goes to the first in its queue; so among equals the one that came first is served first.
 */
module QueueOrder {
  import opened Common
  import opened PriorityInheritance

  function Queue(s: State, m: MutexId): seq<ThreadId>
    requires IsMutex(s, m)
  {
    s.mutexes[m].waiters
  }

  /** `x` has the same current priority in both states. */
  ghost predicate Steady(s: State, r: State, x: ThreadId) {
    IsThread(s, x) && IsThread(r, x) && r.threads[x].currentPriority == s.threads[x].currentPriority
  }

  ghost predicate SameOrder(s: State, r: State, m: MutexId, a: ThreadId, b: ThreadId)
    requires IsMutex(s, m) && IsMutex(r, m)
  {
    InFront(Queue(r, m), a, b) <==> InFront(Queue(s, m), a, b)
  }

  // ---------------------------------------------------------------------------------------------
  // Where a thread is put

  lemma EnqueuedPlace(threads: seq<Thread>, q: seq<ThreadId>, t: ThreadId, w: ThreadId)
    requires t < |threads| && InOrder(threads, q) && t !in q && w in q
    ensures w < |threads| && Below(q, |threads|)
    ensures InFront(Enqueued(threads, q, t), w, t) <==> threads[w].currentPriority <= threads[t].currentPriority
  {
    var i, k := QueuePosition(threads, q, threads[t].currentPriority), IndexOf(q, w);
    InsertPlace(q, i, t, w);
    if k < i {
      assert q[..i][k] == w;
    } else {
      assert i < k ==> threads[q[i]].currentPriority <= threads[q[k]].currentPriority;
      forall j | 0 <= j < i ensures q[..i][j] != w {
        assert threads[q[j]].currentPriority <= threads[t].currentPriority;
      }
    }
  }

  /** A newcomer stands behind exactly the waiters that are at least as urgent. */
  lemma JoinPlace(s: State, t: ThreadId, m: MutexId, w: ThreadId)
    requires Inv(s) && Executing(s, t) && OwnedByOther(s, t, m) && w in Queue(s, m)
    ensures IsThread(s, w)
    ensures InFront(Queue(JoinQueue(s, t, m), m), w, t) <==> s.threads[w].currentPriority <= s.threads[t].currentPriority
  {
    NotQueued(s, t, m);
    assert QueueOk(s, m);
    EnqueuedPlace(s.threads, Queue(s, m), t, w);
  }

  /** The waiters that were there keep their order. */
  lemma JoinOrder(s: State, t: ThreadId, m: MutexId, n: MutexId, a: ThreadId, b: ThreadId)
    requires Inv(s) && Executing(s, t) && OwnedByOther(s, t, m) && IsMutex(s, n) && a != t && b != t
    ensures SameOrder(s, JoinQueue(s, t, m), n, a, b)
  {
    if n == m {
      assert QueueOk(s, m);
      InsertOrder(Queue(s, m), QueuePosition(s.threads, Queue(s, m), s.threads[t].currentPriority), t, a, b);
    }
  }

  /** A waiter whose priority changes to `p` stands behind exactly the others that are at least that urgent. */
  lemma RequeuePlace(s: State, t: ThreadId, p: nat, m: MutexId, w: ThreadId)
    requires Shape(s) && IsMutex(s, m) && WaitsFor(s, t, m) && QueueOk(s, m) && w in Queue(s, m) && w != t
    ensures IsMutex(Reprioritize(s, t, p), m) && IsThread(s, w)
    ensures InFront(Queue(Reprioritize(s, t, p), m), w, t) <==> s.threads[w].currentPriority <= p
  {
    RestSorted(s, t, p, m);
    UnlinkMembers(s, t, m);
    RequeuedAt(s, t, p, m);
    RemoveContents(Queue(s, m), t);
    EnqueuedPlace(SetCurrent(s, t, p).threads, Remove(Queue(s, m), t), t, w);
  }

  /** The other waiters, of this mutex and of all others, keep their order. */
  lemma RequeueOrder(s: State, t: ThreadId, p: nat, n: MutexId, a: ThreadId, b: ThreadId)
    requires Shape(s) && IsThread(s, t) && IsMutex(s, n) && a != t && b != t
    ensures IsMutex(Reprioritize(s, t, p), n) && SameOrder(s, Reprioritize(s, t, p), n, a, b)
  {
    assert ThreadShape(s, t);
    if WaitsFor(s, t, n) {
      var threads, rest := SetCurrent(s, t, p).threads, Remove(Queue(s, n), t);
      UnlinkMembers(s, t, n);
      RequeuedAt(s, t, p, n);
      RemoveOrder(Queue(s, n), t, a, b);
      InsertOrder(rest, QueuePosition(threads, rest, p), t, a, b);
    }
  }

  // ---------------------------------------------------------------------------------------------
  // Nobody passes anybody

  /** The recursive update moves only threads whose priority it changes, and each in one direction. */
  lemma {:induction false} UpdateOrder(s: State, t: ThreadId, p: nat, n: MutexId, a: ThreadId, b: ThreadId)
    requires NeedsUpdate(s, t, p) && IsMutex(s, n)
    requires Steady(s, UpdatePriority(s, t, p), a) && Steady(s, UpdatePriority(s, t, p), b)
    ensures IsMutex(UpdatePriority(s, t, p), n) && SameOrder(s, UpdatePriority(s, t, p), n, a, b)
    decreases TotalDistance(s.threads, p < s.threads[t].currentPriority)
  {
    var s1 := Reprioritize(s, t, p);
    UpdateNext(s, t, p);
    UpdateRest(s, t, p);
    assert IsThread(s1, t) && s1.threads[t].currentPriority == p;
    RequeueOrder(s, t, p, n, a, b);
    if Blocker(s, t).Some? {
      var o := Blocker(s, t).value;
      UpdateOwner(s, t, p, o);
      if Goal(s1, o) != s1.threads[o].currentPriority {
        DistanceDrops(s, t, p);
        UpdateOrder(s1, o, Goal(s1, o), n, a, b);
      }
    }
  }

  /** The rest of the update goes on in the direction of its first step. */
  lemma UpdateRest(s: State, t: ThreadId, p: nat)
    requires NeedsUpdate(s, t, p)
    ensures Moved(Reprioritize(s, t, p), UpdatePriority(s, t, p), p < s.threads[t].currentPriority)
  {
    UpdateNext(s, t, p);
    if Blocker(s, t).Some? {
      UpdateOwner(s, t, p, Blocker(s, t).value);
    }
  }

  lemma InheritOrder(s: State, t: ThreadId, m: MutexId, n: MutexId, a: ThreadId, b: ThreadId)
    requires Inv(s) && Executing(s, t) && OwnedByOther(s, t, m) && IsMutex(s, n)
    requires Steady(s, Block(s, t, m), a) && Steady(s, Block(s, t, m), b)
    ensures SameOrder(JoinQueue(s, t, m), Block(s, t, m), n, a, b)
  {
    BlockIs(s, t, m);
    var q, o, p := JoinQueue(s, t, m), s.mutexes[m].owner.value, s.threads[t].currentPriority;
    if p < s.mutexes[m].priority && p < s.threads[o].currentPriority {
      UpdateOrder(q, o, p, n, a, b);
    }
  }

  /** The whole take: unless it changes one of the two priorities, the caller is behind exactly those at least as urgent. */
  lemma BlockPlace(s: State, t: ThreadId, m: MutexId, w: ThreadId)
    requires Inv(s) && Executing(s, t) && OwnedByOther(s, t, m) && w in Queue(s, m)
    requires Steady(s, Take(s, t, m, true).0, w) && Steady(s, Take(s, t, m, true).0, t)
    ensures IsMutex(Take(s, t, m, true).0, m)
    ensures InFront(Queue(Take(s, t, m, true).0, m), w, t) <==> s.threads[w].currentPriority <= s.threads[t].currentPriority
  {
    JoinPlace(s, t, m, w);
    InheritOrder(s, t, m, m, w, t);
  }

  lemma BlockOrder(s: State, t: ThreadId, m: MutexId, n: MutexId, a: ThreadId, b: ThreadId)
    requires Inv(s) && Executing(s, t) && OwnedByOther(s, t, m) && IsMutex(s, n) && a != t && b != t
    requires Steady(s, Block(s, t, m), a) && Steady(s, Block(s, t, m), b)
    ensures SameOrder(s, Block(s, t, m), n, a, b)
  {
    JoinOrder(s, t, m, n, a, b);
    InheritOrder(s, t, m, n, a, b);
  }

  /** A release takes the head off and leaves the others as they stand. */
  lemma ReleaseOrder(s: State, t: ThreadId, m: MutexId, n: MutexId, a: ThreadId, b: ThreadId)
    requires Inv(s) && Executing(s, t) && IsMutex(s, m) && IsMutex(s, n)
    requires WaitsFor(Release(s, t, m).0, a, n) && WaitsFor(Release(s, t, m).0, b, n)
    ensures IsMutex(Release(s, t, m).0, n) && SameOrder(s, Release(s, t, m).0, n, a, b)
  {
    if s.mutexes[m].owner == Some(t) && s.mutexes[m].hold <= 1 {
      LastReleaseEffect(s, t, m);
      var q := Queue(s, m);
      if n == m && q != [] {
        assert Remove(q, q[0]) == q[1..];
        RemoveOrder(q, q[0], a, b);
      }
    }
  }

  lemma DropOrder(s: State, t: ThreadId, m: MutexId, n: MutexId, a: ThreadId, b: ThreadId)
    requires CanDrop(s, t, m) && IsMutex(s, n) && a != t && b != t
    requires Steady(s, DropWaiter(s, t, m), a) && Steady(s, DropWaiter(s, t, m), b)
    ensures IsMutex(DropWaiter(s, t, m), n) && SameOrder(s, DropWaiter(s, t, m), n, a, b)
  {
    var r := LeaveQueue(s, t, m);
    RemoveOrder(Queue(s, m), t, a, b);
    LeaveQueueShape(s, t, m);
    LeaveQueueQueues(s, t, m);
    LeaveQueueGoals(s, t, m);
    var o := s.mutexes[m].owner.value;
    assert InvExcept(r, Some(o));
    if s.threads[o].currentPriority == s.threads[t].currentPriority && Goal(r, o) != r.threads[o].currentPriority {
      UpdateOrder(r, o, Goal(r, o), n, a, b);
    }
  }

  lemma DeleteOrder(s: State, t: ThreadId, n: MutexId, a: ThreadId, b: ThreadId)
    requires Inv(s) && IsThread(s, t) && s.threads[t].stat != Close && s.threads[t].taken == [] && IsMutex(s, n) && a != t && b != t
    requires Steady(s, Delete(s, t), a) && Steady(s, Delete(s, t), b)
    ensures IsMutex(Delete(s, t), n) && SameOrder(s, Delete(s, t), n, a, b)
  {
    if s.threads[t].pending.Some? {
      assert ThreadShape(s, t);
      DropOrder(s, t, s.threads[t].pending.value, n, a, b);
    }
  }

  ghost predicate BothWait(s: State, m: MutexId, a: ThreadId, b: ThreadId) {
    IsMutex(s, m) && WaitsFor(s, a, m) && WaitsFor(s, b, m)
  }

  /** Whatever happens, two waiters of a mutex that go on waiting with the priorities they have keep their order. */
  lemma StepKeepsOrder(s: State, e: Event, m: MutexId, a: ThreadId, b: ThreadId)
    requires Inv(s) && Enabled(s, e) && BothWait(s, m, a, b) && BothWait(Step(s, e), m, a, b)
    requires Steady(s, Step(s, e), a) && Steady(s, Step(s, e), b)
    ensures SameOrder(s, Step(s, e), m, a, b)
  {
    match e
    case CreateThread(_) =>
    case CreateMutex =>
    case Schedule(_, _) =>
    case TakeMutex(t, n, forever) =>
      if OwnedByOther(s, t, n) && forever {
        BlockOrder(s, t, n, m, a, b);
      }
    case ReleaseMutex(t, n) => ReleaseOrder(s, t, n, m, a, b);
    case DeleteThread(t) => DeleteOrder(s, t, m, a, b);
  }

  // ---------------------------------------------------------------------------------------------
  // Who is served

  /** The mutex goes to the most urgent waiter, and among the most urgent to the one in front. */
  lemma ReleaseServes(s: State, t: ThreadId, m: MutexId, w: ThreadId)
    requires CanGiveUp(s, t, m) && s.mutexes[m].hold == 1 && w in Queue(s, m)
    ensures var r := Release(s, t, m).0;
      && IsMutex(r, m) && r.mutexes[m].owner.Some?
      && var n := r.mutexes[m].owner.value;
      && n in Queue(s, m) && IsThread(s, n) && IsThread(s, w)
      && s.threads[n].currentPriority <= s.threads[w].currentPriority
      && (w != n ==> InFront(Queue(s, m), n, w) && !InFront(Queue(s, m), w, n))
  {
    ReleaseHandsOver(s, t, m);
    var q := Queue(s, m);
    assert MutexShape(s, m);
    if w != q[0] {
      FrontAt(q, 0, IndexOf(q, w));
      EitherInFront(q, q[0], w);
    }
  }

  /** `a` stands in front of `b` if and only if `first`. */
  ghost predicate Decided(s: State, m: MutexId, a: ThreadId, b: ThreadId, first: bool) {
    IsMutex(s, m) && (InFront(Queue(s, m), a, b) <==> first)
  }

  lemma ComesSecond(s: State, r: State, m: MutexId, a: ThreadId, b: ThreadId)
    requires Inv(s) && IsStep(s, TakeMutex(b, m, true), r) && OwnedByOther(s, b, m) && WaitsFor(s, a, m)
    requires Steady(s, r, a) && Steady(s, r, b)
    ensures Decided(r, m, a, b, s.threads[a].currentPriority <= s.threads[b].currentPriority)
  {
    assert ThreadShape(s, a);
    BlockPlace(s, b, m, a);
  }

  lemma WaitsOn(s: State, e: Event, r: State, m: MutexId, a: ThreadId, b: ThreadId, first: bool)
    requires Inv(s) && IsStep(s, e, r) && BothWait(s, m, a, b) && BothWait(r, m, a, b)
    requires Steady(s, r, a) && Steady(s, r, b) && Decided(s, m, a, b, first)
    ensures Decided(r, m, a, b, first)
  {
    StepKeepsOrder(s, e, m, a, b);
  }

  /**
    In this run `b` comes to wait for `m` at step `i`, while `a` is waiting for it, and up to state `k` both go on
    waiting, `a` with priority `p` and `b` with priority `q`.
   */
  ghost predicate Contest(states: seq<State>, events: seq<Event>, i: nat, k: nat, m: MutexId, a: ThreadId, b: ThreadId, p: nat, q: nat) {
    var contest :=
      && IsRun(states, events) && i < k < |states|
      && events[i] == TakeMutex(b, m, true) && OwnedByOther(states[i], b, m) && WaitsFor(states[i], a, m)
      && (forall l :: i <= l <= k ==> HasPriority(states[l], a, p) && HasPriority(states[l], b, q))
      && (forall l :: i < l <= k ==> BothWait(states[l], m, a, b));
    contest
  }

  ghost predicate HasPriority(s: State, x: ThreadId, p: nat) {
    IsThread(s, x) && s.threads[x].currentPriority == p
  }

  lemma ContestBefore(states: seq<State>, events: seq<Event>, i: nat, k: nat, m: MutexId, a: ThreadId, b: ThreadId, p: nat, q: nat)
    requires Contest(states, events, i, k, m, a, b, p, q) && k > i + 1
    ensures Contest(states, events, i, k - 1, m, a, b, p, q)
  {
  }

  lemma ContestStep(states: seq<State>, events: seq<Event>, i: nat, k: nat, m: MutexId, a: ThreadId, b: ThreadId, p: nat, q: nat)
    requires Contest(states, events, i, k, m, a, b, p, q)
    ensures i < k < |states| == |events| + 1 && Inv(states[k - 1]) && IsStep(states[k - 1], events[k - 1], states[k])
    ensures Steady(states[k - 1], states[k], a) && Steady(states[k - 1], states[k], b)
    ensures HasPriority(states[k - 1], a, p) && HasPriority(states[k - 1], b, q) && BothWait(states[k], m, a, b)
    ensures k > i + 1 ==> BothWait(states[k - 1], m, a, b)
    ensures k == i + 1 ==>
              events[k - 1] == TakeMutex(b, m, true) && OwnedByOther(states[k - 1], b, m) && WaitsFor(states[k - 1], a, m)
  {
    RunKeepsInv(states, events);
    assert HasPriority(states[k - 1], a, p) && HasPriority(states[k], a, p);
    assert k > i + 1 ==> BothWait(states[k - 1], m, a, b);
    assert IsStep(states[k - 1], events[k - 1], states[k]);
  }

  /** First come, first served: as long as both wait, the one that came first stands in front if and only if it is at least as urgent. */
  lemma {:induction false} FirstComeFirstServed(states: seq<State>, events: seq<Event>, i: nat, k: nat, m: MutexId,
                                                a: ThreadId, b: ThreadId, p: nat, q: nat)
    requires Contest(states, events, i, k, m, a, b, p, q)
    ensures k < |states| && Decided(states[k], m, a, b, p <= q)
  {
    ContestStep(states, events, i, k, m, a, b, p, q);
    if k == i + 1 {
      ComesSecond(states[k - 1], states[k], m, a, b);
    } else {
      ContestBefore(states, events, i, k, m, a, b, p, q);
      FirstComeFirstServed(states, events, i, k - 1, m, a, b, p, q);
      WaitsOn(states[k - 1], events[k - 1], states[k], m, a, b, p <= q);
    }
  }

  /** So when the mutex is released then, the other one of the two does not get it. */
  lemma ServedInTurn(states: seq<State>, events: seq<Event>, i: nat, k: nat, m: MutexId,
                     a: ThreadId, b: ThreadId, p: nat, q: nat, t: ThreadId)
    requires Contest(states, events, i, k, m, a, b, p, q) && k < |events| && |states| == |events| + 1
    requires events[k] == ReleaseMutex(t, m) && CanGiveUp(states[k], t, m) && states[k].mutexes[m].hold == 1
    ensures IsMutex(states[k + 1], m)
    ensures states[k + 1].mutexes[m].owner != Some(if p <= q then b else a)
  {
    FirstComeFirstServed(states, events, i, k, m, a, b, p, q);
    ContestStep(states, events, i, k, m, a, b, p, q);
    assert IsRun(states, events) && IsStep(states[k], events[k], states[k + 1]);
    NotServed(states[k], t, m, a, b);
    NotServed(states[k], t, m, b, a);
  }

  lemma NotServed(s: State, t: ThreadId, m: MutexId, a: ThreadId, b: ThreadId)
    requires CanGiveUp(s, t, m) && s.mutexes[m].hold == 1 && BothWait(s, m, a, b)
    ensures IsMutex(Release(s, t, m).0, m)
    ensures a != b && InFront(Queue(s, m), a, b) ==> Release(s, t, m).0.mutexes[m].owner != Some(b)
    ensures a != b && !InFront(Queue(s, m), b, a) ==> InFront(Queue(s, m), a, b)
  {
    assert ThreadShape(s, a) && ThreadShape(s, b) && MutexShape(s, m);
    ReleaseServes(s, t, m, a);
    if a != b {
      EitherInFront(Queue(s, m), a, b);
    }
  }
}
