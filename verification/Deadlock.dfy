/**
  What deadlocks do to priority inheritance (rt-thread/src/ipc.c:748-788, 897-936).

  A priority is exact when it is the least initial priority of the thread itself and of those blocked behind it.
  Every critical section keeps all priorities exact, deadlocked threads included, with one exception: the deletion of a
  thread that was the only source of a boost inside a deadlock, which can be told before the call.
 */
module Deadlock {
  import opened Common
  import opened PriorityInheritance

  /** `w` is `x` or blocked behind it, over any number of mutexes. */
  ghost predicate Behind(s: State, w: ThreadId, x: ThreadId) {
    exists chain :: Leads(s, chain, w, x)
  }

  ghost predicate Leads(s: State, chain: seq<ThreadId>, w: ThreadId, x: ThreadId) {
    BlockingChain(s, chain) && chain[0] == w && chain[|chain| - 1] == x
  }

  /** The current priority of `x` is the initial one of a thread behind it. */
  ghost predicate Justified(s: State, x: ThreadId)
    requires IsThread(s, x)
  {
    exists w: ThreadId :: IsThread(s, w) && Behind(s, w, x) && s.threads[w].initPriority == s.threads[x].currentPriority
  }

  /** The current priority of `x` is the least initial one among the threads behind it. */
  ghost predicate ExactAt(s: State, x: ThreadId)
    requires IsThread(s, x)
  {
    && Justified(s, x)
    && (forall w: ThreadId :: IsThread(s, w) && Behind(s, w, x) ==> s.threads[x].currentPriority <= s.threads[w].initPriority)
  }

  ghost predicate Exact(s: State) {
    forall x: ThreadId :: IsThread(s, x) ==> ExactAt(s, x)
  }

  ghost predicate AllJustified(s: State) {
    forall x: ThreadId :: IsThread(s, x) ==> Justified(s, x)
  }

  ghost predicate OthersJustified(s: State, t: ThreadId) {
    forall x: ThreadId :: IsThread(s, x) && x != t ==> Justified(s, x)
  }

  /** In a fixpoint the bound holds anyway, so a priority is exact as soon as it has a source. */
  lemma ExactIs(s: State)
    requires Inv(s)
    ensures Exact(s) <==> AllJustified(s)
  {
    forall x: ThreadId | IsThread(s, x) ensures ExactAt(s, x) <==> Justified(s, x) {
      forall w: ThreadId | IsThread(s, w) && Behind(s, w, x)
        ensures s.threads[x].currentPriority <= s.threads[w].initPriority
      {
        var chain :| Leads(s, chain, w, x);
        OwnerAtLeastAsUrgent(s, chain);
      }
    }
  }

  // ---------------------------------------------------------------------------------------------
  // Chains

  lemma BehindSelf(s: State, x: ThreadId)
    requires IsThread(s, x)
    ensures Behind(s, x, x)
  {
    assert Leads(s, [x], x, x);
  }

  lemma BehindStep(s: State, w: ThreadId, y: ThreadId, x: ThreadId)
    requires Behind(s, w, y) && IsThread(s, y) && Blocker(s, y) == Some(x) && IsThread(s, x)
    ensures Behind(s, w, x)
  {
    var chain :| Leads(s, chain, w, y);
    var longer := chain + [x];
    forall i | 0 <= i < |longer| - 1 ensures Blocker(s, longer[i]) == Some(longer[i + 1]) {
      assert i < |chain| - 1 ==> Blocker(s, chain[i]) == Some(chain[i + 1]);
    }
    assert Leads(s, longer, w, x);
  }

  /** A chain is one in `r` too when its threads, the last one excepted, are blocked there by the same. */
  lemma ChainKept(s: State, r: State, chain: seq<ThreadId>)
    requires BlockingChain(s, chain) && |s.threads| <= |r.threads|
    requires forall i :: 0 <= i < |chain| - 1 ==> Blocker(r, chain[i]) == Blocker(s, chain[i])
    ensures BlockingChain(r, chain)
  {
    forall i | 0 <= i < |chain| - 1 ensures Blocker(r, chain[i]) == Some(chain[i + 1]) {
      assert Blocker(s, chain[i]) == Some(chain[i + 1]);
    }
  }

  /** Every thread of `s` that is blocked is blocked by the same thread in `r`. */
  ghost predicate KeepsBlocked(s: State, r: State) {
    && |s.threads| <= |r.threads|
    && forall x: ThreadId :: IsThread(s, x) && Blocker(s, x).Some? ==> Blocker(r, x) == Blocker(s, x)
  }

  lemma BehindKept(s: State, r: State, w: ThreadId, x: ThreadId)
    requires KeepsBlocked(s, r) && Behind(s, w, x)
    ensures Behind(r, w, x)
  {
    var chain :| Leads(s, chain, w, x);
    forall i | 0 <= i < |chain| - 1 ensures Blocker(r, chain[i]) == Blocker(s, chain[i]) {
      assert Blocker(s, chain[i]) == Some(chain[i + 1]);
    }
    ChainKept(s, r, chain);
    assert Leads(r, chain, w, x);
  }

  ghost predicate SameInits(s: State, r: State) {
    && |s.threads| <= |r.threads|
    && forall x: ThreadId :: IsThread(s, x) ==> r.threads[x].initPriority == s.threads[x].initPriority
  }

  lemma JustifiedKept(s: State, r: State, x: ThreadId)
    requires KeepsBlocked(s, r) && SameInits(s, r) && IsThread(s, x) && Justified(s, x)
    requires r.threads[x].currentPriority == s.threads[x].currentPriority
    ensures Justified(r, x)
  {
    var w: ThreadId :| IsThread(s, w) && Behind(s, w, x) && s.threads[w].initPriority == s.threads[x].currentPriority;
    BehindKept(s, r, w, x);
  }

  /** Where a priority comes from: the thread's own, or that of a waiter that has a source itself. */
  lemma GoalJustified(s: State, hole: Option<ThreadId>, t: ThreadId) returns (z: ThreadId)
    requires InvExcept(s, hole) && IsThread(s, t) && TakenBelow(s, t) && OthersJustified(s, t)
    ensures IsThread(s, z) && Behind(s, z, t) && s.threads[z].initPriority == Goal(s, t)
  {
    if s.threads[t].initPriority == Goal(s, t) {
      BehindSelf(s, t);
      return t;
    }
    var y := BoostingWaiter(s, hole, t);
    z :| IsThread(s, z) && Behind(s, z, y) && s.threads[z].initPriority == s.threads[y].currentPriority;
    BehindStep(s, z, y, t);
  }

  // ---------------------------------------------------------------------------------------------
  // The recursive update

  lemma SkeletonBlocker(a: State, b: State)
    requires SameSkeleton(a, b)
    ensures KeepsBlocked(a, b) && KeepsBlocked(b, a) && SameInits(a, b)
  {
    forall x: ThreadId | IsThread(a, x) ensures Blocker(a, x) == Blocker(b, x) && b.threads[x].initPriority == a.threads[x].initPriority {
      assert SameThread(a.threads[x], b.threads[x]);
      var m := a.threads[x].pending;
      assert m.Some? && m.value < |a.mutexes| ==> SameMutex(a.mutexes[m.value], b.mutexes[m.value]);
    }
  }

  lemma ReprioritizeJustifies(s: State, t: ThreadId, p: nat)
    requires NeedsUpdate(s, t, p) && OthersJustified(s, t)
    ensures AllJustified(Reprioritize(s, t, p))
  {
    UpdateStep(s, t, p);
    var r := Reprioritize(s, t, p);
    SkeletonBlocker(s, r);
    var z := GoalJustified(s, Some(t), t);
    BehindKept(s, r, z, t);
    forall x: ThreadId | IsThread(r, x) ensures Justified(r, x) {
      if x != t {
        JustifiedKept(s, r, x);
      }
    }
  }

  /** The update gives every thread it changes a priority that has a source. */
  lemma UpdateJustifies(s: State, t: ThreadId, p: nat)
    requires NeedsUpdate(s, t, p) && OthersJustified(s, t)
    ensures AllJustified(UpdatePriority(s, t, p))
    decreases TotalDistance(s.threads, p < s.threads[t].currentPriority)
  {
    ReprioritizeJustifies(s, t, p);
    UpdateStep(s, t, p);
    var r := Reprioritize(s, t, p);
    if Blocker(s, t) == None {
      assert UpdatePriority(s, t, p) == r;
    } else {
      var o := Blocker(s, t).value;
      BlockerFollows(s, t, p, o);
      if Goal(r, o) == r.threads[o].currentPriority {
        assert UpdatePriority(s, t, p) == r;
      } else {
        DistanceDrops(s, t, p);
        UpdateJustifies(r, o, Goal(r, o));
        assert UpdatePriority(s, t, p) == UpdatePriority(r, o, Goal(r, o));
      }
    }
  }

  // ---------------------------------------------------------------------------------------------
  // Every critical section but the deletion of a waiter

  /** What a critical section that changes nobody's place and priority has to show. */
  ghost predicate SameFlow(s: State, r: State) {
    && KeepsBlocked(s, r)
    && SameInits(s, r)
    && (forall x: ThreadId :: IsThread(s, x) ==> r.threads[x].currentPriority == s.threads[x].currentPriority)
  }

  /** Only `t` changes, which is not blocked, and no mutex changes its owner for another one. */
  ghost predicate OnlyRunning(s: State, r: State, t: ThreadId) {
    && |r.threads| == |s.threads| && |r.mutexes| >= |s.mutexes|
    && IsThread(s, t) && Blocker(s, t) == None
    && r.threads[t].initPriority == s.threads[t].initPriority
    && r.threads[t].currentPriority == s.threads[t].currentPriority
    && (forall x: ThreadId :: IsThread(s, x) && x != t ==> r.threads[x] == s.threads[x])
    && (forall n: MutexId :: IsMutex(s, n) && s.mutexes[n].owner.Some? ==> r.mutexes[n].owner == s.mutexes[n].owner)
  }

  lemma RunningJustified(s: State, r: State, t: ThreadId)
    requires OnlyRunning(s, r, t) && AllJustified(s)
    ensures AllJustified(r)
  {
    RunningFlow(s, r, t);
    FlowJustified(s, r);
  }

  lemma RunningFlow(s: State, r: State, t: ThreadId)
    requires OnlyRunning(s, r, t)
    ensures SameFlow(s, r)
  {
    forall x: ThreadId | IsThread(s, x) && Blocker(s, x).Some? ensures Blocker(r, x) == Blocker(s, x) {
      var m := s.threads[x].pending.value;
      assert IsMutex(s, m) && s.mutexes[m].owner.Some?;
    }
  }

  lemma FlowJustified(s: State, r: State)
    requires SameFlow(s, r) && AllJustified(s)
    ensures forall x: ThreadId :: IsThread(s, x) ==> IsThread(r, x) && Justified(r, x)
  {
    forall x: ThreadId | IsThread(s, x) ensures Justified(r, x) {
      JustifiedKept(s, r, x);
    }
  }

  lemma NotBlocked(s: State, t: ThreadId)
    requires Inv(s) && IsThread(s, t) && s.threads[t].stat != Suspend
    ensures Blocker(s, t) == None
  {
  }

  lemma JoinFlow(s: State, t: ThreadId, m: MutexId)
    requires Inv(s) && Executing(s, t) && OwnedByOther(s, t, m)
    ensures OnlyRunning(s, JoinQueue(s, t, m), t)
  {
    NotBlocked(s, t);
  }

  lemma JoinJustifies(s: State, t: ThreadId, m: MutexId)
    requires Inv(s) && Executing(s, t) && OwnedByOther(s, t, m) && AllJustified(s)
    ensures AllJustified(JoinQueue(s, t, m))
  {
    JoinFlow(s, t, m);
    RunningJustified(s, JoinQueue(s, t, m), t);
  }

  lemma BlockJustifies(s: State, t: ThreadId, m: MutexId)
    requires Inv(s) && Executing(s, t) && OwnedByOther(s, t, m) && AllJustified(s)
    ensures AllJustified(Block(s, t, m))
  {
    JoinJustifies(s, t, m);
    BlockIs(s, t, m);
    var o, p := s.mutexes[m].owner.value, s.threads[t].currentPriority;
    if p < s.mutexes[m].priority && p < s.threads[o].currentPriority {
      UpdateJustifies(JoinQueue(s, t, m), o, p);
    }
  }

  lemma TakeFlow(s: State, t: ThreadId, m: MutexId, forever: bool)
    requires Inv(s) && Executing(s, t) && IsMutex(s, m) && Take(s, t, m, forever).1 != Blocked
    ensures OnlyRunning(s, Take(s, t, m, forever).0, t)
  {
    NotBlocked(s, t);
  }

  lemma TakeJustifies(s: State, t: ThreadId, m: MutexId, forever: bool)
    requires Inv(s) && Executing(s, t) && IsMutex(s, m) && AllJustified(s)
    ensures AllJustified(Take(s, t, m, forever).0)
  {
    if Take(s, t, m, forever).1 == Blocked {
      BlockJustifies(s, t, m);
    } else {
      TakeFlow(s, t, m, forever);
      RunningJustified(s, Take(s, t, m, forever).0, t);
    }
  }

  /** The last release leaves all chains alone that do not end at the thread giving up the mutex. */
  lemma ReleasedChain(s: State, r: State, t: ThreadId, m: MutexId, w: ThreadId, x: ThreadId)
    requires CanGiveUp(s, t, m) && LastReleased(s, r, t, m) && Behind(s, w, x) && x != t
    ensures Behind(r, w, x)
  {
    var chain :| Leads(s, chain, w, x);
    NotBlocked(s, t);
    forall i | 0 <= i < |chain| - 1 ensures Blocker(r, chain[i]) == Blocker(s, chain[i]) {
      var y := chain[i];
      assert Blocker(s, y) == Some(chain[i + 1]);
      assert chain[i + 1] != t by {
        assert i + 1 < |chain| - 1 ==> Blocker(s, chain[i + 1]) == Some(chain[i + 2]);
      }
      assert s.threads[y].pending.value != m;
      assert y in s.mutexes[m].waiters ==> WaitsFor(s, y, m) by {
        assert MutexShape(s, m);
      }
    }
    ChainKept(s, r, chain);
    assert Leads(r, chain, w, x);
  }

  lemma ReleaseJustifies(s: State, t: ThreadId, m: MutexId)
    requires Inv(s) && Executing(s, t) && IsMutex(s, m) && AllJustified(s)
    ensures AllJustified(Release(s, t, m).0)
  {
    if s.mutexes[m].owner == Some(t) && s.mutexes[m].hold <= 1 {
      LastReleaseJustifies(s, t, m);
    } else {
      ReleaseFlow(s, t, m);
      RunningJustified(s, Release(s, t, m).0, t);
    }
  }

  lemma ReleaseFlow(s: State, t: ThreadId, m: MutexId)
    requires Inv(s) && Executing(s, t) && IsMutex(s, m) && !(s.mutexes[m].owner == Some(t) && s.mutexes[m].hold <= 1)
    ensures OnlyRunning(s, Release(s, t, m).0, t)
  {
    NotBlocked(s, t);
  }

  lemma ReleasedOthers(s: State, r: State, t: ThreadId, m: MutexId, x: ThreadId)
    requires CanGiveUp(s, t, m) && LastReleased(s, r, t, m) && IsThread(s, x) && x != t && Justified(s, x)
    ensures Justified(r, x)
  {
    var w: ThreadId :| IsThread(s, w) && Behind(s, w, x) && s.threads[w].initPriority == s.threads[x].currentPriority;
    ReleasedChain(s, r, t, m, w, x);
  }

  lemma LastReleaseJustifies(s: State, t: ThreadId, m: MutexId)
    requires CanGiveUp(s, t, m) && s.mutexes[m].hold <= 1 && AllJustified(s)
    ensures AllJustified(Release(s, t, m).0)
  {
    var r := Release(s, t, m).0;
    LastReleaseEffect(s, t, m);
    ReleaseInv(s, t, m);
    forall x: ThreadId | IsThread(r, x) && x != t ensures Justified(r, x) {
      ReleasedOthers(s, r, t, m, x);
    }
    assert GoalOk(r, t);
    var z := GoalJustified(r, None, t);
  }

  // ---------------------------------------------------------------------------------------------
  // The deletion of a waiter

  /** `t` is blocked behind a deadlock whose boost nobody else explains: all others behind it are less urgent. */
  ghost predicate OnlySource(s: State, t: ThreadId)
    requires IsThread(s, t)
  {
    exists x: ThreadId :: IsThread(s, x) && OnCycle(s, x) && Behind(s, t, x) && LessUrgent(s, t, x)
  }

  ghost predicate LessUrgent(s: State, t: ThreadId, x: ThreadId)
    requires IsThread(s, t)
  {
    forall w: ThreadId :: IsThread(s, w) && w != t && Behind(s, w, x) ==> s.threads[w].initPriority > s.threads[t].initPriority
  }

  ghost predicate Deletable(s: State, t: ThreadId) {
    Inv(s) && IsThread(s, t) && s.threads[t].stat != Close && s.threads[t].taken == []
  }

  lemma DeletableDrops(s: State, t: ThreadId)
    requires Deletable(s, t) && s.threads[t].pending.Some?
    ensures CanDrop(s, t, s.threads[t].pending.value)
  {
    assert ThreadShape(s, t);
  }

  /** Nobody is blocked by a thread without mutexes. */
  lemma BlocksNobody(s: State, t: ThreadId, y: ThreadId)
    requires Deletable(s, t) && IsThread(s, y)
    ensures Blocker(s, y) != Some(t)
  {
    var m := s.threads[y].pending;
    if m.Some? && IsMutex(s, m.value) {
      assert MutexShape(s, m.value);
    }
  }

  /** The states agree on who blocks whom, but for `t`, which blocks nobody and is blocked by nobody in `r`. */
  ghost predicate Detaches(s: State, r: State, t: ThreadId) {
    && |r.threads| == |s.threads| && IsThread(s, t)
    && Blocker(r, t) == None
    && (forall x: ThreadId :: IsThread(s, x) ==> Blocker(s, x) != Some(t))
    && (forall x: ThreadId :: IsThread(s, x) && x != t ==> Blocker(r, x) == Blocker(s, x))
    && (forall x: ThreadId :: IsThread(s, x) ==> r.threads[x].initPriority == s.threads[x].initPriority)
  }

  lemma ChainDetached(s: State, r: State, t: ThreadId, chain: seq<ThreadId>)
    requires Detaches(s, r, t) && |chain| > 0
    ensures BlockingChain(s, chain) && chain[0] != t ==> BlockingChain(r, chain)
    ensures BlockingChain(r, chain) ==> BlockingChain(s, chain) && (|chain| > 1 ==> chain[0] != t)
  {
    if BlockingChain(s, chain) && chain[0] != t {
      forall i | 0 <= i < |chain| - 1 ensures Blocker(r, chain[i]) == Some(chain[i + 1]) {
        assert Blocker(s, chain[i]) == Some(chain[i + 1]);
        assert i > 0 ==> Blocker(s, chain[i - 1]) == Some(chain[i]);
      }
    }
    if BlockingChain(r, chain) {
      forall i | 0 <= i < |chain| - 1 ensures Blocker(s, chain[i]) == Some(chain[i + 1]) && chain[i] != t {
        assert Blocker(r, chain[i]) == Some(chain[i + 1]);
      }
    }
  }

  lemma BehindDetached(s: State, r: State, t: ThreadId, w: ThreadId, x: ThreadId)
    requires Detaches(s, r, t)
    ensures w != t ==> (Behind(r, w, x) <==> Behind(s, w, x))
    ensures Behind(r, t, x) ==> x == t
    ensures Behind(s, w, t) ==> w == t
  {
    if w != t && Behind(s, w, x) {
      var chain :| Leads(s, chain, w, x);
      ChainDetached(s, r, t, chain);
      assert Leads(r, chain, w, x);
    }
    if Behind(r, w, x) {
      var chain :| Leads(r, chain, w, x);
      ChainDetached(s, r, t, chain);
      assert Leads(s, chain, w, x);
    }
    if Behind(r, t, x) {
      var chain :| Leads(r, chain, t, x);
      ChainDetached(s, r, t, chain);
    }
    if Behind(s, w, t) {
      var chain :| Leads(s, chain, w, t);
      assert |chain| > 1 ==> Blocker(s, chain[|chain| - 2]) == Some(chain[|chain| - 1]);
    }
  }

  lemma CycleDetached(s: State, r: State, t: ThreadId, x: ThreadId)
    requires Detaches(s, r, t)
    ensures OnCycle(r, x) <==> OnCycle(s, x)
    ensures OnCycle(s, x) ==> x != t
  {
    if OnCycle(s, x) {
      var loop :| IsLoop(s, loop, x);
      assert Blocker(s, loop[|loop| - 2]) == Some(loop[|loop| - 1]);
      ChainDetached(s, r, t, loop);
      assert IsLoop(r, loop, x);
    }
    if OnCycle(r, x) {
      var loop :| IsLoop(r, loop, x);
      ChainDetached(s, r, t, loop);
      assert IsLoop(s, loop, x);
    }
  }

  // ---------------------------------------------------------------------------------------------
  // A falling update stops in front of a cycle

  /** Along a cycle all current priorities are the same. */
  ghost predicate CyclesEven(s: State) {
    forall y: ThreadId :: IsThread(s, y) && OnCycle(s, y) ==> EvenAt(s, y)
  }

  ghost predicate EvenAt(s: State, y: ThreadId)
    requires IsThread(s, y)
  {
    && Blocker(s, y).Some? && IsThread(s, Blocker(s, y).value)
    && s.threads[Blocker(s, y).value].currentPriority == s.threads[y].currentPriority
  }

  /** The successor and the predecessor of `x` on its cycle are on it too. */
  lemma CycleNeighbours(s: State, x: ThreadId) returns (y: ThreadId)
    requires OnCycle(s, x)
    ensures IsThread(s, x) && IsThread(s, y) && Blocker(s, y) == Some(x) && OnCycle(s, y)
    ensures Blocker(s, x).Some? && IsThread(s, Blocker(s, x).value) && OnCycle(s, Blocker(s, x).value)
  {
    var loop :| IsLoop(s, loop, x);
    var n := |loop|;
    assert Blocker(s, loop[0]) == Some(loop[1]) && Blocker(s, loop[n - 2]) == Some(loop[n - 1]);
    y := loop[n - 2];
    var back := [y] + loop[..n - 1];
    assert BlockingChain(s, back) by {
      forall i | 0 <= i < |back| - 1 ensures Blocker(s, back[i]) == Some(back[i + 1]) {
        assert i > 0 ==> Blocker(s, loop[i - 1]) == Some(loop[i]);
      }
    }
    assert IsLoop(s, back, y);
    var on := loop[1..] + [loop[1]];
    assert BlockingChain(s, on) by {
      forall i | 0 <= i < |on| - 1 ensures Blocker(s, on[i]) == Some(on[i + 1]) {
        assert i < n - 2 ==> Blocker(s, loop[i + 1]) == Some(loop[i + 2]);
      }
    }
    assert IsLoop(s, on, loop[1]);
  }

  lemma CyclesAreEven(s: State)
    requires Inv(s)
    ensures CyclesEven(s)
  {
    forall y: ThreadId | IsThread(s, y) && OnCycle(s, y) ensures EvenAt(s, y) {
      var before := CycleNeighbours(s, y);
      BlockerUrgent(s, y);
      var loop :| IsLoop(s, loop, y);
      assert Blocker(s, loop[0]) == Some(loop[1]);
      var rest := loop[1..];
      assert BlockingChain(s, rest) by {
        forall i | 0 <= i < |rest| - 1 ensures Blocker(s, rest[i]) == Some(rest[i + 1]) {
          assert Blocker(s, loop[i + 1]) == Some(loop[i + 2]);
        }
      }
      OwnerAtLeastAsUrgent(s, rest);
    }
  }

  lemma CycleSame(s: State, r: State, x: ThreadId)
    requires KeepsBlocked(s, r) && KeepsBlocked(r, s)
    ensures OnCycle(s, x) <==> OnCycle(r, x)
  {
    if OnCycle(s, x) {
      var loop :| IsLoop(s, loop, x);
      LoopKept(s, r, loop, x);
    }
    if OnCycle(r, x) {
      var loop :| IsLoop(r, loop, x);
      LoopKept(r, s, loop, x);
    }
  }

  lemma LoopKept(s: State, r: State, loop: seq<ThreadId>, x: ThreadId)
    requires KeepsBlocked(s, r) && IsLoop(s, loop, x)
    ensures IsLoop(r, loop, x)
  {
    forall i | 0 <= i < |loop| - 1 ensures Blocker(r, loop[i]) == Blocker(s, loop[i]) {
      assert Blocker(s, loop[i]) == Some(loop[i + 1]);
    }
    ChainKept(s, r, loop);
  }

  /** A thread on a cycle inherits from its predecessor there, so it has no reason to become less urgent. */
  lemma CycleNotRaised(s: State, t: ThreadId)
    requires InvExcept(s, Some(t)) && IsThread(s, t) && TakenBelow(s, t) && CyclesEven(s) && OnCycle(s, t)
    ensures Goal(s, t) <= s.threads[t].currentPriority
  {
    var y := CycleNeighbours(s, t);
    assert EvenAt(s, y);
    var m := s.threads[y].pending.value;
    assert IsMutex(s, m) && ThreadShape(s, y) && MutexShape(s, m) && QueueOk(s, m);
    HeadIsLeast(s, m, y);
    var i := IndexOf(s.threads[t].taken, m);
  }

  lemma ReprioritizeSpares(s: State, t: ThreadId, p: nat)
    requires NeedsUpdate(s, t, p) && CyclesEven(s) && p > s.threads[t].currentPriority
    ensures var r := Reprioritize(s, t, p);
            && |r.threads| == |s.threads|
            && (forall x: ThreadId :: IsThread(s, x) && OnCycle(s, x) ==> r.threads[x] == s.threads[x])
    ensures CyclesEven(Reprioritize(s, t, p))
    ensures forall x: ThreadId :: OnCycle(s, x) <==> OnCycle(Reprioritize(s, t, p), x)
  {
    if OnCycle(s, t) {
      CycleNotRaised(s, t);
    }
    var r := Reprioritize(s, t, p);
    UpdateStep(s, t, p);
    SkeletonBlocker(s, r);
    assert forall x: ThreadId :: IsThread(s, x) && x != t ==> r.threads[x] == s.threads[x];
    forall x: ThreadId ensures OnCycle(s, x) <==> OnCycle(r, x) {
      CycleSame(s, r, x);
    }
    forall y: ThreadId | IsThread(r, y) && OnCycle(r, y) ensures EvenAt(r, y) {
      var before := CycleNeighbours(s, y);
      assert EvenAt(s, y);
    }
  }

  /** An update towards less urgency changes no thread on a cycle. */
  lemma UpdateSpares(s: State, t: ThreadId, p: nat)
    requires NeedsUpdate(s, t, p) && CyclesEven(s) && p > s.threads[t].currentPriority
    ensures forall x: ThreadId :: IsThread(s, x) && OnCycle(s, x) ==>
              UpdatePriority(s, t, p).threads[x].currentPriority == s.threads[x].currentPriority
    decreases TotalDistance(s.threads, p < s.threads[t].currentPriority)
  {
    ReprioritizeSpares(s, t, p);
    UpdateStep(s, t, p);
    var r := Reprioritize(s, t, p);
    if Blocker(s, t) == None {
      assert UpdatePriority(s, t, p) == r;
    } else {
      var o := Blocker(s, t).value;
      BlockerFollows(s, t, p, o);
      if Goal(r, o) == r.threads[o].currentPriority {
        assert UpdatePriority(s, t, p) == r;
      } else {
        DistanceDrops(s, t, p);
        UpdateSpares(r, o, Goal(r, o));
        assert UpdatePriority(s, t, p) == UpdatePriority(r, o, Goal(r, o));
      }
    }
  }

  lemma LeaveDetaches(s: State, t: ThreadId, m: MutexId)
    requires CanDrop(s, t, m)
    ensures Detaches(s, LeaveQueue(s, t, m), t)
    ensures forall x: ThreadId :: IsThread(s, x) ==> LeaveQueue(s, t, m).threads[x].currentPriority == s.threads[x].currentPriority
  {
    var r := LeaveQueue(s, t, m);
    forall x: ThreadId | IsThread(s, x) ensures Blocker(s, x) != Some(t) {
      BlocksNobody(s, t, x);
    }
    forall n: MutexId | IsMutex(s, n) ensures r.mutexes[n].owner == s.mutexes[n].owner {
    }
  }

  lemma LeaveEven(s: State, t: ThreadId, m: MutexId)
    requires CanDrop(s, t, m)
    ensures CyclesEven(LeaveQueue(s, t, m))
    ensures forall x: ThreadId :: OnCycle(LeaveQueue(s, t, m), x) <==> OnCycle(s, x)
  {
    var r := LeaveQueue(s, t, m);
    LeaveDetaches(s, t, m);
    CyclesAreEven(s);
    forall x: ThreadId ensures OnCycle(r, x) <==> OnCycle(s, x) {
      CycleDetached(s, r, t, x);
    }
    forall y: ThreadId | IsThread(r, y) && OnCycle(r, y) ensures EvenAt(r, y) {
      CycleDetached(s, r, t, y);
      assert EvenAt(s, y);
    }
  }

  /** Dropping a waiter changes no priority on a cycle. */
  lemma DropSpares(s: State, t: ThreadId, m: MutexId)
    requires CanDrop(s, t, m)
    ensures forall x: ThreadId :: IsThread(s, x) && OnCycle(s, x) ==>
              DropWaiter(s, t, m).threads[x].currentPriority == s.threads[x].currentPriority
  {
    var r := LeaveQueue(s, t, m);
    LeaveEven(s, t, m);
    LeaveDetaches(s, t, m);
    LeaveQueueShape(s, t, m);
    LeaveQueueQueues(s, t, m);
    LeaveQueueGoals(s, t, m);
    var o := s.mutexes[m].owner.value;
    assert InvExcept(r, Some(o));
    if s.threads[o].currentPriority == s.threads[t].currentPriority && Goal(r, o) != r.threads[o].currentPriority {
      UpdateSpares(r, o, Goal(r, o));
      assert DropWaiter(s, t, m) == UpdatePriority(r, o, Goal(r, o));
    } else {
      assert DropWaiter(s, t, m) == r;
    }
  }

  lemma DropDetaches(s: State, t: ThreadId, m: MutexId)
    requires CanDrop(s, t, m)
    ensures Detaches(s, DropWaiter(s, t, m), t)
  {
    var u, r := LeaveQueue(s, t, m), DropWaiter(s, t, m);
    LeaveDetaches(s, t, m);
    SkeletonBlocker(u, r);
    forall x: ThreadId | IsThread(s, x) ensures Blocker(r, x) == Blocker(u, x) {
      assert Blocker(u, x).Some? ==> Blocker(r, x) == Blocker(u, x);
      assert Blocker(r, x).Some? ==> Blocker(u, x) == Blocker(r, x);
    }
  }

  /** What the deletion of a waiter leaves: the same blocking without it, and the same priorities on all cycles. */
  lemma DeleteEffect(s: State, t: ThreadId)
    requires Deletable(s, t)
    ensures Detaches(s, Delete(s, t), t)
    ensures forall x: ThreadId :: IsThread(s, x) && OnCycle(s, x) ==>
              Delete(s, t).threads[x].currentPriority == s.threads[x].currentPriority
  {
    var r := Delete(s, t);
    if s.threads[t].pending.Some? {
      assert ThreadShape(s, t);
      var m := s.threads[t].pending.value;
      DropDetaches(s, t, m);
      DropSpares(s, t, m);
      var u := DropWaiter(s, t, m);
      assert r == SetThread(u, t, u.threads[t].(stat := Close, pending := None));
      forall x: ThreadId | IsThread(s, x) && x != t ensures Blocker(r, x) == Blocker(u, x) {
      }
    } else {
      forall x: ThreadId | IsThread(s, x) ensures Blocker(s, x) != Some(t) {
        BlocksNobody(s, t, x);
      }
      forall x: ThreadId | IsThread(s, x) && x != t ensures Blocker(r, x) == Blocker(s, x) {
      }
    }
  }

  /** The thread that goes was the source of a cycle's priority: nobody is left who explains it. */
  lemma LosesSource(s: State, r: State, t: ThreadId, x: ThreadId)
    requires Detaches(s, r, t) && IsThread(s, x) && OnCycle(s, x) && ExactAt(s, x)
    requires r.threads[x].currentPriority == s.threads[x].currentPriority
    requires Behind(s, t, x) && LessUrgent(s, t, x)
    ensures !Justified(r, x)
  {
    CycleDetached(s, r, t, x);
    forall w: ThreadId | IsThread(r, w) && Behind(r, w, x) ensures r.threads[w].initPriority > r.threads[x].currentPriority {
      BehindDetached(s, r, t, w, x);
    }
  }

  /** Somebody else behind the cycle explains its priority. */
  lemma KeepsSource(s: State, r: State, t: ThreadId, x: ThreadId)
    requires Detaches(s, r, t) && IsThread(s, x) && ExactAt(s, x)
    requires r.threads[x].currentPriority == s.threads[x].currentPriority
    requires !(Behind(s, t, x) && LessUrgent(s, t, x))
    ensures Justified(r, x)
  {
    var w: ThreadId :| IsThread(s, w) && Behind(s, w, x) && s.threads[w].initPriority == s.threads[x].currentPriority;
    if w == t {
      w :| IsThread(s, w) && w != t && Behind(s, w, x) && s.threads[w].initPriority <= s.threads[t].initPriority;
    }
    BehindDetached(s, r, t, w, x);
    assert s.threads[x].currentPriority <= s.threads[w].initPriority;
  }

  lemma OffCycleJustified(r: State, x: ThreadId)
    requires Inv(r) && IsThread(r, x) && !OnCycle(r, x)
    ensures Justified(r, x)
  {
    PriorityIsExact(r, x);
    var chain :| BlockingChain(r, chain) && chain[|chain| - 1] == x && r.threads[x].currentPriority == r.threads[chain[0]].initPriority;
    assert Leads(r, chain, chain[0], x);
  }

  /** Deleting a thread keeps all priorities exact unless it alone explains the boost of a deadlock. */
  lemma DeleteKeepsExactIff(s: State, t: ThreadId)
    requires Deletable(s, t) && Exact(s)
    ensures Exact(Delete(s, t)) <==> !OnlySource(s, t)
  {
    var r := Delete(s, t);
    DeleteEffect(s, t);
    if OnlySource(s, t) {
      var x: ThreadId :| IsThread(s, x) && OnCycle(s, x) && Behind(s, t, x) && LessUrgent(s, t, x);
      LosesSource(s, r, t, x);
      assert !ExactAt(r, x);
    } else {
      forall x: ThreadId | IsThread(r, x) ensures Justified(r, x) {
        if OnCycle(r, x) {
          CycleDetached(s, r, t, x);
          KeepsSource(s, r, t, x);
        } else {
          OffCycleJustified(r, x);
        }
      }
      ExactIs(r);
    }
  }

  // ---------------------------------------------------------------------------------------------
  // Whole runs

  lemma ThreadCreated(s: State, p: nat)
    requires Inv(s) && Enabled(s, CreateThread(p)) && AllJustified(s)
    ensures AllJustified(Step(s, CreateThread(p)))
  {
    var r := Step(s, CreateThread(p));
    assert SameFlow(s, r);
    FlowJustified(s, r);
    BehindSelf(r, |s.threads|);
  }

  lemma MutexCreated(s: State)
    requires Inv(s) && AllJustified(s)
    ensures AllJustified(Step(s, CreateMutex))
  {
    CreatedFlow(s);
    FlowJustified(s, Step(s, CreateMutex));
  }

  lemma CreatedFlow(s: State)
    requires Inv(s)
    ensures SameFlow(s, Step(s, CreateMutex))
  {
    forall x: ThreadId | IsThread(s, x) && Blocker(s, x).Some? ensures Blocker(Step(s, CreateMutex), x) == Blocker(s, x) {
      assert ThreadShape(s, x);
    }
  }

  lemma ScheduleJustifies(s: State, t: ThreadId, stat: Stat)
    requires Inv(s) && Enabled(s, Schedule(t, stat)) && AllJustified(s)
    ensures AllJustified(Step(s, Schedule(t, stat)))
  {
    var r := Step(s, Schedule(t, stat));
    StatusFlow(s, t, stat);
    assert r == SetThread(s, t, s.threads[t].(stat := stat));
    RunningJustified(s, r, t);
  }

  lemma StatusFlow(s: State, t: ThreadId, stat: Stat)
    requires IsThread(s, t) && s.threads[t].pending.None?
    ensures OnlyRunning(s, SetThread(s, t, s.threads[t].(stat := stat)), t)
  {
  }

  lemma StepJustifies(s: State, e: Event)
    requires Inv(s) && Enabled(s, e) && AllJustified(s) && !e.DeleteThread?
    ensures AllJustified(Step(s, e))
  {
    match e
    case CreateThread(p) => ThreadCreated(s, p);
    case CreateMutex => MutexCreated(s);
    case Schedule(t, stat) => ScheduleJustifies(s, t, stat);
    case TakeMutex(t, m, forever) => TakeJustifies(s, t, m, forever);
    case ReleaseMutex(t, m) => ReleaseJustifies(s, t, m);
  }

  /** Every critical section keeps all priorities exact, cyclic waiting included, if and only if it is not the deletion
      of the only source of a deadlock's boost. */
  lemma StepKeepsExactIff(s: State, e: Event)
    requires Inv(s) && Enabled(s, e) && Exact(s)
    ensures Exact(Step(s, e)) <==> !(e.DeleteThread? && OnlySource(s, e.t))
  {
    if e.DeleteThread? {
      DeleteKeepsExactIff(s, e.t);
    } else {
      ExactIs(s);
      StepJustifies(s, e);
      StepKeepsInv(s, e);
      ExactIs(Step(s, e));
    }
  }

  ghost predicate Spares(s: State, e: Event) {
    e.DeleteThread? && IsThread(s, e.t) ==> !OnlySource(s, e.t)
  }

  /** In every run that never deletes such a thread, every priority is exact in every state. */
  lemma {:induction false} RunKeepsExact(states: seq<State>, events: seq<Event>, n: nat)
    requires IsRun(states, events) && n <= |events|
    requires forall i :: 0 <= i < n ==> Spares(states[i], events[i])
    ensures Inv(states[n]) && Exact(states[n])
  {
    if n == 0 {
      RunKeepsInv(states, events);
    } else {
      RunKeepsExact(states, events, n - 1);
      assert IsStep(states[n - 1], events[n - 1], states[n]);
      assert Spares(states[n - 1], events[n - 1]);
      StepKeepsInv(states[n - 1], events[n - 1]);
      StepKeepsExactIff(states[n - 1], events[n - 1]);
    }
  }

  // ---------------------------------------------------------------------------------------------
  // A run that leaves a boost behind

  /** Threads 0 and 1, of priority 10, each wait for the mutex of the other. */
  function Pair(a: nat, b: nat, p: nat, q: nat, third: Thread, queue: seq<ThreadId>): State {
    State([Thread(10, a, Suspend, EOk, Some(1), [0]), Thread(10, b, Suspend, EOk, Some(0), [1]), third],
          [Mutex(Some(0), 1, p, queue), Mutex(Some(1), 1, q, [0])])
  }

  function Deadlocked(p: nat, third: Thread, queue: seq<ThreadId>): State {
    Pair(p, p, p, p, third, queue)
  }

  function Third(stat: Stat, pending: Option<MutexId>): Thread {
    Thread(1, 1, stat, EOk, pending, [])
  }

  /** One more step of a run, to the state `next`. */
  lemma Then(states: seq<State>, events: seq<Event>, e: Event, next: State) returns (longer: seq<State>, all: seq<Event>)
    requires IsRun(states, events) && Inv(states[|events|]) && Enabled(states[|events|], e)
    requires next == Step(states[|events|], e)
    ensures longer == states + [next] && all == events + [e]
    ensures IsRun(longer, all) && longer[|all|] == next && Inv(next)
  {
    StepKeepsInv(states[|events|], e);
    longer, all := states + [next], events + [e];
    forall i | 0 <= i < |all| ensures IsStep(longer[i], all[i], longer[i + 1]) {
      assert i < |events| ==> IsStep(states[i], events[i], states[i + 1]);
    }
  }

  /** Three threads and two mutexes, with thread 0 running. */
  lemma Created() returns (states: seq<State>, events: seq<Event>)
    ensures IsRun(states, events) && Inv(states[|events|])
    ensures states[|events|] ==
            State([Thread(10, 10, Running, EOk, None, []), Thread(10, 10, Init, EOk, None, []), Third(Init, None)],
                  [Mutex(None, 0, NO_PRIORITY, []), Mutex(None, 0, NO_PRIORITY, [])])
  {
    var boot := State([], []);
    states, events := [boot], [];
    assert Inv(boot);
    var th := Thread(10, 10, Init, EOk, None, []);
    var mx := Mutex(None, 0, NO_PRIORITY, []);
    states, events := Then(states, events, CreateThread(10), State([th], []));
    states, events := Then(states, events, CreateThread(10), State([th, th], []));
    states, events := Then(states, events, CreateThread(1), State([th, th, Third(Init, None)], []));
    states, events := Then(states, events, CreateMutex, State([th, th, Third(Init, None)], [mx]));
    states, events := Then(states, events, CreateMutex, State([th, th, Third(Init, None)], [mx, mx]));
    states, events := Then(states, events, Schedule(0, Running), State([th.(stat := Running), th, Third(Init, None)], [mx, mx]));
  }

  /** Each of the two holds one mutex, and thread 1 is running. */
  lemma BothHold() returns (states: seq<State>, events: seq<Event>)
    ensures IsRun(states, events) && Inv(states[|events|])
    ensures states[|events|] ==
            State([Thread(10, 10, Ready, EOk, None, [0]), Thread(10, 10, Running, EOk, None, [1]), Third(Init, None)],
                  [Mutex(Some(0), 1, NO_PRIORITY, []), Mutex(Some(1), 1, NO_PRIORITY, [])])
  {
    states, events := Created();
    var first, th := Thread(10, 10, Running, EOk, None, [0]), Thread(10, 10, Init, EOk, None, []);
    var mx, m0 := Mutex(None, 0, NO_PRIORITY, []), Mutex(Some(0), 1, NO_PRIORITY, []);
    assert [0] + first.taken[1..] == [0] == [0] + th.taken;
    states, events := Then(states, events, TakeMutex(0, 0, true), State([first, th, Third(Init, None)], [m0, mx]));
    first := first.(stat := Ready);
    states, events := Then(states, events, Schedule(0, Ready), State([first, th, Third(Init, None)], [m0, mx]));
    states, events := Then(states, events, Schedule(1, Running), State([first, th.(stat := Running), Third(Init, None)], [m0, mx]));
    assert [1] + th.taken == [1];
    states, events := Then(states, events, TakeMutex(1, 1, true),
                           State([first, th.(stat := Running, taken := [1]), Third(Init, None)],
                                 [m0, Mutex(Some(1), 1, NO_PRIORITY, [])]));
  }

  /** Joining the queue of a mutex whose owner is at least as urgent changes no priority. */
  lemma QuietJoin(s: State, t: ThreadId, m: MutexId)
    requires Inv(s) && Executing(s, t) && OwnedByOther(s, t, m) && s.mutexes[m].waiters == []
    requires s.mutexes[m].owner.value < |s.threads|
    requires s.threads[s.mutexes[m].owner.value].currentPriority <= s.threads[t].currentPriority <= s.mutexes[m].priority
    ensures Take(s, t, m, true).0 ==
            SetMutex(SetThread(s, t, s.threads[t].(stat := Suspend, error := EOk, pending := Some(m))), m,
                     s.mutexes[m].(waiters := [t], priority := s.threads[t].currentPriority))
  {
    assert InsertAt([], 0, t) == [t];
  }

  lemma SecondBlocks() returns (states: seq<State>, events: seq<Event>)
    ensures IsRun(states, events) && Inv(states[|events|])
    ensures states[|events|] ==
            State([Thread(10, 10, Running, EOk, None, [0]), Thread(10, 10, Suspend, EOk, Some(0), [1]), Third(Init, None)],
                  [Mutex(Some(0), 1, 10, [1]), Mutex(Some(1), 1, NO_PRIORITY, [])])
  {
    states, events := BothHold();
    QuietJoin(states[|events|], 1, 0);
    var first, second := Thread(10, 10, Ready, EOk, None, [0]), Thread(10, 10, Suspend, EOk, Some(0), [1]);
    var m0, m1 := Mutex(Some(0), 1, 10, [1]), Mutex(Some(1), 1, NO_PRIORITY, []);
    states, events := Then(states, events, TakeMutex(1, 0, true), State([first, second, Third(Init, None)], [m0, m1]));
    states, events := Then(states, events, Schedule(0, Running),
                           State([first.(stat := Running), second, Third(Init, None)], [m0, m1]));
  }

  /** The deadlock, and a more urgent third thread running. */
  lemma DeadlockReached() returns (states: seq<State>, events: seq<Event>)
    ensures IsRun(states, events) && Inv(states[|events|])
    ensures states[|events|] == Deadlocked(10, Third(Running, None), [1])
  {
    states, events := SecondBlocks();
    QuietJoin(states[|events|], 0, 1);
    states, events := Then(states, events, TakeMutex(0, 1, true), Deadlocked(10, Third(Init, None), [1]));
    states, events := Then(states, events, Schedule(2, Running), Deadlocked(10, Third(Running, None), [1]));
  }

  lemma ThirdJoins()
    requires Inv(Deadlocked(10, Third(Running, None), [1]))
    ensures JoinQueue(Deadlocked(10, Third(Running, None), [1]), 2, 0) == Pair(10, 10, 1, 10, Third(Suspend, Some(0)), [2, 1])
  {
    assert InsertAt([1], 0, 2) == [2, 1];
  }

  lemma FirstRises()
    requires Shape(Pair(10, 10, 1, 10, Third(Suspend, Some(0)), [2, 1]))
    ensures Reprioritize(Pair(10, 10, 1, 10, Third(Suspend, Some(0)), [2, 1]), 0, 1) ==
            Pair(1, 10, 1, 1, Third(Suspend, Some(0)), [2, 1])
  {
    assert Remove([0], 0) == [] && InsertAt([], 0, 0) == [0];
  }

  lemma SecondRises()
    requires Shape(Pair(1, 10, 1, 1, Third(Suspend, Some(0)), [2, 1]))
    ensures Reprioritize(Pair(1, 10, 1, 1, Third(Suspend, Some(0)), [2, 1]), 1, 1) ==
            Pair(1, 1, 1, 1, Third(Suspend, Some(0)), [2, 1])
  {
    assert Remove([2, 1], 1) == [2] && InsertAt([2], 1, 1) == [2, 1];
  }

  /** The second half of the update: thread 1 rises, and thread 0 has no reason to rise again. */
  lemma SecondUpdated()
    requires NeedsUpdate(Pair(1, 10, 1, 1, Third(Suspend, Some(0)), [2, 1]), 1, 1)
    ensures UpdatePriority(Pair(1, 10, 1, 1, Third(Suspend, Some(0)), [2, 1]), 1, 1) ==
            Deadlocked(1, Third(Suspend, Some(0)), [2, 1])
  {
    var s := Pair(1, 10, 1, 1, Third(Suspend, Some(0)), [2, 1]);
    SecondRises();
    BlockerFollows(s, 1, 1, 0);
    assert Goal(Reprioritize(s, 1, 1), 0) == 1;
  }

  lemma FirstUpdated()
    requires NeedsUpdate(Pair(10, 10, 1, 10, Third(Suspend, Some(0)), [2, 1]), 0, 1)
    ensures UpdatePriority(Pair(10, 10, 1, 10, Third(Suspend, Some(0)), [2, 1]), 0, 1) ==
            Deadlocked(1, Third(Suspend, Some(0)), [2, 1])
  {
    var s := Pair(10, 10, 1, 10, Third(Suspend, Some(0)), [2, 1]);
    FirstRises();
    UpdateStep(s, 0, 1);
    BlockerFollows(s, 0, 1, 1);
    assert Goal(Reprioritize(s, 0, 1), 1) == 1;
    SecondUpdated();
  }

  /** The third thread blocks behind the deadlock, and both threads in it rise to its priority. */
  lemma Boosted()
    requires Inv(Deadlocked(10, Third(Running, None), [1]))
    ensures Take(Deadlocked(10, Third(Running, None), [1]), 2, 0, true).0 == Deadlocked(1, Third(Suspend, Some(0)), [2, 1])
  {
    var s := Deadlocked(10, Third(Running, None), [1]);
    ThirdJoins();
    JoinedNext(s, 2, 0);
    FirstUpdated();
  }

  lemma ThirdLeaves()
    requires CanDrop(Deadlocked(1, Third(Suspend, Some(0)), [2, 1]), 2, 0)
    ensures LeaveQueue(Deadlocked(1, Third(Suspend, Some(0)), [2, 1]), 2, 0) == Deadlocked(1, Third(Close, Some(0)), [1])
  {
    QueueWithoutThird();
    ThirdClosed();
  }

  lemma ThirdClosed()
    ensures var s := Deadlocked(1, Third(Suspend, Some(0)), [2, 1]);
            SetMutex(SetThread(s, 2, s.threads[2].(stat := Close)), 0, s.mutexes[0].(waiters := [1], priority := 1)) ==
            Deadlocked(1, Third(Close, Some(0)), [1])
  {
  }

  lemma QueueWithoutThird()
    ensures Remove([2, 1], 2) == [1]
  {
    assert IndexOf([2, 1], 2) == 0;
  }

  lemma ThirdDropped()
    requires CanDrop(Deadlocked(1, Third(Suspend, Some(0)), [2, 1]), 2, 0)
    ensures DropWaiter(Deadlocked(1, Third(Suspend, Some(0)), [2, 1]), 2, 0) == Deadlocked(1, Third(Close, Some(0)), [1])
  {
    ThirdLeaves();
    assert Goal(Deadlocked(1, Third(Close, Some(0)), [1]), 0) == 1;
  }

  /** The third thread is deleted, and the two keep each other at its priority. */
  lemma Dropped()
    requires Deletable(Deadlocked(1, Third(Suspend, Some(0)), [2, 1]), 2)
    ensures Delete(Deadlocked(1, Third(Suspend, Some(0)), [2, 1]), 2) == Deadlocked(1, Third(Close, None), [1])
  {
    DeletableDrops(Deadlocked(1, Third(Suspend, Some(0)), [2, 1]), 2);
    ThirdDropped();
  }

  lemma BoostedRun() returns (states: seq<State>, events: seq<Event>)
    ensures IsRun(states, events) && Inv(states[|events|])
    ensures states[|events|] == Deadlocked(1, Third(Suspend, Some(0)), [2, 1])
  {
    states, events := DeadlockReached();
    Boosted();
    states, events := Then(states, events, TakeMutex(2, 0, true), Deadlocked(1, Third(Suspend, Some(0)), [2, 1]));
  }

  ghost predicate Unexplained(s: State) {
    && |s.threads| == 3 && s.threads[0].currentPriority == 1
    && (forall w: ThreadId :: IsThread(s, w) && Behind(s, w, 0) ==> s.threads[w].initPriority == 10)
  }

  lemma NobodyExplains()
    ensures OnCycle(Deadlocked(1, Third(Close, None), [1]), 0) && Unexplained(Deadlocked(1, Third(Close, None), [1]))
  {
    var s := Deadlocked(1, Third(Close, None), [1]);
    assert IsLoop(s, [0, 1, 0], 0);
    forall w: ThreadId | IsThread(s, w) && Behind(s, w, 0) ensures s.threads[w].initPriority == 10 {
      var chain :| Leads(s, chain, w, 0);
      assert |chain| > 1 ==> Blocker(s, chain[0]) == Some(chain[1]);
    }
  }

  /**
    A run at whose end two deadlocked threads of initial priority 10 run at 1, which no thread behind them explains: the
    thread of priority 1 that was queued behind them has been deleted.
   */
  lemma DeadlockMayKeepBoost() returns (states: seq<State>, events: seq<Event>)
    ensures IsRun(states, events) && events != [] && events[|events| - 1] == DeleteThread(2)
    ensures Inv(states[|events|]) && OnCycle(states[|events|], 0) && Unexplained(states[|events|])
  {
    states, events := BoostedRun();
    Dropped();
    states, events := Then(states, events, DeleteThread(2), Deadlocked(1, Third(Close, None), [1]));
    NobodyExplains();
  }
}
