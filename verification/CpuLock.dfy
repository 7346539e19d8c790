/**
  The global CPU lock (`rt-thread/src/cpu.c`, `rt-thread/src/scheduler.c`): a spin lock whose ownership follows the
  nesting counters of the threads across context switches.

  Taking the lock is one step that is possible only when the lock is free or already held by the same CPU.
 */
module CpuLock {
  import opened Common

  type Tid = nat
  type CpuId = nat

  /** The nesting counters of a thread; `preempt` counts its outstanding preempt-disables, which the source only adds up in `schedNest`. */
  datatype Counts = Counts(cpusNest: nat, schedNest: int, critNest: nat, preempt: nat)

  /** `owner` is the CPU that holds `_cpus_lock`. */
  datatype State = State(threads: seq<Counts>, current: seq<Tid>, owner: Option<CpuId>)

  datatype Op =
    | Lock(c: CpuId)
    | Unlock(c: CpuId)
    | EnterCritical(c: CpuId)
    | ExitCritical(c: CpuId)
    | PreemptDisable(c: CpuId)
    | PreemptEnable(c: CpuId)
    | Switch(c: CpuId, to: Tid)
    | IrqSwitch(c: CpuId, to: Tid)

  ghost predicate Shape(s: State) {
    && Distinct(s.current)
    && (forall c :: 0 <= c < |s.current| ==> s.current[c] < |s.threads|)
    && (s.owner.Some? ==> s.owner.value < |s.current|)
  }

  ghost predicate CountsOk(n: Counts) {
    && n.schedNest == n.critNest + n.preempt + (if n.cpusNest > 0 then 1 else 0)
    && n.critNest <= n.cpusNest
  }

  ghost predicate Holds(s: State, c: CpuId)
    requires Shape(s) && c < |s.current|
  {
    s.threads[s.current[c]].cpusNest > 0
  }

  /** The counters add up, and exactly the CPU whose current thread has `cpusNest > 0` holds the lock. */
  ghost predicate Inv(s: State) {
    && Shape(s)
    && (forall t :: 0 <= t < |s.threads| ==> CountsOk(s.threads[t]))
    && (forall c: CpuId :: c < |s.current| ==> (Holds(s, c) <==> s.owner == Some(c)))
  }

  /** Nobody has locked anything yet; `current` are the threads that run. */
  function NewLock(count: nat, current: seq<Tid>): State {
    State(seq(count, _ => Counts(0, 0, 0, 0)), current, None)
  }

  lemma InitKeeps(count: nat, current: seq<Tid>)
    requires Distinct(current) && Below(current, count)
    ensures Inv(NewLock(count, current))
  {
  }

  function Self(s: State, c: CpuId): Counts
    requires Shape(s) && c < |s.current|
  {
    s.threads[s.current[c]]
  }

  function SetSelf(s: State, c: CpuId, n: Counts, owner: Option<CpuId>): State
    requires Shape(s) && c < |s.current|
  {
    s.(threads := s.threads[s.current[c] := n], owner := owner)
  }

  /** `rt_cpus_lock` */
  function Locked(s: State, c: CpuId): State
    requires Shape(s) && c < |s.current|
  {
    var n := Self(s, c);
    if n.cpusNest == 0 then SetSelf(s, c, n.(cpusNest := 1, schedNest := n.schedNest + 1), Some(c))
    else SetSelf(s, c, n.(cpusNest := n.cpusNest + 1), s.owner)
  }

  /** `rt_cpus_unlock` */
  function Unlocked(s: State, c: CpuId): State
    requires Shape(s) && c < |s.current| && Self(s, c).cpusNest > 0
  {
    var n := Self(s, c);
    if n.cpusNest == 1 then SetSelf(s, c, n.(cpusNest := 0, schedNest := n.schedNest - 1), None)
    else SetSelf(s, c, n.(cpusNest := n.cpusNest - 1), s.owner)
  }

  /** `rt_enter_critical` */
  function Entered(s: State, c: CpuId): State
    requires Shape(s) && c < |s.current|
  {
    var n := Self(s, c);
    var first := n.cpusNest == 0;
    SetSelf(s, c, n.(cpusNest := n.cpusNest + 1, critNest := n.critNest + 1, schedNest := n.schedNest + (if first then 2 else 1)),
            if first then Some(c) else s.owner)
  }

  /** `rt_exit_critical` up to the scheduling. */
  function Left(s: State, c: CpuId): State
    requires Shape(s) && c < |s.current| && Self(s, c).cpusNest > 0 && Self(s, c).critNest > 0
  {
    var n := Self(s, c);
    var last := n.cpusNest == 1;
    SetSelf(s, c, n.(cpusNest := n.cpusNest - 1, critNest := n.critNest - 1,
                     schedNest := Max(0, n.schedNest - (if last then 2 else 1))),
            if last then None else s.owner)
  }

  /** `rt_cpus_lock_status_restore` for the thread that is switched to. */
  function Restored(s: State, c: CpuId, to: Tid): State
    requires c < |s.current| && to < |s.threads|
  {
    s.(current := s.current[c := to], owner := if s.threads[to].cpusNest == 0 then None else s.owner)
  }

  /** The end of `rt_scheduler_do_irq_switch`: the interrupted thread gives back the lock of the interrupt first. */
  function IrqSwitched(s: State, c: CpuId, to: Tid): State
    requires Shape(s) && c < |s.current| && to < |s.threads|
  {
    var l := Locked(s, c);
    var n := l.threads[l.current[c]];
    Restored(l.(threads := l.threads[l.current[c] := n.(cpusNest := Max(0, n.cpusNest - 1), schedNest := n.schedNest - 1)]), c, to)
  }

  predicate Enabled(s: State, op: Op)
    requires Shape(s)
  {
    op.c < |s.current| &&
    match op
    case Lock(c) => s.owner == None || s.owner == Some(c)
    case Unlock(c) => Self(s, c).cpusNest > Self(s, c).critNest
    case EnterCritical(c) => s.owner == None || s.owner == Some(c)
    case ExitCritical(c) => Self(s, c).critNest > 0 && Self(s, c).cpusNest > 0
    case PreemptDisable(c) => true
    case PreemptEnable(c) => Self(s, c).preempt > 0
    case Switch(c, to) => s.owner == Some(c) && Self(s, c).schedNest == 1 && to < |s.threads| && to !in s.current
    case IrqSwitch(c, to) =>
      // the interrupted thread held no lock, and the scheduler is unlocked once the interrupt has taken its own
      s.owner == None && Self(s, c).schedNest == 0 && to < |s.threads| && to !in s.current
  }

  function Step(s: State, op: Op): State
    requires Shape(s) && Enabled(s, op)
  {
    match op
    case Lock(c) => Locked(s, c)
    case Unlock(c) => Unlocked(s, c)
    case EnterCritical(c) => Entered(s, c)
    case ExitCritical(c) => Left(s, c)
    case PreemptDisable(c) => SetSelf(s, c, Self(s, c).(schedNest := Self(s, c).schedNest + 1, preempt := Self(s, c).preempt + 1), s.owner)
    case PreemptEnable(c) => SetSelf(s, c, Self(s, c).(schedNest := Self(s, c).schedNest - 1, preempt := Self(s, c).preempt - 1), s.owner)
    case Switch(c, to) => Restored(s, c, to)
    case IrqSwitch(c, to) => IrqSwitched(s, c, to)
  }

  lemma SelfKeeps(s: State, c: CpuId, n: Counts, owner: Option<CpuId>)
    requires Inv(s) && c < |s.current| && CountsOk(n)
    requires owner == if n.cpusNest > 0 then Some(c) else None
    requires s.owner == None || s.owner == Some(c)
    ensures Inv(SetSelf(s, c, n, owner))
  {
    var r := SetSelf(s, c, n, owner);
    forall d: CpuId | d < |r.current| ensures Holds(r, d) <==> r.owner == Some(d) {
      assert Holds(s, d) <==> s.owner == Some(d);
      assert d != c ==> s.current[d] != s.current[c];
    }
  }

  /** Changing only `schedNest` and `preempt` of a thread, which needs no lock. */
  lemma PreemptKeeps(s: State, c: CpuId, n: Counts)
    requires Inv(s) && c < |s.current| && CountsOk(n) && n.cpusNest == Self(s, c).cpusNest
    ensures Inv(SetSelf(s, c, n, s.owner))
  {
    var r := SetSelf(s, c, n, s.owner);
    forall d: CpuId | d < |r.current| ensures Holds(r, d) <==> r.owner == Some(d) {
      assert Holds(s, d) <==> s.owner == Some(d);
    }
  }

  lemma SwitchKeeps(s: State, c: CpuId, to: Tid, r: State)
    requires Shape(s) && c < |s.current| && to < |s.threads| && to !in s.current
    requires forall t :: 0 <= t < |s.threads| ==> CountsOk(s.threads[t])
    requires forall d: CpuId :: d < |s.current| && d != c ==> !Holds(s, d)
    requires s.owner == Some(c) && r == Restored(s, c, to)
    ensures Inv(r)
  {
    forall d: CpuId | d < |r.current| && d != c ensures r.current[d] == s.current[d] != to {
      assert s.current[d] in s.current;
    }
    assert Shape(r);
    forall d: CpuId | d < |r.current| ensures Holds(r, d) <==> r.owner == Some(d) {
      assert d != c ==> !Holds(s, d);
    }
  }

  lemma IrqSwitchKeeps(s: State, c: CpuId, to: Tid)
    requires Inv(s) && Enabled(s, IrqSwitch(c, to))
    ensures Inv(IrqSwitched(s, c, to)) && IrqSwitched(s, c, to).threads == s.threads
  {
    assert Holds(s, c) <==> s.owner == Some(c);
    var before := s.(owner := Some(c));
    assert IrqSwitched(s, c, to).threads == s.threads;
    forall d: CpuId | d < |s.current| && d != c ensures !Holds(before, d) {
      assert Holds(s, d) <==> s.owner == Some(d);
    }
    SwitchKeeps(before, c, to, IrqSwitched(s, c, to));
  }

  lemma StepKeeps(s: State, op: Op)
    requires Inv(s) && Enabled(s, op)
    ensures Inv(Step(s, op))
  {
    var c := op.c;
    var n := Self(s, c);
    assert Holds(s, c) <==> s.owner == Some(c);
    assert CountsOk(n);
    match op
    case Lock(_) =>
      SelfKeeps(s, c, n.(cpusNest := n.cpusNest + 1, schedNest := n.schedNest + (if n.cpusNest == 0 then 1 else 0)), Some(c));
    case Unlock(_) =>
      SelfKeeps(s, c, n.(cpusNest := n.cpusNest - 1, schedNest := n.schedNest - (if n.cpusNest == 1 then 1 else 0)),
                if n.cpusNest == 1 then None else Some(c));
    case EnterCritical(_) =>
      SelfKeeps(s, c, n.(cpusNest := n.cpusNest + 1, critNest := n.critNest + 1, schedNest := n.schedNest + (if n.cpusNest == 0 then 2 else 1)), Some(c));
    case ExitCritical(_) =>
      SelfKeeps(s, c, n.(cpusNest := n.cpusNest - 1, critNest := n.critNest - 1, schedNest := n.schedNest - (if n.cpusNest == 1 then 2 else 1)),
                if n.cpusNest == 1 then None else Some(c));
    case PreemptDisable(_) => PreemptKeeps(s, c, n.(schedNest := n.schedNest + 1, preempt := n.preempt + 1));
    case PreemptEnable(_) => PreemptKeeps(s, c, n.(schedNest := n.schedNest - 1, preempt := n.preempt - 1));
    case Switch(_, to) =>
      forall d: CpuId | d < |s.current| && d != c ensures !Holds(s, d) {
        assert Holds(s, d) <==> s.owner == Some(d);
      }
      SwitchKeeps(s, c, to, Restored(s, c, to));
    case IrqSwitch(_, to) => IrqSwitchKeeps(s, c, to);
  }

  ghost predicate Follows(s: State, op: Op, r: State) {
    Shape(s) ==> Enabled(s, op) && r == Step(s, op)
  }

  /** Over any run of nested locking, critical sections and switches the counters and the lock stay in agreement. */
  lemma {:induction false} RunKeeps(ss: seq<State>, ops: seq<Op>, i: nat)
    requires |ss| == |ops| + 1 && Inv(ss[0]) && i < |ss|
    requires forall j, k :: 0 <= j < k < |ss| && k == j + 1 ==> Follows(ss[j], ops[j], ss[k])
    ensures Inv(ss[i])
  {
    if i > 0 {
      RunKeeps(ss, ops, i - 1);
      assert Follows(ss[i - 1], ops[i - 1], ss[i]);
      StepKeeps(ss[i - 1], ops[i - 1]);
    }
  }

  /** What the calls of a thread amount to, one component for each of its counters. */
  datatype Depth = Depth(locks: int, critical: int, preempt: int)

  /** What `op` does to the depth of thread `t`: nothing unless `t` is the thread that runs on the CPU of `op`. */
  function Call(s: State, op: Op, t: Tid): Depth {
    if !(op.c < |s.current| && s.current[op.c] == t) then Depth(0, 0, 0)
    else
      match op
      case Lock(_) => Depth(1, 0, 0)
      case Unlock(_) => Depth(-1, 0, 0)
      case EnterCritical(_) => Depth(1, 1, 0)
      case ExitCritical(_) => Depth(-1, -1, 0)
      case PreemptDisable(_) => Depth(0, 0, 1)
      case PreemptEnable(_) => Depth(0, 0, -1)
      case Switch(_, _) => Depth(0, 0, 0)
      case IrqSwitch(_, _) => Depth(0, 0, 0)
  }

  /** The calls made less the calls undone by thread `t` in the first `n` steps of a run. */
  function Balance(ss: seq<State>, ops: seq<Op>, n: nat, t: Tid): Depth
    requires n <= |ops| <= |ss|
  {
    if n == 0 then Depth(0, 0, 0)
    else
      var d, b := Call(ss[n - 1], ops[n - 1], t), Balance(ss, ops, n - 1, t);
      Depth(b.locks + d.locks, b.critical + d.critical, b.preempt + d.preempt)
  }

  ghost predicate Counted(n: Counts, from: Counts, d: Depth) {
    && n.cpusNest == from.cpusNest + d.locks
    && n.critNest == from.critNest + d.critical
    && n.preempt == from.preempt + d.preempt
  }

  lemma StepCounts(s: State, op: Op, t: Tid)
    requires Inv(s) && Enabled(s, op) && t < |s.threads|
    ensures |Step(s, op).threads| == |s.threads| && Counted(Step(s, op).threads[t], s.threads[t], Call(s, op, t))
  {
    if op.IrqSwitch? {
      IrqSwitchKeeps(s, op.c, op.to);
    }
  }

  /**
    Over any run a CPU owns the lock exactly when the thread that runs on it has more lock and enter calls than unlock
    and exit calls behind it, wherever those calls were made, and its scheduler counter adds up the rest of its calls.
   */
  lemma {:induction false} OwnerByCalls(ss: seq<State>, ops: seq<Op>, i: nat, t: Tid)
    requires |ss| == |ops| + 1 && Inv(ss[0]) && i < |ss| && t < |ss[0].threads|
    requires forall u :: 0 <= u < |ss[0].threads| ==> ss[0].threads[u] == Counts(0, 0, 0, 0)
    requires forall j, k :: 0 <= j < k < |ss| && k == j + 1 ==> Follows(ss[j], ops[j], ss[k])
    ensures |ss[i].threads| == |ss[0].threads| && Counted(ss[i].threads[t], Counts(0, 0, 0, 0), Balance(ss, ops, i, t))
    ensures var b := Balance(ss, ops, i, t);
            && (forall c: CpuId :: c < |ss[i].current| && ss[i].current[c] == t ==> (ss[i].owner == Some(c) <==> b.locks > 0))
            && ss[i].threads[t].schedNest == b.critical + b.preempt + (if b.locks > 0 then 1 else 0)
  {
    RunKeeps(ss, ops, i);
    if i > 0 {
      OwnerByCalls(ss, ops, i - 1, t);
      RunKeeps(ss, ops, i - 1);
      assert Follows(ss[i - 1], ops[i - 1], ss[i]);
      StepCounts(ss[i - 1], ops[i - 1], t);
    }
    assert CountsOk(ss[i].threads[t]);
    forall c: CpuId | c < |ss[i].current| && ss[i].current[c] == t ensures ss[i].owner == Some(c) <==> ss[i].threads[t].cpusNest > 0 {
      assert Holds(ss[i], c) <==> ss[i].owner == Some(c);
    }
  }

  /** Two CPUs are never inside the lock together, and what a context switch needs excludes every other lock. */
  lemma MutualExclusion(s: State, c: CpuId, d: CpuId)
    requires Inv(s) && c < |s.current| && d < |s.current| && Holds(s, c)
    ensures s.owner == Some(c)
    ensures Holds(s, d) ==> c == d
    ensures Self(s, c).schedNest == 1 ==> Self(s, c).critNest == 0 && Self(s, c).preempt == 0
  {
    assert Holds(s, c) <==> s.owner == Some(c);
    assert Holds(s, d) <==> s.owner == Some(d);
    assert CountsOk(Self(s, c));
  }

  /** The lock changes hands in a switch exactly when the incoming thread was not itself switched out inside it. */
  lemma SwitchHandsOver(s: State, c: CpuId, to: Tid)
    requires Inv(s) && Enabled(s, Switch(c, to))
    ensures var r := Step(s, Switch(c, to));
            && r.threads == s.threads && r.current == s.current[c := to]
            && (r.owner == None <==> s.threads[to].cpusNest == 0)
            && (s.threads[to].cpusNest > 0 ==> r.owner == Some(c))
            && s.threads[s.current[c]].cpusNest > 0
  {
    assert Holds(s, c) <==> s.owner == Some(c);
  }

  /** Matched calls leave no trace. */
  lemma LockThenUnlock(s: State, c: CpuId)
    requires Inv(s) && Enabled(s, Lock(c))
    ensures Shape(Locked(s, c)) && Self(Locked(s, c), c).cpusNest > 0 && Unlocked(Locked(s, c), c) == s
    ensures Shape(Entered(s, c)) && Self(Entered(s, c), c).critNest > 0 && Left(Entered(s, c), c) == s
  {
    assert Holds(s, c) <==> s.owner == Some(c);
    assert CountsOk(Self(s, c));
    var n := Self(s, c);
    assert Unlocked(Locked(s, c), c).threads == s.threads[s.current[c] := n] == s.threads;
    assert Left(Entered(s, c), c).threads == s.threads[s.current[c] := n] == s.threads;
  }

  // ---------------------------------------------------------------------------------------------
  // The operations as the source performs them

  class Cpus {
    var threads: seq<Counts>
    var current: seq<Tid>
    var owner: Option<CpuId>

    function Now(): State
      reads this
    {
      State(threads, current, owner)
    }

    /** `rt_hw_spin_lock`, once the lock is to be had. */
    method SpinLock(c: CpuId)
      requires owner == None
      modifies this`owner
      ensures owner == Some(c)
    {
      owner := Some(c);
    }

    method SpinUnlock()
      modifies this`owner
      ensures owner == None
    {
      owner := None;
    }

    /** `rt_cpus_lock` */
    method AcquireAll(c: CpuId)
      requires Inv(Now()) && Enabled(Now(), Lock(c))
      modifies this`threads, this`owner
      ensures Inv(Now()) && Now() == Step(old(Now()), Lock(c))
    {
      ghost var s := Now();
      StepKeeps(s, Lock(c));
      assert Holds(s, c) <==> owner == Some(c);
      var t := current[c];
      var nest := threads[t].cpusNest;
      threads := threads[t := threads[t].(cpusNest := threads[t].cpusNest + 1)];
      if nest == 0 {
        threads := threads[t := threads[t].(schedNest := threads[t].schedNest + 1)];
        SpinLock(c);
      }
      assert Now() == Locked(s, c);
    }

    /** `rt_cpus_unlock` */
    method ReleaseAll(c: CpuId)
      requires Inv(Now()) && Enabled(Now(), Unlock(c))
      modifies this`threads, this`owner
      ensures Inv(Now()) && Now() == Step(old(Now()), Unlock(c))
    {
      ghost var s := Now();
      StepKeeps(s, Unlock(c));
      var t := current[c];
      threads := threads[t := threads[t].(cpusNest := threads[t].cpusNest - 1)];
      if threads[t].cpusNest == 0 {
        threads := threads[t := threads[t].(schedNest := threads[t].schedNest - 1)];
        SpinUnlock();
      }
      assert Now() == Unlocked(s, c);
    }

    /** `rt_enter_critical` */
    method Enter(c: CpuId)
      requires Inv(Now()) && Enabled(Now(), EnterCritical(c))
      modifies this`threads, this`owner
      ensures Inv(Now()) && Now() == Step(old(Now()), EnterCritical(c))
    {
      ghost var s := Now();
      StepKeeps(s, EnterCritical(c));
      assert Holds(s, c) <==> owner == Some(c);
      var t := current[c];
      var nest := threads[t].cpusNest;
      threads := threads[t := threads[t].(cpusNest := threads[t].cpusNest + 1)];
      if nest == 0 {
        threads := threads[t := threads[t].(schedNest := threads[t].schedNest + 1)];
        SpinLock(c);
      }
      threads := threads[t := threads[t].(critNest := threads[t].critNest + 1)];
      threads := threads[t := threads[t].(schedNest := threads[t].schedNest + 1)];
      assert Now() == Entered(s, c);
    }

    /** `rt_exit_critical`; `resched` says that it goes on to `rt_schedule`. */
    method Leave(c: CpuId) returns (resched: bool)
      requires Inv(Now()) && Enabled(Now(), ExitCritical(c))
      modifies this`threads, this`owner
      ensures Inv(Now()) && Now() == Step(old(Now()), ExitCritical(c))
      ensures resched <==> Self(Now(), c).schedNest == 0
    {
      ghost var s := Now();
      StepKeeps(s, ExitCritical(c));
      assert CountsOk(threads[current[c]]);
      var t := current[c];
      threads := threads[t := threads[t].(schedNest := threads[t].schedNest - 1)];
      threads := threads[t := threads[t].(critNest := threads[t].critNest - 1)];
      threads := threads[t := threads[t].(cpusNest := threads[t].cpusNest - 1)];
      if threads[t].cpusNest == 0 {
        threads := threads[t := threads[t].(schedNest := threads[t].schedNest - 1)];
        SpinUnlock();
      }
      resched := threads[t].schedNest <= 0;
      if resched {
        threads := threads[t := threads[t].(schedNest := 0)];
      }
      assert Now() == Left(s, c);
    }

    /** `rt_cpus_lock_status_restore` */
    method StatusRestore(c: CpuId, to: Tid)
      requires Inv(Now()) && Enabled(Now(), Switch(c, to))
      modifies this`current, this`owner
      ensures Inv(Now()) && Now() == Step(old(Now()), Switch(c, to))
    {
      StepKeeps(Now(), Switch(c, to));
      current := current[c := to];
      if threads[to].cpusNest == 0 {
        SpinUnlock();
      }
    }
  }
}
