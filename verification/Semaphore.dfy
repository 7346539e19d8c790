/** Counting semaphores (`rt-thread/src/ipc.c`): no waiter is left behind while the count is positive. */
module Semaphore {
  import opened Common
  import opened WaitList

  /** `RT_SEM_VALUE_MAX` */
  const VALUE_MAX := 0xFFFF

  /**
    `waiting[t]` says that thread `t` is suspended here.  `start` is the value that was set last, and `given` and `taken`
    count the successful releases and takes since then; the source does not keep these three.
   */
  datatype Sem = Sem(value: nat, waiters: seq<Tid>, waiting: seq<bool>, prios: seq<nat>, fifo: bool, start: nat, given: nat, taken: nat)

  datatype Op = Take(t: Tid, wait: bool) | Release | Expire(t: Tid) | Reset(value: nat)

  ghost predicate Inv(s: Sem) {
    && s.value <= VALUE_MAX && |s.prios| == |s.waiting|
    && Distinct(s.waiters) && Below(s.waiters, |s.waiting|)
    && (forall t: Tid :: t < |s.waiting| ==> (t in s.waiters <==> s.waiting[t]))
    && (s.fifo || Sorted(s.waiters, s.prios))
    && (s.waiters != [] ==> s.value == 0)
    && s.value + s.taken == s.start + s.given
  }

  predicate Enabled(s: Sem, op: Op) {
    match op
    case Take(t, _) => t < |s.waiting| && !s.waiting[t]
    case Release => true
    case Expire(t) => t < |s.waiting| && s.waiting[t]
    case Reset(_) => true
  }

  /** The listed threads stop waiting. */
  function WakeAll(waiting: seq<bool>, list: seq<Tid>): (r: seq<bool>)
    requires Below(list, |waiting|)
    ensures |r| == |waiting|
    ensures forall t: Tid :: t < |waiting| ==> r[t] == (waiting[t] && t !in list)
    decreases |list|
  {
    if list == [] then waiting
    else
      assert list == [list[0]] + list[1..];
      WakeAll(waiting[list[0] := false], list[1..])
  }

  /** The value as an unsigned 16-bit word. */
  function Cut(value: nat): nat {
    value % 0x10000
  }

  function Step(s: Sem, op: Op): Sem
    requires Inv(s) && Enabled(s, op)
  {
    match op
    case Take(t, wait) =>
      if s.value > 0 then s.(value := s.value - 1, taken := s.taken + 1)
      else if wait then s.(waiting := s.waiting[t := true], waiters := Suspend(s.waiters, t, s.prios, s.fifo))
      else s
    case Release =>
      if s.waiters != [] then
        s.(waiting := s.waiting[s.waiters[0] := false], waiters := s.waiters[1..], given := s.given + 1, taken := s.taken + 1)
      else if s.value < VALUE_MAX then s.(value := s.value + 1, given := s.given + 1)
      else s
    case Expire(t) => s.(waiting := s.waiting[t := false], waiters := Remove(s.waiters, t))
    case Reset(value) =>
      s.(waiting := WakeAll(s.waiting, s.waiters), waiters := [], value := Cut(value), start := Cut(value), given := 0, taken := 0)
  }

  /** `rt_sem_init` */
  function NewSem(value: nat, prios: seq<nat>, fifo: bool): Sem {
    Sem(value, [], seq(|prios|, _ => false), prios, fifo, value, 0, 0)
  }

  lemma InitKeeps(value: nat, prios: seq<nat>, fifo: bool)
    requires value <= VALUE_MAX
    ensures Inv(NewSem(value, prios, fifo))
  {
  }

  lemma StepKeeps(s: Sem, op: Op)
    requires Inv(s) && Enabled(s, op)
    ensures Inv(Step(s, op))
  {
    match op
    case Take(t, wait) =>
      if s.value == 0 && wait {
        SuspendContents(s.waiters, t, s.prios, s.fifo);
        if !s.fifo {
          SuspendSorted(s.waiters, t, s.prios);
        }
      }
    case Release =>
      if s.waiters != [] {
        HeadContents(s.waiters);
      }
    case Expire(t) =>
      RemoveContents(s.waiters, t);
      var r := Remove(s.waiters, t);
      forall i | 0 <= i < |r| ensures r[i] < |s.waiting| {
        assert r[i] in s.waiters;
      }
      if !s.fifo {
        RemoveSorted(s.waiters, t, s.prios);
      }
    case Reset(_) =>
  }

  /** A unit is taken by a take that finds one and by the waiter that a release wakes. */
  predicate Takes(s: Sem, op: Op) {
    (op.Take? && s.value > 0) || (op.Release? && s.waiters != [])
  }

  /** A unit is given by every release but one at the maximum. */
  predicate Gives(s: Sem, op: Op) {
    op.Release? && (s.waiters != [] || s.value < VALUE_MAX)
  }

  /**
    Units are neither made nor lost: what was there when the count was set, and what was given since, is still there or
    was taken.
   */
  lemma UnitsConserved(s: Sem, op: Op)
    requires Inv(s) && Enabled(s, op) && !op.Reset?
    ensures var r := Step(s, op);
      && r.start == s.start
      && r.taken == s.taken + (if Takes(s, op) then 1 else 0) && r.given == s.given + (if Gives(s, op) then 1 else 0)
      && r.value == s.value + (if Gives(s, op) then 1 else 0) - (if Takes(s, op) then 1 else 0)
  {
  }

  /**
    A take that finds nothing and may wait queues its caller: last in order of arrival, behind exactly those at least as
    urgent by priority. The others keep their order.
   */
  lemma TakeWaits(s: Sem, t: Tid, a: Tid, b: Tid)
    requires Inv(s) && Enabled(s, Take(t, true)) && s.value == 0 && a in s.waiters && b in s.waiters
    ensures var r := Step(s, Take(t, true));
      && r == s.(waiting := s.waiting[t := true], waiters := r.waiters)
      && multiset(r.waiters) == multiset(s.waiters) + multiset{t}
      && (s.fifo ==> r.waiters == s.waiters + [t])
      && a < |s.prios| && (InFront(r.waiters, a, t) <==> s.fifo || s.prios[a] <= s.prios[t])
      && (InFront(r.waiters, a, b) <==> InFront(s.waiters, a, b))
  {
    SuspendPlace(s.waiters, t, s.prios, s.fifo, a);
    SuspendOrder(s.waiters, t, s.prios, s.fifo, a, b);
    InsertContents(s.waiters, if s.fifo then |s.waiters| else Place(s.waiters, s.prios, s.prios[t]), t);
  }

  /** When nobody waits yet, the caller is the only one; a take that may not wait changes nothing. */
  lemma TakeAlone(s: Sem, t: Tid, wait: bool)
    requires Inv(s) && Enabled(s, Take(t, wait)) && s.value == 0
    ensures wait && s.waiters == [] ==> Step(s, Take(t, wait)).waiters == [t]
    ensures !wait ==> Step(s, Take(t, wait)) == s
  {
    assert s.waiters == [] ==> InsertAt(s.waiters, 0, t) == [t];
  }

  /** A waiter that gives up leaves the queue, and the others keep their order. */
  lemma ExpireLeaves(s: Sem, t: Tid, a: Tid, b: Tid)
    requires Inv(s) && Enabled(s, Expire(t)) && a != t && b != t
    ensures var r := Step(s, Expire(t));
      && r == s.(waiting := s.waiting[t := false], waiters := r.waiters)
      && multiset(r.waiters) == multiset(s.waiters) - multiset{t}
      && (InFront(r.waiters, a, b) <==> InFront(s.waiters, a, b))
  {
    RemoveOrder(s.waiters, t, a, b);
    RemoveMultiset(s.waiters, t);
  }

  /** A reset lets everybody go without a unit, and sets the count. */
  lemma ResetWakesAll(s: Sem, value: nat, t: Tid)
    requires Inv(s) && t < |s.waiting|
    ensures var r := Step(s, Reset(value));
      && !r.waiting[t] && r.waiters == [] && r.given == r.taken == 0
      && r.value == r.start <= VALUE_MAX && (value <= VALUE_MAX ==> r.value == value)
  {
    assert s.waiting[t] ==> t in s.waiters;
  }

  /** A release with waiters lets exactly the first one go; by priority, nobody more urgent stays behind. */
  lemma ReleaseWakesFirst(s: Sem, u: Tid)
    requires Inv(s) && s.waiters != [] && u < |s.waiting|
    ensures s.waiters[0] < |s.waiting| && s.waiting[s.waiters[0]] && !Step(s, Release).waiting[s.waiters[0]]
    ensures u != s.waiters[0] ==> Step(s, Release).waiting[u] == s.waiting[u]
    ensures !s.fifo && s.waiting[u] ==> s.prios[s.waiters[0]] <= s.prios[u]
    ensures Step(s, Release).value == 0 && Step(s, Release).waiters == s.waiters[1..]
  {
    assert s.waiters[0] in s.waiters;
    if !s.fifo && s.waiting[u] {
      var i :| 0 <= i < |s.waiters| && s.waiters[i] == u;
      assert i > 0 ==> s.prios[s.waiters[0]] <= s.prios[s.waiters[i]];
    }
  }

  ghost predicate Follows(s: Sem, op: Op, r: Sem) {
    Enabled(s, op) && (Inv(s) ==> r == Step(s, op))
  }

  /** Over any run: no waiter while the count is positive, and every unit since the last reset is accounted for. */
  lemma {:induction false} RunKeeps(ss: seq<Sem>, ops: seq<Op>, i: nat)
    requires |ss| == |ops| + 1 && Inv(ss[0]) && i < |ss|
    requires forall j, k :: 0 <= j < k < |ss| && k == j + 1 ==> Follows(ss[j], ops[j], ss[k])
    ensures Inv(ss[i]) && ss[i].value + ss[i].taken == ss[i].start + ss[i].given
  {
    if i > 0 {
      RunKeeps(ss, ops, i - 1);
      assert Follows(ss[i - 1], ops[i - 1], ss[i]);
      StepKeeps(ss[i - 1], ops[i - 1]);
    }
  }

  class SemaphoreObject {
    var value: nat
    var waiters: seq<Tid>
    var waiting: seq<bool>
    const prios: seq<nat>
    const fifo: bool
    ghost var start: nat
    ghost var given: nat
    ghost var taken: nat

    ghost function Now(): Sem
      reads this
    {
      Sem(value, waiters, waiting, prios, fifo, start, given, taken)
    }

    /** `rt_sem_init` */
    constructor (value: nat, prios: seq<nat>, fifo: bool)
      requires value <= VALUE_MAX
      ensures Inv(Now()) && Now() == NewSem(value, prios, fifo)
    {
      this.value, this.prios, this.fifo := value, prios, fifo;
      waiters, waiting := [], seq(|prios|, _ => false);
      start, given, taken := value, 0, 0;
    }

    /** The loop of `_ipc_list_suspend`. */
    method Join(t: Tid)
      requires Inv(Now()) && t < |waiting|
      modifies this`waiters
      ensures waiters == Suspend(old(waiters), t, prios, fifo)
    {
      var n := 0;
      if fifo {
        n := |waiters|;
      } else {
        while n < |waiters| && prios[t] >= prios[waiters[n]]
          invariant 0 <= n <= Place(waiters, prios, prios[t])
        {
          n := n + 1;
        }
        assert n == Place(waiters, prios, prios[t]);
      }
      waiters := waiters[..n] + [t] + waiters[n..];
    }

    /** `rt_sem_take` by thread `t` up to where it has the semaphore, is suspended, or gives up. */
    method TakeOrWait(t: Tid, wait: bool) returns (ok: bool)
      requires Inv(Now()) && t < |waiting| && !waiting[t]
      modifies this
      ensures Inv(Now()) && Now() == Step(old(Now()), Take(t, wait)) && ok == (old(value) > 0)
    {
      StepKeeps(Now(), Take(t, wait));
      ok := value > 0;
      if ok {
        value := value - 1;
        taken := taken + 1;
      } else if wait {
        Join(t);
        waiting := waiting[t := true];
      }
    }

    /** `rt_sem_release` */
    method Give() returns (ok: bool)
      requires Inv(Now())
      modifies this
      ensures Inv(Now()) && Now() == Step(old(Now()), Release) && ok == (old(waiters) != [] || old(value) < VALUE_MAX)
    {
      StepKeeps(Now(), Release);
      if waiters != [] {
        waiting := waiting[waiters[0] := false];
        waiters := waiters[1..];
        given, taken := given + 1, taken + 1;
      } else if value < VALUE_MAX {
        value := value + 1;
        given := given + 1;
      } else {
        return false;
      }
      return true;
    }

    /** `rt_sem_control` with `RT_IPC_CMD_RESET`: the loop of `_ipc_list_resume_all`, then the new count. */
    method SetCount(value: nat)
      requires Inv(Now())
      modifies this
      ensures Inv(Now()) && Now() == Step(old(Now()), Reset(value))
    {
      ghost var s := Now();
      StepKeeps(s, Reset(value));
      while waiters != []
        invariant Below(waiters, |waiting|) && WakeAll(waiting, waiters) == WakeAll(s.waiting, s.waiters)
        decreases |waiters|
      {
        waiting := waiting[waiters[0] := false];
        waiters := waiters[1..];
      }
      this.value := value % 0x10000;
      start, given, taken := this.value, 0, 0;
    }
  }
}
