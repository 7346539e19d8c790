/**
  The SMP scheduler (`rt-thread/src/scheduler.c`, `rt-thread/src/thread.c`): one ready table per CPU and a global one,
  each a list per priority with a bitmap of the non-empty lists.

  Every operation below is one critical section under the global CPU lock.
 */
module Scheduler {
  import opened Common

  type Tid = nat
  type CpuId = nat

  /** `RT_THREAD_PRIORITY_MAX` */
  const PRIOS := 32

  datatype Stat = Init | Ready | Suspended | Running | Closed

  /** `bit` is the position of the one in `number_mask`; `bind` and `oncpu` equal the number of CPUs when there is none. */
  datatype Thread = Thread(stat: Stat, yielded: bool, prio: nat, bit: nat, bind: nat, oncpu: nat)

  /** A ready table: `group[p]` is bit `p` of the bitmap. */
  datatype Table = Table(lists: seq<seq<Tid>>, group: seq<bool>)

  /** `tables[c]` belongs to CPU `c`; the last one is the global table. */
  datatype State = State(threads: seq<Thread>, tables: seq<Table>, current: seq<Tid>, idles: seq<Tid>)

  function Cpus(s: State): nat {
    |s.current|
  }

  // ---------------------------------------------------------------------------------------------
  // Ready tables

  ghost predicate TableShape(q: Table) {
    && |q.lists| == PRIOS && |q.group| == PRIOS
    && (forall p :: 0 <= p < PRIOS ==> Distinct(q.lists[p]))
    && (forall p :: 0 <= p < PRIOS ==> (q.group[p] <==> q.lists[p] != []))
  }

  function Put(q: Table, p: nat, bit: nat, t: Tid, last: bool): Table
    requires p < |q.lists| && bit < |q.group|
  {
    Table(q.lists[p := if last then q.lists[p] + [t] else [t] + q.lists[p]], q.group[bit := true])
  }

  function Take(q: Table, p: nat, bit: nat, t: Tid): Table
    requires p < |q.lists| && bit < |q.group|
  {
    var l := Remove(q.lists[p], t);
    Table(q.lists[p := l], if l == [] then q.group[bit := false] else q.group)
  }

  /** `__rt_ffs(group) - 1`; for an empty bitmap the unsigned result is beyond every priority. */
  function First(group: seq<bool>): (p: nat)
    ensures p <= |group|
    ensures forall k :: 0 <= k < p ==> !group[k]
    ensures p < |group| ==> group[p]
  {
    if group == [] || group[0] then 0 else 1 + First(group[1..])
  }

  lemma PutShape(q: Table, p: nat, t: Tid, last: bool)
    requires TableShape(q) && p < PRIOS && t !in q.lists[p]
    ensures TableShape(Put(q, p, p, t, last))
    ensures forall x :: x in Put(q, p, p, t, last).lists[p] <==> x in q.lists[p] || x == t
  {
    DistinctLast(q.lists[p], t);
    InsertContents(q.lists[p], 0, t);
    assert InsertAt(q.lists[p], 0, t) == [t] + q.lists[p];
  }

  lemma TakeShape(q: Table, p: nat, t: Tid)
    requires TableShape(q) && p < PRIOS
    ensures TableShape(Take(q, p, p, t))
    ensures forall x :: x in Take(q, p, p, t).lists[p] <==> x in q.lists[p] && x != t
  {
    RemoveContents(q.lists[p], t);
  }

  // ---------------------------------------------------------------------------------------------
  // The invariant

  ghost predicate ReadyAt(s: State, t: Tid, b: nat, p: nat) {
    t < |s.threads| && s.threads[t].stat.Ready? && s.threads[t].bind == b && s.threads[t].prio == p
  }

  ghost predicate Listed(s: State, t: Tid, b: nat, p: nat)
    requires b < |s.tables| && p < |s.tables[b].lists|
  {
    t in s.tables[b].lists[p]
  }

  /** The fields of a thread fit together, wherever it is. */
  ghost predicate Fields(s: State, t: Tid)
    requires t < |s.threads|
  {
    var th := s.threads[t];
    && th.prio < PRIOS && th.bind <= Cpus(s) && th.oncpu <= Cpus(s)
    && (!th.stat.Init? ==> th.bit == th.prio)
    && (th.stat.Ready? || th.stat.Init? ==> th.oncpu == Cpus(s))
    && (th.stat.Running? ==> th.oncpu < Cpus(s))
    && (th.oncpu < Cpus(s) ==> th.bind == Cpus(s) || th.bind == th.oncpu)
  }

  ghost predicate Tables(s: State) {
    && |s.tables| == Cpus(s) + 1
    && (forall b :: 0 <= b < |s.tables| ==> TableShape(s.tables[b]))
    && (forall t: Tid, b: nat, p: nat {:trigger Listed(s, t, b, p)} :: b < |s.tables| && p < PRIOS && Listed(s, t, b, p) ==> ReadyAt(s, t, b, p))
    && (forall t: Tid :: t < |s.threads| && s.threads[t].stat.Ready? && s.threads[t].bind < |s.tables| && s.threads[t].prio < PRIOS ==>
          Listed(s, t, s.threads[t].bind, s.threads[t].prio))
  }

  /** A CPU's current thread names that CPU, and a thread that names a CPU is its current thread. */
  ghost predicate OnCpus(s: State, except: nat) {
    && (forall c: CpuId :: c < Cpus(s) && c != except ==> s.current[c] < |s.threads| && s.threads[s.current[c]].oncpu == c)
    && (forall t: Tid :: t < |s.threads| && s.threads[t].oncpu < Cpus(s) ==>
          s.threads[t].oncpu != except && s.current[s.threads[t].oncpu] == t)
  }

  /** Every CPU has an idle thread of its own that is always ready or running. */
  ghost predicate Idles(s: State) {
    && |s.idles| == Cpus(s)
    && (forall c: CpuId :: c < Cpus(s) ==> s.idles[c] < |s.threads| && IsIdle(s.threads[s.idles[c]], c))
  }

  predicate IsIdle(th: Thread, c: CpuId) {
    th.bind == c && (th.stat.Ready? || th.stat.Running?)
  }

  /** The invariant, except that nobody runs on CPU `except`; for the full invariant that is no CPU. */
  ghost predicate InvExcept(s: State, except: nat) {
    && Tables(s) && OnCpus(s, except) && Idles(s)
    && (forall t: Tid :: t < |s.threads| ==> Fields(s, t))
  }

  ghost predicate Inv(s: State) {
    InvExcept(s, Cpus(s))
  }

  /**
    The first state: the tables are empty but for what runs, which is the idle thread of every CPU, threads 0 to
    `cpus - 1`; the threads `others` are initialised and none of them has been started.
   */
  function Boot(cpus: nat, others: seq<Thread>): State {
    var none := Table(seq(PRIOS, _ => []), seq(PRIOS, _ => false));
    var cpuIds := seq(cpus, (c: nat) => c);
    State(seq(cpus, (c: nat) => Thread(Running, false, PRIOS - 1, PRIOS - 1, c, c)) + others, seq(cpus + 1, _ => none), cpuIds, cpuIds)
  }

  lemma InitKeeps(cpus: nat, others: seq<Thread>)
    requires forall i :: 0 <= i < |others| ==>
               others[i].stat.Init? && others[i].prio < PRIOS && others[i].bind <= cpus && others[i].oncpu == cpus
    ensures Inv(Boot(cpus, others))
  {
    var s := Boot(cpus, others);
    forall t: Tid | t < |s.threads| ensures Fields(s, t) && !s.threads[t].stat.Ready? && (s.threads[t].oncpu < cpus ==> t == s.threads[t].oncpu) {
      assert t >= cpus ==> s.threads[t] == others[t - cpus];
    }
    forall t: Tid, b: nat, p: nat | b < |s.tables| && p < PRIOS ensures !Listed(s, t, b, p) {
    }
  }

  // ---------------------------------------------------------------------------------------------
  // Operations

  function SetThread(s: State, t: Tid, th: Thread): State
    requires t < |s.threads|
  {
    s.(threads := s.threads[t := th])
  }

  ghost predicate Placed(s: State, t: Tid) {
    t < |s.threads| && s.threads[t].bind < |s.tables| && s.threads[t].prio < |s.tables[s.threads[t].bind].lists|
    && s.threads[t].bit < |s.tables[s.threads[t].bind].group|
  }

  /** `rt_schedule_insert_thread` */
  function Insert(s: State, t: Tid): State
    requires Placed(s, t)
  {
    var th := s.threads[t];
    if th.oncpu != Cpus(s) then SetThread(s, t, th.(stat := Running))
    else SetThread(s, t, th.(stat := Ready)).(tables := s.tables[th.bind := Put(s.tables[th.bind], th.prio, th.bit, t, th.yielded)])
  }

  /** `rt_schedule_remove_thread` */
  function Withdraw(s: State, t: Tid): State
    requires Placed(s, t)
  {
    var th := s.threads[t];
    s.(tables := s.tables[th.bind := Take(s.tables[th.bind], th.prio, th.bit, t)])
  }

  /** `rt_thread_suspend` by the thread that runs on CPU `c`. */
  function SuspendSelf(s: State, c: CpuId): State
    requires c < Cpus(s) && Placed(s, s.current[c])
  {
    var t := s.current[c];
    var th := s.threads[t];
    if !th.stat.Ready? && !th.stat.Running? then s
    else SetThread(Withdraw(s, t), t, th.(stat := Suspended))
  }

  /** `rt_thread_resume` and `_thread_timeout`. */
  function Resume(s: State, t: Tid): State
    requires Placed(s, t)
  {
    if s.threads[t].stat.Suspended? then Insert(s, t) else s
  }

  /** `rt_thread_startup` up to the scheduling. */
  function Startup(s: State, t: Tid): State
    requires t < |s.threads| && Placed(SetThread(s, t, s.threads[t].(bit := s.threads[t].prio)), t)
  {
    Resume(SetThread(s, t, s.threads[t].(bit := s.threads[t].prio, stat := Suspended)), t)
  }

  /** `RT_THREAD_CTRL_CHANGE_PRIORITY` */
  function ChangePriority(s: State, t: Tid, p: nat): State
    requires Placed(s, t) && Placed(SetThread(s, t, s.threads[t].(prio := p, bit := p)), t)
  {
    if s.threads[t].stat.Ready? then
      var w := Withdraw(s, t);
      Insert(SetThread(w, t, s.threads[t].(prio := p, bit := p)), t)
    else SetThread(s, t, s.threads[t].(prio := p, bit := p))
  }

  /** `_thread_exit` up to the scheduling. */
  function Exit(s: State, c: CpuId): State
    requires c < Cpus(s) && Placed(s, s.current[c])
  {
    SetThread(Withdraw(s, s.current[c]), s.current[c], s.threads[s.current[c]].(stat := Closed))
  }

  /** The slice is used up, or the thread called `rt_thread_yield`. */
  function MarkYield(s: State, c: CpuId): State
    requires c < Cpus(s) && s.current[c] < |s.threads|
  {
    SetThread(s, s.current[c], s.threads[s.current[c]].(yielded := true))
  }

  function GlobalFirst(s: State): nat
    requires Tables(s)
  {
    First(s.tables[Cpus(s)].group)
  }

  function LocalFirst(s: State, c: CpuId): nat
    requires Tables(s) && c < Cpus(s)
  {
    First(s.tables[c].group)
  }

  /** The table `_scheduler_get_highest_priority_thread` picks from: the global one only if it is strictly more urgent. */
  function PickTable(s: State, c: CpuId): nat
    requires Tables(s) && c < Cpus(s)
  {
    if GlobalFirst(s) < LocalFirst(s, c) then Cpus(s) else c
  }

  function PickPrio(s: State, c: CpuId): nat
    requires Tables(s) && c < Cpus(s)
  {
    Min(GlobalFirst(s), LocalFirst(s, c))
  }

  predicate SomeReady(s: State, c: CpuId)
    requires Tables(s) && c < Cpus(s)
  {
    GlobalFirst(s) < PRIOS || LocalFirst(s, c) < PRIOS
  }

  function Pick(s: State, c: CpuId): (t: Tid)
    requires Tables(s) && c < Cpus(s) && SomeReady(s, c)
    ensures Listed(s, t, PickTable(s, c), PickPrio(s, c)) && PickPrio(s, c) < PRIOS
  {
    s.tables[PickTable(s, c)].lists[PickPrio(s, c)][0]
  }

  /** The running thread gives up its CPU; if it can run on, it goes back to its list. */
  function StepDown(s: State, c: CpuId): State
    requires c < Cpus(s) && Placed(s, s.current[c])
  {
    var t := s.current[c];
    var d := SetThread(s, t, s.threads[t].(oncpu := Cpus(s)));
    if s.threads[t].stat.Running? then
      var r := Insert(d, t);
      SetThread(r, t, r.threads[t].(yielded := false))
    else d
  }

  /** The chosen thread leaves its list and runs. */
  function Dispatch(s: State, c: CpuId, t: Tid): State
    requires c < Cpus(s) && Placed(s, t)
  {
    var w := Withdraw(s, t);
    SetThread(w, t, s.threads[t].(stat := Running, oncpu := c)).(current := s.current[c := t])
  }

  /** Whether `rt_schedule` lets the running thread go on. */
  predicate Stays(s: State, c: CpuId)
    requires Tables(s) && c < Cpus(s) && s.current[c] < |s.threads|
  {
    var th := s.threads[s.current[c]];
    th.stat.Running? && (th.prio < PickPrio(s, c) || (th.prio == PickPrio(s, c) && !th.yielded))
  }

  /** `rt_schedule` on CPU `c`, outside interrupts and with no other scheduler lock held. */
  function Schedule(s: State, c: CpuId): State
    requires Inv(s) && c < Cpus(s)
  {
    var t := s.current[c];
    if !SomeReady(s, c) then s
    else if Stays(s, c) then SetThread(s, t, s.threads[t].(yielded := false))
    else
      assert Fields(s, t);
      PlacedThread(s, t);
      var to := Pick(s, c);
      assert ReadyAt(s, to, PickTable(s, c), PickPrio(s, c));
      PlacedThread(s, to);
      StepDownPlaced(s, c, to);
      Dispatch(StepDown(s, c), c, to)
  }

  lemma PlacedThread(s: State, t: Tid)
    requires InvExcept(s, Cpus(s)) && t < |s.threads| && !s.threads[t].stat.Init?
    ensures Placed(s, t) && s.threads[t].bit == s.threads[t].prio
  {
    assert Fields(s, t);
  }

  lemma StepDownPlaced(s: State, c: CpuId, to: Tid)
    requires c < Cpus(s) && Placed(s, s.current[c]) && Placed(s, to)
    ensures Placed(StepDown(s, c), to)
  {
  }

  // ---------------------------------------------------------------------------------------------
  // Every operation keeps the invariant

  /** Putting a thread that is in no list into its own. */
  lemma ReadyTables(s: State, t: Tid, th: Thread, last: bool)
    requires Tables(s) && t < |s.threads| && !s.threads[t].stat.Ready?
    requires th.stat.Ready? && th.bind < |s.tables| && th.prio < PRIOS && th.bit == th.prio
    ensures Tables(SetThread(s, t, th).(tables := s.tables[th.bind := Put(s.tables[th.bind], th.prio, th.bit, t, last)]))
  {
    var r := SetThread(s, t, th).(tables := s.tables[th.bind := Put(s.tables[th.bind], th.prio, th.bit, t, last)]);
    assert !Listed(s, t, th.bind, th.prio);
    PutShape(s.tables[th.bind], th.prio, t, last);
    forall x: Tid, b: nat, p: nat | b < |r.tables| && p < PRIOS && Listed(r, x, b, p) ensures ReadyAt(r, x, b, p) {
      assert x != t ==> Listed(s, x, b, p);
      assert x == t ==> Listed(s, t, b, p) || (b == th.bind && p == th.prio);
    }
    forall x: Tid | x < |r.threads| && r.threads[x].stat.Ready? && r.threads[x].bind < |r.tables| && r.threads[x].prio < PRIOS
      ensures Listed(r, x, r.threads[x].bind, r.threads[x].prio)
    {
      assert x != t ==> Listed(s, x, s.threads[x].bind, s.threads[x].prio);
    }
  }

  /** Taking a thread out of its list, if it is in one. */
  lemma UnreadyTables(s: State, t: Tid, th: Thread)
    requires Tables(s) && Placed(s, t) && s.threads[t].bit == s.threads[t].prio && !th.stat.Ready?
    ensures Tables(SetThread(Withdraw(s, t), t, th))
  {
    var r, was := SetThread(Withdraw(s, t), t, th), s.threads[t];
    TakeShape(s.tables[was.bind], was.prio, t);
    forall x: Tid, b: nat, p: nat | b < |r.tables| && p < PRIOS && Listed(r, x, b, p) ensures ReadyAt(r, x, b, p) {
      assert Listed(s, x, b, p);
    }
    forall x: Tid | x < |r.threads| && r.threads[x].stat.Ready? && r.threads[x].bind < |r.tables| && r.threads[x].prio < PRIOS
      ensures Listed(r, x, r.threads[x].bind, r.threads[x].prio)
    {
      assert Listed(s, x, s.threads[x].bind, s.threads[x].prio);
    }
  }

  /** Changing a thread without changing its place in the tables. */
  lemma SameTables(s: State, t: Tid, th: Thread)
    requires Tables(s) && t < |s.threads| && !s.threads[t].stat.Ready? && !th.stat.Ready?
    ensures Tables(SetThread(s, t, th))
  {
    var r := SetThread(s, t, th);
    forall x: Tid, b: nat, p: nat | b < |r.tables| && p < PRIOS && Listed(r, x, b, p) ensures ReadyAt(r, x, b, p) {
      assert Listed(s, x, b, p);
    }
    forall x: Tid | x < |r.threads| && r.threads[x].stat.Ready? && r.threads[x].bind < |r.tables| && r.threads[x].prio < PRIOS
      ensures Listed(r, x, r.threads[x].bind, r.threads[x].prio)
    {
      assert Listed(s, x, s.threads[x].bind, s.threads[x].prio);
    }
  }

  /** Only thread `t` differs, and it stays where it is and is idle if it was. */
  ghost predicate OnlyThread(s: State, r: State, t: Tid)
    requires t < |s.threads|
  {
    && |r.threads| == |s.threads| && r.current == s.current && r.idles == s.idles && |r.tables| == |s.tables|
    && (forall x: Tid :: x < |s.threads| && x != t ==> r.threads[x] == s.threads[x])
    && r.threads[t].bind == s.threads[t].bind
  }

  /** What remains to be shown when one thread changes without moving between CPUs. */
  lemma ThreadKeeps(s: State, r: State, t: Tid, except: nat)
    requires InvExcept(s, except) && t < |s.threads| && OnlyThread(s, r, t) && Tables(r) && Fields(r, t)
    requires r.threads[t].oncpu == s.threads[t].oncpu
    requires IsIdle(s.threads[t], s.threads[t].bind) && t in s.idles ==> IsIdle(r.threads[t], r.threads[t].bind)
    ensures InvExcept(r, except)
  {
    forall x: Tid | x < |r.threads| ensures Fields(r, x) {
      assert Fields(s, x);
    }
    forall c: CpuId | c < Cpus(r) ensures r.idles[c] < |r.threads| && IsIdle(r.threads[r.idles[c]], c) {
      assert IsIdle(s.threads[s.idles[c]], c);
      assert s.idles[c] in s.idles;
    }
  }

  lemma InsertKeeps(s: State, t: Tid)
    requires Inv(s) && t < |s.threads| && s.threads[t].stat.Suspended?
    ensures Placed(s, t) && Inv(Insert(s, t))
  {
    PlacedThread(s, t);
    assert Fields(s, t);
    var th := s.threads[t];
    if th.oncpu != Cpus(s) {
      SameTables(s, t, th.(stat := Running));
    } else {
      ReadyTables(s, t, th.(stat := Ready), th.yielded);
    }
    ThreadKeeps(s, Insert(s, t), t, Cpus(s));
  }

  lemma SuspendKeeps(s: State, c: CpuId)
    requires Inv(s) && c < Cpus(s) && s.current[c] !in s.idles
    ensures Placed(s, s.current[c]) && Inv(SuspendSelf(s, c))
  {
    var t := s.current[c];
    assert Fields(s, t);
    PlacedThread(s, t);
    if s.threads[t].stat.Running? {
      UnreadyTables(s, t, s.threads[t].(stat := Suspended));
      ThreadKeeps(s, SuspendSelf(s, c), t, Cpus(s));
    }
  }

  lemma ExitKeeps(s: State, c: CpuId)
    requires Inv(s) && c < Cpus(s) && s.current[c] !in s.idles
    ensures Placed(s, s.current[c]) && Inv(Exit(s, c))
  {
    var t := s.current[c];
    assert Fields(s, t);
    PlacedThread(s, t);
    UnreadyTables(s, t, s.threads[t].(stat := Closed));
    ThreadKeeps(s, Exit(s, c), t, Cpus(s));
  }

  lemma StartupKeeps(s: State, t: Tid)
    requires Inv(s) && t < |s.threads| && s.threads[t].stat.Init?
    ensures Placed(SetThread(s, t, s.threads[t].(bit := s.threads[t].prio)), t) && Inv(Startup(s, t))
  {
    var th := s.threads[t].(bit := s.threads[t].prio, stat := Suspended);
    var u := SetThread(s, t, th);
    assert Fields(s, t);
    SameTables(s, t, th);
    ThreadKeeps(s, u, t, Cpus(s));
    InsertKeeps(u, t);
  }

  lemma ChangeKeeps(s: State, t: Tid, p: nat)
    requires Inv(s) && t < |s.threads| && !s.threads[t].stat.Init? && p < PRIOS
    ensures Placed(s, t) && Placed(SetThread(s, t, s.threads[t].(prio := p, bit := p)), t) && Inv(ChangePriority(s, t, p))
  {
    assert Fields(s, t);
    PlacedThread(s, t);
    var th := s.threads[t].(prio := p, bit := p);
    if th.stat.Ready? {
      UnreadyTables(s, t, th.(stat := Suspended));
      var w := SetThread(Withdraw(s, t), t, th.(stat := Suspended));
      ReadyTables(w, t, th, th.yielded);
      assert ChangePriority(s, t, p) == SetThread(w, t, th).(tables := w.tables[th.bind := Put(w.tables[th.bind], p, p, t, th.yielded)]);
    } else {
      SameTables(s, t, th);
    }
    ThreadKeeps(s, ChangePriority(s, t, p), t, Cpus(s));
  }

  lemma YieldKeeps(s: State, c: CpuId)
    requires Inv(s) && c < Cpus(s)
    ensures s.current[c] < |s.threads| && Inv(MarkYield(s, c))
  {
    var t := s.current[c];
    assert Fields(s, t);
    SameTables(s, t, s.threads[t].(yielded := true));
    ThreadKeeps(s, MarkYield(s, c), t, Cpus(s));
  }

  // ---------------------------------------------------------------------------------------------
  // Scheduling

  lemma StepDownKeeps(s: State, c: CpuId)
    requires Inv(s) && c < Cpus(s)
    ensures Placed(s, s.current[c]) && InvExcept(StepDown(s, c), c)
    ensures StepDown(s, c).current == s.current && |StepDown(s, c).threads| == |s.threads|
  {
    var t := s.current[c];
    assert Fields(s, t);
    PlacedThread(s, t);
    var r, th := StepDown(s, c), s.threads[t];
    if th.stat.Running? {
      ReadyTables(s, t, th.(stat := Ready, oncpu := Cpus(s), yielded := false), th.yielded);
      assert r == SetThread(s, t, th.(stat := Ready, oncpu := Cpus(s), yielded := false)).(
                    tables := s.tables[th.bind := Put(s.tables[th.bind], th.prio, th.bit, t, th.yielded)]);
    } else {
      SameTables(s, t, th.(oncpu := Cpus(s)));
    }
    forall x: Tid | x < |r.threads| ensures Fields(r, x) {
      assert Fields(s, x);
    }
    forall d: CpuId | d < Cpus(r) ensures r.idles[d] < |r.threads| && IsIdle(r.threads[r.idles[d]], d) {
      assert IsIdle(s.threads[s.idles[d]], d);
    }
  }

  lemma TablesCurrent(s: State, current: seq<Tid>)
    requires Tables(s) && |current| == |s.current|
    ensures Tables(s.(current := current))
  {
    var r := s.(current := current);
    forall x: Tid, b: nat, p: nat | b < |r.tables| && p < PRIOS && Listed(r, x, b, p) ensures ReadyAt(r, x, b, p) {
      assert Listed(s, x, b, p);
    }
    forall x: Tid | x < |r.threads| && r.threads[x].stat.Ready? && r.threads[x].bind < |r.tables| && r.threads[x].prio < PRIOS
      ensures Listed(r, x, r.threads[x].bind, r.threads[x].prio)
    {
      assert Listed(s, x, s.threads[x].bind, s.threads[x].prio);
    }
  }

  lemma DispatchKeeps(s: State, c: CpuId, t: Tid)
    requires InvExcept(s, c) && c < Cpus(s) && t < |s.threads| && s.threads[t].stat.Ready?
    requires s.threads[t].bind == Cpus(s) || s.threads[t].bind == c
    ensures Placed(s, t) && Inv(Dispatch(s, c, t))
  {
    assert Fields(s, t);
    var th := s.threads[t].(stat := Running, oncpu := c);
    UnreadyTables(s, t, th);
    TablesCurrent(SetThread(Withdraw(s, t), t, th), s.current[c := t]);
    var r := Dispatch(s, c, t);
    forall x: Tid | x < |r.threads| ensures Fields(r, x) {
      assert Fields(s, x);
    }
    forall d: CpuId | d < Cpus(r) ensures r.idles[d] < |r.threads| && IsIdle(r.threads[r.idles[d]], d) {
      assert IsIdle(s.threads[s.idles[d]], d);
    }
  }

  /** Every ready thread that may run on CPU `c` has its bit set, so none is more urgent than the pick. */
  lemma PickIsLeast(s: State, c: CpuId, t: Tid)
    requires Inv(s) && c < Cpus(s) && t < |s.threads| && s.threads[t].stat.Ready?
    requires s.threads[t].bind == Cpus(s) || s.threads[t].bind == c
    ensures SomeReady(s, c) && PickPrio(s, c) <= s.threads[t].prio
  {
    assert Fields(s, t);
    assert Listed(s, t, s.threads[t].bind, s.threads[t].prio);
    assert TableShape(s.tables[s.threads[t].bind]);
  }

  lemma PickFits(s: State, c: CpuId)
    requires Inv(s) && c < Cpus(s) && SomeReady(s, c)
    ensures var t := Pick(s, c);
            && t < |s.threads| && s.threads[t].stat.Ready? && s.threads[t].prio == PickPrio(s, c)
            && (s.threads[t].bind == Cpus(s) || s.threads[t].bind == c)
            && Placed(s, t) && t != s.current[c]
  {
    assert ReadyAt(s, Pick(s, c), PickTable(s, c), PickPrio(s, c));
    PlacedThread(s, Pick(s, c));
    assert Fields(s, s.current[c]);
  }

  lemma ScheduleKeeps(s: State, c: CpuId)
    requires Inv(s) && c < Cpus(s)
    ensures Inv(Schedule(s, c)) && Cpus(Schedule(s, c)) == Cpus(s)
  {
    var t := s.current[c];
    assert Fields(s, t);
    if SomeReady(s, c) {
      if Stays(s, c) {
        SameTables(s, t, s.threads[t].(yielded := false));
        ThreadKeeps(s, Schedule(s, c), t, Cpus(s));
      } else {
        PickFits(s, c);
        StepDownKeeps(s, c);
        DispatchKeeps(StepDown(s, c), c, Pick(s, c));
      }
    }
  }

  lemma IdleRuns(s: State, c: CpuId)
    requires Inv(s) && c < Cpus(s) && !SomeReady(s, c)
    ensures s.current[c] == s.idles[c] && s.threads[s.current[c]].stat.Running?
  {
    var i := s.idles[c];
    assert IsIdle(s.threads[i], c) && Fields(s, i);
    if s.threads[i].stat.Ready? {
      PickIsLeast(s, c, i);
    }
  }

  /**
    After an unlocked `rt_schedule` outside an interrupt the CPU runs a thread that can run, and no ready thread that
    it might run instead is more urgent.
   */
  lemma RunsMostUrgent(s: State, c: CpuId, u: Tid)
    requires Inv(s) && c < Cpus(s) && u < |s.threads|
    ensures var r := Schedule(s, c);
            && |r.threads| == |s.threads| && Cpus(r) == Cpus(s) && r.current[c] < |r.threads|
            && r.threads[r.current[c]].stat.Running?
            && (r.threads[u].stat.Ready? && (r.threads[u].bind == Cpus(s) || r.threads[u].bind == c) ==>
                  r.threads[r.current[c]].prio <= r.threads[u].prio)
  {
    var t := s.current[c];
    assert Fields(s, t) && Fields(s, u);
    if s.threads[u].stat.Ready? && (s.threads[u].bind == Cpus(s) || s.threads[u].bind == c) {
      PickIsLeast(s, c, u);
    }
    if !SomeReady(s, c) {
      IdleRuns(s, c);
    } else if !Stays(s, c) {
      SwitchResult(s, c);
    }
  }

  lemma SwitchResult(s: State, c: CpuId)
    requires Inv(s) && c < Cpus(s) && SomeReady(s, c) && s.current[c] < |s.threads| && !Stays(s, c)
    ensures var t, to, r := s.current[c], Pick(s, c), Schedule(s, c);
            && to < |s.threads| && s.threads[to].prio == PickPrio(s, c)
            && |r.threads| == |s.threads| && r.current == s.current[c := to]
            && r.threads[to] == s.threads[to].(stat := Running, oncpu := c)
            && (forall x: Tid :: x < |s.threads| && x != t && x != to ==> r.threads[x] == s.threads[x])
            && r.threads[t].prio == s.threads[t].prio && r.threads[t].bind == s.threads[t].bind
            && (r.threads[t].stat.Ready? ==> s.threads[t].stat.Running?)
  {
    assert Fields(s, s.current[c]);
    PickFits(s, c);
    StepDownKeeps(s, c);
  }

  /** A thread whose slice is used up gives way to the first thread of the same priority and queues behind the others. */
  lemma YieldGivesWay(s: State, c: CpuId)
    requires Inv(s) && c < Cpus(s) && SomeReady(s, c)
    requires s.current[c] < |s.threads| && s.threads[s.current[c]].stat.Running? && s.threads[s.current[c]].yielded
    requires PickPrio(s, c) == s.threads[s.current[c]].prio && PickTable(s, c) == s.threads[s.current[c]].bind
    ensures var t, r, p := s.current[c], Schedule(s, c), PickPrio(s, c); var b := PickTable(s, c);
            && r.current[c] == s.tables[b].lists[p][0]
            && r.tables[b].lists[p] == s.tables[b].lists[p][1..] + [t]
  {
    PickFits(s, c);
    assert Fields(s, s.current[c]);
    PlacedThread(s, s.current[c]);
    var l, t, to := s.tables[PickTable(s, c)].lists[PickPrio(s, c)], s.current[c], Pick(s, c);
    assert TableShape(s.tables[PickTable(s, c)]);
    RemoveFirst(l, t);
  }

  lemma RemoveFirst(l: seq<Tid>, t: Tid)
    requires l != []
    ensures Remove(l + [t], l[0]) == l[1..] + [t]
  {
    assert (l + [t])[0] == l[0];
    assert IndexOf(l + [t], l[0]) == 0;
  }

  // ---------------------------------------------------------------------------------------------
  // Runs

  datatype Op =
    | Start(t: Tid)
    | Suspend(c: CpuId)
    | Wake(t: Tid)
    | Yield(c: CpuId)
    | SetPriority(t: Tid, p: nat)
    | Leave(c: CpuId)
    | Reschedule(c: CpuId)

  /** Idle threads never suspend themselves and never exit. */
  predicate Enabled(s: State, op: Op) {
    match op
    case Start(t) => t < |s.threads| && s.threads[t].stat.Init?
    case Suspend(c) => c < Cpus(s) && s.current[c] !in s.idles
    case Wake(t) => t < |s.threads| && !s.threads[t].stat.Init?
    case Yield(c) => c < Cpus(s)
    case SetPriority(t, p) => t < |s.threads| && !s.threads[t].stat.Init? && p < PRIOS
    case Leave(c) => c < Cpus(s) && s.current[c] !in s.idles
    case Reschedule(c) => c < Cpus(s)
  }

  function Step(s: State, op: Op): State
    requires Inv(s) && Enabled(s, op)
  {
    match op
    case Start(t) =>
      StartupKeeps(s, t);
      Startup(s, t)
    case Suspend(c) =>
      SuspendKeeps(s, c);
      SuspendSelf(s, c)
    case Wake(t) =>
      PlacedThread(s, t);
      Resume(s, t)
    case Yield(c) => MarkYield(s, c)
    case SetPriority(t, p) =>
      ChangeKeeps(s, t, p);
      ChangePriority(s, t, p)
    case Leave(c) =>
      ExitKeeps(s, c);
      Exit(s, c)
    case Reschedule(c) => Schedule(s, c)
  }

  lemma StepKeeps(s: State, op: Op)
    requires Inv(s) && Enabled(s, op)
    ensures Inv(Step(s, op))
  {
    match op
    case Start(t) => StartupKeeps(s, t);
    case Suspend(c) => SuspendKeeps(s, c);
    case Wake(t) =>
      PlacedThread(s, t);
      if s.threads[t].stat.Suspended? {
        InsertKeeps(s, t);
      }
    case Yield(c) => YieldKeeps(s, c);
    case SetPriority(t, p) => ChangeKeeps(s, t, p);
    case Leave(c) => ExitKeeps(s, c);
    case Reschedule(c) => ScheduleKeeps(s, c);
  }

  ghost predicate Follows(s: State, op: Op, r: State) {
    Enabled(s, op) && (Inv(s) ==> r == Step(s, op))
  }

  lemma FollowsKeeps(s: State, op: Op, r: State)
    requires Inv(s) && Follows(s, op, r)
    ensures Inv(r)
  {
    StepKeeps(s, op);
  }

  /** The invariant holds at every release of the lock, over any run. */
  lemma {:induction false} RunKeeps(ss: seq<State>, ops: seq<Op>, i: nat)
    requires |ss| == |ops| + 1 && Inv(ss[0]) && i < |ss|
    requires forall j, k :: 0 <= j < k < |ss| && k == j + 1 ==> Follows(ss[j], ops[j], ss[k])
    ensures Inv(ss[i])
  {
    if i > 0 {
      RunKeeps(ss, ops, i - 1);
      FollowsKeeps(ss[i - 1], ops[i - 1], ss[i]);
    }
  }

  // ---------------------------------------------------------------------------------------------
  // What each step does to the threads and their lists

  function Lst(s: State, b: nat, p: nat): seq<Tid>
    requires b < |s.tables| && p < |s.tables[b].lists|
  {
    s.tables[b].lists[p]
  }

  /** At the end after a yield, in front otherwise. */
  function Queued(l: seq<Tid>, t: Tid, last: bool): seq<Tid> {
    if last then l + [t] else [t] + l
  }

  /** All lists have the same length in both states. */
  ghost predicate SameShape(s: State, r: State) {
    |r.threads| == |s.threads| && |r.tables| == |s.tables| == Cpus(s) + 1 && r.idles == s.idles
    && (forall b :: 0 <= b < |s.tables| ==> |r.tables[b].lists| == |s.tables[b].lists| == PRIOS)
  }

  /** Thread `t` becomes `th`, and no other thread changes, nor which threads run. */
  ghost predicate Becomes(s: State, r: State, t: Tid, th: Thread) {
    SameShape(s, r) && t < |s.threads| && r.threads == s.threads[t := th] && r.current == s.current
  }

  ghost predicate SameLists(s: State, r: State)
    requires SameShape(s, r)
  {
    forall b: nat, p: nat :: b < |s.tables| && p < PRIOS ==> Lst(r, b, p) == Lst(s, b, p)
  }

  /** `t` is in the list of `b` and `p`, without its old place, and no other list has changed but for losing `t`. */
  ghost predicate MovesTo(s: State, r: State, t: Tid, b: nat, p: nat, last: bool)
    requires SameShape(s, r)
  {
    forall d: nat, q: nat :: d < |s.tables| && q < PRIOS ==>
      Lst(r, d, q) == if d == b && q == p then Queued(Remove(Lst(s, d, q), t), t, last) else Remove(Lst(s, d, q), t)
  }

  lemma ShapeOf(s: State, r: State)
    requires Inv(s) && Tables(r) && |r.threads| == |s.threads| && |r.current| == |s.current| && r.idles == s.idles
    ensures SameShape(s, r)
  {
    forall b | 0 <= b < |s.tables| ensures |r.tables[b].lists| == |s.tables[b].lists| == PRIOS {
      assert TableShape(s.tables[b]) && TableShape(r.tables[b]);
    }
  }

  /** A thread that is not ready is in no list, so taking it out changes nothing. */
  lemma NotListed(s: State, t: Tid)
    requires Inv(s) && t < |s.threads| && !s.threads[t].stat.Ready?
    ensures forall b: nat, p: nat :: b < |s.tables| && p < PRIOS ==> |s.tables[b].lists| == PRIOS && Remove(Lst(s, b, p), t) == Lst(s, b, p)
  {
    forall b: nat, p: nat | b < |s.tables| && p < PRIOS
      ensures |s.tables[b].lists| == PRIOS && Remove(Lst(s, b, p), t) == Lst(s, b, p)
    {
      assert TableShape(s.tables[b]);
      assert !Listed(s, t, b, p);
    }
  }

  /** Waking a suspended thread makes it ready, in the list of its binding and priority, or lets it run on where it is. */
  lemma WakeEffect(s: State, t: Tid)
    requires Inv(s) && t < |s.threads| && s.threads[t].stat.Suspended?
    ensures var th, r := s.threads[t], Step(s, Wake(t));
      if th.oncpu == Cpus(s) then
        Becomes(s, r, t, th.(stat := Ready)) && MovesTo(s, r, t, th.bind, th.prio, th.yielded)
      else
        Becomes(s, r, t, th.(stat := Running)) && SameLists(s, r)
  {
    var r := Step(s, Wake(t));
    InsertKeeps(s, t);
    ShapeOf(s, r);
    NotListed(s, t);
  }

  /** Any other thread is left as it is. */
  lemma WakeIdle(s: State, t: Tid)
    requires Inv(s) && t < |s.threads| && !s.threads[t].stat.Init? && !s.threads[t].stat.Suspended?
    ensures Step(s, Wake(t)) == s
  {
  }

  /** A started thread is ready, in the list of its binding and priority. */
  lemma StartEffect(s: State, t: Tid)
    requires Inv(s) && t < |s.threads| && s.threads[t].stat.Init?
    ensures var th, r := s.threads[t], Step(s, Start(t));
      Becomes(s, r, t, th.(stat := Ready, bit := th.prio)) && MovesTo(s, r, t, th.bind, th.prio, th.yielded)
  {
    var r := Step(s, Start(t));
    StartupKeeps(s, t);
    ShapeOf(s, r);
    NotListed(s, t);
    assert Fields(s, t);
  }

  /** The running thread is suspended; one that was suspended or closed in between stays so. */
  lemma SuspendEffect(s: State, c: CpuId)
    requires Inv(s) && Enabled(s, Suspend(c))
    ensures var t, r := s.current[c], Step(s, Suspend(c));
      && t < |s.threads|
      && Becomes(s, r, t, if s.threads[t].stat.Running? then s.threads[t].(stat := Suspended) else s.threads[t])
      && SameLists(s, r)
  {
    var t, r := s.current[c], Step(s, Suspend(c));
    SuspendKeeps(s, c);
    ShapeOf(s, r);
    assert Fields(s, t);
    NotListed(s, t);
  }

  /** The running thread is closed. */
  lemma LeaveEffect(s: State, c: CpuId)
    requires Inv(s) && Enabled(s, Leave(c))
    ensures var t, r := s.current[c], Step(s, Leave(c));
      && t < |s.threads| && Becomes(s, r, t, s.threads[t].(stat := Closed)) && SameLists(s, r)
  {
    var t, r := s.current[c], Step(s, Leave(c));
    ExitKeeps(s, c);
    ShapeOf(s, r);
    assert Fields(s, t);
    NotListed(s, t);
  }

  lemma YieldEffect(s: State, c: CpuId)
    requires Inv(s) && c < Cpus(s)
    ensures var t, r := s.current[c], Step(s, Yield(c));
      && t < |s.threads| && Becomes(s, r, t, s.threads[t].(yielded := true)) && SameLists(s, r)
  {
    YieldKeeps(s, c);
    ShapeOf(s, Step(s, Yield(c)));
  }

  /** The thread has the new priority, and when it is ready it is in the list of that priority. */
  lemma SetPriorityEffect(s: State, t: Tid, p: nat)
    requires Inv(s) && Enabled(s, SetPriority(t, p))
    ensures var th, r := s.threads[t], Step(s, SetPriority(t, p));
      && Becomes(s, r, t, th.(prio := p, bit := p))
      && if th.stat.Ready? then MovesTo(s, r, t, th.bind, p, th.yielded) else SameLists(s, r)
  {
    var th, r := s.threads[t], Step(s, SetPriority(t, p));
    ChangeKeeps(s, t, p);
    ShapeOf(s, r);
    assert Fields(s, t);
    if th.stat.Ready? {
      NotElsewhere(s, t);
    }
  }

  /** A ready thread is in its own list only. */
  lemma NotElsewhere(s: State, t: Tid)
    requires Inv(s) && t < |s.threads| && s.threads[t].stat.Ready?
    ensures forall b: nat, p: nat :: b < |s.tables| && p < PRIOS && !(b == s.threads[t].bind && p == s.threads[t].prio) ==>
              |s.tables[b].lists| == PRIOS && Remove(Lst(s, b, p), t) == Lst(s, b, p)
  {
    forall b: nat, p: nat | b < |s.tables| && p < PRIOS && !(b == s.threads[t].bind && p == s.threads[t].prio)
      ensures |s.tables[b].lists| == PRIOS && Remove(Lst(s, b, p), t) == Lst(s, b, p)
    {
      assert TableShape(s.tables[b]);
      assert !Listed(s, t, b, p);
    }
  }

  /** `u` is ready and CPU `c` may run it. */
  predicate Eligible(s: State, c: CpuId, u: Tid) {
    u < |s.threads| && s.threads[u].stat.Ready? && (s.threads[u].bind == Cpus(s) || s.threads[u].bind == c)
  }

  /**
    The thread on a CPU gives way exactly when it cannot run on, or a more urgent one is ready, or one as urgent after it
    has yielded.
   */
  lemma GivesWayIff(s: State, c: CpuId)
    requires Inv(s) && c < Cpus(s) && s.current[c] < |s.threads|
    ensures var t := s.current[c]; var th := s.threads[t];
      |Schedule(s, c).current| == |s.current| &&
      (Schedule(s, c).current[c] != t <==>
        !th.stat.Running? ||
        exists u: Tid :: Eligible(s, c, u) && (s.threads[u].prio < th.prio || (th.yielded && s.threads[u].prio == th.prio)))
  {
    var t := s.current[c];
    assert Fields(s, t);
    forall u: Tid | Eligible(s, c, u) ensures SomeReady(s, c) && PickPrio(s, c) <= s.threads[u].prio {
      PickIsLeast(s, c, u);
    }
    if SomeReady(s, c) {
      PickFits(s, c);
      assert Eligible(s, c, Pick(s, c));
    } else {
      IdleRuns(s, c);
    }
  }

  /** When it runs on, the mark of a yield is cleared if anybody was ready, and nothing else changes. */
  lemma StayEffect(s: State, c: CpuId)
    requires Inv(s) && c < Cpus(s) && s.current[c] < |s.threads| && Schedule(s, c).current == s.current
    ensures var t, r := s.current[c], Schedule(s, c);
      && SameShape(s, r) && Becomes(s, r, t, s.threads[t].(yielded := r.threads[t].yielded)) && SameLists(s, r)
      && (r.threads[t].yielded <==> s.threads[t].yielded && !exists u: Tid :: Eligible(s, c, u))
  {
    var t := s.current[c];
    assert Fields(s, t);
    ScheduleKeeps(s, c);
    ShapeOf(s, Schedule(s, c));
    forall u: Tid | Eligible(s, c, u) ensures SomeReady(s, c) {
      PickIsLeast(s, c, u);
    }
    if SomeReady(s, c) {
      PickFits(s, c);
      assert Eligible(s, c, Pick(s, c));
    }
  }

  /**
    Who is chosen: the first of the most urgent list, the CPU's own list before the global one. It leaves its list; the
    thread that it replaces goes back into its own when it can run on, in front unless it has yielded.
   */
  lemma SwitchEffect(s: State, c: CpuId)
    requires Inv(s) && c < Cpus(s) && s.current[c] < |s.threads| && Schedule(s, c).current != s.current
    ensures var t, r := s.current[c], Schedule(s, c);
      && SameShape(s, r) && r.current == s.current[c := r.current[c]] && Eligible(s, c, r.current[c])
      && var to, th := r.current[c], s.threads[t];
      && s.threads[to].prio < PRIOS && s.threads[to].bind < |s.tables|
      && Lst(s, s.threads[to].bind, s.threads[to].prio) != [] && Lst(s, s.threads[to].bind, s.threads[to].prio)[0] == to
      && (s.threads[to].bind == Cpus(s) ==> Lst(s, c, s.threads[to].prio) == [])
      && r.threads == s.threads[t := Left(th, Cpus(s))][to := s.threads[to].(stat := Running, oncpu := c)]
      && (forall b: nat, p: nat :: b < |s.tables| && p < PRIOS ==>
            Lst(r, b, p) == Remove(if th.stat.Running? && b == th.bind && p == th.prio then Queued(Lst(s, b, p), t, th.yielded) else Lst(s, b, p), to))
  {
    var t, to, r := s.current[c], Pick(s, c), Schedule(s, c);
    ScheduleKeeps(s, c);
    PickFits(s, c);
    ShapeOf(s, r);
    PickFirst(s, c);
    assert Fields(s, t) && Fields(s, to);
    StepDownEffect(s, c);
    DispatchLists(s, c);
  }

  /** A thread that leaves its CPU: ready when it can run on, with the mark of a yield cleared. */
  function Left(th: Thread, none: nat): Thread {
    if th.stat.Running? then th.(stat := Ready, oncpu := none, yielded := false) else th.(oncpu := none)
  }

  /** The CPU's own list comes first. */
  lemma PickFirst(s: State, c: CpuId)
    requires Inv(s) && c < Cpus(s) && SomeReady(s, c)
    ensures var to := Pick(s, c);
      && to < |s.threads| && s.threads[to].bind == PickTable(s, c) && s.threads[to].prio == PickPrio(s, c) < PRIOS
      && (s.threads[to].bind == Cpus(s) ==> |s.tables[c].lists| == PRIOS && Lst(s, c, s.threads[to].prio) == [])
  {
    assert ReadyAt(s, Pick(s, c), PickTable(s, c), PickPrio(s, c));
    assert TableShape(s.tables[c]);
  }

  lemma StepDownEffect(s: State, c: CpuId)
    requires Inv(s) && c < Cpus(s)
    ensures Placed(s, s.current[c])
    ensures var t, d := s.current[c], StepDown(s, c); var th := s.threads[t];
      && |d.tables| == |s.tables| && d.threads == s.threads[t := Left(th, Cpus(s))]
      && (forall b: nat, p: nat :: b < |s.tables| && p < PRIOS ==>
            && |d.tables[b].lists| == |s.tables[b].lists| == PRIOS
            && Lst(d, b, p) == if th.stat.Running? && b == th.bind && p == th.prio then Queued(Lst(s, b, p), t, th.yielded) else Lst(s, b, p))
  {
    var t := s.current[c];
    StepDownKeeps(s, c);
    assert Fields(s, t);
    forall b: nat | b < |s.tables| ensures |s.tables[b].lists| == PRIOS {
      assert TableShape(s.tables[b]);
    }
  }

  lemma DispatchLists(s: State, c: CpuId)
    requires Inv(s) && c < Cpus(s) && SomeReady(s, c) && s.current[c] < |s.threads| && !Stays(s, c)
    requires Placed(s, s.current[c])
    ensures var d, r, to := StepDown(s, c), Schedule(s, c), Pick(s, c);
      && to < |d.threads| && |r.tables| == |d.tables| == Cpus(s) + 1 && to < |s.threads|
      && r.threads == d.threads[to := s.threads[to].(stat := Running, oncpu := c)] && r.current == s.current[c := to]
      && (forall b: nat, p: nat :: b < |d.tables| && p < PRIOS ==>
            |r.tables[b].lists| == |d.tables[b].lists| == PRIOS && Lst(r, b, p) == Remove(Lst(d, b, p), to))
  {
    var d, to := StepDown(s, c), Pick(s, c);
    PickFits(s, c);
    StepDownKeeps(s, c);
    StepDownEffect(s, c);
    DispatchKeeps(d, c, to);
    forall b: nat, p: nat | b < |d.tables| && p < PRIOS && !(b == d.threads[to].bind && p == d.threads[to].prio)
      ensures |d.tables[b].lists| == PRIOS && Remove(Lst(d, b, p), to) == Lst(d, b, p)
    {
      assert TableShape(d.tables[b]);
      assert !Listed(d, to, b, p);
    }
  }

  /** What the invariant says about one thread: it is in exactly one place. */
  lemma OnePlace(s: State, t: Tid, b: nat, p: nat, c: CpuId, d: CpuId)
    requires Inv(s) && t < |s.threads| && b <= Cpus(s) && p < PRIOS && c < Cpus(s) && d < Cpus(s)
    ensures |s.tables[b].lists| == PRIOS
    ensures t in s.tables[b].lists[p] <==> s.threads[t].stat.Ready? && b == s.threads[t].bind && p == s.threads[t].prio
    ensures multiset(s.tables[b].lists[p])[t] <= 1
    ensures s.current[c] == t <==> s.threads[t].oncpu == c
    ensures s.current[c] == s.current[d] ==> c == d
    ensures s.current[c] == t ==> t !in s.tables[b].lists[p] && (s.threads[t].bind == Cpus(s) || s.threads[t].bind == c)
    ensures s.threads[t].stat.Running? ==> s.threads[t].oncpu < Cpus(s)
    ensures |s.tables[b].group| == PRIOS && (s.tables[b].group[p] <==> s.tables[b].lists[p] != [])
  {
    assert Fields(s, t) && TableShape(s.tables[b]);
    assert Listed(s, t, b, p) ==> ReadyAt(s, t, b, p);
    assert s.threads[t].stat.Ready? ==> Listed(s, t, s.threads[t].bind, s.threads[t].prio);
    DistinctCount(s.tables[b].lists[p], t);
  }

  lemma {:induction false} DistinctCount(l: seq<Tid>, t: Tid)
    requires Distinct(l)
    ensures multiset(l)[t] <= 1
  {
    if l != [] {
      DistinctCount(l[1..], t);
      assert l == [l[0]] + l[1..];
      if t == l[0] {
        assert t !in l[1..];
      }
    }
  }

  /** `StepDown`, for consistent states. */
  function StepDownOf(s: State, c: CpuId): State
    requires Inv(s) && c < Cpus(s)
  {
    StepDownKeeps(s, c);
    StepDown(s, c)
  }

  // ---------------------------------------------------------------------------------------------
  // The operations as the source performs them

  class Kernel {
    var threads: seq<Thread>
    var tables: seq<Table>
    var current: seq<Tid>
    const idles: seq<Tid>
    var irqNest: seq<nat>
    var switchFlag: seq<bool>

    function Now(): State
      reads this
    {
      State(threads, tables, current, idles)
    }

    ghost predicate Valid()
      reads this
    {
      Inv(Now()) && |irqNest| == |switchFlag| == |current|
    }

    method FirstBit(group: seq<bool>) returns (p: nat)
      ensures p == First(group)
    {
      p := 0;
      while p < |group| && !group[p]
        invariant 0 <= p <= First(group)
      {
        p := p + 1;
      }
    }

    /** `rt_schedule_insert_thread` */
    method InsertThread(t: Tid)
      requires Placed(Now(), t)
      modifies this`threads, this`tables
      ensures Now() == Insert(old(Now()), t)
    {
      var th := threads[t];
      if th.oncpu != |current| {
        threads := threads[t := th.(stat := Running)];
        return;
      }
      threads := threads[t := th.(stat := Ready)];
      var table := tables[th.bind];
      var group := table.group[th.bit := true];
      var list := table.lists[th.prio];
      if th.yielded {
        list := list + [t];
      } else {
        list := [t] + list;
      }
      tables := tables[th.bind := Table(table.lists[th.prio := list], group)];
    }

    /** `rt_schedule_remove_thread` */
    method RemoveThread(t: Tid)
      requires Placed(Now(), t)
      modifies this`tables
      ensures Now() == Withdraw(old(Now()), t)
    {
      var th := threads[t];
      var table := tables[th.bind];
      var lists := table.lists[th.prio := Remove(table.lists[th.prio], t)];
      var group := table.group;
      if lists[th.prio] == [] {
        group := group[th.bit := false];
      }
      tables := tables[th.bind := Table(lists, group)];
    }

    /** `_scheduler_get_highest_priority_thread` */
    method HighestPriorityThread(c: CpuId) returns (t: Tid, prio: nat)
      requires Tables(Now()) && c < |current| && SomeReady(Now(), c)
      ensures t == Pick(Now(), c) && prio == PickPrio(Now(), c)
    {
      var highest := FirstBit(tables[|current|].group);
      var local := FirstBit(tables[c].group);
      assert Listed(Now(), Pick(Now(), c), PickTable(Now(), c), PickPrio(Now(), c));
      if highest < local {
        return tables[|current|].lists[highest][0], highest;
      } else {
        return tables[c].lists[local][0], local;
      }
    }

    /** The running thread is taken off the CPU and, if it can run on, put back into its list. */
    method GiveUp(c: CpuId)
      requires Valid() && c < |current|
      modifies this`threads, this`tables
      ensures Now() == StepDownOf(old(Now()), c)
    {
      assert Fields(Now(), current[c]);
      PlacedThread(Now(), current[c]);
      var from := current[c];
      threads := threads[from := threads[from].(oncpu := |current|)];
      if threads[from].stat == Running {
        InsertThread(from);
        threads := threads[from := threads[from].(yielded := false)];
      }
    }

    /** The chosen thread is taken from its list and becomes the current one. */
    method SwitchTo(c: CpuId, to: Tid)
      requires c < |current| && Placed(Now(), to)
      modifies this`threads, this`tables, this`current
      ensures Now() == Dispatch(old(Now()), c, to)
    {
      threads := threads[to := threads[to].(oncpu := c)];
      RemoveThread(to);
      threads := threads[to := threads[to].(stat := Running)];
      current := current[c := to];
    }

    /** The selection and the switch, common to `rt_schedule` and `rt_scheduler_do_irq_switch`. */
    method Select(c: CpuId)
      requires Valid() && c < |current|
      modifies this`threads, this`tables, this`current
      ensures Now() == Schedule(old(Now()), c)
    {
      ghost var s := Now();
      assert TableShape(tables[c]) && TableShape(tables[|current|]);
      var global := FirstBit(tables[|current|].group);
      var local := FirstBit(tables[c].group);
      if global == PRIOS && local == PRIOS {
        return;
      }
      PickFits(s, c);
      var to, highest := HighestPriorityThread(c);
      var from := current[c];
      assert Fields(s, from);
      var th := threads[from];
      if th.stat == Running && (th.prio < highest || (th.prio == highest && !th.yielded)) {
        threads := threads[from := th.(yielded := false)];
      } else {
        GiveUp(c);
        PlacedThread(s, from);
        StepDownPlaced(s, c, to);
        SwitchTo(c, to);
      }
    }

    method SwitchIfNeeded(c: CpuId)
      requires Valid() && c < |current|
      modifies this`threads, this`tables, this`current
      ensures Valid() && Now() == Schedule(old(Now()), c)
    {
      ghost var n := Schedule(Now(), c);
      ScheduleKeeps(Now(), c);
      Select(c);
      assert Now() == n;
    }

    /** `rt_schedule` with `nest` scheduler locks held by the running thread, the one of the call included. */
    method ScheduleOn(c: CpuId, nest: nat)
      requires Valid() && c < |current|
      modifies this
      ensures Valid() && irqNest == old(irqNest)
      ensures old(irqNest)[c] > 0 ==> Now() == old(Now()) && switchFlag == old(switchFlag)[c := true]
      ensures old(irqNest)[c] == 0 ==> switchFlag == old(switchFlag)
      ensures old(irqNest)[c] == 0 ==> Now() == if nest == 1 then Schedule(old(Now()), c) else old(Now())
    {
      if irqNest[c] > 0 {
        switchFlag := switchFlag[c := true];
        return;
      }
      if nest == 1 {
        SwitchIfNeeded(c);
      }
    }

    /** `rt_scheduler_do_irq_switch` with `nest` scheduler locks held, the one of the call included. */
    method IrqSwitch(c: CpuId, nest: nat)
      requires Valid() && c < |current|
      modifies this
      ensures Valid() && irqNest == old(irqNest)
      ensures var go := old(switchFlag)[c] && nest == 1 && old(irqNest)[c] == 0;
              && switchFlag == (if go then old(switchFlag)[c := false] else old(switchFlag))
              && Now() == (if go then Schedule(old(Now()), c) else old(Now()))
    {
      if !switchFlag[c] {
        return;
      }
      if nest == 1 && irqNest[c] == 0 {
        switchFlag := switchFlag[c := false];
        SwitchIfNeeded(c);
      }
    }

    /** `rt_thread_suspend` of the running thread. */
    method SuspendThread(c: CpuId) returns (ok: bool)
      requires Valid() && c < |current| && current[c] !in idles
      modifies this`threads, this`tables
      ensures Valid() && Now() == Step(old(Now()), Suspend(c))
    {
      SuspendKeeps(Now(), c);
      var t := current[c];
      if threads[t].stat != Ready && threads[t].stat != Running {
        return false;
      }
      RemoveThread(t);
      threads := threads[t := threads[t].(stat := Suspended)];
      return true;
    }

    /** `rt_thread_resume` */
    method ResumeThread(t: Tid) returns (ok: bool)
      requires Valid() && t < |threads| && !threads[t].stat.Init?
      modifies this`threads, this`tables
      ensures Valid() && Now() == Step(old(Now()), Wake(t)) && ok == old(threads)[t].stat.Suspended?
    {
      PlacedThread(Now(), t);
      if threads[t].stat != Suspended {
        return false;
      }
      InsertKeeps(Now(), t);
      InsertThread(t);
      return true;
    }

    /** `rt_thread_startup` up to the scheduling. */
    method StartupThread(t: Tid)
      requires Valid() && t < |threads| && threads[t].stat.Init?
      modifies this`threads, this`tables
      ensures Valid() && Now() == Step(old(Now()), Start(t))
    {
      ghost var s := Now();
      StartupKeeps(s, t);
      threads := threads[t := threads[t].(bit := threads[t].prio)];
      threads := threads[t := threads[t].(stat := Suspended)];
      assert Now() == SetThread(s, t, s.threads[t].(bit := s.threads[t].prio, stat := Suspended));
      InsertThread(t);
    }

    /** `rt_thread_control` with `RT_THREAD_CTRL_CHANGE_PRIORITY` */
    method SetPriority(t: Tid, p: nat)
      requires Valid() && t < |threads| && !threads[t].stat.Init? && p < PRIOS
      modifies this`threads, this`tables
      ensures Valid() && Now() == Step(old(Now()), Op.SetPriority(t, p))
    {
      ChangeKeeps(Now(), t, p);
      if threads[t].stat == Ready {
        RemoveThread(t);
        threads := threads[t := threads[t].(prio := p, bit := p)];
        InsertThread(t);
      } else {
        threads := threads[t := threads[t].(prio := p, bit := p)];
      }
    }
  }
}
