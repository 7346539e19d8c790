/**
  The message queue (`rt-thread/src/ipc.c`), under every interleaving of its critical sections.

  Sending and receiving each lock the queue twice with a copy in between, so a node can be owned by a thread while
  it is on neither list.  A step of the state machine is one critical section, one copy, one expiry or one reset.
 */
module MessageQueue {
  import opened Common
  import opened WaitList

  type Node = nat

  /** `RT_NULL` among node indices. */
  const NULL := -1

  /** `RT_MQ_ENTRY_MAX` */
  const ENTRY_MAX := 0xFFFF

  /** The fields of `struct rt_messagequeue`; node `n` has its link in `next[n]` and its payload in `cells[n]`. */
  datatype Mq = Mq(head: int, tail: int, free: int, entry: nat, next: seq<int>, cells: seq<seq<int>>, size: nat)

  /** Where a thread is inside `rt_mq_send_wait`, `rt_mq_urgent` or `rt_mq_recv`. */
  datatype Pc =
    | Idle
    | SendWait(buf: seq<int>)
    | SendResumed(buf: seq<int>)
    | Filling(node: Node, buf: seq<int>, urgent: bool)
    | Filled(node: Node, buf: seq<int>, urgent: bool)
    | RecvWait
    | RecvResumed
    | Reading(node: Node, taken: seq<int>)
    | Freeing(node: Node, out: seq<int>)

  datatype State = State(mq: Mq, pcs: seq<Pc>, receivers: seq<Tid>, senders: seq<Tid>, prios: seq<nat>, fifo: bool)

  datatype Op =
    | SendEnter(t: Tid, buf: seq<int>, wait: bool)
    | UrgentEnter(t: Tid, buf: seq<int>)
    | SendRetry(t: Tid, wait: bool)
    | CopyIn(t: Tid)
    | LinkIn(t: Tid)
    | RecvEnter(t: Tid, wait: bool)
    | RecvRetry(t: Tid, wait: bool)
    | CopyOut(t: Tid, size: nat)
    | GiveBack(t: Tid)
    | Expire(t: Tid)
    | Reset

  // ---------------------------------------------------------------------------------------------
  // What one critical section does to the queue

  function TakeFree(m: Mq): Mq
    requires 0 <= m.free < |m.next|
  {
    m.(free := m.next[m.free])
  }

  function Fill(m: Mq, n: Node, buf: seq<int>, urgent: bool): Mq
    requires n < |m.next| && n < |m.cells| && |buf| <= |m.cells[n]|
  {
    m.(next := if urgent then m.next else m.next[n := NULL], cells := m.cells[n := buf + m.cells[n][|buf|..]])
  }

  function LinkTail(m: Mq, n: Node): Mq
    requires n < |m.next| && (m.tail == NULL || 0 <= m.tail < |m.next|)
  {
    m.(next := if m.tail != NULL then m.next[m.tail := n] else m.next, tail := n, head := if m.head == NULL then n else m.head)
  }

  function LinkHead(m: Mq, n: Node): Mq
    requires n < |m.next|
  {
    m.(next := m.next[n := m.head], head := n, tail := if m.tail == NULL then n else m.tail)
  }

  function Link(m: Mq, n: Node, urgent: bool): Mq
    requires n < |m.next| && (m.tail == NULL || 0 <= m.tail < |m.next|)
  {
    var l := if urgent then LinkHead(m, n) else LinkTail(m, n);
    if m.entry < ENTRY_MAX then l.(entry := m.entry + 1) else l
  }

  function TakeHead(m: Mq): Mq
    requires 0 <= m.head < |m.next|
  {
    m.(head := m.next[m.head], tail := if m.tail == m.head then NULL else m.tail, entry := if m.entry > 0 then m.entry - 1 else 0)
  }

  function PutBack(m: Mq, n: Node): Mq
    requires n < |m.next|
  {
    m.(next := m.next[n := m.free], free := n)
  }

  /** One turn of the loop of the reset command. */
  function Discard(m: Mq): Mq
    requires 0 <= m.head < |m.next|
  {
    m.(head := m.next[m.head], tail := if m.tail == m.head then NULL else m.tail,
       next := m.next[m.head := m.free], free := m.head)
  }

  /** The loop of the reset command, at most `turns` turns. */
  function Drain(m: Mq, turns: nat): Mq
    decreases turns
  {
    if turns == 0 || !(0 <= m.head < |m.next|) then m else Drain(Discard(m), turns - 1)
  }

  function After(q: seq<Node>, i: nat): int {
    if i + 1 < |q| then q[i + 1] else NULL
  }

  /** The list that starts at `p` visits exactly the nodes `q`. */
  ghost predicate IsList(next: seq<int>, p: int, q: seq<Node>) {
    && p == (if q == [] then NULL else q[0])
    && Below(q, |next|)
    && forall i: nat {:trigger After(q, i)} :: i < |q| ==> next[q[i]] == After(q, i)
  }

  ghost predicate Lists(m: Mq, q: seq<Node>, f: seq<Node>) {
    && |m.next| == |m.cells|
    && IsList(m.next, m.head, q) && IsList(m.next, m.free, f)
    && m.tail == (if q == [] then NULL else q[|q| - 1])
  }

  lemma ListFrame(next: seq<int>, p: int, q: seq<Node>, x: Node, v: int)
    requires IsList(next, p, q) && x < |next| && x !in q
    ensures IsList(next[x := v], p, q)
  {
    forall i: nat | i < |q| ensures next[x := v][q[i]] == After(q, i) {
      assert q[i] in q;
    }
  }

  lemma ListTail(next: seq<int>, p: int, q: seq<Node>)
    requires IsList(next, p, q) && q != []
    ensures IsList(next, next[p], q[1..])
  {
    assert next[q[0]] == After(q, 0);
    forall i: nat | i < |q[1..]| ensures next[q[1..][i]] == After(q[1..], i) {
      assert next[q[i + 1]] == After(q, i + 1);
    }
  }

  lemma ListPush(next: seq<int>, p: int, q: seq<Node>, x: Node)
    requires IsList(next, p, q) && x < |next| && x !in q
    ensures IsList(next[x := p], x, [x] + q)
  {
    var r := [x] + q;
    ListFrame(next, p, q, x, p);
    forall i: nat | i < |r| ensures next[x := p][r[i]] == After(r, i) {
      if i > 0 {
        assert next[x := p][q[i - 1]] == After(q, i - 1);
      }
    }
  }

  lemma ListAppend(next: seq<int>, p: int, q: seq<Node>, x: Node)
    requires IsList(next, p, q) && Distinct(q) && x < |next| && x !in q && next[x] == NULL
    ensures q == [] ==> IsList(next, x, [x])
    ensures q != [] ==> IsList(next[q[|q| - 1] := x], p, q + [x])
  {
    if q != [] {
      var r, last := q + [x], q[|q| - 1];
      forall i: nat | i < |r| ensures next[last := x][r[i]] == After(r, i) {
        if i < |q| - 1 {
          assert next[q[i]] == After(q, i);
        }
      }
    }
  }

  // ---------------------------------------------------------------------------------------------
  // Conservation of nodes

  predicate Owns(pc: Pc) {
    pc.Filling? || pc.Filled? || pc.Reading? || pc.Freeing?
  }

  function Held(pc: Pc): multiset<Node> {
    if Owns(pc) then multiset{pc.node} else multiset{}
  }

  /** The nodes that threads own between two critical sections. */
  function InFlight(pcs: seq<Pc>): multiset<Node> {
    if pcs == [] then multiset{} else Held(pcs[0]) + InFlight(pcs[1..])
  }

  function AllNodes(max: nat): multiset<Node> {
    if max == 0 then multiset{} else AllNodes(max - 1) + multiset{max - 1}
  }

  /** Free list, queue and threads share out the nodes: every node is in exactly one place. */
  ghost predicate Partition(q: seq<Node>, f: seq<Node>, pcs: seq<Pc>, max: nat) {
    multiset(q) + multiset(f) + InFlight(pcs) == AllNodes(max)
  }

  lemma SwapInRest(h: multiset<Node>, rest: multiset<Node>, a: multiset<Node>, b: multiset<Node>)
    requires a <= rest
    ensures a <= h + rest && h + (rest - a + b) == h + rest - a + b
  {
  }

  lemma SwapInFirst(rest: multiset<Node>, a: multiset<Node>, b: multiset<Node>)
    ensures a <= a + rest && b + rest == a + rest - a + b
  {
  }

  lemma {:induction false} InFlightUpdate(pcs: seq<Pc>, t: Tid, p: Pc)
    requires t < |pcs|
    ensures Held(pcs[t]) <= InFlight(pcs)
    ensures InFlight(pcs[t := p]) == InFlight(pcs) - Held(pcs[t]) + Held(p)
  {
    var r := pcs[t := p];
    var rest, h, a, b := InFlight(pcs[1..]), Held(pcs[0]), Held(pcs[t]), Held(p);
    assert InFlight(r) == Held(r[0]) + InFlight(r[1..]);
    if t == 0 {
      assert r[1..] == pcs[1..];
      SwapInFirst(rest, a, b);
    } else {
      InFlightUpdate(pcs[1..], t - 1, p);
      assert r[1..] == pcs[1..][t - 1 := p];
      SwapInRest(h, rest, a, b);
    }
  }

  lemma {:induction false} AllNodesCount(max: nat, n: int)
    ensures 0 <= n ==> AllNodes(max)[n] == if n < max then 1 else 0
  {
    if max > 0 {
      AllNodesCount(max - 1, n);
    }
  }

  lemma DistinctFromCount(s: seq<Node>)
    requires forall n :: n in s ==> multiset(s)[n] <= 1
    ensures Distinct(s)
  {
    forall i, j | 0 <= i < j < |s| ensures s[i] != s[j] {
      assert s == s[..i] + [s[i]] + s[i + 1..j] + [s[j]] + s[j + 1..];
      assert s[i] in s;
    }
  }

  lemma PlaceCount(q: seq<Node>, f: seq<Node>, pcs: seq<Pc>, max: nat, n: Node)
    requires Partition(q, f, pcs, max)
    ensures multiset(q)[n] + multiset(f)[n] + InFlight(pcs)[n] == if n < max then 1 else 0
  {
    AllNodesCount(max, n);
    assert (multiset(q) + multiset(f) + InFlight(pcs))[n] == multiset(q)[n] + multiset(f)[n] + InFlight(pcs)[n];
  }

  lemma PartitionFacts(q: seq<Node>, f: seq<Node>, pcs: seq<Pc>, max: nat)
    requires Partition(q, f, pcs, max)
    ensures Distinct(q) && Distinct(f) && Below(q, max) && Below(f, max)
    ensures forall n :: n in q ==> n !in f
    ensures forall n :: n in InFlight(pcs) ==> n < max && n !in q && n !in f
  {
    forall n | n in q ensures n < max && n !in f && multiset(q)[n] <= 1 {
      PlaceCount(q, f, pcs, max, n);
      assert n in multiset(q) && (n in f ==> n in multiset(f));
    }
    forall n | n in f ensures n < max && multiset(f)[n] <= 1 {
      PlaceCount(q, f, pcs, max, n);
      assert n in multiset(f);
    }
    forall n | n in InFlight(pcs) ensures n < max && n !in q && n !in f {
      PlaceCount(q, f, pcs, max, n);
      assert (n in q ==> n in multiset(q)) && (n in f ==> n in multiset(f));
    }
    DistinctFromCount(q);
    DistinctFromCount(f);
    forall i | 0 <= i < |q| ensures q[i] < max {
      assert q[i] in q;
    }
    forall i | 0 <= i < |f| ensures f[i] < max {
      assert f[i] in f;
    }
  }

  // ---------------------------------------------------------------------------------------------
  // Queue and free list as functions of the links

  /** The nodes met from `p` on, at most `fuel` of them. */
  function Walk(next: seq<int>, p: int, fuel: nat): seq<Node>
    decreases fuel
  {
    if fuel == 0 || !(0 <= p < |next|) then [] else [p] + Walk(next, next[p], fuel - 1)
  }

  function Queue(m: Mq): seq<Node> {
    Walk(m.next, m.head, |m.next|)
  }

  function FreeNodes(m: Mq): seq<Node> {
    Walk(m.next, m.free, |m.next|)
  }

  lemma {:induction false} WalkIs(next: seq<int>, p: int, q: seq<Node>, fuel: nat)
    requires IsList(next, p, q) && |q| <= fuel
    ensures Walk(next, p, fuel) == q
    decreases fuel
  {
    if q != [] {
      ListTail(next, p, q);
      WalkIs(next, next[p], q[1..], fuel - 1);
    }
  }

  /** The links, the counter and the threads agree on where every node is. */
  ghost predicate QueueOk(m: Mq, pcs: seq<Pc>) {
    && Lists(m, Queue(m), FreeNodes(m)) && m.entry == |Queue(m)|
    && Partition(Queue(m), FreeNodes(m), pcs, |m.next|)
  }

  lemma QueueIs(m: Mq, pcs: seq<Pc>, q: seq<Node>, f: seq<Node>)
    requires Lists(m, q, f) && m.entry == |q| && Partition(q, f, pcs, |m.next|)
    ensures QueueOk(m, pcs) && Queue(m) == q && FreeNodes(m) == f
  {
    PartitionFacts(q, f, pcs, |m.next|);
    Pigeonhole(q, |m.next|);
    Pigeonhole(f, |m.next|);
    WalkIs(m.next, m.head, q, |m.next|);
    WalkIs(m.next, m.free, f, |m.next|);
  }

  lemma HeldNode(m: Mq, pcs: seq<Pc>, t: Tid, n: Node)
    requires QueueOk(m, pcs) && t < |pcs| && Held(pcs[t]) == multiset{n}
    ensures n < |m.next| == |m.cells| && n !in Queue(m) && n !in FreeNodes(m)
    ensures |Queue(m)| < |m.next|
  {
    PartitionFacts(Queue(m), FreeNodes(m), pcs, |m.next|);
    InFlightUpdate(pcs, t, Idle);
    assert n in InFlight(pcs);
    DistinctLast(Queue(m), n);
    var r := Queue(m) + [n];
    assert Below(r, |m.next|);
    Pigeonhole(r, |m.next|);
  }

  lemma TwoHolders(pcs: seq<Pc>, t: Tid, u: Tid, n: Node)
    requires t < |pcs| && u < |pcs| && t != u && Held(pcs[t]) == multiset{n} == Held(pcs[u])
    ensures InFlight(pcs)[n] >= 2
  {
    InFlightUpdate(pcs, t, Idle);
    InFlightUpdate(pcs[t := Idle], u, Idle);
  }

  /** Two threads never own the same node. */
  lemma HoldersDiffer(m: Mq, pcs: seq<Pc>, t: Tid, u: Tid, n: Node)
    requires QueueOk(m, pcs) && t < |pcs| && u < |pcs| && t != u && Held(pcs[t]) == multiset{n}
    ensures Held(pcs[u]) != multiset{n}
  {
    PlaceCount(Queue(m), FreeNodes(m), pcs, |m.next|, n);
    if Held(pcs[u]) == multiset{n} {
      TwoHolders(pcs, t, u, n);
    }
  }

  lemma Exchange(lists: multiset<Node>, flying: multiset<Node>, lists': multiset<Node>, h: multiset<Node>, h': multiset<Node>)
    requires h <= flying && lists' + h' == lists + h
    ensures lists' + (flying - h + h') == lists + flying
  {
    var rest := flying - h;
    assert flying == rest + h;
    assert lists' + (rest + h') == rest + (lists' + h');
  }

  lemma MoveBag(q: seq<Node>, f: seq<Node>, pcs: seq<Pc>, max: nat, q': seq<Node>, f': seq<Node>, t: Tid, p: Pc)
    requires Partition(q, f, pcs, max) && t < |pcs|
    requires multiset(q') + multiset(f') + Held(p) == multiset(q) + multiset(f) + Held(pcs[t])
    ensures Partition(q', f', pcs[t := p], max)
  {
    InFlightUpdate(pcs, t, p);
    Exchange(multiset(q) + multiset(f), InFlight(pcs), multiset(q') + multiset(f'), Held(pcs[t]), Held(p));
  }

  lemma TakeFreeOk(m: Mq, pcs: seq<Pc>, t: Tid, p: Pc)
    requires QueueOk(m, pcs) && t < |pcs| && m.free != NULL && 0 <= m.free < |m.next|
    requires Held(pcs[t]) == multiset{} && Held(p) == multiset{m.free}
    ensures QueueOk(TakeFree(m), pcs[t := p])
    ensures FreeNodes(m) != [] && Queue(TakeFree(m)) == Queue(m) && FreeNodes(TakeFree(m)) == FreeNodes(m)[1..]
  {
    var q, f := Queue(m), FreeNodes(m);
    ListTail(m.next, m.free, f);
    assert f == [m.free] + f[1..];
    MoveBag(q, f, pcs, |m.next|, q, f[1..], t, p);
    QueueIs(TakeFree(m), pcs[t := p], q, f[1..]);
  }

  lemma FillOk(m: Mq, pcs: seq<Pc>, t: Tid, p: Pc, n: Node, buf: seq<int>, urgent: bool)
    requires QueueOk(m, pcs) && t < |pcs| && Held(pcs[t]) == multiset{n} && Held(p) == multiset{n}
    requires n < |m.cells| && |buf| <= |m.cells[n]|
    ensures n < |m.next| && QueueOk(Fill(m, n, buf, urgent), pcs[t := p])
    ensures Queue(Fill(m, n, buf, urgent)) == Queue(m) && FreeNodes(Fill(m, n, buf, urgent)) == FreeNodes(m)
  {
    HeldNode(m, pcs, t, n);
    var q, f := Queue(m), FreeNodes(m);
    ListFrame(m.next, m.head, q, n, NULL);
    ListFrame(m.next, m.free, f, n, NULL);
    MoveBag(q, f, pcs, |m.next|, q, f, t, p);
    QueueIs(Fill(m, n, buf, urgent), pcs[t := p], q, f);
  }

  lemma LinkTailLists(m: Mq, q: seq<Node>, f: seq<Node>, n: Node)
    requires Lists(m, q, f) && Distinct(q) && n < |m.next| && n !in q && n !in f && m.next[n] == NULL
    requires forall x :: x in q ==> x !in f
    ensures Lists(LinkTail(m, n), q + [n], f)
  {
    ListAppend(m.next, m.head, q, n);
    if q != [] {
      assert q[|q| - 1] in q;
      ListFrame(m.next, m.free, f, q[|q| - 1], n);
    }
  }

  lemma LinkTailOk(m: Mq, pcs: seq<Pc>, t: Tid, p: Pc, n: Node)
    requires QueueOk(m, pcs) && t < |pcs| && Held(pcs[t]) == multiset{n} && Held(p) == multiset{}
    requires n < |m.next| <= ENTRY_MAX && m.next[n] == NULL
    ensures QueueOk(Link(m, n, false), pcs[t := p])
    ensures Queue(Link(m, n, false)) == Queue(m) + [n] && FreeNodes(Link(m, n, false)) == FreeNodes(m)
    ensures m.entry < ENTRY_MAX
  {
    HeldNode(m, pcs, t, n);
    var q, f := Queue(m), FreeNodes(m);
    PartitionFacts(q, f, pcs, |m.next|);
    LinkTailLists(m, q, f, n);
    MoveBag(q, f, pcs, |m.next|, q + [n], f, t, p);
    assert Lists(Link(m, n, false), q + [n], f);
    QueueIs(Link(m, n, false), pcs[t := p], q + [n], f);
  }

  lemma LinkHeadOk(m: Mq, pcs: seq<Pc>, t: Tid, p: Pc, n: Node)
    requires QueueOk(m, pcs) && t < |pcs| && Held(pcs[t]) == multiset{n} && Held(p) == multiset{}
    requires n < |m.next| <= ENTRY_MAX
    ensures QueueOk(Link(m, n, true), pcs[t := p])
    ensures Queue(Link(m, n, true)) == [n] + Queue(m) && FreeNodes(Link(m, n, true)) == FreeNodes(m)
    ensures m.entry < ENTRY_MAX
  {
    HeldNode(m, pcs, t, n);
    var q, f := Queue(m), FreeNodes(m);
    ListPush(m.next, m.head, q, n);
    ListFrame(m.next, m.free, f, n, m.head);
    MoveBag(q, f, pcs, |m.next|, [n] + q, f, t, p);
    QueueIs(Link(m, n, true), pcs[t := p], [n] + q, f);
  }

  lemma TakeHeadOk(m: Mq, pcs: seq<Pc>, t: Tid, p: Pc)
    requires QueueOk(m, pcs) && t < |pcs| && m.entry > 0
    requires Held(pcs[t]) == multiset{} && Held(p) == multiset{m.head}
    ensures 0 <= m.head < |m.next| && Queue(m) != [] && m.head == Queue(m)[0]
    ensures QueueOk(TakeHead(m), pcs[t := p])
    ensures Queue(TakeHead(m)) == Queue(m)[1..] && FreeNodes(TakeHead(m)) == FreeNodes(m)
  {
    var q, f := Queue(m), FreeNodes(m);
    PartitionFacts(q, f, pcs, |m.next|);
    ListTail(m.next, m.head, q);
    assert q == [m.head] + q[1..];
    MoveBag(q, f, pcs, |m.next|, q[1..], f, t, p);
    QueueIs(TakeHead(m), pcs[t := p], q[1..], f);
  }

  lemma PutBackOk(m: Mq, pcs: seq<Pc>, t: Tid, p: Pc, n: Node)
    requires QueueOk(m, pcs) && t < |pcs| && Held(pcs[t]) == multiset{n} && Held(p) == multiset{} && n < |m.next|
    ensures QueueOk(PutBack(m, n), pcs[t := p])
    ensures Queue(PutBack(m, n)) == Queue(m) && FreeNodes(PutBack(m, n)) == [n] + FreeNodes(m)
  {
    HeldNode(m, pcs, t, n);
    var q, f := Queue(m), FreeNodes(m);
    ListPush(m.next, m.free, f, n);
    ListFrame(m.next, m.head, q, n, m.free);
    MoveBag(q, f, pcs, |m.next|, q, [n] + f, t, p);
    QueueIs(PutBack(m, n), pcs[t := p], q, [n] + f);
  }

  lemma KeepOk(m: Mq, pcs: seq<Pc>, t: Tid, p: Pc)
    requires QueueOk(m, pcs) && t < |pcs| && Held(pcs[t]) == Held(p)
    ensures QueueOk(m, pcs[t := p])
  {
    MoveBag(Queue(m), FreeNodes(m), pcs, |m.next|, Queue(m), FreeNodes(m), t, p);
  }

  lemma DiscardLists(m: Mq, q: seq<Node>, f: seq<Node>)
    requires Lists(m, q, f) && q != [] && Distinct(q) && q[0] !in f
    ensures Lists(Discard(m), q[1..], [q[0]] + f)
  {
    ListTail(m.next, m.head, q);
    ListPush(m.next, m.free, f, q[0]);
    HeadContents(q);
    ListFrame(m.next, m.next[m.head], q[1..], q[0], m.free);
    assert m.tail == m.head <==> |q| == 1;
  }

  /** The reset loop empties the queue into the free list and loses no node. */
  lemma {:induction false} DrainOk(m: Mq, q: seq<Node>, f: seq<Node>, pcs: seq<Pc>, turns: nat) returns (f': seq<Node>)
    requires Lists(m, q, f) && Partition(q, f, pcs, |m.next|) && |q| <= turns
    ensures Lists(Drain(m, turns), [], f') && Partition([], f', pcs, |m.next|)
    ensures var r := Drain(m, turns); |r.next| == |m.next| && r.cells == m.cells && r.size == m.size
    ensures forall n: Node :: n in InFlight(pcs) && n < |m.next| ==> Drain(m, turns).next[n] == m.next[n]
    decreases turns
  {
    f' := f;
    PartitionFacts(q, f, pcs, |m.next|);
    if q != [] {
      assert q[0] in q;
      DiscardLists(m, q, f);
      assert multiset(q) + multiset(f) == multiset(q[1..]) + multiset([q[0]] + f) by {
        assert q == [q[0]] + q[1..];
      }
      f' := DrainOk(Discard(m), q[1..], [q[0]] + f, pcs, turns - 1);
    }
  }

  // ---------------------------------------------------------------------------------------------
  // The state machine

  /** The bytes a thread sends or has just taken are where it thinks they are. */
  ghost predicate PcOk(m: Mq, pc: Pc) {
    && (pc.SendWait? || pc.SendResumed? || pc.Filling? ==> |pc.buf| <= m.size)
    && (pc.Filled? ==> pc.node < |m.next| && pc.node < |m.cells| && pc.buf <= m.cells[pc.node] && (pc.urgent || m.next[pc.node] == NULL))
    && (pc.Reading? ==> pc.node < |m.cells| && m.cells[pc.node] == pc.taken)
  }

  ghost predicate Data(m: Mq, pcs: seq<Pc>) {
    && (forall n :: 0 <= n < |m.cells| ==> |m.cells[n]| == m.size)
    && (forall t: Tid {:trigger PcOk(m, pcs[t])} :: t < |pcs| ==> PcOk(m, pcs[t]))
  }

  ghost predicate WaitersAre(list: seq<Tid>, pcs: seq<Pc>, receiving: bool) {
    && Distinct(list) && Below(list, |pcs|)
    && (forall t: Tid {:trigger t in list} {:trigger Waits(pcs[t], receiving)} :: t < |pcs| ==> (t in list <==> Waits(pcs[t], receiving)))
  }

  predicate Waits(pc: Pc, receiving: bool) {
    if receiving then pc.RecvWait? else pc.SendWait?
  }

  /** Resumed, but the thread has not looked at the queue again yet. */
  predicate Resumed(pc: Pc, receiving: bool) {
    if receiving then pc.RecvResumed? else pc.SendResumed?
  }

  function Tally(pcs: seq<Pc>, receiving: bool): nat {
    if pcs == [] then 0 else (if Resumed(pcs[0], receiving) then 1 else 0) + Tally(pcs[1..], receiving)
  }

  ghost predicate NoLostWakeup(s: State) {
    && (s.receivers != [] ==> s.mq.entry <= Tally(s.pcs, true))
    && (s.senders != [] ==> |FreeNodes(s.mq)| <= Tally(s.pcs, false))
  }

  ghost predicate Sound(s: State) {
    && QueueOk(s.mq, s.pcs) && |s.mq.next| <= ENTRY_MAX
    && Data(s.mq, s.pcs)
    && |s.prios| == |s.pcs| && WaitersAre(s.receivers, s.pcs, true) && WaitersAre(s.senders, s.pcs, false)
  }

  ghost predicate Inv(s: State) {
    var good := Sound(s) && NoLostWakeup(s);
    good
  }

  /** `rt_mq_create`: node `n` is followed by node `n - 1` on the free list, whatever the cells hold. */
  function NewQueue(cells: seq<seq<int>>, size: nat): Mq {
    Mq(NULL, NULL, |cells| - 1, 0, seq(|cells|, n => n - 1), cells, size)
  }

  lemma NewQueueOk(cells: seq<seq<int>>, size: nat, pcs: seq<Pc>)
    requires InFlight(pcs) == multiset{}
    ensures QueueOk(NewQueue(cells, size), pcs)
    ensures Queue(NewQueue(cells, size)) == [] && FreeNodes(NewQueue(cells, size)) == Downward(|cells|)
  {
    InitialList(NewQueue(cells, size).next, |cells|);
    DownwardNodes(|cells|);
    QueueIs(NewQueue(cells, size), pcs, [], Downward(|cells|));
  }

  lemma InitKeeps(cells: seq<seq<int>>, size: nat, prios: seq<nat>, fifo: bool)
    requires |cells| <= ENTRY_MAX && forall n :: 0 <= n < |cells| ==> |cells[n]| == size
    ensures Inv(State(NewQueue(cells, size), seq(|prios|, _ => Idle), [], [], prios, fifo))
  {
    var pcs := seq(|prios|, _ => Idle);
    QuietCounts(pcs);
    NewQueueOk(cells, size, pcs);
    assert WaitersAre([], pcs, true) && WaitersAre([], pcs, false) && Data(NewQueue(cells, size), pcs);
  }

  predicate Enabled(s: State, op: Op) {
    match op
    case SendEnter(t, _, _) => t < |s.pcs| && s.pcs[t].Idle?
    case UrgentEnter(t, _) => t < |s.pcs| && s.pcs[t].Idle?
    case SendRetry(t, _) => t < |s.pcs| && s.pcs[t].SendResumed?
    case CopyIn(t) => t < |s.pcs| && s.pcs[t].Filling?
    case LinkIn(t) => t < |s.pcs| && s.pcs[t].Filled?
    case RecvEnter(t, _) => t < |s.pcs| && s.pcs[t].Idle?
    case RecvRetry(t, _) => t < |s.pcs| && s.pcs[t].RecvResumed?
    case CopyOut(t, _) => t < |s.pcs| && s.pcs[t].Reading?
    case GiveBack(t) => t < |s.pcs| && s.pcs[t].Freeing?
    case Expire(t) => t < |s.pcs| && (s.pcs[t].SendWait? || s.pcs[t].RecvWait?)
    case Reset => true
  }

  function Grab(s: State, t: Tid, buf: seq<int>, urgent: bool): State
    requires t < |s.pcs| && 0 <= s.mq.free < |s.mq.next|
  {
    s.(mq := TakeFree(s.mq), pcs := s.pcs[t := Filling(s.mq.free, buf, urgent)])
  }

  /** The loop test of `rt_mq_send_wait`: take a free node, wait for one, or give up. */
  function Send(s: State, t: Tid, buf: seq<int>, wait: bool): State
    requires Inv(s) && t < |s.pcs|
  {
    if s.mq.free != NULL then Grab(s, t, buf, false)
    else if wait then s.(pcs := s.pcs[t := SendWait(buf)], senders := Suspend(s.senders, t, s.prios, s.fifo))
    else s.(pcs := s.pcs[t := Idle])
  }

  /** The loop test of `rt_mq_recv` and the unlinking behind it. */
  function Receive(s: State, t: Tid, wait: bool): State
    requires Inv(s) && t < |s.pcs|
  {
    if s.mq.entry > 0 then s.(mq := TakeHead(s.mq), pcs := s.pcs[t := Reading(s.mq.head, s.mq.cells[s.mq.head])])
    else if wait then s.(pcs := s.pcs[t := RecvWait], receivers := Suspend(s.receivers, t, s.prios, s.fifo))
    else s.(pcs := s.pcs[t := Idle])
  }

  function WakeReceiver(s: State): State
    requires Below(s.receivers, |s.pcs|)
  {
    if s.receivers == [] then s
    else s.(pcs := s.pcs[s.receivers[0] := RecvResumed], receivers := s.receivers[1..])
  }

  function WakeSender(s: State): State
    requires Below(s.senders, |s.pcs|) && (s.senders != [] ==> s.pcs[s.senders[0]].SendWait?)
  {
    if s.senders == [] then s
    else s.(pcs := s.pcs[s.senders[0] := SendResumed(s.pcs[s.senders[0]].buf)], senders := s.senders[1..])
  }

  /** `_ipc_list_resume_all`: the waiters return with an error. */
  function WakeAll(pcs: seq<Pc>, list: seq<Tid>): (r: seq<Pc>)
    requires Below(list, |pcs|)
    ensures |r| == |pcs|
    ensures forall t: Tid :: t < |pcs| ==> r[t] == if t in list then Idle else pcs[t]
    decreases |list|
  {
    if list == [] then pcs else WakeAll(pcs[list[0] := Idle], list[1..])
  }

  function Copied(s: State, t: Tid): State
    requires Inv(s) && t < |s.pcs| && s.pcs[t].Filling?
  {
    var pc := s.pcs[t];
    HeldNode(s.mq, s.pcs, t, pc.node);
    assert PcOk(s.mq, pc);
    s.(mq := Fill(s.mq, pc.node, pc.buf, pc.urgent), pcs := s.pcs[t := Filled(pc.node, pc.buf, pc.urgent)])
  }

  function Linked(s: State, t: Tid): State
    requires Inv(s) && t < |s.pcs| && s.pcs[t].Filled?
  {
    var pc := s.pcs[t];
    HeldNode(s.mq, s.pcs, t, pc.node);
    var l := s.(mq := Link(s.mq, pc.node, pc.urgent), pcs := s.pcs[t := Idle]);
    if s.mq.entry < ENTRY_MAX then WakeReceiver(l) else l
  }

  function Delivered(s: State, t: Tid, size: nat): State
    requires Inv(s) && t < |s.pcs| && s.pcs[t].Reading?
  {
    var pc := s.pcs[t];
    HeldNode(s.mq, s.pcs, t, pc.node);
    assert |s.mq.cells[pc.node]| == s.mq.size;
    s.(pcs := s.pcs[t := Freeing(pc.node, s.mq.cells[pc.node][..Min(size, s.mq.size)])])
  }

  function Returned(s: State, t: Tid): State
    requires Inv(s) && t < |s.pcs| && s.pcs[t].Freeing?
  {
    var pc := s.pcs[t];
    HeldNode(s.mq, s.pcs, t, pc.node);
    FirstWaits(s.senders, s.pcs, t, false);
    WakeSender(s.(mq := PutBack(s.mq, pc.node), pcs := s.pcs[t := Idle]))
  }

  function Expired(s: State, t: Tid): State
    requires t < |s.pcs|
  {
    s.(pcs := s.pcs[t := Idle], receivers := Remove(s.receivers, t), senders := Remove(s.senders, t))
  }

  /** `rt_mq_control` with `RT_IPC_CMD_RESET` */
  function Emptied(s: State): State
    requires Inv(s)
  {
    s.(mq := Drain(s.mq, |s.mq.next|).(entry := 0), pcs := WakeAll(WakeAll(s.pcs, s.receivers), s.senders), receivers := [], senders := [])
  }

  function Step(s: State, op: Op): State
    requires Inv(s) && Enabled(s, op)
  {
    match op
    case SendEnter(t, buf, wait) => if |buf| > s.mq.size then s else Send(s, t, buf, wait)
    case UrgentEnter(t, buf) => if |buf| > s.mq.size || s.mq.free == NULL then s else Grab(s, t, buf, true)
    case SendRetry(t, wait) => Send(s, t, s.pcs[t].buf, wait)
    case CopyIn(t) => Copied(s, t)
    case LinkIn(t) => Linked(s, t)
    case RecvEnter(t, wait) => Receive(s, t, wait)
    case RecvRetry(t, wait) => Receive(s, t, wait)
    case CopyOut(t, size) => Delivered(s, t, size)
    case GiveBack(t) => Returned(s, t)
    case Expire(t) => Expired(s, t)
    case Reset => Emptied(s)
  }

  lemma FirstWaits(list: seq<Tid>, pcs: seq<Pc>, t: Tid, receiving: bool)
    requires WaitersAre(list, pcs, receiving) && t < |pcs| && !Waits(pcs[t], receiving)
    ensures list != [] ==> list[0] != t && Waits(pcs[list[0]], receiving)
  {
    assert list != [] ==> list[0] in list;
  }

  // ---------------------------------------------------------------------------------------------
  // Every step keeps the invariant

  lemma {:induction false} TallyUpdate(pcs: seq<Pc>, t: Tid, p: Pc, receiving: bool)
    requires t < |pcs|
    ensures Tally(pcs[t := p], receiving) ==
            Tally(pcs, receiving) - (if Resumed(pcs[t], receiving) then 1 else 0) + (if Resumed(p, receiving) then 1 else 0)
    ensures Resumed(pcs[t], receiving) ==> Tally(pcs, receiving) > 0
  {
    if t == 0 {
      assert pcs[t := p][1..] == pcs[1..];
    } else {
      TallyUpdate(pcs[1..], t - 1, p, receiving);
      assert pcs[t := p][1..] == pcs[1..][t - 1 := p];
    }
  }

  /** Other threads' bytes are safe while one thread changes only its own node and links of queued or free nodes. */
  ghost predicate Untouched(m: Mq, m': Mq, pcs: seq<Pc>, t: Tid) {
    && |m'.next| == |m.next| && |m'.cells| == |m.cells| && m'.size == m.size
    && forall u: Tid {:trigger OwnSame(m, m', pcs[u])} :: u < |pcs| && u != t ==> OwnSame(m, m', pcs[u])
  }

  ghost predicate OwnSame(m: Mq, m': Mq, pc: Pc) {
    forall n: Node {:trigger m'.next[n]} {:trigger m'.cells[n]} :: n in Held(pc) && n < |m.next| && n < |m'.next| && n < |m.cells| && n < |m'.cells| ==>
      m'.next[n] == m.next[n] && m'.cells[n] == m.cells[n]
  }

  lemma DataKeeps(m: Mq, m': Mq, pcs: seq<Pc>, t: Tid, p: Pc)
    requires QueueOk(m, pcs) && Data(m, pcs) && t < |pcs| && Untouched(m, m', pcs, t) && PcOk(m', p)
    requires forall n :: 0 <= n < |m'.cells| ==> |m'.cells[n]| == m'.size
    ensures Data(m', pcs[t := p])
  {
    forall u: Tid | u < |pcs| && u != t ensures PcOk(m', pcs[u]) {
      assert PcOk(m, pcs[u]) && OwnSame(m, m', pcs[u]);
      if Held(pcs[u]) != multiset{} {
        HeldNode(m, pcs, u, pcs[u].node);
      }
    }
  }

  lemma WaitersKeep(list: seq<Tid>, pcs: seq<Pc>, t: Tid, p: Pc, receiving: bool)
    requires WaitersAre(list, pcs, receiving) && t < |pcs| && Waits(pcs[t], receiving) == Waits(p, receiving)
    ensures WaitersAre(list, pcs[t := p], receiving)
  {
  }

  lemma WaitersJoin(list: seq<Tid>, pcs: seq<Pc>, t: Tid, p: Pc, prios: seq<nat>, fifo: bool, receiving: bool)
    requires WaitersAre(list, pcs, receiving) && t < |pcs| == |prios| && !Waits(pcs[t], receiving) && Waits(p, receiving)
    ensures WaitersAre(Suspend(list, t, prios, fifo), pcs[t := p], receiving)
  {
    SuspendContents(list, t, prios, fifo);
  }

  lemma WaitersLeave(list: seq<Tid>, pcs: seq<Pc>, t: Tid, p: Pc, receiving: bool)
    requires WaitersAre(list, pcs, receiving) && t < |pcs| && !Waits(p, receiving)
    ensures WaitersAre(Remove(list, t), pcs[t := p], receiving)
  {
    RemoveContents(list, t);
    forall i | 0 <= i < |Remove(list, t)| ensures Remove(list, t)[i] < |pcs| {
      assert Remove(list, t)[i] in list;
    }
  }

  lemma WaitersPop(list: seq<Tid>, pcs: seq<Pc>, p: Pc, receiving: bool)
    requires WaitersAre(list, pcs, receiving) && list != [] && !Waits(p, receiving)
    ensures WaitersAre(list[1..], pcs[list[0] := p], receiving)
    ensures Waits(pcs[list[0]], receiving)
  {
    HeadContents(list);
    assert list[0] in list;
  }

  /** What a step of thread `t` that touches neither waiting list has to show. */
  lemma Moved(s: State, t: Tid, m: Mq, p: Pc)
    requires Sound(s) && t < |s.pcs| && QueueOk(m, s.pcs[t := p]) && Untouched(s.mq, m, s.pcs, t) && PcOk(m, p)
    requires forall n :: 0 <= n < |m.cells| ==> |m.cells[n]| == m.size
    requires !Waits(s.pcs[t], true) && !Waits(s.pcs[t], false) && !Waits(p, true) && !Waits(p, false)
    ensures Sound(s.(mq := m, pcs := s.pcs[t := p]))
  {
    DataKeeps(s.mq, m, s.pcs, t, p);
    WaitersKeep(s.receivers, s.pcs, t, p, true);
    WaitersKeep(s.senders, s.pcs, t, p, false);
  }

  /** What a thread that has to wait has to show. */
  lemma JoinedSenders(s: State, t: Tid, p: Pc)
    requires Inv(s) && t < |s.pcs| && (s.pcs[t].Idle? || s.pcs[t].SendResumed?) && p.SendWait? && |p.buf| <= s.mq.size
    requires s.mq.free == NULL
    ensures Inv(s.(pcs := s.pcs[t := p], senders := Suspend(s.senders, t, s.prios, s.fifo)))
  {
    KeepOk(s.mq, s.pcs, t, p);
    DataKeeps(s.mq, s.mq, s.pcs, t, p);
    WaitersKeep(s.receivers, s.pcs, t, p, true);
    WaitersJoin(s.senders, s.pcs, t, p, s.prios, s.fifo, false);
    TallyUpdate(s.pcs, t, p, true);
  }

  lemma JoinedReceivers(s: State, t: Tid)
    requires Inv(s) && t < |s.pcs| && (s.pcs[t].Idle? || s.pcs[t].RecvResumed?) && s.mq.entry == 0
    ensures Inv(s.(pcs := s.pcs[t := RecvWait], receivers := Suspend(s.receivers, t, s.prios, s.fifo)))
  {
    KeepOk(s.mq, s.pcs, t, RecvWait);
    DataKeeps(s.mq, s.mq, s.pcs, t, RecvWait);
    WaitersKeep(s.senders, s.pcs, t, RecvWait, false);
    WaitersJoin(s.receivers, s.pcs, t, RecvWait, s.prios, s.fifo, true);
    TallyUpdate(s.pcs, t, RecvWait, false);
  }

  lemma GrabKeeps(s: State, t: Tid, buf: seq<int>, urgent: bool)
    requires Inv(s) && t < |s.pcs| && (s.pcs[t].Idle? || s.pcs[t].SendResumed?) && |buf| <= s.mq.size
    requires s.mq.free != NULL
    ensures 0 <= s.mq.free < |s.mq.next| && Inv(Grab(s, t, buf, urgent))
  {
    var p := Filling(s.mq.free, buf, urgent);
    TakeFreeOk(s.mq, s.pcs, t, p);
    TallyUpdate(s.pcs, t, p, true);
    TallyUpdate(s.pcs, t, p, false);
    Moved(s, t, TakeFree(s.mq), p);
  }

  lemma SendKeeps(s: State, t: Tid, buf: seq<int>, wait: bool)
    requires Inv(s) && t < |s.pcs| && (s.pcs[t].Idle? || s.pcs[t].SendResumed?) && |buf| <= s.mq.size
    ensures Inv(Send(s, t, buf, wait))
  {
    if s.mq.free != NULL {
      GrabKeeps(s, t, buf, false);
    } else if wait {
      JoinedSenders(s, t, SendWait(buf));
    } else {
      KeepOk(s.mq, s.pcs, t, Idle);
      TallyUpdate(s.pcs, t, Idle, true);
      Moved(s, t, s.mq, Idle);
    }
  }

  lemma TakeKeeps(s: State, t: Tid)
    requires Inv(s) && t < |s.pcs| && (s.pcs[t].Idle? || s.pcs[t].RecvResumed?) && s.mq.entry > 0
    ensures Inv(Receive(s, t, true)) && Receive(s, t, false) == Receive(s, t, true)
  {
    var p := Reading(s.mq.head, s.mq.cells[s.mq.head]);
    TakeHeadOk(s.mq, s.pcs, t, p);
    Moved(s, t, TakeHead(s.mq), p);
    TallyUpdate(s.pcs, t, p, true);
    TallyUpdate(s.pcs, t, p, false);
  }

  lemma ReceiveKeeps(s: State, t: Tid, wait: bool)
    requires Inv(s) && t < |s.pcs| && (s.pcs[t].Idle? || s.pcs[t].RecvResumed?)
    ensures Inv(Receive(s, t, wait))
  {
    if s.mq.entry > 0 {
      TakeKeeps(s, t);
    } else if wait {
      JoinedReceivers(s, t);
    } else {
      KeepOk(s.mq, s.pcs, t, Idle);
      Moved(s, t, s.mq, Idle);
      TallyUpdate(s.pcs, t, Idle, false);
    }
  }

  lemma OthersNode(m: Mq, pcs: seq<Pc>, t: Tid, n: Node, u: Tid)
    requires QueueOk(m, pcs) && t < |pcs| && u < |pcs| && t != u && Held(pcs[t]) == multiset{n}
    ensures n !in Held(pcs[u])
  {
    HoldersDiffer(m, pcs, t, u, n);
  }

  lemma OwnNode(m: Mq, m': Mq, pcs: seq<Pc>, t: Tid, n: Node)
    requires QueueOk(m, pcs) && t < |pcs| && Held(pcs[t]) == multiset{n}
    requires |m'.next| == |m.next| && |m'.cells| == |m.cells| && m'.size == m.size
    requires forall k :: 0 <= k < |m.next| && k != n && k !in Queue(m) && k !in FreeNodes(m) ==> m'.next[k] == m.next[k]
    requires forall k :: 0 <= k < |m.cells| && k != n ==> m'.cells[k] == m.cells[k]
    ensures Untouched(m, m', pcs, t)
  {
    forall u: Tid | u < |pcs| && u != t ensures OwnSame(m, m', pcs[u]) {
      OthersNode(m, pcs, t, n, u);
      if Held(pcs[u]) != multiset{} {
        HeldNode(m, pcs, u, pcs[u].node);
      }
    }
  }

  lemma FillNode(m: Mq, pcs: seq<Pc>, t: Tid)
    requires QueueOk(m, pcs) && Data(m, pcs) && t < |pcs| && pcs[t].Filling?
    ensures pcs[t].node < |m.next| == |m.cells| && |pcs[t].buf| <= |m.cells[pcs[t].node]|
  {
    assert PcOk(m, pcs[t]);
    HeldNode(m, pcs, t, pcs[t].node);
  }

  lemma FillQueue(m: Mq, pcs: seq<Pc>, t: Tid, r: Mq, p: Pc)
    requires QueueOk(m, pcs) && t < |pcs| && pcs[t].Filling?
    requires pcs[t].node < |m.next| == |m.cells| && |pcs[t].buf| <= |m.cells[pcs[t].node]|
    requires r == Fill(m, pcs[t].node, pcs[t].buf, pcs[t].urgent) && p == Filled(pcs[t].node, pcs[t].buf, pcs[t].urgent)
    ensures QueueOk(r, pcs[t := p]) && FreeNodes(r) == FreeNodes(m) && Queue(r) == Queue(m)
  {
    FillOk(m, pcs, t, p, pcs[t].node, pcs[t].buf, pcs[t].urgent);
  }

  lemma FillCells(m: Mq, pcs: seq<Pc>, t: Tid, r: Mq, p: Pc)
    requires QueueOk(m, pcs) && Data(m, pcs) && t < |pcs| && pcs[t].Filling?
    requires pcs[t].node < |m.next| == |m.cells| && |pcs[t].buf| <= |m.cells[pcs[t].node]|
    requires r == Fill(m, pcs[t].node, pcs[t].buf, pcs[t].urgent) && p == Filled(pcs[t].node, pcs[t].buf, pcs[t].urgent)
    ensures Untouched(m, r, pcs, t) && PcOk(r, p)
    ensures forall k :: 0 <= k < |r.cells| ==> |r.cells[k]| == r.size
  {
    assert PcOk(m, pcs[t]);
    OwnNode(m, r, pcs, t, pcs[t].node);
  }

  lemma CopyInKeeps(s: State, t: Tid)
    requires Inv(s) && t < |s.pcs| && s.pcs[t].Filling?
    ensures Inv(Copied(s, t))
  {
    var pc := s.pcs[t];
    var p := Filled(pc.node, pc.buf, pc.urgent);
    FillNode(s.mq, s.pcs, t);
    var r := Fill(s.mq, pc.node, pc.buf, pc.urgent);
    FillQueue(s.mq, s.pcs, t, r, p);
    FillCells(s.mq, s.pcs, t, r, p);
    Moved(s, t, r, p);
    TallyUpdate(s.pcs, t, p, true);
    TallyUpdate(s.pcs, t, p, false);
  }

  lemma CopyOutKeeps(s: State, t: Tid, size: nat)
    requires Inv(s) && t < |s.pcs| && s.pcs[t].Reading?
    ensures Inv(Delivered(s, t, size))
  {
    var pc := s.pcs[t];
    HeldNode(s.mq, s.pcs, t, pc.node);
    var p := Freeing(pc.node, s.mq.cells[pc.node][..Min(size, s.mq.size)]);
    KeepOk(s.mq, s.pcs, t, p);
    TallyUpdate(s.pcs, t, p, true);
    TallyUpdate(s.pcs, t, p, false);
    Moved(s, t, s.mq, p);
  }

  lemma ExpireKeeps(s: State, t: Tid)
    requires Inv(s) && t < |s.pcs| && (s.pcs[t].SendWait? || s.pcs[t].RecvWait?)
    ensures Inv(Expired(s, t))
  {
    KeepOk(s.mq, s.pcs, t, Idle);
    DataKeeps(s.mq, s.mq, s.pcs, t, Idle);
    WaitersLeave(s.receivers, s.pcs, t, Idle, true);
    WaitersLeave(s.senders, s.pcs, t, Idle, false);
    TallyUpdate(s.pcs, t, Idle, true);
    TallyUpdate(s.pcs, t, Idle, false);
    RemoveContents(s.receivers, t);
    RemoveContents(s.senders, t);
  }

  lemma WakeReceiverKeeps(s: State)
    requires Sound(s)
    requires s.receivers != [] ==> s.mq.entry <= Tally(s.pcs, true) + 1
    requires s.senders != [] ==> |FreeNodes(s.mq)| <= Tally(s.pcs, false)
    ensures Inv(WakeReceiver(s))
  {
    if s.receivers != [] {
      var w := s.receivers[0];
      WaitersPop(s.receivers, s.pcs, RecvResumed, true);
      WaitersKeep(s.senders, s.pcs, w, RecvResumed, false);
      KeepOk(s.mq, s.pcs, w, RecvResumed);
      DataKeeps(s.mq, s.mq, s.pcs, w, RecvResumed);
      TallyUpdate(s.pcs, w, RecvResumed, true);
      TallyUpdate(s.pcs, w, RecvResumed, false);
    }
  }

  lemma WakeSenderSound(s: State, w: Tid, p: Pc)
    requires Sound(s) && s.senders != [] && w == s.senders[0] && w < |s.pcs| && p.SendResumed? && |p.buf| <= s.mq.size
    ensures Sound(s.(pcs := s.pcs[w := p], senders := s.senders[1..]))
  {
    WaitersPop(s.senders, s.pcs, p, false);
    WaitersKeep(s.receivers, s.pcs, w, p, true);
    KeepOk(s.mq, s.pcs, w, p);
    DataKeeps(s.mq, s.mq, s.pcs, w, p);
  }

  lemma WakeSenderKeeps(s: State)
    requires Sound(s)
    requires s.receivers != [] ==> s.mq.entry <= Tally(s.pcs, true)
    requires s.senders != [] ==> |FreeNodes(s.mq)| <= Tally(s.pcs, false) + 1 && s.pcs[s.senders[0]].SendWait?
    ensures Inv(WakeSender(s))
  {
    if s.senders != [] {
      var w := s.senders[0];
      assert PcOk(s.mq, s.pcs[w]);
      var p := SendResumed(s.pcs[w].buf);
      WakeSenderSound(s, w, p);
      TallyUpdate(s.pcs, w, p, true);
      TallyUpdate(s.pcs, w, p, false);
    }
  }

  lemma LinkUntouched(m: Mq, pcs: seq<Pc>, t: Tid, n: Node, urgent: bool)
    requires QueueOk(m, pcs) && t < |pcs| && Held(pcs[t]) == multiset{n} && n < |m.next|
    ensures Untouched(m, Link(m, n, urgent), pcs, t)
  {
    assert Queue(m) != [] ==> Queue(m)[|Queue(m)| - 1] in Queue(m);
    OwnNode(m, Link(m, n, urgent), pcs, t, n);
  }

  lemma LinkOk(m: Mq, pcs: seq<Pc>, t: Tid)
    requires QueueOk(m, pcs) && t < |pcs| && PcOk(m, pcs[t]) && pcs[t].Filled? && |m.next| <= ENTRY_MAX
    ensures pcs[t].node < |m.next| && m.entry < ENTRY_MAX
    ensures var r := Link(m, pcs[t].node, pcs[t].urgent);
            && QueueOk(r, pcs[t := Idle]) && FreeNodes(r) == FreeNodes(m) && Untouched(m, r, pcs, t)
            && Queue(r) == if pcs[t].urgent then [pcs[t].node] + Queue(m) else Queue(m) + [pcs[t].node]
  {
    var n := pcs[t].node;
    LinkUntouched(m, pcs, t, n, pcs[t].urgent);
    if pcs[t].urgent {
      LinkHeadOk(m, pcs, t, Idle, n);
    } else {
      LinkTailOk(m, pcs, t, Idle, n);
    }
  }

  /** The second critical section of a send: a waiting receiver is woken for the new message. */
  lemma LinkInKeeps(s: State, t: Tid)
    requires Inv(s) && t < |s.pcs| && s.pcs[t].Filled?
    ensures s.mq.entry < ENTRY_MAX && Inv(Linked(s, t))
  {
    var pc := s.pcs[t];
    assert PcOk(s.mq, pc);
    LinkOk(s.mq, s.pcs, t);
    var m := Link(s.mq, pc.node, pc.urgent);
    TallyUpdate(s.pcs, t, Idle, true);
    TallyUpdate(s.pcs, t, Idle, false);
    Moved(s, t, m, Idle);
    WakeReceiverKeeps(s.(mq := m, pcs := s.pcs[t := Idle]));
  }

  /** The second critical section of a receive: a waiting sender is woken for the freed node. */
  lemma GiveBackKeeps(s: State, t: Tid)
    requires Inv(s) && t < |s.pcs| && s.pcs[t].Freeing?
    ensures Inv(Returned(s, t))
  {
    var n := s.pcs[t].node;
    PutBackData(s.mq, s.pcs, t, n);
    var m := PutBack(s.mq, n);
    Moved(s, t, m, Idle);
    TallyUpdate(s.pcs, t, Idle, true);
    TallyUpdate(s.pcs, t, Idle, false);
    FirstWaits(s.senders, s.pcs, t, false);
    WakeSenderKeeps(s.(mq := m, pcs := s.pcs[t := Idle]));
  }

  lemma PutBackData(m: Mq, pcs: seq<Pc>, t: Tid, n: Node)
    requires QueueOk(m, pcs) && t < |pcs| && Held(pcs[t]) == multiset{n}
    ensures n < |m.next| && QueueOk(PutBack(m, n), pcs[t := Idle]) && Untouched(m, PutBack(m, n), pcs, t)
    ensures Queue(PutBack(m, n)) == Queue(m) && FreeNodes(PutBack(m, n)) == [n] + FreeNodes(m)
  {
    HeldNode(m, pcs, t, n);
    PutBackOk(m, pcs, t, Idle, n);
    OwnNode(m, PutBack(m, n), pcs, t, n);
  }

  lemma {:induction false} WakeAllHeld(pcs: seq<Pc>, list: seq<Tid>)
    requires Below(list, |pcs|) && forall t: Tid :: t < |pcs| && t in list ==> Held(pcs[t]) == multiset{}
    ensures InFlight(WakeAll(pcs, list)) == InFlight(pcs)
    decreases |list|
  {
    if list != [] {
      assert list[0] in list;
      InFlightUpdate(pcs, list[0], Idle);
      WakeAllHeld(pcs[list[0] := Idle], list[1..]);
    }
  }

  lemma ResetData(s: State, m: Mq, pcs: seq<Pc>)
    requires Inv(s) && |pcs| == |s.pcs|
    requires |m.next| == |s.mq.next| && m.cells == s.mq.cells && m.size == s.mq.size
    requires forall n: Node :: n in InFlight(s.pcs) && n < |m.next| ==> m.next[n] == s.mq.next[n]
    requires forall t: Tid :: t < |pcs| ==> pcs[t] == s.pcs[t] || pcs[t] == Idle
    ensures Data(m, pcs)
  {
    forall t: Tid | t < |pcs| ensures PcOk(m, pcs[t]) {
      assert PcOk(s.mq, s.pcs[t]);
      InFlightUpdate(s.pcs, t, Idle);
      if s.pcs[t].Filled? {
        assert s.pcs[t].node in Held(s.pcs[t]);
      }
    }
  }

  lemma WakeAllWaiting(pcs: seq<Pc>, list: seq<Tid>, receiving: bool)
    requires Below(list, |pcs|) && forall t: Tid :: t < |pcs| && t in list ==> Waits(pcs[t], receiving)
    ensures InFlight(WakeAll(pcs, list)) == InFlight(pcs)
  {
    WakeAllHeld(pcs, list);
  }

  lemma ResetThreads(pcs: seq<Pc>, receivers: seq<Tid>, senders: seq<Tid>)
    requires WaitersAre(receivers, pcs, true) && WaitersAre(senders, pcs, false)
    ensures var r := WakeAll(WakeAll(pcs, receivers), senders);
            && |r| == |pcs| && InFlight(r) == InFlight(pcs)
            && forall t: Tid :: t < |pcs| ==> r[t] == if Waits(pcs[t], true) || Waits(pcs[t], false) then Idle else pcs[t]
  {
    WakeAllWaiting(pcs, receivers, true);
    WakeAllWaiting(WakeAll(pcs, receivers), senders, false);
  }

  lemma ResetQueue(s: State, pcs: seq<Pc>)
    requires Inv(s) && |pcs| == |s.pcs| && InFlight(pcs) == InFlight(s.pcs)
    requires forall t: Tid :: t < |pcs| ==> pcs[t] == s.pcs[t] || pcs[t] == Idle
    ensures var m := Drain(s.mq, |s.mq.next|).(entry := 0);
            QueueOk(m, pcs) && Queue(m) == [] && |m.next| == |s.mq.next| && Data(m, pcs)
  {
    var q, f := Queue(s.mq), FreeNodes(s.mq);
    PartitionFacts(q, f, s.pcs, |s.mq.next|);
    Pigeonhole(q, |s.mq.next|);
    var f' := DrainOk(s.mq, q, f, s.pcs, |s.mq.next|);
    var m := Drain(s.mq, |s.mq.next|).(entry := 0);
    assert Lists(m, [], f');
    QueueIs(m, pcs, [], f');
    ResetData(s, m, pcs);
  }

  /** Resetting wakes everybody, frees every queued message and leaves messages that are being copied alone. */
  lemma ResetKeeps(s: State)
    requires Inv(s)
    ensures Inv(Emptied(s)) && Queue(Emptied(s).mq) == []
  {
    ResetThreads(s.pcs, s.receivers, s.senders);
    var pcs := WakeAll(WakeAll(s.pcs, s.receivers), s.senders);
    ResetQueue(s, pcs);
    assert WaitersAre([], pcs, true) && WaitersAre([], pcs, false);
  }

  // ---------------------------------------------------------------------------------------------
  // Main results

  /** Every critical section, copy, expiry and reset keeps the queue consistent and loses no wakeup. */
  lemma StepKeeps(s: State, op: Op)
    requires Inv(s) && Enabled(s, op)
    ensures Inv(Step(s, op))
  {
    match op
    case SendEnter(t, buf, wait) =>
      if |buf| <= s.mq.size {
        SendKeeps(s, t, buf, wait);
      }
    case UrgentEnter(t, buf) =>
      if |buf| <= s.mq.size && s.mq.free != NULL {
        GrabKeeps(s, t, buf, true);
      }
    case SendRetry(t, wait) =>
      assert PcOk(s.mq, s.pcs[t]);
      SendKeeps(s, t, s.pcs[t].buf, wait);
    case CopyIn(t) => CopyInKeeps(s, t);
    case LinkIn(t) => LinkInKeeps(s, t);
    case RecvEnter(t, wait) => ReceiveKeeps(s, t, wait);
    case RecvRetry(t, wait) => ReceiveKeeps(s, t, wait);
    case CopyOut(t, size) => CopyOutKeeps(s, t, size);
    case GiveBack(t) => GiveBackKeeps(s, t);
    case Expire(t) => ExpireKeeps(s, t);
    case Reset => ResetKeeps(s);
  }

  ghost predicate Follows(s: State, op: Op, r: State) {
    Enabled(s, op) && (Inv(s) ==> r == Step(s, op))
  }

  ghost predicate IsRun(ss: seq<State>, ops: seq<Op>) {
    && |ss| == |ops| + 1
    && (forall i, j :: 0 <= i < j < |ss| && j == i + 1 ==> Follows(ss[i], ops[i], ss[j]))
  }

  lemma FollowsKeeps(s: State, op: Op, r: State)
    requires Inv(s) && Follows(s, op, r)
    ensures Inv(r)
  {
    StepKeeps(s, op);
  }

  /** The invariant holds after any number of steps of any threads in any order. */
  lemma {:induction false} RunKeeps(ss: seq<State>, ops: seq<Op>, i: nat)
    requires IsRun(ss, ops) && Inv(ss[0]) && i < |ss|
    ensures Inv(ss[i])
  {
    if i > 0 {
      RunKeeps(ss, ops, i - 1);
      FollowsKeeps(ss[i - 1], ops[i - 1], ss[i]);
    }
  }

  /** The messages in the queue, first to be received first. */
  function Contents(m: Mq): seq<seq<int>>
    requires Below(Queue(m), |m.cells|)
  {
    Payloads(m.cells, Queue(m))
  }

  function Payloads(cells: seq<seq<int>>, q: seq<Node>): (r: seq<seq<int>>)
    requires Below(q, |cells|)
    ensures |r| == |q| && forall i :: 0 <= i < |q| ==> r[i] == cells[q[i]]
  {
    seq(|q|, i requires 0 <= i < |q| => cells[q[i]])
  }

  /** What a step means for a double-ended queue of messages. */
  ghost predicate DequeStep(s: State, op: Op, r: State)
    requires Inv(s) && Enabled(s, op) && Below(Queue(s.mq), |s.mq.cells|) && Below(Queue(r.mq), |r.mq.cells|)
  {
    var before, after := Contents(s.mq), Contents(r.mq);
    match op
    case LinkIn(t) =>
      var pc := s.pcs[t];
      pc.node < |s.mq.cells| && pc.buf <= s.mq.cells[pc.node]
      && after == if pc.urgent then [s.mq.cells[pc.node]] + before else before + [s.mq.cells[pc.node]]
    case RecvEnter(t, _) => Taken(before, after, r, t)
    case RecvRetry(t, _) => Taken(before, after, r, t)
    case CopyOut(t, size) =>
      && after == before && t < |r.pcs| && r.pcs[t].Freeing?
      && (forall k :: 0 <= k < |r.pcs[t].out| ==> k < |s.pcs[t].taken| && r.pcs[t].out[k] == s.pcs[t].taken[k])
      && |r.pcs[t].out| == Min(size, s.mq.size)
    case Reset => after == []
    case _ => after == before
  }

  /** A receiver takes the first message, or there was none. */
  ghost predicate Taken(before: seq<seq<int>>, after: seq<seq<int>>, r: State, t: Tid) {
    if before == [] then after == []
    else after == before[1..] && t < |r.pcs| && r.pcs[t].Reading? && r.pcs[t].taken == before[0]
  }

  lemma QueueBelow(s: State)
    requires Inv(s)
    ensures Below(Queue(s.mq), |s.mq.cells|)
  {
    PartitionFacts(Queue(s.mq), FreeNodes(s.mq), s.pcs, |s.mq.next|);
  }

  lemma SameContents(m: Mq, m': Mq)
    requires Below(Queue(m), |m.cells|) && Queue(m') == Queue(m) && |m'.cells| == |m.cells|
    requires forall n :: 0 <= n < |m.cells| && n in Queue(m) ==> m'.cells[n] == m.cells[n]
    ensures Contents(m') == Contents(m)
  {
    forall i | 0 <= i < |Queue(m)| ensures Contents(m')[i] == Contents(m)[i] {
      assert Queue(m)[i] in Queue(m);
    }
  }

  lemma LinkContents(cells: seq<seq<int>>, q: seq<Node>, n: Node)
    requires Below(q, |cells|) && n < |cells|
    ensures Below(q + [n], |cells|) && Payloads(cells, q + [n]) == Payloads(cells, q) + [cells[n]]
    ensures Below([n] + q, |cells|) && Payloads(cells, [n] + q) == [cells[n]] + Payloads(cells, q)
    ensures q != [] ==> Below(q[1..], |cells|) && Payloads(cells, q[1..]) == Payloads(cells, q)[1..]
  {
  }

  ghost predicate Refines(s: State, op: Op)
    requires Inv(s) && Enabled(s, op)
  {
    var r := Step(s, op);
    Below(Queue(s.mq), |s.mq.cells|) && Below(Queue(r.mq), |r.mq.cells|) && DequeStep(s, op, r)
  }

  lemma LinkRefines(s: State, t: Tid)
    requires Inv(s) && t < |s.pcs| && s.pcs[t].Filled?
    ensures Refines(s, LinkIn(t))
  {
    var pc := s.pcs[t];
    QueueBelow(s);
    assert PcOk(s.mq, pc);
    LinkOk(s.mq, s.pcs, t);
    LinkContents(s.mq.cells, Queue(s.mq), pc.node);
    assert Linked(s, t).mq == Link(s.mq, pc.node, pc.urgent);
  }

  lemma TakeRefines(m: Mq, pcs: seq<Pc>, t: Tid)
    requires QueueOk(m, pcs) && t < |pcs| && m.entry > 0 && Held(pcs[t]) == multiset{}
    requires Below(Queue(m), |m.cells|)
    ensures 0 <= m.head < |m.next| && m.head < |m.cells| && Contents(m) != [] && Contents(m)[0] == m.cells[m.head]
    ensures Below(Queue(TakeHead(m)), |m.cells|) && Contents(TakeHead(m)) == Contents(m)[1..]
  {
    TakeHeadOk(m, pcs, t, Reading(m.head, m.cells[m.head]));
    LinkContents(m.cells, Queue(m), m.head);
  }

  lemma FirstRefines(s: State, t: Tid, r: State)
    requires QueueOk(s.mq, s.pcs) && t < |s.pcs| && s.mq.entry > 0 && Held(s.pcs[t]) == multiset{}
    requires Below(Queue(s.mq), |s.mq.cells|) && 0 <= s.mq.head < |s.mq.next| && s.mq.head < |s.mq.cells|
    requires r.mq == TakeHead(s.mq) && r.pcs == s.pcs[t := Reading(s.mq.head, s.mq.cells[s.mq.head])]
    ensures Below(Queue(r.mq), |r.mq.cells|) && Taken(Contents(s.mq), Contents(r.mq), r, t)
  {
    TakeRefines(s.mq, s.pcs, t);
  }

  lemma ReceiveRefines(s: State, t: Tid, wait: bool)
    requires Inv(s) && t < |s.pcs| && (s.pcs[t].Idle? || s.pcs[t].RecvResumed?)
    requires Below(Queue(s.mq), |s.mq.cells|)
    ensures var r := Receive(s, t, wait); Below(Queue(r.mq), |r.mq.cells|) && Taken(Contents(s.mq), Contents(r.mq), r, t)
  {
    if s.mq.entry > 0 {
      FirstRefines(s, t, Receive(s, t, wait));
    } else {
      assert Queue(s.mq) == [] && Receive(s, t, wait).mq == s.mq;
    }
  }

  /** A step that changes neither the queue nor its payloads. */
  lemma StaysRefines(s: State, op: Op)
    requires Inv(s) && Enabled(s, op) && !op.LinkIn? && !op.RecvEnter? && !op.RecvRetry? && !op.CopyOut? && !op.Reset?
    requires Queue(Step(s, op).mq) == Queue(s.mq) && |Step(s, op).mq.cells| == |s.mq.cells|
    requires forall n :: 0 <= n < |s.mq.cells| && n in Queue(s.mq) ==> Step(s, op).mq.cells[n] == s.mq.cells[n]
    ensures Refines(s, op)
  {
    QueueBelow(s);
    SameContents(s.mq, Step(s, op).mq);
  }

  lemma SendRefines(s: State, t: Tid, buf: seq<int>, wait: bool)
    requires Inv(s) && t < |s.pcs| && (s.pcs[t].Idle? || s.pcs[t].SendResumed?)
    ensures Queue(Send(s, t, buf, wait).mq) == Queue(s.mq) && Send(s, t, buf, wait).mq.cells == s.mq.cells
  {
    if s.mq.free != NULL {
      TakeFreeOk(s.mq, s.pcs, t, Filling(s.mq.free, buf, false));
    }
  }

  lemma SendersRefine(s: State, op: Op)
    requires Inv(s) && Enabled(s, op) && (op.SendEnter? || op.SendRetry?)
    ensures Refines(s, op)
  {
    SendRefines(s, op.t, if op.SendEnter? then op.buf else s.pcs[op.t].buf, op.wait);
    StaysRefines(s, op);
  }

  lemma UrgentRefines(s: State, op: Op)
    requires Inv(s) && Enabled(s, op) && op.UrgentEnter?
    ensures Refines(s, op)
  {
    if s.mq.free != NULL {
      TakeFreeOk(s.mq, s.pcs, op.t, Filling(s.mq.free, op.buf, true));
    }
    StaysRefines(s, op);
  }

  lemma CopyInRefines(s: State, t: Tid)
    requires Inv(s) && t < |s.pcs| && s.pcs[t].Filling?
    ensures Refines(s, CopyIn(t))
  {
    var pc := s.pcs[t];
    HeldNode(s.mq, s.pcs, t, pc.node);
    FillNode(s.mq, s.pcs, t);
    FillQueue(s.mq, s.pcs, t, Fill(s.mq, pc.node, pc.buf, pc.urgent), Filled(pc.node, pc.buf, pc.urgent));
    StaysRefines(s, CopyIn(t));
  }

  lemma CopyOutRefines(s: State, t: Tid, size: nat)
    requires Inv(s) && t < |s.pcs| && s.pcs[t].Reading?
    ensures Refines(s, CopyOut(t, size))
  {
    QueueBelow(s);
    HeldNode(s.mq, s.pcs, t, s.pcs[t].node);
    assert PcOk(s.mq, s.pcs[t]);
  }

  lemma GiveBackRefines(s: State, t: Tid)
    requires Inv(s) && t < |s.pcs| && s.pcs[t].Freeing?
    ensures Refines(s, GiveBack(t))
  {
    HeldNode(s.mq, s.pcs, t, s.pcs[t].node);
    PutBackOk(s.mq, s.pcs, t, Idle, s.pcs[t].node);
    assert Returned(s, t).mq == PutBack(s.mq, s.pcs[t].node);
    StaysRefines(s, GiveBack(t));
  }

  lemma RecvRefines(s: State, op: Op)
    requires Inv(s) && Enabled(s, op) && (op.RecvEnter? || op.RecvRetry?)
    ensures Refines(s, op)
  {
    QueueBelow(s);
    ReceiveRefines(s, op.t, op.wait);
  }

  lemma ResetRefines(s: State)
    requires Inv(s)
    ensures Refines(s, Reset)
  {
    QueueBelow(s);
    ResetKeeps(s);
  }

  /** Whatever else is in progress, the queue behaves as a deque, and messages enter it at the linking step. */
  lemma StepRefines(s: State, op: Op)
    requires Inv(s) && Enabled(s, op)
    ensures Refines(s, op)
  {
    match op
    case SendEnter(_, _, _) => SendersRefine(s, op);
    case UrgentEnter(_, _) => UrgentRefines(s, op);
    case SendRetry(_, _) => SendersRefine(s, op);
    case CopyIn(t) => CopyInRefines(s, t);
    case LinkIn(t) => LinkRefines(s, t);
    case RecvEnter(_, _) => RecvRefines(s, op);
    case RecvRetry(_, _) => RecvRefines(s, op);
    case CopyOut(t, size) => CopyOutRefines(s, t, size);
    case GiveBack(t) => GiveBackRefines(s, t);
    case Expire(t) => StaysRefines(s, op);
    case Reset => ResetRefines(s);
  }

  // ---------------------------------------------------------------------------------------------
  // Whose message it is

  datatype Letter = Letter(buf: seq<int>, urgent: bool)

  /** The message that a thread is in the middle of sending. */
  function Carried(pc: Pc): Option<Letter> {
    match pc
    case SendWait(buf) => Some(Letter(buf, false))
    case SendResumed(buf) => Some(Letter(buf, false))
    case Filling(_, buf, urgent) => Some(Letter(buf, urgent))
    case Filled(_, buf, urgent) => Some(Letter(buf, urgent))
    case _ => None
  }

  /** Thread `t` calls a send with this message. */
  predicate Sends(op: Op, t: Tid, l: Letter) {
    || (op.SendEnter? && op.t == t && op.buf == l.buf && !l.urgent)
    || (op.UrgentEnter? && op.t == t && op.buf == l.buf && l.urgent)
  }

  predicate Enters(op: Op, t: Tid) {
    (op.SendEnter? || op.UrgentEnter?) && op.t == t
  }

  /** A node is free if and only if the free list is not empty. */
  lemma FreeIff(s: State)
    requires Inv(s)
    ensures s.mq.free == NULL <==> FreeNodes(s.mq) == []
  {
  }

  /** What a call of a send does with the caller's buffer: a node is taken for it, or it waits, or it is refused. */
  lemma EnterEffect(s: State, op: Op)
    requires Inv(s) && Enabled(s, op) && (op.SendEnter? || op.UrgentEnter?)
    ensures var r, t := Step(s, op), op.t; var fits, free := |op.buf| <= s.mq.size, FreeNodes(s.mq) != [];
      && |r.pcs| == |s.pcs|
      && (forall u: Tid :: u < |s.pcs| && u != t ==> r.pcs[u] == s.pcs[u])
      && (fits && free ==> r.pcs[t].Filling? && r.pcs[t].node == FreeNodes(s.mq)[0] && r.pcs[t].buf == op.buf && r.pcs[t].urgent == op.UrgentEnter?)
      && (fits && !free && op.SendEnter? && op.wait ==> r.pcs[t] == SendWait(op.buf) && t in r.senders)
      && (!fits || (!free && (op.UrgentEnter? || !op.wait)) ==> r.pcs[t].Idle? && r.mq == s.mq)
  {
    FreeIff(s);
    if s.mq.free == NULL && op.SendEnter? {
      SuspendContents(s.senders, op.t, s.prios, s.fifo);
    }
  }

  /** What a receiver finds: the first message, a place among the waiters, or nothing. */
  lemma RecvEffect(s: State, op: Op)
    requires Inv(s) && Enabled(s, op) && (op.RecvEnter? || op.RecvRetry?)
    ensures var r, t, q := Step(s, op), op.t, Queue(s.mq);
      && |r.pcs| == |s.pcs| && Below(q, |s.mq.cells|)
      && (forall u: Tid :: u < |s.pcs| && u != t ==> r.pcs[u] == s.pcs[u])
      && (q != [] ==> r.pcs[t] == Reading(q[0], s.mq.cells[q[0]]) && r.receivers == s.receivers)
      && (q == [] && op.wait ==> r.pcs[t] == RecvWait && t in r.receivers && r.mq == s.mq)
      && (q == [] && !op.wait ==> r.pcs[t].Idle? && r.receivers == s.receivers && r.mq == s.mq)
      && r.senders == s.senders
  {
    QueueBelow(s);
    SuspendContents(s.receivers, op.t, s.prios, s.fifo);
  }

  /** A timeout ends the waiting of exactly that thread. */
  lemma ExpireEffect(s: State, t: Tid)
    requires Inv(s) && Enabled(s, Expire(t))
    ensures var r := Step(s, Expire(t));
      && r.mq == s.mq && r.pcs == s.pcs[t := Idle]
      && (forall u :: u in r.receivers <==> u in s.receivers && u != t)
      && (forall u :: u in r.senders <==> u in s.senders && u != t)
  {
    RemoveContents(s.receivers, t);
    RemoveContents(s.senders, t);
  }

  /** A reset ends the waiting of every thread and goes on with the rest where they are; no message is left. */
  lemma ResetEffect(s: State)
    requires Inv(s)
    ensures var r := Step(s, Reset);
      && |r.pcs| == |s.pcs| && r.receivers == [] && r.senders == [] && r.mq.entry == 0
      && (forall u: Tid :: u < |s.pcs| ==> r.pcs[u] == if s.pcs[u].SendWait? || s.pcs[u].RecvWait? then Idle else s.pcs[u])
  {
    forall u: Tid | u < |s.pcs| ensures u in s.receivers || u in s.senders <==> s.pcs[u].SendWait? || s.pcs[u].RecvWait? {
      assert Waits(s.pcs[u], true) || Waits(s.pcs[u], false) <==> s.pcs[u].SendWait? || s.pcs[u].RecvWait?;
    }
  }

  /** From the call to the link nobody changes the message of a thread: it carries the same one, or none any more. */
  lemma CarriedKept(s: State, op: Op, t: Tid)
    requires Inv(s) && Enabled(s, op) && t < |s.pcs| && !Enters(op, t)
    ensures t < |Step(s, op).pcs| && SameLetter(s.pcs[t], Step(s, op).pcs[t])
  {
    match op
    case SendEnter(u, buf, wait) => OthersSame(s, u, t, buf, wait);
    case UrgentEnter(_, _) =>
    case SendRetry(u, wait) => OthersSame(s, u, t, s.pcs[u].buf, wait);
    case CopyIn(u) => CopiedSame(s, u, t);
    case LinkIn(u) => LinkedSame(s, u, t);
    case RecvEnter(u, wait) => ReceiveSame(s, u, t, wait);
    case RecvRetry(u, wait) => ReceiveSame(s, u, t, wait);
    case CopyOut(u, size) => DeliveredSame(s, u, t, size);
    case GiveBack(u) => ReturnedSame(s, u, t);
    case Expire(_) =>
    case Reset =>
  }

  /** The thread carries the same message, or none any more. */
  predicate SameLetter(was: Pc, pc: Pc) {
    Carried(pc) == Carried(was) || Carried(pc) == None
  }

  lemma OthersSame(s: State, u: Tid, t: Tid, buf: seq<int>, wait: bool)
    requires Inv(s) && u < |s.pcs| && t < |s.pcs|
    ensures t < |Send(s, u, buf, wait).pcs|
    ensures u != t ==> Send(s, u, buf, wait).pcs[t] == s.pcs[t]
    ensures Carried(Send(s, u, buf, wait).pcs[u]) in {Some(Letter(buf, false)), None}
  {
  }

  lemma CopiedSame(s: State, u: Tid, t: Tid)
    requires Inv(s) && u < |s.pcs| && t < |s.pcs| && s.pcs[u].Filling?
    ensures t < |Copied(s, u).pcs| && SameLetter(s.pcs[t], Copied(s, u).pcs[t])
  {
    PutLetter(s.pcs, u, Filled(s.pcs[u].node, s.pcs[u].buf, s.pcs[u].urgent), t);
  }

  lemma DeliveredSame(s: State, u: Tid, t: Tid, size: nat)
    requires Inv(s) && u < |s.pcs| && t < |s.pcs| && s.pcs[u].Reading?
    ensures t < |Delivered(s, u, size).pcs| && SameLetter(s.pcs[t], Delivered(s, u, size).pcs[t])
  {
    PutLetter(s.pcs, u, Delivered(s, u, size).pcs[u], t);
  }

  lemma LinkedSame(s: State, u: Tid, t: Tid)
    requires Inv(s) && u < |s.pcs| && t < |s.pcs| && s.pcs[u].Filled?
    ensures t < |Linked(s, u).pcs| && SameLetter(s.pcs[t], Linked(s, u).pcs[t])
  {
    HeldNode(s.mq, s.pcs, u, s.pcs[u].node);
    FirstReceiver(s, u);
    OverflowUnreachable(s, u);
    PutLetter(s.pcs, u, Idle, t);
    if s.receivers != [] {
      var idle, w := s.pcs[u := Idle], s.receivers[0];
      assert Linked(s, u).pcs == idle[w := RecvResumed];
      PutLetter(idle, w, RecvResumed, t);
    }
  }

  lemma ReceiveSame(s: State, u: Tid, t: Tid, wait: bool)
    requires Inv(s) && u < |s.pcs| && t < |s.pcs|
    ensures t < |Receive(s, u, wait).pcs| && SameLetter(s.pcs[t], Receive(s, u, wait).pcs[t])
  {
    ReceivePc(s, u, wait);
    PutLetter(s.pcs, u, Receive(s, u, wait).pcs[u], t);
  }

  lemma ReceivePc(s: State, u: Tid, wait: bool)
    requires Inv(s) && u < |s.pcs|
    ensures var r := Receive(s, u, wait); |r.pcs| == |s.pcs| && r.pcs == s.pcs[u := r.pcs[u]] && SameLetter(s.pcs[u], r.pcs[u])
  {
    var r := Receive(s, u, wait);
    assert r.pcs[u].Reading? || r.pcs[u].RecvWait? || r.pcs[u].Idle?;
  }

  lemma PutLetter(pcs: seq<Pc>, u: Tid, p: Pc, t: Tid)
    requires u < |pcs| && t < |pcs| && SameLetter(pcs[u], p)
    ensures SameLetter(pcs[t], pcs[u := p][t])
  {
  }

  lemma ReturnedSame(s: State, u: Tid, t: Tid)
    requires Inv(s) && u < |s.pcs| && t < |s.pcs| && s.pcs[u].Freeing?
    ensures t < |Returned(s, u).pcs| && SameLetter(s.pcs[t], Returned(s, u).pcs[t])
  {
    HeldNode(s.mq, s.pcs, u, s.pcs[u].node);
    FirstWaits(s.senders, s.pcs, u, false);
    PutLetter(s.pcs, u, Idle, t);
    if s.senders != [] {
      var idle, w := s.pcs[u := Idle], s.senders[0];
      assert Returned(s, u).pcs == idle[w := SendResumed(s.pcs[w].buf)];
      PutLetter(idle, w, SendResumed(s.pcs[w].buf), t);
    }
  }

  /** A thread woken by a link was waiting to receive. */
  lemma FirstReceiver(s: State, t: Tid)
    requires Inv(s) && t < |s.pcs|
    ensures s.receivers != [] ==> s.receivers[0] < |s.pcs| && s.pcs[s.receivers[0]].RecvWait?
  {
    assert s.receivers != [] ==> s.receivers[0] in s.receivers;
  }

  /** A retry and the copy keep the message of the thread that goes on sending. */
  lemma RetryKeeps(s: State, op: Op)
    requires Inv(s) && Enabled(s, op) && (op.CopyIn? || (op.SendRetry? && (op.wait || FreeNodes(s.mq) != [])))
    ensures |Step(s, op).pcs| == |s.pcs| && Carried(s.pcs[op.t]).Some? && Carried(Step(s, op).pcs[op.t]) == Carried(s.pcs[op.t])
  {
    if op.CopyIn? {
      CopiedLetter(s, op.t);
    } else {
      FreeIff(s);
      SentLetter(s, op.t, s.pcs[op.t].buf, op.wait);
    }
  }

  lemma CopiedLetter(s: State, t: Tid)
    requires Inv(s) && t < |s.pcs| && s.pcs[t].Filling?
    ensures |Copied(s, t).pcs| == |s.pcs| && Carried(s.pcs[t]).Some? && Carried(Copied(s, t).pcs[t]) == Carried(s.pcs[t])
  {
  }

  lemma SentLetter(s: State, t: Tid, buf: seq<int>, wait: bool)
    requires Inv(s) && t < |s.pcs| && (wait || s.mq.free != NULL)
    ensures |Send(s, t, buf, wait).pcs| == |s.pcs| && Carried(Send(s, t, buf, wait).pcs[t]) == Some(Letter(buf, false))
  {
  }

  /** So does being woken by a receiver that gives its node back. */
  lemma WakeKeeps(s: State, u: Tid, t: Tid)
    requires Inv(s) && u < |s.pcs| && s.pcs[u].Freeing? && t < |s.pcs|
    ensures |Step(s, GiveBack(u)).pcs| == |s.pcs| && Carried(Step(s, GiveBack(u)).pcs[t]) == Carried(s.pcs[t])
  {
    HeldNode(s.mq, s.pcs, u, s.pcs[u].node);
    FirstWaits(s.senders, s.pcs, u, false);
    if s.senders != [] {
      var idle, w := s.pcs[u := Idle], s.senders[0];
      assert Returned(s, u).pcs == idle[w := SendResumed(s.pcs[w].buf)];
    }
  }

  /** The end of a send: the caller returns, and of the others at most the first receiver is touched. */
  lemma LinkReturns(s: State, t: Tid, u: Tid)
    requires Inv(s) && t < |s.pcs| && s.pcs[t].Filled? && u < |s.pcs|
    ensures var r := Step(s, LinkIn(t));
      |r.pcs| == |s.pcs| && r.pcs[t].Idle? && (u != t && (s.receivers == [] || u != s.receivers[0]) ==> r.pcs[u] == s.pcs[u])
  {
    HeldNode(s.mq, s.pcs, t, s.pcs[t].node);
    FirstReceiver(s, t);
    OverflowUnreachable(s, t);
    assert Linked(s, t).pcs == if s.receivers == [] then s.pcs[t := Idle] else s.pcs[t := Idle][s.receivers[0] := RecvResumed];
  }

  /** The end of a receive: the caller returns, and of the others at most the first sender is touched. */
  lemma GiveBackReturns(s: State, t: Tid, u: Tid)
    requires Inv(s) && t < |s.pcs| && s.pcs[t].Freeing? && u < |s.pcs|
    ensures var r := Step(s, GiveBack(t));
      |r.pcs| == |s.pcs| && r.pcs[t].Idle? && (u != t && (s.senders == [] || u != s.senders[0]) ==> r.pcs[u] == s.pcs[u])
  {
    HeldNode(s.mq, s.pcs, t, s.pcs[t].node);
    FirstWaits(s.senders, s.pcs, t, false);
    if s.senders != [] {
      var idle, w := s.pcs[t := Idle], s.senders[0];
      assert Returned(s, t).pcs == idle[w := SendResumed(s.pcs[w].buf)];
    } else {
      assert Returned(s, t).pcs == s.pcs[t := Idle];
    }
  }

  /** Step `i` is a send of `t` with the message `l`, and up to state `k` it does not call another. */
  ghost predicate Sent(ss: seq<State>, ops: seq<Op>, i: nat, k: nat, t: Tid, l: Letter) {
    var sent := IsRun(ss, ops) && Inv(ss[0]) && i < k < |ss| && Sends(ops[i], t, l) && forall j :: i < j < k ==> !Enters(ops[j], t);
    sent
  }

  /** Thread `t` carries the message `l`, or none. */
  ghost predicate AtMost(s: State, t: Tid, l: Letter) {
    t < |s.pcs| && (Carried(s.pcs[t]) == Some(l) || Carried(s.pcs[t]) == None)
  }

  lemma SentBefore(ss: seq<State>, ops: seq<Op>, i: nat, k: nat, t: Tid, l: Letter)
    requires Sent(ss, ops, i, k, t, l) && k > i + 1
    ensures Sent(ss, ops, i, k - 1, t, l) && !Enters(ops[k - 1], t)
  {
  }

  ghost predicate SoundStep(s: State, op: Op, r: State) {
    var sound := Inv(s) && Follows(s, op, r);
    sound
  }

  lemma RunStep(ss: seq<State>, ops: seq<Op>, k: nat)
    requires IsRun(ss, ops) && Inv(ss[0]) && 0 < k < |ss|
    ensures SoundStep(ss[k - 1], ops[k - 1], ss[k])
  {
    RunKeeps(ss, ops, k - 1);
  }

  lemma SentIs(ss: seq<State>, ops: seq<Op>, i: nat, k: nat, t: Tid, l: Letter)
    requires Sent(ss, ops, i, k, t, l)
    ensures IsRun(ss, ops) && Inv(ss[0]) && i < k < |ss| == |ops| + 1 && (k == i + 1 ==> Sends(ops[k - 1], t, l))
  {
  }

  lemma SendCarries(s: State, op: Op, r: State, t: Tid, l: Letter)
    requires SoundStep(s, op, r) && Sends(op, t, l)
    ensures AtMost(r, t, l)
  {
    EnterEffect(s, op);
  }

  lemma StepCarries(s: State, op: Op, r: State, t: Tid, l: Letter)
    requires SoundStep(s, op, r) && !Enters(op, t) && AtMost(s, t, l)
    ensures AtMost(r, t, l)
  {
    CarriedKept(s, op, t);
  }

  /** From its send on a thread carries that message or none. */
  lemma {:induction false} CarriesLast(ss: seq<State>, ops: seq<Op>, i: nat, k: nat, t: Tid, l: Letter)
    requires Sent(ss, ops, i, k, t, l) && i < k
    ensures k < |ss| && AtMost(ss[k], t, l)
  {
    if k == i + 1 {
      CarriesFirst(ss, ops, i, k, t, l);
    } else {
      SentBefore(ss, ops, i, k, t, l);
      CarriesLast(ss, ops, i, k - 1, t, l);
      CarriesNext(ss, ops, i, k, t, l);
    }
  }

  lemma CarriesFirst(ss: seq<State>, ops: seq<Op>, i: nat, k: nat, t: Tid, l: Letter)
    requires Sent(ss, ops, i, k, t, l) && k == i + 1
    ensures k < |ss| && AtMost(ss[k], t, l)
  {
    SentIs(ss, ops, i, k, t, l);
    RunStep(ss, ops, k);
    SendCarries(ss[k - 1], ops[k - 1], ss[k], t, l);
  }

  lemma CarriesNext(ss: seq<State>, ops: seq<Op>, i: nat, k: nat, t: Tid, l: Letter)
    requires Sent(ss, ops, i, k, t, l) && k > i + 1 && k <= |ss| && AtMost(ss[k - 1], t, l)
    ensures k < |ss| && AtMost(ss[k], t, l)
  {
    SentIs(ss, ops, i, k, t, l);
    RunStep(ss, ops, k);
    SentBefore(ss, ops, i, k, t, l);
    StepCarries(ss[k - 1], ops[k - 1], ss[k], t, l);
  }

  /** The queue has one message more, which starts with the buffer of `l`: in front if it is urgent, behind otherwise. */
  ghost predicate Adds(s: State, r: State, l: Letter) {
    var adds :=
      && Below(Queue(s.mq), |s.mq.cells|) && Below(Queue(r.mq), |r.mq.cells|)
      && var before, after := Contents(s.mq), Contents(r.mq);
      && |after| == |before| + 1
      && if l.urgent then after[1..] == before && l.buf <= after[0] else after[..|before|] == before && l.buf <= after[|before|];
    adds
  }

  lemma LinkAdds(s: State, r: State, t: Tid, l: Letter)
    requires SoundStep(s, LinkIn(t), r) && AtMost(s, t, l)
    ensures Adds(s, r, l)
  {
    StepRefines(s, LinkIn(t));
  }

  lemma SentStep(ss: seq<State>, ops: seq<Op>, i: nat, k: nat, t: Tid, l: Letter, n: nat)
    requires Sent(ss, ops, i, k, t, l) && n < |ops| && |ss| == |ops| + 1
    ensures SoundStep(ss[n], ops[n], ss[n + 1])
  {
    RunNext(ss, ops, n);
  }

  lemma RunNext(ss: seq<State>, ops: seq<Op>, n: nat)
    requires IsRun(ss, ops) && Inv(ss[0]) && n < |ops|
    ensures SoundStep(ss[n], ops[n], ss[n + 1])
  {
    RunKeeps(ss, ops, n);
    assert Follows(ss[n], ops[n], ss[n + 1]);
  }

  /** Over any run: what a link adds to the queue is what its thread passed in its last send, on the side that send asked for. */
  lemma LinksLastSend(ss: seq<State>, ops: seq<Op>, i: nat, k: nat, t: Tid, l: Letter)
    requires Sent(ss, ops, i, k, t, l) && k < |ops| && ops[k] == LinkIn(t) && |ss| == |ops| + 1
    ensures Adds(ss[k], ss[k + 1], l)
  {
    CarriesLast(ss, ops, i, k, t, l);
    SentStep(ss, ops, i, k, t, l, k);
    LinkAdds(ss[k], ss[k + 1], t, l);
  }

  /** The overflow branch behind a link is never taken. */
  lemma OverflowUnreachable(s: State, t: Tid)
    requires Inv(s) && t < |s.pcs| && s.pcs[t].Filled?
    ensures s.mq.entry < |s.mq.next| && s.mq.entry < ENTRY_MAX
  {
    HeldNode(s.mq, s.pcs, t, s.pcs[t].node);
  }

  // ---------------------------------------------------------------------------------------------
  // Who waits in front of whom

  /** Under `RT_IPC_FLAG_PRIO` both queues of waiters are in the order of priorities. */
  ghost predicate Ranked(s: State) {
    s.fifo || (Sorted(s.receivers, s.prios) && Sorted(s.senders, s.prios))
  }

  lemma WakeRanked(s: State, list: seq<Tid>)
    requires Below(list, |s.prios|) && (s.fifo || Sorted(list, s.prios))
    ensures list != [] ==> s.fifo || Sorted(list[1..], s.prios)
  {
    if list != [] && !s.fifo {
      TailSorted(list, s.prios);
    }
  }

  lemma JoinRanked(s: State, list: seq<Tid>, t: Tid)
    requires Below(list, |s.prios|) && t < |s.prios| && (s.fifo || Sorted(list, s.prios))
    ensures s.fifo || Sorted(Suspend(list, t, s.prios, s.fifo), s.prios)
  {
    if !s.fifo {
      SuspendSorted(list, t, s.prios);
    }
  }

  lemma QueuesBelow(s: State)
    requires Inv(s)
    ensures |s.prios| == |s.pcs| && Below(s.receivers, |s.prios|) && Below(s.senders, |s.prios|)
  {
  }

  /** The two queues after each step: a thread joins or leaves one of them. */
  ghost predicate QueueStep(s: State, op: Op, r: State)
    requires |s.prios| == |s.pcs| && Below(s.receivers, |s.prios|) && Below(s.senders, |s.prios|) && Enabled(s, op)
  {
    r.prios == s.prios && r.fifo == s.fifo &&
    match op
    case SendEnter(t, buf, wait) =>
      r.receivers == s.receivers && (r.senders == s.senders || r.senders == Suspend(s.senders, t, s.prios, s.fifo))
    case SendRetry(t, wait) =>
      r.receivers == s.receivers && (r.senders == s.senders || r.senders == Suspend(s.senders, t, s.prios, s.fifo))
    case RecvEnter(t, wait) =>
      r.senders == s.senders && (r.receivers == s.receivers || r.receivers == Suspend(s.receivers, t, s.prios, s.fifo))
    case RecvRetry(t, wait) =>
      r.senders == s.senders && (r.receivers == s.receivers || r.receivers == Suspend(s.receivers, t, s.prios, s.fifo))
    case LinkIn(_) => r.senders == s.senders && r.receivers == if s.receivers == [] then [] else s.receivers[1..]
    case GiveBack(_) => r.receivers == s.receivers && r.senders == if s.senders == [] then [] else s.senders[1..]
    case Expire(t) => r.receivers == Remove(s.receivers, t) && r.senders == Remove(s.senders, t)
    case Reset => r.receivers == r.senders == []
    case _ => r.receivers == s.receivers && r.senders == s.senders
  }

  lemma StepQueues(s: State, op: Op)
    requires Inv(s) && Enabled(s, op)
    ensures |s.prios| == |s.pcs| && Below(s.receivers, |s.prios|) && Below(s.senders, |s.prios|)
    ensures QueueStep(s, op, Step(s, op))
  {
    QueuesBelow(s);
    match op
    case LinkIn(t) => LinkQueues(s, t);
    case GiveBack(t) => ReturnQueues(s, t);
    case _ =>
  }

  lemma LinkQueues(s: State, t: Tid)
    requires Inv(s) && t < |s.pcs| && s.pcs[t].Filled?
    ensures var r := Linked(s, t);
      && r.prios == s.prios && r.fifo == s.fifo
      && r.senders == s.senders && r.receivers == if s.receivers == [] then [] else s.receivers[1..]
  {
    HeldNode(s.mq, s.pcs, t, s.pcs[t].node);
    OverflowUnreachable(s, t);
  }

  lemma ReturnQueues(s: State, t: Tid)
    requires Inv(s) && t < |s.pcs| && s.pcs[t].Freeing?
    ensures var r := Returned(s, t);
      && r.prios == s.prios && r.fifo == s.fifo
      && r.receivers == s.receivers && r.senders == if s.senders == [] then [] else s.senders[1..]
  {
    HeldNode(s.mq, s.pcs, t, s.pcs[t].node);
    FirstWaits(s.senders, s.pcs, t, false);
  }

  /** Every step keeps the queues in order. */
  lemma StepKeepsRanked(s: State, op: Op)
    requires Inv(s) && Ranked(s) && Enabled(s, op)
    ensures Ranked(Step(s, op))
  {
    StepQueues(s, op);
    QueueStepRanked(s, op, Step(s, op));
  }

  lemma QueueStepRanked(s: State, op: Op, r: State)
    requires |s.prios| == |s.pcs| && Below(s.receivers, |s.prios|) && Below(s.senders, |s.prios|) && Enabled(s, op)
    requires QueueStep(s, op, r) && Ranked(s)
    ensures Ranked(r)
  {
    if !s.fifo {
      match op
      case SendEnter(t, _, _) => JoinRanked(s, s.senders, t);
      case SendRetry(t, _) => JoinRanked(s, s.senders, t);
      case RecvEnter(t, _) => JoinRanked(s, s.receivers, t);
      case RecvRetry(t, _) => JoinRanked(s, s.receivers, t);
      case LinkIn(_) => WakeRanked(s, s.receivers);
      case GiveBack(_) => WakeRanked(s, s.senders);
      case Expire(t) =>
        RemoveSorted(s.receivers, t, s.prios);
        RemoveSorted(s.senders, t, s.prios);
      case _ =>
    }
  }

  /** A sender that has to wait is last in order of arrival, and behind exactly those at least as urgent by priority. */
  lemma SenderWaits(s: State, op: Op, w: Tid)
    requires Inv(s) && Ranked(s) && Enabled(s, op) && (op.SendEnter? || op.SendRetry?)
    requires FreeNodes(s.mq) == [] && op.wait && (op.SendEnter? ==> |op.buf| <= s.mq.size) && w in s.senders
    ensures var r := Step(s, op);
      && multiset(r.senders) == multiset(s.senders) + multiset{op.t}
      && w < |s.prios| && op.t < |s.prios| && (InFront(r.senders, w, op.t) <==> s.fifo || s.prios[w] <= s.prios[op.t])
  {
    FreeIff(s);
    QueuesBelow(s);
    assert op.t !in s.senders;
    SuspendPlace(s.senders, op.t, s.prios, s.fifo, w);
    InsertContents(s.senders, if s.fifo then |s.senders| else Place(s.senders, s.prios, s.prios[op.t]), op.t);
  }

  /** The same for a receiver. */
  lemma ReceiverWaits(s: State, op: Op, w: Tid)
    requires Inv(s) && Ranked(s) && Enabled(s, op) && (op.RecvEnter? || op.RecvRetry?)
    requires s.mq.entry == 0 && op.wait && w in s.receivers
    ensures var r := Step(s, op);
      && multiset(r.receivers) == multiset(s.receivers) + multiset{op.t}
      && w < |s.prios| && op.t < |s.prios| && (InFront(r.receivers, w, op.t) <==> s.fifo || s.prios[w] <= s.prios[op.t])
  {
    QueuesBelow(s);
    assert op.t !in s.receivers;
    SuspendPlace(s.receivers, op.t, s.prios, s.fifo, w);
    InsertContents(s.receivers, if s.fifo then |s.receivers| else Place(s.receivers, s.prios, s.prios[op.t]), op.t);
  }

  /** A link wakes the first receiver, and giving a node back the first sender, which keeps its message. */
  lemma WakesFirst(s: State, t: Tid)
    requires Inv(s) && t < |s.pcs|
    ensures s.pcs[t].Filled? && s.receivers != [] ==>
              var r := Step(s, LinkIn(t)); |r.pcs| == |s.pcs| && s.receivers[0] < |s.pcs| && r.pcs[s.receivers[0]].RecvResumed? && r.receivers == s.receivers[1..]
    ensures s.pcs[t].Freeing? && s.senders != [] ==>
              var r, w := Step(s, GiveBack(t)), s.senders[0];
              |r.pcs| == |s.pcs| && w < |s.pcs| && s.pcs[w].SendWait? && r.pcs[w] == SendResumed(s.pcs[w].buf) && r.senders == s.senders[1..]
  {
    if s.pcs[t].Filled? {
      StepQueues(s, LinkIn(t));
      OverflowUnreachable(s, t);
    }
    if s.pcs[t].Freeing? {
      StepQueues(s, GiveBack(t));
      FirstWaits(s.senders, s.pcs, t, false);
    }
  }

  predicate Quiet(pc: Pc) {
    pc.Idle? || pc.SendWait? || pc.RecvWait?
  }

  lemma {:induction false} QuietCounts(pcs: seq<Pc>)
    requires forall t :: 0 <= t < |pcs| ==> Quiet(pcs[t])
    ensures Tally(pcs, true) == Tally(pcs, false) == 0 && InFlight(pcs) == multiset{}
  {
    if pcs != [] {
      QuietCounts(pcs[1..]);
    }
  }

  lemma {:induction false} AllNodesSize(max: nat)
    ensures |AllNodes(max)| == max
  {
    if max > 0 {
      AllNodesSize(max - 1);
    }
  }

  /** When no thread is inside an operation, receivers wait only at an empty queue and senders only at a full one. */
  lemma NobodyStuck(s: State)
    requires Inv(s) && forall t :: 0 <= t < |s.pcs| ==> Quiet(s.pcs[t])
    ensures s.receivers != [] ==> s.mq.entry == 0
    ensures s.senders != [] ==> s.mq.entry == |s.mq.next|
    ensures |Queue(s.mq)| + |FreeNodes(s.mq)| == |s.mq.next|
  {
    QuietCounts(s.pcs);
    AllNodesSize(|s.mq.next|);
    assert |multiset(Queue(s.mq)) + multiset(FreeNodes(s.mq))| == |Queue(s.mq)| + |FreeNodes(s.mq)|;
  }

  // ---------------------------------------------------------------------------------------------
  // The critical sections as the source performs them

  /** The free list that initialisation builds: last node first. */
  function Downward(max: nat): (f: seq<Node>)
    ensures |f| == max && Below(f, max)
  {
    if max == 0 then [] else [max - 1] + Downward(max - 1)
  }

  lemma {:induction false} DownwardNodes(max: nat)
    ensures multiset(Downward(max)) == AllNodes(max) && (max > 0 ==> Downward(max)[0] == max - 1)
  {
    if max > 0 {
      DownwardNodes(max - 1);
    }
  }

  class MessageQueueObject {
    var head: int
    var tail: int
    var free: int
    var entry: nat
    const next: array<int>
    var cells: seq<seq<int>>
    const size: nat

    function Now(): Mq
      reads this, next
    {
      Mq(head, tail, free, entry, next[..], cells, size)
    }

    ghost predicate Consistent()
      reads this, next
    {
      Lists(Now(), Queue(Now()), FreeNodes(Now()))
    }

    /** `rt_mq_create`: the node count is cut to 16 bits. */
    constructor (size: nat, maxMsgs: nat)
      ensures fresh(next) && next.Length == maxMsgs % 0x10000 && this.size == size
      ensures Consistent() && Now() == NewQueue(cells, size) && forall n :: 0 <= n < |cells| ==> |cells[n]| == size
    {
      var max := maxMsgs % 0x10000;
      this.size := size;
      next := new int[max];
      cells := seq(max, _ => seq(size, _ => 0));
      head, tail, free, entry := NULL, NULL, NULL, 0;
      new;
      var temp := 0;
      while temp < max
        invariant 0 <= temp <= max == next.Length == |cells|
        invariant head == NULL && tail == NULL && entry == 0 && forall n :: 0 <= n < |cells| ==> |cells[n]| == size
        invariant free == (if temp == 0 then NULL else temp - 1)
        invariant forall n :: 0 <= n < temp ==> next[n] == n - 1
        modifies this, next
      {
        next[temp] := free;
        free := temp;
        temp := temp + 1;
      }
      assert Now() == NewQueue(cells, size);
      NewQueueOk(cells, size, []);
    }

    /** First critical section of a send, when a node is free. */
    method TakeFreeNode() returns (n: Node)
      requires Consistent() && free != NULL
      modifies this`free
      ensures n == old(free) && Now() == TakeFree(old(Now()))
    {
      assert FreeNodes(Now()) != [];
      n := free;
      free := next[n];
    }

    /** The copy between the two critical sections of a send. */
    method CopyInto(n: Node, buf: seq<int>, urgent: bool)
      requires n < next.Length == |cells| && |buf| <= |cells[n]|
      modifies this`cells, next
      ensures Now() == Fill(old(Now()), n, buf, urgent)
    {
      if !urgent {
        next[n] := NULL;
      }
      var cell := cells[n];
      var i := 0;
      while i < |buf|
        invariant 0 <= i <= |buf| && |cell| == |cells[n]|
        invariant cell == buf[..i] + cells[n][i..]
        modifies {}
      {
        PutByte(cells[n], buf, i);
        cell := cell[i := buf[i]];
        i := i + 1;
      }
      assert buf[..|buf|] == buf;
      cells := cells[n := cell];
      assert next[..] == if urgent then old(next[..]) else old(next[..])[n := NULL];
    }

    /** Second critical section of `rt_mq_send_wait` (not urgent) or `rt_mq_urgent`. */
    method LinkNode(n: Node, urgent: bool) returns (ok: bool)
      requires Consistent() && n < next.Length
      modifies this`head, this`tail, this`entry, next
      ensures Now() == Link(old(Now()), n, urgent) && ok == (old(entry) < ENTRY_MAX)
    {
      assert Queue(Now()) != [] ==> Queue(Now())[|Queue(Now())| - 1] < next.Length;
      if urgent {
        next[n] := head;
        head := n;
        tail := if tail == NULL then n else tail;
      } else {
        if tail != NULL {
          next[tail] := n;
        }
        tail := n;
        head := if head == NULL then n else head;
      }
      ok := entry < ENTRY_MAX;
      if ok {
        entry := entry + 1;
      }
    }

    /** First critical section of a receive, when there is a message. */
    method TakeFirst() returns (n: Node)
      requires Consistent() && head != NULL
      modifies this`head, this`tail, this`entry
      ensures n == old(head) && Now() == TakeHead(old(Now()))
    {
      assert Queue(Now()) != [];
      n := head;
      head := next[n];
      if tail == n {
        tail := NULL;
      }
      if entry > 0 {
        entry := entry - 1;
      }
    }

    /** Second critical section of a receive. */
    method GiveNodeBack(n: Node)
      requires n < next.Length
      modifies this`free, next
      ensures Now() == PutBack(old(Now()), n)
    {
      next[n] := free;
      free := n;
    }

    /** The reset command, without the threads it wakes. */
    method Clear(ghost q: seq<Node>, ghost f: seq<Node>, ghost pcs: seq<Pc>)
      requires Lists(Now(), q, f) && Partition(q, f, pcs, next.Length)
      modifies this, next
      ensures Now() == Drain(old(Now()), next.Length).(entry := 0)
    {
      ghost var m, turns := Now(), next.Length;
      ghost var rest, given := q, f;
      PartitionFacts(q, f, pcs, next.Length);
      Pigeonhole(q, next.Length);
      while head != NULL
        invariant |rest| <= turns && Lists(Now(), rest, given) && Partition(rest, given, pcs, next.Length)
        invariant Drain(m, next.Length) == Drain(Now(), turns)
        invariant next.Length == |m.next|
        decreases |rest|
      {
        ghost var before := Now();
        PartitionFacts(rest, given, pcs, next.Length);
        assert rest[0] in rest;
        DiscardLists(before, rest, given);
        assert multiset(rest) + multiset(given) == multiset(rest[1..]) + multiset([rest[0]] + given) by {
          assert rest == [rest[0]] + rest[1..];
        }
        var msg := head;
        head := next[msg];
        if tail == msg {
          tail := NULL;
        }
        next[msg] := free;
        free := msg;
        assert Now() == Discard(before);
        rest, given, turns := rest[1..], [rest[0]] + given, turns - 1;
      }
      entry := 0;
    }
  }

  /** One more byte of the copy. */
  lemma PutByte(cell: seq<int>, buf: seq<int>, i: nat)
    requires i < |buf| <= |cell|
    ensures (buf[..i] + cell[i..])[i := buf[i]] == buf[..i + 1] + cell[i + 1..]
  {
  }

  lemma InitialList(next: seq<int>, max: nat)
    requires |next| == max && forall n :: 0 <= n < max ==> next[n] == n - 1
    ensures IsList(next, if max == 0 then NULL else max - 1, Downward(max))
  {
    forall i: nat | i < max ensures Downward(max)[i] == max - 1 - i {
      DownwardAt(max, i);
    }
  }

  lemma {:induction false} DownwardAt(max: nat, i: nat)
    requires i < max
    ensures Downward(max)[i] == max - 1 - i
  {
    if i > 0 {
      DownwardAt(max - 1, i - 1);
    }
  }
}
