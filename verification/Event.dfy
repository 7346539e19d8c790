/**
  Event sets (`rt-thread/src/ipc.c`): a send walks the waiting threads once, waking those whose AND or OR condition
  holds and clearing bits on the way.
 */
module Event {
  import opened Common
  import opened WaitList

  /** A 32-bit word as the set of the positions that are one. */
  type Bit = b: nat | b < 32

  type Bits = set<Bit>

  /** `event_set` and the option bits of `event_info` of a thread; AND wins when both AND and OR are given. */
  datatype Request = Request(want: Bits, isAnd: bool, isOr: bool, clear: bool)

  datatype State = State(bits: Bits, waiters: seq<Tid>, waiting: seq<bool>, info: seq<Request>, prios: seq<nat>, fifo: bool)

  datatype Op =
    | Send(bits: Bits)
    | Recv(t: Tid, request: Request, wait: bool)
    | Expire(t: Tid)
    | Reset

  /** What the walk leaves: the bits, who still waits, and who was woken with which bits. */
  datatype Walked = Walked(bits: Bits, kept: seq<Tid>, woken: seq<Grant>, ok: bool)

  datatype Grant = Grant(t: Tid, got: Bits)

  predicate Asks(r: Request) {
    r.isAnd || r.isOr
  }

  /** The condition of the request holds of these bits. */
  predicate Satisfied(r: Request, bits: Bits) {
    if r.isAnd then r.want <= bits else r.isOr && r.want * bits != {}
  }

  /** What a satisfied request is handed. */
  function Granted(r: Request, bits: Bits): Bits {
    if r.isAnd then r.want else r.want * bits
  }

  function Consume(r: Request, bits: Bits): Bits {
    if r.clear then bits - Granted(r, bits) else bits
  }

  /** The loop of `rt_event_send` over the waiters `list`. */
  function Walk(bits: Bits, list: seq<Tid>, info: seq<Request>): (w: Walked)
    requires Below(list, |info|)
    ensures Below(w.kept, |info|)
  {
    if list == [] then Walked(bits, [], [], true)
    else
      var r := info[list[0]];
      if !Asks(r) then Walked(bits, list, [], false)
      else if Satisfied(r, bits) then
        var w := Walk(Consume(r, bits), list[1..], info);
        w.(woken := [Grant(list[0], Granted(r, bits))] + w.woken)
      else
        var w := Walk(bits, list[1..], info);
        w.(kept := [list[0]] + w.kept)
  }

  /** Losing bits never satisfies a request. */
  lemma SatisfiedMonotone(r: Request, a: Bits, b: Bits)
    requires a <= b && Satisfied(r, a)
    ensures Satisfied(r, b)
  {
    if !r.isAnd {
      var x :| x in r.want * a;
      assert x in r.want * b;
    }
  }

  lemma {:induction false} WalkShrinks(bits: Bits, list: seq<Tid>, info: seq<Request>)
    requires Below(list, |info|)
    ensures Walk(bits, list, info).bits <= bits
  {
    if list != [] && Asks(info[list[0]]) {
      var r := info[list[0]];
      if Satisfied(r, bits) {
        WalkShrinks(Consume(r, bits), list[1..], info);
      } else {
        WalkShrinks(bits, list[1..], info);
      }
    }
  }

  ghost predicate NoneSatisfied(bits: Bits, list: seq<Tid>, info: seq<Request>) {
    Below(list, |info|) && forall i :: 0 <= i < |list| ==> !Satisfied(info[list[i]], bits)
  }

  /** Nobody with an AND or OR request queues behind a thread that gave neither. */
  ghost predicate AskersFirst(list: seq<Tid>, info: seq<Request>) {
    Below(list, |info|) && forall i, j :: 0 <= i < j < |list| && Asks(info[list[j]]) ==> Asks(info[list[i]])
  }

  lemma NeverSatisfied(bits: Bits, list: seq<Tid>, info: seq<Request>)
    requires AskersFirst(list, info) && list != [] && !Asks(info[list[0]])
    ensures NoneSatisfied(bits, list, info)
  {
    forall i | 0 <= i < |list| ensures !Satisfied(info[list[i]], bits) {
      assert i == 0 || !Asks(info[list[i]]);
    }
  }

  /** Although bits are cleared during the walk, nobody who still waits has a satisfied request at its end. */
  lemma {:induction false} WalkLeavesNone(bits: Bits, list: seq<Tid>, info: seq<Request>)
    requires AskersFirst(list, info)
    ensures NoneSatisfied(Walk(bits, list, info).bits, Walk(bits, list, info).kept, info)
    ensures AskersFirst(Walk(bits, list, info).kept, info)
  {
    if list != [] {
      var r := info[list[0]];
      if !Asks(r) {
        NeverSatisfied(bits, list, info);
      } else if Satisfied(r, bits) {
        WalkLeavesNone(Consume(r, bits), list[1..], info);
      } else {
        WalkLeavesNone(bits, list[1..], info);
        WalkShrinks(bits, list[1..], info);
        var w := Walk(bits, list[1..], info);
        if Satisfied(r, w.bits) {
          SatisfiedMonotone(r, w.bits, bits);
        }
      }
    }
  }

  /** The grant satisfies the request it answers. */
  ghost predicate Answers(r: Request, got: Bits) {
    if r.isAnd then got == r.want else got != {} && got <= r.want
  }

  ghost predicate GrantOk(g: Grant, list: seq<Tid>, info: seq<Request>, bits: Bits) {
    g.t in list && g.t < |info| && Answers(info[g.t], g.got) && g.got <= bits
  }

  /** Whoever is woken gets present bits that answer its own request. */
  lemma {:induction false} WalkAnswers(bits: Bits, list: seq<Tid>, info: seq<Request>)
    requires Below(list, |info|)
    ensures forall i :: 0 <= i < |Walk(bits, list, info).woken| ==> GrantOk(Walk(bits, list, info).woken[i], list, info, bits)
  {
    if list != [] && Asks(info[list[0]]) {
      var r := info[list[0]];
      var next := if Satisfied(r, bits) then Consume(r, bits) else bits;
      var w, rest := Walk(bits, list, info), Walk(next, list[1..], info);
      WalkAnswers(next, list[1..], info);
      forall i | 0 <= i < |rest.woken| ensures GrantOk(rest.woken[i], list, info, bits) {
        assert GrantOk(rest.woken[i], list[1..], info, next);
      }
      if Satisfied(r, bits) {
        assert w.woken == [Grant(list[0], Granted(r, bits))] + rest.woken;
        assert GrantOk(w.woken[0], list, info, bits);
        forall i | 0 < i < |w.woken| ensures GrantOk(w.woken[i], list, info, bits) {
          assert w.woken[i] == rest.woken[i - 1];
        }
      }
    }
  }

  /** Bits that one woken thread consumed are not handed to a later one. */
  lemma {:induction false} WalkConsumesOnce(bits: Bits, list: seq<Tid>, info: seq<Request>, i: nat, j: nat)
    requires Below(list, |info|) && i < j < |Walk(bits, list, info).woken|
    ensures var woken := Walk(bits, list, info).woken;
            woken[i].t < |info| && (info[woken[i].t].clear ==> woken[i].got !! woken[j].got)
  {
    var r := info[list[0]];
    var next := if Satisfied(r, bits) then Consume(r, bits) else bits;
    var rest := Walk(next, list[1..], info);
    if !Satisfied(r, bits) {
      WalkConsumesOnce(bits, list[1..], info, i, j);
    } else if i > 0 {
      WalkConsumesOnce(next, list[1..], info, i - 1, j - 1);
    } else {
      WalkAnswers(next, list[1..], info);
      assert GrantOk(rest.woken[j - 1], list[1..], info, next);
    }
  }

  function Ids(woken: seq<Grant>): seq<Tid> {
    if woken == [] then [] else [woken[0].t] + Ids(woken[1..])
  }

  /** Every waiter is kept or woken, once. */
  lemma {:induction false} WalkSplits(bits: Bits, list: seq<Tid>, info: seq<Request>)
    requires Below(list, |info|)
    ensures var w := Walk(bits, list, info); multiset(list) == multiset(w.kept) + multiset(Ids(w.woken))
  {
    if list != [] && Asks(info[list[0]]) {
      var r := info[list[0]];
      var next := if Satisfied(r, bits) then Consume(r, bits) else bits;
      var rest := Walk(next, list[1..], info);
      WalkSplits(next, list[1..], info);
      assert list == [list[0]] + list[1..];
      assert Satisfied(r, bits) ==> ([Grant(list[0], Granted(r, bits))] + rest.woken)[1..] == rest.woken;
    }
  }

  lemma {:induction false} WalkContents(bits: Bits, list: seq<Tid>, info: seq<Request>)
    requires Below(list, |info|) && Distinct(list)
    ensures var w := Walk(bits, list, info);
            && Distinct(w.kept)
            && (forall x :: x in w.kept ==> x in list && x !in Ids(w.woken))
            && (forall x :: x in Ids(w.woken) ==> x in list)
            && (forall x :: x in list ==> x in w.kept || x in Ids(w.woken))
  {
    if list != [] && Asks(info[list[0]]) {
      HeadContents(list);
      var r := info[list[0]];
      var next := if Satisfied(r, bits) then Consume(r, bits) else bits;
      var w, rest := Walk(bits, list, info), Walk(next, list[1..], info);
      WalkContents(next, list[1..], info);
      if Satisfied(r, bits) {
        assert w.woken[1..] == rest.woken;
        assert Ids(w.woken) == [list[0]] + Ids(rest.woken);
      } else {
        assert w.kept == [list[0]] + rest.kept && w.woken == rest.woken;
        forall i | 0 <= i < |rest.kept| ensures rest.kept[i] != list[0] {
          assert rest.kept[i] in rest.kept;
        }
      }
    }
  }

  // ---------------------------------------------------------------------------------------------
  // The event object

  /** The woken threads run again and find in `event_set` what they got. */
  function WakeThem(waiting: seq<bool>, woken: seq<Grant>): (r: seq<bool>)
    requires Below(Ids(woken), |waiting|)
    ensures |r| == |waiting|
    ensures forall t :: 0 <= t < |waiting| ==> r[t] == (waiting[t] && t !in Ids(woken))
    decreases |woken|
  {
    if woken == [] then waiting
    else
      assert Ids(woken)[0] == woken[0].t;
      IdsBelow(woken, |waiting|);
      WakeThem(waiting[woken[0].t := false], woken[1..])
  }

  function NoteGot(info: seq<Request>, woken: seq<Grant>): (r: seq<Request>)
    requires Below(Ids(woken), |info|)
    ensures |r| == |info|
    ensures forall t :: 0 <= t < |info| && t !in Ids(woken) ==> r[t] == info[t]
    decreases |woken|
  {
    if woken == [] then info
    else
      assert Ids(woken)[0] == woken[0].t;
      IdsBelow(woken, |info|);
      NoteGot(info[woken[0].t := info[woken[0].t].(want := woken[0].got)], woken[1..])
  }

  lemma IdsBelow(woken: seq<Grant>, n: nat)
    requires woken != [] && Below(Ids(woken), n)
    ensures Below(Ids(woken[1..]), n)
  {
    forall i | 0 <= i < |Ids(woken[1..])| ensures Ids(woken[1..])[i] < n {
      assert Ids(woken)[i + 1] == Ids(woken[1..])[i];
    }
  }

  lemma WokenBelow(bits: Bits, list: seq<Tid>, info: seq<Request>)
    requires Below(list, |info|) && Distinct(list)
    ensures Below(Ids(Walk(bits, list, info).woken), |info|)
  {
    WalkContents(bits, list, info);
    var ids := Ids(Walk(bits, list, info).woken);
    forall i | 0 <= i < |ids| ensures ids[i] < |info| {
      assert ids[i] in ids;
    }
  }

  // ---------------------------------------------------------------------------------------------
  // What a walk decides, thread by thread

  /** The bits that the woken threads took away. */
  function Cleared(woken: seq<Grant>, info: seq<Request>): Bits
    requires Below(Ids(woken), |info|)
  {
    if woken == [] then {}
    else
      assert Ids(woken)[0] == woken[0].t;
      IdsBelow(woken, |info|);
      (if info[woken[0].t].clear then woken[0].got else {}) + Cleared(woken[1..], info)
  }

  lemma {:induction false} IdsInside(bits: Bits, list: seq<Tid>, info: seq<Request>)
    requires Below(list, |info|)
    ensures Below(Ids(Walk(bits, list, info).woken), |info|)
  {
    if list != [] && Asks(info[list[0]]) {
      var r := info[list[0]];
      var next := if Satisfied(r, bits) then Consume(r, bits) else bits;
      var w, rest := Walk(bits, list, info), Walk(next, list[1..], info);
      IdsInside(next, list[1..], info);
      if Satisfied(r, bits) {
        assert w.woken[1..] == rest.woken;
        assert Ids(w.woken) == [list[0]] + Ids(rest.woken);
      }
    }
  }

  /** The bits left are the bits sent without what was granted to woken threads that asked to clear. */
  lemma {:induction false} WalkBits(bits: Bits, list: seq<Tid>, info: seq<Request>)
    requires Below(list, |info|)
    ensures Below(Ids(Walk(bits, list, info).woken), |info|)
    ensures Walk(bits, list, info).bits == bits - Cleared(Walk(bits, list, info).woken, info)
  {
    IdsInside(bits, list, info);
    if list != [] && Asks(info[list[0]]) {
      var r := info[list[0]];
      var next := if Satisfied(r, bits) then Consume(r, bits) else bits;
      WalkBits(next, list[1..], info);
      if Satisfied(r, bits) {
        assert Walk(bits, list, info).woken[1..] == Walk(next, list[1..], info).woken;
      }
    }
  }

  /** The bits that the thread at place `n` sees: those sent without what the ones woken in front of it took away. */
  function Seen(bits: Bits, list: seq<Tid>, info: seq<Request>, n: nat): Bits
    requires Below(list, |info|) && n <= |list|
  {
    IdsInside(bits, list[..n], info);
    bits - Cleared(Walk(bits, list[..n], info).woken, info)
  }

  ghost predicate AskUpTo(list: seq<Tid>, info: seq<Request>, n: nat) {
    Below(list, |info|) && n < |list| && forall i :: 0 <= i <= n ==> Asks(info[list[i]])
  }

  /**
    A thread is woken exactly when the bits it sees hold all of its bits, or for OR one of them; and it is handed those of
    its bits that it sees.
   */
  lemma {:induction false} WalkDecides(bits: Bits, list: seq<Tid>, info: seq<Request>, n: nat)
    requires Distinct(list) && AskUpTo(list, info, n)
    ensures var w, t, seen := Walk(bits, list, info), list[n], Seen(bits, list, info, n);
      && (t in Ids(w.woken) <==> if info[t].isAnd then info[t].want <= seen else info[t].want * seen != {})
      && (t in Ids(w.woken) ==> Grant(t, info[t].want * seen) in w.woken)
  {
    var h, r, t := list[0], info[list[0]], list[n];
    var next := if Satisfied(r, bits) then Consume(r, bits) else bits;
    var w, rest := Walk(bits, list, info), Walk(next, list[1..], info);
    assert Asks(info[list[0]]);
    HeadContents(list);
    WalkContents(next, list[1..], info);
    if Satisfied(r, bits) {
      assert w.woken[1..] == rest.woken && Ids(w.woken) == [h] + Ids(rest.woken);
    }
    WalkBits(bits, list[..n], info);
    if n == 0 {
      assert list[..0] == [] && Seen(bits, list, info, 0) == bits && bits * r.want == r.want * bits;
      assert r.isAnd && r.want <= bits ==> r.want * bits == r.want;
      assert Satisfied(r, bits) ==> w.woken[0] == Grant(h, r.want * bits);
    } else {
      AskRest(list, info, n);
      WalkDecides(next, list[1..], info, n - 1);
      WalkBits(next, list[1..][..n - 1], info);
      assert list[..n][1..] == list[1..][..n - 1] && list[..n][0] == h;
    }
  }

  lemma AskRest(list: seq<Tid>, info: seq<Request>, n: nat)
    requires AskUpTo(list, info, n) && n > 0 && Distinct(list)
    ensures AskUpTo(list[1..], info, n - 1) && Distinct(list[1..])
  {
    assert forall i :: 0 <= i < |list| - 1 ==> list[1..][i] == list[i + 1];
  }

  ghost predicate Shape(e: State) {
    var sound :=
      && |e.info| == |e.waiting| == |e.prios|
      && Distinct(e.waiters) && Below(e.waiters, |e.waiting|)
      && (forall t: Tid :: t < |e.waiting| ==> (t in e.waiters <==> e.waiting[t]))
      && (forall t: Tid :: t < |e.waiting| && t in e.waiters ==> e.info[t].want != {});
    sound
  }

  function Sent(e: State, bits: Bits): State
    requires Shape(e)
  {
    if bits == {} then e
    else
      var w := Walk(e.bits + bits, e.waiters, e.info);
      WokenBelow(e.bits + bits, e.waiters, e.info);
      e.(bits := w.bits, waiters := w.kept, waiting := WakeThem(e.waiting, w.woken), info := NoteGot(e.info, w.woken))
  }

  function Received(e: State, t: Tid, r: Request, wait: bool): State
    requires Shape(e) && t < |e.waiting|
  {
    if r.want == {} then e
    else if Satisfied(r, e.bits) then
      e.(info := e.info[t := r.(want := r.want * e.bits)], bits := if r.clear then e.bits - r.want else e.bits)
    else if wait then
      e.(info := e.info[t := r], waiting := e.waiting[t := true], waiters := Suspend(e.waiters, t, e.prios, e.fifo))
    else e
  }

  predicate Enabled(e: State, op: Op) {
    match op
    case Send(_) => true
    case Recv(t, _, _) => t < |e.waiting| && !e.waiting[t]
    case Expire(t) => t < |e.waiting| && e.waiting[t]
    case Reset => true
  }

  function Step(e: State, op: Op): State
    requires Shape(e) && Enabled(e, op)
  {
    match op
    case Send(bits) => Sent(e, bits)
    case Recv(t, r, wait) => Received(e, t, r, wait)
    case Expire(t) => e.(waiting := e.waiting[t := false], waiters := Remove(e.waiters, t))
    case Reset => e.(bits := {}, waiting := seq(|e.waiting|, _ => false), waiters := [])
  }

  /** What callers are told to keep to: every receive asks with AND or with OR. */
  predicate Proper(op: Op) {
    op.Recv? ==> Asks(op.request)
  }

  ghost predicate Inv(e: State) {
    var sound :=
      && Shape(e) && NoneSatisfied(e.bits, e.waiters, e.info)
      && (forall i :: 0 <= i < |e.waiters| ==> Asks(e.info[e.waiters[i]]));
    sound
  }

  /** `rt_event_init`, before any thread has made a request */
  function NewEvent(info: seq<Request>, prios: seq<nat>, fifo: bool): State {
    State({}, [], seq(|info|, _ => false), info, prios, fifo)
  }

  lemma InitKeeps(info: seq<Request>, prios: seq<nat>, fifo: bool)
    requires |prios| == |info|
    ensures Inv(NewEvent(info, prios, fifo))
  {
    assert Shape(NewEvent(info, prios, fifo));
  }

  lemma SentShape(e: State, bits: Bits)
    requires Shape(e)
    ensures Shape(Sent(e, bits))
    ensures forall i :: 0 <= i < |Sent(e, bits).waiters| ==>
              Sent(e, bits).waiters[i] < |e.info| && Sent(e, bits).waiters[i] in e.waiters
              && Sent(e, bits).info[Sent(e, bits).waiters[i]] == e.info[Sent(e, bits).waiters[i]]
  {
    if bits != {} {
      var w := Walk(e.bits + bits, e.waiters, e.info);
      WalkContents(e.bits + bits, e.waiters, e.info);
      WokenBelow(e.bits + bits, e.waiters, e.info);
      forall i | 0 <= i < |w.kept| ensures w.kept[i] in e.waiters && NoteGot(e.info, w.woken)[w.kept[i]] == e.info[w.kept[i]] {
        assert w.kept[i] in w.kept;
      }
    }
  }

  /** A send keeps the promise as long as nobody who asks queues behind a thread that does not. */
  lemma SentLeavesNone(e: State, bits: Bits)
    requires Shape(e) && AskersFirst(e.waiters, e.info) && NoneSatisfied(e.bits, e.waiters, e.info)
    ensures AskersFirst(Sent(e, bits).waiters, Sent(e, bits).info)
    ensures NoneSatisfied(Sent(e, bits).bits, Sent(e, bits).waiters, Sent(e, bits).info)
  {
    SentShape(e, bits);
    if bits != {} {
      WalkLeavesNone(e.bits + bits, e.waiters, e.info);
    }
  }

  /** Taking bits satisfies nobody. */
  lemma RecvGets(e: State, t: Tid, r: Request, wait: bool)
    requires Inv(e) && t < |e.waiting| && !e.waiting[t] && r.want != {} && Satisfied(r, e.bits)
    ensures Inv(Received(e, t, r, wait))
  {
    var n := Received(e, t, r, wait);
    forall i | 0 <= i < |n.waiters| ensures !Satisfied(n.info[n.waiters[i]], n.bits) && Asks(n.info[n.waiters[i]]) {
      assert n.waiters[i] in e.waiters && n.info[n.waiters[i]] == e.info[e.waiters[i]];
      if Satisfied(n.info[n.waiters[i]], n.bits) {
        SatisfiedMonotone(n.info[n.waiters[i]], n.bits, e.bits);
      }
    }
  }

  /** A thread that has to wait is not satisfied. */
  lemma RecvWaits(e: State, t: Tid, r: Request)
    requires Inv(e) && t < |e.waiting| && !e.waiting[t] && Asks(r) && r.want != {} && !Satisfied(r, e.bits)
    ensures Inv(Received(e, t, r, true))
  {
    var n := Received(e, t, r, true);
    SuspendContents(e.waiters, t, e.prios, e.fifo);
    forall i | 0 <= i < |n.waiters| ensures !Satisfied(n.info[n.waiters[i]], n.bits) && Asks(n.info[n.waiters[i]]) {
      assert n.waiters[i] in n.waiters;
      if n.waiters[i] != t {
        assert n.waiters[i] in e.waiters;
      }
    }
  }

  lemma RecvKeeps(e: State, t: Tid, r: Request, wait: bool)
    requires Inv(e) && t < |e.waiting| && !e.waiting[t] && Asks(r)
    ensures Inv(Received(e, t, r, wait))
  {
    if r.want != {} {
      if Satisfied(r, e.bits) {
        RecvGets(e, t, r, wait);
      } else if wait {
        RecvWaits(e, t, r);
      }
    }
  }

  lemma ExpireKeeps(e: State, t: Tid)
    requires Inv(e) && t < |e.waiting| && e.waiting[t]
    ensures Inv(Step(e, Expire(t)))
  {
    RemoveContents(e.waiters, t);
    var r := Remove(e.waiters, t);
    forall i | 0 <= i < |r| ensures r[i] < |e.waiting| && !Satisfied(e.info[r[i]], e.bits) && Asks(e.info[r[i]]) {
      assert r[i] in r;
      var k :| 0 <= k < |e.waiters| && e.waiters[k] == r[i];
    }
  }

  /** After every send, receive, expiry and reset no suspended thread has a satisfied request. */
  lemma StepKeeps(e: State, op: Op)
    requires Inv(e) && Enabled(e, op) && Proper(op)
    ensures Inv(Step(e, op))
  {
    match op
    case Send(bits) =>
      SentShape(e, bits);
      SentLeavesNone(e, bits);
      forall i | 0 <= i < |Sent(e, bits).waiters| ensures Asks(Sent(e, bits).info[Sent(e, bits).waiters[i]]) {
        var k :| 0 <= k < |e.waiters| && e.waiters[k] == Sent(e, bits).waiters[i];
      }
    case Recv(t, r, wait) => RecvKeeps(e, t, r, wait);
    case Expire(t) => ExpireKeeps(e, t);
    case Reset =>
  }

  ghost predicate Follows(e: State, op: Op, r: State) {
    Enabled(e, op) && Proper(op) && (Shape(e) ==> r == Step(e, op))
  }

  lemma {:induction false} RunKeeps(es: seq<State>, ops: seq<Op>, i: nat)
    requires |es| == |ops| + 1 && Inv(es[0]) && i < |es|
    requires forall j, k :: 0 <= j < k < |es| && k == j + 1 ==> Follows(es[j], ops[j], es[k])
    ensures Inv(es[i])
  {
    if i > 0 {
      RunKeeps(es, ops, i - 1);
      assert Follows(es[i - 1], ops[i - 1], es[i]);
      StepKeeps(es[i - 1], ops[i - 1]);
    }
  }

  // ---------------------------------------------------------------------------------------------
  // What a send and a receive do

  lemma {:induction false} IdsDistinct(bits: Bits, list: seq<Tid>, info: seq<Request>)
    requires Below(list, |info|) && Distinct(list)
    ensures Distinct(Ids(Walk(bits, list, info).woken))
  {
    if list != [] && Asks(info[list[0]]) {
      HeadContents(list);
      var r := info[list[0]];
      var next := if Satisfied(r, bits) then Consume(r, bits) else bits;
      var w, rest := Walk(bits, list, info), Walk(next, list[1..], info);
      IdsDistinct(next, list[1..], info);
      WalkContents(next, list[1..], info);
      if Satisfied(r, bits) {
        assert w.woken[1..] == rest.woken && Ids(w.woken) == [list[0]] + Ids(rest.woken);
        assert list[0] !in Ids(rest.woken);
      }
    }
  }

  /** Each woken thread finds its own grant. */
  lemma {:induction false} NoteGotAt(info: seq<Request>, woken: seq<Grant>, g: Grant)
    requires Below(Ids(woken), |info|) && Distinct(Ids(woken)) && g in woken
    ensures g.t < |info| && NoteGot(info, woken)[g.t] == info[g.t].(want := g.got)
    decreases |woken|
  {
    var ids := Ids(woken);
    assert ids == [woken[0].t] + Ids(woken[1..]) && ids[0] == woken[0].t;
    IdsBelow(woken, |info|);
    HeadContents(ids);
    assert ids[1..] == Ids(woken[1..]);
    var next := info[woken[0].t := info[woken[0].t].(want := woken[0].got)];
    if g == woken[0] {
      assert g.t !in Ids(woken[1..]);
    } else {
      assert g in woken[1..];
      InIds(woken[1..], g);
      NoteGotAt(next, woken[1..], g);
    }
  }

  lemma {:induction false} InIds(woken: seq<Grant>, g: Grant)
    requires g in woken
    ensures g.t in Ids(woken)
  {
    if g != woken[0] {
      InIds(woken[1..], g);
    }
  }

  /** Which waiters a send lets go, what they find, and which bits are left. */
  lemma SendEffect(e: State, more: Bits, n: nat)
    requires Inv(e) && more != {} && n < |e.waiters|
    ensures Below(e.waiters, |e.info|) && Shape(Step(e, Send(more)))
    ensures var r, t, seen := Step(e, Send(more)), e.waiters[n], Seen(e.bits + more, e.waiters, e.info, n); var q := e.info[t];
      && t < |r.waiting| && t < |r.info| && t < |e.waiting|
      && r.bits == Seen(e.bits + more, e.waiters, e.info, |e.waiters|)
      && (!r.waiting[t] <==> if q.isAnd then q.want <= seen else q.want * seen != {})
      && r.info[t] == if r.waiting[t] then q else q.(want := q.want * seen)
  {
    var all, list, info := e.bits + more, e.waiters, e.info;
    var w, t := Walk(all, list, info), list[n];
    SentShape(e, more);
    WalkDecides(all, list, info, n);
    WokenBelow(all, list, info);
    IdsDistinct(all, list, info);
    WalkBits(all, list, info);
    assert list[..|list|] == list;
    assert t in list && e.waiting[t];
    if t in Ids(w.woken) {
      NoteGotAt(info, w.woken, Grant(t, info[t].want * Seen(all, list, info, n)));
    }
  }

  /** Nobody else is touched, and those that go on waiting keep their order. */
  lemma SendSpares(e: State, more: Bits, x: Tid, a: Tid, b: Tid)
    requires Inv(e) && x < |e.waiting| && x !in e.waiters
    ensures var r := Step(e, Send(more));
      && |r.waiting| == |e.waiting| && |r.info| == |e.info| == |e.waiting| && r.waiting[x] == e.waiting[x] && r.info[x] == e.info[x]
      && (a in r.waiters && b in r.waiters ==> (InFront(r.waiters, a, b) <==> InFront(e.waiters, a, b)))
  {
    if more != {} {
      WalkContents(e.bits + more, e.waiters, e.info);
      WokenBelow(e.bits + more, e.waiters, e.info);
      if a in Step(e, Send(more)).waiters && b in Step(e, Send(more)).waiters {
        WalkOrder(e.bits + more, e.waiters, e.info, a, b);
      }
    }
  }

  lemma {:induction false} WalkOrder(bits: Bits, list: seq<Tid>, info: seq<Request>, a: Tid, b: Tid)
    requires Below(list, |info|) && Distinct(list) && a in Walk(bits, list, info).kept && b in Walk(bits, list, info).kept
    ensures InFront(Walk(bits, list, info).kept, a, b) <==> InFront(list, a, b)
  {
    WalkContents(bits, list, info);
    if list != [] && Asks(info[list[0]]) {
      HeadContents(list);
      var h, r := list[0], info[list[0]];
      var next := if Satisfied(r, bits) then Consume(r, bits) else bits;
      var w, rest := Walk(bits, list, info), Walk(next, list[1..], info);
      FrontOfRest(list, a, b);
      if Satisfied(r, bits) {
        assert Ids(w.woken)[0] == h;
        WalkOrder(next, list[1..], info, a, b);
      } else {
        assert w.kept == [h] + rest.kept && w.kept[1..] == rest.kept && w.kept[0] == h;
        FrontOfRest(w.kept, a, b);
        if a != h && b != h {
          WalkOrder(next, list[1..], info, a, b);
        }
      }
    }
  }

  /** In a list without repetition: the head stands in front of all others, and the rest in the order of the rest. */
  lemma FrontOfRest(list: seq<Tid>, a: Tid, b: Tid)
    requires Distinct(list) && list != [] && a in list && b in list
    ensures InFront(list, a, b) <==> if a == list[0] then b != a else b != list[0] && InFront(list[1..], a, b)
  {
    HeadContents(list);
    if a == list[0] {
      if b != a {
        FrontAt(list, 0, IndexOf(list, b));
      }
    } else if b != list[0] {
      assert Remove(list, list[0]) == list[1..];
      RemoveOrder(list, list[0], a, b);
    }
  }

  /** A receive whose bits are there takes them, and clears all it asked for if it asked to; otherwise it waits with its request. */
  lemma RecvEffect(e: State, t: Tid, q: Request, wait: bool)
    requires Inv(e) && Enabled(e, Recv(t, q, wait)) && q.want != {}
    ensures var r := Step(e, Recv(t, q, wait)); var there := if q.isAnd then q.want <= e.bits else q.isOr && q.want * e.bits != {};
      && |r.info| == |e.info| == |e.waiting| == |r.waiting|
      && (there ==> r == e.(bits := if q.clear then e.bits - q.want else e.bits, info := e.info[t := q.(want := q.want * e.bits)]))
      && (!there && wait ==> r == e.(info := e.info[t := q], waiting := e.waiting[t := true], waiters := r.waiters)
                             && multiset(r.waiters) == multiset(e.waiters) + multiset{t})
      && (!there && !wait ==> r == e)
  {
    InsertContents(e.waiters, if e.fifo then |e.waiters| else Place(e.waiters, e.prios, e.prios[t]), t);
  }

  /** Under `RT_IPC_FLAG_PRIO` the waiters are in the order of priorities. */
  ghost predicate Ranked(e: State) {
    e.fifo || Sorted(e.waiters, e.prios)
  }

  lemma {:induction false} WalkSorted(bits: Bits, list: seq<Tid>, info: seq<Request>, prios: seq<nat>)
    requires Below(list, |info|) && Sorted(list, prios)
    ensures Sorted(Walk(bits, list, info).kept, prios)
    ensures forall x :: x in Walk(bits, list, info).kept ==> x in list
  {
    if list != [] && Asks(info[list[0]]) {
      var r := info[list[0]];
      var next := if Satisfied(r, bits) then Consume(r, bits) else bits;
      var rest := Walk(next, list[1..], info);
      TailSorted(list, prios);
      WalkSorted(next, list[1..], info, prios);
      if !Satisfied(r, bits) {
        forall i | 0 <= i < |rest.kept| ensures rest.kept[i] < |prios| && prios[list[0]] <= prios[rest.kept[i]] {
          assert rest.kept[i] in rest.kept && rest.kept[i] in list[1..];
          var k :| 0 < k < |list| && list[k] == rest.kept[i];
        }
      }
    }
  }

  /** Every step keeps the waiters in that order. */
  lemma StepKeepsRanked(e: State, op: Op)
    requires Inv(e) && Ranked(e) && Enabled(e, op)
    ensures Ranked(Step(e, op))
  {
    if !e.fifo {
      match op
      case Send(bits) => WalkSorted(e.bits + bits, e.waiters, e.info, e.prios);
      case Recv(t, _, _) => SuspendSorted(e.waiters, t, e.prios);
      case Expire(t) => RemoveSorted(e.waiters, t, e.prios);
      case Reset =>
    }
  }

  /** A waiter whose time is up leaves the queue, and the others keep their order. */
  lemma ExpireLeaves(e: State, t: Tid, a: Tid, b: Tid)
    requires Inv(e) && Enabled(e, Expire(t)) && a != t && b != t
    ensures var r := Step(e, Expire(t));
      && r == e.(waiting := e.waiting[t := false], waiters := r.waiters)
      && multiset(r.waiters) == multiset(e.waiters) - multiset{t}
      && (InFront(r.waiters, a, b) <==> InFront(e.waiters, a, b))
  {
    RemoveOrder(e.waiters, t, a, b);
    RemoveMultiset(e.waiters, t);
  }

  /** A reset wakes everybody and clears all bits. */
  lemma ResetWakesAll(e: State, t: Tid)
    requires Inv(e) && t < |e.waiting|
    ensures var r := Step(e, Reset);
      |r.waiting| == |e.waiting| && !r.waiting[t] && r == e.(bits := {}, waiting := r.waiting, waiters := [])
  {
  }

  /** A thread that has to wait is last in order of arrival, and behind exactly those at least as urgent by priority. */
  lemma RecvPlace(e: State, t: Tid, q: Request, w: Tid)
    requires Inv(e) && Ranked(e) && Enabled(e, Recv(t, q, true)) && q.want != {} && w in e.waiters
    requires if q.isAnd then !(q.want <= e.bits) else !q.isOr || q.want * e.bits == {}
    ensures var r := Step(e, Recv(t, q, true));
      w < |e.prios| && t < |e.prios| && (InFront(r.waiters, w, t) <==> e.fifo || e.prios[w] <= e.prios[t])
  {
    assert t !in e.waiters;
    SuspendPlace(e.waiters, t, e.prios, e.fifo, w);
  }

  // ---------------------------------------------------------------------------------------------
  // Requests without AND and OR

  /** The walk stops in front of a thread that gave neither AND nor OR; whoever is behind it stays. */
  lemma {:induction false} WalkStopsAt(bits: Bits, list: seq<Tid>, info: seq<Request>, i: nat, j: nat) returns (i': nat, j': nat)
    requires Below(list, |info|) && i < j < |list| && !Asks(info[list[i]])
    ensures var kept := Walk(bits, list, info).kept; i' < j' < |kept| && kept[i'] == list[i] && kept[j'] == list[j]
    ensures |Walk(bits, list, info).kept| + |Walk(bits, list, info).woken| == |list|
    ensures Walk(bits, list, info).woken == [] ==> Walk(bits, list, info).bits == bits
  {
    i', j' := i, j;
    if Asks(info[list[0]]) {
      var r := info[list[0]];
      if Satisfied(r, bits) {
        i', j' := WalkStopsAt(Consume(r, bits), list[1..], info, i - 1, j - 1);
      } else {
        i', j' := WalkStopsAt(bits, list[1..], info, i - 1, j - 1);
        i', j' := i' + 1, j' + 1;
      }
    }
  }

  function SentTimes(e: State, bits: Bits, k: nat): (r: State)
    requires Shape(e)
    ensures Shape(r)
  {
    if k == 0 then e
    else
      var before := SentTimes(e, bits, k - 1);
      SentShape(before, bits);
      Sent(before, bits)
  }

  lemma {:induction false} SentTimesShift(e: State, bits: Bits, k: nat)
    requires Shape(e)
    ensures Shape(Sent(e, bits)) && SentTimes(Sent(e, bits), bits, k) == SentTimes(e, bits, k + 1)
  {
    SentShape(e, bits);
    if k > 0 {
      SentTimesShift(e, bits, k - 1);
    }
  }

  lemma WantedBits(r: Request, bits: Bits)
    requires Asks(r) && r.want != {}
    ensures Satisfied(r, bits + r.want)
  {
    if !r.isAnd {
      assert r.want * (bits + r.want) == r.want;
    }
  }

  /** A thread that asks behind one that does not is left waiting although its request is satisfied. */
  lemma {:induction false} StuckBehind(e: State, i: nat, j: nat) returns (k: nat)
    requires Shape(e) && i < j < |e.waiters| && !Asks(e.info[e.waiters[i]]) && Asks(e.info[e.waiters[j]])
    ensures var v := e.waiters[j]; var r := SentTimes(e, e.info[v].want, k); v in r.waiters && Satisfied(r.info[v], r.bits)
    decreases |e.waiters|
  {
    var v := e.waiters[j];
    assert v in e.waiters;
    var want := e.info[v].want;
    var w := Walk(e.bits + want, e.waiters, e.info);
    var i', j' := WalkStopsAt(e.bits + want, e.waiters, e.info, i, j);
    var n := Sent(e, want);
    SentShape(e, want);
    assert n.waiters == w.kept && n.waiters[j'] in n.waiters && n.waiters[i'] in n.waiters;
    if Satisfied(n.info[v], n.bits) {
      k := 1;
      assert SentTimes(e, want, 0) == e;
    } else {
      WantedBits(e.info[v], e.bits);
      k := StuckBehind(n, i', j');
      SentTimesShift(e, want, k);
      k := k + 1;
    }
  }

  /** No number of sends of any bits leaves a suspended thread with a satisfied request. */
  ghost predicate Reliable(e: State)
    requires Shape(e)
  {
    forall bits: Bits, k: nat :: NoneSatisfied(SentTimes(e, bits, k).bits, SentTimes(e, bits, k).waiters, SentTimes(e, bits, k).info)
  }

  lemma {:induction false} SentTimesLeavesNone(e: State, bits: Bits, k: nat)
    requires Shape(e) && NoneSatisfied(e.bits, e.waiters, e.info) && AskersFirst(e.waiters, e.info)
    ensures var r := SentTimes(e, bits, k); NoneSatisfied(r.bits, r.waiters, r.info) && AskersFirst(r.waiters, r.info)
  {
    if k > 0 {
      SentTimesLeavesNone(e, bits, k - 1);
      SentLeavesNone(SentTimes(e, bits, k - 1), bits);
    }
  }

  /** Sends are reliable exactly when no thread that asks queues behind one that gave neither AND nor OR. */
  lemma ReliableIff(e: State)
    requires Shape(e) && NoneSatisfied(e.bits, e.waiters, e.info)
    ensures Reliable(e) <==> AskersFirst(e.waiters, e.info)
  {
    if AskersFirst(e.waiters, e.info) {
      forall bits: Bits, k: nat
        ensures NoneSatisfied(SentTimes(e, bits, k).bits, SentTimes(e, bits, k).waiters, SentTimes(e, bits, k).info)
      {
        SentTimesLeavesNone(e, bits, k);
      }
    } else {
      var i, j :| 0 <= i < j < |e.waiters| && Asks(e.info[e.waiters[j]]) && !Asks(e.info[e.waiters[i]]);
      var k := StuckBehind(e, i, j);
      var r := SentTimes(e, e.info[e.waiters[j]].want, k);
      var x :| 0 <= x < |r.waiters| && r.waiters[x] == e.waiters[j];
      assert !NoneSatisfied(r.bits, r.waiters, r.info);
    }
  }

  // ---------------------------------------------------------------------------------------------
  // The operations as the source performs them

  class EventObject {
    var bits: Bits
    var waiters: seq<Tid>
    var waiting: seq<bool>
    var info: seq<Request>
    const prios: seq<nat>
    const fifo: bool

    function Now(): State
      reads this
    {
      State(bits, waiters, waiting, info, prios, fifo)
    }

    /** Wakes waiter `n` with the bits it is granted. */
    method Wake(n: nat)
      requires Walkable(Now()) && n < |waiters|
      modifies this`bits, this`waiters, this`waiting, this`info
      ensures Now() == Woken(old(Now()), n)
    {
      var t := waiters[n];
      var r := info[t];
      var got := if r.isAnd then r.want else r.want * bits;
      info := info[t := r.(want := got)];
      if r.clear {
        bits := bits - got;
      }
      waiting := waiting[t := false];
      waiters := waiters[..n] + waiters[n + 1..];
    }

    /** The loop of `rt_event_send` over the waiters, with its early return. */
    method WalkWaiters() returns (ok: bool)
      requires Walkable(Now())
      modifies this`bits, this`waiters, this`waiting, this`info
      ensures Now() == Ahead(old(Now()), 0) && ok == AheadOk(old(Now()), 0)
    {
      ghost var e := Now();
      var n := 0;
      while n < |waiters|
        invariant 0 <= n <= |waiters| && Heading(Now(), n, e)
        decreases |waiters| - n
      {
        var r := info[waiters[n]];
        HeadingStep(Now(), n, e);
        var met := false;
        if r.isAnd {
          met := r.want <= bits;
        } else if r.isOr {
          met := r.want * bits != {};
        } else {
          return false;
        }
        if met {
          Wake(n);
        } else {
          n := n + 1;
        }
      }
      HeadingStep(Now(), n, e);
      return true;
    }

    /** `rt_event_send` */
    method SendBits(newBits: Bits) returns (ok: bool)
      requires Shape(Now())
      modifies this`bits, this`waiters, this`waiting, this`info
      ensures Shape(Now()) && Now() == Sent(old(Now()), newBits)
      ensures ok <==> newBits != {} && Walk(old(bits) + newBits, old(waiters), old(info)).ok
    {
      SentShape(Now(), newBits);
      if newBits == {} {
        return false;
      }
      WholeWalk(Now(), newBits);
      bits := bits + newBits;
      ok := WalkWaiters();
    }

    /** `rt_event_recv` by thread `t` up to where it has its bits, is suspended, or gives up. */
    method RecvBits(t: Tid, r: Request, wait: bool) returns (got: Option<Bits>)
      requires Shape(Now()) && t < |waiting| && !waiting[t]
      modifies this`bits, this`waiters, this`waiting, this`info
      ensures Now() == Received(old(Now()), t, r, wait)
      ensures got == if r.want != {} && Satisfied(r, old(bits)) then Some(r.want * old(bits)) else None
    {
      if r.want == {} {
        return None;
      }
      var met := if r.isAnd then r.want <= bits else r.isOr && r.want * bits != {};
      if met {
        got := Some(r.want * bits);
        info := info[t := r.(want := r.want * bits)];
        if r.clear {
          bits := bits - r.want;
        }
      } else {
        got := None;
        if wait {
          info := info[t := r];
          waiting := waiting[t := true];
          waiters := Suspend(waiters, t, prios, fifo);
        }
      }
    }
  }

  ghost predicate Walkable(e: State) {
    |e.waiting| == |e.info| && Below(e.waiters, |e.info|) && Distinct(e.waiters)
  }

  /** Where the walk will end when it has come to waiter `n`. */
  function Ahead(e: State, n: nat): State
    requires Walkable(e) && n <= |e.waiters|
  {
    var w := Walk(e.bits, e.waiters[n..], e.info);
    WokenBelow(e.bits, e.waiters[n..], e.info);
    e.(bits := w.bits, waiters := e.waiters[..n] + w.kept, waiting := WakeThem(e.waiting, w.woken), info := NoteGot(e.info, w.woken))
  }

  function AheadOk(e: State, n: nat): bool
    requires Walkable(e) && n <= |e.waiters|
  {
    Walk(e.bits, e.waiters[n..], e.info).ok
  }

  /** Waking waiter `n`: it is unlinked and finds its bits. */
  function Woken(e: State, n: nat): State
    requires Walkable(e) && n < |e.waiters|
  {
    var t := e.waiters[n];
    var r := e.info[t];
    e.(bits := Consume(r, e.bits), waiters := e.waiters[..n] + e.waiters[n + 1..],
       waiting := e.waiting[t := false], info := e.info[t := r.(want := Granted(r, e.bits))])
  }

  /** One round of the walk does not change where it will end. */
  lemma AheadStep(e: State, n: nat)
    requires Walkable(e) && n <= |e.waiters|
    ensures n == |e.waiters| ==> Ahead(e, n) == e && AheadOk(e, n)
    ensures n < |e.waiters| && !Asks(e.info[e.waiters[n]]) ==> Ahead(e, n) == e && !AheadOk(e, n)
    ensures n < |e.waiters| && Asks(e.info[e.waiters[n]]) && !Satisfied(e.info[e.waiters[n]], e.bits) ==>
              Ahead(e, n) == Ahead(e, n + 1) && AheadOk(e, n) == AheadOk(e, n + 1)
    ensures n < |e.waiters| && Satisfied(e.info[e.waiters[n]], e.bits) ==>
              var r := Woken(e, n); Walkable(r) && Ahead(e, n) == Ahead(r, n) && AheadOk(e, n) == AheadOk(r, n)
  {
    if n < |e.waiters| {
      assert e.waiters[n..][1..] == e.waiters[n + 1..];
      if !Asks(e.info[e.waiters[n]]) {
        assert e.waiters[..n] + e.waiters[n..] == e.waiters;
      } else if Satisfied(e.info[e.waiters[n]], e.bits) {
        WokenAhead(e, n);
      } else {
        assert e.waiters[..n + 1] == e.waiters[..n] + [e.waiters[n]];
      }
    } else {
      assert e.waiters[..n] == e.waiters;
    }
  }

  /** A send is the walk from the first waiter on. */
  lemma WholeWalk(e: State, more: Bits)
    requires Shape(e) && more != {}
    ensures var e0 := e.(bits := e.bits + more);
            && Walkable(e0) && Heading(e0, 0, e0)
            && Ahead(e0, 0) == Sent(e, more) && AheadOk(e0, 0) == Walk(e.bits + more, e.waiters, e.info).ok
  {
    assert e.waiters[0..] == e.waiters;
  }

  /** The walk that has come to waiter `n` of `e` ends as the whole walk over `e0` does. */
  ghost predicate Heading(e: State, n: nat, e0: State) {
    var heading :=
      && Walkable(e) && Walkable(e0) && n <= |e.waiters|
      && Ahead(e, n) == Ahead(e0, 0) && AheadOk(e, n) == AheadOk(e0, 0);
    heading
  }

  lemma HeadingStep(e: State, n: nat, e0: State)
    requires Heading(e, n, e0)
    ensures Walkable(e) && Walkable(e0) && n <= |e.waiters|
    ensures n == |e.waiters| ==> e == Ahead(e0, 0) && AheadOk(e0, 0)
    ensures n < |e.waiters| && !Asks(e.info[e.waiters[n]]) ==> e == Ahead(e0, 0) && !AheadOk(e0, 0)
    ensures n < |e.waiters| && Asks(e.info[e.waiters[n]]) && !Satisfied(e.info[e.waiters[n]], e.bits) ==> Heading(e, n + 1, e0)
    ensures n < |e.waiters| && Satisfied(e.info[e.waiters[n]], e.bits) ==> Heading(Woken(e, n), n, e0)
  {
    AheadStep(e, n);
  }

  lemma DropDistinct(list: seq<Tid>, n: nat, m: nat)
    requires Distinct(list) && Below(list, m) && n < |list|
    ensures Distinct(list[..n] + list[n + 1..]) && Below(list[..n] + list[n + 1..], m)
    ensures (list[..n] + list[n + 1..])[n..] == list[n + 1..] == list[n..][1..]
  {
    var rest := list[..n] + list[n + 1..];
    forall i | 0 <= i < |rest| ensures rest[i] == list[if i < n then i else i + 1] {
    }
  }

  lemma WokenAhead(e: State, n: nat)
    requires Walkable(e) && n < |e.waiters| && Asks(e.info[e.waiters[n]]) && Satisfied(e.info[e.waiters[n]], e.bits)
    ensures var r := Woken(e, n); Walkable(r) && Ahead(e, n) == Ahead(r, n) && AheadOk(e, n) == AheadOk(r, n)
  {
    var r, t := Woken(e, n), e.waiters[n];
    DropDistinct(e.waiters, n, |e.info|);
    var tail := e.waiters[n + 1..];
    WalkFrame(r.bits, tail, e.info, r.info);
    var w, rest := Walk(e.bits, e.waiters[n..], e.info), Walk(r.bits, tail, r.info);
    assert w == rest.(woken := [Grant(t, Granted(e.info[t], e.bits))] + rest.woken);
    assert w.woken[1..] == rest.woken;
    WokenBelow(e.bits, e.waiters[n..], e.info);
    IdsBelow(w.woken, |e.info|);
    assert WakeThem(e.waiting, w.woken) == WakeThem(r.waiting, rest.woken);
    assert NoteGot(e.info, w.woken) == NoteGot(r.info, rest.woken);
    assert r.waiters[..n] == e.waiters[..n];
  }

  lemma {:induction false} WalkFrame(bits: Bits, list: seq<Tid>, info: seq<Request>, info': seq<Request>)
    requires Below(list, |info|) && |info'| == |info| && forall i :: 0 <= i < |list| ==> info[list[i]] == info'[list[i]]
    ensures Walk(bits, list, info) == Walk(bits, list, info')
  {
    if list != [] && Asks(info[list[0]]) {
      WalkFrame(if Satisfied(info[list[0]], bits) then Consume(info[list[0]], bits) else bits, list[1..], info, info');
    }
  }
}
