/**
  The mailbox (`rt-thread/src/ipc.c`): a ring buffer of words with waiting senders and receivers.

  Every call is one critical section per attempt, so a thread is idle, suspended, or resumed and about to look again;
  the places of a thread and the bookkeeping of waiters are those of the message queue.
 */
module Mailbox {
  import opened Common
  import opened WaitList
  import opened MessageQueue

  /** `RT_MB_ENTRY_MAX` */
  const MAILS_MAX := 0xFFFF

  /** The fields of `struct rt_mailbox`. */
  datatype Mb = Mb(pool: seq<int>, entry: int, inOffset: nat, outOffset: nat)

  datatype Box = Box(mb: Mb, pcs: seq<Pc>, receivers: seq<Tid>, senders: seq<Tid>, prios: seq<nat>, fifo: bool)

  datatype MbOp =
    | MbSend(t: Tid, value: int, wait: bool)
    | MbSendRetry(t: Tid, wait: bool)
    | MbUrgent(t: Tid, value: int)
    | MbRecv(t: Tid, wait: bool)
    | MbExpire(t: Tid)
    | MbReset

  // ---------------------------------------------------------------------------------------------
  // The ring

  function Slot(from: nat, i: nat, size: nat): nat {
    if from + i < size then from + i else from + i - size
  }

  ghost predicate RingOk(m: Mb) {
    && 0 <= m.entry <= |m.pool| <= MAILS_MAX
    && (|m.pool| == 0 ==> m.inOffset == m.outOffset == 0)
    && (|m.pool| > 0 ==> m.outOffset < |m.pool| && m.inOffset == Slot(m.outOffset, m.entry, |m.pool|) < |m.pool|)
  }

  /** The mails in the order in which they will be received. */
  function Mails(m: Mb): (r: seq<int>)
    requires RingOk(m)
    ensures |r| == m.entry
    ensures forall i :: 0 <= i < m.entry ==> r[i] == m.pool[Slot(m.outOffset, i, |m.pool|)]
  {
    seq(m.entry, i requires 0 <= i < m.entry => m.pool[Slot(m.outOffset, i, |m.pool|)])
  }

  function Wrapped(offset: nat, size: nat): nat {
    if offset >= size then 0 else offset
  }

  function Put(m: Mb, value: int): Mb
    requires m.inOffset < |m.pool|
  {
    m.(pool := m.pool[m.inOffset := value], inOffset := Wrapped(m.inOffset + 1, |m.pool|),
       entry := if m.entry < MAILS_MAX then m.entry + 1 else m.entry)
  }

  function Rewound(m: Mb): nat
    requires |m.pool| > 0
  {
    if m.outOffset > 0 then m.outOffset - 1 else |m.pool| - 1
  }

  function PutFirst(m: Mb, value: int): Mb
    requires |m.pool| > 0 && Rewound(m) < |m.pool|
  {
    m.(pool := m.pool[Rewound(m) := value], outOffset := Rewound(m), entry := m.entry + 1)
  }

  function Get(m: Mb): Mb {
    m.(outOffset := Wrapped(m.outOffset + 1, |m.pool|), entry := if m.entry > 0 then m.entry - 1 else m.entry)
  }

  lemma PutMails(m: Mb, value: int)
    requires RingOk(m) && m.entry < |m.pool|
    ensures RingOk(Put(m, value)) && Mails(Put(m, value)) == Mails(m) + [value] && m.entry < MAILS_MAX
  {
    assert forall i :: 0 <= i < m.entry ==> Slot(m.outOffset, i, |m.pool|) != m.inOffset;
  }

  lemma PutFirstMails(m: Mb, value: int)
    requires RingOk(m) && m.entry < |m.pool|
    ensures RingOk(PutFirst(m, value)) && Mails(PutFirst(m, value)) == [value] + Mails(m)
  {
    var r := PutFirst(m, value);
    forall i | 0 <= i < m.entry
      ensures Slot(r.outOffset, i + 1, |m.pool|) == Slot(m.outOffset, i, |m.pool|) != Rewound(m)
    {
    }
  }

  lemma GetMails(m: Mb)
    requires RingOk(m) && m.entry > 0
    ensures RingOk(Get(m)) && m.outOffset < |m.pool|
    ensures Mails(m) == [m.pool[m.outOffset]] + Mails(Get(m))
  {
    var r := Get(m);
    forall i | 0 <= i < r.entry ensures Slot(r.outOffset, i, |m.pool|) == Slot(m.outOffset, i + 1, |m.pool|) {
    }
  }

  // ---------------------------------------------------------------------------------------------
  // Interleavings

  ghost predicate BoxInv(b: Box) {
    var good :=
      && RingOk(b.mb) && MailPcs(b.pcs)
      && |b.prios| == |b.pcs| && WaitersAre(b.receivers, b.pcs, true) && WaitersAre(b.senders, b.pcs, false)
      && (b.receivers != [] ==> b.mb.entry <= Tally(b.pcs, true))
      && (b.senders != [] ==> |b.mb.pool| - b.mb.entry <= Tally(b.pcs, false));
    good
  }

  /** A mailbox thread never holds a node; a sender carries one word. */
  predicate MailPc(pc: Pc) {
    pc.Idle? || pc.RecvWait? || pc.RecvResumed? || ((pc.SendWait? || pc.SendResumed?) && |pc.buf| == 1)
  }

  ghost predicate MailPcs(pcs: seq<Pc>) {
    forall t: Tid {:trigger MailPc(pcs[t])} :: t < |pcs| ==> MailPc(pcs[t])
  }

  /** `rt_mb_init`, with every thread elsewhere */
  function NewBox(pool: seq<int>, prios: seq<nat>, fifo: bool): Box {
    Box(Mb(pool, 0, 0, 0), seq(|prios|, _ => Idle), [], [], prios, fifo)
  }

  lemma MbInitKeeps(pool: seq<int>, prios: seq<nat>, fifo: bool)
    requires |pool| <= MAILS_MAX
    ensures BoxInv(NewBox(pool, prios, fifo)) && Mails(NewBox(pool, prios, fifo).mb) == []
  {
    var b := NewBox(pool, prios, fifo);
    assert RingOk(b.mb) && MailPcs(b.pcs);
    assert WaitersAre(b.receivers, b.pcs, true) && WaitersAre(b.senders, b.pcs, false);
  }

  predicate MbEnabled(b: Box, op: MbOp) {
    match op
    case MbSend(t, _, _) => t < |b.pcs| && b.pcs[t].Idle?
    case MbSendRetry(t, _) => t < |b.pcs| && b.pcs[t].SendResumed?
    case MbUrgent(t, _) => t < |b.pcs| && b.pcs[t].Idle?
    case MbRecv(t, _) => t < |b.pcs| && (b.pcs[t].Idle? || b.pcs[t].RecvResumed?)
    case MbExpire(t) => t < |b.pcs| && (b.pcs[t].SendWait? || b.pcs[t].RecvWait?)
    case MbReset => true
  }

  function MailReceiver(b: Box): Box
    requires Below(b.receivers, |b.pcs|)
  {
    if b.receivers == [] then b else b.(pcs := b.pcs[b.receivers[0] := RecvResumed], receivers := b.receivers[1..])
  }

  function RoomSender(b: Box): Box
    requires Below(b.senders, |b.pcs|) && (b.senders != [] ==> b.pcs[b.senders[0]].SendWait?)
  {
    if b.senders == [] then b
    else b.(pcs := b.pcs[b.senders[0] := SendResumed(b.pcs[b.senders[0]].buf)], senders := b.senders[1..])
  }

  /** `rt_mb_send_wait` from one look at the mailbox to the next. */
  function Deposit(b: Box, t: Tid, value: int, wait: bool): Box
    requires BoxInv(b) && t < |b.pcs|
  {
    if b.mb.entry == |b.mb.pool| then
      if wait then b.(pcs := b.pcs[t := SendWait([value])], senders := Suspend(b.senders, t, b.prios, b.fifo))
      else b.(pcs := b.pcs[t := Idle])
    else
      var r := b.(mb := Put(b.mb, value), pcs := b.pcs[t := Idle]);
      if b.mb.entry < MAILS_MAX then MailReceiver(r) else r
  }

  /** `rt_mb_recv` from one look at the mailbox to the next. */
  function Withdraw(b: Box, t: Tid, wait: bool): Box
    requires BoxInv(b) && t < |b.pcs| && (b.pcs[t].Idle? || b.pcs[t].RecvResumed?)
  {
    if b.mb.entry == 0 then
      if wait then b.(pcs := b.pcs[t := RecvWait], receivers := Suspend(b.receivers, t, b.prios, b.fifo))
      else b.(pcs := b.pcs[t := Idle])
    else
      FirstWaits(b.senders, b.pcs, t, false);
      RoomSender(b.(mb := Get(b.mb), pcs := b.pcs[t := Idle]))
  }

  /** `rt_mb_control` with `RT_IPC_CMD_RESET` */
  function Cleared(b: Box): Box
    requires Below(b.receivers, |b.pcs|) && Below(b.senders, |b.pcs|)
  {
    b.(mb := b.mb.(entry := 0, inOffset := 0, outOffset := 0),
       pcs := WakeAll(WakeAll(b.pcs, b.receivers), b.senders), receivers := [], senders := [])
  }

  function MbStep(b: Box, op: MbOp): Box
    requires BoxInv(b) && MbEnabled(b, op)
  {
    match op
    case MbSend(t, value, wait) => Deposit(b, t, value, wait)
    case MbSendRetry(t, wait) =>
      assert MailPc(b.pcs[t]);
      Deposit(b, t, b.pcs[t].buf[0], wait)
    case MbUrgent(t, value) =>
      if b.mb.entry == |b.mb.pool| then b else MailReceiver(b.(mb := PutFirst(b.mb, value)))
    case MbRecv(t, wait) => Withdraw(b, t, wait)
    case MbExpire(t) => b.(pcs := b.pcs[t := Idle], receivers := Remove(b.receivers, t), senders := Remove(b.senders, t))
    case MbReset => Cleared(b)
  }

  lemma MailPcsKeep(pcs: seq<Pc>, t: Tid, p: Pc)
    requires t < |pcs| && MailPc(p) && MailPcs(pcs)
    ensures MailPcs(pcs[t := p])
  {
    forall u: Tid | u < |pcs| && u != t ensures MailPc(pcs[u]) {
    }
  }

  /** Waking a receiver after a mail was put in. */
  lemma MailReceiverKeeps(b: Box)
    requires RingOk(b.mb) && |b.prios| == |b.pcs| && MailPcs(b.pcs)
    requires WaitersAre(b.receivers, b.pcs, true) && WaitersAre(b.senders, b.pcs, false)
    requires b.receivers != [] ==> b.mb.entry <= Tally(b.pcs, true) + 1
    requires b.senders != [] ==> |b.mb.pool| - b.mb.entry <= Tally(b.pcs, false)
    ensures BoxInv(MailReceiver(b))
  {
    if b.receivers != [] {
      var w := b.receivers[0];
      WaitersPop(b.receivers, b.pcs, RecvResumed, true);
      WaitersKeep(b.senders, b.pcs, w, RecvResumed, false);
      TallyUpdate(b.pcs, w, RecvResumed, true);
      TallyUpdate(b.pcs, w, RecvResumed, false);
      MailPcsKeep(b.pcs, w, RecvResumed);
    }
  }

  lemma RoomSenderKeeps(b: Box)
    requires RingOk(b.mb) && |b.prios| == |b.pcs| && MailPcs(b.pcs)
    requires WaitersAre(b.receivers, b.pcs, true) && WaitersAre(b.senders, b.pcs, false)
    requires b.receivers != [] ==> b.mb.entry <= Tally(b.pcs, true)
    requires b.senders != [] ==> |b.mb.pool| - b.mb.entry <= Tally(b.pcs, false) + 1 && b.pcs[b.senders[0]].SendWait?
    ensures BoxInv(RoomSender(b))
  {
    if b.senders != [] {
      var w := b.senders[0];
      var p := SendResumed(b.pcs[w].buf);
      assert MailPc(b.pcs[w]);
      WaitersPop(b.senders, b.pcs, p, false);
      WaitersKeep(b.receivers, b.pcs, w, p, true);
      TallyUpdate(b.pcs, w, p, true);
      TallyUpdate(b.pcs, w, p, false);
      MailPcsKeep(b.pcs, w, p);
    }
  }

  lemma GoIdle(b: Box, t: Tid)
    requires BoxInv(b) && t < |b.pcs| && (b.pcs[t].Idle? || b.pcs[t].SendResumed? || b.pcs[t].RecvResumed?)
    ensures WaitersAre(b.receivers, b.pcs[t := Idle], true) && WaitersAre(b.senders, b.pcs[t := Idle], false)
    ensures MailPcs(b.pcs[t := Idle])
    ensures Tally(b.pcs[t := Idle], true) == Tally(b.pcs, true) - (if b.pcs[t].RecvResumed? then 1 else 0)
    ensures Tally(b.pcs[t := Idle], false) == Tally(b.pcs, false) - (if b.pcs[t].SendResumed? then 1 else 0)
  {
    WaitersKeep(b.receivers, b.pcs, t, Idle, true);
    WaitersKeep(b.senders, b.pcs, t, Idle, false);
    TallyUpdate(b.pcs, t, Idle, true);
    TallyUpdate(b.pcs, t, Idle, false);
    MailPcsKeep(b.pcs, t, Idle);
  }

  /** A sender that has to wait leaves everybody else where they are. */
  lemma SenderParks(b: Box, t: Tid, p: Pc)
    requires BoxInv(b) && t < |b.pcs| && (b.pcs[t].Idle? || b.pcs[t].SendResumed?) && p.SendWait? && MailPc(p)
    ensures WaitersAre(b.receivers, b.pcs[t := p], true)
    ensures WaitersAre(Suspend(b.senders, t, b.prios, b.fifo), b.pcs[t := p], false)
    ensures Tally(b.pcs[t := p], true) == Tally(b.pcs, true) && MailPcs(b.pcs[t := p])
  {
    WaitersKeep(b.receivers, b.pcs, t, p, true);
    WaitersJoin(b.senders, b.pcs, t, p, b.prios, b.fifo, false);
    TallyUpdate(b.pcs, t, p, true);
    MailPcsKeep(b.pcs, t, p);
  }

  lemma ParkedKeeps(b: Box, t: Tid, p: Pc, list: seq<Tid>)
    requires BoxInv(b) && t < |b.pcs| && b.mb.entry == |b.mb.pool|
    requires WaitersAre(b.receivers, b.pcs[t := p], true) && WaitersAre(list, b.pcs[t := p], false)
    requires Tally(b.pcs[t := p], true) == Tally(b.pcs, true) && MailPcs(b.pcs[t := p])
    ensures BoxInv(b.(pcs := b.pcs[t := p], senders := list))
  {
  }

  lemma DepositWaits(b: Box, t: Tid, value: int, wait: bool)
    requires BoxInv(b) && t < |b.pcs| && (b.pcs[t].Idle? || b.pcs[t].SendResumed?)
    requires b.mb.entry == |b.mb.pool| && wait
    ensures BoxInv(Deposit(b, t, value, wait))
  {
    var p := SendWait([value]);
    SenderParks(b, t, p);
    ParkedKeeps(b, t, p, Suspend(b.senders, t, b.prios, b.fifo));
  }

  lemma DepositRefused(b: Box, t: Tid, value: int)
    requires BoxInv(b) && t < |b.pcs| && (b.pcs[t].Idle? || b.pcs[t].SendResumed?) && b.mb.entry == |b.mb.pool|
    ensures BoxInv(Deposit(b, t, value, false))
  {
    GoIdle(b, t);
  }

  lemma DepositStores(b: Box, t: Tid, value: int, wait: bool)
    requires BoxInv(b) && t < |b.pcs| && (b.pcs[t].Idle? || b.pcs[t].SendResumed?) && b.mb.entry != |b.mb.pool|
    ensures BoxInv(Deposit(b, t, value, wait))
  {
    GoIdle(b, t);
    PutMails(b.mb, value);
    var u := b.(mb := Put(b.mb, value), pcs := b.pcs[t := Idle]);
    assert u.mb.entry == b.mb.entry + 1 && |u.mb.pool| == |b.mb.pool|;
    MailReceiverKeeps(u);
    assert Deposit(b, t, value, wait) == MailReceiver(u);
  }

  lemma DepositKeeps(b: Box, t: Tid, value: int, wait: bool)
    requires BoxInv(b) && t < |b.pcs| && (b.pcs[t].Idle? || b.pcs[t].SendResumed?)
    ensures BoxInv(Deposit(b, t, value, wait))
  {
    if b.mb.entry != |b.mb.pool| {
      DepositStores(b, t, value, wait);
    } else if wait {
      DepositWaits(b, t, value, wait);
    } else {
      DepositRefused(b, t, value);
    }
  }

  lemma WithdrawKeeps(b: Box, t: Tid, wait: bool)
    requires BoxInv(b) && t < |b.pcs| && (b.pcs[t].Idle? || b.pcs[t].RecvResumed?)
    ensures BoxInv(Withdraw(b, t, wait))
  {
    if b.mb.entry == 0 && wait {
      WaitersKeep(b.senders, b.pcs, t, RecvWait, false);
      WaitersJoin(b.receivers, b.pcs, t, RecvWait, b.prios, b.fifo, true);
      TallyUpdate(b.pcs, t, RecvWait, false);
      MailPcsKeep(b.pcs, t, RecvWait);
    } else {
      GoIdle(b, t);
      if b.mb.entry != 0 {
        GetMails(b.mb);
        FirstWaits(b.senders, b.pcs, t, false);
        RoomSenderKeeps(b.(mb := Get(b.mb), pcs := b.pcs[t := Idle]));
      }
    }
  }

  lemma MbExpireKeeps(b: Box, t: Tid)
    requires BoxInv(b) && t < |b.pcs| && (b.pcs[t].SendWait? || b.pcs[t].RecvWait?)
    ensures BoxInv(MbStep(b, MbExpire(t)))
  {
    WaitersLeave(b.receivers, b.pcs, t, Idle, true);
    WaitersLeave(b.senders, b.pcs, t, Idle, false);
    RemoveContents(b.receivers, t);
    RemoveContents(b.senders, t);
    TallyUpdate(b.pcs, t, Idle, true);
    TallyUpdate(b.pcs, t, Idle, false);
    MailPcsKeep(b.pcs, t, Idle);
  }

  lemma NoneWaits(pcs: seq<Pc>, receivers: seq<Tid>, senders: seq<Tid>)
    requires WaitersAre(receivers, pcs, true) && WaitersAre(senders, pcs, false) && MailPcs(pcs)
    ensures var r := WakeAll(WakeAll(pcs, receivers), senders);
            MailPcs(r) && WaitersAre([], r, true) && WaitersAre([], r, false) && |r| == |pcs|
  {
    ResetThreads(pcs, receivers, senders);
    var r := WakeAll(WakeAll(pcs, receivers), senders);
    forall u: Tid | u < |pcs| ensures MailPc(r[u]) {
      assert MailPc(pcs[u]);
    }
  }

  lemma MbResetKeeps(b: Box)
    requires BoxInv(b)
    ensures BoxInv(Cleared(b)) && Mails(Cleared(b).mb) == []
  {
    NoneWaits(b.pcs, b.receivers, b.senders);
  }

  /** Every step keeps the ring in order and loses no wakeup, in either direction. */
  lemma MbStepKeeps(b: Box, op: MbOp)
    requires BoxInv(b) && MbEnabled(b, op)
    ensures BoxInv(MbStep(b, op))
  {
    match op
    case MbSend(t, value, wait) => DepositKeeps(b, t, value, wait);
    case MbSendRetry(t, wait) =>
      assert MailPc(b.pcs[t]);
      DepositKeeps(b, t, b.pcs[t].buf[0], wait);
    case MbUrgent(t, value) =>
      if b.mb.entry != |b.mb.pool| {
        PutFirstMails(b.mb, value);
        MailReceiverKeeps(b.(mb := PutFirst(b.mb, value)));
      }
    case MbRecv(t, wait) => WithdrawKeeps(b, t, wait);
    case MbExpire(t) => MbExpireKeeps(b, t);
    case MbReset => MbResetKeeps(b);
  }

  /** What each step does to the mails: a bounded deque. */
  lemma MbStepRefines(b: Box, op: MbOp)
    requires BoxInv(b) && MbEnabled(b, op)
    ensures RingOk(MbStep(b, op).mb)
    ensures var before, after, full := Mails(b.mb), Mails(MbStep(b, op).mb), b.mb.entry == |b.mb.pool|;
            match op
            case MbSend(_, value, _) => after == if full then before else before + [value]
            case MbSendRetry(t, _) => |b.pcs[t].buf| == 1 && after == if full then before else before + b.pcs[t].buf
            case MbUrgent(_, value) => after == if full then before else [value] + before
            case MbRecv(_, _) => if before == [] then after == [] else b.mb.outOffset < |b.mb.pool| && before == [b.mb.pool[b.mb.outOffset]] + after
            case MbExpire(_) => after == before
            case MbReset => after == []
  {
    MbStepKeeps(b, op);
    match op
    case MbSend(_, value, _) =>
      if b.mb.entry != |b.mb.pool| {
        PutMails(b.mb, value);
      }
    case MbSendRetry(t, _) =>
      assert MailPc(b.pcs[t]);
      if b.mb.entry != |b.mb.pool| {
        PutMails(b.mb, b.pcs[t].buf[0]);
        assert b.pcs[t].buf == [b.pcs[t].buf[0]];
      }
    case MbUrgent(_, value) =>
      if b.mb.entry != |b.mb.pool| {
        PutFirstMails(b.mb, value);
      }
    case MbRecv(_, _) =>
      if b.mb.entry != 0 {
        GetMails(b.mb);
      }
    case MbExpire(_) =>
    case MbReset =>
  }

  ghost predicate MbFollows(b: Box, op: MbOp, r: Box) {
    MbEnabled(b, op) && (BoxInv(b) ==> r == MbStep(b, op))
  }

  lemma MbFollowsKeeps(b: Box, op: MbOp, r: Box)
    requires BoxInv(b) && MbFollows(b, op, r)
    ensures BoxInv(r)
  {
    MbStepKeeps(b, op);
  }

  lemma {:induction false} MbRunKeeps(bs: seq<Box>, ops: seq<MbOp>, i: nat)
    requires |bs| == |ops| + 1 && BoxInv(bs[0]) && i < |bs|
    requires forall j, k :: 0 <= j < k < |bs| && k == j + 1 ==> MbFollows(bs[j], ops[j], bs[k])
    ensures BoxInv(bs[i])
  {
    if i > 0 {
      MbRunKeeps(bs, ops, i - 1);
      MbFollowsKeeps(bs[i - 1], ops[i - 1], bs[i]);
    }
  }

  // ---------------------------------------------------------------------------------------------
  // Whose mail it is, and who waits in front of whom

  /** The thread is in the middle of a send. */
  predicate Sending(pc: Pc) {
    pc.SendWait? || pc.SendResumed?
  }

  /** When thread `t` is in the middle of a send, it is the send of `value`. */
  ghost predicate Holding(b: Box, t: Tid, value: int) {
    t < |b.pcs| && (Sending(b.pcs[t]) ==> b.pcs[t].buf == [value])
  }

  /** A send that finds room is done; at a full mailbox it waits with its value, or returns. */
  lemma MbSendEffect(b: Box, t: Tid, value: int, wait: bool)
    requires BoxInv(b) && MbEnabled(b, MbSend(t, value, wait))
    ensures var r, full := MbStep(b, MbSend(t, value, wait)), b.mb.entry == |b.mb.pool|;
      && |r.pcs| == |b.pcs|
      && r.pcs[t] == (if full && wait then SendWait([value]) else Idle)
      && (full ==> r.mb == b.mb && forall u: Tid :: u < |b.pcs| && u != t ==> r.pcs[u] == b.pcs[u])
      && (full && wait ==> t in r.senders) && (full && !wait ==> r.senders == b.senders)
  {
    BoxBelow(b);
    if b.mb.entry == |b.mb.pool| && wait {
      SuspendContents(b.senders, t, b.prios, b.fifo);
    }
    FirstMailReceiver(b, t);
  }

  /** A receive that finds a mail is done; at an empty mailbox it waits, or returns. */
  lemma MbRecvEffect(b: Box, t: Tid, wait: bool)
    requires BoxInv(b) && MbEnabled(b, MbRecv(t, wait))
    ensures var r, none := MbStep(b, MbRecv(t, wait)), b.mb.entry == 0;
      && |r.pcs| == |b.pcs|
      && r.pcs[t] == (if none && wait then RecvWait else Idle)
      && (none ==> r.mb == b.mb && forall u: Tid :: u < |b.pcs| && u != t ==> r.pcs[u] == b.pcs[u])
      && (none && wait ==> t in r.receivers) && (none && !wait ==> r.receivers == b.receivers)
  {
    if b.mb.entry == 0 {
      BoxBelow(b);
      SuspendContents(b.receivers, t, b.prios, b.fifo);
    } else {
      GetsMail(b, t, wait);
    }
  }

  lemma GetsMail(b: Box, t: Tid, wait: bool)
    requires BoxInv(b) && MbEnabled(b, MbRecv(t, wait)) && b.mb.entry > 0
    ensures |Withdraw(b, t, wait).pcs| == |b.pcs| && Withdraw(b, t, wait).pcs[t] == Idle
  {
    FirstWaits(b.senders, b.pcs, t, false);
    var r := b.(mb := Get(b.mb), pcs := b.pcs[t := Idle]);
    assert Withdraw(b, t, wait) == RoomSender(r);
    if b.senders != [] {
      assert RoomSender(r).pcs == r.pcs[b.senders[0] := SendResumed(r.pcs[b.senders[0]].buf)];
    }
  }

  /** A timeout ends the waiting of exactly that thread, and a reset that of every thread. */
  lemma MbEndsWaiting(b: Box, t: Tid)
    requires BoxInv(b) && t < |b.pcs|
    ensures MbEnabled(b, MbExpire(t)) ==>
              var r := MbStep(b, MbExpire(t));
              && r.mb == b.mb && r.pcs == b.pcs[t := Idle]
              && (forall u :: u in r.receivers <==> u in b.receivers && u != t)
              && (forall u :: u in r.senders <==> u in b.senders && u != t)
    ensures var r := MbStep(b, MbReset);
            && |r.pcs| == |b.pcs| && r.pcs[t] == (if b.pcs[t].SendWait? || b.pcs[t].RecvWait? then Idle else b.pcs[t])
            && r.receivers == [] && r.senders == []
  {
    RemoveContents(b.receivers, t);
    RemoveContents(b.senders, t);
    assert t in b.receivers || t in b.senders <==> Waits(b.pcs[t], true) || Waits(b.pcs[t], false);
  }

  lemma BoxBelow(b: Box)
    requires BoxInv(b)
    ensures |b.prios| == |b.pcs| && Below(b.receivers, |b.prios|) && Below(b.senders, |b.prios|)
  {
  }

  lemma FirstMailReceiver(b: Box, t: Tid)
    requires BoxInv(b) && t < |b.pcs|
    ensures b.receivers != [] ==> b.receivers[0] < |b.pcs| && b.pcs[b.receivers[0]].RecvWait?
  {
    assert b.receivers != [] ==> b.receivers[0] in b.receivers;
  }

  /** No other step changes the value that a thread is sending. */
  lemma HoldingKept(b: Box, op: MbOp, t: Tid, value: int)
    requires BoxInv(b) && MbEnabled(b, op) && Holding(b, t, value) && !(op.MbSend? && op.t == t)
    ensures Holding(MbStep(b, op), t, value)
  {
    FirstMailReceiver(b, t);
    match op
    case MbSend(u, v, wait) =>
    case MbSendRetry(u, wait) => assert MailPc(b.pcs[u]);
    case MbUrgent(u, v) =>
    case MbRecv(u, wait) => FirstWaits(b.senders, b.pcs, u, false);
    case MbExpire(u) =>
    case MbReset =>
  }

  /** Step `i` is the send of `value` by `t`, and up to state `k` it does not call another. */
  ghost predicate MbSent(bs: seq<Box>, ops: seq<MbOp>, i: nat, k: nat, t: Tid, value: int) {
    var sent :=
      && |bs| == |ops| + 1 && BoxInv(bs[0]) && i < k < |bs|
      && (forall j, l :: 0 <= j < l < |bs| && l == j + 1 ==> MbFollows(bs[j], ops[j], bs[l]))
      && ops[i].MbSend? && ops[i].t == t && ops[i].value == value
      && (forall j :: i < j < k ==> !(ops[j].MbSend? && ops[j].t == t));
    sent
  }

  lemma MbSentStep(bs: seq<Box>, ops: seq<MbOp>, i: nat, k: nat, t: Tid, value: int)
    requires MbSent(bs, ops, i, k, t, value)
    ensures i < k < |bs| == |ops| + 1 && BoxInv(bs[k - 1]) && MbFollows(bs[k - 1], ops[k - 1], bs[k])
    ensures ops[i].MbSend? && ops[i].t == t && ops[i].value == value
    ensures k > i + 1 ==> MbSent(bs, ops, i, k - 1, t, value) && !(ops[k - 1].MbSend? && ops[k - 1].t == t)
  {
    MbRunKeeps(bs, ops, k - 1);
  }

  lemma MbSendHolds(b: Box, op: MbOp, r: Box)
    requires BoxInv(b) && MbFollows(b, op, r) && op.MbSend?
    ensures Holding(r, op.t, op.value)
  {
    MbSendEffect(b, op.t, op.value, op.wait);
  }

  lemma MbStepHolds(b: Box, op: MbOp, r: Box, t: Tid, value: int)
    requires BoxInv(b) && MbFollows(b, op, r) && !(op.MbSend? && op.t == t) && Holding(b, t, value)
    ensures Holding(r, t, value)
  {
    HoldingKept(b, op, t, value);
  }

  lemma {:induction false} HoldsLast(bs: seq<Box>, ops: seq<MbOp>, i: nat, k: nat, t: Tid, value: int)
    requires MbSent(bs, ops, i, k, t, value)
    ensures k < |bs| && Holding(bs[k], t, value)
  {
    MbSentStep(bs, ops, i, k, t, value);
    if k == i + 1 {
      MbSendHolds(bs[k - 1], ops[k - 1], bs[k]);
    } else {
      HoldsLast(bs, ops, i, k - 1, t, value);
      MbStepHolds(bs[k - 1], ops[k - 1], bs[k], t, value);
    }
  }

  /** The mails with `value` behind them, if there was room. */
  ghost predicate Appends(b: Box, r: Box, value: int) {
    && RingOk(b.mb) && RingOk(r.mb)
    && Mails(r.mb) == if b.mb.entry == |b.mb.pool| then Mails(b.mb) else Mails(b.mb) + [value]
  }

  lemma RetryAppends(b: Box, r: Box, t: Tid, wait: bool, value: int)
    requires BoxInv(b) && MbFollows(b, MbSendRetry(t, wait), r) && Holding(b, t, value)
    ensures Appends(b, r, value)
  {
    MbStepRefines(b, MbSendRetry(t, wait));
  }

  /** Over any run: when a sender that had to wait finds room, it appends the value of its last send. */
  lemma AppendsLastSend(bs: seq<Box>, ops: seq<MbOp>, i: nat, k: nat, t: Tid, wait: bool, value: int)
    requires MbSent(bs, ops, i, k, t, value) && k < |ops| && |bs| == |ops| + 1 && ops[k] == MbSendRetry(t, wait)
    ensures Appends(bs[k], bs[k + 1], value)
  {
    HoldsLast(bs, ops, i, k, t, value);
    MbRunKeeps(bs, ops, k);
    assert MbFollows(bs[k], ops[k], bs[k + 1]);
    RetryAppends(bs[k], bs[k + 1], t, wait, value);
  }

  ghost predicate MbRanked(b: Box) {
    b.fifo || (Sorted(b.receivers, b.prios) && Sorted(b.senders, b.prios))
  }

  /** Every step keeps both queues in the order of priorities. */
  lemma MbStepKeepsRanked(b: Box, op: MbOp)
    requires BoxInv(b) && MbRanked(b) && MbEnabled(b, op)
    ensures MbRanked(MbStep(b, op))
  {
    BoxBelow(b);
    if !b.fifo {
      if b.receivers != [] {
        TailSorted(b.receivers, b.prios);
      }
      if b.senders != [] {
        TailSorted(b.senders, b.prios);
      }
      match op
      case MbSend(t, _, _) => SuspendSorted(b.senders, t, b.prios);
      case MbSendRetry(t, _) =>
        assert MailPc(b.pcs[t]);
        SuspendSorted(b.senders, t, b.prios);
      case MbUrgent(_, _) =>
      case MbRecv(t, _) =>
        FirstWaits(b.senders, b.pcs, t, false);
        SuspendSorted(b.receivers, t, b.prios);
      case MbExpire(t) =>
        RemoveSorted(b.receivers, t, b.prios);
        RemoveSorted(b.senders, t, b.prios);
      case MbReset =>
    }
  }

  /** A sender that has to wait is last in order of arrival, and behind exactly those at least as urgent by priority. */
  lemma MbSenderWaits(b: Box, op: MbOp, w: Tid)
    requires BoxInv(b) && MbRanked(b) && MbEnabled(b, op) && (op.MbSend? || op.MbSendRetry?)
    requires b.mb.entry == |b.mb.pool| && op.wait && w in b.senders
    ensures var r := MbStep(b, op);
      && multiset(r.senders) == multiset(b.senders) + multiset{op.t}
      && w < |b.prios| && op.t < |b.prios| && (InFront(r.senders, w, op.t) <==> b.fifo || b.prios[w] <= b.prios[op.t])
  {
    BoxBelow(b);
    assert op.t !in b.senders;
    SuspendPlace(b.senders, op.t, b.prios, b.fifo, w);
    InsertContents(b.senders, if b.fifo then |b.senders| else Place(b.senders, b.prios, b.prios[op.t]), op.t);
  }

  /** The same for a receiver. */
  lemma MbReceiverWaits(b: Box, t: Tid, w: Tid)
    requires BoxInv(b) && MbRanked(b) && MbEnabled(b, MbRecv(t, true)) && b.mb.entry == 0 && w in b.receivers
    ensures var r := MbStep(b, MbRecv(t, true));
      && multiset(r.receivers) == multiset(b.receivers) + multiset{t}
      && w < |b.prios| && t < |b.prios| && (InFront(r.receivers, w, t) <==> b.fifo || b.prios[w] <= b.prios[t])
  {
    BoxBelow(b);
    assert t !in b.receivers;
    SuspendPlace(b.receivers, t, b.prios, b.fifo, w);
    InsertContents(b.receivers, if b.fifo then |b.receivers| else Place(b.receivers, b.prios, b.prios[t]), t);
  }

  /** A mail put in wakes the first receiver, and a mail taken out the first sender, which keeps its value. */
  lemma MbWakesFirst(b: Box, op: MbOp)
    requires BoxInv(b) && MbEnabled(b, op)
    ensures (op.MbSend? || op.MbSendRetry? || op.MbUrgent?) && b.mb.entry < |b.mb.pool| && b.receivers != [] ==>
              var r := MbStep(b, op); |r.pcs| == |b.pcs| && b.receivers[0] < |b.pcs| && r.pcs[b.receivers[0]].RecvResumed? && r.receivers == b.receivers[1..]
    ensures op.MbRecv? && b.mb.entry > 0 && b.senders != [] ==>
              var r, w := MbStep(b, op), b.senders[0];
              |r.pcs| == |b.pcs| && w < |b.pcs| && b.pcs[w].SendWait? && r.pcs[w] == SendResumed(b.pcs[w].buf) && r.senders == b.senders[1..]
  {
    BoxBelow(b);
    if op.MbSend? || op.MbSendRetry? || op.MbUrgent? {
      FirstMailReceiver(b, op.t);
    }
    if op.MbRecv? {
      FirstWaits(b.senders, b.pcs, op.t, false);
    }
  }

  // ---------------------------------------------------------------------------------------------
  // The ring operations as the source performs them

  class MailboxObject {
    const pool: array<int>
    var entry: int
    var inOffset: nat
    var outOffset: nat

    function Now(): Mb
      reads this, pool
    {
      Mb(pool[..], entry, inOffset, outOffset)
    }

    ghost predicate Valid()
      reads this, pool
    {
      RingOk(Now())
    }

    constructor (size: nat)
      requires size <= MAILS_MAX
      ensures Valid() && fresh(pool) && pool.Length == size && Now() == Mb(pool[..], 0, 0, 0)
    {
      pool := new int[size];
      entry, inOffset, outOffset := 0, 0, 0;
    }

    /** `rt_mb_send_wait` without waiting. */
    method Send(value: int) returns (ok: bool)
      requires Valid()
      modifies this`entry, this`inOffset, pool
      ensures Valid() && ok == (old(entry) < pool.Length)
      ensures Mails(Now()) == if ok then old(Mails(Now())) + [value] else old(Mails(Now()))
      ensures ok ==> Now() == Put(old(Now()), value)
    {
      if entry == pool.Length {
        return false;
      }
      PutMails(Now(), value);
      ghost var m := Now();
      pool[inOffset] := value;
      inOffset := inOffset + 1;
      if inOffset >= pool.Length {
        inOffset := 0;
      }
      ok := entry < MAILS_MAX;
      entry := if ok then entry + 1 else entry;
      assert Now() == Put(m, value);
    }

    /** `rt_mb_urgent` */
    method Urgent(value: int) returns (ok: bool)
      requires Valid()
      modifies this`entry, this`outOffset, pool
      ensures Valid() && ok == (old(entry) < pool.Length)
      ensures Mails(Now()) == if ok then [value] + old(Mails(Now())) else old(Mails(Now()))
      ensures ok ==> Now() == PutFirst(old(Now()), value)
    {
      if entry == pool.Length {
        return false;
      }
      PutFirstMails(Now(), value);
      ghost var m := Now();
      if outOffset > 0 {
        outOffset := outOffset - 1;
      } else {
        outOffset := pool.Length - 1;
      }
      pool[outOffset] := value;
      entry := entry + 1;
      assert Now() == PutFirst(m, value);
      return true;
    }

    /** `rt_mb_recv` without waiting. */
    method Recv() returns (value: Option<int>)
      requires Valid()
      modifies this`entry, this`outOffset
      ensures Valid() && (value.None? <==> old(entry) == 0)
      ensures value.None? ==> Now() == old(Now())
      ensures value.Some? ==> old(Mails(Now())) == [value.value] + Mails(Now()) && Now() == Get(old(Now()))
    {
      if entry == 0 {
        return None;
      }
      GetMails(Now());
      value := Some(pool[outOffset]);
      outOffset := outOffset + 1;
      if outOffset >= pool.Length {
        outOffset := 0;
      }
      if entry > 0 {
        entry := entry - 1;
      }
    }
  }
}
