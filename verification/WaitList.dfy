/** Queues of suspended threads as `_ipc_list_suspend` and `rt_thread_resume` keep them (`rt-thread/src/ipc.c`). */
module WaitList {
  import opened Common

  type Tid = nat

  /** In front of the first thread that is strictly less urgent. */
  function Place(list: seq<Tid>, prios: seq<nat>, prio: nat): (i: nat)
    requires Below(list, |prios|)
    ensures i <= |list|
    ensures forall k :: 0 <= k < i ==> prios[list[k]] <= prio
    ensures i < |list| ==> prio < prios[list[i]]
  {
    if list == [] || prio < prios[list[0]] then 0 else 1 + Place(list[1..], prios, prio)
  }

  function Suspend(list: seq<Tid>, t: Tid, prios: seq<nat>, fifo: bool): (r: seq<Tid>)
    requires Below(list, |prios|) && t < |prios|
    ensures |r| == |list| + 1 && Below(r, |prios|)
  {
    var i := if fifo then |list| else Place(list, prios, prios[t]);
    InsertAt(list, i, t)
  }

  lemma SuspendContents(list: seq<Tid>, t: Tid, prios: seq<nat>, fifo: bool)
    requires Below(list, |prios|) && t < |prios|
    ensures forall x :: x in Suspend(list, t, prios, fifo) <==> x in list || x == t
    ensures Distinct(list) && t !in list ==> Distinct(Suspend(list, t, prios, fifo))
  {
    InsertContents(list, if fifo then |list| else Place(list, prios, prios[t]), t);
  }

  lemma HeadContents(list: seq<Tid>)
    requires Distinct(list) && list != []
    ensures forall x :: x in list[1..] <==> x in list && x != list[0]
    ensures Distinct(list[1..])
  {
    forall x ensures x in list[1..] <==> x in list && x != list[0] {
      assert list == [list[0]] + list[1..];
    }
  }

  // ---------------------------------------------------------------------------------------------
  // Order

  /** Under `RT_IPC_FLAG_PRIO` the most urgent waiter is first. */
  ghost predicate Sorted(list: seq<Tid>, prios: seq<nat>) {
    Below(list, |prios|) && forall i, j :: 0 <= i < j < |list| ==> prios[list[i]] <= prios[list[j]]
  }

  lemma SuspendSorted(list: seq<Tid>, t: Tid, prios: seq<nat>)
    requires Sorted(list, prios) && t < |prios|
    ensures Sorted(Suspend(list, t, prios, false), prios)
  {
    var p, r := Place(list, prios, prios[t]), Suspend(list, t, prios, false);
    forall i, j | 0 <= i < j < |r| ensures prios[r[i]] <= prios[r[j]] {
      if j > p && i == p && j > p + 1 {
        assert prios[list[p]] <= prios[list[j - 1]];
      }
    }
  }

  lemma DropSorted(list: seq<Tid>, p: nat, prios: seq<nat>)
    requires Sorted(list, prios) && p < |list|
    ensures Sorted(list[..p] + list[p + 1..], prios)
  {
    var r := list[..p] + list[p + 1..];
    forall i, j | 0 <= i < j < |r| ensures prios[r[i]] <= prios[r[j]] {
      assert prios[list[if i < p then i else i + 1]] <= prios[list[if j < p then j else j + 1]];
    }
  }

  lemma RemoveSorted(list: seq<Tid>, t: Tid, prios: seq<nat>)
    requires Sorted(list, prios)
    ensures Sorted(Remove(list, t), prios)
  {
    if t in list {
      DropSorted(list, IndexOf(list, t), prios);
    }
  }

  lemma TailSorted(list: seq<Tid>, prios: seq<nat>)
    requires Sorted(list, prios) && list != []
    ensures Sorted(list[1..], prios)
  {
    DropSorted(list, 0, prios);
    assert list[..0] + list[1..] == list[1..];
  }

  /** A thread queues behind everybody in order of arrival, and behind exactly those at least as urgent by priority. */
  lemma SuspendPlace(list: seq<Tid>, t: Tid, prios: seq<nat>, fifo: bool, w: Tid)
    requires Below(list, |prios|) && t < |prios| && t !in list && w in list && (fifo || Sorted(list, prios))
    ensures w < |prios|
    ensures InFront(Suspend(list, t, prios, fifo), w, t) <==> fifo || prios[w] <= prios[t]
  {
    var i, k := if fifo then |list| else Place(list, prios, prios[t]), IndexOf(list, w);
    InsertPlace(list, i, t, w);
    if k < i {
      assert list[..i][k] == w;
    } else {
      assert i < k ==> prios[list[i]] <= prios[list[k]];
      forall j | 0 <= j < i ensures list[..i][j] != w {
        assert prios[list[j]] <= prios[t];
      }
    }
  }

  /** The others keep their order. */
  lemma SuspendOrder(list: seq<Tid>, t: Tid, prios: seq<nat>, fifo: bool, a: Tid, b: Tid)
    requires Below(list, |prios|) && t < |prios| && a != t && b != t
    ensures InFront(Suspend(list, t, prios, fifo), a, b) <==> InFront(list, a, b)
  {
    InsertOrder(list, if fifo then |list| else Place(list, prios, prios[t]), t, a, b);
  }
}
