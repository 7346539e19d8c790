/**
  Worst-case stack analysis (rt-thread/tools/WCS.py): a memoised depth-first search over a
  call graph that may contain cycles, calls through pointers and unresolved names.
*/
module WorstCaseStack {
  import opened Common

  type Fxn = nat

  /** One entry of the resolved call graph.  Manual entries have a preset worst case and no calls. */
  datatype Entry = Entry(
    localStack: nat,
    hasPtrCall: bool,
    calls: seq<Fxn>,
    unresolved: set<string>,
    manual: bool)

  type Graph = seq<Entry>

  datatype Wcs = Unbounded | Bounded(bytes: nat)

  ghost predicate WellFormed(g: Graph) {
    forall f: Fxn :: f < |g| ==>
      && Below(g[f].calls, |g|)
      && (g[f].manual ==> g[f].calls == [] && !g[f].hasPtrCall)
  }

  // ---------------------------------------------------------- reference meaning

  /** A chain of nested calls. */
  ghost predicate IsPath(g: Graph, path: seq<Fxn>) {
    && |path| > 0
    && Below(path, |g|)
    && forall i :: 0 <= i < |path| - 1 ==> path[i + 1] in g[path[i]].calls
  }

  ghost predicate PathFrom(g: Graph, f: Fxn, path: seq<Fxn>) {
    IsPath(g, path) && path[0] == f
  }

  ghost predicate Reaches(g: Graph, f: Fxn, x: Fxn) {
    exists path :: PathFrom(g, f, path) && path[|path| - 1] == x
  }

  ghost predicate Recursive(g: Graph, x: Fxn) {
    exists path :: PathFrom(g, x, path) && |path| > 1 && path[|path| - 1] == x
  }

  /** `f` can reach recursion or a call through a pointer. */
  ghost predicate Doomed(g: Graph, f: Fxn) {
    exists x: Fxn :: x < |g| && Reaches(g, f, x) && (g[x].hasPtrCall || Recursive(g, x))
  }

  function StackUse(g: Graph, path: seq<Fxn>): nat
    requires Below(path, |g|)
  {
    if path == [] then 0
    else
      assert forall i :: 0 <= i < |path| - 1 ==> path[1..][i] == path[i + 1];
      g[path[0]].localStack + StackUse(g, path[1..])
  }

  /** `bytes` is the maximum stack use over all call chains starting at `f`. */
  ghost predicate IsWorstCase(g: Graph, f: Fxn, bytes: nat) {
    && (forall path :: PathFrom(g, f, path) ==> StackUse(g, path) <= bytes)
    && (exists path :: PathFrom(g, f, path) && StackUse(g, path) == bytes)
  }

  /** The names left unresolved anywhere below `f`. */
  ghost predicate UnresolvedBelow(g: Graph, f: Fxn, name: string) {
    exists x: Fxn :: x < |g| && Reaches(g, f, x) && name in g[x].unresolved
  }

  // ------------------------------------------------------------------ path facts

  lemma PathTail(g: Graph, path: seq<Fxn>)
    requires IsPath(g, path) && |path| > 1
    ensures PathFrom(g, path[1], path[1..]) && path[1] in g[path[0]].calls
    ensures StackUse(g, path) == g[path[0]].localStack + StackUse(g, path[1..])
  {
    var rest := path[1..];
    assert forall i :: 0 <= i < |rest| ==> rest[i] == path[i + 1];
  }

  lemma PathCons(g: Graph, f: Fxn, path: seq<Fxn>)
    requires IsPath(g, path) && f < |g| && path[0] in g[f].calls
    ensures PathFrom(g, f, [f] + path)
    ensures StackUse(g, [f] + path) == g[f].localStack + StackUse(g, path)
  {
    var p := [f] + path;
    assert forall i :: 1 <= i < |p| ==> p[i] == path[i - 1];
    assert p[1..] == path;
  }

  lemma ReachesSelf(g: Graph, f: Fxn)
    requires f < |g|
    ensures Reaches(g, f, f)
  {
    assert PathFrom(g, f, [f]);
  }

  lemma ReachesVia(g: Graph, f: Fxn, c: Fxn, x: Fxn)
    requires f < |g| && c in g[f].calls && Reaches(g, c, x)
    ensures Reaches(g, f, x)
  {
    var path :| PathFrom(g, c, path) && path[|path| - 1] == x;
    PathCons(g, f, path);
    var p := [f] + path;
    assert p[|p| - 1] == x;
  }

  lemma ReachesStep(g: Graph, f: Fxn, x: Fxn)
    requires Reaches(g, f, x) && x != f
    ensures f < |g| && exists c :: c in g[f].calls && Reaches(g, c, x)
  {
    var path :| PathFrom(g, f, path) && path[|path| - 1] == x;
    PathTail(g, path);
    assert path[1..][|path| - 2] == x;
  }

  lemma DoomedCaller(g: Graph, f: Fxn, c: Fxn)
    requires f < |g| && c in g[f].calls && Doomed(g, c)
    ensures Doomed(g, f)
  {
    var x: Fxn :| x < |g| && Reaches(g, c, x) && (g[x].hasPtrCall || Recursive(g, x));
    ReachesVia(g, f, c, x);
  }

  // ------------------------------------------------------------ memoised results

  function MaxOf(wcs: map<Fxn, Wcs>, calls: seq<Fxn>): nat
    requires forall c :: c in calls ==> c in wcs && wcs[c].Bounded?
  {
    if calls == [] then 0
    else Max(MaxOf(wcs, calls[..|calls| - 1]), wcs[calls[|calls| - 1]].bytes)
  }

  function UnionOf(names: seq<set<string>>, calls: seq<Fxn>): set<string>
    requires Below(calls, |names|)
  {
    if calls == [] then {}
    else UnionOf(names, calls[..|calls| - 1]) + names[calls[|calls| - 1]]
  }

  /** The result stored for `f` agrees with those stored for its callees. */
  ghost predicate Computed(g: Graph, wcs: map<Fxn, Wcs>, names: seq<set<string>>, f: Fxn, known: seq<Fxn>) {
    && |names| == |g| && f < |g| && f in wcs && wcs[f].Bounded?
    && !g[f].hasPtrCall
    && Below(g[f].calls, |g|)
    && (forall c :: c in g[f].calls ==> c in known && c in wcs && wcs[c].Bounded?)
    && wcs[f].bytes == MaxOf(wcs, g[f].calls) + g[f].localStack
    && names[f] == g[f].unresolved + UnionOf(names, g[f].calls)
  }

  /** What the shared dictionaries hold at any moment of the search.  `done` lists the functions
      with a numeric result in the order they were finished. */
  ghost predicate Sound(g: Graph, wcs: map<Fxn, Wcs>, names: seq<set<string>>, done: seq<Fxn>) {
    && |names| == |g|
    && Distinct(done)
    && (forall i :: 0 <= i < |done| ==> Computed(g, wcs, names, done[i], done[..i]))
    && (forall x {:trigger ResultOk(g, wcs, done, x)} :: x in wcs ==> ResultOk(g, wcs, done, x))
  }

  /** Numeric results belong to finished functions, the others to doomed ones. */
  ghost predicate ResultOk(g: Graph, wcs: map<Fxn, Wcs>, done: seq<Fxn>, x: Fxn) {
    x in wcs && x < |g| && if wcs[x].Bounded? then x in done else Doomed(g, x)
  }

  /** Everything called from a finished function was finished strictly earlier. */
  lemma {:induction false} FinishedPath(g: Graph, wcs: map<Fxn, Wcs>, names: seq<set<string>>, done: seq<Fxn>, i: nat, path: seq<Fxn>)
    requires Sound(g, wcs, names, done) && i < |done| && PathFrom(g, done[i], path)
    ensures forall k :: 1 <= k < |path| ==> path[k] in done[..i]
    ensures StackUse(g, path) <= wcs[done[i]].bytes
    decreases i
  {
    var f := done[i];
    assert Computed(g, wcs, names, f, done[..i]);
    if |path| == 1 {
      assert path == [f];
      assert StackUse(g, path[1..]) == 0;
    } else {
      PathTail(g, path);
      var j := IndexOf(done[..i], path[1]);
      FinishedPath(g, wcs, names, done, j, path[1..]);
      forall k | 1 <= k < |path| ensures path[k] in done[..i] {
        if k > 1 {
          assert path[k] == path[1..][k - 1] && path[k] in done[..j];
        }
      }
      MaxIsUpper(wcs, g[f].calls, path[1]);
    }
  }

  lemma {:induction false} MaxIsUpper(wcs: map<Fxn, Wcs>, calls: seq<Fxn>, c: Fxn)
    requires forall x :: x in calls ==> x in wcs && wcs[x].Bounded?
    requires c in calls
    ensures wcs[c].bytes <= MaxOf(wcs, calls)
  {
    var n := |calls| - 1;
    if c != calls[n] {
      MaxIsUpper(wcs, calls[..n], c);
    }
  }

  lemma {:induction false} MaxIsAttained(wcs: map<Fxn, Wcs>, calls: seq<Fxn>)
    requires forall x :: x in calls ==> x in wcs && wcs[x].Bounded?
    requires calls != []
    ensures exists c :: c in calls && wcs[c].bytes == MaxOf(wcs, calls)
  {
    var n := |calls| - 1;
    assert calls[n] in calls && wcs[calls[n]].Bounded?;
    if n > 0 {
      MaxIsAttained(wcs, calls[..n]);
      var c :| c in calls[..n] && wcs[c].bytes == MaxOf(wcs, calls[..n]);
      assert c in calls;
    } else {
      assert MaxOf(wcs, calls[..n]) == 0;
      assert wcs[calls[n]].bytes == MaxOf(wcs, calls);
    }
  }

  lemma {:induction false} WorstPath(g: Graph, wcs: map<Fxn, Wcs>, names: seq<set<string>>, done: seq<Fxn>, i: nat) returns (path: seq<Fxn>)
    requires Sound(g, wcs, names, done) && i < |done|
    ensures PathFrom(g, done[i], path) && StackUse(g, path) == wcs[done[i]].bytes
    decreases i
  {
    var f := done[i];
    assert Computed(g, wcs, names, f, done[..i]);
    if g[f].calls == [] {
      path := [f];
      assert StackUse(g, path[1..]) == 0;
    } else {
      MaxIsAttained(wcs, g[f].calls);
      var c :| c in g[f].calls && wcs[c].bytes == MaxOf(wcs, g[f].calls);
      var rest := WorstPath(g, wcs, names, done, IndexOf(done[..i], c));
      PathCons(g, f, rest);
      path := [f] + rest;
    }
  }

  /** A numeric result is the true worst case, and is given only where one exists. */
  lemma BoundedIsRight(g: Graph, wcs: map<Fxn, Wcs>, names: seq<set<string>>, done: seq<Fxn>, f: Fxn)
    requires Sound(g, wcs, names, done) && f in wcs && wcs[f].Bounded?
    ensures !Doomed(g, f) && IsWorstCase(g, f, wcs[f].bytes)
  {
    assert ResultOk(g, wcs, done, f);
    var i := IndexOf(done, f);
    forall path | PathFrom(g, f, path) ensures StackUse(g, path) <= wcs[f].bytes {
      FinishedPath(g, wcs, names, done, i, path);
    }
    var worst := WorstPath(g, wcs, names, done, i);
    forall x: Fxn | x < |g| && Reaches(g, f, x) ensures !g[x].hasPtrCall && !Recursive(g, x) {
      var path :| PathFrom(g, f, path) && path[|path| - 1] == x;
      FinishedPath(g, wcs, names, done, i, path);
      assert x in done;
      var j := IndexOf(done, x);
      assert Computed(g, wcs, names, done[j], done[..j]);
      forall loop | PathFrom(g, x, loop) && |loop| > 1 ensures loop[|loop| - 1] != x {
        FinishedPath(g, wcs, names, done, j, loop);
      }
    }
  }

  lemma {:induction false} UnionMembers(names: seq<set<string>>, calls: seq<Fxn>, name: string)
    requires Below(calls, |names|)
    ensures name in UnionOf(names, calls) <==> exists c :: c in calls && c < |names| && name in names[c]
  {
    if calls != [] {
      var n := |calls| - 1;
      UnionMembers(names, calls[..n], name);
      assert calls == calls[..n] + [calls[n]];
    }
  }

  /** The unresolved names reported with a numeric result are exactly those of the whole subtree. */
  lemma {:induction false} UnresolvedIsRight(g: Graph, wcs: map<Fxn, Wcs>, names: seq<set<string>>, done: seq<Fxn>, i: nat, name: string)
    requires Sound(g, wcs, names, done) && i < |done|
    ensures done[i] < |g| && (name in names[done[i]] <==> UnresolvedBelow(g, done[i], name))
    decreases i
  {
    var f := done[i];
    assert Computed(g, wcs, names, f, done[..i]);
    UnionMembers(names, g[f].calls, name);
    forall c | c in g[f].calls ensures c < |g| && (name in names[c] <==> UnresolvedBelow(g, c, name)) {
      UnresolvedIsRight(g, wcs, names, done, IndexOf(done[..i], c), name);
    }
    if name in names[f] {
      if name in g[f].unresolved {
        ReachesSelf(g, f);
      } else {
        var c :| c in g[f].calls && name in names[c];
        var x: Fxn :| x < |g| && Reaches(g, c, x) && name in g[x].unresolved;
        ReachesVia(g, f, c, x);
      }
    }
    if UnresolvedBelow(g, f, name) {
      var x: Fxn :| x < |g| && Reaches(g, f, x) && name in g[x].unresolved;
      if x != f {
        ReachesStep(g, f, x);
        var c :| c in g[f].calls && Reaches(g, c, x);
        assert UnresolvedBelow(g, c, name);
      }
    }
  }

  // -------------------------------------------------------------- the search itself

  ghost predicate IsChain(g: Graph, parents: seq<Fxn>, f: Fxn) {
    && f < |g|
    && Below(parents, |g|)
    && (forall i :: 0 <= i < |parents| - 1 ==> parents[i + 1] in g[parents[i]].calls)
    && (parents != [] ==> f in g[parents[|parents| - 1]].calls)
  }

  lemma ChainPush(g: Graph, parents: seq<Fxn>, f: Fxn, c: Fxn)
    requires IsChain(g, parents, f) && c < |g| && c in g[f].calls
    ensures IsChain(g, parents + [f], c)
  {
    var p := parents + [f];
    assert forall i :: 0 <= i < |parents| ==> p[i] == parents[i];
  }

  /** A function met again while its own search is running is recursive. */
  lemma ActiveIsRecursive(g: Graph, parents: seq<Fxn>, f: Fxn)
    requires IsChain(g, parents, f) && f in parents
    ensures Doomed(g, f)
  {
    var i := IndexOf(parents, f);
    var loop := parents[i..] + [f];
    assert PathFrom(g, f, loop) by {
      forall k | 0 <= k < |loop| - 1 ensures loop[k + 1] in g[loop[k]].calls {
        assert loop[k] == parents[i + k];
        assert k < |loop| - 2 ==> loop[k + 1] == parents[i + k + 1];
      }
    }
    assert loop[|loop| - 1] == f;
    assert Recursive(g, f);
    ReachesSelf(g, f);
  }

  lemma DoneHasResult(g: Graph, wcs: map<Fxn, Wcs>, names: seq<set<string>>, done: seq<Fxn>)
    requires Sound(g, wcs, names, done)
    ensures forall x :: x in done ==> x in wcs && wcs[x].Bounded?
  {
    forall x | x in done ensures x in wcs && wcs[x].Bounded? {
      var i := IndexOf(done, x);
      assert Computed(g, wcs, names, done[i], done[..i]);
    }
  }

  /** Storing a result for a function that has none leaves all others as they are. */
  lemma StillSound(g: Graph, wcs: map<Fxn, Wcs>, names: seq<set<string>>, done: seq<Fxn>,
                   wcs': map<Fxn, Wcs>, names': seq<set<string>>, i: nat)
    requires Sound(g, wcs, names, done) && i < |done| && |names'| == |names|
    requires forall x :: x in wcs ==> x in wcs' && wcs'[x] == wcs[x]
    requires forall x :: x in done && x < |names| ==> names'[x] == names[x]
    ensures Computed(g, wcs', names', done[i], done[..i])
  {
    var f := done[i];
    assert Computed(g, wcs, names, f, done[..i]);
    assert f in done;
    SameMax(wcs, wcs', g[f].calls);
    forall c | c in g[f].calls ensures c < |names| && names'[c] == names[c] {
      assert c in done[..i] && c in done;
    }
    SameUnion(names, names', g[f].calls);
  }

  lemma NamesStillSound(g: Graph, wcs: map<Fxn, Wcs>, names: seq<set<string>>, done: seq<Fxn>, names': seq<set<string>>)
    requires Sound(g, wcs, names, done) && |names'| == |names|
    requires forall x :: x in done && x < |names| ==> names'[x] == names[x]
    ensures Sound(g, wcs, names', done)
  {
    forall i | 0 <= i < |done| ensures Computed(g, wcs, names', done[i], done[..i]) {
      StillSound(g, wcs, names, done, wcs, names', i);
    }
  }

  lemma {:induction false} SameMax(wcs: map<Fxn, Wcs>, wcs': map<Fxn, Wcs>, calls: seq<Fxn>)
    requires forall c :: c in calls ==> c in wcs && wcs[c].Bounded? && c in wcs' && wcs'[c] == wcs[c]
    ensures MaxOf(wcs', calls) == MaxOf(wcs, calls)
  {
    if calls != [] {
      var n := |calls| - 1;
      assert calls[n] in calls;
      SameMax(wcs, wcs', calls[..n]);
    }
  }

  lemma {:induction false} SameUnion(names: seq<set<string>>, names': seq<set<string>>, calls: seq<Fxn>)
    requires Below(calls, |names|) && |names'| == |names|
    requires forall c :: c in calls && c < |names| ==> names'[c] == names[c]
    ensures UnionOf(names', calls) == UnionOf(names, calls)
  {
    if calls != [] {
      var n := |calls| - 1;
      assert calls[n] in calls;
      SameUnion(names, names', calls[..n]);
    }
  }

  /** Extends maximum and union by the next callee, whose names `f` takes over. */
  lemma NextCall(wcs: map<Fxn, Wcs>, names: seq<set<string>>, calls: seq<Fxn>, i: nat, f: Fxn)
    requires i < |calls| && f < |names| && f !in wcs && calls[i] < |names| && Below(calls[..i], |names|)
    requires forall c :: c in calls[..i] ==> c in wcs && wcs[c].Bounded?
    requires calls[i] in wcs && wcs[calls[i]].Bounded?
    ensures forall c :: c in calls[..i + 1] ==> c in wcs && wcs[c].Bounded?
    ensures Below(calls[..i + 1], |names|)
    ensures MaxOf(wcs, calls[..i + 1]) == Max(MaxOf(wcs, calls[..i]), wcs[calls[i]].bytes)
    ensures UnionOf(names[f := names[f] + names[calls[i]]], calls[..i + 1]) == UnionOf(names, calls[..i]) + names[calls[i]]
  {
    assert calls[..i + 1][..i] == calls[..i];
    assert calls[..i + 1] == calls[..i] + [calls[i]];
    SameUnion(names, names[f := names[f] + names[calls[i]]], calls[..i]);
  }

  /** The shared dictionaries and the stack of running searches. */
  class Analyzer {
    const g: Graph
    var wcs: map<Fxn, Wcs>
    var unresolved: seq<set<string>>
    var parents: seq<Fxn>
    ghost var done: seq<Fxn>

    /** The dictionaries are sound, and functions neither finished nor `active` are untouched. */
    ghost predicate Valid(active: seq<Fxn>)
      reads this
    {
      && WellFormed(g)
      && Sound(g, wcs, unresolved, done)
      && forall f: Fxn :: f < |g| && f !in wcs && f !in active ==> unresolved[f] == g[f].unresolved
    }

    /** Results are never revised. */
    twostate predicate Extends()
      reads this
    {
      && old(wcs).Keys <= wcs.Keys
      && (forall x :: x in old(wcs) ==> wcs[x] == old(wcs)[x])
      && |unresolved| == |old(unresolved)|
      && (forall x: Fxn :: x < |unresolved| && x in old(wcs) && old(wcs)[x].Bounded? ==> unresolved[x] == old(unresolved)[x])
    }

    /** The table as the input files leave it: only manual entries have a result. */
    constructor (graph: Graph)
      requires WellFormed(graph)
      ensures g == graph && Valid([]) && parents == []
      ensures forall f: Fxn :: f < |g| && g[f].manual ==> f in wcs && wcs[f] == Bounded(g[f].localStack)
    {
      g := graph;
      parents := [];
      unresolved := seq(|graph|, (i: nat) requires i < |graph| => graph[i].unresolved);
      done := ManualEntries(graph, |graph|);
      wcs := map f: Fxn | f < |graph| && graph[f].manual :: Bounded(graph[f].localStack);
      new;
      forall i | 0 <= i < |done| ensures Computed(g, wcs, unresolved, done[i], done[..i]) {
        assert done[i] in done;
        assert WellFormed(g) && g[done[i]].calls == [];
      }
    }

    method Finish(f: Fxn, bytes: nat)
      requires Valid(parents + [f]) && f < |g| && f !in wcs && f !in parents && !g[f].hasPtrCall
      requires forall c :: c in g[f].calls ==> c in wcs && wcs[c].Bounded?
      requires bytes == MaxOf(wcs, g[f].calls) + g[f].localStack
      requires Below(g[f].calls, |g|) && unresolved[f] == g[f].unresolved + UnionOf(unresolved, g[f].calls)
      modifies this`wcs, this`done
      ensures wcs == old(wcs)[f := Bounded(bytes)]
      ensures Valid(parents)
    {
      wcs := wcs[f := Bounded(bytes)];
      done := done + [f];
      forall i | 0 <= i < |done| ensures Computed(g, wcs, unresolved, done[i], done[..i]) {
        if i < |old(done)| {
          StillSound(g, old(wcs), unresolved, old(done), wcs, unresolved, i);
          assert done[..i] == old(done)[..i];
        } else {
          forall c | c in g[f].calls ensures c in old(done) {
            assert ResultOk(g, old(wcs), old(done), c);
          }
          SameMax(old(wcs), wcs, g[f].calls);
          assert done[..i] == old(done);
        }
      }
      DoneHasResult(g, old(wcs), unresolved, old(done));
      forall x | x in wcs ensures ResultOk(g, wcs, done, x) {
        assert x in old(wcs) ==> ResultOk(g, old(wcs), old(done), x);
      }
    }

    method MarkUnbounded(f: Fxn)
      requires Valid(parents + [f]) && Doomed(g, f) && f < |g| && (f in wcs ==> wcs[f] == Unbounded)
      modifies this`wcs
      ensures wcs == old(wcs)[f := Unbounded]
      ensures Valid(parents)
    {
      wcs := wcs[f := Unbounded];
      forall x | x in wcs ensures ResultOk(g, wcs, done, x) {
        assert x in old(wcs) ==> ResultOk(g, old(wcs), done, x);
      }
      forall i | 0 <= i < |done| ensures Computed(g, wcs, unresolved, done[i], done[..i]) {
        assert Computed(g, old(wcs), unresolved, done[i], done[..i]);
        StillSound(g, old(wcs), unresolved, done, wcs, unresolved, i);
      }
    }

    /** The search of `f` is running: its stack entry and those of its callers have no result yet. */
    ghost predicate Running(f: Fxn)
      reads this
    {
      && Valid(parents + [f]) && IsChain(g, parents, f) && Distinct(parents + [f])
      && forall p :: p in parents + [f] ==> p !in wcs
    }

    /** The first `i` callees of `f` are bounded and accounted for. */
    ghost predicate Progress(f: Fxn, i: nat, callMax: nat)
      reads this
    {
      && Running(f) && i <= |g[f].calls|
      && (forall c :: c in g[f].calls[..i] ==> c in wcs && wcs[c].Bounded?)
      && Below(g[f].calls[..i], |unresolved|)
      && callMax == MaxOf(wcs, g[f].calls[..i])
      && unresolved[f] == g[f].unresolved + UnionOf(unresolved, g[f].calls[..i])
    }

    /** One turn of the loop of `calc_wcs`: `parents.append`, the recursive call, `parents.pop`. */
    method Visit(f: Fxn, c: Fxn, ghost i: nat, ghost callMax: nat)
      requires Progress(f, i, callMax) && c in g[f].calls && c < |g|
      modifies this`wcs, this`unresolved, this`parents, this`done
      ensures Valid(parents + [f]) && parents == old(parents) && Extends()
      ensures c in wcs
      ensures wcs[c].Bounded? ==> Progress(f, i, callMax)
      ensures forall p :: p in parents + [f] && p in wcs ==> wcs[p] == Unbounded
      ensures forall p :: p in parents && p < |g| ==> unresolved[p] == old(unresolved)[p]
      decreases |g| - |parents|, 0
    {
      DistinctLast(parents, f);
      Pigeonhole(parents + [f], |g|);
      ChainPush(g, parents, f, c);
      parents := parents + [f];
      CalcWcs(c);
      parents := parents[..|parents| - 1];
      assert parents == old(parents) && old(parents) + [f] == parents + [f];
      assert f in parents + [f];
      if wcs[c].Bounded? {
        assert Running(f);
        SameMax(old(wcs), wcs, g[f].calls[..i]);
        SameUnion(old(unresolved), unresolved, g[f].calls[..i]);
      }
    }

    /** Propagates the unresolved calls of `c` to its caller `f`, which is still being searched. */
    method AddUnresolved(f: Fxn, c: Fxn, ghost i: nat, ghost callMax: nat)
      requires Progress(f, i, callMax) && i < |g[f].calls| && c == g[f].calls[i] && c < |g| && c in wcs && wcs[c].Bounded?
      modifies this`unresolved
      ensures unresolved == old(unresolved)[f := old(unresolved)[f] + old(unresolved)[c]]
      ensures Running(f)
      ensures Progress(f, i + 1, Max(callMax, wcs[c].bytes))
    {
      DoneHasResult(g, wcs, unresolved, done);
      assert f in parents + [f] && f !in done;
      unresolved := unresolved[f := unresolved[f] + unresolved[c]];
      NamesStillSound(g, wcs, old(unresolved), done, unresolved);
      assert Running(f);
      NextCall(wcs, old(unresolved), g[f].calls, i, f);
    }

    /** The loop of `calc_wcs` over the resolved calls. */
    method SearchCalls(f: Fxn)
      requires Running(f) && unresolved[f] == g[f].unresolved && !g[f].hasPtrCall
      modifies this`wcs, this`unresolved, this`parents, this`done
      ensures Valid(parents) && parents == old(parents) && Extends()
      ensures f in wcs
      ensures forall p :: p in parents && p in wcs ==> wcs[p] == Unbounded && wcs[f] == Unbounded
      ensures forall p :: p in parents && p < |g| ==> unresolved[p] == old(unresolved)[p]
      decreases |g| - |parents|, 1
    {
      var callMax: nat := 0;
      var i := 0;
      DistinctLast(parents, f);
      assert f in parents + [f];
      while i < |g[f].calls|
        invariant parents == old(parents) && Progress(f, i, callMax) && Extends()
        invariant forall p :: p in parents && p < |g| ==> unresolved[p] == old(unresolved)[p]
      {
        var c := g[f].calls[i];
        Visit(f, c, i, callMax);
        if wcs[c] == Unbounded {
          assert ResultOk(g, wcs, done, c);
          DoomedCaller(g, f, c);
          assert f in parents + [f];
          MarkUnbounded(f);
          return;
        }
        AddUnresolved(f, c, i, callMax);
        callMax := Max(callMax, wcs[c].bytes);
        i := i + 1;
      }
      assert g[f].calls[..i] == g[f].calls;
      Finish(f, callMax + g[f].localStack);
    }

    /** `calc_wcs` */
    method CalcWcs(f: Fxn)
      requires Valid(parents) && IsChain(g, parents, f) && Distinct(parents)
      requires forall p :: p in parents ==> p !in wcs
      modifies this`wcs, this`unresolved, this`parents, this`done
      ensures Valid(parents) && parents == old(parents) && Extends()
      ensures f in wcs
      ensures forall p :: p in parents && p in wcs ==> wcs[p] == Unbounded && wcs[f] == Unbounded
      ensures forall p :: p in parents && p < |g| ==> unresolved[p] == old(unresolved)[p]
      decreases |g| - |parents|, 2
    {
      if f in wcs {
        return;
      }
      if g[f].hasPtrCall {
        ReachesSelf(g, f);
        MarkUnbounded(f);
        return;
      }
      if f in parents {
        ActiveIsRecursive(g, parents, f);
        MarkUnbounded(f);
        return;
      }
      DistinctLast(parents, f);
      SearchCalls(f);
    }

    /** `calc_all_wcs`, visiting the globals and then the locals in the order `all`. */
    method CalcAll(all: seq<Fxn>)
      requires Valid([]) && parents == [] && Below(all, |g|)
      modifies this
      ensures Valid([]) && parents == [] && Extends()
      ensures forall k :: 0 <= k < |all| ==> all[k] in wcs
    {
      ghost var visited: set<Fxn> := {};
      for i := 0 to |all|
        invariant Valid([]) && parents == [] && Extends()
        invariant visited <= wcs.Keys && forall k :: 0 <= k < i ==> all[k] in visited
      {
        CalcWcs(all[i]);
        visited := visited + {all[i]};
      }
    }

    /** When every function is visited, the analysis is exact. */
    method Analyze(all: seq<Fxn>)
      requires Valid([]) && parents == [] && Below(all, |g|)
      requires forall f: Fxn :: f < |g| ==> f in all
      modifies this
      ensures Valid([]) && Extends()
      ensures forall f: Fxn :: f < |g| ==> f in wcs && (wcs[f] == Unbounded <==> Doomed(g, f))
      ensures forall f: Fxn :: f < |g| && f in wcs && wcs[f].Bounded? ==> IsWorstCase(g, f, wcs[f].bytes)
      ensures forall f: Fxn, name :: f < |g| && f in wcs && wcs[f].Bounded? ==>
                (name in unresolved[f] <==> UnresolvedBelow(g, f, name))
    {
      CalcAll(all);
      forall f: Fxn | f < |g| ensures f in wcs {
        var k := IndexOf(all, f);
      }
      Conclusion(g, wcs, unresolved, done);
    }
  }

  lemma Conclusion(g: Graph, wcs: map<Fxn, Wcs>, names: seq<set<string>>, done: seq<Fxn>)
    requires Sound(g, wcs, names, done)
    requires forall f: Fxn :: f < |g| ==> f in wcs
    ensures forall f: Fxn :: f < |g| ==> (wcs[f] == Unbounded <==> Doomed(g, f))
    ensures forall f: Fxn :: f < |g| && wcs[f].Bounded? ==> IsWorstCase(g, f, wcs[f].bytes)
    ensures forall f: Fxn, name :: f < |g| && wcs[f].Bounded? ==> (name in names[f] <==> UnresolvedBelow(g, f, name))
  {
    forall f: Fxn | f < |g|
      ensures wcs[f] == Unbounded <==> Doomed(g, f)
      ensures wcs[f].Bounded? ==> IsWorstCase(g, f, wcs[f].bytes)
    {
      assert ResultOk(g, wcs, done, f);
      if wcs[f].Bounded? {
        BoundedIsRight(g, wcs, names, done, f);
      }
    }
    forall f: Fxn, name | f < |g| && wcs[f].Bounded?
      ensures name in names[f] <==> UnresolvedBelow(g, f, name)
    {
      assert ResultOk(g, wcs, done, f);
      UnresolvedIsRight(g, wcs, names, done, IndexOf(done, f), name);
    }
  }

  /** The manual entries below index `n`. */
  ghost function ManualEntries(g: Graph, n: nat): (r: seq<Fxn>)
    requires n <= |g|
    ensures Distinct(r)
    ensures forall f: Fxn :: f in r <==> f < n && g[f].manual
  {
    if n == 0 then []
    else if g[n - 1].manual then ManualEntries(g, n - 1) + [n - 1]
    else ManualEntries(g, n - 1)
  }
}
