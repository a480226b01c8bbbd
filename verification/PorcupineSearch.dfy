/**
  The reasoning behind the backtracking search: what the pairs it has finished with, and the operations it has tried
  on the current path, say about the whole space of partial linearizations.
 */
module PorcupineSearch {
  import opened Sets
  import opened Options
  import opened Linearizability

  // What the search remembers about a partial linearization: the operations placed and the state reached.
  type Pair<S> = (set<nat>, S)

  function PairOf<S, V>(m: Model<S, V>, ops: seq<Op<V>>, order: seq<nat>): Pair<S>
    requires InRange(order, |ops|)
  {
    (SetOf(order), StateAfter(m, ops, order))
  }

  predicate CanPlace<S, V>(m: Model<S, V>, ops: seq<Op<V>>, p: Pair<S>, x: nat) {
    Minimal(ops, p.0, x) && Accepts(m, ops, p.1, x)
  }

  function Child<S, V>(m: Model<S, V>, ops: seq<Op<V>>, p: Pair<S>, x: nat): Pair<S>
    requires x < |ops|
  {
    (p.0 + {x}, Next(m, ops, p.1, x))
  }

  // Every operation called before `limit` that could come next leads to a finished pair.
  ghost predicate Tried<S, V>(m: Model<S, V>, ops: seq<Op<V>>, finished: set<Pair<S>>, p: Pair<S>, limit: int) {
    forall x: nat {:trigger CanPlace(m, ops, p, x)} ::
      CanPlace(m, ops, p, x) && ops[x].call < limit ==> Child(m, ops, p, x) in finished
  }

  ghost predicate AllTried<S, V>(m: Model<S, V>, ops: seq<Op<V>>, finished: set<Pair<S>>, p: Pair<S>) {
    forall x: nat {:trigger CanPlace(m, ops, p, x)} :: CanPlace(m, ops, p, x) ==> Child(m, ops, p, x) in finished
  }

  // A finished pair is incomplete, and everything reachable from it is finished too.
  ghost predicate Closed<S, V>(m: Model<S, V>, ops: seq<Op<V>>, finished: set<Pair<S>>) {
    forall p {:trigger p in finished} :: p in finished ==> p.0 != Everything(ops) && AllTried(m, ops, finished, p)
  }

  // At every level of the path, what precedes the operation chosen there has been tried.
  ghost predicate PathTried<S, V>(m: Model<S, V>, ops: seq<Op<V>>, finished: set<Pair<S>>, path: seq<nat>)
    requires InRange(path, |ops|)
  {
    forall k {:trigger path[k]} :: 0 <= k < |path| ==>
        Tried(m, ops, finished, PairOf(m, ops, path[..k]), ops[path[k]].call)
  }

  ghost predicate OnPath<S, V>(m: Model<S, V>, ops: seq<Op<V>>, path: seq<nat>, p: Pair<S>)
    requires InRange(path, |ops|)
  {
    exists k {:trigger path[..k]} :: 1 <= k <= |path| && p == PairOf(m, ops, path[..k])
  }

  // The cache holds the finished pairs and those on the path, and nothing else.
  ghost predicate CacheOk<S, V>(m: Model<S, V>, ops: seq<Op<V>>, finished: set<Pair<S>>, path: seq<nat>,
      cached: set<Pair<S>>)
    requires InRange(path, |ops|)
  {
    && finished <= cached
    && (forall k {:trigger path[..k]} :: 1 <= k <= |path| ==> PairOf(m, ops, path[..k]) in cached)
    && (forall p {:trigger p in cached} :: p in cached ==> p in finished || OnPath(m, ops, path, p))
  }

  // Where the search stands: at the path's end, about to look at the entry at position `limit`.
  ghost predicate SearchOk<S, V>(m: Model<S, V>, ops: seq<Op<V>>, finished: set<Pair<S>>, path: seq<nat>,
      cached: set<Pair<S>>, limit: int) {
    && Reachable(m, ops, path)
    && Closed(m, ops, finished)
    && PathTried(m, ops, finished, path)
    && Tried(m, ops, finished, PairOf(m, ops, path), limit)
    && CacheOk(m, ops, finished, path, cached)
  }

  // ---------- facts about paths ----------

  lemma {:induction false} PathSize<S, V>(m: Model<S, V>, ops: seq<Op<V>>, path: seq<nat>)
    requires Reachable(m, ops, path)
    ensures |SetOf(path)| == |path| <= |ops|
    ensures NoRepeats(path)
  {
    if path == [] {
    } else {
      var before, x := path[..|path| - 1], path[|path| - 1];
      PathSize(m, ops, before);
      assert path == before + [x];
      assert SetOf(path) == SetOf(before) + {x};
    }
    SubsetSize(SetOf(path), Everything(ops));
    assert |Everything(ops)| == |ops|;
  }

  lemma {:induction false} ReachablePrefix<S, V>(m: Model<S, V>, ops: seq<Op<V>>, path: seq<nat>, k: nat)
    requires Reachable(m, ops, path) && k <= |path|
    ensures Reachable(m, ops, path[..k])
  {
    if k < |path| {
      ReachablePrefix(m, ops, path[..|path| - 1], k);
      assert path[..|path| - 1][..k] == path[..k];
    } else {
      assert path[..k] == path;
    }
  }

  lemma PairOfMore<S, V>(m: Model<S, V>, ops: seq<Op<V>>, path: seq<nat>, x: nat)
    requires InRange(path, |ops|) && x < |ops|
    ensures InRange(path + [x], |ops|) && PairOf(m, ops, path + [x]) == Child(m, ops, PairOf(m, ops, path), x)
  {
    assert (path + [x])[..|path|] == path;
    assert SetOf(path + [x]) == SetOf(path) + {x};
  }

  // A pair one larger than the path is not on it.
  lemma NotOnPath<S, V>(m: Model<S, V>, ops: seq<Op<V>>, path: seq<nat>, x: nat)
    requires Reachable(m, ops, path) && Minimal(ops, SetOf(path), x)
    ensures !OnPath(m, ops, path, Child(m, ops, PairOf(m, ops, path), x))
  {
    var p := Child(m, ops, PairOf(m, ops, path), x);
    PathSize(m, ops, path);
    assert |p.0| == |path| + 1;
    forall k | 1 <= k <= |path| ensures p != PairOf(m, ops, path[..k]) {
      ReachablePrefix(m, ops, path, k);
      PathSize(m, ops, path[..k]);
    }
  }

  // ---------- the moves of the search ----------

  lemma FinishedGrow<S, V>(m: Model<S, V>, ops: seq<Op<V>>, finished: set<Pair<S>>, more: set<Pair<S>>, p: Pair<S>,
      limit: int)
    requires finished <= more && Tried(m, ops, finished, p, limit)
    ensures Tried(m, ops, more, p, limit)
  {
    forall x: nat | CanPlace(m, ops, p, x) && ops[x].call < limit ensures Child(m, ops, p, x) in more {
      assert Child(m, ops, p, x) in finished;
    }
  }

  // Nothing can be placed before the first entry left.
  ghost predicate NothingBefore<V>(ops: seq<Op<V>>, done: set<nat>, limit: int) {
    forall x: nat {:trigger ops[x]} :: x < |ops| && x !in done ==> ops[x].call >= limit
  }

  lemma Start<S, V>(m: Model<S, V>, ops: seq<Op<V>>, limit: int)
    requires NothingBefore(ops, {}, limit)
    ensures SearchOk(m, ops, {}, [], {}, limit)
  {
    assert SetOf([]) == {};
    forall x: nat | CanPlace(m, ops, PairOf(m, ops, []), x) ensures ops[x].call >= limit { }
  }

  // Placing the operation called at `limit`.
  lemma Push<S, V>(m: Model<S, V>, ops: seq<Op<V>>, finished: set<Pair<S>>, path: seq<nat>, cached: set<Pair<S>>,
      limit: int, x: nat, limit': int)
    requires SearchOk(m, ops, finished, path, cached, limit)
    requires CanPlace(m, ops, PairOf(m, ops, path), x) && ops[x].call == limit
    requires NothingBefore(ops, SetOf(path) + {x}, limit')
    ensures SearchOk(m, ops, finished, path + [x], cached + {Child(m, ops, PairOf(m, ops, path), x)}, limit')
  {
    var path' := path + [x];
    var p := Child(m, ops, PairOf(m, ops, path), x);
    PairOfMore(m, ops, path, x);
    assert path'[..|path|] == path;
    assert Reachable(m, ops, path');
    forall k | 0 <= k < |path'| ensures Tried(m, ops, finished, PairOf(m, ops, path'[..k]), ops[path'[k]].call) {
      if k < |path| { assert path'[..k] == path[..k] && path'[k] == path[k]; }
    }
    forall y: nat | CanPlace(m, ops, PairOf(m, ops, path'), y) ensures ops[y].call >= limit' { assert y !in p.0; }
    PushCache(m, ops, finished, path, cached, x);
  }

  lemma PushCache<S, V>(m: Model<S, V>, ops: seq<Op<V>>, finished: set<Pair<S>>, path: seq<nat>, cached: set<Pair<S>>,
      x: nat)
    requires InRange(path, |ops|) && x < |ops| && CacheOk(m, ops, finished, path, cached)
    ensures InRange(path + [x], |ops|)
    ensures CacheOk(m, ops, finished, path + [x], cached + {Child(m, ops, PairOf(m, ops, path), x)})
  {
    var path' := path + [x];
    var p := Child(m, ops, PairOf(m, ops, path), x);
    PairOfMore(m, ops, path, x);
    assert path'[..|path'|] == path';
    forall k | 1 <= k <= |path'| ensures PairOf(m, ops, path'[..k]) in cached + {p} {
      if k <= |path| { assert path'[..k] == path[..k]; }
    }
    forall q | q in cached + {p} ensures q in finished || OnPath(m, ops, path', q) {
      if q != p && q !in finished {
        var k :| 1 <= k <= |path| && q == PairOf(m, ops, path[..k]);
        assert path'[..k] == path[..k];
      }
    }
  }

  // Moving past the operation called at `limit`, which cannot be placed or leads to a pair already seen.
  lemma Skip<S, V>(m: Model<S, V>, ops: seq<Op<V>>, finished: set<Pair<S>>, path: seq<nat>, cached: set<Pair<S>>,
      limit: int, x: nat, limit': int)
    requires SearchOk(m, ops, finished, path, cached, limit) && x < |ops|
    requires !CanPlace(m, ops, PairOf(m, ops, path), x) || Child(m, ops, PairOf(m, ops, path), x) in cached
    requires forall y: nat :: y < |ops| && y !in SetOf(path) && limit <= ops[y].call < limit' ==> y == x
    ensures SearchOk(m, ops, finished, path, cached, limit')
  {
    var p := PairOf(m, ops, path);
    forall y: nat | CanPlace(m, ops, p, y) && ops[y].call < limit' ensures Child(m, ops, p, y) in finished {
      if ops[y].call >= limit {
        assert y == x;
        NotOnPath(m, ops, path, x);
      }
    }
  }

  // No entry left after `limit` can come next: everything has been tried at the path's end.
  ghost predicate NothingAfter<S, V>(m: Model<S, V>, ops: seq<Op<V>>, path: seq<nat>, limit: int)
    requires InRange(path, |ops|)
  {
    forall x: nat {:trigger CanPlace(m, ops, PairOf(m, ops, path), x)} :: CanPlace(m, ops, PairOf(m, ops, path), x) ==>
        ops[x].call < limit
  }

  lemma EndTried<S, V>(m: Model<S, V>, ops: seq<Op<V>>, finished: set<Pair<S>>, path: seq<nat>, cached: set<Pair<S>>,
      limit: int)
    requires SearchOk(m, ops, finished, path, cached, limit) && NothingAfter(m, ops, path, limit)
    ensures AllTried(m, ops, finished, PairOf(m, ops, path))
  {
  }

  // Taking the last operation off the path: the pair it led to is finished.
  lemma Pop<S, V>(m: Model<S, V>, ops: seq<Op<V>>, finished: set<Pair<S>>, path: seq<nat>, cached: set<Pair<S>>,
      limit: int, limit': int)
    requires SearchOk(m, ops, finished, path, cached, limit) && NothingAfter(m, ops, path, limit) && path != []
    requires SetOf(path) != Everything(ops)
    requires var x := path[|path| - 1];
             forall y: nat :: y < |ops| && y !in SetOf(path[..|path| - 1]) && ops[x].call <= ops[y].call < limit' ==>
                 y == x
    ensures SearchOk(m, ops, finished + {PairOf(m, ops, path)}, path[..|path| - 1], cached, limit')
  {
    EndTried(m, ops, finished, path, cached, limit);
    PopClosed(m, ops, finished, PairOf(m, ops, path));
    PopPath(m, ops, finished, path);
    PopTried(m, ops, finished, path, limit');
    PopCache(m, ops, finished, path, cached);
  }

  lemma PopPath<S, V>(m: Model<S, V>, ops: seq<Op<V>>, finished: set<Pair<S>>, path: seq<nat>)
    requires InRange(path, |ops|) && path != [] && PathTried(m, ops, finished, path)
    ensures PathTried(m, ops, finished + {PairOf(m, ops, path)}, path[..|path| - 1])
  {
    var before := path[..|path| - 1];
    var more := finished + {PairOf(m, ops, path)};
    forall k | 0 <= k < |before| ensures Tried(m, ops, more, PairOf(m, ops, before[..k]), ops[before[k]].call) {
      assert before[..k] == path[..k] && before[k] == path[k];
      FinishedGrow(m, ops, finished, more, PairOf(m, ops, before[..k]), ops[before[k]].call);
    }
  }

  lemma PopTried<S, V>(m: Model<S, V>, ops: seq<Op<V>>, finished: set<Pair<S>>, path: seq<nat>, limit: int)
    requires InRange(path, |ops|) && path != [] && PathTried(m, ops, finished, path)
    requires var x := path[|path| - 1];
             forall y: nat :: y < |ops| && y !in SetOf(path[..|path| - 1]) && ops[x].call <= ops[y].call < limit ==>
                 y == x
    ensures Tried(m, ops, finished + {PairOf(m, ops, path)}, PairOf(m, ops, path[..|path| - 1]), limit)
  {
    var before, x := path[..|path| - 1], path[|path| - 1];
    assert path == before + [x];
    PairOfMore(m, ops, before, x);
    assert Tried(m, ops, finished, PairOf(m, ops, path[..|before|]), ops[path[|before|]].call);
  }

  lemma PopClosed<S, V>(m: Model<S, V>, ops: seq<Op<V>>, finished: set<Pair<S>>, p: Pair<S>)
    requires Closed(m, ops, finished) && AllTried(m, ops, finished, p) && p.0 != Everything(ops)
    ensures Closed(m, ops, finished + {p})
  {
    var more := finished + {p};
    forall q | q in more ensures q.0 != Everything(ops) && AllTried(m, ops, more, q) {
      forall x: nat | CanPlace(m, ops, q, x) ensures Child(m, ops, q, x) in more {
        assert Child(m, ops, q, x) in finished;
      }
    }
  }

  lemma PopCache<S, V>(m: Model<S, V>, ops: seq<Op<V>>, finished: set<Pair<S>>, path: seq<nat>, cached: set<Pair<S>>)
    requires InRange(path, |ops|) && path != [] && CacheOk(m, ops, finished, path, cached)
    ensures CacheOk(m, ops, finished + {PairOf(m, ops, path)}, path[..|path| - 1], cached)
  {
    var before := path[..|path| - 1];
    var p := PairOf(m, ops, path);
    assert path[..|path|] == path;
    assert p in cached;
    forall k | 1 <= k <= |before| ensures PairOf(m, ops, before[..k]) in cached {
      assert before[..k] == path[..k];
    }
    forall q | q in cached ensures q in finished + {p} || OnPath(m, ops, before, q) {
      if q !in finished && q != p {
        var k :| 1 <= k <= |path| && q == PairOf(m, ops, path[..k]);
        assert before[..k] == path[..k];
      }
    }
  }

  // ---------- what the end of the search means ----------

  // Everything reachable has been finished with.
  lemma {:induction false} Exhausted<S, V>(m: Model<S, V>, ops: seq<Op<V>>, finished: set<Pair<S>>, order: seq<nat>)
    requires Closed(m, ops, finished) && AllTried(m, ops, finished, PairOf(m, ops, []))
    requires Reachable(m, ops, order) && order != []
    ensures PairOf(m, ops, order) in finished
  {
    var before, x := order[..|order| - 1], order[|order| - 1];
    assert order == before + [x];
    PairOfMore(m, ops, before, x);
    assert CanPlace(m, ops, PairOf(m, ops, before), x);
    if before != [] {
      Exhausted(m, ops, finished, before);
    }
  }

  lemma NotLinearizable<S, V>(m: Model<S, V>, ops: seq<Op<V>>, finished: set<Pair<S>>)
    requires WellTimed(ops) && ops != []
    requires Closed(m, ops, finished) && AllTried(m, ops, finished, PairOf(m, ops, []))
    ensures !Linearizable(m, ops)
  {
    forall order: seq<nat> ensures !IsLinearization(m, ops, order) {
      CompleteIsLinearization(m, ops, order);
      if Reachable(m, ops, order) && SetOf(order) == Everything(ops) {
        assert 0 in order;
        Exhausted(m, ops, finished, order);
        assert false;
      }
    }
  }

  // ---------- termination: the pairs there are ----------

  // The pairs that some partial linearization of length k leads to.
  ghost function Level<S, V>(m: Model<S, V>, ops: seq<Op<V>>, k: nat): set<Pair<S>> {
    if k == 0 then {({}, m.init)}
    else set p, x | p in Level(m, ops, k - 1) && x in Everything(ops) && CanPlace(m, ops, p, x) :: Child(m, ops, p, x)
  }

  ghost function UnionUpTo<T>(f: nat -> set<T>, k: nat): set<T> {
    if k == 0 then f(0) else UnionUpTo(f, k - 1) + f(k)
  }

  lemma {:induction false} InUnion<T>(f: nat -> set<T>, k: nat, n: nat, p: T)
    requires k <= n && p in f(k)
    ensures p in UnionUpTo(f, n)
  {
    if k < n { InUnion(f, k, n - 1, p); }
  }

  ghost function Universe<S, V>(m: Model<S, V>, ops: seq<Op<V>>): set<Pair<S>> {
    UnionUpTo(k => Level(m, ops, k), |ops|)
  }

  lemma NextLevel<S, V>(m: Model<S, V>, ops: seq<Op<V>>, k: nat, p: Pair<S>, x: nat)
    requires p in Level(m, ops, k) && CanPlace(m, ops, p, x)
    ensures Child(m, ops, p, x) in Level(m, ops, k + 1)
  {
    assert x in Everything(ops);
  }

  // Each level holds what the one below leads to.
  ghost predicate Climbs<S(!new), V>(m: Model<S, V>, ops: seq<Op<V>>, f: nat -> set<Pair<S>>) {
    && ({}, m.init) in f(0)
    && forall k: nat, p: Pair<S>, x: nat {:trigger f(k), CanPlace(m, ops, p, x)} ::
         p in f(k) && CanPlace(m, ops, p, x) ==> Child(m, ops, p, x) in f(k + 1)
  }

  lemma {:induction false} ReachableInLevel<S(!new), V>(m: Model<S, V>, ops: seq<Op<V>>, f: nat -> set<Pair<S>>,
      order: seq<nat>)
    requires Climbs(m, ops, f) && Reachable(m, ops, order)
    ensures PairOf(m, ops, order) in f(|order|)
  {
    if order == [] {
      assert SetOf(order) == {};
    } else {
      var before, x := order[..|order| - 1], order[|order| - 1];
      ReachableInLevel(m, ops, f, before);
      assert order == before + [x];
      PairOfMore(m, ops, before, x);
      assert CanPlace(m, ops, PairOf(m, ops, before), x);
    }
  }

  // Each pair the search visits is one of finitely many.
  lemma ReachableInUniverse<S(!new), V>(m: Model<S, V>, ops: seq<Op<V>>, order: seq<nat>)
    requires Reachable(m, ops, order)
    ensures PairOf(m, ops, order) in Universe(m, ops)
  {
    var f := (k: nat) => Level(m, ops, k);
    forall k: nat, p: Pair<S>, x: nat | p in f(k) && CanPlace(m, ops, p, x) ensures Child(m, ops, p, x) in f(k + 1) {
      NextLevel(m, ops, k, p, x);
    }
    ReachableInLevel(m, ops, f, order);
    PathSize(m, ops, order);
    InUnion(f, |order|, |ops|, PairOf(m, ops, order));
  }

  // ---------- the longest partial linearizations ----------

  // What is recorded for an operation is a partial linearization that contains it.
  ghost predicate RecordsSound<S, V>(m: Model<S, V>, ops: seq<Op<V>>, longest: seq<Option<seq<nat>>>) {
    && |longest| == |ops|
    && forall i {:trigger longest[i]} :: 0 <= i < |longest| && longest[i].Some? ==>
         Reachable(m, ops, longest[i].value) && i in longest[i].value
  }

  predicate AtLeast(longest: seq<Option<seq<nat>>>, i: nat, n: nat)
    requires i < |longest|
  {
    longest[i].Some? && |longest[i].value| >= n
  }

  // Every finished pair has been recorded for each of its operations.
  ghost predicate RecordsComplete<S, V>(m: Model<S, V>, ops: seq<Op<V>>, finished: set<Pair<S>>,
      longest: seq<Option<seq<nat>>>) {
    && |longest| == |ops|
    && forall p, i {:trigger p in finished, i in p.0} :: p in finished && i in p.0 && i < |ops| ==>
         AtLeast(longest, i, |p.0|)
  }

  // No partial linearization containing i is longer than what is recorded for i.
  lemma LongestIsMaximal<S, V>(m: Model<S, V>, ops: seq<Op<V>>, finished: set<Pair<S>>, longest: seq<Option<seq<nat>>>,
      order: seq<nat>, i: nat)
    requires Closed(m, ops, finished) && AllTried(m, ops, finished, PairOf(m, ops, []))
    requires RecordsComplete(m, ops, finished, longest) && Reachable(m, ops, order) && i in order
    ensures i < |longest| && AtLeast(longest, i, |order|)
  {
    Exhausted(m, ops, finished, order);
    PathSize(m, ops, order);
    assert i in PairOf(m, ops, order).0;
  }
}
