/**
  Linearizability is local (Herlihy and Wing): a history over many independent objects is linearizable exactly when
  its restriction to each object is.
 */
module Locality {
  import opened Linearizability

  // Every key's object, each in its initial state until it is used.
  function At<K, S, V>(m: Model<S, V>, s: map<K, S>, k: K): S {
    if k in s then s[k] else m.init
  }

  // Many independent objects at once: an operation acts on the object its input names.
  function Product<K(==), S, V>(m: Model<S, V>, key: V -> K): Model<map<K, S>, V> {
    Model(map[], (s: map<K, S>, input: V, output: V) =>
      var r := m.step(At(m, s, key(input)), input, output);
      (r.0, s[key(input) := r.1]))
  }

  function KeyOf<K, V>(ops: seq<Op<V>>, key: V -> K, x: nat): K
    requires x < |ops|
  {
    key(ops[x].input)
  }

  // The operations of an order that act on k.
  function Filter<K(==), V>(ops: seq<Op<V>>, key: V -> K, k: K, order: seq<nat>): seq<nat>
    requires InRange(order, |ops|)
  {
    if order == [] then []
    else
      var before, x := order[..|order| - 1], order[|order| - 1];
      if KeyOf(ops, key, x) == k then Filter(ops, key, k, before) + [x] else Filter(ops, key, k, before)
  }

  // A linearization of the operations on k alone.
  ghost predicate LinearizesKey<K, S, V>(m: Model<S, V>, ops: seq<Op<V>>, key: V -> K, k: K, order: seq<nat>) {
    && InRange(order, |ops|) && NoRepeats(order)
    && (forall x: nat {:trigger x in order} :: x < |ops| ==> (x in order <==> KeyOf(ops, key, x) == k))
    && RespectsRealTime(ops, order) && Legal(m, ops, order)
  }

  // ---------- filtering ----------

  lemma {:induction false} FilterMembers<K, V>(ops: seq<Op<V>>, key: V -> K, k: K, order: seq<nat>)
    requires InRange(order, |ops|)
    ensures InRange(Filter(ops, key, k, order), |ops|)
    ensures forall x: nat {:trigger x in Filter(ops, key, k, order)} :: x < |ops| ==>
            (x in Filter(ops, key, k, order) <==> x in order && KeyOf(ops, key, x) == k)
  {
    if order != [] {
      var before, x := order[..|order| - 1], order[|order| - 1];
      FilterMembers(ops, key, k, before);
      assert order == before + [x];
    }
  }

  lemma FilterMore<K, V>(ops: seq<Op<V>>, key: V -> K, k: K, order: seq<nat>, x: nat)
    requires InRange(order, |ops|) && x < |ops|
    ensures InRange(order + [x], |ops|)
    ensures Filter(ops, key, k, order + [x]) == Filter(ops, key, k, order) + if KeyOf(ops, key, x) == k then [x] else []
  {
    assert (order + [x])[..|order|] == order;
  }

  lemma StateMore<S, V>(m: Model<S, V>, ops: seq<Op<V>>, order: seq<nat>, x: nat)
    requires InRange(order, |ops|) && x < |ops|
    ensures InRange(order + [x], |ops|)
    ensures StateAfter(m, ops, order + [x]) == Next(m, ops, StateAfter(m, ops, order), x)
  {
    assert (order + [x])[..|order|] == order;
  }

  // The objects do not disturb each other.
  lemma {:induction false} StateOfKey<K, S, V>(m: Model<S, V>, ops: seq<Op<V>>, key: V -> K, k: K, order: seq<nat>)
    requires InRange(order, |ops|)
    ensures InRange(Filter(ops, key, k, order), |ops|)
    ensures At(m, StateAfter(Product(m, key), ops, order), k) == StateAfter(m, ops, Filter(ops, key, k, order))
  {
    FilterMembers(ops, key, k, order);
    if order != [] {
      var before, x := order[..|order| - 1], order[|order| - 1];
      StateOfKey(m, ops, key, k, before);
      if KeyOf(ops, key, x) == k { StateMore(m, ops, Filter(ops, key, k, before), x); }
    }
  }

  lemma AcceptsKey<K, S, V>(m: Model<S, V>, ops: seq<Op<V>>, key: V -> K, order: seq<nat>, x: nat)
    requires InRange(order, |ops|) && x < |ops|
    ensures InRange(Filter(ops, key, KeyOf(ops, key, x), order), |ops|)
    ensures Accepts(Product(m, key), ops, StateAfter(Product(m, key), ops, order), x)
       <==> Accepts(m, ops, StateAfter(m, ops, Filter(ops, key, KeyOf(ops, key, x), order)), x)
  {
    StateOfKey(m, ops, key, KeyOf(ops, key, x), order);
  }

  // ---------- from all objects to one ----------

  ghost predicate Sound<S, V>(m: Model<S, V>, ops: seq<Op<V>>, order: seq<nat>) {
    InRange(order, |ops|) && NoRepeats(order) && RespectsRealTime(ops, order) && Legal(m, ops, order)
  }

  lemma SoundLess<S, V>(m: Model<S, V>, ops: seq<Op<V>>, order: seq<nat>)
    requires Sound(m, ops, order) && order != []
    ensures var before, x := order[..|order| - 1], order[|order| - 1];
            && Sound(m, ops, before) && x !in before && Accepts(m, ops, StateAfter(m, ops, before), x)
            && forall y :: y in before ==> y < |ops| && !Precedes(ops, x, y)
  {
    var before, x := order[..|order| - 1], order[|order| - 1];
    forall k | 0 <= k < |before| ensures Accepts(m, ops, StateAfter(m, ops, before[..k]), before[k]) {
      assert before[..k] == order[..k] && before[k] == order[k];
    }
    forall y | y in before ensures y < |ops| && !Precedes(ops, x, y) {
      var i :| 0 <= i < |before| && before[i] == y;
      assert order[i] == y;
    }
  }

  lemma SoundMore<S, V>(m: Model<S, V>, ops: seq<Op<V>>, before: seq<nat>, x: nat)
    requires Sound(m, ops, before) && x < |ops| && x !in before && Accepts(m, ops, StateAfter(m, ops, before), x)
    requires forall y :: y in before ==> y < |ops| && !Precedes(ops, x, y)
    ensures Sound(m, ops, before + [x])
  {
    var order := before + [x];
    forall k | 0 <= k < |order| ensures Accepts(m, ops, StateAfter(m, ops, order[..k]), order[k]) {
      if k < |before| { assert order[..k] == before[..k] && order[k] == before[k]; }
          else { assert order[..k] == before; }
    }
    forall i, j | 0 <= i < j < |order| ensures !Precedes(ops, order[j], order[i]) {
      if j < |before| { assert order[i] == before[i] && order[j] == before[j]; }
          else { assert order[i] == before[i] && before[i] in before; }
    }
  }

  lemma {:induction false} FilterSound<K, S, V>(m: Model<S, V>, ops: seq<Op<V>>, key: V -> K, k: K, order: seq<nat>)
    requires Sound(Product(m, key), ops, order)
    ensures Sound(m, ops, Filter(ops, key, k, order))
  {
    if order != [] {
      var before, x := order[..|order| - 1], order[|order| - 1];
      SoundLess(Product(m, key), ops, order);
      FilterSound(m, ops, key, k, before);
      FilterMembers(ops, key, k, before);
      if KeyOf(ops, key, x) == k {
        AcceptsKey(m, ops, key, before, x);
        SoundMore(m, ops, Filter(ops, key, k, before), x);
      }
    }
  }

  lemma Restrict<K, S, V>(m: Model<S, V>, ops: seq<Op<V>>, key: V -> K, k: K, order: seq<nat>)
    requires IsLinearization(Product(m, key), ops, order)
    ensures LinearizesKey(m, ops, key, k, Filter(ops, key, k, order))
  {
    FilterSound(m, ops, key, k, order);
    FilterMembers(ops, key, k, order);
  }

  // ---------- from each object to all ----------

  // What has been merged so far is, for each object, a beginning of that object's order.
  ghost predicate Merging<K(!new), V>(ops: seq<Op<V>>, key: V -> K, orders: K -> seq<nat>, g: seq<nat>)
    requires InRange(g, |ops|)
  {
    forall k {:trigger orders(k)} :: Filter(ops, key, k, g) <= orders(k)
  }

  ghost predicate AllLinearized<K(!new), S, V>(m: Model<S, V>, ops: seq<Op<V>>, key: V -> K, orders: K -> seq<nat>) {
    forall k {:trigger orders(k)} :: LinearizesKey(m, ops, key, k, orders(k))
  }

  // The next operation of an object's order.
  function Head<K(==), V>(ops: seq<Op<V>>, key: V -> K, orders: K -> seq<nat>, g: seq<nat>, y: nat): (h: nat)
    requires InRange(g, |ops|) && y < |ops| && |Filter(ops, key, KeyOf(ops, key, y), g)| < |orders(KeyOf(ops, key, y))|
  {
    orders(KeyOf(ops, key, y))[|Filter(ops, key, KeyOf(ops, key, y), g)|]
  }

  // The operation after a beginning of an order is new to it, and began before any later one was over.
  lemma AfterDone<V>(ops: seq<Op<V>>, order: seq<nat>, done: seq<nat>, y: nat)
    requires WellTimed(ops) && InRange(order, |ops|) && NoRepeats(order) && RespectsRealTime(ops, order)
    requires done <= order && y in order && y !in done
    ensures |done| < |order| && order[|done|] !in done && y < |ops| && ops[order[|done|]].call <= ops[y].ret
  {
    var q :| 0 <= q < |order| && order[q] == y;
    forall i | 0 <= i < |done| ensures order[i] != y && order[i] == done[i] { assert done[i] in done; }
    assert q >= |done|;
    assert q > |done| ==> !Precedes(ops, order[q], order[|done|]);
  }

  // An operation not yet merged has not been passed in its object's order.
  lemma NotPassed<K(!new), S, V>(m: Model<S, V>, ops: seq<Op<V>>, key: V -> K, orders: K -> seq<nat>, g: seq<nat>,
      y: nat)
    requires WellTimed(ops) && AllLinearized(m, ops, key, orders) && InRange(g, |ops|) && Merging(ops, key, orders, g)
    requires y < |ops| && y !in g
    ensures |Filter(ops, key, KeyOf(ops, key, y), g)| < |orders(KeyOf(ops, key, y))|
    ensures var h := Head(ops, key, orders, g, y);
            h < |ops| && h !in g && KeyOf(ops, key, h) == KeyOf(ops, key, y) && ops[h].call <= ops[y].ret
  {
    var k := KeyOf(ops, key, y);
    var order, done := orders(k), Filter(ops, key, k, g);
    assert LinearizesKey(m, ops, key, k, order) && done <= order;
    FilterMembers(ops, key, k, g);
    AfterDone(ops, order, done, y);
    assert order[|done|] in order;
  }

  // Of the operations at the heads of their orders, the one called first can come next.
  lemma {:induction false} EarliestHead<K(!new), S, V>(m: Model<S, V>, ops: seq<Op<V>>, key: V -> K,
      orders: K -> seq<nat>, g: seq<nat>, n: nat)
    returns (x: nat)
    requires WellTimed(ops) && AllLinearized(m, ops, key, orders) && InRange(g, |ops|) && Merging(ops, key, orders, g)
    requires n <= |ops| && exists y: nat :: y < n && y !in g
    ensures x < |ops| && x !in g && |Filter(ops, key, KeyOf(ops, key, x), g)| < |orders(KeyOf(ops, key, x))|
            && x == Head(ops, key, orders, g, x)
    ensures forall y: nat :: y < n && y !in g ==> !Precedes(ops, y, x)
  {
    if n - 1 in g {
      x := EarliestHead(m, ops, key, orders, g, n - 1);
    } else {
      NotPassed(m, ops, key, orders, g, n - 1);
      x := Head(ops, key, orders, g, n - 1);
      if exists y: nat :: y < n - 1 && y !in g {
        var z := EarliestHead(m, ops, key, orders, g, n - 1);
        if ops[z].call <= ops[x].call { x := z; }
      }
    }
  }

  // The head of an object's order is accepted, since that object is where its order says.
  lemma HeadAccepted<K(!new), S, V>(m: Model<S, V>, ops: seq<Op<V>>, key: V -> K, order: seq<nat>, g: seq<nat>, x: nat)
    requires InRange(g, |ops|) && x < |ops| && InRange(order, |ops|) && Legal(m, ops, order)
    requires var done := Filter(ops, key, KeyOf(ops, key, x), g);
             done <= order && |done| < |order| && order[|done|] == x
    ensures Accepts(Product(m, key), ops, StateAfter(Product(m, key), ops, g), x)
  {
    var done := Filter(ops, key, KeyOf(ops, key, x), g);
    assert order[..|done|] == done;
    assert Accepts(m, ops, StateAfter(m, ops, order[..|done|]), order[|done|]);
    AcceptsKey(m, ops, key, g, x);
  }

  lemma StillMerging<K(!new), V>(ops: seq<Op<V>>, key: V -> K, orders: K -> seq<nat>, g: seq<nat>, x: nat)
    requires InRange(g, |ops|) && x < |ops| && Merging(ops, key, orders, g)
    requires |Filter(ops, key, KeyOf(ops, key, x), g)| < |orders(KeyOf(ops, key, x))|
             && x == Head(ops, key, orders, g, x)
    ensures InRange(g + [x], |ops|) && Merging(ops, key, orders, g + [x])
  {
    forall k ensures Filter(ops, key, k, g + [x]) <= orders(k) {
      assert Filter(ops, key, k, g) <= orders(k);
      FilterMore(ops, key, k, g, x);
    }
  }

  lemma ReachableMore<S, V>(m: Model<S, V>, ops: seq<Op<V>>, g: seq<nat>, x: nat)
    requires Reachable(m, ops, g) && Minimal(ops, SetOf(g), x) && Accepts(m, ops, StateAfter(m, ops, g), x)
    ensures Reachable(m, ops, g + [x])
  {
    assert (g + [x])[..|g|] == g;
  }

  lemma MergeStep<K(!new), S, V>(m: Model<S, V>, ops: seq<Op<V>>, key: V -> K, orders: K -> seq<nat>, g: seq<nat>)
    returns (x: nat)
    requires WellTimed(ops) && AllLinearized(m, ops, key, orders)
    requires Reachable(Product(m, key), ops, g) && Merging(ops, key, orders, g) && SetOf(g) != Everything(ops)
    ensures x < |ops| && x !in g
    ensures Reachable(Product(m, key), ops, g + [x]) && Merging(ops, key, orders, g + [x])
  {
    assert exists y: nat :: y < |ops| && y !in g;
    x := EarliestHead(m, ops, key, orders, g, |ops|);
    var k := KeyOf(ops, key, x);
    assert LinearizesKey(m, ops, key, k, orders(k));
    HeadAccepted(m, ops, key, orders(k), g, x);
    StillMerging(ops, key, orders, g, x);
    ReachableMore(Product(m, key), ops, g, x);
  }

  lemma LessLeft<V>(ops: seq<Op<V>>, g: seq<nat>, x: nat)
    requires x < |ops| && x !in g
    ensures |Everything(ops) - SetOf(g + [x])| < |Everything(ops) - SetOf(g)|
  {
    var left, less := Everything(ops) - SetOf(g), Everything(ops) - SetOf(g + [x]);
    assert SetOf(g + [x]) == SetOf(g) + {x};
    assert left == less + {x};
  }

  lemma {:induction false} Merge<K(!new), S, V>(m: Model<S, V>, ops: seq<Op<V>>, key: V -> K, orders: K -> seq<nat>,
      g: seq<nat>)
    requires WellTimed(ops) && AllLinearized(m, ops, key, orders) && Reachable(Product(m, key), ops, g)
             && Merging(ops, key, orders, g)
    ensures Linearizable(Product(m, key), ops)
    decreases |Everything(ops) - SetOf(g)|
  {
    CompleteIsLinearization(Product(m, key), ops, g);
    if SetOf(g) != Everything(ops) {
      var x := MergeStep(m, ops, key, orders, g);
      LessLeft(ops, g, x);
      Merge(m, ops, key, orders, g + [x]);
    }
  }

  ghost predicate KeyLinearizable<K, S, V>(m: Model<S, V>, ops: seq<Op<V>>, key: V -> K, k: K) {
    exists order: seq<nat> :: LinearizesKey(m, ops, key, k, order)
  }

  ghost function OrderFor<K, S, V>(m: Model<S, V>, ops: seq<Op<V>>, key: V -> K, k: K): (order: seq<nat>)
    ensures KeyLinearizable(m, ops, key, k) ==> LinearizesKey(m, ops, key, k, order)
  {
    if KeyLinearizable(m, ops, key, k) then var order: seq<nat> :| LinearizesKey(m, ops, key, k, order); order else []
  }

  /** Locality: the whole history is linearizable exactly when every object's part of it is. */
  lemma Local<K(!new), S, V>(m: Model<S, V>, ops: seq<Op<V>>, key: V -> K)
    requires WellTimed(ops)
    ensures Linearizable(Product(m, key), ops) <==> forall k :: KeyLinearizable(m, ops, key, k)
  {
    if Linearizable(Product(m, key), ops) {
      var order :| IsLinearization(Product(m, key), ops, order);
      forall k ensures KeyLinearizable(m, ops, key, k) { Restrict(m, ops, key, k, order); }
    }
    if forall k :: KeyLinearizable(m, ops, key, k) {
      var orders := (k: K) => OrderFor(m, ops, key, k);
      forall k ensures LinearizesKey(m, ops, key, k, orders(k)) { assert KeyLinearizable(m, ops, key, k); }
      Merge(m, ops, key, orders, []);
    }
  }

  // ---------- the operations of one object as a history of their own ----------

  // The operations among the first n that act on k, in history order.
  function IdsOf<K(==), V>(ops: seq<Op<V>>, key: V -> K, k: K, n: nat): (ids: seq<nat>)
    requires n <= |ops|
    ensures forall i :: 0 <= i < |ids| ==> ids[i] < n && KeyOf(ops, key, ids[i]) == k
    ensures NoRepeats(ids)
  {
    if n == 0 then []
    else IdsOf(ops, key, k, n - 1) + if KeyOf(ops, key, n - 1) == k then [n - 1] else []
  }

  lemma {:induction false} IdsComplete<K, V>(ops: seq<Op<V>>, key: V -> K, k: K, n: nat, x: nat)
    requires x < n <= |ops| && KeyOf(ops, key, x) == k
    ensures x in IdsOf(ops, key, k, n)
  {
    if x < n - 1 { IdsComplete(ops, key, k, n - 1, x); }
  }

  // The elements of s at the places q, in that order: a part of a history, or an order of places as one of operations.
  function Pick<T>(s: seq<T>, q: seq<nat>): (r: seq<T>)
    requires InRange(q, |s|)
    ensures |r| == |q| && forall i :: 0 <= i < |q| ==> r[i] == s[q[i]]
  {
    seq(|q|, i requires 0 <= i < |q| => s[q[i]])
  }

  lemma {:induction false} RenamedState<S, V>(m: Model<S, V>, ops: seq<Op<V>>, ids: seq<nat>, q: seq<nat>)
    requires InRange(ids, |ops|) && InRange(q, |ids|)
    ensures StateAfter(m, Pick(ops, ids), q) == StateAfter(m, ops, Pick(ids, q))
  {
    if q != [] {
      RenamedState(m, ops, ids, q[..|q| - 1]);
      assert Pick(ids, q)[..|q| - 1] == Pick(ids, q[..|q| - 1]);
    }
  }

  lemma RenamedLegal<S, V>(m: Model<S, V>, ops: seq<Op<V>>, ids: seq<nat>, q: seq<nat>)
    requires InRange(ids, |ops|) && InRange(q, |ids|)
    ensures Legal(m, Pick(ops, ids), q) <==> Legal(m, ops, Pick(ids, q))
  {
    var sub, order := Pick(ops, ids), Pick(ids, q);
    forall k | 0 <= k < |q|
      ensures Accepts(m, sub, StateAfter(m, sub, q[..k]), q[k]) <==>
              Accepts(m, ops, StateAfter(m, ops, order[..k]), order[k])
    {
      RenamedState(m, ops, ids, q[..k]);
      assert Pick(ids, q[..k]) == order[..k];
    }
  }

  lemma RenamedOrder<V>(ops: seq<Op<V>>, ids: seq<nat>, q: seq<nat>)
    requires InRange(ids, |ops|) && InRange(q, |ids|) && NoRepeats(ids)
    ensures NoRepeats(q) <==> NoRepeats(Pick(ids, q))
    ensures RespectsRealTime(Pick(ops, ids), q) <==> RespectsRealTime(ops, Pick(ids, q))
  {
    var sub, order := Pick(ops, ids), Pick(ids, q);
    forall i, j | 0 <= i < |q| && 0 <= j < |q|
      ensures (q[i] == q[j] <==> order[i] == order[j])
              && (Precedes(sub, q[j], q[i]) <==> Precedes(ops, order[j], order[i]))
    {
    }
  }

  lemma RenamedMembers<K, V>(ops: seq<Op<V>>, key: V -> K, k: K, q: seq<nat>)
    requires InRange(q, |IdsOf(ops, key, k, |ops|)|)
    ensures var ids := IdsOf(ops, key, k, |ops|);
            (forall i: nat :: i < |ids| ==> i in q) <==>
            (forall x: nat {:trigger x in Pick(ids, q)} :: x < |ops| ==>
                (x in Pick(ids, q) <==> KeyOf(ops, key, x) == k))
  {
    var ids := IdsOf(ops, key, k, |ops|);
    var order := Pick(ids, q);
    if forall i: nat :: i < |ids| ==> i in q {
      forall x: nat | x < |ops| && KeyOf(ops, key, x) == k ensures x in order {
        IdsComplete(ops, key, k, |ops|, x);
        var i: nat :| i < |ids| && ids[i] == x;
        assert i in q;
        var j :| 0 <= j < |q| && q[j] == i;
        assert order[j] == x;
      }
    }
    if forall x: nat {:trigger x in order} :: x < |ops| ==> (x in order <==> KeyOf(ops, key, x) == k) {
      forall i: nat | i < |ids| ensures i in q {
        assert ids[i] in order;
        var j :| 0 <= j < |order| && order[j] == ids[i];
        assert q[j] == i;
      }
    }
  }

  lemma RenamedLinearization<K, S, V>(m: Model<S, V>, ops: seq<Op<V>>, key: V -> K, k: K, q: seq<nat>)
    requires InRange(q, |IdsOf(ops, key, k, |ops|)|)
    ensures var ids := IdsOf(ops, key, k, |ops|);
            IsLinearization(m, Pick(ops, ids), q) <==> LinearizesKey(m, ops, key, k, Pick(ids, q))
  {
    var ids := IdsOf(ops, key, k, |ops|);
    RenamedLegal(m, ops, ids, q);
    RenamedOrder(ops, ids, q);
    RenamedMembers(ops, key, k, q);
  }

  lemma PlaceIn<K, S, V>(m: Model<S, V>, ops: seq<Op<V>>, key: V -> K, k: K, order: seq<nat>) returns (q: seq<nat>)
    requires LinearizesKey(m, ops, key, k, order)
    ensures InRange(q, |IdsOf(ops, key, k, |ops|)|) && Pick(IdsOf(ops, key, k, |ops|), q) == order
  {
    var ids := IdsOf(ops, key, k, |ops|);
    q := [];
    for i := 0 to |order|
      invariant |q| == i && InRange(q, |ids|) && forall j :: 0 <= j < i ==> ids[q[j]] == order[j]
    {
      assert order[i] in order;
      IdsComplete(ops, key, k, |ops|, order[i]);
      var p: nat :| p < |ids| && ids[p] == order[i];
      q := q + [p];
    }
  }

  /** An object's operations can be checked as a history of their own. */
  lemma SubLinearizable<K, S, V>(m: Model<S, V>, ops: seq<Op<V>>, key: V -> K, k: K)
    ensures Linearizable(m, Pick(ops, IdsOf(ops, key, k, |ops|))) <==> KeyLinearizable(m, ops, key, k)
  {
    var ids := IdsOf(ops, key, k, |ops|);
    if Linearizable(m, Pick(ops, ids)) {
      var q :| IsLinearization(m, Pick(ops, ids), q);
      RenamedLinearization(m, ops, key, k, q);
    }
    if KeyLinearizable(m, ops, key, k) {
      var order: seq<nat> :| LinearizesKey(m, ops, key, k, order);
      var q := PlaceIn(m, ops, key, k, order);
      RenamedLinearization(m, ops, key, k, q);
    }
  }

  lemma Unused<K, S, V>(m: Model<S, V>, ops: seq<Op<V>>, key: V -> K, k: K)
    requires forall x: nat {:trigger ops[x]} :: x < |ops| ==> KeyOf(ops, key, x) != k
    ensures KeyLinearizable(m, ops, key, k)
  {
    assert LinearizesKey(m, ops, key, k, []);
  }
}
