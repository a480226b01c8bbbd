/**
  What the checker decides: whether the operations of a concurrent history can be put in one order that respects
  real time and that the sequential model accepts.
 */
module Linearizability {

  // The sequential specification: an initial state, and whether an operation with this input and output can be
  // the next one, with the state it leads to.
  datatype Model<!S, !V> = Model(init: S, step: (S, V, V) -> (bool, S))

  // An operation and the moments of its call and its return.
  datatype Op<V> = Op(input: V, output: V, call: int, ret: int)

  predicate WellTimed<V>(ops: seq<Op<V>>) {
    forall i :: 0 <= i < |ops| ==> ops[i].call <= ops[i].ret
  }

  // One operation is over before the other begins.
  predicate Precedes<V>(ops: seq<Op<V>>, i: nat, j: nat)
    requires i < |ops| && j < |ops|
  {
    ops[i].ret < ops[j].call
  }

  predicate Accepts<S, V>(m: Model<S, V>, ops: seq<Op<V>>, s: S, x: nat)
    requires x < |ops|
  {
    m.step(s, ops[x].input, ops[x].output).0
  }

  function Next<S, V>(m: Model<S, V>, ops: seq<Op<V>>, s: S, x: nat): S
    requires x < |ops|
  {
    m.step(s, ops[x].input, ops[x].output).1
  }

  predicate InRange(order: seq<nat>, n: nat) {
    forall k :: 0 <= k < |order| ==> order[k] < n
  }

  function StateAfter<S, V>(m: Model<S, V>, ops: seq<Op<V>>, order: seq<nat>): S
    requires InRange(order, |ops|)
  {
    if order == [] then m.init
    else Next(m, ops, StateAfter(m, ops, order[..|order| - 1]), order[|order| - 1])
  }

  // ---------- the definition ----------

  predicate NoRepeats(order: seq<nat>) {
    forall i, j :: 0 <= i < j < |order| ==> order[i] != order[j]
  }

  // No operation is placed after one that began only when it was over.
  predicate RespectsRealTime<V>(ops: seq<Op<V>>, order: seq<nat>)
    requires InRange(order, |ops|)
  {
    forall i, j :: 0 <= i < j < |order| ==> !Precedes(ops, order[j], order[i])
  }

  predicate Legal<S, V>(m: Model<S, V>, ops: seq<Op<V>>, order: seq<nat>)
    requires InRange(order, |ops|)
  {
    forall k {:trigger order[k]} :: 0 <= k < |order| ==> Accepts(m, ops, StateAfter(m, ops, order[..k]), order[k])
  }

  // Everything that was over before some operation of the order began is in it too.
  predicate DownClosed<V>(ops: seq<Op<V>>, order: seq<nat>)
    requires InRange(order, |ops|)
  {
    forall i, y :: 0 <= i < |order| && 0 <= y < |ops| && Precedes(ops, y, order[i]) ==> y in order
  }

  // A beginning of a linearization, as far as it goes.
  ghost predicate IsPartialLinearization<S, V>(m: Model<S, V>, ops: seq<Op<V>>, order: seq<nat>) {
    && InRange(order, |ops|) && NoRepeats(order)
    && RespectsRealTime(ops, order) && DownClosed(ops, order) && Legal(m, ops, order)
  }

  ghost predicate IsLinearization<S, V>(m: Model<S, V>, ops: seq<Op<V>>, order: seq<nat>) {
    && InRange(order, |ops|) && NoRepeats(order)
    && (forall x: nat :: x < |ops| ==> x in order)
    && RespectsRealTime(ops, order) && Legal(m, ops, order)
  }

  ghost predicate Linearizable<S, V>(m: Model<S, V>, ops: seq<Op<V>>) {
    exists order: seq<nat> :: IsLinearization(m, ops, order)
  }

  // ---------- one operation at a time ----------

  function SetOf(order: seq<nat>): (r: set<nat>)
    ensures forall x :: x in r <==> x in order
  {
    set x | x in order
  }

  // Of the operations not yet placed, none was over before x began.
  predicate Minimal<V>(ops: seq<Op<V>>, done: set<nat>, x: nat) {
    x < |ops| && x !in done && forall y {:trigger Precedes(ops, y, x)} :: 0 <= y < |ops| && y !in done ==>
        !Precedes(ops, y, x)
  }

  // Built up by placing a minimal operation that the model accepts, again and again.
  ghost predicate Reachable<S, V>(m: Model<S, V>, ops: seq<Op<V>>, order: seq<nat>)
    ensures Reachable(m, ops, order) ==> InRange(order, |ops|)
  {
    if order == [] then true
    else
      var before, x := order[..|order| - 1], order[|order| - 1];
      Reachable(m, ops, before) && Minimal(ops, SetOf(before), x) && Accepts(m, ops, StateAfter(m, ops, before), x)
  }

  /** The two views of a partial linearization are the same. */
  lemma {:induction false} PartialIsReachable<S, V>(m: Model<S, V>, ops: seq<Op<V>>, order: seq<nat>)
    requires WellTimed(ops)
    ensures IsPartialLinearization(m, ops, order) <==> Reachable(m, ops, order)
  {
    if order != [] {
      var before, x := order[..|order| - 1], order[|order| - 1];
      PartialIsReachable(m, ops, before);
      assert order == before + [x];
      if IsPartialLinearization(m, ops, order) { DropLast(m, ops, order); }
      if Reachable(m, ops, order) { PlaceLast(m, ops, before, x); }
    }
  }

  lemma DropLast<S, V>(m: Model<S, V>, ops: seq<Op<V>>, order: seq<nat>)
    requires WellTimed(ops) && IsPartialLinearization(m, ops, order) && order != []
    ensures var before, x := order[..|order| - 1], order[|order| - 1];
            && IsPartialLinearization(m, ops, before)
            && Minimal(ops, SetOf(before), x) && Accepts(m, ops, StateAfter(m, ops, before), x)
  {
    var before, x := order[..|order| - 1], order[|order| - 1];
    ShorterOrder(m, ops, order);
    assert order == before + [x];
    assert order[..|before|] == before;
    forall y | 0 <= y < |ops| && y !in before ensures !Precedes(ops, y, x) {
      assert y in order ==> y == x;
    }
  }

  lemma ShorterInTime<V>(ops: seq<Op<V>>, order: seq<nat>)
    requires WellTimed(ops) && order != [] && InRange(order, |ops|) && NoRepeats(order) && RespectsRealTime(ops, order)
             && DownClosed(ops, order)
    ensures InRange(order[..|order| - 1], |ops|) && DownClosed(ops, order[..|order| - 1])
  {
    var before, x := order[..|order| - 1], order[|order| - 1];
    assert order == before + [x];
    forall i, y | 0 <= i < |before| && 0 <= y < |ops| && Precedes(ops, y, before[i]) ensures y in before {
      assert before[i] == order[i] && y in order;
      assert !Precedes(ops, order[|order| - 1], order[i]);
    }
  }

  lemma ShorterOrder<S, V>(m: Model<S, V>, ops: seq<Op<V>>, order: seq<nat>)
    requires WellTimed(ops) && IsPartialLinearization(m, ops, order) && order != []
    ensures IsPartialLinearization(m, ops, order[..|order| - 1])
  {
    var before := order[..|order| - 1];
    ShorterInTime(ops, order);
    forall k | 0 <= k < |before| ensures Accepts(m, ops, StateAfter(m, ops, before[..k]), before[k]) {
      assert before[..k] == order[..k] && before[k] == order[k];
    }
  }

  lemma PlaceLast<S, V>(m: Model<S, V>, ops: seq<Op<V>>, before: seq<nat>, x: nat)
    requires WellTimed(ops) && IsPartialLinearization(m, ops, before)
    requires Minimal(ops, SetOf(before), x) && Accepts(m, ops, StateAfter(m, ops, before), x)
    ensures IsPartialLinearization(m, ops, before + [x])
  {
    var order := before + [x];
    PlacedInTime(m, ops, before, x);
    forall i, y | 0 <= i < |order| && 0 <= y < |ops| && Precedes(ops, y, order[i]) ensures y in order {
      if i < |before| { assert order[i] == before[i]; }
    }
    forall k | 0 <= k < |order| ensures Accepts(m, ops, StateAfter(m, ops, order[..k]), order[k]) {
      if k < |before| { assert order[..k] == before[..k] && order[k] == before[k]; }
          else { assert order[..k] == before; }
    }
  }

  lemma PlacedInTime<S, V>(m: Model<S, V>, ops: seq<Op<V>>, before: seq<nat>, x: nat)
    requires WellTimed(ops) && IsPartialLinearization(m, ops, before) && Minimal(ops, SetOf(before), x)
    ensures RespectsRealTime(ops, before + [x]) && NoRepeats(before + [x])
  {
    var order := before + [x];
    forall i, j | 0 <= i < j < |order| ensures !Precedes(ops, order[j], order[i]) {
      if j < |before| { assert order[i] == before[i] && order[j] == before[j]; } else { assert order[i] == before[i]; }
    }
  }

  /** A linearization is a partial one that has placed everything. */
  lemma CompleteIsLinearization<S, V>(m: Model<S, V>, ops: seq<Op<V>>, order: seq<nat>)
    requires WellTimed(ops)
    ensures IsLinearization(m, ops, order) <==> Reachable(m, ops, order) && SetOf(order) == Everything(ops)
  {
    PartialIsReachable(m, ops, order);
  }

  function Everything<V>(ops: seq<Op<V>>): (r: set<nat>)
    ensures forall x: nat :: x in r <==> x < |ops|
  {
    Below(|ops|)
  }

  function Below(n: nat): (r: set<nat>)
    ensures |r| == n && forall x: nat :: x in r <==> x < n
  {
    if n == 0 then {} else Below(n - 1) + {n - 1}
  }
}
