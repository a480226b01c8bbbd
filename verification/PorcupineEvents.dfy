/**
  Checking a history given as events in order: operation ids are arbitrary, and are renumbered by first appearance.
 */
module PorcupineEvents {
  import opened Sets
  import opened Linearizability
  import opened PorcupineList
  import opened PorcupinePositions
  import opened PorcupineParallel

  datatype RawEvent<V> = RawEvent(isReturn: bool, value: V, id: int)

  // Each operation has a call and, later, a return, and nothing else.
  ghost predicate Paired<V>(events: seq<RawEvent<V>>) {
    && (forall p, q {:trigger events[p], events[q]} :: 0 <= p < q < |events| && events[p].id == events[q].id ==>
         !events[p].isReturn && events[q].isReturn)
    && (forall p {:trigger HasOther(events, p)} :: 0 <= p < |events| ==> HasOther(events, p))
  }

  ghost predicate HasOther<V>(events: seq<RawEvent<V>>, p: nat)
    requires p < |events|
  {
    exists q :: 0 <= q < |events| && q != p && events[q].id == events[p].id
  }

  // The position of an operation's call, or of its return.
  ghost predicate IsAt<V>(events: seq<RawEvent<V>>, id: int, isReturn: bool, p: nat) {
    p < |events| && events[p].id == id && events[p].isReturn == isReturn
  }

  lemma BothEvents<V>(events: seq<RawEvent<V>>, p: nat) returns (call: nat, ret: nat)
    requires Paired(events) && p < |events|
    ensures call < ret && IsAt(events, events[p].id, false, call) && IsAt(events, events[p].id, true, ret)
    ensures p == if events[p].isReturn then ret else call
  {
    assert HasOther(events, p);
    var q: nat :| q < |events| && q != p && events[q].id == events[p].id;
    call, ret := if p < q then p else q, if p < q then q else p;
  }

  // ---------- renumbering ----------

  // Different ids get different numbers, and the numbers used are those below |m|.
  ghost predicate Numbers(m: map<int, nat>) {
    && (forall a, b {:trigger m[a], m[b]} :: a in m && b in m && m[a] == m[b] ==> a == b)
    && (forall a {:trigger m[a]} :: a in m ==> m[a] < |m|)
  }

  ghost predicate Renumbered<V>(events: seq<RawEvent<V>>, m: map<int, nat>, history: seq<Event<V>>) {
    && |history| == |events|
    && forall p {:trigger events[p]} {:trigger history[p]} :: 0 <= p < |events| ==>
         events[p].id in m && history[p] == Event(events[p].isReturn, events[p].value, m[events[p].id])
  }

  // The numbers of the operations whose return has been passed.
  ghost function Closed<V>(history: seq<Event<V>>): set<nat> {
    set p | 0 <= p < |history| && history[p].isReturn :: history[p].id
  }

  lemma ClosedMore<V>(history: seq<Event<V>>, e: Event<V>)
    ensures Closed(history + [e]) == Closed(history) + if e.isReturn then {e.id} else {}
  {
    var more := history + [e];
    forall id | id in Closed(history) ensures id in Closed(more) {
      var p :| 0 <= p < |history| && history[p].isReturn && history[p].id == id;
      assert more[p] == history[p];
    }
    assert e.isReturn ==> more[|history|] == e;
  }

  function Extended(m: map<int, nat>, id: int): map<int, nat> {
    if id in m then m else m[id := |m|]
  }

  // Numbers by first appearance among the first i events.
  function Numbering<V>(events: seq<RawEvent<V>>, i: nat): map<int, nat>
    requires i <= |events|
  {
    if i == 0 then map[] else Extended(Numbering(events, i - 1), events[i - 1].id)
  }

  // After i events: they are renumbered, and the operations met have made a call each, and some a return.
  ghost predicate Progress<V>(events: seq<RawEvent<V>>, i: nat, m: map<int, nat>, history: seq<Event<V>>) {
    && i <= |events| && m == Numbering(events, i) && Renumbered(events[..i], m, history) && Numbers(m)
    && (forall a {:trigger a in m} :: a in m ==> Met(events, i, a))
    && (Paired(events) ==> i == |m| + |Closed(history)|)
  }

  ghost predicate Met<V>(events: seq<RawEvent<V>>, i: nat, id: int)
    requires i <= |events|
  {
    exists p :: 0 <= p < i && events[p].id == id
  }

  lemma RenumberedMore<V>(events: seq<RawEvent<V>>, i: nat, m: map<int, nat>, history: seq<Event<V>>)
    requires i < |events| && Renumbered(events[..i], m, history)
    ensures var m', v := Extended(m, events[i].id), events[i];
            Renumbered(events[..i + 1], m', history + [Event(v.isReturn, v.value, m'[v.id])])
  {
    var m', v := Extended(m, events[i].id), events[i];
    var history' := history + [Event(v.isReturn, v.value, m'[v.id])];
    forall p | 0 <= p < i + 1
        ensures events[p].id in m' && history'[p] == Event(events[p].isReturn, events[p].value, m'[events[p].id]) {
      if p < i { assert events[..i][p] == events[p]; }
    }
  }

  lemma CountMore<V>(events: seq<RawEvent<V>>, i: nat, m: map<int, nat>, history: seq<Event<V>>)
    requires Paired(events) && i < |events| && Progress(events, i, m, history)
    ensures var m', v := Extended(m, events[i].id), events[i];
            i + 1 == |m'| + |Closed(history + [Event(v.isReturn, v.value, m'[v.id])])|
  {
    var m', v := Extended(m, events[i].id), events[i];
    ClosedMore(history, Event(v.isReturn, v.value, m'[v.id]));
    var call, ret := BothEvents(events, i);
    if v.isReturn {
      assert events[..i][call] == events[call];
      forall p | 0 <= p < |history| && history[p].isReturn ensures history[p].id != m'[v.id] {
        assert events[..i][p] == events[p];
      }
    } else {
      assert !Met(events, i, v.id);
    }
  }

  lemma ProgressMore<V>(events: seq<RawEvent<V>>, i: nat, m: map<int, nat>, history: seq<Event<V>>)
    requires i < |events| && Progress(events, i, m, history)
    ensures var m', v := Extended(m, events[i].id), events[i];
            Progress(events, i + 1, m', history + [Event(v.isReturn, v.value, m'[v.id])])
  {
    RenumberedMore(events, i, m, history);
    if Paired(events) { CountMore(events, i, m, history); }
    var m' := Extended(m, events[i].id);
    forall a | a in m' ensures Met(events, i + 1, a) {
      if a in m {
        assert Met(events, i, a);
      } else {
        assert events[i].id == a;
      }
    }
  }

  method Renumber<V>(events: seq<RawEvent<V>>) returns (history: seq<Event<V>>)
    ensures Progress(events, |events|, Numbering(events, |events|), history)
  {
    history := [];
    var renumbering: map<int, nat> := map[];
    var id := 0;
    assert events[..0] == [];
    for i := 0 to |events|
      invariant id == |renumbering| && Progress(events, i, renumbering, history)
    {
      var v := events[i];
      ProgressMore(events, i, renumbering, history);
      ghost var more := Extended(renumbering, v.id);
      ghost var longer := history + [Event(v.isReturn, v.value, more[v.id])];
      if v.id in renumbering {
        history := history + [Event(v.isReturn, v.value, renumbering[v.id])];
      } else {
        history := history + [Event(v.isReturn, v.value, id)];
        renumbering := renumbering[v.id := id];
        id := id + 1;
      }
      assert renumbering == more && history == longer;
    }
  }

  // ---------- the operations ----------

  // The operations with the positions of their calls and returns, by number.
  ghost predicate Describes<V>(events: seq<RawEvent<V>>, m: map<int, nat>, ops: seq<Op<V>>) {
    && |ops| == |m|
    && forall a {:trigger m[a]} :: a in m ==> m[a] < |ops| && DescribesAt(events, a, ops[m[a]])
  }

  ghost predicate DescribesAt<V>(events: seq<RawEvent<V>>, id: int, op: Op<V>) {
    && 0 <= op.call < op.ret && IsAt(events, id, false, op.call) && IsAt(events, id, true, op.ret)
    && op.input == events[op.call].value && op.output == events[op.ret].value
  }

  // Every number is used.
  lemma {:induction false} NumberUsed(m: map<int, nat>, n: nat) returns (a: int)
    requires Numbers(m) && n < |m|
    ensures a in m && m[a] == n
  {
    var used := set b | b in m :: m[b];
    ImageSize(m, m.Keys);
    assert used == set b | b in m.Keys :: m[b];
    assert used <= Below(|m|);
    if n !in used {
      assert used <= Below(|m|) - {n};
      SubsetSize(used, Below(|m|) - {n});
      assert false;
    }
    a :| a in m && m[a] == n;
  }

  lemma Any(keys: set<int>) returns (k: int)
    requires keys != {}
    ensures k in keys
  {
    assert exists i :: i in keys by {
      assert !(forall i :: i !in keys) by { assert (forall i :: i !in keys) ==> keys == {}; }
    }
    k :| k in keys;
  }

  lemma {:induction false} ImageSize(m: map<int, nat>, keys: set<int>)
    requires Numbers(m) && keys <= m.Keys
    ensures |set b | b in keys :: m[b]| == |keys|
  {
    var image := set b | b in keys :: m[b];
    if keys != {} {
      var k := Any(keys);
      var rest := set b | b in keys - {k} :: m[b];
      ImageSize(m, keys - {k});
      assert image == rest + {m[k]};
      assert m[k] !in rest;
    }
  }

  // The operations of a paired history, numbered.
  lemma OperationsOf<V>(events: seq<RawEvent<V>>, m: map<int, nat>, history: seq<Event<V>>) returns (ops: seq<Op<V>>)
    requires Paired(events) && Progress(events, |events|, m, history)
    ensures Describes(events, m, ops)
  {
    ops := [];
    for n := 0 to |m|
      invariant |ops| == n && forall a {:trigger m[a]} :: a in m && m[a] < n ==> DescribesAt(events, a, ops[m[a]])
    {
      var a := NumberUsed(m, n);
      assert Met(events, |events|, a);
      var p: nat :| p < |events| && events[p].id == a;
      var call, ret := BothEvents(events, p);
      ops := ops + [Op(events[call].value, events[ret].value, call, ret)];
    }
  }

  lemma DescribedIndexed<V>(events: seq<RawEvent<V>>, m: map<int, nat>, history: seq<Event<V>>, ops: seq<Op<V>>)
    requires Paired(events) && Progress(events, |events|, m, history) && Describes(events, m, ops)
    ensures Indexed(history, ops)
  {
    assert events[..|events|] == events;
    forall id | 0 <= id < |ops| ensures EventsOf(history, ops, id) {
      var a := NumberUsed(m, id);
      assert DescribesAt(events, a, ops[m[a]]);
    }
    forall p | 0 <= p < |history| ensures history[p].id < |ops| && PositionOf(ops, history[p]) == p {
      var a := events[p].id;
      assert DescribesAt(events, a, ops[m[a]]);
      var call, ret := BothEvents(events, p);
    }
    AllClosed(m, history, ops);
  }

  lemma AllClosed<V>(m: map<int, nat>, history: seq<Event<V>>, ops: seq<Op<V>>)
    requires |ops| == |m| && |history| == |m| + |Closed(history)|
    requires forall id {:trigger ops[id]} :: 0 <= id < |ops| ==> EventsOf(history, ops, id)
    requires forall p {:trigger history[p]} :: 0 <= p < |history| ==> history[p].id < |ops|
    ensures |history| == 2 * |ops|
  {
    forall id: nat | id < |ops| ensures id in Closed(history) {
      assert EventsOf(history, ops, id);
      assert history[ops[id].ret].isReturn && history[ops[id].ret].id == id;
    }
    assert Closed(history) == Below(|ops|);
  }

  lemma OneDescription<V>(events: seq<RawEvent<V>>, m: map<int, nat>, a: seq<Op<V>>, b: seq<Op<V>>)
    requires Paired(events) && Numbers(m) && Describes(events, m, a) && Describes(events, m, b)
    ensures a == b
  {
    forall n | 0 <= n < |a| ensures a[n] == b[n] {
      var id := NumberUsed(m, n);
      assert DescribesAt(events, id, a[m[id]]) && DescribesAt(events, id, b[m[id]]);
    }
  }

  // The operations, numbered by first appearance and each lasting from its call to its return, are linearizable.
  ghost predicate EventsLinearizable<S, V(!new)>(m: Model<S, V>, events: seq<RawEvent<V>>) {
    exists ops :: Describes(events, Numbering(events, |events|), ops) && Linearizable(m, ops)
  }

  /** Checks a history of events. */
  method CheckEvents<S(==, !new), V(!new)>(m: Model<S, V>, events: seq<RawEvent<V>>, verbose: bool)
      returns (result: CheckResult)
    requires Paired(events)
    ensures result == Ok <==> EventsLinearizable(m, events)
  {
    var history := Renumber(events);
    ghost var ids := Numbering(events, |events|);
    ghost var ops := OperationsOf(events, ids, history);
    DescribedIndexed(events, ids, history, ops);
    var reports;
    result, reports := CheckParallel(m, [history], verbose, [ops]);
    assert [ops][0] == ops;
    forall other | Describes(events, ids, other) ensures other == ops { OneDescription(events, ids, other, ops); }
  }
}
