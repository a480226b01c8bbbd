/**
  Where the checker's linked list stands in relation to the history: the entries not yet lifted, in history order.
 */
module PorcupinePositions {
  import opened Options
  import opened Linearizability
  import opened PorcupineList

  // The history holds exactly the calls and returns of the operations, each at its own position.
  ghost predicate Indexed<V>(history: seq<Event<V>>, ops: seq<Op<V>>) {
    && |history| == 2 * |ops|
    && (forall id {:trigger ops[id]} :: 0 <= id < |ops| ==> EventsOf(history, ops, id))
    && (forall p {:trigger history[p]} :: 0 <= p < |history| ==>
          history[p].id < |ops| && PositionOf(ops, history[p]) == p)
  }

  ghost predicate EventsOf<V>(history: seq<Event<V>>, ops: seq<Op<V>>, id: nat)
    requires id < |ops|
  {
    && 0 <= ops[id].call < ops[id].ret < |history|
    && history[ops[id].call] == Event(false, ops[id].input, id)
    && history[ops[id].ret] == Event(true, ops[id].output, id)
  }

  function PositionOf<V>(ops: seq<Op<V>>, e: Event<V>): int
    requires e.id < |ops|
  {
    if e.isReturn then ops[e.id].ret else ops[e.id].call
  }

  lemma IndexedWellTimed<V>(history: seq<Event<V>>, ops: seq<Op<V>>)
    requires Indexed(history, ops)
    ensures WellTimed(ops)
  {
    forall i | 0 <= i < |ops| ensures ops[i].call < ops[i].ret { assert EventsOf(history, ops, i); }
  }

  // ---------- the positions left ----------

  predicate Ascending(pos: seq<nat>) {
    forall i, j :: 0 <= i < j < |pos| ==> pos[i] < pos[j]
  }

  ghost predicate Lists<V>(pos: seq<nat>, history: seq<Event<V>>, done: set<nat>) {
    Ascending(pos) && forall p: nat {:trigger p in pos} :: p in pos <==> p < |history| && history[p].id !in done
  }

  function PositionsFrom<V>(history: seq<Event<V>>, done: set<nat>, from: nat): (r: seq<nat>)
    requires from <= |history|
    ensures forall k :: 0 <= k < |r| ==> from <= r[k] < |history| && history[r[k]].id !in done
    decreases |history| - from
  {
    if from == |history| then []
    else
      var rest := PositionsFrom(history, done, from + 1);
      if history[from].id in done then rest else [from] + rest
  }

  function Positions<V>(history: seq<Event<V>>, done: set<nat>): (r: seq<nat>)
    ensures forall k :: 0 <= k < |r| ==> r[k] < |history| && history[r[k]].id !in done
  {
    PositionsFrom(history, done, 0)
  }

  lemma {:induction false} PositionsFromList<V>(history: seq<Event<V>>, done: set<nat>, from: nat)
    requires from <= |history|
    ensures Ascending(PositionsFrom(history, done, from))
    ensures forall p: nat {:trigger p in PositionsFrom(history, done, from)} ::
              p in PositionsFrom(history, done, from) <==> from <= p < |history| && history[p].id !in done
    decreases |history| - from
  {
    if from < |history| {
      PositionsFromList(history, done, from + 1);
      var rest := PositionsFrom(history, done, from + 1);
      var r := PositionsFrom(history, done, from);
      forall p: nat ensures p in r <==> from <= p < |history| && history[p].id !in done {
        assert p in rest <==> from + 1 <= p < |history| && history[p].id !in done;
      }
    }
  }

  lemma PositionsList<V>(history: seq<Event<V>>, done: set<nat>)
    ensures Lists(Positions(history, done), history, done)
  {
    PositionsFromList(history, done, 0);
  }

  lemma Tail(a: seq<nat>, p: nat)
    requires a != [] && Ascending(a)
    ensures p in a[1..] <==> p in a && p != a[0]
  {
    assert a == [a[0]] + a[1..];
    assert forall k :: 0 <= k < |a[1..]| ==> a[1..][k] == a[k + 1];
  }

  lemma {:induction false} AscendingUnique(a: seq<nat>, b: seq<nat>)
    requires Ascending(a) && Ascending(b) && forall p: nat :: p in a <==> p in b
    ensures a == b
  {
    if a == [] {
      assert forall k :: 0 <= k < |b| ==> b[k] in b;
    } else {
      assert a[0] in b && b != [];
      assert b[0] in a;
      assert a[0] == b[0];
      forall p: nat ensures p in a[1..] <==> p in b[1..] {
        Tail(a, p);
        Tail(b, p);
      }
      AscendingUnique(a[1..], b[1..]);
    }
  }

  lemma RemoveAscending(pos: seq<nat>, i: nat)
    requires Ascending(pos) && i < |pos|
    ensures Ascending(RemoveAt(pos, i)) && forall p: nat :: p in RemoveAt(pos, i) <==> p in pos && p != pos[i]
  {
    var r := RemoveAt(pos, i);
    forall p: nat ensures p in r <==> p in pos && p != pos[i] {
      assert pos == pos[..i] + [pos[i]] + pos[i + 1..];
    }
  }

  // Placing an operation removes its two positions.
  lemma PositionsWithout<V>(history: seq<Event<V>>, ops: seq<Op<V>>, done: set<nat>, x: nat, i: nat, j: nat)
    requires Indexed(history, ops) && x < |ops| && x !in done
    requires var pos := Positions(history, done);
             i < j < |pos| && pos[i] == ops[x].call && pos[j] == ops[x].ret
    ensures RemoveAt(RemoveAt(Positions(history, done), i), j - 1) == Positions(history, done + {x})
  {
    var pos := Positions(history, done);
    var mid := RemoveAt(pos, i);
    assert mid[j - 1] == pos[j];
    PositionsList(history, done);
    PositionsList(history, done + {x});
    RemoveAscending(pos, i);
    RemoveAscending(mid, j - 1);
    forall p: nat ensures p in RemoveAt(mid, j - 1) <==> p in Positions(history, done + {x}) {
      if p < |history| { TwoEvents(history, ops, x, p); }
    }
    AscendingUnique(RemoveAt(mid, j - 1), Positions(history, done + {x}));
  }

  lemma TwoEvents<V>(history: seq<Event<V>>, ops: seq<Op<V>>, x: nat, p: nat)
    requires Indexed(history, ops) && x < |ops| && p < |history|
    ensures history[p].id == x <==> p == ops[x].call || p == ops[x].ret
  {
    assert EventsOf(history, ops, x) && PositionOf(ops, history[p]) == p;
  }

  // ---------- the list ----------

  // `list`, sentinel first, shows the entries of the operations not done.
  ghost predicate Shows<V>(list: seq<Node<V>>, nodes: seq<Node<V>>, history: seq<Event<V>>, done: set<nat>) {
    |nodes| == |history| && Aligned(list, nodes, Positions(history, done))
  }

  ghost predicate Aligned<V>(list: seq<Node<V>>, nodes: seq<Node<V>>, pos: seq<nat>) {
    && |list| == |pos| + 1
    && forall k {:trigger pos[k]} :: 0 <= k < |pos| ==> pos[k] < |nodes| && list[k + 1] == nodes[pos[k]]
  }

  lemma ShowsAll<V>(head: Node<V>, nodes: seq<Node<V>>, history: seq<Event<V>>)
    requires |nodes| == |history|
    ensures Shows([head] + nodes, nodes, history, {})
  {
    var all := seq(|history|, i => i);
    assert forall p: nat :: p in all <==> p < |history| by {
      forall p: nat | p < |history| ensures p in all { assert all[p] == p; }
    }
    PositionsList(history, {});
    AscendingUnique(all, Positions(history, {}));
  }

  // Where an operation still in the list has its return.
  lemma ReturnIndex<V>(history: seq<Event<V>>, ops: seq<Op<V>>, done: set<nat>, x: nat, i: nat) returns (j: nat)
    requires Indexed(history, ops) && x < |ops| && x !in done
    requires i < |Positions(history, done)| && Positions(history, done)[i] == ops[x].call
    ensures i < j < |Positions(history, done)| && Positions(history, done)[j] == ops[x].ret
  {
    var pos := Positions(history, done);
    PositionsList(history, done);
    assert EventsOf(history, ops, x);
    assert ops[x].ret in pos;
    j :| 0 <= j < |pos| && pos[j] == ops[x].ret;
  }

  // Where element k of a sequence without positions i and j came from.
  function Shift(i: nat, j: nat, k: nat): nat {
    if k < i then k else if k < j - 1 then k + 1 else k + 2
  }

  lemma RemovedTwo<T>(s: seq<T>, i: nat, j: nat, k: nat)
    requires i < j < |s| && k < |s| - 2
    ensures RemoveAt(RemoveAt(s, i), j - 1)[k] == s[Shift(i, j, k)]
  {
  }

  lemma AlignedWithout<V>(list: seq<Node<V>>, nodes: seq<Node<V>>, pos: seq<nat>, i: nat, j: nat)
    requires Aligned(list, nodes, pos) && i < j < |pos|
    ensures Aligned(RemoveAt(RemoveAt(list, i + 1), j), nodes, RemoveAt(RemoveAt(pos, i), j - 1))
  {
    var pos', list' := RemoveAt(RemoveAt(pos, i), j - 1), RemoveAt(RemoveAt(list, i + 1), j);
    forall k | 0 <= k < |pos'| ensures pos'[k] < |nodes| && list'[k + 1] == nodes[pos'[k]] {
      RemovedTwo(pos, i, j, k);
      RemovedTwo(list, i + 1, j + 1, k + 1);
    }
  }

  lemma ShowsWithout<V>(list: seq<Node<V>>, nodes: seq<Node<V>>, history: seq<Event<V>>, ops: seq<Op<V>>,
      done: set<nat>, x: nat, i: nat, j: nat)
    requires Indexed(history, ops) && Shows(list, nodes, history, done) && x < |ops| && x !in done
    requires var pos := Positions(history, done);
             i < j < |pos| && pos[i] == ops[x].call && pos[j] == ops[x].ret
    ensures Shows(RemoveAt(RemoveAt(list, i + 1), j), nodes, history, done + {x})
  {
    PositionsWithout(history, ops, done, x, i, j);
    AlignedWithout(list, nodes, Positions(history, done), i, j);
  }

  // A call node in the list knows its return, a return node has none.
  lemma {:induction false} NextReturnIs<V>(history: seq<Event<V>>, ops: seq<Op<V>>, id: nat, from: nat)
    requires Indexed(history, ops) && id < |ops| && from <= ops[id].ret
    ensures NextReturn(history, id, from) == Some(ops[id].ret)
    decreases |history| - from
  {
    assert EventsOf(history, ops, id);
    if from < ops[id].ret {
      assert PositionOf(ops, history[from]) == from;
      NextReturnIs(history, ops, id, from + 1);
    }
  }

  lemma NodeAt<V>(nodes: seq<Node<V>>, history: seq<Event<V>>, ops: seq<Op<V>>, p: nat)
    requires Indexed(history, ops) && Represents(nodes, history, 0) && p < |history|
    ensures |nodes| == |history| && nodes[p].id == history[p].id && nodes[p].value == Some(history[p].value)
    ensures history[p].isReturn ==> nodes[p].matching == null
    ensures !history[p].isReturn ==>
              history[p].id < |ops| && 0 <= ops[history[p].id].ret < |nodes|
              && nodes[p].matching == nodes[ops[history[p].id].ret]
  {
    assert RepresentsAt(nodes, history, 0, p);
    if !history[p].isReturn {
      assert EventsOf(history, ops, history[p].id) && PositionOf(ops, history[p]) == p;
      NextReturnIs(history, ops, history[p].id, p);
    }
  }

  // ---------- the cursor ----------

  // Only calls have been passed on the way to entry i of those left.
  ghost predicate CallsBefore<V>(history: seq<Event<V>>, done: set<nat>, i: nat) {
    var pos := Positions(history, done);
    i <= |pos| && forall k {:trigger pos[k]} :: 0 <= k < i ==> !history[pos[k]].isReturn
  }

  // The entry at the cursor is a call: its operation may come next in real time.
  lemma CallAtCursor<V>(history: seq<Event<V>>, ops: seq<Op<V>>, done: set<nat>, i: nat)
    requires Indexed(history, ops) && CallsBefore(history, done, i) && i < |Positions(history, done)|
    requires !history[Positions(history, done)[i]].isReturn
    ensures var pos := Positions(history, done);
            var x := history[pos[i]].id;
            && Minimal(ops, done, x) && ops[x].call == pos[i] && CallsBefore(history, done, i + 1)
            && history[pos[i]].value == ops[x].input
  {
    var pos := Positions(history, done);
    PositionsList(history, done);
    var x := history[pos[i]].id;
    assert PositionOf(ops, history[pos[i]]) == pos[i];
    assert EventsOf(history, ops, x);
    forall y | 0 <= y < |ops| && y !in done ensures !Precedes(ops, y, x) {
      assert EventsOf(history, ops, y);
      assert ops[y].ret in pos;
      var k :| 0 <= k < |pos| && pos[k] == ops[y].ret;
    }
  }

  // The entry at the cursor is a return: whatever may come next was called before it.
  lemma ReturnAtCursor<V>(history: seq<Event<V>>, ops: seq<Op<V>>, done: set<nat>, i: nat, x: nat)
    requires Indexed(history, ops) && i < |Positions(history, done)| && history[Positions(history, done)[i]].isReturn
    requires Minimal(ops, done, x)
    ensures ops[x].call < Positions(history, done)[i]
  {
    var p := Positions(history, done)[i];
    assert PositionOf(ops, history[p]) == p;
    assert !Precedes(ops, history[p].id, x);
    assert EventsOf(history, ops, x);
  }

  // Between two neighbouring entries nothing else is called.
  lemma NoneBetween<V>(history: seq<Event<V>>, ops: seq<Op<V>>, done: set<nat>, i: nat, y: nat)
    requires Indexed(history, ops) && i + 1 < |Positions(history, done)| && y < |ops| && y !in done
    requires Positions(history, done)[i] <= ops[y].call < Positions(history, done)[i + 1]
    ensures y == history[Positions(history, done)[i]].id
  {
    var pos := Positions(history, done);
    PositionsList(history, done);
    assert EventsOf(history, ops, y);
    assert ops[y].call in pos;
    var k :| 0 <= k < |pos| && pos[k] == ops[y].call;
    assert k == i;
  }

  lemma NoneBeforeFirst<V>(history: seq<Event<V>>, ops: seq<Op<V>>, done: set<nat>, y: nat)
    requires Indexed(history, ops) && y < |ops| && y !in done
    ensures Positions(history, done) != [] && Positions(history, done)[0] <= ops[y].call
  {
    var pos := Positions(history, done);
    PositionsList(history, done);
    assert EventsOf(history, ops, y);
    assert ops[y].call in pos;
    var k :| 0 <= k < |pos| && pos[k] == ops[y].call;
    assert k > 0 ==> pos[0] < pos[k];
  }

  // The list is empty exactly when every operation is done.
  lemma EmptyWhenDone<V>(history: seq<Event<V>>, ops: seq<Op<V>>, done: set<nat>)
    requires Indexed(history, ops) && done <= Everything(ops)
    ensures Positions(history, done) == [] <==> done == Everything(ops)
  {
    var pos := Positions(history, done);
    PositionsList(history, done);
    if pos == [] {
      forall y: nat | y < |ops| ensures y in done {
        assert EventsOf(history, ops, y);
        assert ops[y].call !in pos;
      }
    } else {
      assert history[pos[0]].id !in done;
    }
  }
}
