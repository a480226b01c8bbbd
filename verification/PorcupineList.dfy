/**
  The doubly linked list of history entries that the linearizability checker edits in place.  Lifting an operation
  unlinks its call and its return but leaves their own pointers alone, so that unlifting in the reverse order can
  put them back.
 */
module PorcupineList {

  import opened Options

  // One entry of a history: the call or the return of operation `id`, with its input or output.
  datatype Event<V> = Event(isReturn: bool, value: V, id: nat)

  class Node<V> {
    const value: Option<V>
    const id: int
    const matching: Node?<V>  // the return, for a call; null for a return
    var next: Node?<V>
    var prev: Node?<V>

    constructor (value: Option<V>, id: int, matching: Node?<V>)
      ensures this.value == value && this.id == id && this.matching == matching && next == null && prev == null
    {
      this.value, this.id, this.matching, next, prev := value, id, matching, null, null;
    }
  }

  // ---------- sequences without one element ----------

  function RemoveAt<T>(s: seq<T>, i: nat): (r: seq<T>)
    requires i < |s|
    ensures |r| == |s| - 1
  {
    s[..i] + s[i + 1..]
  }

  function InsertAt<T>(s: seq<T>, i: nat, x: T): (r: seq<T>)
    requires i <= |s|
    ensures |r| == |s| + 1
  {
    s[..i] + [x] + s[i..]
  }

  lemma InsertRemoved<T>(s: seq<T>, i: nat)
    requires i < |s|
    ensures InsertAt(RemoveAt(s, i), i, s[i]) == s
  {
  }

  // ---------- linked sequences ----------

  ghost predicate Distinct<V>(all: seq<Node<V>>) {
    forall i, j :: 0 <= i < j < |all| ==> all[i] != all[j]
  }

  lemma RemovedMembers<V>(all: seq<Node<V>>, i: nat)
    requires Distinct(all) && i < |all|
    ensures Distinct(RemoveAt(all, i)) && forall x {:trigger x in RemoveAt(all, i)} :: x in RemoveAt(all, i) <==>
            x in all && x != all[i]
  {
    var r := RemoveAt(all, i);
    assert all == all[..i] + [all[i]] + all[i + 1..];
    forall x ensures x in r <==> x in all && x != all[i] {
      assert x in all[..i] ==> x != all[i];
      assert x in all[i + 1..] ==> x != all[i];
    }
  }

  // The pointers lead through `all` from front to back and from back to front.
  ghost predicate Linked<V>(all: seq<Node<V>>)
    reads all
  {
    && Distinct(all)
    && (forall i {:trigger all[i].next} :: 0 <= i < |all| ==> all[i].next == if i + 1 < |all| then all[i + 1] else null)
    && (forall i {:trigger all[i].prev} :: 0 < i < |all| ==> all[i].prev == all[i - 1])
  }

  // The node's own pointers say it belongs between positions i - 1 and i of `all`.
  ghost predicate Fits<V>(x: Node<V>, all: seq<Node<V>>, i: nat)
    reads x
  {
    0 < i <= |all| && x.prev == all[i - 1] && x.next == if i < |all| then all[i] else null
  }

  // Unlinks x.  Nodes that are not neighbours of x are not touched, and neither is x.
  method Unlink<V>(x: Node<V>, ghost all: seq<Node<V>>, ghost i: nat)
    requires Linked(all) && 0 < i < |all| && all[i] == x
    modifies all
    ensures Linked(RemoveAt(all, i)) && Fits(x, RemoveAt(all, i), i)
    ensures x.next == old(x.next) && x.prev == old(x.prev)
  {
    x.prev.next := x.next;
    if x.next != null { x.next.prev := x.prev; }
  }

  // Links x back where its pointers say.
  method Relink<V>(x: Node<V>, ghost all: seq<Node<V>>, ghost i: nat)
    requires Linked(all) && x !in all && Fits(x, all, i)
    modifies all
    ensures Linked(InsertAt(all, i, x))
    ensures x.next == old(x.next) && x.prev == old(x.prev)
  {
    x.prev.next := x;
    if x.next != null { x.next.prev := x; }
  }

  // ---------- building the list ----------

  // Links n in front of `mark`, which is at position i; an empty list has no mark.
  method InsertBefore<V>(n: Node<V>, mark: Node?<V>, ghost all: seq<Node<V>>, ghost i: nat)
    requires Linked(all) && n !in all && n.next == null && n.prev == null
    requires if mark == null then all == [] && i == 0 else i < |all| && mark == all[i] && (i == 0 ==> mark.prev == null)
    modifies n, all
    ensures Linked(InsertAt(all, i, n)) && (i == 0 ==> n.prev == null)
  {
    if mark != null {
      var beforeMark := mark.prev;
      mark.prev := n;
      n.next := mark;
      if beforeMark != null {
        n.prev := beforeMark;
        beforeMark.next := n;
      }
    }
  }

  // The first return of operation `id` at or after position `from`.
  function NextReturn<V>(history: seq<Event<V>>, id: nat, from: nat): (r: Option<nat>)
    ensures r.Some? ==> from <= r.value < |history|
    decreases |history| - from
  {
    if from >= |history| then None
    else if history[from].isReturn && history[from].id == id then Some(from)
    else NextReturn(history, id, from + 1)
  }

  // Node k stands for entry `start + k` of the history, and a call points to its return.
  ghost predicate Represents<V>(nodes: seq<Node<V>>, history: seq<Event<V>>, start: nat) {
    && start + |nodes| == |history|
    && forall k {:trigger RepresentsAt(nodes, history, start, k)} :: 0 <= k < |nodes| ==>
         RepresentsAt(nodes, history, start, k)
  }

  ghost predicate RepresentsAt<V>(nodes: seq<Node<V>>, history: seq<Event<V>>, start: nat, k: nat)
    requires start + |nodes| == |history| && k < |nodes|
  {
    var e, node := history[start + k], nodes[k];
    && node.value == Some(e.value) && node.id == e.id
    && if e.isReturn then node.matching == null
       else match NextReturn(history, e.id, start + k)
            case Some(p) => node.matching == nodes[p - start]
            case None => node.matching == null
  }

  // The returns seen so far, by operation.
  ghost predicate Knows<V>(seen: map<nat, Node<V>>, nodes: seq<Node<V>>, history: seq<Event<V>>, start: nat)
    requires start + |nodes| == |history|
  {
    forall id: nat {:trigger NextReturn(history, id, start)} ::
      match NextReturn(history, id, start)
      case Some(p) => id in seen && seen[id] == nodes[p - start]
      case None => id !in seen
  }

  lemma RepresentsMore<V>(n: Node<V>, nodes: seq<Node<V>>, history: seq<Event<V>>, start: nat)
    requires Represents(nodes, history, start + 1) && RepresentsAt([n] + nodes, history, start, 0)
    ensures Represents([n] + nodes, history, start)
  {
    var all := [n] + nodes;
    forall k | 0 <= k < |all| ensures RepresentsAt(all, history, start, k) {
      if k > 0 {
        assert all[k] == nodes[k - 1];
        assert RepresentsAt(nodes, history, start + 1, k - 1);
      }
    }
  }

  lemma KnowsMore<V>(seen: map<nat, Node<V>>, n: Node<V>, nodes: seq<Node<V>>, history: seq<Event<V>>, start: nat)
    requires start + 1 + |nodes| == |history| && Knows(seen, nodes, history, start + 1)
    ensures Knows(if history[start].isReturn then seen[history[start].id := n] else seen, [n] + nodes, history, start)
  {
    var seen' := if history[start].isReturn then seen[history[start].id := n] else seen;
    var all := [n] + nodes;
    forall id: nat
      ensures match NextReturn(history, id, start)
              case Some(p) => id in seen' && seen'[id] == all[p - start]
              case None => id !in seen'
    {
      assert NextReturn(history, id, start) == if history[start].isReturn && history[start].id == id then Some(start)
                                               else NextReturn(history, id, start + 1);
    }
  }

  lemma NewRepresents<V>(seen: map<nat, Node<V>>, n: Node<V>, nodes: seq<Node<V>>, history: seq<Event<V>>, start: nat)
    requires start + 1 + |nodes| == |history| && Knows(seen, nodes, history, start + 1)
    requires var e := history[start];
             && n.value == Some(e.value) && n.id == e.id
             && n.matching == if !e.isReturn && e.id in seen then seen[e.id] else null
    ensures RepresentsAt([n] + nodes, history, start, 0)
  {
    var e := history[start];
    if !e.isReturn {
      assert NextReturn(history, e.id, start) == NextReturn(history, e.id, start + 1);
    }
  }

  method MakeLinkedEntries<V>(history: seq<Event<V>>) returns (root: Node?<V>, ghost nodes: seq<Node<V>>)
    ensures Linked(nodes) && Represents(nodes, history, 0)
    ensures fresh(nodes)
    ensures if nodes == [] then root == null else root == nodes[0] && root.prev == null
  {
    root, nodes := null, [];
    var seen: map<nat, Node<V>> := map[];
    var i := |history|;
    while i > 0
      invariant 0 <= i <= |history|
      invariant Linked(nodes) && Represents(nodes, history, i) && Knows(seen, nodes, history, i)
      invariant fresh(nodes)
      invariant if nodes == [] then root == null else root == nodes[0] && root.prev == null
    {
      i := i - 1;
      var elem := history[i];
      var entry: Node<V>;
      ghost var before := seen;
      if elem.isReturn {
        entry := new Node(Some(elem.value), elem.id, null);
        seen := seen[elem.id := entry];
      } else {
        entry := new Node(Some(elem.value), elem.id, if elem.id in seen then seen[elem.id] else null);
      }
      NewRepresents(before, entry, nodes, history, i);
      KnowsMore(before, entry, nodes, history, i);
      RepresentsMore(entry, nodes, history, i);
      InsertBefore(entry, root, nodes, 0);
      assert InsertAt(nodes, 0, entry) == [entry] + nodes;
      root := entry;
      nodes := [entry] + nodes;
    }
  }

  method Length<V>(root: Node?<V>, ghost nodes: seq<Node<V>>) returns (l: nat)
    requires Linked(nodes) && if nodes == [] then root == null else root == nodes[0]
    ensures l == |nodes|
  {
    var n := root;
    l := 0;
    while n != null
      invariant l <= |nodes| && n == if l < |nodes| then nodes[l] else null
      decreases |nodes| - l
    {
      n := n.next;
      l := l + 1;
    }
  }

  // ---------- lifting and unlifting operations ----------

  // One operation taken out: the list before, and the positions of the call and the return in it.
  datatype Frame<!V> = Frame(list: seq<Node<V>>, i: nat, j: nat) {
    ghost predicate Ok() {
      0 < i < j < |list| && list[i].matching == list[j]
    }

    ghost function Call(): Node<V>
      requires Ok()
    {
      list[i]
    }

    ghost function Middle(): seq<Node<V>>
      requires Ok()
    {
      RemoveAt(list, i)
    }

    ghost function After(): seq<Node<V>>
      requires Ok()
    {
      RemoveAt(Middle(), j - 1)
    }

    // The unlinked nodes still point to where they were.
    ghost predicate Remembered()
      requires Ok()
      reads list[i], list[j]
    {
      Fits(list[i], Middle(), i) && Fits(list[j], After(), j - 1)
    }
  }

  method LiftPair<V>(x: Node<V>, ghost f: Frame<V>)
    requires f.Ok() && x == f.Call() && Linked(f.list)
    modifies f.list
    ensures Linked(f.After()) && f.Remembered()
  {
    assert f.Middle()[f.j - 1] == f.list[f.j];
    Unlink(x, f.list, f.i);
    Unlink(x.matching, f.Middle(), f.j - 1);
  }

  lemma Removed<V>(f: Frame<V>)
    requires f.Ok() && Distinct(f.list)
    ensures f.Middle()[f.j - 1] == f.list[f.j] && Distinct(f.After())
    ensures f.list[f.i] !in f.Middle() && f.list[f.j] !in f.After() && f.list[f.i] != f.list[f.j]
    ensures forall x {:trigger x in f.After()} :: x in f.After() <==>
              x in f.list && x != f.list[f.i] && x != f.list[f.j]
  {
    RemovedMembers(f.list, f.i);
    assert f.Middle()[f.j - 1] == f.list[f.j];
    RemovedMembers(f.Middle(), f.j - 1);
  }

  lemma Restored<V>(f: Frame<V>)
    requires f.Ok() && Distinct(f.list)
    ensures f.list[f.i] !in f.Middle() && f.list[f.j] !in f.After() && f.list[f.i] != f.list[f.j]
    ensures InsertAt(f.After(), f.j - 1, f.list[f.j]) == f.Middle() && InsertAt(f.Middle(), f.i, f.list[f.i]) == f.list
  {
    Apart(f);
    Rejoined(f);
  }

  lemma Apart<V>(f: Frame<V>)
    requires f.Ok() && Distinct(f.list)
    ensures f.list[f.i] !in f.Middle() && f.list[f.j] !in f.After() && f.list[f.i] != f.list[f.j]
  {
    Removed(f);
  }

  lemma Rejoined<V>(f: Frame<V>)
    requires f.Ok()
    ensures InsertAt(f.After(), f.j - 1, f.list[f.j]) == f.Middle() && InsertAt(f.Middle(), f.i, f.list[f.i]) == f.list
  {
    assert f.Middle()[f.j - 1] == f.list[f.j];
    InsertRemoved(f.Middle(), f.j - 1);
    InsertRemoved(f.list, f.i);
  }

  method UnliftPair<V>(x: Node<V>, ghost f: Frame<V>)
    requires f.Ok() && x == f.Call() && Distinct(f.list) && Linked(f.After()) && f.Remembered()
    modifies f.list
    ensures Linked(f.list)
  {
    Restored(f);
    Relink(x.matching, f.After(), f.j - 1);
    Relink(x, f.Middle(), f.i);
  }

  // The frames lead, one lift after another, from the whole list to the current one.
  ghost predicate Stacked<V>(whole: seq<Node<V>>, frames: seq<Frame<V>>, current: seq<Node<V>>) {
    if frames == [] then current == whole
    else
      var f := frames[|frames| - 1];
      f.Ok() && current == f.After() && Stacked(whole, frames[..|frames| - 1], f.list)
  }

  // The nodes that have been taken out.
  ghost function Out<V>(frames: seq<Frame<V>>): set<Node<V>> {
    if frames == [] then {}
    else
      var f := frames[|frames| - 1];
      Out(frames[..|frames| - 1]) + if f.Ok() then {f.list[f.i], f.list[f.j]} else {}
  }

  ghost predicate Remembered<V>(frames: seq<Frame<V>>)
    reads Out(frames)
  {
    if frames == [] then true
    else
      var f := frames[|frames| - 1];
      f.Ok() && f.Remembered() && Remembered(frames[..|frames| - 1])
  }

  lemma {:induction false} StackedFacts<V>(whole: seq<Node<V>>, frames: seq<Frame<V>>, current: seq<Node<V>>)
    requires Stacked(whole, frames, current) && Distinct(whole)
    ensures Distinct(current) && (forall x :: x in current ==> x in whole && x !in Out(frames))
    ensures forall x :: x in Out(frames) ==> x in whole
    ensures |whole| > 0 ==> |current| > 0 && current[0] == whole[0]
  {
    if frames != [] {
      var f := frames[|frames| - 1];
      StackedFacts(whole, frames[..|frames| - 1], f.list);
      Removed(f);
    }
  }

  lemma TopOff<T>(s: seq<T>, x: T)
    ensures (s + [x])[..|s|] == s
  {
  }

  // Lifts on top of what has been lifted before.
  method LiftOver<V>(x: Node<V>, ghost whole: seq<Node<V>>, ghost frames: seq<Frame<V>>, ghost f: Frame<V>)
    requires f.Ok() && x == f.Call() && Linked(f.list) && Distinct(whole)
    requires Stacked(whole, frames, f.list) && Remembered(frames)
    modifies f.list
    ensures Stacked(whole, frames + [f], f.After()) && Linked(f.After()) && Remembered(frames + [f])
  {
    StackedFacts(whole, frames, f.list);
    LiftPair(x, f);
    TopOff(frames, f);
  }

  method UnliftOver<V>(x: Node<V>, ghost whole: seq<Node<V>>, ghost frames: seq<Frame<V>>, ghost f: Frame<V>)
    requires f.Ok() && x == f.Call() && Linked(f.After()) && f.Remembered() && Distinct(whole)
    requires Stacked(whole, frames, f.list) && Remembered(frames)
    modifies f.list
    ensures Linked(f.list) && Remembered(frames)
  {
    StackedFacts(whole, frames, f.list);
    UnliftPair(x, f);
  }

  /**
    What the pointers stand for: a sentinel in front, the entries in history order, the operations lifted so far,
    and the list as it is.
   */
  datatype View<!V> = View(head: Node<V>, nodes: seq<Node<V>>, frames: seq<Frame<V>>, current: seq<Node<V>>) {
    ghost function Whole(): seq<Node<V>> {
      [head] + nodes
    }

    ghost function Repr(): set<Node<V>> {
      set x | x in Whole()
    }

    // The list with one more call and return lifted.
    ghost function Lifted(f: Frame<V>): View<V>
      requires f.Ok()
    {
      View(head, nodes, frames + [f], f.After())
    }

    /** The pointers hold exactly the entries not lifted, in history order, and what has been lifted can be put back. */
    ghost predicate Valid()
      reads Repr(), current, Out(frames)
    {
      && Distinct(Whole())
      && Stacked(Whole(), frames, current)
      && Linked(current)
      && Remembered(frames)
    }
  }

  // Puts the sentinel in front of a freshly built list.
  method AddHead<V>(root: Node?<V>, ghost nodes: seq<Node<V>>) returns (head: Node<V>)
    requires Linked(nodes) && if nodes == [] then root == null else root == nodes[0] && root.prev == null
    modifies nodes
    ensures fresh(head) && View(head, nodes, [], [head] + nodes).Valid()
  {
    head := new Node(None, -1, null);
    InsertBefore(head, root, nodes, 0);
    assert InsertAt(nodes, 0, head) == [head] + nodes;
  }

  // Takes the call x and its return out of the list.
  method Lift<V>(x: Node<V>, ghost v: View<V>, ghost i: nat, ghost j: nat) returns (ghost v': View<V>)
    requires v.Valid() && 0 < i < j < |v.current| && v.current[i] == x && x.matching == v.current[j]
    modifies v.Repr()
    ensures v'.Valid()
    ensures v' == v.Lifted(Frame(v.current, i, j))
  {
    ghost var f := Frame(v.current, i, j);
    StackedFacts(v.Whole(), v.frames, v.current);
    LiftOver(x, v.Whole(), v.frames, f);
    v' := v.Lifted(f);
  }

  // A frame's list without its call and return.
  lemma AfterIs<V>(list: seq<Node<V>>, i: nat, j: nat)
    requires Frame(list, i, j).Ok()
    ensures Frame(list, i, j).After() == RemoveAt(RemoveAt(list, i), j - 1)
  {
  }

  // Puts the operation lifted last back into the list.
  method Unlift<V>(x: Node<V>, ghost v: View<V>) returns (ghost v': View<V>)
    requires v.Valid() && v.frames != [] && v.frames[|v.frames| - 1].Ok() && x == v.frames[|v.frames| - 1].Call()
    modifies v.Repr()
    ensures v'.Valid()
    ensures v' == View(v.head, v.nodes, v.frames[..|v.frames| - 1], v.frames[|v.frames| - 1].list)
  {
    ghost var f, below := v.frames[|v.frames| - 1], v.frames[..|v.frames| - 1];
    StackedFacts(v.Whole(), below, f.list);
    UnliftOver(x, v.Whole(), below, f);
    v' := View(v.head, v.nodes, below, f.list);
  }
}
