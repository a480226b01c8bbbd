/**
  Turning operations with call and return times into one history of entries: sorted by time, calls before returns
  at equal times.  Positions in the history then stand for times.
 */
module PorcupineEntries {
  import opened Linearizability
  import opened PorcupineList
  import opened PorcupinePositions

  datatype Timed<V> = Timed(event: Event<V>, time: int)

  // The order entries are sorted by.
  predicate Less<V>(a: Timed<V>, b: Timed<V>) {
    if a.time != b.time then a.time < b.time else !a.event.isReturn && b.event.isReturn
  }

  predicate Sorted<V>(s: seq<Timed<V>>) {
    forall i, j :: 0 <= i < j < |s| ==> !Less(s[j], s[i])
  }

  // ---------- sorting ----------

  lemma SortedWith<V>(s: seq<Timed<V>>, i: nat, e: Timed<V>)
    requires Sorted(s) && i <= |s| && (forall k :: 0 <= k < i ==> !Less(e, s[k]))
             && (forall k :: i <= k < |s| ==> Less(e, s[k]))
    ensures Sorted(s[..i] + [e] + s[i..])
  {
    var r := s[..i] + [e] + s[i..];
    forall a, b | 0 <= a < b < |r| ensures !Less(r[b], r[a]) {
      assert r[a] == if a < i then s[a] else if a == i then e else s[a - 1];
      assert r[b] == if b < i then s[b] else if b == i then e else s[b - 1];
    }
  }

  method InsertSorted<V>(s: seq<Timed<V>>, e: Timed<V>) returns (r: seq<Timed<V>>)
    requires Sorted(s)
    ensures Sorted(r) && multiset(r) == multiset(s) + multiset{e}
  {
    var i := |s|;
    while i > 0 && Less(e, s[i - 1])
      invariant 0 <= i <= |s| && forall k :: i <= k < |s| ==> Less(e, s[k])
    {
      i := i - 1;
    }
    r := s[..i] + [e] + s[i..];
    assert s == s[..i] + s[i..];
    forall k | 0 <= k < i ensures !Less(e, s[k]) { assert k < i - 1 ==> !Less(s[i - 1], s[k]); }
    SortedWith(s, i, e);
  }

  method SortByTime<V>(s: seq<Timed<V>>) returns (r: seq<Timed<V>>)
    ensures Sorted(r) && multiset(r) == multiset(s)
  {
    r := [];
    for i := 0 to |s|
      invariant Sorted(r) && multiset(r) == multiset(s[..i])
    {
      assert s[..i + 1] == s[..i] + [s[i]];
      r := InsertSorted(r, s[i]);
    }
    assert s[..|s|] == s;
  }

  // ---------- the entries of a history ----------

  function EntryOf<V>(ops: seq<Op<V>>, id: nat, isReturn: bool): Timed<V>
    requires id < |ops|
  {
    if isReturn then Timed(Event(true, ops[id].output, id), ops[id].ret)
        else Timed(Event(false, ops[id].input, id), ops[id].call)
  }

  function Entries<V>(ops: seq<Op<V>>, n: nat): seq<Timed<V>>
    requires n <= |ops|
  {
    if n == 0 then [] else Entries(ops, n - 1) + [EntryOf(ops, n - 1, false), EntryOf(ops, n - 1, true)]
  }

  lemma {:induction false} TwoEach<V>(ops: seq<Op<V>>, n: nat)
    requires n <= |ops|
    ensures |Entries(ops, n)| == 2 * n
  {
    if n > 0 { TwoEach(ops, n - 1); }
  }

  lemma CountTwo<T>(s: seq<T>, a: T, b: T, e: T)
    ensures multiset(s + [a, b])[e] == multiset(s)[e] + (if a == e then 1 else 0) + (if b == e then 1 else 0)
  {
    assert multiset(s + [a, b]) == multiset(s) + multiset{a} + multiset{b};
  }

  // How often an entry should be there.
  ghost function Times<V>(ops: seq<Op<V>>, n: nat, e: Timed<V>): nat
    requires n <= |ops|
  {
    if e.event.id < n && e == EntryOf(ops, e.event.id, e.event.isReturn) then 1 else 0
  }

  lemma TimesMore<V>(ops: seq<Op<V>>, n: nat, e: Timed<V>)
    requires 0 < n <= |ops|
    ensures Times(ops, n, e) ==
            Times(ops, n - 1, e) + (if EntryOf(ops, n - 1, false) == e then 1
            else 0) + (if EntryOf(ops, n - 1, true) == e then 1 else 0)
  {
  }

  lemma {:induction false} EachOnce<V>(ops: seq<Op<V>>, n: nat, e: Timed<V>)
    requires n <= |ops|
    ensures multiset(Entries(ops, n))[e] == Times(ops, n, e)
  {
    if n > 0 {
      var before, a, b := Entries(ops, n - 1), EntryOf(ops, n - 1, false), EntryOf(ops, n - 1, true);
      EachOnce(ops, n - 1, e);
      CountTwo(before, a, b, e);
      TimesMore(ops, n, e);
      assert Entries(ops, n) == before + [a, b];
    }
  }

  lemma Twice<T>(s: seq<T>, p: nat, q: nat)
    requires p < q < |s| && s[p] == s[q]
    ensures multiset(s)[s[p]] >= 2
  {
    assert s == s[..q] + [s[q]] + s[q + 1..];
    assert s[p] in s[..q];
  }

  // A sorted arrangement of exactly the calls and returns.
  ghost predicate Arranged<V>(s: seq<Timed<V>>, ops: seq<Op<V>>) {
    Sorted(s) && multiset(s) == multiset(Entries(ops, |ops|))
  }

  lemma ArrangedEntry<V>(s: seq<Timed<V>>, ops: seq<Op<V>>, p: nat)
    requires Arranged(s, ops) && p < |s|
    ensures s[p].event.id < |ops| && s[p] == EntryOf(ops, s[p].event.id, s[p].event.isReturn)
  {
    EachOnce(ops, |ops|, s[p]);
    assert s[p] in multiset(s);
  }

  ghost function Place<V>(s: seq<Timed<V>>, ops: seq<Op<V>>, id: nat, isReturn: bool): (p: nat)
    requires Arranged(s, ops) && id < |ops|
    ensures p < |s| && s[p] == EntryOf(ops, id, isReturn)
  {
    EachOnce(ops, |ops|, EntryOf(ops, id, isReturn));
    assert EntryOf(ops, id, isReturn) in multiset(s);
    var p: nat :| p < |s| && s[p] == EntryOf(ops, id, isReturn);
    p
  }

  lemma OnePlace<V>(s: seq<Timed<V>>, ops: seq<Op<V>>, p: nat, id: nat, isReturn: bool)
    requires Arranged(s, ops) && id < |ops| && p < |s| && s[p] == EntryOf(ops, id, isReturn)
    ensures p == Place(s, ops, id, isReturn)
  {
    var q := Place(s, ops, id, isReturn);
    EachOnce(ops, |ops|, s[p]);
    if p < q { Twice(s, p, q); } else if q < p { Twice(s, q, p); }
  }

  lemma LessComesFirst<V>(s: seq<Timed<V>>, p: nat, q: nat)
    requires Sorted(s) && p < |s| && q < |s| && Less(s[p], s[q])
    ensures p < q
  {
  }

  // The operations, timed by the positions of their entries.
  ghost function Placed<V>(s: seq<Timed<V>>, ops: seq<Op<V>>): (r: seq<Op<V>>)
    requires Arranged(s, ops)
  {
    seq(|ops|, id requires 0 <=
        id < |ops| => Op(ops[id].input, ops[id].output, Place(s, ops, id, false), Place(s, ops, id, true)))
  }

  function Events<V>(s: seq<Timed<V>>): (r: seq<Event<V>>)
    ensures |r| == |s| && forall p :: 0 <= p < |s| ==> r[p] == s[p].event
  {
    seq(|s|, p requires 0 <= p < |s| => s[p].event)
  }

  lemma SameLength<V>(s: seq<Timed<V>>, ops: seq<Op<V>>)
    requires Arranged(s, ops)
    ensures |s| == 2 * |ops|
  {
    assert |s| == |multiset(s)| == |multiset(Entries(ops, |ops|))| == |Entries(ops, |ops|)|;
    TwoEach(ops, |ops|);
  }

  lemma PlacedIndexed<V>(s: seq<Timed<V>>, ops: seq<Op<V>>)
    requires Arranged(s, ops) && WellTimed(ops)
    ensures Indexed(Events(s), Placed(s, ops))
  {
    var history, at := Events(s), Placed(s, ops);
    SameLength(s, ops);
    forall id | 0 <= id < |ops| ensures EventsOf(history, at, id) {
      LessComesFirst(s, Place(s, ops, id, false), Place(s, ops, id, true));
    }
    forall p | 0 <= p < |history| ensures history[p].id < |at| && PositionOf(at, history[p]) == p {
      ArrangedEntry(s, ops, p);
      OnePlace(s, ops, p, s[p].event.id, s[p].event.isReturn);
    }
  }

  // ---------- times and positions agree ----------

  // The same operations, possibly timed differently, but with the same ones over before others began.
  ghost predicate SameOrder<V>(a: seq<Op<V>>, b: seq<Op<V>>) {
    && |a| == |b|
    && (forall i {:trigger a[i]} {:trigger b[i]} :: 0 <= i < |a| ==>
          a[i].input == b[i].input && a[i].output == b[i].output)
    && (forall i, j {:trigger Precedes(a, i, j)} {:trigger Precedes(b, i, j)} :: 0 <= i < |a| && 0 <= j < |a| ==>
         (Precedes(a, i, j) <==> Precedes(b, i, j)))
  }

  lemma PlacedSameOrder<V>(s: seq<Timed<V>>, ops: seq<Op<V>>)
    requires Arranged(s, ops)
    ensures SameOrder(ops, Placed(s, ops))
  {
    var at := Placed(s, ops);
    forall i, j | 0 <= i < |ops| && 0 <= j < |ops| ensures Precedes(ops, i, j) <==> Precedes(at, i, j) {
      var p, q := Place(s, ops, i, true), Place(s, ops, j, false);
      if ops[i].ret < ops[j].call { LessComesFirst(s, p, q); } else { LessComesFirst(s, q, p); }
    }
  }

  // The events of exactly these operations, in the order of their times.
  ghost predicate IsHistoryOf<V(!new)>(history: seq<Event<V>>, ops: seq<Op<V>>) {
    exists s :: Arranged(s, ops) && history == Events(s)
  }

  method MakeEntries<V(!new)>(ops: seq<Op<V>>) returns (history: seq<Event<V>>, ghost at: seq<Op<V>>)
    requires WellTimed(ops)
    ensures IsHistoryOf(history, ops)
    ensures Indexed(history, at) && SameOrder(ops, at)
  {
    var entries := [];
    for id := 0 to |ops|
      invariant entries == Entries(ops, id)
    {
      entries := entries + [EntryOf(ops, id, false)];
      entries := entries + [EntryOf(ops, id, true)];
    }
    var sorted := SortByTime(entries);
    history := Events(sorted);
    at := Placed(sorted, ops);
    PlacedIndexed(sorted, ops);
    PlacedSameOrder(sorted, ops);
  }

  // ---------- what the order decides ----------

  lemma {:induction false} SameStates<S, V>(m: Model<S, V>, a: seq<Op<V>>, b: seq<Op<V>>, order: seq<nat>)
    requires SameOrder(a, b) && InRange(order, |a|)
    ensures StateAfter(m, a, order) == StateAfter(m, b, order)
  {
    if order != [] { SameStates(m, a, b, order[..|order| - 1]); }
  }

  lemma SameLinearization<S, V>(m: Model<S, V>, a: seq<Op<V>>, b: seq<Op<V>>, order: seq<nat>)
    requires SameOrder(a, b) && IsLinearization(m, a, order)
    ensures IsLinearization(m, b, order)
  {
    forall k | 0 <= k < |order| ensures Accepts(m, b, StateAfter(m, b, order[..k]), order[k]) {
      SameStates(m, a, b, order[..k]);
      assert Accepts(m, a, StateAfter(m, a, order[..k]), order[k]);
    }
    forall i, j | 0 <= i < j < |order| ensures !Precedes(b, order[j], order[i]) {
      assert !Precedes(a, order[j], order[i]);
    }
  }

  /** Sorting by time loses nothing: the positions decide linearizability as the times do. */
  lemma SameVerdict<S, V>(m: Model<S, V>, a: seq<Op<V>>, b: seq<Op<V>>)
    requires SameOrder(a, b)
    ensures Linearizable(m, a) <==> Linearizable(m, b)
  {
    if Linearizable(m, a) {
      var order :| IsLinearization(m, a, order);
      SameLinearization(m, a, b, order);
    }
    if Linearizable(m, b) {
      var order :| IsLinearization(m, b, order);
      SameLinearization(m, b, a, order);
    }
  }
}
