/**
  The linearizability checker: a backtracking search over a linked list of entries edited in place, pruned by a
  hashed cache of the pairs (operations placed, state reached) it has already visited.
 */
module PorcupineChecker {
  import opened Options
  import opened Linearizability
  import opened PorcupineBitset
  import opened PorcupineList
  import opened PorcupinePositions
  import opened PorcupineSearch

  // ---------- the cache ----------

  datatype CacheEntry<S> = CacheEntry(linearized: seq<Word>, state: S)

  type Cache<S> = map<Word, seq<CacheEntry<S>>>

  ghost function Meaning<S>(e: CacheEntry<S>): Pair<S> {
    (MembersOf(e.linearized), e.state)
  }

  ghost predicate Filed<S>(cache: Cache<S>, e: CacheEntry<S>) {
    HashOf(e.linearized) in cache && e in cache[HashOf(e.linearized)]
  }

  // The cache stands for a set of pairs, each filed under the hash of its bit set.
  ghost predicate CacheHolds<S(!new)>(cache: Cache<S>, cached: set<Pair<S>>, len: nat) {
    FiledRight(cache, cached, len) && AllFiled(cache, cached)
  }

  ghost predicate FiledRight<S(!new)>(cache: Cache<S>, cached: set<Pair<S>>, len: nat) {
    forall h, e {:trigger e in cache[h]} :: h in cache && e in cache[h] ==>
      HashOf(e.linearized) == h && |e.linearized| == len && Meaning(e) in cached
  }

  ghost predicate AllFiled<S(!new)>(cache: Cache<S>, cached: set<Pair<S>>) {
    forall p {:trigger FiledAs(cache, p)} :: p in cached ==> FiledAs(cache, p)
  }

  ghost predicate FiledAs<S(!new)>(cache: Cache<S>, p: Pair<S>) {
    exists e :: Filed(cache, e) && Meaning(e) == p
  }

  method CacheContains<S(==, !new)>(cache: Cache<S>, hash: Word, entry: CacheEntry<S>, ghost cached: set<Pair<S>>)
      returns (found: bool)
    requires CacheHolds(cache, cached, |entry.linearized|) && hash == HashOf(entry.linearized)
    ensures found <==> Meaning(entry) in cached
  {
    found := false;
    if hash in cache {
      var bucket := cache[hash];
      for i := 0 to |bucket|
        invariant forall k :: 0 <= k < i ==> bucket[k] != entry
        invariant !found
      {
        var same := Equals(entry.linearized, bucket[i].linearized);
        if same && entry.state == bucket[i].state {
          assert entry == bucket[i] && entry in cache[hash];
          return true;
        }
      }
    }
    if Meaning(entry) in cached {
      assert FiledAs(cache, Meaning(entry));
      var e :| Filed(cache, e) && Meaning(e) == Meaning(entry);
      SameMembers(e.linearized, entry.linearized);
      assert false;
    }
  }

  function AddToCache<S>(cache: Cache<S>, hash: Word, entry: CacheEntry<S>): Cache<S> {
    cache[hash := (if hash in cache then cache[hash] else []) + [entry]]
  }

  lemma CacheAdded<S(!new)>(cache: Cache<S>, entry: CacheEntry<S>, cached: set<Pair<S>>)
    requires CacheHolds(cache, cached, |entry.linearized|)
    ensures CacheHolds(AddToCache(cache, HashOf(entry.linearized), entry), cached + {Meaning(entry)},
            |entry.linearized|)
  {
    StillRight(cache, entry, cached);
    var cache' := AddToCache(cache, HashOf(entry.linearized), entry);
    forall p | p in cached + {Meaning(entry)} ensures FiledAs(cache', p) {
      if p == Meaning(entry) { assert Filed(cache', entry); } else { StillFiled(cache, entry, cached, p); }
    }
  }

  lemma StillRight<S(!new)>(cache: Cache<S>, entry: CacheEntry<S>, cached: set<Pair<S>>)
    requires FiledRight(cache, cached, |entry.linearized|)
    ensures FiledRight(AddToCache(cache, HashOf(entry.linearized), entry), cached + {Meaning(entry)},
            |entry.linearized|)
  {
    var cache' := AddToCache(cache, HashOf(entry.linearized), entry);
    forall h, e: CacheEntry<S> | h in cache' && e in cache'[h]
      ensures HashOf(e.linearized) == h && |e.linearized| == |entry.linearized|
              && Meaning(e) in cached + {Meaning(entry)}
    {
      WasFiled(cache, entry, h, e);
    }
  }

  lemma WasFiled<S>(cache: Cache<S>, entry: CacheEntry<S>, h: Word, e: CacheEntry<S>)
    requires h in AddToCache(cache, HashOf(entry.linearized), entry)
             && e in AddToCache(cache, HashOf(entry.linearized), entry)[h]
    ensures (h in cache && e in cache[h]) || (h == HashOf(entry.linearized) && e == entry)
  {
  }

  lemma StillFiled<S(!new)>(cache: Cache<S>, entry: CacheEntry<S>, cached: set<Pair<S>>, p: Pair<S>)
    requires AllFiled(cache, cached) && p in cached
    ensures FiledAs(AddToCache(cache, HashOf(entry.linearized), entry), p)
  {
    assert FiledAs(cache, p);
    var e :| Filed(cache, e) && Meaning(e) == p;
    StaysFiled(cache, HashOf(entry.linearized), entry, e);
  }

  lemma StaysFiled<S>(cache: Cache<S>, hash: Word, entry: CacheEntry<S>, e: CacheEntry<S>)
    requires Filed(cache, e)
    ensures Filed(AddToCache(cache, hash, entry), e)
  {
    var h := HashOf(e.linearized);
    assert h == hash ==> AddToCache(cache, hash, entry)[h] == cache[h] + [entry];
  }

  // ---------- the search ----------

  // The k-th lift took out the call of path[k], when only calls stood before it.
  ghost predicate FrameFits<V>(f: Frame<V>, nodes: seq<Node<V>>, history: seq<Event<V>>, done: set<nat>, call: int) {
    var pos := Positions(history, done);
    && f.Ok() && f.i <= |pos| && Shows(f.list, nodes, history, done)
    && pos[f.i - 1] == call && CallsBefore(history, done, f.i - 1)
  }

  ghost predicate FramesFit<V>(frames: seq<Frame<V>>, nodes: seq<Node<V>>, history: seq<Event<V>>, ops: seq<Op<V>>,
      path: seq<nat>) {
    && |frames| == |path| && InRange(path, |ops|)
    && forall k {:trigger FitsAt(frames, nodes, history, ops, path, k)} :: 0 <= k < |path| ==>
         FitsAt(frames, nodes, history, ops, path, k)
  }

  ghost predicate FitsAt<V>(frames: seq<Frame<V>>, nodes: seq<Node<V>>, history: seq<Event<V>>, ops: seq<Op<V>>,
      path: seq<nat>, k: nat)
    requires |frames| == |path| && InRange(path, |ops|) && k < |path|
  {
    FrameFits(frames[k], nodes, history, SetOf(path[..k]), ops[path[k]].call)
  }

  // The list holds exactly the entries of the operations not on the path.
  ghost predicate ListOk<V>(list: View<V>, history: seq<Event<V>>, ops: seq<Op<V>>, path: seq<nat>)
    reads list.Repr(), list.current, Out(list.frames)
  {
    list.Valid() && ViewOk(list.current, list.frames, list.nodes, history, ops, path)
  }

  ghost predicate ViewOk<V>(current: seq<Node<V>>, frames: seq<Frame<V>>, nodes: seq<Node<V>>, history: seq<Event<V>>,
      ops: seq<Op<V>>, path: seq<nat>) {
    && Represents(nodes, history, 0) && Indexed(history, ops)
    && Shows(current, nodes, history, SetOf(path))
    && FramesFit(frames, nodes, history, ops, path)
  }

  // The cursor is at place `index` of the entries left, and has passed only calls.
  ghost predicate CursorOk<V>(entry: Node?<V>, nodes: seq<Node<V>>, history: seq<Event<V>>, done: set<nat>,
      index: nat) {
    var left := Positions(history, done);
    left != [] ==>
      index < |left| && left[index] < |nodes| && entry == nodes[left[index]] && CallsBefore(history, done, index)
  }

  ghost function Limit<V>(history: seq<Event<V>>, done: set<nat>, index: nat): int {
    var left := Positions(history, done);
    if index < |left| then left[index] else |history|
  }

  ghost predicate CallsOk<S, V>(m: Model<S, V>, nodes: seq<Node<V>>, ops: seq<Op<V>>, path: seq<nat>,
      calls: seq<(Node<V>, S)>) {
    && |calls| == |path| && InRange(path, |ops|)
    && forall k {:trigger calls[k]} :: 0 <= k < |path| ==>
         0 <= ops[path[k]].call < |nodes| && calls[k] == (nodes[ops[path[k]].call], StateAfter(m, ops, path[..k]))
  }

  ghost predicate RecordsOk<S, V>(m: Model<S, V>, ops: seq<Op<V>>, finished: set<Pair<S>>,
      longest: seq<Option<seq<nat>>>, computePartial: bool) {
    && |longest| == |ops|
    && (computePartial ==> RecordsSound(m, ops, longest) && RecordsComplete(m, ops, finished, longest))
  }

  function Chunks(bits: nat): nat {
    bits / 64 + if bits % 64 != 0 then 1 else 0
  }

  // ---------- what the cursor sees ----------

  // The entry is a call exactly when it has a matching return, and then its operation may come next.
  lemma CursorEntry<V>(nodes: seq<Node<V>>, history: seq<Event<V>>, ops: seq<Op<V>>, done: set<nat>, index: nat,
      entry: Node<V>)
    requires Indexed(history, ops) && Represents(nodes, history, 0)
    requires CursorOk(entry, nodes, history, done, index) && Positions(history, done) != []
    ensures var left := Positions(history, done);
            var e := history[left[index]];
            && (entry.matching != null <==> !e.isReturn)
            && (!e.isReturn ==>
                  && entry.id == e.id && Minimal(ops, done, e.id) && ops[e.id].call == left[index]
                  && entry.value == Some(ops[e.id].input) && entry.matching.value == Some(ops[e.id].output)
                  && index + 1 < |left| && CallsBefore(history, done, index + 1))
  {
    var left := Positions(history, done);
    var e := history[left[index]];
    NodeAt(nodes, history, ops, left[index]);
    if !e.isReturn {
      CallAtCursor(history, ops, done, index);
      assert EventsOf(history, ops, e.id);
      NodeAt(nodes, history, ops, ops[e.id].ret);
      var j := ReturnIndex(history, ops, done, e.id, index);
    }
  }

  // Past a call there is another entry, its return if nothing else.
  lemma CursorGoesOn<V>(nodes: seq<Node<V>>, history: seq<Event<V>>, ops: seq<Op<V>>, done: set<nat>, index: nat,
      entry: Node<V>)
    requires Indexed(history, ops) && Represents(nodes, history, 0) && entry.matching != null
    requires CursorOk(entry, nodes, history, done, index) && Positions(history, done) != []
    ensures index + 1 < |Positions(history, done)| && CallsBefore(history, done, index + 1)
  {
    CursorEntry(nodes, history, ops, done, index, entry);
  }

  lemma CursorAtReturn<V>(nodes: seq<Node<V>>, history: seq<Event<V>>, ops: seq<Op<V>>, done: set<nat>, index: nat,
      entry: Node<V>)
    requires Indexed(history, ops) && Represents(nodes, history, 0) && entry.matching == null
    requires CursorOk(entry, nodes, history, done, index) && Positions(history, done) != []
    ensures history[Positions(history, done)[index]].isReturn
  {
    CursorEntry(nodes, history, ops, done, index, entry);
  }

  // The entry's neighbour in the list is the next entry left.
  lemma NextEntry<V>(current: seq<Node<V>>, nodes: seq<Node<V>>, history: seq<Event<V>>, done: set<nat>, index: nat)
    requires Linked(current) && Shows(current, nodes, history, done) && index + 1 < |Positions(history, done)|
    ensures var left := Positions(history, done);
            nodes[left[index]].next == nodes[left[index + 1]]
  {
    var left := Positions(history, done);
    assert current[index + 1] == nodes[left[index]];
    assert current[(index + 1) + 1] == nodes[left[index + 1]];
    assert current[index + 1].next == current[index + 2];
  }

  // ---------- the moves, by position ----------

  lemma SkipAt<S, V>(m: Model<S, V>, history: seq<Event<V>>, ops: seq<Op<V>>, finished: set<Pair<S>>, path: seq<nat>,
      cached: set<Pair<S>>, index: nat)
    requires Indexed(history, ops) && index + 1 < |Positions(history, SetOf(path))|
    requires SearchOk(m, ops, finished, path, cached, Limit(history, SetOf(path), index))
    requires var x := history[Positions(history, SetOf(path))[index]].id;
             !CanPlace(m, ops, PairOf(m, ops, path), x) || Child(m, ops, PairOf(m, ops, path), x) in cached
    ensures SearchOk(m, ops, finished, path, cached, Limit(history, SetOf(path), index + 1))
  {
    var done := SetOf(path);
    var left := Positions(history, done);
    var x := history[left[index]].id;
    forall y: nat | y < |ops| && y !in done && left[index] <= ops[y].call < left[index + 1] ensures y == x {
      NoneBetween(history, ops, done, index, y);
    }
    Skip(m, ops, finished, path, cached, left[index], x, left[index + 1]);
  }

  lemma StartAt<S, V>(m: Model<S, V>, history: seq<Event<V>>, ops: seq<Op<V>>)
    requires Indexed(history, ops)
    ensures SearchOk(m, ops, {}, [], {}, Limit(history, SetOf([]), 0))
  {
    assert SetOf([]) == {};
    var limit := Limit(history, {}, 0);
    forall x: nat | x < |ops| && x !in {} ensures ops[x].call >= limit {
      NoneBeforeFirst(history, ops, {}, x);
    }
    Start(m, ops, limit);
  }

  // Placing the operation at the cursor; the cursor goes back to the first entry left.
  lemma PushAt<S, V>(m: Model<S, V>, history: seq<Event<V>>, ops: seq<Op<V>>, finished: set<Pair<S>>, path: seq<nat>,
      cached: set<Pair<S>>, index: nat, x: nat)
    requires Indexed(history, ops) && index < |Positions(history, SetOf(path))|
    requires SearchOk(m, ops, finished, path, cached, Limit(history, SetOf(path), index))
    requires CanPlace(m, ops, PairOf(m, ops, path), x) && ops[x].call == Positions(history, SetOf(path))[index]
    ensures SearchOk(m, ops, finished, path + [x], cached + {Child(m, ops, PairOf(m, ops, path), x)},
            Limit(history, SetOf(path + [x]), 0))
  {
    var done := SetOf(path) + {x};
    assert SetOf(path + [x]) == done;
    var limit := Limit(history, done, 0);
    forall y: nat | y < |ops| && y !in done ensures ops[y].call >= limit {
      NoneBeforeFirst(history, ops, done, y);
    }
    Push(m, ops, finished, path, cached, ops[x].call, x, limit);
  }

  // Taking the last operation off the path when the cursor is at a return; the cursor goes just behind its call.
  lemma PopAt<S, V>(m: Model<S, V>, history: seq<Event<V>>, ops: seq<Op<V>>, finished: set<Pair<S>>, path: seq<nat>,
      cached: set<Pair<S>>, index: nat, back: nat)
    requires Indexed(history, ops) && path != [] && index < |Positions(history, SetOf(path))|
    requires SearchOk(m, ops, finished, path, cached, Limit(history, SetOf(path), index))
    requires history[Positions(history, SetOf(path))[index]].isReturn
    requires var before, left := path[..|path| - 1], Positions(history, SetOf(path[..|path| - 1]));
             back + 1 < |left| && left[back] == ops[path[|path| - 1]].call
    ensures SearchOk(m, ops, finished + {PairOf(m, ops, path)}, path[..|path| - 1], cached,
            Limit(history, SetOf(path[..|path| - 1]), back + 1))
  {
    var before, x := path[..|path| - 1], path[|path| - 1];
    var left := Positions(history, SetOf(before));
    var limit := Limit(history, SetOf(path), index);
    ReturnMeansTried(m, history, ops, path, index);
    assert history[Positions(history, SetOf(path))[index]].id !in SetOf(path);
    forall y: nat | y < |ops| && y !in SetOf(before) && ops[x].call <= ops[y].call < left[back + 1] ensures y == x {
      NoneBetween(history, ops, SetOf(before), back, y);
      NoneBetween(history, ops, SetOf(before), back, x);
    }
    Pop(m, ops, finished, path, cached, limit, left[back + 1]);
  }

  lemma ReturnMeansTried<S, V>(m: Model<S, V>, history: seq<Event<V>>, ops: seq<Op<V>>, path: seq<nat>, index: nat)
    requires Indexed(history, ops) && InRange(path, |ops|) && index < |Positions(history, SetOf(path))|
    requires history[Positions(history, SetOf(path))[index]].isReturn
    ensures NothingAfter(m, ops, path, Limit(history, SetOf(path), index))
  {
    forall x: nat | CanPlace(m, ops, PairOf(m, ops, path), x) ensures ops[x].call < Limit(history, SetOf(path), index) {
      ReturnAtCursor(history, ops, SetOf(path), index, x);
    }
  }

  // ---------- editing the list ----------

  ghost predicate SameNodes<V>(list: View<V>, list': View<V>) {
    list'.head == list.head && list'.nodes == list.nodes
  }

  lemma FramesFitMore<V>(frames: seq<Frame<V>>, f: Frame<V>, nodes: seq<Node<V>>, history: seq<Event<V>>,
      ops: seq<Op<V>>, path: seq<nat>, x: nat)
    requires FramesFit(frames, nodes, history, ops, path) && x < |ops|
    requires FrameFits(f, nodes, history, SetOf(path), ops[x].call)
    ensures FramesFit(frames + [f], nodes, history, ops, path + [x])
  {
    var path' := path + [x];
    var frames' := frames + [f];
    forall k | 0 <= k < |path'| ensures FitsAt(frames', nodes, history, ops, path', k) {
      if k < |path| {
        assert path'[..k] == path[..k] && FitsAt(frames, nodes, history, ops, path, k);
      } else {
        assert path'[..k] == path;
      }
    }
  }

  lemma FramesFitLess<V>(frames: seq<Frame<V>>, nodes: seq<Node<V>>, history: seq<Event<V>>, ops: seq<Op<V>>,
      path: seq<nat>)
    requires FramesFit(frames, nodes, history, ops, path) && path != []
    ensures FramesFit(frames[..|frames| - 1], nodes, history, ops, path[..|path| - 1])
  {
    var path' := path[..|path| - 1];
    var frames' := frames[..|frames| - 1];
    forall k | 0 <= k < |path'| ensures FitsAt(frames', nodes, history, ops, path', k) {
      assert path'[..k] == path[..k] && FitsAt(frames, nodes, history, ops, path, k);
    }
  }

  lemma LiftFits<V>(current: seq<Node<V>>, frames: seq<Frame<V>>, nodes: seq<Node<V>>, history: seq<Event<V>>,
      ops: seq<Op<V>>, path: seq<nat>, index: nat, x: nat)
    returns (k: nat)
    requires ViewOk(current, frames, nodes, history, ops, path) && x < |ops| && x !in SetOf(path)
    requires CallsBefore(history, SetOf(path), index) && index < |Positions(history, SetOf(path))|
    requires Positions(history, SetOf(path))[index] == ops[x].call
    ensures index + 1 < k < |current| && current[index + 1] == nodes[ops[x].call]
            && current[index + 1].matching == current[k]
    ensures ViewOk(RemoveAt(RemoveAt(current, index + 1), k - 1), frames + [Frame(current, index + 1, k)], nodes,
            history, ops, path + [x])
  {
    var done := SetOf(path);
    var j := ReturnIndex(history, ops, done, x, index);
    k := j + 1;
    assert current[index + 1] == nodes[ops[x].call] && current[j + 1] == nodes[ops[x].ret];
    assert EventsOf(history, ops, x);
    NodeAt(nodes, history, ops, ops[x].call);
    FramesFitMore(frames, Frame(current, index + 1, k), nodes, history, ops, path, x);
    ShowsWithout(current, nodes, history, ops, done, x, index, j);
    assert SetOf(path + [x]) == done + {x};
  }

  lemma LiftedFits<V>(list: View<V>, history: seq<Event<V>>, ops: seq<Op<V>>, path: seq<nat>, index: nat, x: nat)
    returns (k: nat)
    requires ViewOk(list.current, list.frames, list.nodes, history, ops, path) && x < |ops| && x !in SetOf(path)
    requires CallsBefore(history, SetOf(path), index) && index < |Positions(history, SetOf(path))|
    requires Positions(history, SetOf(path))[index] == ops[x].call
    ensures index + 1 < k < |list.current| && list.current[index + 1] == list.nodes[ops[x].call]
    ensures Frame(list.current, index + 1, k).Ok()
    ensures var v := list.Lifted(Frame(list.current, index + 1, k));
            ViewOk(v.current, v.frames, v.nodes, history, ops, path + [x])
  {
    k := LiftFits(list.current, list.frames, list.nodes, history, ops, path, index, x);
    AfterIs(list.current, index + 1, k);
  }

  method LiftOperation<V>(ghost list: View<V>, entry: Node<V>, ghost history: seq<Event<V>>, ghost ops: seq<Op<V>>,
      ghost path: seq<nat>, ghost index: nat, ghost x: nat)
    returns (ghost list': View<V>)
    requires ListOk(list, history, ops, path) && x < |ops| && x !in SetOf(path)
    requires CallsBefore(history, SetOf(path), index) && index < |Positions(history, SetOf(path))|
    requires Positions(history, SetOf(path))[index] == ops[x].call
             && entry == list.nodes[Positions(history, SetOf(path))[index]]
    modifies list.Repr()
    ensures list'.Valid() && SameNodes(list, list')
    ensures ViewOk(list'.current, list'.frames, list'.nodes, history, ops, path + [x])
  {
    ghost var k := LiftedFits(list, history, ops, path, index, x);
    list' := Lift(entry, list, index + 1, k);
  }

  method UnliftOperation<V>(ghost list: View<V>, entry: Node<V>, ghost history: seq<Event<V>>, ghost ops: seq<Op<V>>,
      ghost path: seq<nat>)
    returns (ghost list': View<V>, ghost back: nat)
    requires ListOk(list, history, ops, path) && path != []
    requires 0 <= ops[path[|path| - 1]].call < |list.nodes| && entry == list.nodes[ops[path[|path| - 1]].call]
    modifies list.Repr()
    ensures SameNodes(list, list') && ListOk(list', history, ops, path[..|path| - 1])
    ensures var left := Positions(history, SetOf(path[..|path| - 1]));
            back + 1 < |left| && left[back] == ops[path[|path| - 1]].call
                && CallsBefore(history, SetOf(path[..|path| - 1]), back + 1)
  {
    back := UnliftFits(list, history, ops, path);
    list' := Unlift(entry, list);
  }

  // What putting the last operation back leads to.
  lemma UnliftFits<V>(list: View<V>, history: seq<Event<V>>, ops: seq<Op<V>>, path: seq<nat>) returns (back: nat)
    requires ViewOk(list.current, list.frames, list.nodes, history, ops, path) && path != []
    ensures |list.frames| == |path| && list.frames[|path| - 1].Ok()
    ensures 0 <= ops[path[|path| - 1]].call < |list.nodes|
    ensures list.frames[|path| - 1].Call() == list.nodes[ops[path[|path| - 1]].call]
    ensures ViewOk(list.frames[|path| - 1].list, list.frames[..|path| - 1], list.nodes, history, ops,
                   path[..|path| - 1])
    ensures var left := Positions(history, SetOf(path[..|path| - 1]));
            back + 1 < |left| && left[back] == ops[path[|path| - 1]].call
            && CallsBefore(history, SetOf(path[..|path| - 1]), back + 1)
  {
    var before, x, f := path[..|path| - 1], path[|path| - 1], list.frames[|path| - 1];
    assert FitsAt(list.frames, list.nodes, history, ops, path, |path| - 1);
    back := f.i - 1;
    FramesFitLess(list.frames, list.nodes, history, ops, path);
    CallPassed(history, ops, SetOf(before), back, x);
  }

  lemma CallPassed<V>(history: seq<Event<V>>, ops: seq<Op<V>>, done: set<nat>, i: nat, x: nat)
    requires Indexed(history, ops) && i < |Positions(history, done)| && CallsBefore(history, done, i)
    requires x < |ops| && Positions(history, done)[i] == ops[x].call
    ensures i + 1 < |Positions(history, done)| && CallsBefore(history, done, i + 1)
  {
    assert EventsOf(history, ops, x);
    var j := ReturnIndex(history, ops, done, x, i);
  }

  // ---------- the state of the search ----------

  // The path of operations placed, the cursor's place among the entries left, and the pairs visited and done with.
  datatype Where<S(==)> = Where(path: seq<nat>, index: nat, cached: set<Pair<S>>, finished: set<Pair<S>>)

  ghost predicate StandsAt<S(!new), V>(m: Model<S, V>, history: seq<Event<V>>, ops: seq<Op<V>>, nodes: seq<Node<V>>,
      w: Where<S>, entry: Node?<V>, calls: seq<(Node<V>, S)>, state: S, cache: Cache<S>)
  {
    && PlacedAt(m, history, ops, nodes, w.path, w.index, w.cached, w.finished, entry)
    && Recalls(m, ops, nodes, w.path, w.cached, calls, state, cache)
  }

  // Where the search is, and where the cursor.
  ghost predicate PlacedAt<S(!new), V>(m: Model<S, V>, history: seq<Event<V>>, ops: seq<Op<V>>, nodes: seq<Node<V>>,
      path: seq<nat>, index: nat, cached: set<Pair<S>>, finished: set<Pair<S>>, entry: Node?<V>)
  {
    && SearchOk(m, ops, finished, path, cached, Limit(history, SetOf(path), index))
    && CursorOk(entry, nodes, history, SetOf(path), index)
  }

  // What the variables remember.
  ghost predicate Recalls<S(!new), V>(m: Model<S, V>, ops: seq<Op<V>>, nodes: seq<Node<V>>, path: seq<nat>,
      cached: set<Pair<S>>, calls: seq<(Node<V>, S)>, state: S, cache: Cache<S>)
  {
    && CallsOk(m, nodes, ops, path, calls)
    && state == StateAfter(m, ops, path)
    && CacheHolds(cache, cached, Chunks(|ops|)) && cached <= Universe(m, ops)
  }

  // The first entry left follows the sentinel.
  lemma FirstEntry<V>(current: seq<Node<V>>, nodes: seq<Node<V>>, history: seq<Event<V>>, done: set<nat>)
    requires Linked(current) && Shows(current, nodes, history, done)
    ensures var left := Positions(history, done);
            current[0].next == if left == [] then null else nodes[left[0]]
    ensures CursorOk(current[0].next, nodes, history, done, 0)
  {
    var left := Positions(history, done);
    assert left != [] ==> current[0 + 1] == nodes[left[0]];
  }

  // Moving on to the next entry.
  lemma Skipped<S(!new), V>(m: Model<S, V>, history: seq<Event<V>>, ops: seq<Op<V>>, nodes: seq<Node<V>>,
      path: seq<nat>, index: nat, cached: set<Pair<S>>, finished: set<Pair<S>>, entry: Node<V>, next: Node?<V>)
    requires Indexed(history, ops) && Represents(nodes, history, 0)
             && PlacedAt(m, history, ops, nodes, path, index, cached, finished, entry)
    requires Positions(history, SetOf(path)) != [] && entry.matching != null
    requires var x := history[Positions(history, SetOf(path))[index]].id;
             !CanPlace(m, ops, PairOf(m, ops, path), x) || Child(m, ops, PairOf(m, ops, path), x) in cached
    requires var left := Positions(history, SetOf(path));
             index + 1 < |left| ==> next == nodes[left[index + 1]]
    ensures index + 1 < |Positions(history, SetOf(path))|
    ensures PlacedAt(m, history, ops, nodes, path, index + 1, cached, finished, next)
  {
    CursorGoesOn(nodes, history, ops, SetOf(path), index, entry);
    SkipAt(m, history, ops, finished, path, cached, index);
  }

  // Placing the operation at the cursor.
  lemma Pushed<S(!new), V>(m: Model<S, V>, history: seq<Event<V>>, ops: seq<Op<V>>, nodes: seq<Node<V>>, w: Where<S>,
      entry: Node<V>, calls: seq<(Node<V>, S)>, state: S, cache: Cache<S>, x: nat, next: Node?<V>, added: CacheEntry<S>)
    requires Indexed(history, ops) && StandsAt(m, history, ops, nodes, w, entry, calls, state, cache)
    requires w.index < |Positions(history, SetOf(w.path))| && CanPlace(m, ops, PairOf(m, ops, w.path), x)
    requires ops[x].call == Positions(history, SetOf(w.path))[w.index]
    requires |added.linearized| == Chunks(|ops|) && Meaning(added) == Child(m, ops, PairOf(m, ops, w.path), x)
    requires CursorOk(next, nodes, history, SetOf(w.path + [x]), 0)
    ensures StandsAt(m, history, ops, nodes, Where(w.path + [x], 0, w.cached + {Meaning(added)}, w.finished), next,
                     calls + [(entry, state)], added.state, AddToCache(cache, HashOf(added.linearized), added))
  {
    PushAt(m, history, ops, w.finished, w.path, w.cached, w.index, x);
    CacheAdded(cache, added, w.cached);
    PairOfMore(m, ops, w.path, x);
    ReachableInUniverse(m, ops, w.path + [x]);
    CallsOkMore(m, nodes, ops, w.path, calls, x, entry, state);
  }

  lemma CallsOkMore<S, V>(m: Model<S, V>, nodes: seq<Node<V>>, ops: seq<Op<V>>, path: seq<nat>,
      calls: seq<(Node<V>, S)>, x: nat, entry: Node<V>, state: S)
    requires CallsOk(m, nodes, ops, path, calls) && x < |ops| && 0 <= ops[x].call < |nodes|
             && entry == nodes[ops[x].call]
    requires state == StateAfter(m, ops, path)
    ensures CallsOk(m, nodes, ops, path + [x], calls + [(entry, state)])
  {
    var path', calls' := path + [x], calls + [(entry, state)];
    forall k | 0 <= k < |path'|
      ensures 0 <= ops[path'[k]].call < |nodes|
              && calls'[k] == (nodes[ops[path'[k]].call], StateAfter(m, ops, path'[..k]))
    {
      if k < |path| { assert path'[..k] == path[..k] && calls'[k] == calls[k]; } else { assert path'[..k] == path; }
    }
  }

  lemma CallsOkLess<S, V>(m: Model<S, V>, nodes: seq<Node<V>>, ops: seq<Op<V>>, path: seq<nat>,
      calls: seq<(Node<V>, S)>)
    requires CallsOk(m, nodes, ops, path, calls) && path != []
    ensures CallsOk(m, nodes, ops, path[..|path| - 1], calls[..|path| - 1])
    ensures var x := path[|path| - 1];
            0 <= ops[x].call < |nodes|
                && calls[|path| - 1] == (nodes[ops[x].call], StateAfter(m, ops, path[..|path| - 1]))
  {
    var path', calls' := path[..|path| - 1], calls[..|path| - 1];
    assert calls[|path| - 1].0 == nodes[ops[path[|path| - 1]].call];
    forall k | 0 <= k < |path'|
      ensures 0 <= ops[path'[k]].call < |nodes|
              && calls'[k] == (nodes[ops[path'[k]].call], StateAfter(m, ops, path'[..k]))
    {
      assert path'[..k] == path[..k] && calls'[k] == calls[k];
    }
  }

  // Taking the operation placed last off the path, when the cursor is at a return.
  lemma Popped<S(!new), V>(m: Model<S, V>, history: seq<Event<V>>, ops: seq<Op<V>>, nodes: seq<Node<V>>, w: Where<S>,
      entry: Node<V>, calls: seq<(Node<V>, S)>, state: S, cache: Cache<S>, back: nat, next: Node?<V>)
    requires Indexed(history, ops) && Represents(nodes, history, 0)
             && StandsAt(m, history, ops, nodes, w, entry, calls, state, cache)
    requires Positions(history, SetOf(w.path)) != [] && entry.matching == null && w.path != []
    requires var left := Positions(history, SetOf(w.path[..|w.path| - 1]));
             && back + 1 < |left| && left[back] == ops[w.path[|w.path| - 1]].call && next == nodes[left[back + 1]]
             && CallsBefore(history, SetOf(w.path[..|w.path| - 1]), back + 1)
    ensures StandsAt(m, history, ops, nodes,
            Where(w.path[..|w.path| - 1], back + 1, w.cached, w.finished + {PairOf(m, ops, w.path)}), next,
                     calls[..|calls| - 1], calls[|calls| - 1].1, cache)
  {
    CursorAtReturn(nodes, history, ops, SetOf(w.path), w.index, entry);
    CallsOkLess(m, nodes, ops, w.path, calls);
    PopAt(m, history, ops, w.finished, w.path, w.cached, w.index, back);
  }

  // ---------- the loop body ----------

  ghost predicate BitsOk<V>(linearized: Bitset, ops: seq<Op<V>>, path: seq<nat>)
    reads linearized.words
  {
    linearized.words.Length == Chunks(|ops|) && linearized.Members() == SetOf(path)
  }

  // How the search gets closer to its end: a new pair, a shorter path, or a later entry.
  ghost predicate Advances<S, V>(m: Model<S, V>, ops: seq<Op<V>>, history: seq<Event<V>>, w: Where<S>, w': Where<S>) {
    || |Universe(m, ops) - w'.cached| < |Universe(m, ops) - w.cached|
    || (w'.cached == w.cached && |w'.path| < |w.path|)
    || (w'.cached == w.cached && w'.path == w.path && w.index < w'.index < |Positions(history, SetOf(w.path))|)
  }

  lemma WordFor(pos: nat, bits: nat)
    requires pos < bits
    ensures pos / 64 < Chunks(bits)
  {
  }

  // The bit set and the state that placing x leads to.
  method Extend<S(==, !new), V>(linearized: Bitset, x: nat, state: S, ghost ops: seq<Op<V>>, ghost path: seq<nat>)
    returns (added: CacheEntry<S>, hash: Word)
    requires BitsOk(linearized, ops, path) && x < |ops|
    ensures |added.linearized| == Chunks(|ops|) && Meaning(added) == (SetOf(path) + {x}, state) && added.state == state
    ensures hash == HashOf(added.linearized)
  {
    var newLinearized := new Bitset.Clone(linearized);
    WordFor(x, |ops|);
    newLinearized.Set(x);
    hash := newLinearized.Hash();
    added := CacheEntry(newLinearized.words[..], state);
  }

  // What placing x leads to has not been visited.
  ghost predicate LeadsOn<S, V>(m: Model<S, V>, ops: seq<Op<V>>, w: Where<S>, x: nat)
    requires InRange(w.path, |ops|) && x < |ops|
  {
    CanPlace(m, ops, PairOf(m, ops, w.path), x) && Child(m, ops, PairOf(m, ops, w.path), x) !in w.cached
  }

  // The cache entry for placing x.
  ghost predicate AddedFor<S, V>(m: Model<S, V>, ops: seq<Op<V>>, w: Where<S>, x: nat, added: CacheEntry<S>, hash: Word)
    requires InRange(w.path, |ops|) && x < |ops|
  {
    && Meaning(added) == Child(m, ops, PairOf(m, ops, w.path), x)
    && |added.linearized| == Chunks(|ops|) && hash == HashOf(added.linearized)
  }

  // At a call: whether the model accepts the operation next and the pair it leads to is new.
  method LookAhead<S(==, !new), V>(m: Model<S, V>, linearized: Bitset, entry: Node<V>, state: S, cache: Cache<S>,
      ghost ops: seq<Op<V>>, ghost w: Where<S>, ghost x: nat)
    returns (isNew: bool, added: CacheEntry<S>, hash: Word)
    requires BitsOk(linearized, ops, w.path) && InRange(w.path, |ops|) && state == StateAfter(m, ops, w.path)
    requires CacheHolds(cache, w.cached, Chunks(|ops|)) && Minimal(ops, SetOf(w.path), x) && entry.id == x
    requires entry.value == Some(ops[x].input) && entry.matching != null && entry.matching.value == Some(ops[x].output)
    ensures isNew <==> LeadsOn(m, ops, w, x)
    ensures isNew ==> AddedFor(m, ops, w, x, added, hash)
  {
    var (accepted, newState) := m.step(state, entry.value.value, entry.matching.value.value);
    added, hash := Extend(linearized, entry.id, newState, ops, w.path);
    if accepted {
      var found := CacheContains(cache, hash, added, w.cached);
      isNew := !found;
    } else {
      isNew := false;
    }
  }

  method Probe<S(==, !new), V>(m: Model<S, V>, ghost list: View<V>, linearized: Bitset, entry: Node<V>, state: S,
      cache: Cache<S>, ghost ops: seq<Op<V>>, ghost w: Where<S>, ghost x: nat)
    returns (isNew: bool, added: CacheEntry<S>, hash: Word)
    requires list.Valid() && BitsOk(linearized, ops, w.path) && InRange(w.path, |ops|)
             && state == StateAfter(m, ops, w.path)
    requires CacheHolds(cache, w.cached, Chunks(|ops|)) && Minimal(ops, SetOf(w.path), x) && entry.id == x
    requires entry.value == Some(ops[x].input) && entry.matching != null && entry.matching.value == Some(ops[x].output)
    ensures list.Valid() && BitsOk(linearized, ops, w.path)
    ensures isNew <==> LeadsOn(m, ops, w, x)
    ensures isNew ==> AddedFor(m, ops, w, x, added, hash)
  {
    StackedFacts(list.Whole(), list.frames, list.current);
    isNew, added, hash := LookAhead(m, linearized, entry, state, cache, ops, w, x);
  }

  method SetBit<V>(linearized: Bitset, id: nat, ghost ops: seq<Op<V>>, ghost path: seq<nat>)
    requires BitsOk(linearized, ops, path) && id < |ops|
    modifies linearized.words
    ensures BitsOk(linearized, ops, path + [id])
  {
    WordFor(id, |ops|);
    assert SetOf(path + [id]) == SetOf(path) + {id};
    linearized.Set(id);
  }

  method ClearBit<V>(linearized: Bitset, id: nat, ghost ops: seq<Op<V>>, ghost path: seq<nat>)
    requires BitsOk(linearized, ops, path) && id < |ops|
    requires path != [] && id == path[|path| - 1] && id !in path[..|path| - 1]
    modifies linearized.words
    ensures BitsOk(linearized, ops, path[..|path| - 1])
  {
    WordFor(id, |ops|);
    assert path == path[..|path| - 1] + [id];
    assert SetOf(path[..|path| - 1]) == SetOf(path) - {id};
    linearized.Clear(id);
  }

  method Mark<V>(ghost list: View<V>, linearized: Bitset, id: nat, ghost ops: seq<Op<V>>, ghost path: seq<nat>)
    requires list.Valid() && BitsOk(linearized, ops, path) && id < |ops|
    modifies linearized.words
    ensures list.Valid() && BitsOk(linearized, ops, path + [id])
  {
    StackedFacts(list.Whole(), list.frames, list.current);
    SetBit(linearized, id, ops, path);
  }

  lemma FirstLeft<V>(list: View<V>, history: seq<Event<V>>, ops: seq<Op<V>>, path: seq<nat>)
    requires ListOk(list, history, ops, path)
    ensures CursorOk(list.head.next, list.nodes, history, SetOf(path), 0)
    ensures list.head.next == null <==> Positions(history, SetOf(path)) == []
  {
    StackedFacts(list.Whole(), list.frames, list.current);
    FirstEntry(list.current, list.nodes, history, SetOf(path));
  }

  // Takes the operation at the cursor out of the list and marks it as placed; the first entry left is next.
  method TakeOut<V>(head: Node<V>, ghost list: View<V>, linearized: Bitset, entry: Node<V>,
      ghost history: seq<Event<V>>, ghost ops: seq<Op<V>>, ghost path: seq<nat>, ghost index: nat, ghost x: nat)
    returns (next: Node?<V>, ghost list': View<V>)
    requires head == list.head && ListOk(list, history, ops, path) && BitsOk(linearized, ops, path)
    requires x < |ops| && entry.id == x && x !in SetOf(path)
    requires CallsBefore(history, SetOf(path), index) && index < |Positions(history, SetOf(path))|
    requires Positions(history, SetOf(path))[index] == ops[x].call && entry == list.nodes[ops[x].call]
    modifies list.Repr(), linearized.words
    ensures SameNodes(list, list') && ListOk(list', history, ops, path + [x]) && BitsOk(linearized, ops, path + [x])
    ensures CursorOk(next, list.nodes, history, SetOf(path + [x]), 0)
  {
    Mark(list, linearized, entry.id, ops, path);
    list' := LiftOperation(list, entry, history, ops, path, index, x);
    next := head.next;
    FirstLeft(list', history, ops, path + [x]);
  }

  lemma SkippedInList<S(!new), V>(m: Model<S, V>, list: View<V>, history: seq<Event<V>>, ops: seq<Op<V>>, w: Where<S>,
      entry: Node<V>)
    requires Linked(list.current) && ViewOk(list.current, list.frames, list.nodes, history, ops, w.path)
    requires PlacedAt(m, history, ops, list.nodes, w.path, w.index, w.cached, w.finished, entry)
    requires Positions(history, SetOf(w.path)) != [] && entry.matching != null
    requires var x := history[Positions(history, SetOf(w.path))[w.index]].id;
             !CanPlace(m, ops, PairOf(m, ops, w.path), x) || Child(m, ops, PairOf(m, ops, w.path), x) in w.cached
    ensures w.index + 1 < |Positions(history, SetOf(w.path))|
    ensures PlacedAt(m, history, ops, list.nodes, w.path, w.index + 1, w.cached, w.finished, entry.next)
  {
    CursorGoesOn(list.nodes, history, ops, SetOf(w.path), w.index, entry);
    NextEntry(list.current, list.nodes, history, SetOf(w.path), w.index);
    Skipped(m, history, ops, list.nodes, w.path, w.index, w.cached, w.finished, entry, entry.next);
  }

  lemma Moved<S(!new), V>(m: Model<S, V>, history: seq<Event<V>>, ops: seq<Op<V>>, nodes: seq<Node<V>>, w: Where<S>,
      w': Where<S>, entry: Node<V>, next: Node?<V>, calls: seq<(Node<V>, S)>, state: S, cache: Cache<S>)
    requires StandsAt(m, history, ops, nodes, w, entry, calls, state, cache)
             && w' == Where(w.path, w.index + 1, w.cached, w.finished)
    requires PlacedAt(m, history, ops, nodes, w.path, w.index + 1, w.cached, w.finished, next)
    ensures StandsAt(m, history, ops, nodes, w', next, calls, state, cache)
  {
  }

  // Places the operation at the cursor.
  method Place<S(==, !new), V>(m: Model<S, V>, head: Node<V>, ghost list: View<V>, linearized: Bitset, entry: Node<V>,
      calls: seq<(Node<V>, S)>, state: S, cache: Cache<S>, added: CacheEntry<S>, hash: Word,
      ghost history: seq<Event<V>>, ghost ops: seq<Op<V>>, ghost w: Where<S>, ghost x: nat)
    returns (entry': Node?<V>, calls': seq<(Node<V>, S)>, state': S, cache': Cache<S>, ghost list': View<V>,
        ghost w': Where<S>)
    requires head == list.head && ListOk(list, history, ops, w.path) && BitsOk(linearized, ops, w.path)
    requires StandsAt(m, history, ops, list.nodes, w, entry, calls, state, cache)
    requires w.index < |Positions(history, SetOf(w.path))| && CanPlace(m, ops, PairOf(m, ops, w.path), x)
             && entry.id == x
    requires ops[x].call == Positions(history, SetOf(w.path))[w.index]
    requires Meaning(added) == Child(m, ops, PairOf(m, ops, w.path), x)
    requires |added.linearized| == Chunks(|ops|) && hash == HashOf(added.linearized)
    modifies list.Repr(), linearized.words
    ensures w' == Where(w.path + [x], 0, w.cached + {Meaning(added)}, w.finished)
    ensures SameNodes(list, list') && ListOk(list', history, ops, w.path + [x]) && BitsOk(linearized, ops, w.path + [x])
    ensures StandsAt(m, history, ops, list.nodes, w', entry', calls', state', cache')
  {
    cache' := AddToCache(cache, hash, added);
    calls' := calls + [(entry, state)];
    state' := added.state;
    entry', list' := TakeOut(head, list, linearized, entry, history, ops, w.path, w.index, x);
    w' := Where(w.path + [x], 0, w.cached + {Meaning(added)}, w.finished);
    Pushed(m, history, ops, list.nodes, w, entry, calls, state, cache, x, entry', added);
  }

  // At a call: place the operation if the model accepts it and the pair it leads to is new, or go past it.
  method Advance<S(==, !new), V>(m: Model<S, V>, head: Node<V>, ghost list: View<V>, linearized: Bitset, entry: Node<V>,
      calls: seq<(Node<V>, S)>, state: S, cache: Cache<S>, ghost history: seq<Event<V>>, ghost ops: seq<Op<V>>,
      ghost w: Where<S>)
    returns (entry': Node?<V>, calls': seq<(Node<V>, S)>, state': S, cache': Cache<S>, ghost list': View<V>,
        ghost w': Where<S>)
    requires head == list.head && ListOk(list, history, ops, w.path) && BitsOk(linearized, ops, w.path)
    requires StandsAt(m, history, ops, list.nodes, w, entry, calls, state, cache)
    requires Positions(history, SetOf(w.path)) != [] && entry.matching != null
    modifies list.Repr(), linearized.words
    ensures SameNodes(list, list') && ListOk(list', history, ops, w'.path) && BitsOk(linearized, ops, w'.path)
    ensures StandsAt(m, history, ops, list.nodes, w', entry', calls', state', cache')
    ensures w'.finished == w.finished && Advances(m, ops, history, w, w')
  {
    CursorEntry(list.nodes, history, ops, SetOf(w.path), w.index, entry);
    ghost var x: nat := entry.id;
    var isNew, added, hash := Probe(m, list, linearized, entry, state, cache, ops, w, x);
    if isNew {
      entry', calls', state', cache', list', w' :=
          Place(m, head, list, linearized, entry, calls, state, cache, added, hash, history, ops, w, x);
      NewPair(m, ops, w, Meaning(added), w');
    } else {
      SkippedInList(m, list, history, ops, w, entry);
      w' := Where(w.path, w.index + 1, w.cached, w.finished);
      Moved(m, history, ops, list.nodes, w, w', entry, entry.next, calls, state, cache);
      entry', calls', state', cache', list' := entry.next, calls, state, cache, list;
    }
  }

  lemma NewPair<S, V>(m: Model<S, V>, ops: seq<Op<V>>, w: Where<S>, p: Pair<S>, w': Where<S>)
    requires p !in w.cached && p in Universe(m, ops) && w'.cached == w.cached + {p}
    ensures |Universe(m, ops) - w'.cached| < |Universe(m, ops) - w.cached|
  {
    assert Universe(m, ops) - w.cached == (Universe(m, ops) - w'.cached) + {p};
  }

  method Unmark<V>(ghost list: View<V>, linearized: Bitset, id: nat, ghost ops: seq<Op<V>>, ghost path: seq<nat>)
    requires list.Valid() && BitsOk(linearized, ops, path) && id < |ops|
    requires path != [] && id == path[|path| - 1] && id !in path[..|path| - 1]
    modifies linearized.words
    ensures list.Valid() && BitsOk(linearized, ops, path[..|path| - 1])
  {
    StackedFacts(list.Whole(), list.frames, list.current);
    ClearBit(linearized, id, ops, path);
  }

  // Puts the operation placed last back into the list; the entry behind its call is next.
  method PutBack<V>(ghost list: View<V>, linearized: Bitset, entry: Node<V>, ghost history: seq<Event<V>>,
      ghost ops: seq<Op<V>>, ghost path: seq<nat>)
    returns (next: Node?<V>, ghost list': View<V>, ghost back: nat)
    requires ListOk(list, history, ops, path) && BitsOk(linearized, ops, path) && path != [] && NoRepeats(path)
    requires 0 <= ops[path[|path| - 1]].call < |list.nodes| && entry == list.nodes[ops[path[|path| - 1]].call]
    modifies list.Repr(), linearized.words
    ensures SameNodes(list, list') && ListOk(list', history, ops, path[..|path| - 1])
            && BitsOk(linearized, ops, path[..|path| - 1])
    ensures var left := Positions(history, SetOf(path[..|path| - 1]));
            && back + 1 < |left| && left[back] == ops[path[|path| - 1]].call
            && CallsBefore(history, SetOf(path[..|path| - 1]), back + 1)
            && next == list.nodes[left[back + 1]]
  {
    ghost var x := path[|path| - 1];
    assert EventsOf(history, ops, x);
    NodeAt(list.nodes, history, ops, ops[x].call);
    Unmark(list, linearized, entry.id, ops, path);
    list', back := UnliftOperation(list, entry, history, ops, path);
    next := entry.next;
    NextEntry(list'.current, list'.nodes, history, SetOf(path[..|path| - 1]), back);
  }

  // At a return: take the operation placed last off again.
  method Backtrack<S(==, !new), V>(m: Model<S, V>, ghost list: View<V>, linearized: Bitset, entry: Node<V>,
      calls: seq<(Node<V>, S)>, ghost state: S, ghost cache: Cache<S>, ghost history: seq<Event<V>>,
      ghost ops: seq<Op<V>>, ghost w: Where<S>)
    returns (entry': Node?<V>, calls': seq<(Node<V>, S)>, state': S, ghost list': View<V>, ghost w': Where<S>)
    requires ListOk(list, history, ops, w.path) && BitsOk(linearized, ops, w.path)
    requires StandsAt(m, history, ops, list.nodes, w, entry, calls, state, cache)
    requires Positions(history, SetOf(w.path)) != [] && entry.matching == null && calls != []
    modifies list.Repr(), linearized.words
    ensures SameNodes(list, list') && ListOk(list', history, ops, w'.path) && BitsOk(linearized, ops, w'.path)
    ensures StandsAt(m, history, ops, list.nodes, w', entry', calls', state', cache)
    ensures w'.finished == w.finished + {PairOf(m, ops, w.path)} && Advances(m, ops, history, w, w')
  {
    CallsOkLess(m, list.nodes, ops, w.path, calls);
    PathSize(m, ops, w.path);
    var top := calls[|calls| - 1];
    state' := top.1;
    calls' := calls[..|calls| - 1];
    ghost var back: nat;
    entry', list', back := PutBack(list, linearized, top.0, history, ops, w.path);
    w' := Where(w.path[..|w.path| - 1], back + 1, w.cached, w.finished + {PairOf(m, ops, w.path)});
    Popped(m, history, ops, list.nodes, w, entry, calls, state, cache, back, entry');
  }

  // ---------- the longest partial linearizations ----------

  function Longer(r: Option<seq<nat>>, order: seq<nat>): Option<seq<nat>> {
    if r.None? || |order| > |r.value| then Some(order) else r
  }

  lemma CallIds<S, V>(m: Model<S, V>, nodes: seq<Node<V>>, history: seq<Event<V>>, ops: seq<Op<V>>, path: seq<nat>,
      calls: seq<(Node<V>, S)>, k: nat)
    requires Indexed(history, ops) && Represents(nodes, history, 0) && CallsOk(m, nodes, ops, path, calls) && k < |path|
    ensures calls[k].0.id == path[k]
  {
    assert EventsOf(history, ops, path[k]);
    NodeAt(nodes, history, ops, ops[path[k]].call);
  }

  method OrderOf<S, V>(m: Model<S, V>, calls: seq<(Node<V>, S)>, ghost nodes: seq<Node<V>>,
      ghost history: seq<Event<V>>, ghost ops: seq<Op<V>>, ghost path: seq<nat>)
    returns (order: seq<nat>)
    requires Indexed(history, ops) && Represents(nodes, history, 0) && CallsOk(m, nodes, ops, path, calls)
    ensures order == path
  {
    order := [];
    for i := 0 to |calls|
      invariant order == path[..i]
    {
      CallIds(m, nodes, history, ops, path, calls, i);
      order := order + [calls[i].0.id];
    }
  }

  // Notes the current path for each of its operations that has nothing as long yet.
  method RecordLongest<S, V>(m: Model<S, V>, longest: seq<Option<seq<nat>>>, calls: seq<(Node<V>, S)>,
      ghost nodes: seq<Node<V>>, ghost history: seq<Event<V>>, ghost ops: seq<Op<V>>, ghost path: seq<nat>)
                                 returns (longest': seq<Option<seq<nat>>>)
    requires Indexed(history, ops) && Represents(nodes, history, 0) && CallsOk(m, nodes, ops, path, calls)
    requires |longest| == |ops| && NoRepeats(path)
    ensures |longest'| == |ops|
    ensures forall i {:trigger longest'[i]} :: 0 <= i < |ops| ==>
            longest'[i] == if i in path then Longer(longest[i], path) else longest[i]
  {
    var order := OrderOf(m, calls, nodes, history, ops, path);
    longest' := longest;
    for k := 0 to |calls|
      invariant |longest'| == |ops|
      invariant forall i {:trigger longest'[i]} :: 0 <= i < |ops| ==>
                longest'[i] == if i in path[..k] then Longer(longest[i], path) else longest[i]
    {
      CallIds(m, nodes, history, ops, path, calls, k);
      var id := calls[k].0.id;
      assert path[..k + 1] == path[..k] + [id];
      assert id !in path[..k];
      longest' := longest'[id := Longer(longest'[id], order)];
    }
    assert path[..|path|] == path;
  }

  lemma Recorded<S, V>(m: Model<S, V>, ops: seq<Op<V>>, finished: set<Pair<S>>, path: seq<nat>,
      longest: seq<Option<seq<nat>>>, longest': seq<Option<seq<nat>>>)
    requires RecordsSound(m, ops, longest) && RecordsComplete(m, ops, finished, longest) && Reachable(m, ops, path)
             && |longest'| == |ops|
    requires forall i {:trigger longest'[i]} :: 0 <= i < |ops| ==>
             longest'[i] == if i in path then Longer(longest[i], path) else longest[i]
    ensures RecordsSound(m, ops, longest') && RecordsComplete(m, ops, finished + {PairOf(m, ops, path)}, longest')
  {
    PathSize(m, ops, path);
    forall p, i | p in finished + {PairOf(m, ops, path)} && i in p.0 && i < |ops| ensures AtLeast(longest', i, |p.0|) {
      if p in finished { assert AtLeast(longest, i, |p.0|); }
    }
  }

  // ---------- the checker ----------

  // The longest beginning of a linearization that contains operation i, if there is one.
  ghost predicate IsLongestWith<S, V>(m: Model<S, V>, ops: seq<Op<V>>, i: nat, r: Option<seq<nat>>) {
    match r
    case None => forall order: seq<nat> :: IsPartialLinearization(m, ops, order) ==> i !in order
    case Some(best) =>
      && IsPartialLinearization(m, ops, best) && i in best
      && forall order: seq<nat> :: IsPartialLinearization(m, ops, order) && i in order ==> |order| <= |best|
  }

  lemma RecordIsLongest<S, V>(m: Model<S, V>, ops: seq<Op<V>>, finished: set<Pair<S>>, longest: seq<Option<seq<nat>>>,
      i: nat)
    requires WellTimed(ops) && Closed(m, ops, finished) && AllTried(m, ops, finished, PairOf(m, ops, []))
    requires RecordsSound(m, ops, longest) && RecordsComplete(m, ops, finished, longest) && i < |ops|
    ensures IsLongestWith(m, ops, i, longest[i])
  {
    forall order: seq<nat> | IsPartialLinearization(m, ops, order) && i in order ensures AtLeast(longest, i, |order|) {
      PartialIsReachable(m, ops, order);
      LongestIsMaximal(m, ops, finished, longest, order, i);
    }
    if longest[i].Some? { PartialIsReachable(m, ops, longest[i].value); }
  }

  lemma RecordsAreLongest<S, V>(m: Model<S, V>, history: seq<Event<V>>, ops: seq<Op<V>>, finished: set<Pair<S>>,
      longest: seq<Option<seq<nat>>>)
    requires Indexed(history, ops) && Closed(m, ops, finished) && AllTried(m, ops, finished, PairOf(m, ops, []))
    requires RecordsSound(m, ops, longest) && RecordsComplete(m, ops, finished, longest)
    ensures forall i :: 0 <= i < |ops| ==> IsLongestWith(m, ops, i, longest[i])
  {
    IndexedWellTimed(history, ops);
    forall i | 0 <= i < |ops|
        ensures IsLongestWith(m, ops, i, longest[i]) { RecordIsLongest(m, ops, finished, longest, i); }
  }

  // The cursor is at a return with nothing placed: everything has been tried.
  lemma NothingLeft<S(!new), V>(m: Model<S, V>, history: seq<Event<V>>, ops: seq<Op<V>>, nodes: seq<Node<V>>,
      w: Where<S>, entry: Node<V>, calls: seq<(Node<V>, S)>, state: S, cache: Cache<S>)
    requires Indexed(history, ops) && Represents(nodes, history, 0)
             && StandsAt(m, history, ops, nodes, w, entry, calls, state, cache)
    requires Positions(history, SetOf(w.path)) != [] && entry.matching == null && calls == []
    ensures Closed(m, ops, w.finished) && AllTried(m, ops, w.finished, PairOf(m, ops, [])) && !Linearizable(m, ops)
  {
    CursorAtReturn(nodes, history, ops, SetOf(w.path), w.index, entry);
    ReturnMeansTried(m, history, ops, w.path, w.index);
    EndTried(m, ops, w.finished, w.path, w.cached, Limit(history, SetOf(w.path), w.index));
    IndexedWellTimed(history, ops);
    NotLinearizable(m, ops, w.finished);
  }

  // The list is empty: the path is a linearization.
  lemma AllPlaced<S, V>(m: Model<S, V>, history: seq<Event<V>>, ops: seq<Op<V>>, path: seq<nat>)
    requires Indexed(history, ops) && Reachable(m, ops, path) && Positions(history, SetOf(path)) == []
    ensures IsLinearization(m, ops, path)
  {
    IndexedWellTimed(history, ops);
    EmptyWhenDone(history, ops, SetOf(path));
    CompleteIsLinearization(m, ops, path);
  }

  // The list of the whole history, and the number of operations.
  method Prepare<V>(history: seq<Event<V>>, ghost ops: seq<Op<V>>) returns (head: Node<V>, n: nat, ghost list: View<V>)
    requires Indexed(history, ops)
    ensures head == list.head && fresh(list.Repr()) && n == |ops|
    ensures ListOk(list, history, ops, [])
  {
    var root;
    ghost var nodes;
    root, nodes := MakeLinkedEntries(history);
    var length := Length(root, nodes);
    n := length / 2;
    head := AddHead(root, nodes);
    list := View(head, nodes, [], [head] + nodes);
    ShowsAll(head, nodes, history);
    assert SetOf([]) == {};
  }

  lemma Begins<S(!new), V>(m: Model<S, V>, list: View<V>, history: seq<Event<V>>, ops: seq<Op<V>>)
    requires ListOk(list, history, ops, [])
    ensures StandsAt(m, history, ops, list.nodes, Where([], 0, {}, {}), list.head.next, [], m.init, map[])
  {
    FirstLeft(list, history, ops, []);
    StartAt(m, history, ops);
  }

  // At a return: notes the path, if asked to, before it is cut back.
  method NotePath<S(==, !new), V>(m: Model<S, V>, longest: seq<Option<seq<nat>>>, computePartial: bool,
      calls: seq<(Node<V>, S)>, ghost nodes: seq<Node<V>>, ghost history: seq<Event<V>>, ghost ops: seq<Op<V>>,
      ghost w: Where<S>)
    returns (longest': seq<Option<seq<nat>>>)
    requires Indexed(history, ops) && Represents(nodes, history, 0)
    requires Reachable(m, ops, w.path) && CallsOk(m, nodes, ops, w.path, calls)
    requires RecordsOk(m, ops, w.finished, longest, computePartial)
    ensures RecordsOk(m, ops, w.finished + {PairOf(m, ops, w.path)}, longest', computePartial)
  {
    longest' := longest;
    if computePartial {
      PathSize(m, ops, w.path);
      longest' := RecordLongest(m, longest, calls, nodes, history, ops, w.path);
      Recorded(m, ops, w.finished, w.path, longest, longest');
    }
  }

  method Note<S(==, !new), V>(m: Model<S, V>, ghost list: View<V>, linearized: Bitset, longest: seq<Option<seq<nat>>>,
      computePartial: bool, calls: seq<(Node<V>, S)>, ghost history: seq<Event<V>>, ghost ops: seq<Op<V>>,
      ghost w: Where<S>)
    returns (longest': seq<Option<seq<nat>>>)
    requires list.Valid() && BitsOk(linearized, ops, w.path) && Indexed(history, ops)
             && Represents(list.nodes, history, 0)
    requires Reachable(m, ops, w.path) && CallsOk(m, list.nodes, ops, w.path, calls)
    requires RecordsOk(m, ops, w.finished, longest, computePartial)
    ensures list.Valid() && BitsOk(linearized, ops, w.path)
    ensures RecordsOk(m, ops, w.finished + {PairOf(m, ops, w.path)}, longest', computePartial)
  {
    StackedFacts(list.Whole(), list.frames, list.current);
    longest' := NotePath(m, longest, computePartial, calls, list.nodes, history, ops, w);
  }

  method Retreat<S(==, !new), V>(m: Model<S, V>, ghost list: View<V>, linearized: Bitset, entry: Node<V>,
      calls: seq<(Node<V>, S)>, ghost state: S, ghost cache: Cache<S>, longest: seq<Option<seq<nat>>>,
      computePartial: bool, ghost history: seq<Event<V>>, ghost ops: seq<Op<V>>, ghost w: Where<S>)
    returns (entry': Node?<V>, calls': seq<(Node<V>, S)>, state': S, longest': seq<Option<seq<nat>>>,
        ghost list': View<V>, ghost w': Where<S>)
    requires ListOk(list, history, ops, w.path) && BitsOk(linearized, ops, w.path)
    requires StandsAt(m, history, ops, list.nodes, w, entry, calls, state, cache)
    requires Positions(history, SetOf(w.path)) != [] && entry.matching == null && calls != []
    requires RecordsOk(m, ops, w.finished, longest, computePartial)
    modifies list.Repr(), linearized.words
    ensures SameNodes(list, list') && ListOk(list', history, ops, w'.path) && BitsOk(linearized, ops, w'.path)
    ensures StandsAt(m, history, ops, list.nodes, w', entry', calls', state', cache)
    ensures RecordsOk(m, ops, w'.finished, longest', computePartial) && Advances(m, ops, history, w, w')
  {
    longest' := Note(m, list, linearized, longest, computePartial, calls, history, ops, w);
    entry', calls', state', list', w' := Backtrack(m, list, linearized, entry, calls, state, cache, history, ops, w);
  }

  // There is no linearization, and the records, if wanted, say how far one can get.
  ghost predicate Refuted<S, V>(m: Model<S, V>, ops: seq<Op<V>>, longest: seq<Option<seq<nat>>>, computePartial: bool) {
    && !Linearizable(m, ops) && |longest| == |ops|
    && (computePartial ==> forall i :: 0 <= i < |ops| ==> IsLongestWith(m, ops, i, longest[i]))
  }

  // One round of the search: forward at a call, back at a return, unless there is nothing to take back.
  method Step<S(==, !new), V>(m: Model<S, V>, head: Node<V>, ghost list: View<V>, linearized: Bitset, entry: Node?<V>,
      calls: seq<(Node<V>, S)>, state: S, cache: Cache<S>, longest: seq<Option<seq<nat>>>, computePartial: bool,
      ghost history: seq<Event<V>>, ghost ops: seq<Op<V>>, ghost w: Where<S>)
    returns (stuck: bool, entry': Node?<V>, calls': seq<(Node<V>, S)>, state': S, cache': Cache<S>,
        longest': seq<Option<seq<nat>>>, ghost list': View<V>, ghost w': Where<S>)
    requires head == list.head && ListOk(list, history, ops, w.path) && BitsOk(linearized, ops, w.path)
             && head.next != null
    requires StandsAt(m, history, ops, list.nodes, w, entry, calls, state, cache)
    requires RecordsOk(m, ops, w.finished, longest, computePartial)
    modifies list.Repr(), linearized.words
    ensures SameNodes(list, list') && ListOk(list', history, ops, w'.path) && BitsOk(linearized, ops, w'.path)
    ensures StandsAt(m, history, ops, list.nodes, w', entry', calls', state', cache')
    ensures RecordsOk(m, ops, w'.finished, longest', computePartial)
    ensures !stuck ==> Advances(m, ops, history, w, w')
    ensures stuck ==> Refuted(m, ops, longest', computePartial)
  {
    FirstLeft(list, history, ops, w.path);
    stuck, entry', calls', state', cache', longest', list', w' := false, entry, calls, state, cache, longest, list, w;
    if entry.matching != null {
      entry', calls', state', cache', list', w' :=
          Advance(m, head, list, linearized, entry, calls, state, cache, history, ops, w);
    } else if calls == [] {
      NothingLeft(m, history, ops, list.nodes, w, entry, calls, state, cache);
      if computePartial { RecordsAreLongest(m, history, ops, w.finished, longest); }
      stuck := true;
    } else {
      entry', calls', state', longest', list', w' :=
          Retreat(m, list, linearized, entry, calls, state, cache, longest, computePartial, history, ops, w);
    }
  }

  ghost function EntriesAhead<V>(history: seq<Event<V>>, path: seq<nat>, index: nat): nat {
    var left := |Positions(history, SetOf(path))|;
    if index < left then left - index else 0
  }

  // Goes on until the list is empty or there is nothing to take back.
  method Explore<S(==, !new), V>(m: Model<S, V>, head: Node<V>, ghost start: View<V>, linearized: Bitset,
      cursor: Node?<V>, none: seq<Option<seq<nat>>>, computePartial: bool, ghost history: seq<Event<V>>,
      ghost ops: seq<Op<V>>, ghost w0: Where<S>)
    returns (ok: bool, calls: seq<(Node<V>, S)>, longest: seq<Option<seq<nat>>>, ghost list: View<V>, ghost w: Where<S>)
    requires head == start.head && ListOk(start, history, ops, w0.path) && BitsOk(linearized, ops, w0.path)
    requires StandsAt(m, history, ops, start.nodes, w0, cursor, [], m.init, map[])
    requires RecordsOk(m, ops, w0.finished, none, computePartial)
    modifies start.Repr(), linearized.words
    ensures ok ==> SameNodes(start, list) && ListOk(list, history, ops, w.path) && head.next == null
    ensures ok ==> Reachable(m, ops, w.path) && CallsOk(m, list.nodes, ops, w.path, calls) && |longest| == |ops|
    ensures !ok ==> Refuted(m, ops, longest, computePartial)
  {
    var entry, state, cache: Cache<S> := cursor, m.init, map[];
    ok, calls, longest, list, w := true, [], none, start, w0;
    while head.next != null
      invariant SameNodes(start, list) && ListOk(list, history, ops, w.path) && BitsOk(linearized, ops, w.path)
      invariant StandsAt(m, history, ops, list.nodes, w, entry, calls, state, cache)
      invariant RecordsOk(m, ops, w.finished, longest, computePartial)
      decreases |Universe(m, ops) - w.cached|, |w.path|, EntriesAhead(history, w.path, w.index)
    {
      var stuck;
      stuck, entry, calls, state, cache, longest, list, w :=
        Step(m, head, list, linearized, entry, calls, state, cache, longest, computePartial, history, ops, w);
      if stuck {
        ok := false;
        return;
      }
    }
  }

  // Searches from the beginning: ends with the operations placed in `calls`, or with none possible.
  method Search<S(==, !new), V>(m: Model<S, V>, head: Node<V>, ghost start: View<V>, linearized: Bitset, n: nat,
      computePartial: bool, ghost history: seq<Event<V>>, ghost ops: seq<Op<V>>)
    returns (ok: bool, calls: seq<(Node<V>, S)>, longest: seq<Option<seq<nat>>>, ghost path: seq<nat>)
    requires head == start.head && ListOk(start, history, ops, []) && BitsOk(linearized, ops, []) && n == |ops|
    modifies start.Repr(), linearized.words
    ensures ok ==> IsLinearization(m, ops, path) && CallsOk(m, start.nodes, ops, path, calls) && |longest| == |ops|
    ensures !ok ==> Refuted(m, ops, longest, computePartial)
  {
    ghost var list, w;
    Begins(m, start, history, ops);
    ok, calls, longest, list, w :=
      Explore(m, head, start, linearized, head.next, seq(n, _ => None), computePartial, history, ops,
          Where([], 0, {}, {}));
    path := w.path;
    if ok {
      FirstLeft(list, history, ops, path);
      AllPlaced(m, history, ops, path);
    }
  }

  /**
    Decides whether the history is linearizable.  Positions in the history serve as the times of calls and returns.
    On success every operation is recorded with a linearization of everything; otherwise, if asked for, with the
    longest beginning of a linearization it can be part of.
   */
  method CheckSingle<S(==, !new), V>(m: Model<S, V>, history: seq<Event<V>>, computePartial: bool,
      ghost ops: seq<Op<V>>)
    returns (ok: bool, longest: seq<Option<seq<nat>>>)
    requires Indexed(history, ops)
    ensures ok <==> Linearizable(m, ops)
    ensures |longest| == |ops|
    ensures ok ==> forall i :: 0 <= i < |ops| ==> longest[i].Some? && IsLinearization(m, ops, longest[i].value)
    ensures !ok && computePartial ==> forall i :: 0 <= i < |ops| ==> IsLongestWith(m, ops, i, longest[i])
  {
    var head, n;
    ghost var list;
    head, n, list := Prepare(history, ops);
    var linearized := new Bitset(n);
    StackedFacts(list.Whole(), list.frames, list.current);
    var calls: seq<(Node<V>, S)>;
    ghost var path;
    ok, calls, longest, path := Search(m, head, list, linearized, n, computePartial, history, ops);
    if ok {
      var order := OrderOf(m, calls, list.nodes, history, ops, path);
      longest := seq(n, _ => Some(order));
    }
  }
}
