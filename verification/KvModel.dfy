/**
  The sequential key/value specification and its partition by key: what the checker is asked about a key/value
  history, and what its verdict means.
 */
module KvModel {
  import opened Linearizability
  import opened Locality
  import opened PorcupineList
  import opened PorcupinePositions
  import opened PorcupineEntries
  import opened PorcupineParallel

  // Inputs and outputs: op 0 gets, 1 puts, 2 appends, and any other appends and returns the old value.
  datatype KvValue = KvInput(op: nat, key: string, value: string) | KvOutput(result: string)

  predicate WellTyped(history: seq<Op<KvValue>>) {
    forall i :: 0 <= i < |history| ==> history[i].input.KvInput? && history[i].output.KvOutput?
  }

  function KvKey(v: KvValue): string {
    if v.KvInput? then v.key else ""
  }

  // One key's value.
  function KvStep(st: string, input: KvValue, output: KvValue): (bool, string) {
    if !input.KvInput? || !output.KvOutput? then (false, st)
    else if input.op == 0 then (output.result == st, st)
    else if input.op == 1 then (true, input.value)
    else if input.op == 2 then (true, st + input.value)
    else (output.result == st, st + input.value)
  }

  function OneKey(): Model<string, KvValue> {
    Model("", KvStep)
  }

  // ---------- one store for all keys ----------

  function Lookup(store: map<string, string>, k: string): string {
    if k in store then store[k] else ""
  }

  function StoreStep(store: map<string, string>, input: KvValue, output: KvValue): (bool, map<string, string>) {
    if !input.KvInput? || !output.KvOutput? then (false, store)
    else
      var was := Lookup(store, input.key);
      match input.op
      case 0 => (output.result == was, store)
      case 1 => (true, store[input.key := input.value])
      case 2 => (true, store[input.key := was + input.value])
      case _ => (output.result == was, store[input.key := was + input.value])
  }

  function KvStore(): Model<map<string, string>, KvValue> {
    Model(map[], StoreStep)
  }

  lemma SameStep(s: map<string, string>, p: map<string, string>, input: KvValue, output: KvValue, k: string)
    requires Lookup(s, k) == At(OneKey(), p, k) && Lookup(s, KvKey(input)) == At(OneKey(), p, KvKey(input))
    ensures Lookup(KvStore().step(s, input, output).1, k) ==
            At(OneKey(), Product(OneKey(), KvKey).step(p, input, output).1, k)
    ensures KvStore().step(s, input, output).0 <==> Product(OneKey(), KvKey).step(p, input, output).0
  {
    var was := At(OneKey(), p, KvKey(input));
    assert KvStore().step(s, input, output) == StoreStep(s, input, output);
    assert OneKey().step(was, input, output) == KvStep(was, input, output);
  }

  lemma {:induction false} SameValues(ops: seq<Op<KvValue>>, order: seq<nat>, k: string)
    requires InRange(order, |ops|)
    ensures Lookup(StateAfter(KvStore(), ops, order), k) ==
            At(OneKey(), StateAfter(Product(OneKey(), KvKey), ops, order), k)
  {
    if order != [] {
      var before, x := order[..|order| - 1], order[|order| - 1];
      SameValues(ops, before, k);
      SameValues(ops, before, KvKey(ops[x].input));
      SameStep(StateAfter(KvStore(), ops, before), StateAfter(Product(OneKey(), KvKey), ops, before), ops[x].input,
          ops[x].output, k);
    }
  }

  // The store behaves as one object per key.
  lemma StoreIsProduct(ops: seq<Op<KvValue>>)
    ensures Linearizable(KvStore(), ops) <==> Linearizable(Product(OneKey(), KvKey), ops)
  {
    forall order: seq<nat>
        ensures IsLinearization(KvStore(), ops, order) <==> IsLinearization(Product(OneKey(), KvKey), ops, order) {
      if InRange(order, |ops|) { SameLegal(ops, order); }
    }
  }

  lemma SameLegal(ops: seq<Op<KvValue>>, order: seq<nat>)
    requires InRange(order, |ops|)
    ensures Legal(KvStore(), ops, order) <==> Legal(Product(OneKey(), KvKey), ops, order)
  {
    forall k | 0 <= k < |order|
      ensures Accepts(KvStore(), ops, StateAfter(KvStore(), ops, order[..k]), order[k])
         <==> Accepts(Product(OneKey(), KvKey), ops, StateAfter(Product(OneKey(), KvKey), ops, order[..k]), order[k])
    {
      var before, op := order[..k], ops[order[k]];
      SameValues(ops, before, KvKey(op.input));
      SameStep(StateAfter(KvStore(), ops, before), StateAfter(Product(OneKey(), KvKey), ops, before), op.input,
          op.output, KvKey(op.input));
    }
  }

  // ---------- partitioning ----------

  // The history's operations on one key.
  ghost function Part(history: seq<Op<KvValue>>, k: string, n: nat): seq<Op<KvValue>>
    requires n <= |history|
  {
    Pick(history, IdsOf(history, KvKey, k, n))
  }

  lemma PartMore(history: seq<Op<KvValue>>, k: string, n: nat)
    requires n < |history|
    ensures Part(history, k, n + 1) == Part(history, k, n) + if KvKey(history[n].input) == k then [history[n]] else []
  {
  }

  ghost predicate Partitioned(history: seq<Op<KvValue>>, keys: seq<string>, parts: seq<seq<Op<KvValue>>>) {
    && |parts| == |keys|
    && (forall i, j :: 0 <= i < j < |keys| ==> keys[i] != keys[j])
    && (forall x {:trigger history[x]} :: 0 <= x < |history| ==> KvKey(history[x].input) in keys)
    && (forall i :: 0 <= i < |keys| ==> parts[i] == Part(history, keys[i], |history|) && parts[i] != [])
  }

  // Each key that occurs leads to its operations among the first n.
  ghost predicate Grouped(history: seq<Op<KvValue>>, m: map<string, seq<Op<KvValue>>>, n: nat)
    requires n <= |history|
  {
    && (forall x {:trigger history[x]} :: 0 <= x < n ==> KvKey(history[x].input) in m)
    && (forall k {:trigger m[k]} :: k in m ==> m[k] == Part(history, k, n) && m[k] != [])
  }

  function Added(m: map<string, seq<Op<KvValue>>>, op: Op<KvValue>): map<string, seq<Op<KvValue>>> {
    m[KvKey(op.input) := (if KvKey(op.input) in m then m[KvKey(op.input)] else []) + [op]]
  }

  lemma {:induction false} NoPart(history: seq<Op<KvValue>>, k: string, n: nat)
    requires n <= |history| && forall x {:trigger history[x]} :: 0 <= x < n ==> KvKey(history[x].input) != k
    ensures Part(history, k, n) == []
  {
    if n > 0 {
      NoPart(history, k, n - 1);
      PartMore(history, k, n - 1);
    }
  }

  lemma GroupMore(history: seq<Op<KvValue>>, m: map<string, seq<Op<KvValue>>>, n: nat)
    requires n < |history| && Grouped(history, m, n)
    ensures Grouped(history, Added(m, history[n]), n + 1)
  {
    var m' := Added(m, history[n]);
    forall k | k in m' ensures m'[k] == Part(history, k, n + 1) && m'[k] != [] {
      if k !in m { NoPart(history, k, n); }
      PartMore(history, k, n);
    }
  }

  method Partition(history: seq<Op<KvValue>>) returns (parts: seq<seq<Op<KvValue>>>, keys: seq<string>)
    ensures Partitioned(history, keys, parts)
  {
    var m: map<string, seq<Op<KvValue>>> := map[];
    for i := 0 to |history|
      invariant Grouped(history, m, i)
    {
      GroupMore(history, m, i);
      m := Added(m, history[i]);
    }
    keys, parts := [], [];
    var left := m.Keys;
    while left != {}
      invariant |parts| == |keys| && left <= m.Keys
      invariant forall k {:trigger k in keys} :: k in m ==> (k in keys <==> k !in left)
      invariant forall i, j :: 0 <= i < j < |keys| ==> keys[i] != keys[j]
      invariant forall i :: 0 <= i < |keys| ==> keys[i] in m && parts[i] == m[keys[i]]
      decreases left
    {
      var k :| k in left;
      assert k !in keys;
      left := left - {k};
      keys := keys + [k];
      parts := parts + [m[k]];
    }
    forall i | 0 <= i < |keys| ensures parts[i] == Part(history, keys[i], |history|) && parts[i] != [] { }
  }

  /** The verdicts on the keys decide the verdict on the whole. */
  lemma PartsDecide(history: seq<Op<KvValue>>, keys: seq<string>, parts: seq<seq<Op<KvValue>>>)
    requires WellTimed(history) && Partitioned(history, keys, parts)
    ensures Linearizable(KvStore(), history) <==> forall i :: 0 <= i < |parts| ==> Linearizable(OneKey(), parts[i])
  {
    StoreIsProduct(history);
    Local(OneKey(), history, KvKey);
    forall k ensures Linearizable(OneKey(), Part(history, k, |history|)) <==>
        KeyLinearizable(OneKey(), history, KvKey, k) {
      SubLinearizable(OneKey(), history, KvKey, k);
    }
    if forall i :: 0 <= i < |parts| ==> Linearizable(OneKey(), parts[i]) {
      forall k ensures KeyLinearizable(OneKey(), history, KvKey, k) {
        if k in keys {
          var i :| 0 <= i < |keys| && keys[i] == k;
          assert Linearizable(OneKey(), parts[i]);
        } else {
          forall x: nat | x < |history|
              ensures KeyOf(history, KvKey, x) != k { assert KvKey(history[x].input) in keys; }
          Unused(OneKey(), history, KvKey, k);
        }
      }
    } else {
      var i :| 0 <= i < |parts| && !Linearizable(OneKey(), parts[i]);
      assert !KeyLinearizable(OneKey(), history, KvKey, keys[i]);
    }
  }

  lemma PartTimed(history: seq<Op<KvValue>>, k: string)
    requires WellTimed(history)
    ensures WellTimed(Part(history, k, |history|))
  {
  }

  /**
    Checks a key/value history: Ok exactly when some order of all the operations respects real time and could have
    been produced by one store.
   */
  method CheckOperations(history: seq<Op<KvValue>>, verbose: bool) returns (result: CheckResult)
    requires WellTimed(history) && WellTyped(history) && history != []
    ensures result == Ok <==> Linearizable(KvStore(), history)
  {
    var parts, keys := Partition(history);
    assert KvKey(history[0].input) in keys;
    var l := [];
    ghost var placed := [];
    for i := 0 to |parts|
      invariant |l| == |placed| == i
      invariant forall j :: 0 <= j < i ==> Indexed(l[j], placed[j]) && SameOrder(parts[j], placed[j])
    {
      PartTimed(history, keys[i]);
      var entries;
      ghost var at;
      entries, at := MakeEntries(parts[i]);
      l, placed := l + [entries], placed + [at];
    }
    var reports;
    result, reports := CheckParallel(OneKey(), l, verbose, placed);
    forall i | 0 <= i < |parts| ensures Linearizable(OneKey(), parts[i]) <==> Linearizable(OneKey(), placed[i]) {
      SameVerdict(OneKey(), parts[i], placed[i]);
    }
    PartsDecide(history, keys, parts);
  }
}
