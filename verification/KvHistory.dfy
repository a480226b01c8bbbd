/**
  The history that clerks see of a store kept by a log: calls, what they return and when.  If every answer was read from
  the state after some prefix of the log that holds the operation, and operations enter the log only after they are
  called, then the history is linearizable.
 */
module KvHistory {
  import opened Options
  import opened KvReplica
  import opened Linearizability
  import KM = KvModel

  datatype Outcome = Outcome(result: string, at: int)

  // A clerk's call, and what came of it so far.
  datatype Call = Call(op: KvOp, at: int, outcome: Option<Outcome>)

  // ---------- the specification that clerks get ----------

  // As the checker's store, except that the value "ErrNoKey" reads as a missing key.
  function ShownStep(store: map<string, string>, input: KM.KvValue, output: KM.KvValue): (bool, map<string, string>) {
    var (ok, store') := KM.StoreStep(store, input, output);
    if input.KvInput? && output.KvOutput? && input.op == 0
        && KM.Lookup(store, input.key) == NO_KEY then (output.result == "", store')
    else (ok, store')
  }

  function ShownStore(): Model<map<string, string>, KM.KvValue> {
    Model(map[], ShownStep)
  }

  // ---------- what is known of a history ----------

  predicate OneCallPerId(calls: seq<Call>) {
    forall c, d :: 0 <= c < d < |calls| ==> !SameId(calls[c].op, calls[d].op)
  }

  ghost predicate Called(calls: seq<Call>, op: KvOp) {
    exists c :: 0 <= c < |calls| && calls[c].op == op
  }

  // The clerk's call before this one is over.
  ghost predicate Follows(calls: seq<Call>, c: nat)
    requires c < |calls|
  {
    calls[c].op.seqNo == 0 || exists d :: 0 <= d < |calls| && EndedBefore(calls, d, c)
  }

  // Call d is the one before c of the same clerk, and was over when c began.
  predicate EndedBefore(calls: seq<Call>, d: nat, c: nat)
    requires d < |calls| && c < |calls|
  {
    && calls[d].op.client == calls[c].op.client && calls[d].op.seqNo == calls[c].op.seqNo - 1
    && calls[d].outcome.Some? && calls[d].outcome.value.at <= calls[c].at
  }

  // The answer was read after n operations of the log, this one among them, and none of them called later.
  predicate ReadAt(calls: seq<Call>, ops: seq<KvOp>, c: nat, n: nat)
    requires c < |calls|
  {
    && n <= |ops| && calls[c].op in ops[..n]
    && (calls[c].outcome.Some? ==>
          && calls[c].at <= calls[c].outcome.value.at
          && calls[c].outcome.value.result == Result(Fold(ops[..n]).kv, calls[c].op)
          && forall d {:trigger calls[d]} :: 0 <= d < |calls| && calls[c].outcome.value.at <= calls[d].at ==>
               calls[d].op !in ops[..n])
  }

  ghost predicate CallOk(calls: seq<Call>, ops: seq<KvOp>, c: nat, n: nat)
    requires c < |calls|
  {
    Follows(calls, c) && (calls[c].outcome.Some? || calls[c].op in ops ==> ReadAt(calls, ops, c, n))
  }

  ghost predicate AllCalled(calls: seq<Call>, ops: seq<KvOp>) {
    forall k {:trigger ops[k]} :: 0 <= k < |ops| ==> Called(calls, ops[k])
  }

  // The answers of a log of operations, with the length of the prefix each was read at.
  ghost predicate Explained(calls: seq<Call>, ops: seq<KvOp>, points: seq<nat>) {
    && OneCallPerId(calls) && AllCalled(calls, ops) && |points| == |calls|
    && forall c {:trigger CallOk(calls, ops, c, points[c])} :: 0 <= c < |calls| ==> CallOk(calls, ops, c, points[c])
  }

  // ---------- the log ----------

  lemma SameCall(calls: seq<Call>, a: KvOp, b: KvOp)
    requires OneCallPerId(calls) && Called(calls, a) && Called(calls, b) && SameId(a, b)
    ensures a == b
  {
    var c :| 0 <= c < |calls| && calls[c].op == a;
    var d :| 0 <= d < |calls| && calls[d].op == b;
  }

  /** Clerks that wait for their answers make a sequential log. */
  lemma LogIsSequential(calls: seq<Call>, ops: seq<KvOp>, points: seq<nat>)
    requires Explained(calls, ops, points)
    ensures Sequential(ops)
  {
    forall i | 0 <= i < |ops| ensures ops[i].seqNo == 0 || Seen(ops[..i], ops[i].client, ops[i].seqNo - 1) {
      assert Called(calls, ops[i]);
      var c: nat :| c < |calls| && calls[c].op == ops[i];
      assert CallOk(calls, ops, c, points[c]);
      if ops[i].seqNo != 0 {
        var d: nat :| d < |calls| && EndedBefore(calls, d, c);
        assert CallOk(calls, ops, d, points[d]);
        EarlierInLog(calls, ops, d, points[d], c, i);
      }
    }
  }

  lemma InPrefix(ops: seq<KvOp>, n: nat, i: nat)
    requires n <= |ops| && i < |ops|
    ensures i < n ==> ops[i] in ops[..n]
  {
    assert i < n ==> ops[..n][i] == ops[i];
  }

  // What is called after an answer has no place in the log before it.
  lemma EarlierInLog(calls: seq<Call>, ops: seq<KvOp>, d: nat, n: nat, c: nat, i: nat)
    requires c < |calls| && d < |calls| && ReadAt(calls, ops, d, n)
    requires calls[d].outcome.Some? && calls[d].outcome.value.at <= calls[c].at && i < |ops| && ops[i] == calls[c].op
    ensures n <= i && Seen(ops[..i], calls[d].op.client, calls[d].op.seqNo)
  {
    assert calls[c].op !in ops[..n];
    InPrefix(ops, n, i);
    var p :| 0 <= p < n && ops[..n][p] == calls[d].op;
    assert ops[..i][p] == calls[d].op;
  }

  // Where an operation first appears.
  function FirstAt(ops: seq<KvOp>, op: KvOp): (f: nat)
    requires op in ops
    ensures f < |ops| && ops[f] == op && op !in ops[..f]
  {
    if op in ops[..|ops| - 1] then
      var f := FirstAt(ops[..|ops| - 1], op);
      assert ops[..|ops| - 1][..f] == ops[..f];
      f
    else |ops| - 1
  }

  lemma FirstWithin(ops: seq<KvOp>, op: KvOp, n: nat)
    requires n <= |ops| && op in ops[..n]
    ensures op in ops && FirstAt(ops, op) < n
  {
    var p :| 0 <= p < n && ops[..n][p] == op;
    var f := FirstAt(ops, op);
    InPrefix(ops, f, p);
  }

  // A position at which the values may change.
  predicate Fresh(ops: seq<KvOp>, p: nat)
    requires p < |ops|
  {
    ops[p].kind != GetOp && ops[p] !in ops[..p]
  }

  lemma DuplicateIsRepeated(calls: seq<Call>, ops: seq<KvOp>, p: nat)
    requires OneCallPerId(calls) && AllCalled(calls, ops)
    requires Sequential(ops) && p < |ops|
    ensures Duplicate(Fold(ops[..p]), ops[p]) <==> ops[p] in ops[..p]
  {
    DuplicateIff(ops[..p], ops[p]);
    PassedIsSeen(ops, p);
    if Seen(ops[..p], ops[p].client, ops[p].seqNo) {
      var k :| 0 <= k < p && ops[..p][k].client == ops[p].client && ops[..p][k].seqNo == ops[p].seqNo;
      assert ops[..p][k] == ops[k];
      SameCall(calls, ops[k], ops[p]);
    }
  }

  lemma {:induction false} QuietSpan(calls: seq<Call>, ops: seq<KvOp>, a: nat, b: nat)
    requires OneCallPerId(calls) && AllCalled(calls, ops) && Sequential(ops)
    requires a <= b <= |ops| && forall p {:trigger Fresh(ops, p)} :: a <= p < b ==> !Fresh(ops, p)
    ensures Fold(ops[..a]).kv == Fold(ops[..b]).kv
    decreases b
  {
    if a < b {
      QuietSpan(calls, ops, a, b - 1);
      FoldMore(ops, b - 1);
      DuplicateIsRepeated(calls, ops, b - 1);
      assert !Fresh(ops, b - 1);
    }
  }

  // ---------- the history ----------

  function Input(op: KvOp): KM.KvValue {
    KM.KvInput(match op.kind case GetOp => 0 case PutOp => 1 case AppendOp => 2, op.key, op.value)
  }

  // A call in a history: with its own outcome, or, if it is still open, with any result at the end.
  predicate Stands(call: Call, end: int, h: Op<KM.KvValue>) {
    && h.input == Input(call.op) && h.output.KvOutput? && h.call == call.at
    && match call.outcome
       case Some(o) => h.output.result == o.result && h.ret == o.at
       case None => h.ret == end
  }

  /** The history is complete: it holds each call that is over, once, with what came of it, and perhaps some of those
      still open. */
  predicate Completes(calls: seq<Call>, end: int, ids: seq<nat>, history: seq<Op<KM.KvValue>>) {
    && |ids| == |history| && InRange(ids, |calls|) && NoRepeats(ids)
    && (forall c {:trigger calls[c]} :: 0 <= c < |calls| && calls[c].outcome.Some? ==> c in ids)
    && (forall x {:trigger history[x]} :: 0 <= x < |history| ==> Stands(calls[ids[x]], end, history[x]))
  }

  // The calls whose operation is in the log.
  function InLog(calls: seq<Call>, ops: seq<KvOp>, n: nat): (ids: seq<nat>)
    requires n <= |calls|
    ensures InRange(ids, n) && NoRepeats(ids) && forall c :: c in ids <==> 0 <= c < n && calls[c].op in ops
  {
    if n == 0 then [] else InLog(calls, ops, n - 1) + if calls[n - 1].op in ops then [n - 1] else []
  }

  function Stand(call: Call, kv: map<string, string>, end: int): Op<KM.KvValue> {
    match call.outcome
    case Some(o) => Op(Input(call.op), KM.KvOutput(o.result), call.at, o.at)
    case None => Op(Input(call.op), KM.KvOutput(Result(kv, call.op)), call.at, end)
  }

  // The clerks' step as the specification sees it.
  lemma StepOf(kv: map<string, string>, op: KvOp, result: string)
    requires result == Result(kv, op)
    ensures ShownStore().step(kv, Input(op), KM.KvOutput(result)) == (true, Execute(kv, op))
  {
    assert ShownStore().step(kv, Input(op), KM.KvOutput(result)) == ShownStep(kv, Input(op), KM.KvOutput(result));
  }

  lemma StepMoves(kv: map<string, string>, op: KvOp, result: string)
    ensures ShownStore().step(kv, Input(op), KM.KvOutput(result)).1 == Execute(kv, op)
    ensures op.kind != GetOp ==> ShownStore().step(kv, Input(op), KM.KvOutput(result)).0
  {
    assert ShownStore().step(kv, Input(op), KM.KvOutput(result)) == ShownStep(kv, Input(op), KM.KvOutput(result));
  }

  // A history with the log and the points that explain it.
  datatype Account = Account(calls: seq<Call>, ops: seq<KvOp>, points: seq<nat>, end: int,
                             ids: seq<nat>, history: seq<Op<KM.KvValue>>) {
    ghost predicate Valid() {
      && Explained(calls, ops, points) && Sequential(ops)
      && ids == InLog(calls, ops, |calls|) && |history| == |ids|
      && (forall c {:trigger calls[c]} :: 0 <= c < |calls| ==> calls[c].at <= end)
      && forall x {:trigger history[x]} :: 0 <= x < |history| ==>
           points[ids[x]] <= |ops| && history[x] == Stand(calls[ids[x]], Fold(ops[..points[ids[x]]]).kv, end)
    }

    function OpOf(x: nat): KvOp
      requires InRange(ids, |calls|) && x < |ids|
    {
      calls[ids[x]].op
    }

    predicate Within(x: nat) {
      x < |ids| == |history| && InRange(ids, |calls|) && |points| == |calls| && OpOf(x) in ops
    }

    // Where in the log the operation takes effect.
    function Place(x: nat): nat
      requires Within(x)
    {
      FirstAt(ops, OpOf(x))
    }

    function Point(x: nat): nat
      requires Within(x)
    {
      points[ids[x]]
    }

    // Writes at their places, reads between them; what reads the same state in the order of return.
    function Key(x: nat): (int, int)
      requires Within(x)
    {
      (if OpOf(x).kind == GetOp then 2 * Point(x) + 1 else 2 * Place(x) + 2, history[x].ret)
    }
  }

  lemma InAccount(a: Account, x: nat)
    requires a.Valid() && x < |a.history|
    ensures a.Within(x) && a.Place(x) < a.Point(x) <= |a.ops|
    ensures ReadAt(a.calls, a.ops, a.ids[x], a.Point(x)) && a.history[x].input == Input(a.OpOf(x))
    ensures a.history[x].output == KM.KvOutput(Result(Fold(a.ops[..a.Point(x)]).kv, a.OpOf(x)))
    ensures a.history[x].call == a.calls[a.ids[x]].at
  {
    var c := a.ids[x];
    assert c in a.ids;
    assert CallOk(a.calls, a.ops, c, a.points[c]);
    assert a.history[x] == Stand(a.calls[c], Fold(a.ops[..a.points[c]]).kv, a.end);
    FirstWithin(a.ops, a.calls[c].op, a.points[c]);
  }

  lemma SamePlace(a: Account, x: nat, y: nat)
    requires a.Valid() && x < |a.history| && y < |a.history| && a.Within(x) && a.Within(y) && a.Place(x) == a.Place(y)
    ensures x == y
  {
    assert SameId(a.OpOf(x), a.OpOf(y));
    assert a.ids[x] == a.ids[y];
  }

  // ---------- the order ----------

  predicate Le(a: (int, int), b: (int, int)) {
    a.0 < b.0 || (a.0 == b.0 && a.1 <= b.1)
  }

  predicate SortedBy(keys: seq<(int, int)>, order: seq<nat>)
    requires InRange(order, |keys|)
  {
    forall i, j :: 0 <= i < j < |order| ==> Le(keys[order[i]], keys[order[j]])
  }

  lemma {:induction false} SortedOrder(keys: seq<(int, int)>, n: nat) returns (order: seq<nat>)
    requires n <= |keys|
    ensures InRange(order, n) && NoRepeats(order) && SortedBy(keys, order) && forall x: nat :: x < n ==> x in order
  {
    if n == 0 {
      order := [];
    } else {
      var before := SortedOrder(keys, n - 1);
      var p := PlaceFor(keys, before, keys[n - 1], |before|);
      order := before[..p] + [n - 1] + before[p..];
      Inserted(before, p, n - 1);
      InsertedSorted(keys, before, p, n - 1);
    }
  }

  lemma InsertedSorted(keys: seq<(int, int)>, before: seq<nat>, p: nat, n: nat)
    requires n < |keys| && p <= |before| && InRange(before, |keys|) && SortedBy(keys, before)
    requires forall i :: 0 <= i < p ==> Le(keys[before[i]], keys[n])
    requires forall i :: p <= i < |before| ==> Le(keys[n], keys[before[i]])
    ensures var order := before[..p] + [n] + before[p..];
            InRange(order, |keys|) && SortedBy(keys, order)
  {
  }

  lemma Inserted(before: seq<nat>, p: nat, n: nat)
    requires p <= |before| && InRange(before, n) && NoRepeats(before) && forall x: nat :: x < n ==> x in before
    ensures var order := before[..p] + [n] + before[p..];
            InRange(order, n + 1) && NoRepeats(order) && forall x: nat :: x <= n ==> x in order
  {
    var order := before[..p] + [n] + before[p..];
    forall x: nat | x <= n ensures x in order {
      assert order[p] == n;
      assert x < n ==> x in before && before == before[..p] + before[p..];
    }
  }

  lemma {:induction false} PlaceFor(keys: seq<(int, int)>, order: seq<nat>, key: (int, int), n: nat) returns (p: nat)
    requires InRange(order, |keys|) && SortedBy(keys, order) && n <= |order|
    requires forall i :: n <= i < |order| ==> Le(key, keys[order[i]])
    ensures p <= |order|
    ensures (forall i :: 0 <= i < p ==> Le(keys[order[i]], key)) && forall i :: p <= i < |order| ==>
            Le(key, keys[order[i]])
  {
    if n == 0 || Le(keys[order[n - 1]], key) { p := n; } else { p := PlaceFor(keys, order, key, n - 1); }
  }

  // ---------- real time ----------

  lemma TimeIsKept(a: Account, x: nat, y: nat)
    requires a.Valid() && x < |a.history| && y < |a.history| && Precedes(a.history, y, x)
    ensures a.Within(x) && a.Within(y) && !Le(a.Key(x), a.Key(y))
  {
    InAccount(a, x);
    InAccount(a, y);
    var c, d := a.ids[x], a.ids[y];
    assert a.calls[c].at <= a.end;
    assert a.calls[c].op !in a.ops[..a.Point(y)];
    InPrefix(a.ops, a.Point(y), a.Place(x));
  }

  // ---------- legality ----------

  // The first k operations of the order hold exactly the writes with a place before m.
  ghost predicate Splits(a: Account, order: seq<nat>, k: nat, m: nat)
    requires k <= |order|
  {
    forall x {:trigger x in order[..k]} :: 0 <= x < |a.history| && a.Within(x) && a.OpOf(x).kind != GetOp ==>
      (x in order[..k] <==> a.Place(x) < m)
  }

  ghost predicate Ordered(a: Account, order: seq<nat>) {
    && a.Valid() && InRange(order, |a.history|) && NoRepeats(order)
    && (forall x: nat :: x < |a.history| ==> x in order && a.Within(x))
    && forall i, j :: 0 <= i < j < |order| ==> Le(a.Key(order[i]), a.Key(order[j]))
  }

  // Every fresh position of the log is the place of some write in the history.
  lemma FreshIsCalled(a: Account, p: nat) returns (x: nat)
    requires a.Valid() && p < |a.ops| && Fresh(a.ops, p)
    ensures x < |a.history| && a.Within(x) && a.Place(x) == p && a.OpOf(x).kind != GetOp
  {
    assert Called(a.calls, a.ops[p]);
    var c: nat :| c < |a.calls| && a.calls[c].op == a.ops[p];
    assert c in a.ids;
    x :| 0 <= x < |a.ids| && a.ids[x] == c;
    var f := FirstAt(a.ops, a.ops[p]);
    InPrefix(a.ops, p, f);
    InPrefix(a.ops, f, p);
  }

  lemma Among(order: seq<nat>, k: nat, x: nat)
    requires 0 < k <= |order| && NoRepeats(order)
    ensures x in order[..k] <==> x in order[..k - 1] || x == order[k - 1]
  {
    assert order[..k] == order[..k - 1] + [order[k - 1]];
  }

  lemma SidesOf(a: Account, order: seq<nat>, k: nat, x: nat)
    requires Ordered(a, order) && k < |order| && x < |a.history|
    ensures a.Within(x) && a.Within(order[k])
    ensures if x in order[..k] then Le(a.Key(x), a.Key(order[k])) else Le(a.Key(order[k]), a.Key(x))
  {
    assert x in order && order[k] in order;
    var i :| 0 <= i < |order| && order[i] == x;
    EarlierIff(order, k, i);
  }

  lemma EarlierIff(order: seq<nat>, k: nat, i: nat)
    requires k <= |order| && i < |order| && NoRepeats(order)
    ensures order[i] in order[..k] <==> i < k
  {
    assert forall j :: 0 <= j < k ==> order[..k][j] == order[j];
  }

  // A write comes when the log before its place has had its effect.
  lemma WriteSplits(a: Account, order: seq<nat>, k: nat, m: nat)
    requires Ordered(a, order) && 0 < k <= |order| && Splits(a, order, k, m)
    requires a.Within(order[k - 1]) && a.OpOf(order[k - 1]).kind != GetOp
    ensures a.Place(order[k - 1]) < m && Splits(a, order, k - 1, a.Place(order[k - 1]))
  {
    var w := order[k - 1];
    Among(order, k, w);
    forall x | 0 <= x < |a.history| && a.Within(x) && a.OpOf(x).kind != GetOp
      ensures x in order[..k - 1] <==> a.Place(x) < a.Place(w)
    {
      SidesOf(a, order, k - 1, x);
      Among(order, k, x);
      EarlierIff(order, k - 1, k - 1);
      if a.Place(x) == a.Place(w) { SamePlace(a, x, w); }
    }
  }

  lemma FreshWithin(a: Account, order: seq<nat>, k: nat, m: nat, p: nat) returns (x: nat)
    requires a.Valid() && k <= |order| && Splits(a, order, k, m) && p < m <= |a.ops| && Fresh(a.ops, p)
    ensures x < |a.history| && x in order[..k] && a.Within(x) && a.Place(x) == p && a.OpOf(x).kind != GetOp
  {
    x := FreshIsCalled(a, p);
  }

  // After the last write before m the values stay as they are.
  lemma QuietAfter(a: Account, order: seq<nat>, k: nat, m: nat, f: nat)
    requires Ordered(a, order) && k <= |order| && Splits(a, order, k, m) && f <= m <= |a.ops|
    requires forall x {:trigger x in order[..k]} ::
               0 <= x < |a.history| && x in order[..k] && a.OpOf(x).kind != GetOp ==> a.Place(x) < f
    ensures Fold(a.ops[..f]).kv == Fold(a.ops[..m]).kv
  {
    forall p | f <= p < m ensures !Fresh(a.ops, p) {
      if Fresh(a.ops, p) { var _ := FreshWithin(a, order, k, m, p); }
    }
    QuietSpan(a.calls, a.ops, f, m);
  }

  lemma ReadSplits(a: Account, order: seq<nat>, k: nat, m: nat)
    requires Ordered(a, order) && 0 < k <= |order| && Splits(a, order, k, m)
    requires a.Within(order[k - 1]) && a.OpOf(order[k - 1]).kind == GetOp
    ensures Splits(a, order, k - 1, m)
  {
    forall x | 0 <= x < |a.history| && a.Within(x) && a.OpOf(x).kind != GetOp
        ensures x in order[..k - 1] <==> a.Place(x) < m {
      Among(order, k, x);
    }
  }

  lemma WriteTakesEffect(a: Account, order: seq<nat>, k: nat, m: nat)
    requires Ordered(a, order) && 0 < k <= |order| && Splits(a, order, k, m) && m <= |a.ops|
    requires a.Within(order[k - 1]) && a.OpOf(order[k - 1]).kind != GetOp
    ensures Fold(a.ops[..m]).kv == Execute(Fold(a.ops[..a.Place(order[k - 1])]).kv, a.OpOf(order[k - 1]))
  {
    var f := a.Place(order[k - 1]);
    WriteSplits(a, order, k, m);
    Effective(a, f);
    forall x | 0 <= x < |a.history| && x in order[..k] && a.OpOf(x).kind != GetOp ensures a.Place(x) < f + 1 {
      Among(order, k, x);
    }
    QuietAfter(a, order, k, m, f + 1);
  }

  lemma StateMoves(a: Account, order: seq<nat>, k: nat)
    requires a.Valid() && 0 < k <= |order| && InRange(order, |a.history|)
    ensures InRange(order[..k], |a.history|) && InRange(order[..k - 1], |a.history|) && a.Within(order[k - 1])
    ensures StateAfter(ShownStore(), a.history, order[..k]) ==
            Execute(StateAfter(ShownStore(), a.history, order[..k - 1]), a.OpOf(order[k - 1]))
  {
    var x := order[k - 1];
    InAccount(a, x);
    assert order[..k][..k - 1] == order[..k - 1];
    StepMoves(StateAfter(ShownStore(), a.history, order[..k - 1]), a.OpOf(x), a.history[x].output.result);
  }

  // The specification's state is the store's.
  lemma {:induction false} StateIs(a: Account, order: seq<nat>, k: nat, m: nat)
    requires Ordered(a, order) && k <= |order| && Splits(a, order, k, m) && m <= |a.ops|
    ensures InRange(order[..k], |a.history|) && StateAfter(ShownStore(), a.history, order[..k]) == Fold(a.ops[..m]).kv
    decreases k
  {
    if k == 0 {
      QuietAfter(a, order, 0, m, 0);
    } else {
      StateMoves(a, order, k);
      if a.OpOf(order[k - 1]).kind == GetOp {
        ReadSplits(a, order, k, m);
        StateIs(a, order, k - 1, m);
      } else {
        WriteSplits(a, order, k, m);
        StateIs(a, order, k - 1, a.Place(order[k - 1]));
        WriteTakesEffect(a, order, k, m);
      }
    }
  }

  lemma Effective(a: Account, f: nat)
    requires a.Valid() && f < |a.ops| && a.ops[f] !in a.ops[..f]
    ensures Fold(a.ops[..f + 1]).kv == Execute(Fold(a.ops[..f]).kv, a.ops[f])
  {
    FoldMore(a.ops, f);
    DuplicateIsRepeated(a.calls, a.ops, f);
  }

  // A read comes at the state it was read from.
  lemma ReadsFold(a: Account, order: seq<nat>, k: nat)
    requires Ordered(a, order) && k < |order| && a.Within(order[k]) && a.OpOf(order[k]).kind == GetOp
             && a.Point(order[k]) <= |a.ops|
    ensures StateAfter(ShownStore(), a.history, order[..k]) == Fold(a.ops[..a.Point(order[k])]).kv
  {
    var n := a.Point(order[k]);
    forall x | 0 <= x < |a.history| && a.Within(x) && a.OpOf(x).kind != GetOp
        ensures x in order[..k] <==> a.Place(x) < n {
      SidesOf(a, order, k, x);
    }
    StateIs(a, order, k, n);
  }

  lemma OrderIsLegal(a: Account, order: seq<nat>)
    requires Ordered(a, order)
    ensures Legal(ShownStore(), a.history, order)
  {
    forall k | 0 <= k < |order|
        ensures Accepts(ShownStore(), a.history, StateAfter(ShownStore(), a.history, order[..k]), order[k]) {
      var x := order[k];
      InAccount(a, x);
      if a.OpOf(x).kind == GetOp {
        ReadsFold(a, order, k);
        StepOf(Fold(a.ops[..a.Point(x)]).kv, a.OpOf(x), a.history[x].output.result);
      } else {
        StepMoves(StateAfter(ShownStore(), a.history, order[..k]), a.OpOf(x), a.history[x].output.result);
      }
    }
  }

  // ---------- the checker's store ----------

  /** No key ever has the value that stands for a missing key. */
  predicate NeverErrNoKey(ops: seq<KvOp>) {
    forall n, key {:trigger Fold(ops[..n]).kv[key]} :: 0 <= n <= |ops| && key in Fold(ops[..n]).kv ==>
        Fold(ops[..n]).kv[key] != NO_KEY
  }

  lemma {:induction false} SameStates(history: seq<Op<KM.KvValue>>, order: seq<nat>)
    requires InRange(order, |history|)
    ensures StateAfter(KM.KvStore(), history, order) == StateAfter(ShownStore(), history, order)
  {
    if order != [] {
      SameStates(history, order[..|order| - 1]);
      var h := history[order[|order| - 1]];
      var kv := StateAfter(ShownStore(), history, order[..|order| - 1]);
      assert ShownStore().step(kv, h.input, h.output) == ShownStep(kv, h.input, h.output);
      assert KM.KvStore().step(kv, h.input, h.output) == KM.StoreStep(kv, h.input, h.output);
    }
  }

  lemma StoreIsLegal(a: Account, order: seq<nat>)
    requires Ordered(a, order) && NeverErrNoKey(a.ops)
    ensures Legal(KM.KvStore(), a.history, order)
  {
    forall k | 0 <= k < |order|
      ensures Accepts(KM.KvStore(), a.history, StateAfter(KM.KvStore(), a.history, order[..k]), order[k])
    {
      SameStates(a.history, order[..k]);
      var x := order[k];
      InAccount(a, x);
      var kv, h := StateAfter(ShownStore(), a.history, order[..k]), a.history[x];
      assert KM.KvStore().step(kv, h.input, h.output) == KM.StoreStep(kv, h.input, h.output);
      if a.OpOf(x).kind == GetOp { ReadsFold(a, order, k); }
    }
  }

  lemma AccountIsLinearizable(a: Account)
    requires a.Valid()
    ensures Linearizable(ShownStore(), a.history)
    ensures NeverErrNoKey(a.ops) ==> Linearizable(KM.KvStore(), a.history)
  {
    forall x | 0 <= x < |a.history| ensures a.Within(x) { InAccount(a, x); }
    var keys := seq(|a.history|, x requires 0 <= x < |a.history| => a.Key(x));
    var order := SortedOrder(keys, |keys|);
    forall i, j | 0 <= i < j < |order| ensures Le(a.Key(order[i]), a.Key(order[j])) {
      assert Le(keys[order[i]], keys[order[j]]);
    }
    forall i, j | 0 <= i < j < |order| ensures !Precedes(a.history, order[j], order[i]) {
      if Precedes(a.history, order[j], order[i]) { TimeIsKept(a, order[i], order[j]); }
    }
    OrderIsLegal(a, order);
    assert IsLinearization(ShownStore(), a.history, order);
    if NeverErrNoKey(a.ops) {
      StoreIsLegal(a, order);
      assert IsLinearization(KM.KvStore(), a.history, order);
    }
  }

  lemma AccountOf(calls: seq<Call>, ops: seq<KvOp>, points: seq<nat>, end: int) returns (a: Account)
    requires Explained(calls, ops, points) && forall c {:trigger calls[c]} :: 0 <= c < |calls| ==> calls[c].at <= end
    ensures a.Valid() && a.calls == calls && a.ops == ops && a.end == end
  {
    LogIsSequential(calls, ops, points);
    var ids := InLog(calls, ops, |calls|);
    forall x | 0 <= x < |ids| ensures points[ids[x]] <= |ops| {
      assert ids[x] in ids;
      assert CallOk(calls, ops, ids[x], points[ids[x]]);
    }
    var history := seq(|ids|, x requires 0 <= x < |ids| => Stand(calls[ids[x]], Fold(ops[..points[ids[x]]]).kv, end));
    a := Account(calls, ops, points, end, ids, history);
  }

  lemma AccountCompletes(a: Account)
    requires a.Valid()
    ensures Completes(a.calls, a.end, a.ids, a.history) && WellTimed(a.history)
  {
    forall c | 0 <= c < |a.calls| && a.calls[c].outcome.Some? ensures c in a.ids {
      assert CallOk(a.calls, a.ops, c, a.points[c]);
    }
    forall x | 0 <= x < |a.history| ensures a.history[x].call <= a.history[x].ret { InAccount(a, x); }
  }

  /** A history that a log explains is linearizable: with the calls that are over, and those still open whose
      operation has reached the log. */
  lemma ExplainedIsLinearizable(calls: seq<Call>, ops: seq<KvOp>, points: seq<nat>, end: int)
    returns (ids: seq<nat>, history: seq<Op<KM.KvValue>>)
    requires Explained(calls, ops, points) && forall c {:trigger calls[c]} :: 0 <= c < |calls| ==> calls[c].at <= end
    ensures Completes(calls, end, ids, history) && WellTimed(history)
    ensures Linearizable(ShownStore(), history) && (NeverErrNoKey(ops) ==> Linearizable(KM.KvStore(), history))
  {
    var a := AccountOf(calls, ops, points, end);
    AccountCompletes(a);
    AccountIsLinearizable(a);
    ids, history := a.ids, a.history;
  }

  // ---------- the text for a missing key ----------

  // A clerk puts that text and then gets it.
  function PutThenGet(key: string): seq<Call> {
    [Call(KvOp(PutOp, key, NO_KEY, 0, 0), 0, Some(Outcome("", 1))),
        Call(KvOp(GetOp, key, "", 1, 0), 2, Some(Outcome("", 3)))]
  }

  lemma Unreadable(key: string, history: seq<Op<KM.KvValue>>, order: seq<nat>, x: nat, y: nat)
    requires |history| == 2 && x < 2 && y < 2 && x != y
    requires Stands(PutThenGet(key)[0], 4, history[x]) && Stands(PutThenGet(key)[1], 4, history[y])
    ensures !IsLinearization(KM.KvStore(), history, order)
  {
    assert Precedes(history, x, y);
    var store := StateAfter(KM.KvStore(), history, [x]);
    AfterOne(KM.KvStore(), history, x);
    assert KM.KvStore().step(map[], history[x].input, history[x].output) ==
           KM.StoreStep(map[], history[x].input, history[x].output);
    assert KM.KvStore().step(store, history[y].input, history[y].output) ==
           KM.StoreStep(store, history[y].input, history[y].output);
    assert !Accepts(KM.KvStore(), history, store, y);
    if InRange(order, 2) && NoRepeats(order) && 0 in order && 1 in order {
      TwoInOrder(order);
      assert order == [x, y] ==> order[..1] == [x];
    }
  }

  lemma AfterOne<S, V>(m: Model<S, V>, history: seq<Op<V>>, x: nat)
    requires x < |history|
    ensures StateAfter(m, history, [x]) == Next(m, history, m.init, x)
  {
    var order := [x];
    assert order[..|order| - 1] == [];
    assert StateAfter(m, history, []) == m.init;
  }

  lemma TwoInOrder(order: seq<nat>)
    requires InRange(order, 2) && NoRepeats(order) && 0 in order && 1 in order
    ensures order == [0, 1] || order == [1, 0]
  {
    if |order| >= 3 { NoThree(order); }
  }

  lemma NoThree(order: seq<nat>)
    requires InRange(order, 2) && |order| >= 3
    ensures !NoRepeats(order)
  {
    assert order[0] == order[1] || order[0] == order[2] || order[1] == order[2];
  }

  /** The condition on the values is needed: a clerk that puts the text "ErrNoKey" and gets it back as a missing key is
      told what the log says, and no store that keeps what it is given could have told it so. */
  lemma ErrNoKeyIsLost(key: string, ids: seq<nat>, history: seq<Op<KM.KvValue>>)
    requires Completes(PutThenGet(key), 4, ids, history)
    ensures var calls := PutThenGet(key);
            Explained(calls, [calls[0].op, calls[1].op], [1, 2]) && !Linearizable(KM.KvStore(), history)
  {
    var calls := PutThenGet(key);
    ShownToClerk(key);
    assert calls[0].outcome.Some? && calls[1].outcome.Some?;
    TwoInOrder(ids);
    var x := if ids[0] == 0 then 0 else 1;
    assert history[x] == history[x] && history[1 - x] == history[1 - x];
    forall order: seq<nat>
        ensures !IsLinearization(KM.KvStore(), history, order) { Unreadable(key, history, order, x, 1 - x); }
  }

  lemma ShownToClerk(key: string)
    ensures var calls := PutThenGet(key); Explained(calls, [calls[0].op, calls[1].op], [1, 2])
  {
    var calls := PutThenGet(key);
    var ops := [calls[0].op, calls[1].op];
    assert calls[0].op in ops && calls[1].op in ops;
    assert ops[..1] == [ops[0]] && ops[..2] == ops && ops[..1][..0] == [];
    assert Called(calls, ops[0]) && Called(calls, ops[1]);
    FoldMore(ops, 0);
    FoldMore(ops, 1);
    assert ops[..0] == [];
    assert Fold(ops[..2]).kv[key] == NO_KEY;
    assert ReadAt(calls, ops, 0, 1) && ReadAt(calls, ops, 1, 2);
    assert EndedBefore(calls, 0, 1) && CallOk(calls, ops, 0, 1) && CallOk(calls, ops, 1, 2);
  }
}
