/**
  The replicated key/value state machine as a function of the committed log: operations take effect in log order,
  and a client's last sequence number decides which of them are repetitions.
 */
module KvReplica {

  datatype OpType = PutOp | AppendOp | GetOp

  datatype KvOp = KvOp(kind: OpType, key: string, value: string, seqNo: int, client: int)

  // What a replica holds: the values, and the last sequence number of each client.
  datatype Store = Store(kv: map<string, string>, requestCache: map<int, int>)

  const NO_KEY := "ErrNoKey"

  function GetValue(kv: map<string, string>, key: string): string {
    if key in kv then kv[key] else NO_KEY
  }

  // What a clerk makes of the answer it gets: the value of a Get, with a missing key as the empty string.
  function Result(kv: map<string, string>, op: KvOp): string {
    if op.kind == GetOp && GetValue(kv, op.key) != NO_KEY then GetValue(kv, op.key) else ""
  }

  predicate SameId(a: KvOp, b: KvOp) {
    a.client == b.client && a.seqNo == b.seqNo
  }

  // What an operation does to the values.
  function Execute(kv: map<string, string>, op: KvOp): map<string, string> {
    match op.kind
    case PutOp => kv[op.key := op.value]
    case AppendOp => kv[op.key := (if op.key in kv then kv[op.key] else "") + op.value]
    case GetOp => kv
  }

  predicate Duplicate(s: Store, op: KvOp) {
    op.client in s.requestCache && op.seqNo <= s.requestCache[op.client]
  }

  function Apply(s: Store, op: KvOp): Store {
    Store(Execute(s.kv, op), s.requestCache[op.client := op.seqNo])
  }

  function Deliver(s: Store, op: KvOp): Store {
    if Duplicate(s, op) then s else Apply(s, op)
  }

  // The state the log leads to.
  function Fold(log: seq<KvOp>): Store {
    if log == [] then Store(map[], map[]) else Deliver(Fold(log[..|log| - 1]), log[|log| - 1])
  }

  lemma FoldMore(log: seq<KvOp>, n: nat)
    requires n < |log|
    ensures Fold(log[..n + 1]) == Deliver(Fold(log[..n]), log[n])
  {
    assert log[..n + 1][..n] == log[..n];
  }

  // ---------- what the cache knows ----------

  // Some operation in the log is as late as this one among its client's.
  predicate Passed(log: seq<KvOp>, client: int, seqNo: int) {
    exists i :: 0 <= i < |log| && log[i].client == client && seqNo <= log[i].seqNo
  }

  lemma PassedMore(log: seq<KvOp>, client: int, seqNo: int)
    requires log != []
    ensures Passed(log, client, seqNo) <==>
            Passed(log[..|log| - 1], client, seqNo)
                || (log[|log| - 1].client == client && seqNo <= log[|log| - 1].seqNo)
  {
    var before := log[..|log| - 1];
    if Passed(log, client, seqNo) {
      var i :| 0 <= i < |log| && log[i].client == client && seqNo <= log[i].seqNo;
      assert i < |before| ==> before[i] == log[i];
    }
    if Passed(before, client, seqNo) {
      var i :| 0 <= i < |before| && before[i].client == client && seqNo <= before[i].seqNo;
      assert log[i] == before[i];
    }
  }

  /** For every log: an operation is refused as a repetition exactly when the log holds one of its client with the
      same or a later number. */
  lemma {:induction false} DuplicateIff(log: seq<KvOp>, op: KvOp)
    ensures Duplicate(Fold(log), op) <==> Passed(log, op.client, op.seqNo)
  {
    if log != [] {
      var before, last := log[..|log| - 1], log[|log| - 1];
      DuplicateIff(before, op);
      DuplicateIff(before, last);
      PassedMore(log, op.client, op.seqNo);
      if last.client == op.client && Duplicate(Fold(before), last) && op.seqNo <= last.seqNo {
        assert Duplicate(Fold(before), op);
      }
    }
  }

  /** Delivering again what the state already accounts for changes nothing. */
  lemma Redelivery(log: seq<KvOp>, i: nat, n: nat)
    requires i < n <= |log|
    ensures Deliver(Fold(log[..n]), log[i]) == Fold(log[..n])
  {
    DuplicateIff(log[..n], log[i]);
    assert log[..n][i] == log[i];
  }

  // ---------- exactly once ----------

  predicate Seen(log: seq<KvOp>, client: int, seqNo: int) {
    exists i :: 0 <= i < |log| && log[i].client == client && log[i].seqNo == seqNo
  }

  // Clients number their operations from zero, and a number appears only once the one before it has.
  predicate Sequential(log: seq<KvOp>) {
    forall i {:trigger log[i]} :: 0 <= i < |log| ==>
      log[i].seqNo == 0 || Seen(log[..i], log[i].client, log[i].seqNo - 1)
  }

  // The first appearance of each operation.
  function Firsts(log: seq<KvOp>): seq<KvOp> {
    if log == [] then []
    else
      var before, op := log[..|log| - 1], log[|log| - 1];
      if Seen(before, op.client, op.seqNo) then Firsts(before) else Firsts(before) + [op]
  }

  // All operations in order, with no thought of repetitions.
  function Plain(ops: seq<KvOp>): map<string, string> {
    if ops == [] then map[] else Execute(Plain(ops[..|ops| - 1]), ops[|ops| - 1])
  }

  // What an operation appends to a key, and what has been appended altogether.
  function Piece(op: KvOp, key: string): string {
    if op.kind == AppendOp && op.key == key then op.value else ""
  }

  function Appended(ops: seq<KvOp>, key: string): string {
    if ops == [] then "" else Appended(ops[..|ops| - 1], key) + Piece(ops[|ops| - 1], key)
  }

  predicate Puts(op: KvOp, key: string) {
    op.kind == PutOp && op.key == key
  }

  function ValueOf(kv: map<string, string>, key: string): string {
    if key in kv then kv[key] else ""
  }

  lemma ValueAfter(kv: map<string, string>, op: KvOp, key: string)
    requires !Puts(op, key)
    ensures ValueOf(Execute(kv, op), key) == ValueOf(kv, key) + Piece(op, key)
  {
  }

  lemma Rejoin(a: string, b: string, c: string)
    ensures (a + b) + c == a + (b + c)
  {
  }

  /** A key has what was put last, if anything, and everything appended since, in order. */
  lemma {:induction false} ValueIs(ops: seq<KvOp>, i: nat, key: string)
    requires i <= |ops| && (i == 0 || Puts(ops[i - 1], key)) && forall j :: i <= j < |ops| ==> !Puts(ops[j], key)
    ensures ValueOf(Plain(ops), key) == (if i == 0 then "" else ops[i - 1].value) + Appended(ops[i..], key)
  {
    if i == |ops| {
      assert ops[i..] == [];
    } else {
      var before, op := ops[..|ops| - 1], ops[|ops| - 1];
      ValueIs(before, i, key);
      ValueAfter(Plain(before), op, key);
      AppendedMore(ops, i, key);
      Rejoin(if i == 0 then "" else ops[i - 1].value, Appended(before[i..], key), Piece(op, key));
    }
  }

  lemma AppendedMore(ops: seq<KvOp>, i: nat, key: string)
    requires i < |ops|
    ensures Appended(ops[i..], key) == Appended(ops[..|ops| - 1][i..], key) + Piece(ops[|ops| - 1], key)
  {
    assert ops[i..][..|ops| - i - 1] == ops[..|ops| - 1][i..];
  }

  predicate Writes(op: KvOp, key: string) {
    op.key == key && op.kind != GetOp
  }

  /** A key is there if and only if something was put or appended. */
  lemma {:induction false} KeyIsThere(ops: seq<KvOp>, key: string)
    ensures key in Plain(ops) <==> exists j :: 0 <= j < |ops| && Writes(ops[j], key)
  {
    if ops != [] {
      KeyIsThere(ops[..|ops| - 1], key);
      WrittenMore(ops, key);
    }
  }

  lemma WrittenMore(ops: seq<KvOp>, key: string)
    requires ops != []
    ensures var before := ops[..|ops| - 1];
            (exists j :: 0 <= j < |ops| && Writes(ops[j], key)) <==>
              (exists j :: 0 <= j < |before| && Writes(before[j], key)) || Writes(ops[|ops| - 1], key)
  {
    var before := ops[..|ops| - 1];
    if exists j :: 0 <= j < |ops| && Writes(ops[j], key) {
      var j :| 0 <= j < |ops| && Writes(ops[j], key);
      assert j < |before| ==> before[j] == ops[j];
    }
    if exists j :: 0 <= j < |before| && Writes(before[j], key) {
      var j :| 0 <= j < |before| && Writes(before[j], key);
      assert ops[j] == before[j];
    }
  }

  lemma {:induction false} NumbersFromZero(log: seq<KvOp>, i: nat)
    requires Sequential(log) && i < |log|
    ensures log[i].seqNo >= 0
  {
    if log[i].seqNo != 0 {
      var j :| 0 <= j < |log[..i]| && log[..i][j].client == log[i].client && log[..i][j].seqNo == log[i].seqNo - 1;
      NumbersFromZero(log, j);
    }
  }

  // Below every number that appears, all of them have appeared.
  lemma {:induction false} AllBelow(log: seq<KvOp>, i: nat, seqNo: int)
    requires Sequential(log) && i < |log| && 0 <= seqNo <= log[i].seqNo
    ensures Seen(log[..i + 1], log[i].client, seqNo)
    decreases i
  {
    if seqNo == log[i].seqNo {
      assert log[..i + 1][i] == log[i];
    } else {
      var j :| 0 <= j < |log[..i]| && log[..i][j].client == log[i].client && log[..i][j].seqNo == log[i].seqNo - 1;
      AllBelow(log, j, seqNo);
      var k :| 0 <= k < |log[..j + 1]| && log[..j + 1][k].client == log[j].client && log[..j + 1][k].seqNo == seqNo;
      assert log[..i + 1][k] == log[..j + 1][k];
    }
  }

  // With sequential clients, passed and seen are the same.
  lemma PassedIsSeen(log: seq<KvOp>, n: nat)
    requires Sequential(log) && n < |log|
    ensures Passed(log[..n], log[n].client, log[n].seqNo) <==> Seen(log[..n], log[n].client, log[n].seqNo)
  {
    NumbersFromZero(log, n);
    if Passed(log[..n], log[n].client, log[n].seqNo) {
      var i: nat :| i < |log[..n]| && log[..n][i].client == log[n].client && log[n].seqNo <= log[..n][i].seqNo;
      AllBelow(log, i, log[n].seqNo);
      var k :| 0 <= k < |log[..i + 1]| && log[..i + 1][k].client == log[i].client
          && log[..i + 1][k].seqNo == log[n].seqNo;
      assert log[..n][k] == log[..i + 1][k];
    }
  }

  lemma FirstsMore(log: seq<KvOp>, n: nat)
    requires n < |log|
    ensures Firsts(log[..n + 1]) == Firsts(log[..n]) + if Seen(log[..n], log[n].client, log[n].seqNo) then []
            else [log[n]]
  {
    assert log[..n + 1][..n] == log[..n];
  }

  lemma PlainMore(ops: seq<KvOp>, op: KvOp)
    ensures Plain(ops + [op]) == Execute(Plain(ops), op)
  {
    assert (ops + [op])[..|ops|] == ops;
  }

  lemma OnceMore(s: Store, firsts: seq<KvOp>, op: KvOp, seen: bool)
    requires s.kv == Plain(firsts) && (Duplicate(s, op) <==> seen)
    ensures Deliver(s, op).kv == Plain(firsts + if seen then [] else [op])
  {
    PlainMore(firsts, op);
    assert firsts + [] == firsts;
  }

  /** Exactly once: with sequential clients the state is what the first appearances alone lead to. */
  lemma {:induction false} ExactlyOnce(log: seq<KvOp>, n: nat)
    requires Sequential(log) && n <= |log|
    ensures Fold(log[..n]).kv == Plain(Firsts(log[..n]))
  {
    if n > 0 {
      var k := n - 1;
      ExactlyOnce(log, k);
      FoldMore(log, k);
      FirstsMore(log, k);
      DuplicateIff(log[..k], log[k]);
      PassedIsSeen(log, k);
      OnceMore(Fold(log[..k]), Firsts(log[..k]), log[k], Seen(log[..k], log[k].client, log[k].seqNo));
    }
  }

  lemma {:induction false} FirstsSeen(log: seq<KvOp>, client: int, seqNo: int)
    ensures Seen(Firsts(log), client, seqNo) <==> Seen(log, client, seqNo)
  {
    if log != [] {
      var before, op := log[..|log| - 1], log[|log| - 1];
      FirstsSeen(before, client, seqNo);
      SeenMore(before, op, client, seqNo);
      SeenMore(Firsts(before), op, client, seqNo);
      assert before + [op] == log;
    }
  }

  lemma SeenMore(log: seq<KvOp>, op: KvOp, client: int, seqNo: int)
    ensures Seen(log + [op], client, seqNo) <==> Seen(log, client, seqNo) || (op.client == client && op.seqNo == seqNo)
  {
    var more := log + [op];
    if Seen(log, client, seqNo) {
      var i :| 0 <= i < |log| && log[i].client == client && log[i].seqNo == seqNo;
      assert more[i] == log[i];
    }
    if op.client == client && op.seqNo == seqNo { assert more[|log|] == op; }
    if Seen(more, client, seqNo) {
      var i :| 0 <= i < |more| && more[i].client == client && more[i].seqNo == seqNo;
      assert i < |log| ==> log[i] == more[i];
    }
  }

  predicate InOrder(ops: seq<KvOp>) {
    forall i, j :: 0 <= i < j < |ops| && ops[i].client == ops[j].client ==> ops[i].seqNo < ops[j].seqNo
  }

  lemma NotPassedIsLater(log: seq<KvOp>, op: KvOp)
    requires InOrder(Firsts(log)) && !Passed(log, op.client, op.seqNo)
    ensures InOrder(Firsts(log) + [op])
  {
    var ops := Firsts(log);
    forall i | 0 <= i < |ops| && ops[i].client == op.client ensures ops[i].seqNo < op.seqNo {
      assert Seen(ops, op.client, ops[i].seqNo);
      FirstsSeen(log, op.client, ops[i].seqNo);
      var k :| 0 <= k < |log| && log[k].client == op.client && log[k].seqNo == ops[i].seqNo;
    }
  }

  /** Each operation takes effect once, and each client's in the order of their numbers. */
  lemma {:induction false} FirstsInOrder(log: seq<KvOp>, n: nat)
    requires Sequential(log) && n <= |log|
    ensures InOrder(Firsts(log[..n]))
  {
    if n > 0 {
      var before, op := log[..n - 1], log[n - 1];
      FirstsInOrder(log, n - 1);
      FirstsMore(log, n - 1);
      PassedIsSeen(log, n - 1);
      if !Seen(before, op.client, op.seqNo) { NotPassedIsLater(before, op); }
    }
  }

  lemma {:induction false} FirstsIn(log: seq<KvOp>, k: nat)
    requires k < |Firsts(log)|
    ensures Firsts(log)[k] in log
  {
    var before := log[..|log| - 1];
    if k < |Firsts(before)| {
      FirstsIn(before, k);
      assert Firsts(log)[k] == Firsts(before)[k];
    }
  }

  // Where numbers are not used twice, every operation of the log is among the first appearances.
  lemma FirstOfItsId(log: seq<KvOp>, op: KvOp)
    requires op in log && forall o :: o in log && o.client == op.client && o.seqNo == op.seqNo ==> o == op
    ensures op in Firsts(log)
  {
    assert Seen(log, op.client, op.seqNo);
    FirstsSeen(log, op.client, op.seqNo);
    var k :| 0 <= k < |Firsts(log)| && Firsts(log)[k].client == op.client && Firsts(log)[k].seqNo == op.seqNo;
    FirstsIn(log, k);
  }
}
