/**
  Clerks, a committed log and the replicas that follow it.  The log may hold an operation several times, because
  clerks retry; a replica may be handed commands again after a stale snapshot, skip ahead by a newer one, and
  restart from the last one it saved.
 */
module KvSystem {
  import opened KvReplica

  // A replica's state with the index it believes to have applied: what is saved, and what a message may carry.
  datatype Saved = Saved(store: Store, lastApplied: nat)

  // `last` is the index of the last message from the apply channel, or of the snapshot the replica booted from.
  datatype Replica = Replica(state: Saved, last: nat)

  type Id = (int, int)  // client and sequence number

  // `issued` holds the operations clerks have sent, `answered` those some replica has answered OK, `saved` every
  // snapshot a replica has ever taken.
  datatype System = System(log: seq<KvOp>, issued: set<KvOp>, answered: set<Id>, replicas: seq<Replica>,
      saved: set<Saved>)

  datatype Event =
    | Issue(op: KvOp)                        // a clerk sends its next operation
    | Commit(op: KvOp)                       // the log grows by an operation sent before, perhaps again
    | DeliverCommand(id: nat, snapshot: bool)
    | DeliverSnapshot(id: nat, content: Saved)
    | Reboot(id: nat, from: Saved)

  const EMPTY := Saved(Store(map[], map[]), 0)

  function IdOf(op: KvOp): Id {
    (op.client, op.seqNo)
  }

  // One message with the command at `index`.
  function OnCommand(r: Replica, index: nat, op: KvOp): Replica {
    Replica(Saved(Deliver(r.state.store, op), index), index)
  }

  // One message with a snapshot: taken over if it is ahead, ignored if not.
  function OnSnapshot(r: Replica, content: Saved): Replica {
    Replica(if content.lastApplied > r.state.lastApplied then content else r.state, content.lastApplied)
  }

  predicate MayFollow(answered: set<Id>, op: KvOp) {
    op.seqNo == 0 || (op.client, op.seqNo - 1) in answered
  }

  predicate Enabled(s: System, e: Event) {
    match e
    case Issue(op) =>
      // A clerk uses a number once, and goes on to the next when the one before has been answered.
      && (forall o :: o in s.issued ==> IdOf(o) != IdOf(op))
      && MayFollow(s.answered, op)
    case Commit(op) => op in s.issued
    case DeliverCommand(id, _) => id < |s.replicas| && s.replicas[id].last < |s.log|
    case DeliverSnapshot(id, content) => id < |s.replicas| && content in s.saved
    case Reboot(id, from) => id < |s.replicas| && (from in s.saved || from == EMPTY)
  }

  function After(s: System, e: Event): System
    requires Enabled(s, e)
  {
    match e
    case Issue(op) => s.(issued := s.issued + {op})
    case Commit(op) => s.(log := s.log + [op])
    case DeliverCommand(id, snapshot) =>
      var r := s.replicas[id];
      var op := s.log[r.last];
      var r' := OnCommand(r, r.last + 1, op);
      s.(replicas := s.replicas[id := r'],
         answered := s.answered + {IdOf(op)},
         saved := if snapshot then s.saved + {r'.state} else s.saved)
    case DeliverSnapshot(id, content) => s.(replicas := s.replicas[id := OnSnapshot(s.replicas[id], content)])
    case Reboot(id, from) => s.(replicas := s.replicas[id := Replica(from, from.lastApplied)])
  }

  predicate Initial(s: System) {
    && s.log == [] && s.issued == {} && s.answered == {} && s.saved == {}
    && forall id :: 0 <= id < |s.replicas| ==> s.replicas[id] == Replica(EMPTY, 0)
  }

  // ---------- the invariant ----------

  // The state accounts for a prefix of the log that is at least as long as it claims.
  predicate Accounts(log: seq<KvOp>, state: Saved) {
    exists n :: state.lastApplied <= n <= |log| && state.store == Fold(log[..n])
  }

  predicate ReplicaOk(log: seq<KvOp>, r: Replica) {
    r.last <= r.state.lastApplied && Accounts(log, r.state)
  }

  predicate Inv(s: System) {
    && (forall id {:trigger s.replicas[id]} :: 0 <= id < |s.replicas| ==> ReplicaOk(s.log, s.replicas[id]))
    && (forall x {:trigger x in s.saved} :: x in s.saved ==> Accounts(s.log, x))
    && (forall id: Id {:trigger Seen(s.log, id.0, id.1)} :: id in s.answered ==> Seen(s.log, id.0, id.1))
    && (forall op {:trigger MayFollow(s.answered, op)} :: op in s.issued ==> MayFollow(s.answered, op))
    && (forall i {:trigger s.log[i]} :: 0 <= i < |s.log| ==> s.log[i] in s.issued)
    && Sequential(s.log)
  }

  predicate OneOpPerId(s: System) {
    forall a, b {:trigger IdOf(a), IdOf(b)} :: a in s.issued && b in s.issued && IdOf(a) == IdOf(b) ==> a == b
  }

  lemma EmptyAccounts(log: seq<KvOp>)
    ensures Accounts(log, EMPTY)
  {
    assert log[..0] == [];
  }

  lemma InitialInv(s: System)
    requires Initial(s)
    ensures Inv(s) && OneOpPerId(s)
  {
    EmptyAccounts(s.log);
  }

  lemma AccountsMore(log: seq<KvOp>, op: KvOp, state: Saved)
    requires Accounts(log, state)
    ensures Accounts(log + [op], state)
  {
    var n :| state.lastApplied <= n <= |log| && state.store == Fold(log[..n]);
    assert (log + [op])[..n] == log[..n];
  }

  /** A command at or below the next index: new to the state, or a repetition that leaves it alone. */
  lemma CommandAccounts(log: seq<KvOp>, r: Replica)
    requires ReplicaOk(log, r) && r.last < |log|
    ensures ReplicaOk(log, OnCommand(r, r.last + 1, log[r.last]))
  {
    var n :| r.state.lastApplied <= n <= |log| && r.state.store == Fold(log[..n]);
    if r.last < n {
      Redelivery(log, r.last, n);
      assert OnCommand(r, r.last + 1, log[r.last]).state.store == Fold(log[..n]);
    } else {
      FoldMore(log, r.last);
    }
  }

  lemma CommitInv(s: System, op: KvOp)
    requires Inv(s) && op in s.issued
    ensures Inv(After(s, Commit(op)))
  {
    var log := s.log + [op];
    forall id | 0 <= id < |s.replicas|
        ensures ReplicaOk(log, s.replicas[id]) { AccountsMore(s.log, op, s.replicas[id].state); }
    forall x | x in s.saved ensures Accounts(log, x) { AccountsMore(s.log, op, x); }
    forall id: Id | id in s.answered ensures Seen(log, id.0, id.1) {
      assert Seen(s.log, id.0, id.1);
      SeenMore(s.log, op, id.0, id.1);
    }
    var before: Id := (op.client, op.seqNo - 1);
    assert MayFollow(s.answered, op);
    assert op.seqNo != 0 ==> before in s.answered && Seen(s.log, before.0, before.1);
    SequentialMore(s.log, op);
  }

  lemma SequentialMore(log: seq<KvOp>, op: KvOp)
    requires Sequential(log) && (op.seqNo == 0 || Seen(log, op.client, op.seqNo - 1))
    ensures Sequential(log + [op])
  {
    var more := log + [op];
    forall i | 0 <= i < |more| ensures more[i].seqNo == 0 || Seen(more[..i], more[i].client, more[i].seqNo - 1) {
      if i < |log| { assert more[..i] == log[..i] && more[i] == log[i]; } else { assert more[..i] == log; }
    }
  }

  lemma IssueInv(s: System, op: KvOp)
    requires Inv(s) && OneOpPerId(s) && Enabled(s, Issue(op))
    ensures Inv(After(s, Issue(op))) && OneOpPerId(After(s, Issue(op)))
  {
    var s' := After(s, Issue(op));
    forall o | o in s'.issued ensures MayFollow(s'.answered, o) { assert o != op ==> MayFollow(s.answered, o); }
  }

  lemma DeliverInv(s: System, id: nat, snapshot: bool)
    requires Inv(s) && Enabled(s, DeliverCommand(id, snapshot))
    ensures Inv(After(s, DeliverCommand(id, snapshot)))
  {
    CommandAccounts(s.log, s.replicas[id]);
    var s' := After(s, DeliverCommand(id, snapshot));
    forall op | op in s'.issued ensures MayFollow(s'.answered, op) { assert MayFollow(s.answered, op); }
  }

  /** Every step keeps the invariant. */
  lemma StepInv(s: System, e: Event)
    requires Inv(s) && OneOpPerId(s) && Enabled(s, e)
    ensures Inv(After(s, e)) && OneOpPerId(After(s, e))
  {
    match e
    case Issue(op) => IssueInv(s, op);
    case Commit(op) => CommitInv(s, op);
    case DeliverCommand(id, snapshot) => DeliverInv(s, id, snapshot);
    case DeliverSnapshot(id, content) =>
    case Reboot(id, from) => EmptyAccounts(s.log);
  }

  // ---------- runs ----------

  datatype Run = Run(states: seq<System>, events: seq<Event>)

  ghost predicate StepsAt(r: Run, i: nat)
    requires |r.states| == |r.events| + 1 && i < |r.events|
  {
    Enabled(r.states[i], r.events[i]) && r.states[i + 1] == After(r.states[i], r.events[i])
  }

  ghost predicate IsRun(r: Run) {
    && |r.states| == |r.events| + 1 && Initial(r.states[0])
    && forall i {:trigger StepsAt(r, i)} :: 0 <= i < |r.events| ==> StepsAt(r, i)
  }

  lemma {:induction false} RunInv(r: Run, i: nat)
    requires IsRun(r) && i < |r.states|
    ensures Inv(r.states[i]) && OneOpPerId(r.states[i])
  {
    if i == 0 {
      InitialInv(r.states[0]);
    } else {
      RunInv(r, i - 1);
      assert StepsAt(r, i - 1);
      StepInv(r.states[i - 1], r.events[i - 1]);
    }
  }

  /** Replay: at every point of every run a replica's values and cache are those of a prefix of the committed log, at
      least as long as its lastApplied, whatever was delivered again, skipped or restored. */
  lemma Replay(r: Run, i: nat, id: nat) returns (n: nat)
    requires IsRun(r) && i < |r.states| && id < |r.states[i].replicas|
    ensures var s := r.states[i];
            s.replicas[id].state.lastApplied <= n <= |s.log| && s.replicas[id].state.store == Fold(s.log[..n])
  {
    RunInv(r, i);
    var s := r.states[i];
    assert ReplicaOk(s.log, s.replicas[id]);
    n :| s.replicas[id].state.lastApplied <= n <= |s.log| && s.replicas[id].state.store == Fold(s.log[..n]);
  }

  /** Exactly once: at every point of every run a replica's values are those that each operation of a prefix of the
      log leads to, taken once, at its first appearance, each client's in the order it sent them. */
  lemma AppliedOnce(r: Run, i: nat, id: nat) returns (n: nat)
    requires IsRun(r) && i < |r.states| && id < |r.states[i].replicas|
    ensures var s := r.states[i];
            && s.replicas[id].state.lastApplied <= n <= |s.log|
            && s.replicas[id].state.store.kv == Plain(Firsts(s.log[..n]))
            && InOrder(Firsts(s.log[..n]))
  {
    RunInv(r, i);
    n := Replay(r, i, id);
    ExactlyOnce(r.states[i].log, n);
    FirstsInOrder(r.states[i].log, n);
  }

  // The log's operation of a number is the only one.
  lemma OnlyOne(s: System, n: nat, op: KvOp)
    requires Inv(s) && OneOpPerId(s) && n <= |s.log| && op in s.log[..n]
    ensures op in Firsts(s.log[..n])
  {
    forall o | o in s.log[..n] && IdOf(o) == IdOf(op) ensures o == op {
      assert o in s.issued && op in s.issued;
    }
    FirstOfItsId(s.log[..n], op);
  }

  // The state a command leads to accounts for it.
  ghost predicate Includes(log: seq<KvOp>, store: Store, op: KvOp) {
    Duplicate(store, op) && exists n :: 0 <= n <= |log| && store == Fold(log[..n]) && op in Firsts(log[..n])
  }

  lemma DeliveredIncluded(s: System, r: Replica, last: nat)
    requires Inv(s) && OneOpPerId(s) && ReplicaOk(s.log, r) && last < r.state.lastApplied <= |s.log|
    ensures Includes(s.log, r.state.store, s.log[last])
  {
    var n: nat :| r.state.lastApplied <= n <= |s.log| && r.state.store == Fold(s.log[..n]);
    assert s.log[..n][last] == s.log[last];
    DuplicateIff(s.log[..n], s.log[last]);
    OnlyOne(s, n, s.log[last]);
  }

  /** An OK is never premature: when a replica delivers a command and answers whoever waits for its client and number,
      its state already accounts for that operation. */
  lemma AnsweredIsApplied(r: Run, i: nat, id: nat, snapshot: bool)
    requires IsRun(r) && i < |r.events| && r.events[i] == DeliverCommand(id, snapshot)
    ensures var s, s' := r.states[i], r.states[i + 1];
            && id < |s.replicas| && id < |s'.replicas| && s.replicas[id].last < |s.log|
            && var op := s.log[s.replicas[id].last];
               IdOf(op) in s'.answered && Includes(s'.log, s'.replicas[id].state.store, op)
  {
    RunInv(r, i + 1);
    assert StepsAt(r, i);
    var s, s' := r.states[i], r.states[i + 1];
    assert ReplicaOk(s'.log, s'.replicas[id]);
    DeliveredIncluded(s', s'.replicas[id], s.replicas[id].last);
  }

  /** What has been answered stays committed: the operation a clerk sent under that number is in the log. */
  lemma AnsweredIsCommitted(r: Run, i: nat, op: KvOp)
    requires IsRun(r) && i < |r.states| && op in r.states[i].issued && IdOf(op) in r.states[i].answered
    ensures op in r.states[i].log
  {
    RunInv(r, i);
    var s := r.states[i];
    assert Seen(s.log, IdOf(op).0, IdOf(op).1);
    var k :| 0 <= k < |s.log| && s.log[k].client == op.client && s.log[k].seqNo == op.seqNo;
    assert s.log[k] in s.issued && IdOf(s.log[k]) == IdOf(op);
  }
}
