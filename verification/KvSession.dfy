/**
  Clerks on top of the service on top of Raft.  A session is a run of the peers and their replicas, a clock for its
  events, and the calls of any number of clerks with the moments they begin and end.
 */
module KvSession {
  import opened Options
  import opened RaftTypes
  import opened KvReplica
  import opened KvHistory
  import opened Linearizability
  import KM = KvModel
  import KS = KvSystem
  import RC = RaftCluster
  import RL = RaftCommitted
  import KO = KvOverRaft

  ghost predicate Ticking(clock: seq<int>) {
    forall s, t :: 0 <= s <= t < |clock| ==> clock[s] <= clock[t]
  }

  // A server hands an operation to Raft only once a clerk has called it, and perhaps again and again.
  ghost predicate CalledBefore(calls: seq<Call>, op: KvOp, time: int) {
    exists c :: 0 <= c < |calls| && calls[c].op == op && calls[c].at < time
  }

  ghost predicate SubmittedAt(r: KO.Run, t: nat, command: Command)
    requires t < |r.events|
  {
    r.events[t].Peer? && r.events[t].step.ClientCommand? && r.events[t].step.command == command
  }

  // Some replica takes a command with the call's number off its channel and hands out what its values then say.
  ghost predicate AnsweredAt(decode: KO.Decoder, r: KO.Run, t: nat, op: KvOp, result: string)
    requires KO.IsRun(decode, r) && t < |r.events|
  {
    var j, j' := r.states[t].services, r.states[t + 1].services;
    && r.events[t].Take?
    && var id := r.events[t].id;
       && id < |j.channels| && id < |j'.replicas| && j.channels[id] != [] && j.channels[id][0].CommandMsg?
       && var taken := decode(j.channels[id][0].command);
          SameId(taken, op) && result == Result(j'.replicas[id].state.store.kv, taken)
  }

  /** What clerks do: numbers are used once and in turn, each after the call before it is over; a call is over only
      with an answer that some replica gave, and every operation in Raft was called. */
  ghost predicate IsSession(decode: KO.Decoder, r: KO.Run, clock: seq<int>, calls: seq<Call>) {
    && KO.IsRun(decode, r) && |clock| == |r.events| && Ticking(clock) && OneCallPerId(calls)
    && (forall t, command {:trigger SubmittedAt(r, t, command)} :: 0 <= t < |r.events| && SubmittedAt(r, t, command) ==>
          CalledBefore(calls, decode(command), clock[t]))
    && (forall c {:trigger Follows(calls, c)} :: 0 <= c < |calls| ==> Follows(calls, c))
    && (forall c {:trigger calls[c]} :: 0 <= c < |calls| && calls[c].outcome.Some? ==>
          Answered(decode, r, clock, calls[c].op, calls[c].outcome.value))
  }

  ghost predicate Answered(decode: KO.Decoder, r: KO.Run, clock: seq<int>, op: KvOp, o: Outcome)
    requires KO.IsRun(decode, r) && |clock| == |r.events|
  {
    exists t :: 0 <= t < |r.events| && clock[t] < o.at && AnsweredAt(decode, r, t, op, o.result)
  }

  // ---------- the log at a moment ----------

  lemma {:induction false} SameCommitted(q: RC.Run, q': RC.Run, i: nat)
    requires i < |q.states| <= |q'.states| && q.states == q'.states[..|q.states|]
    ensures RL.CommittedLog(q, i) == RL.CommittedLog(q', i)
  {
    assert q.states[i] == q'.states[i];
    if i > 0 { SameCommitted(q, q', i - 1); }
  }

  lemma {:induction false} AloneGrows(r: KO.Run, i: nat, j: nat)
    requires |r.states| == |r.events| + 1 && i <= j < |r.states|
    ensures KO.Alone(r, i).states <= KO.Alone(r, j).states
    decreases j
  {
    if i < j { AloneGrows(r, i, j - 1); }
  }

  lemma LogAtGrows(decode: KO.Decoder, r: KO.Run, i: nat, j: nat)
    requires KO.IsRun(decode, r) && i <= j < |r.states|
    ensures KO.LogAt(r, i) <= KO.LogAt(r, j)
  {
    KO.RaftAlone(decode, r, j);
    AloneGrows(r, i, j);
    var q, q' := KO.Alone(r, i), KO.Alone(r, j);
    SameCommitted(q, q', |q.steps|);
    RL.CommittedLogGrows(q', |q.steps|, |q'.steps|);
  }

  lemma {:induction false} SubmittedSometime(r: KO.Run, i: nat, command: Command) returns (t: nat)
    requires |r.states| == |r.events| + 1 && i < |r.states| && command in RL.Submitted(KO.Alone(r, i).steps)
    ensures t < i && SubmittedAt(r, t, command)
  {
    if r.events[i - 1].Peer? {
      var steps := KO.Alone(r, i).steps;
      assert steps[..|steps| - 1] == KO.Alone(r, i - 1).steps;
      if command in RL.CommandOf(r.events[i - 1].step) { return i - 1; }
    }
    t := SubmittedSometime(r, i - 1, command);
  }

  // All of the log was called before that time.
  ghost predicate AllBefore(calls: seq<Call>, ops: seq<KvOp>, time: int) {
    forall k {:trigger ops[k]} :: 0 <= k < |ops| ==> CalledBefore(calls, ops[k], time)
  }

  ghost function OpsAt(decode: KO.Decoder, r: KO.Run, i: nat): seq<KvOp>
    requires |r.states| == |r.events| + 1 && i < |r.states|
  {
    KO.Ops(decode, KO.LogAt(r, i))
  }

  lemma CommandIsCalled(decode: KO.Decoder, r: KO.Run, clock: seq<int>, calls: seq<Call>, i: nat, k: nat)
    requires IsSession(decode, r, clock, calls) && i < |r.states| && k < |KO.LogAt(r, i)|
    ensures i > 0 && CalledBefore(calls, decode(KO.LogAt(r, i)[k].command), clock[i - 1])
  {
    KO.RaftAlone(decode, r, i);
    var q := KO.Alone(r, i);
    RL.OnlySubmitted(q, |q.steps|, k);
    assert q.steps[..|q.steps|] == q.steps;
    var command := KO.LogAt(r, i)[k].command;
    var t := SubmittedSometime(r, i, command);
    assert CalledBefore(calls, decode(command), clock[t]);
    assert clock[t] <= clock[i - 1];
  }

  // What is committed after an event was called before it.
  lemma LogIsCalled(decode: KO.Decoder, r: KO.Run, clock: seq<int>, calls: seq<Call>, t: nat)
    requires IsSession(decode, r, clock, calls) && t < |r.events|
    ensures AllBefore(calls, OpsAt(decode, r, t + 1), clock[t])
  {
    var ops := OpsAt(decode, r, t + 1);
    forall k | 0 <= k < |ops| ensures CalledBefore(calls, ops[k], clock[t]) {
      CommandIsCalled(decode, r, clock, calls, t + 1, k);
    }
  }

  // ---------- every answer has its point in the log ----------

  lemma TakenInLog(decode: KO.Decoder, r: KO.Run, t: nat, id: nat)
    requires KO.IsRun(decode, r) && t < |r.events| && id < |r.states[t].services.channels|
    requires r.states[t].services.channels[id] != [] && r.states[t].services.channels[id][0].CommandMsg?
    ensures var msg := r.states[t].services.channels[id][0];
            1 <= msg.index <= |OpsAt(decode, r, t + 1)| && OpsAt(decode, r, t + 1)[msg.index - 1] == decode(msg.command)
  {
    KO.FollowsLogAt(decode, r, t);
    LogAtGrows(decode, r, t, t + 1);
    assert KO.TakenFromAll(KO.LogAt(r, t), r.states[t].services.channels[id]);
  }

  lemma PointIn(ops: seq<KvOp>, state: KS.Saved, taken: KvOp) returns (n: nat)
    requires KS.Accounts(ops, state) && 1 <= state.lastApplied <= |ops| && ops[state.lastApplied - 1] == taken
    ensures n <= |ops| && taken in ops[..n] && state.store == Fold(ops[..n])
  {
    n :| state.lastApplied <= n <= |ops| && state.store == Fold(ops[..n]);
    assert ops[..n][state.lastApplied - 1] == taken;
  }

  lemma TakenPoint(decode: KO.Decoder, r: KO.Run, t: nat, op: KvOp, result: string) returns (n: nat, taken: KvOp)
    requires KO.IsRun(decode, r) && t < |r.events| && AnsweredAt(decode, r, t, op, result)
    ensures var ops := OpsAt(decode, r, t + 1);
            n <= |ops| && taken in ops[..n] && SameId(taken, op) && result == Result(Fold(ops[..n]).kv, taken)
  {
    var id, ops := r.events[t].id, OpsAt(decode, r, t + 1);
    var msg, state := r.states[t].services.channels[id][0], r.states[t + 1].services.replicas[id].state;
    TakenInLog(decode, r, t, id);
    KO.ReplicasFollowOneLog(decode, r, t + 1, id);
    assert KO.StepsAt(decode, r, t) && state.lastApplied == msg.index;
    taken := decode(msg.command);
    n := PointIn(ops, state, taken);
  }

  lemma OpsGrow(decode: KO.Decoder, r: KO.Run, i: nat, j: nat)
    requires KO.IsRun(decode, r) && i <= j < |r.states|
    ensures OpsAt(decode, r, i) <= OpsAt(decode, r, j)
  {
    LogAtGrows(decode, r, i, j);
  }

  lemma CallIsBefore(calls: seq<Call>, ops: seq<KvOp>, time: int, n: nat, c: nat)
    requires OneCallPerId(calls) && AllBefore(calls, ops, time) && n <= |ops| && c < |calls| && calls[c].op in ops[..n]
    ensures calls[c].at < time
  {
    var k :| 0 <= k < n && ops[..n][k] == calls[c].op;
    assert CalledBefore(calls, ops[k], time);
    var d :| 0 <= d < |calls| && calls[d].op == ops[k] && calls[d].at < time;
    assert SameId(calls[c].op, calls[d].op);
  }

  lemma TakenIsCalled(calls: seq<Call>, ops: seq<KvOp>, time: int, n: nat, c: nat, taken: KvOp)
    requires OneCallPerId(calls) && AllBefore(calls, ops, time) && n <= |ops| && c < |calls|
    requires taken in ops[..n] && SameId(taken, calls[c].op)
    ensures taken == calls[c].op
  {
    var k :| 0 <= k < n && ops[..n][k] == taken;
    assert CalledBefore(calls, ops[k], time);
    SameCall(calls, taken, calls[c].op);
  }

  // An answer read after n operations of a log, all of them called before.
  lemma PointHolds(calls: seq<Call>, early: seq<KvOp>, ops: seq<KvOp>, c: nat, n: nat, taken: KvOp, time: int)
    requires OneCallPerId(calls) && early <= ops && AllBefore(calls, early, time) && n <= |early|
    requires c < |calls| && calls[c].outcome.Some? && time < calls[c].outcome.value.at
    requires taken in early[..n] && SameId(taken, calls[c].op)
    requires calls[c].outcome.value.result == Result(Fold(early[..n]).kv, taken)
    ensures ReadAt(calls, ops, c, n)
  {
    assert early[..n] == ops[..n];
    TakenIsCalled(calls, early, time, n, c, taken);
    CallIsBefore(calls, early, time, n, c);
    forall d | 0 <= d < |calls| && calls[c].outcome.value.at <= calls[d].at ensures calls[d].op !in ops[..n] {
      if calls[d].op in early[..n] { CallIsBefore(calls, early, time, n, d); }
    }
  }

  lemma AnswerPoint(decode: KO.Decoder, r: KO.Run, clock: seq<int>, calls: seq<Call>, c: nat) returns (n: nat)
    requires IsSession(decode, r, clock, calls) && c < |calls| && calls[c].outcome.Some?
    ensures ReadAt(calls, OpsAt(decode, r, |r.events|), c, n)
  {
    var o := calls[c].outcome.value;
    assert Answered(decode, r, clock, calls[c].op, o);
    var t: nat :| t < |r.events| && clock[t] < o.at && AnsweredAt(decode, r, t, calls[c].op, o.result);
    var taken;
    n, taken := TakenPoint(decode, r, t, calls[c].op, o.result);
    OpsGrow(decode, r, t + 1, |r.events|);
    LogIsCalled(decode, r, clock, calls, t);
    PointHolds(calls, OpsAt(decode, r, t + 1), OpsAt(decode, r, |r.events|), c, n, taken, clock[t]);
  }

  lemma PointOf(decode: KO.Decoder, r: KO.Run, clock: seq<int>, calls: seq<Call>, c: nat) returns (n: nat)
    requires IsSession(decode, r, clock, calls) && c < |calls|
    ensures CallOk(calls, OpsAt(decode, r, |r.events|), c, n)
  {
    var ops := OpsAt(decode, r, |r.events|);
    if calls[c].outcome.Some? {
      n := AnswerPoint(decode, r, clock, calls, c);
    } else {
      n := |ops|;
      assert ops[..n] == ops;
    }
  }

  lemma {:induction false} Points(decode: KO.Decoder, r: KO.Run, clock: seq<int>, calls: seq<Call>, n: nat)
      returns (points: seq<nat>)
    requires IsSession(decode, r, clock, calls) && n <= |calls|
    ensures |points| == n
    ensures forall c :: 0 <= c < n ==> CallOk(calls, OpsAt(decode, r, |r.events|), c, points[c])
  {
    if n == 0 {
      points := [];
    } else {
      var before := Points(decode, r, clock, calls, n - 1);
      var p := PointOf(decode, r, clock, calls, n - 1);
      points := before + [p];
    }
  }

  lemma SessionExplained(decode: KO.Decoder, r: KO.Run, clock: seq<int>, calls: seq<Call>) returns (points: seq<nat>)
    requires IsSession(decode, r, clock, calls)
    ensures Explained(calls, OpsAt(decode, r, |r.events|), points)
  {
    var ops := OpsAt(decode, r, |r.events|);
    points := Points(decode, r, clock, calls, |calls|);
    forall k | 0 <= k < |ops| ensures Called(calls, ops[k]) { CommandIsCalled(decode, r, clock, calls, |r.events|, k); }
  }

  /** The service is linearizable.  In every session, whatever the network loses, repeats or reorders, whichever peers
      crash, however often clerks retry and replicas compact, restart or are overtaken by snapshots, the calls that are
      over, with some of those still open, are linearizable as one store that shows the value "ErrNoKey" as a missing
      key; and as the checker's own store if no key ever has that value. */
  lemma ServiceIsLinearizable(decode: KO.Decoder, r: KO.Run, clock: seq<int>, calls: seq<Call>, end: int)
    returns (ids: seq<nat>, history: seq<Op<KM.KvValue>>)
    requires IsSession(decode, r, clock, calls) && forall c {:trigger calls[c]} :: 0 <= c < |calls| ==>
             calls[c].at <= end
    ensures Completes(calls, end, ids, history) && WellTimed(history)
    ensures Linearizable(ShownStore(), history)
    ensures NeverErrNoKey(OpsAt(decode, r, |r.events|)) ==> Linearizable(KM.KvStore(), history)
  {
    var points := SessionExplained(decode, r, clock, calls);
    ids, history := ExplainedIsLinearizable(calls, OpsAt(decode, r, |r.events|), points, end);
  }
}
