/**
  No session is a dead end: whatever has happened, any majority of the servers can answer any call that is still open.
 */
module KvProgress {
  import opened Options
  import opened RaftTypes
  import opened RaftHandlers
  import opened KvReplica
  import opened KvHistory
  import opened KvSession
  import KS = KvSystem
  import RC = RaftCluster
  import RH = RaftHistory
  import RE = RaftElection
  import RP = RaftProgress
  import KO = KvOverRaft

  // ---------- going on from a run ----------

  function End(r: KO.Run): KO.Joint
    requires |r.states| == |r.events| + 1
  {
    r.states[|r.events|]
  }

  ghost predicate Extends(decode: KO.Decoder, r: KO.Run, r': KO.Run, x: Command) {
    && KO.IsRun(decode, r) && KO.IsRun(decode, r') && r.states <= r'.states && r.events <= r'.events
    && forall t, command {:trigger SubmittedAt(r', t, command)} ::
         |r.events| <= t < |r'.events| && SubmittedAt(r', t, command) ==> command == x
  }

  lemma ExtendsMore(decode: KO.Decoder, a: KO.Run, b: KO.Run, c: KO.Run, x: Command)
    requires Extends(decode, a, b, x) && Extends(decode, b, c, x)
    ensures Extends(decode, a, c, x)
  {
    forall t, command | |a.events| <= t < |c.events| && SubmittedAt(c, t, command) ensures command == x {
      if t < |b.events| { assert c.events[t] == b.events[t] && SubmittedAt(b, t, command); }
    }
  }

  predicate Harmless(e: KO.Event, x: Command) {
    e.Peer? && e.step.ClientCommand? ==> e.step.command == x
  }

  lemma Go(decode: KO.Decoder, r: KO.Run, e: KO.Event, x: Command) returns (r': KO.Run)
    requires KO.IsRun(decode, r) && KO.Enabled(End(r), e) && Harmless(e, x)
    ensures Extends(decode, r, r', x) && End(r') == KO.After(decode, End(r), e) && r'.events == r.events + [e]
  {
    r' := KO.Run(r.states + [KO.After(decode, End(r), e)], r.events + [e]);
    forall i | 0 <= i < |r'.events| ensures KO.StepsAt(decode, r', i) {
      if i < |r.events| { assert KO.StepsAt(decode, r, i); }
    }
  }

  // ---------- what the peers do, with services on top ----------

  // Everything put on the channels since `from` is still there.
  predicate Pending(j: KO.Joint, from: nat) {
    forall i {:trigger j.cluster.applied[i]} :: from <= i < |j.cluster.applied| ==>
      && j.cluster.applied[i].server < |j.services.channels|
      && j.cluster.applied[i].msg in j.services.channels[j.cluster.applied[i].server]
  }

  lemma StillPending(decode: KO.Decoder, j: KO.Joint, step: RC.Step, peers: set<nat>, x: Command, from: nat)
    requires KO.Enabled(j, KO.Peer(step, KS.EMPTY)) && RE.Ordinary(step, peers, x) && Pending(j, from)
    ensures Pending(KO.After(decode, j, KO.Peer(step, KS.EMPTY)), from)
  {
    var j' := KO.After(decode, j, KO.Peer(step, KS.EMPTY));
    if step.Apply? {
      var id, msgs := step.id, ApplyCommitted(j.cluster.servers[step.id]).1;
      forall i | from <= i < |j'.cluster.applied|
        ensures j'.cluster.applied[i].server < |j'.services.channels|
        ensures j'.cluster.applied[i].msg in j'.services.channels[j'.cluster.applied[i].server]
      {
        if i < |j.cluster.applied| {
          assert j'.cluster.applied[i] == j.cluster.applied[i];
        } else {
          assert j'.cluster.applied[i].msg == msgs[i - |j.cluster.applied|];
        }
      }
    }
  }

  lemma FollowOne(decode: KO.Decoder, r: KO.Run, step: RC.Step, peers: set<nat>, x: Command) returns (r': KO.Run)
    requires KO.IsRun(decode, r) && KO.Sized(End(r)) && RE.Ordinary(step, peers, x)
    requires RC.Enabled(End(r).cluster, step) && RC.OneVote(RC.After(End(r).cluster, step))
    ensures Extends(decode, r, r', x) && End(r').cluster == RC.After(End(r).cluster, step)
    ensures forall from: nat {:trigger Pending(End(r'), from)} :: Pending(End(r), from) ==> Pending(End(r'), from)
  {
    r' := Go(decode, r, KO.Peer(step, KS.EMPTY), x);
    forall from: nat | Pending(End(r), from) ensures Pending(End(r'), from) {
      StillPending(decode, End(r), step, peers, x, from);
    }
  }

  /** What peers can do alone they can do with services on top. */
  lemma {:induction false} Follow(decode: KO.Decoder, r: KO.Run, q: RC.Run, q': RC.Run, n: nat,
      peers: set<nat>, x: Command)
    returns (r': KO.Run)
    requires KO.IsRun(decode, r) && RE.Extends(q, q', peers, x) && RE.End(q) == End(r).cluster
    requires |q.steps| + n <= |q'.steps|
    ensures Extends(decode, r, r', x) && End(r').cluster == q'.states[|q.steps| + n]
    ensures Pending(End(r'), |End(r).cluster.applied|)
    decreases n
  {
    if n == 0 {
      r' := r;
    } else {
      var first := Follow(decode, r, q, q', n - 1, peers, x);
      var i := |q.steps| + n - 1;
      assert RC.SoundAt(q', i) && RC.StepsAt(q', i) && RE.Ordinary(q'.steps[i], peers, x);
      KO.RunChannels(decode, first, |first.events|);
      r' := FollowOne(decode, first, q'.steps[i], peers, x);
      ExtendsMore(decode, r, first, r', x);
    }
  }

  // ---------- the service takes what is due ----------

  // The command is taken off the channel in the last event.
  ghost predicate TakenLast(decode: KO.Decoder, r: KO.Run, id: nat, x: Command) {
    && KO.IsRun(decode, r) && |r.events| > 0 && r.events[|r.events| - 1].Take? && r.events[|r.events| - 1].id == id
    && id < |r.states[|r.events| - 1].services.channels| && id < |End(r).services.replicas|
    && r.states[|r.events| - 1].services.channels[id] != []
    && r.states[|r.events| - 1].services.channels[id][0].CommandMsg?
    && r.states[|r.events| - 1].services.channels[id][0].command == x
  }

  lemma {:induction false} TakeUntil(decode: KO.Decoder, r: KO.Run, id: nat, k: nat, x: Command) returns (r': KO.Run)
    requires KO.IsRun(decode, r) && id < |End(r).services.channels| && CommandMsg(k, x) in End(r).services.channels[id]
    ensures Extends(decode, r, r', x) && TakenLast(decode, r', id, x)
    decreases |End(r).services.channels[id]|
  {
    KO.RunChannels(decode, r, |r.events|);
    KO.SnapshotsExist(decode, r, |r.events|, id);
    var content :| KO.Enabled(End(r), KO.Take(id, content));
    var channel := End(r).services.channels[id];
    r' := Go(decode, r, KO.Take(id, content), x);
    if channel[0] != CommandMsg(k, x) {
      assert channel == [channel[0]] + channel[1..];
      var first := r';
      r' := TakeUntil(decode, first, id, k, x);
      ExtendsMore(decode, r, first, r', x);
    }
  }

  /** From every point of every run, with any majority of the servers: a command can be submitted, committed, and handed
      to a service. */
  lemma CommandIsTaken(decode: KO.Decoder, r: KO.Run, peers: set<nat>, x: Command) returns (r': KO.Run, id: nat)
    requires KO.IsRun(decode, r) && |End(r).cluster.servers| > 1
    requires peers <= Peers(|End(r).cluster.servers|) && RH.IsQuorum(peers, |End(r).cluster.servers|)
    ensures Extends(decode, r, r', x) && id in peers && TakenLast(decode, r', id, x)
  {
    KO.RaftAlone(decode, r, |r.events|);
    var q := KO.Alone(r, |r.events|);
    var q', k;
    q', id, k := RP.MajorityMakesProgress(q, peers, x);
    var first := Follow(decode, r, q, q', |q'.steps| - |q.steps|, peers, x);
    var was, applied := |End(r).cluster.applied|, End(first).cluster.applied;
    assert RP.HasApplied(applied[was..], id, k, x);
    var i :| 0 <= i < |applied[was..]| && applied[was..][i] == RC.Applied(id, CommandMsg(k, x));
    assert applied[was + i] == RC.Applied(id, CommandMsg(k, x));
    r' := TakeUntil(decode, first, id, k, x);
    ExtendsMore(decode, r, first, r', x);
  }

  // ---------- sessions ----------

  // The same calls, some of them over by now that were not.
  ghost predicate Goes(calls: seq<Call>, calls': seq<Call>) {
    && |calls'| == |calls|
    && forall d {:trigger calls'[d]} :: 0 <= d < |calls| ==>
         && calls'[d].op == calls[d].op && calls'[d].at == calls[d].at
         && (calls[d].outcome.Some? ==> calls'[d] == calls[d])
  }

  lemma StillFollows(calls: seq<Call>, calls': seq<Call>, c: nat)
    requires Goes(calls, calls') && c < |calls| && Follows(calls, c)
    ensures Follows(calls', c)
  {
    assert calls'[c].op == calls[c].op;
    if calls[c].op.seqNo != 0 {
      var d :| 0 <= d < |calls| && EndedBefore(calls, d, c);
      assert calls'[d] == calls[d] && EndedBefore(calls', d, c);
    }
  }

  lemma StillCalled(calls: seq<Call>, calls': seq<Call>, op: KvOp, time: int)
    requires Goes(calls, calls') && CalledBefore(calls, op, time)
    ensures CalledBefore(calls', op, time)
  {
    var d :| 0 <= d < |calls| && calls[d].op == op && calls[d].at < time;
    assert calls'[d].op == op && calls'[d].at < time;
  }

  lemma StillAnswered(decode: KO.Decoder, r: KO.Run, r': KO.Run, clock: seq<int>, clock': seq<int>,
      op: KvOp, o: Outcome, x: Command)
    requires Extends(decode, r, r', x) && |clock| == |r.events| && |clock'| == |r'.events| && clock <= clock'
    requires Answered(decode, r, clock, op, o)
    ensures Answered(decode, r', clock', op, o)
  {
    var t :| 0 <= t < |r.events| && clock[t] < o.at && AnsweredAt(decode, r, t, op, o.result);
    assert r'.states[t] == r.states[t] && r'.states[t + 1] == r.states[t + 1] && r'.events[t] == r.events[t];
    assert AnsweredAt(decode, r', t, op, o.result);
  }

  // The moments go on, all at one time after everything so far.
  function Later(clock: seq<int>, n: nat, time: int): (clock': seq<int>)
    requires |clock| <= n
    ensures |clock'| == n && clock <= clock' && forall t :: |clock| <= t < n ==> clock'[t] == time
  {
    clock + seq(n - |clock|, _ => time)
  }

  lemma StillTicking(clock: seq<int>, n: nat, time: int)
    requires |clock| <= n && Ticking(clock) && (clock != [] ==> clock[|clock| - 1] <= time)
    ensures Ticking(Later(clock, n, time))
  {
  }

  /** Whatever has happened in a session, a call that is still open can be answered, with the help of any majority of
      the servers and of nobody else. */
  lemma OpenCallCanBeAnswered(decode: KO.Decoder, r: KO.Run, clock: seq<int>, calls: seq<Call>, c: nat,
      peers: set<nat>, x: Command)
    returns (r': KO.Run, clock': seq<int>, calls': seq<Call>)
    requires IsSession(decode, r, clock, calls) && c < |calls| && calls[c].outcome.None? && decode(x) == calls[c].op
    requires |End(r).cluster.servers| > 1
    requires peers <= Peers(|End(r).cluster.servers|) && RH.IsQuorum(peers, |End(r).cluster.servers|)
    ensures IsSession(decode, r', clock', calls') && Extends(decode, r, r', x) && clock <= clock'
    ensures Goes(calls, calls') && calls'[c].outcome.Some?
  {
    var id;
    r', id := CommandIsTaken(decode, r, peers, x);
    var t, n := |r'.events| - 1, |clock|;
    var time := if n > 0 && clock[n - 1] > calls[c].at then clock[n - 1] else calls[c].at + 1;
    clock' := Later(clock, |r'.events|, time);
    StillTicking(clock, |r'.events|, time);
    var result := Result(End(r').services.replicas[id].state.store.kv, decode(x));
    calls' := calls[c := Call(calls[c].op, calls[c].at, Some(Outcome(result, time + 1)))];
    assert AnsweredAt(decode, r', t, calls[c].op, result);
    forall i, command | 0 <= i < |r'.events| && SubmittedAt(r', i, command)
      ensures CalledBefore(calls', decode(command), clock'[i])
    {
      SubmittedWasCalled(decode, r, r', clock, clock', calls, c, i, command, x);
      StillCalled(calls, calls', decode(command), clock'[i]);
    }
    forall d | 0 <= d < |calls'| ensures Follows(calls', d) { StillFollows(calls, calls', d); }
    forall d | 0 <= d < |calls'| && calls'[d].outcome.Some?
      ensures Answered(decode, r', clock', calls'[d].op, calls'[d].outcome.value)
    {
      if d != c {
        assert calls'[d] == calls[d];
        StillAnswered(decode, r, r', clock, clock', calls[d].op, calls[d].outcome.value, x);
      }
    }
  }

  lemma SubmittedWasCalled(decode: KO.Decoder, r: KO.Run, r': KO.Run, clock: seq<int>, clock': seq<int>,
      calls: seq<Call>, c: nat, i: nat, command: Command, x: Command)
    requires IsSession(decode, r, clock, calls) && Extends(decode, r, r', x)
    requires |clock'| == |r'.events| && clock <= clock'
    requires c < |calls| && decode(x) == calls[c].op && forall t :: |clock| <= t < |clock'| ==> calls[c].at < clock'[t]
    requires i < |r'.events| && SubmittedAt(r', i, command)
    ensures CalledBefore(calls, decode(command), clock'[i])
  {
    if i < |r.events| {
      assert r'.events[i] == r.events[i];
      assert SubmittedAt(r, i, command) && clock'[i] == clock[i];
    } else {
      assert command == x && calls[c].op == decode(command) && calls[c].at < clock'[i];
    }
  }

  /** A clerk may call whenever its last call is over: what was a session still is one. */
  lemma CallCanBegin(decode: KO.Decoder, r: KO.Run, clock: seq<int>, calls: seq<Call>, call: Call)
    requires IsSession(decode, r, clock, calls) && call.outcome.None?
    requires forall d :: 0 <= d < |calls| ==> !SameId(calls[d].op, call.op)
    requires Follows(calls + [call], |calls|)
    ensures IsSession(decode, r, clock, calls + [call])
  {
    var calls' := calls + [call];
    forall t, command | 0 <= t < |r.events| && SubmittedAt(r, t, command)
      ensures CalledBefore(calls', decode(command), clock[t])
    {
      assert CalledBefore(calls, decode(command), clock[t]);
      var d :| 0 <= d < |calls| && calls[d].op == decode(command) && calls[d].at < clock[t];
      assert calls'[d] == calls[d];
    }
    forall c | 0 <= c < |calls'| ensures Follows(calls', c) {
      if c < |calls| {
        assert Follows(calls, c) && calls'[c] == calls[c];
        if calls[c].op.seqNo != 0 {
          var d :| 0 <= d < |calls| && EndedBefore(calls, d, c);
          assert calls'[d] == calls[d] && EndedBefore(calls', d, c);
        }
      }
    }
    forall c | 0 <= c < |calls'| && calls'[c].outcome.Some?
      ensures Answered(decode, r, clock, calls'[c].op, calls'[c].outcome.value)
    {
      assert calls'[c] == calls[c];
    }
  }
}
