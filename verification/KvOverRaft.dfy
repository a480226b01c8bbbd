/**
  The service on top of Raft: each peer's apply loop feeds a channel, its replica takes messages off at its own pace,
  compacts at the index it has applied, and reboots with its peer from what was saved.
 */
module KvOverRaft {
  import opened RaftTypes
  import opened RaftHandlers
  import RC = RaftCluster
  import RS = RaftSafety
  import RL = RaftCommitted
  import opened RaftApply
  import opened KvReplica
  import KS = KvSystem

  type Decoder = Command -> KvOp

  // Per peer: the replica, and the messages put on its channel and not yet taken off.  `saved` holds every
  // snapshot a replica has ever taken.
  datatype Services = Services(replicas: seq<KS.Replica>, channels: seq<seq<ApplyMsg>>, saved: set<KS.Saved>)

  datatype Joint = Joint(cluster: RC.Cluster, services: Services)

  datatype Event =
    | Peer(step: RC.Step, from: KS.Saved)      // a step of Raft; `from` is what a crashed replica reboots with
    | Take(id: nat, content: KS.Saved)         // a replica takes a message; `content` is a snapshot's, if it is one

  predicate Known(s: Services, x: KS.Saved) {
    x in s.saved || x == KS.EMPTY
  }

  function Handle(decode: Decoder, r: KS.Replica, msg: ApplyMsg, content: KS.Saved): KS.Replica {
    match msg
    case CommandMsg(index, command) => KS.OnCommand(r, index, decode(command))
    case SnapshotMsg(_) => KS.OnSnapshot(r, content)
  }

  predicate Sized(j: Joint) {
    |j.services.replicas| == |j.services.channels| == |j.cluster.servers|
  }

  predicate Enabled(j: Joint, e: Event) {
    && Sized(j)
    && match e
       case Peer(step, from) =>
         && RC.Enabled(j.cluster, step) && RC.SkipsDummy(j.cluster, step) && RC.OneVote(RC.After(j.cluster, step))
         && (step.Compact? ==> step.index == j.services.replicas[step.id].state.lastApplied)
         && (step.Crash? || step.Interrupt? ==>
               Known(j.services, from) && from.lastApplied == j.cluster.servers[step.id].base)
       case Take(id, content) =>
         && id < |j.services.channels| && j.services.channels[id] != []
         && (j.services.channels[id][0].SnapshotMsg? ==>
               Known(j.services, content) && content.lastApplied == |j.services.channels[id][0].prefix|)
  }

  function Rebooted(s: Services, id: nat, from: KS.Saved): Services
    requires id < |s.replicas| && id < |s.channels|
  {
    s.(replicas := s.replicas[id := KS.Replica(from, from.lastApplied)], channels := s.channels[id := []])
  }

  function After(decode: Decoder, j: Joint, e: Event): Joint
    requires Enabled(j, e)
  {
    var s := j.services;
    match e
    case Peer(step, from) =>
      var c := RC.After(j.cluster, step);
      var s' :=
        match step
        case Apply(id) => s.(channels := s.channels[id := s.channels[id] + ApplyCommitted(j.cluster.servers[id]).1])
        case Compact(id, _) => s.(saved := s.saved + {s.replicas[id].state})
        case Crash(id) => Rebooted(s, id, from)
        case Interrupt(id, _) => Rebooted(s, id, from)
        case _ => s;
      Joint(c, s')
    case Take(id, content) =>
      Joint(j.cluster, s.(replicas := s.replicas[id := Handle(decode, s.replicas[id], s.channels[id][0], content)],
                          channels := s.channels[id := s.channels[id][1..]]))
  }

  predicate Initial(j: Joint) {
    && RC.Initial(j.cluster) && Sized(j) && j.services.saved == {} && j.cluster.applied == []
    && forall id :: 0 <= id < |j.services.replicas| ==>
      j.services.replicas[id] == KS.Replica(KS.EMPTY, 0) && j.services.channels[id] == []
  }

  // ---------- runs ----------

  datatype Run = Run(states: seq<Joint>, events: seq<Event>)

  ghost predicate StepsAt(decode: Decoder, r: Run, i: nat)
    requires |r.states| == |r.events| + 1 && i < |r.events|
  {
    Enabled(r.states[i], r.events[i]) && r.states[i + 1] == After(decode, r.states[i], r.events[i])
  }

  ghost predicate IsRun(decode: Decoder, r: Run) {
    && |r.states| == |r.events| + 1 && Initial(r.states[0])
    && forall i {:trigger StepsAt(decode, r, i)} :: 0 <= i < |r.events| ==> StepsAt(decode, r, i)
  }

  // The steps of Raft alone, up to a moment.
  ghost function Alone(r: Run, i: nat): (q: RC.Run)
    requires |r.states| == |r.events| + 1 && i < |r.states|
    ensures |q.states| == |q.steps| + 1 && q.states[0] == r.states[0].cluster
  {
    if i == 0 then RC.Run([r.states[0].cluster], [])
    else
      var q := Alone(r, i - 1);
      match r.events[i - 1]
      case Peer(step, _) => RC.Run(q.states + [r.states[i].cluster], q.steps + [step])
      case Take(_, _) => q
  }

  // They make a run of Raft.
  lemma {:induction false} RaftAlone(decode: Decoder, r: Run, i: nat)
    requires IsRun(decode, r) && i < |r.states|
    ensures RC.IsSoundRun(Alone(r, i)) && Alone(r, i).states[|Alone(r, i).steps|] == r.states[i].cluster
  {
    if i > 0 {
      RaftAlone(decode, r, i - 1);
      assert StepsAt(decode, r, i - 1);
      match r.events[i - 1]
      case Take(_, _) =>
      case Peer(step, _) => OneMore(Alone(r, i - 1), step, Alone(r, i));
    }
  }

  lemma OneMore(q: RC.Run, step: RC.Step, q': RC.Run)
    requires RC.IsSoundRun(q)
    requires RC.Enabled(q.states[|q.steps|], step) && RC.SkipsDummy(q.states[|q.steps|], step)
    requires RC.OneVote(RC.After(q.states[|q.steps|], step))
    requires q' == RC.Run(q.states + [RC.After(q.states[|q.steps|], step)], q.steps + [step])
    ensures RC.IsSoundRun(q')
  {
    forall i | 0 <= i < |q'.steps| ensures RC.SoundAt(q', i) {
      if i < |q.steps| { assert RC.SoundAt(q, i); }
    }
    forall i | 0 <= i < |q'.steps| ensures RC.StepsAt(q', i) { assert RC.SoundAt(q', i); }
  }

  // ---------- the channels ----------

  // What is on a channel continues what the replica has taken, and the peer's apply loop continues what is on it.
  predicate ChannelOk(s: Server, r: KS.Replica, channel: seq<ApplyMsg>) {
    GapFree(r.last, channel) && InStep(s, LastIndexAfter(r.last, channel))
  }

  predicate ChannelsOk(j: Joint) {
    Sized(j) && forall id {:trigger j.services.channels[id]} :: 0 <= id < |j.services.channels| ==>
      ChannelOk(j.cluster.servers[id], j.services.replicas[id], j.services.channels[id])
  }

  lemma {:induction false} GapFreeMore(last: int, a: seq<ApplyMsg>, b: seq<ApplyMsg>)
    requires GapFree(last, a) && GapFree(LastIndexAfter(last, a), b)
    ensures GapFree(last, a + b) && LastIndexAfter(last, a + b) == LastIndexAfter(LastIndexAfter(last, a), b)
    decreases |a|
  {
    if a == [] {
      assert a + b == b;
    } else {
      assert (a + b)[1..] == a[1..] + b;
      GapFreeMore(IndexOf(a[0]), a[1..], b);
    }
  }

  lemma AppliesOn(s: Server, r: KS.Replica, channel: seq<ApplyMsg>)
    requires WellFormed(s) && ChannelOk(s, r, channel)
    ensures ChannelOk(ApplyCommitted(s).0, r, channel + ApplyCommitted(s).1)
  {
    ApplyInStep(s, LastIndexAfter(r.last, channel));
    GapFreeMore(r.last, channel, ApplyCommitted(s).1);
  }

  lemma PeerChannels(decode: Decoder, j: Joint, step: RC.Step, from: KS.Saved)
    requires ChannelsOk(j) && Enabled(j, Peer(step, from))
    ensures ChannelsOk(After(decode, j, Peer(step, from)))
  {
    var j' := After(decode, j, Peer(step, from));
    forall id | 0 <= id < |j'.services.channels|
        ensures ChannelOk(j'.cluster.servers[id], j'.services.replicas[id], j'.services.channels[id]) {
      assert ChannelOk(j.cluster.servers[id], j.services.replicas[id], j.services.channels[id]);
      if step.id == id && step.Apply? {
        AppliesOn(j.cluster.servers[id], j.services.replicas[id], j.services.channels[id]);
      } else if !RC.Restarts(step, id) {
        OtherStepsInStep(j.cluster, step, id, LastIndexAfter(j.services.replicas[id].last, j.services.channels[id]));
      }
    }
  }

  lemma TakeChannels(decode: Decoder, j: Joint, id: nat, content: KS.Saved)
    requires ChannelsOk(j) && Enabled(j, Take(id, content))
    ensures ChannelsOk(After(decode, j, Take(id, content)))
  {
    var channel := j.services.channels[id];
    assert ChannelOk(j.cluster.servers[id], j.services.replicas[id], channel);
    assert |channel| > 1 ==> channel[1..][|channel| - 2] == channel[|channel| - 1];
  }

  lemma {:induction false} RunChannels(decode: Decoder, r: Run, i: nat)
    requires IsRun(decode, r) && i < |r.states|
    ensures ChannelsOk(r.states[i])
  {
    if i > 0 {
      RunChannels(decode, r, i - 1);
      assert StepsAt(decode, r, i - 1);
      match r.events[i - 1]
      case Peer(step, from) => PeerChannels(decode, r.states[i - 1], step, from);
      case Take(id, content) => TakeChannels(decode, r.states[i - 1], id, content);
    }
  }

  // ---------- one log for all ----------

  predicate TakenFromAll(log: Log, msgs: seq<ApplyMsg>) {
    forall x {:trigger msgs[x]} :: 0 <= x < |msgs| ==> RS.TakenFrom(log, msgs[x])
  }

  predicate LogOf(c: RC.Cluster, log: Log) {
    forall x {:trigger c.applied[x]} :: 0 <= x < |c.applied| ==> RS.TakenFrom(log, c.applied[x].msg)
  }

  function Ops(decode: Decoder, log: Log): (ops: seq<KvOp>)
    ensures |ops| == |log| && forall k :: 0 <= k < |log| ==> ops[k] == decode(log[k].command)
  {
    seq(|log|, k requires 0 <= k < |log| => decode(log[k].command))
  }

  // Relative to the log: what is on the channels is taken from it, and every state accounts for a prefix of it.
  predicate Follows(decode: Decoder, j: Joint, log: Log) {
    && Sized(j)
    && (forall id {:trigger j.services.channels[id]} :: 0 <= id < |j.services.channels| ==>
         TakenFromAll(log, j.services.channels[id]))
    && (forall id {:trigger j.services.replicas[id]} :: 0 <= id < |j.services.replicas| ==>
         KS.ReplicaOk(Ops(decode, log), j.services.replicas[id]))
    && (forall x {:trigger x in j.services.saved} :: x in j.services.saved ==> KS.Accounts(Ops(decode, log), x))
  }

  lemma NewMessages(c: RC.Cluster, id: nat, log: Log)
    requires RC.Enabled(c, RC.Apply(id)) && LogOf(RC.After(c, RC.Apply(id)), log)
    ensures TakenFromAll(log, ApplyCommitted(c.servers[id]).1)
  {
    var msgs := ApplyCommitted(c.servers[id]).1;
    var c' := RC.After(c, RC.Apply(id));
    forall x | 0 <= x < |msgs| ensures RS.TakenFrom(log, msgs[x]) {
      assert c'.applied[|c.applied| + x].msg == msgs[x];
    }
  }

  lemma PeerFollows(decode: Decoder, j: Joint, step: RC.Step, from: KS.Saved, log: Log)
    requires Follows(decode, j, log) && Enabled(j, Peer(step, from)) && LogOf(RC.After(j.cluster, step), log)
    ensures Follows(decode, After(decode, j, Peer(step, from)), log)
  {
    var ops, s, s' := Ops(decode, log), j.services, After(decode, j, Peer(step, from)).services;
    KS.EmptyAccounts(ops);
    forall id | 0 <= id < |s'.channels| ensures TakenFromAll(log, s'.channels[id]) {
      assert TakenFromAll(log, s.channels[id]);
      if step.Apply? && step.id == id { NewMessages(j.cluster, id, log); }
    }
    forall id | 0 <= id < |s'.replicas| ensures KS.ReplicaOk(ops, s'.replicas[id]) {
      assert KS.ReplicaOk(ops, s.replicas[id]);
    }
    forall x | x in s'.saved ensures KS.Accounts(ops, x) {
      if step.Compact? { assert KS.ReplicaOk(ops, s.replicas[step.id]); }
    }
  }

  lemma TakeFollows(decode: Decoder, j: Joint, id: nat, content: KS.Saved, log: Log)
    requires Follows(decode, j, log) && ChannelsOk(j) && Enabled(j, Take(id, content))
    ensures Follows(decode, After(decode, j, Take(id, content)), log)
  {
    var ops, r, channel := Ops(decode, log), j.services.replicas[id], j.services.channels[id];
    assert ChannelOk(j.cluster.servers[id], r, channel) && TakenFromAll(log, channel);
    assert TakenFromAll(log, channel[1..]) by {
      forall x | 0 <= x < |channel[1..]|
          ensures RS.TakenFrom(log, channel[1..][x]) { assert channel[1..][x] == channel[x + 1]; }
    }
    assert KS.ReplicaOk(ops, r) && RS.TakenFrom(log, channel[0]);
    match channel[0]
    case CommandMsg(index, command) => KS.CommandAccounts(ops, r);
    case SnapshotMsg(_) => KS.EmptyAccounts(ops);
  }

  lemma AppliedGrows(decode: Decoder, j: Joint, e: Event, log: Log)
    requires Enabled(j, e) && LogOf(After(decode, j, e).cluster, log)
    ensures LogOf(j.cluster, log)
  {
    var c' := After(decode, j, e).cluster;
    forall x | 0 <= x < |j.cluster.applied| ensures RS.TakenFrom(log, j.cluster.applied[x].msg) {
      assert c'.applied[x] == j.cluster.applied[x];
    }
  }

  lemma {:induction false} RunFollows(decode: Decoder, r: Run, i: nat, log: Log)
    requires IsRun(decode, r) && i < |r.states| && LogOf(r.states[i].cluster, log)
    ensures Follows(decode, r.states[i], log)
  {
    if i == 0 {
      KS.EmptyAccounts(Ops(decode, log));
    } else {
      assert StepsAt(decode, r, i - 1);
      AppliedGrows(decode, r.states[i - 1], r.events[i - 1], log);
      RunFollows(decode, r, i - 1, log);
      RunChannels(decode, r, i - 1);
      match r.events[i - 1]
      case Peer(step, from) => PeerFollows(decode, r.states[i - 1], step, from, log);
      case Take(id, content) => TakeFollows(decode, r.states[i - 1], id, content, log);
    }
  }

  // The log committed up to a moment.
  ghost function LogAt(r: Run, i: nat): Log
    requires |r.states| == |r.events| + 1 && i < |r.states|
  {
    RL.CommittedLog(Alone(r, i), |Alone(r, i).steps|)
  }

  lemma FollowsLogAt(decode: Decoder, r: Run, i: nat)
    requires IsRun(decode, r) && i < |r.states|
    ensures Follows(decode, r.states[i], LogAt(r, i))
  {
    RaftAlone(decode, r, i);
    var q := Alone(r, i);
    forall x | 0 <= x < |r.states[i].cluster.applied|
        ensures RS.TakenFrom(LogAt(r, i), r.states[i].cluster.applied[x].msg) {
      RL.OneLog(q, |q.steps|, x);
    }
    RunFollows(decode, r, i, LogAt(r, i));
  }

  /** End to end: at every point of every run of Raft with services on top, each replica's values and cache are the
      de-duplicating fold of a prefix of the committed log, at least as long as what the replica has applied. */
  lemma ReplicasFollowOneLog(decode: Decoder, r: Run, i: nat, id: nat)
    requires IsRun(decode, r) && i < |r.states| && id < |r.states[i].services.replicas|
    ensures KS.Accounts(Ops(decode, LogAt(r, i)), r.states[i].services.replicas[id].state)
  {
    FollowsLogAt(decode, r, i);
    assert KS.ReplicaOk(Ops(decode, LogAt(r, i)), r.states[i].services.replicas[id]);
  }

  // ---------- a snapshot is there whenever one is needed ----------

  // Some replica has saved its state at index k, or k is where everything starts.
  ghost predicate HasSaved(s: Services, k: nat) {
    exists x :: Known(s, x) && x.lastApplied == k
  }

  ghost predicate BackedMsg(s: Services, m: RC.Message) {
    m.InstallCall? ==> HasSaved(s, |m.installArgs.prefix|)
  }

  ghost predicate BackedChannel(s: Services, channel: seq<ApplyMsg>) {
    forall x {:trigger channel[x]} :: 0 <= x < |channel| && channel[x].SnapshotMsg? ==> HasSaved(s, |channel[x].prefix|)
  }

  ghost predicate Backed(j: Joint) {
    && Sized(j)
    && (forall id {:trigger j.cluster.servers[id]} :: 0 <= id < |j.cluster.servers| ==>
         HasSaved(j.services, j.cluster.servers[id].base))
    && (forall m {:trigger m in j.cluster.sent} :: m in j.cluster.sent ==> BackedMsg(j.services, m))
    && (forall id {:trigger j.services.channels[id]} :: 0 <= id < |j.services.channels| ==>
         BackedChannel(j.services, j.services.channels[id]))
  }

  lemma MoreSaved(s: Services, s': Services, k: nat)
    requires HasSaved(s, k) && s.saved <= s'.saved
    ensures HasSaved(s', k)
  {
    var x :| Known(s, x) && x.lastApplied == k;
    assert Known(s', x);
  }

  // Where a peer's snapshot position comes from: its own service, a leader's snapshot, or what it was.
  lemma BaseFrom(c: RC.Cluster, step: RC.Step, id: nat)
    requires RC.Enabled(c, step) && id < |c.servers|
    ensures var base := RC.After(c, step).servers[id].base;
            || base == c.servers[id].base
            || (step.Compact? && step.id == id && base == step.index)
            || (step.ReceiveInstallCall? && step.id == id && base == |step.installArgs.prefix|)
  {
  }

  // Only a leader's offer puts a snapshot on the way, up to its own position.
  lemma CallFrom(c: RC.Cluster, step: RC.Step, m: RC.Message)
    requires RC.Enabled(c, step) && m in RC.After(c, step).sent && m.InstallCall?
    ensures m in c.sent || |m.installArgs.prefix| == c.servers[step.id].base
  {
  }

  lemma {:induction false} NoSnapshots(log: Log, base: nat, low: int, high: int, x: nat)
    requires x < |Commands(log, base, low, high)|
    ensures Commands(log, base, low, high)[x].CommandMsg?
    decreases high - low
  {
    var rest := Commands(log, base, low + 1, high);
    if base < low <= |log| {
      if x > 0 { NoSnapshots(log, base, low + 1, high, x - 1); }
    } else {
      NoSnapshots(log, base, low + 1, high, x);
    }
  }

  lemma AppliedFrom(s: Server, x: nat)
    requires s.base <= |s.log| && x < |ApplyCommitted(s).1| && ApplyCommitted(s).1[x].SnapshotMsg?
    ensures |ApplyCommitted(s).1[x].prefix| == s.base
  {
    if s.commitIndex <= s.lastApplied && !s.applySnapshot {
    } else if s.lastApplied < s.base || s.applySnapshot {
    } else {
      NoSnapshots(s.log, s.base, s.lastApplied + 1, s.commitIndex, x);
    }
  }

  lemma PeerBacked(decode: Decoder, j: Joint, step: RC.Step, from: KS.Saved)
    requires Backed(j) && Enabled(j, Peer(step, from))
    ensures Backed(After(decode, j, Peer(step, from)))
  {
    var j' := After(decode, j, Peer(step, from));
    var s, s' := j.services, j'.services;
    forall id | 0 <= id < |j'.cluster.servers| ensures HasSaved(s', j'.cluster.servers[id].base) {
      BaseFrom(j.cluster, step, id);
      var base := j'.cluster.servers[id].base;
      if step.Compact? && step.id == id && base == step.index {
        assert Known(s', s.replicas[id].state);
      } else if step.ReceiveInstallCall? && step.id == id && base == |step.installArgs.prefix| {
        assert BackedMsg(s, RC.InstallCall(id, step.installArgs));
        MoreSaved(s, s', base);
      } else {
        MoreSaved(s, s', j.cluster.servers[id].base);
      }
    }
    forall m | m in j'.cluster.sent ensures BackedMsg(s', m) {
      if m.InstallCall? {
        CallFrom(j.cluster, step, m);
        if m in j.cluster.sent { assert BackedMsg(s, m); }
        MoreSaved(s, s', |m.installArgs.prefix|);
      }
    }
    ChannelsBacked(decode, j, step, from);
  }

  lemma ChannelsBacked(decode: Decoder, j: Joint, step: RC.Step, from: KS.Saved)
    requires Backed(j) && Enabled(j, Peer(step, from))
    ensures var s' := After(decode, j, Peer(step, from)).services;
            forall id {:trigger s'.channels[id]} :: 0 <= id < |s'.channels| ==> BackedChannel(s', s'.channels[id])
  {
    var s, s' := j.services, After(decode, j, Peer(step, from)).services;
    forall id, x | 0 <= id < |s'.channels| && 0 <= x < |s'.channels[id]| && s'.channels[id][x].SnapshotMsg?
      ensures HasSaved(s', |s'.channels[id][x].prefix|)
    {
      if x < |s.channels[id]| {
        assert s'.channels[id][x] == s.channels[id][x];
        assert BackedChannel(s, s.channels[id]);
        MoreSaved(s, s', |s.channels[id][x].prefix|);
      } else {
        var peer := j.cluster.servers[id];
        AppliedFrom(peer, x - |s.channels[id]|);
        MoreSaved(s, s', peer.base);
      }
    }
  }

  lemma {:induction false} RunBacked(decode: Decoder, r: Run, i: nat)
    requires IsRun(decode, r) && i < |r.states|
    ensures Backed(r.states[i])
  {
    if i == 0 {
      assert Known(r.states[0].services, KS.EMPTY);
    } else {
      RunBacked(decode, r, i - 1);
      assert StepsAt(decode, r, i - 1);
      match r.events[i - 1]
      case Peer(step, from) => PeerBacked(decode, r.states[i - 1], step, from);
      case Take(id, content) => TakeBacked(decode, r.states[i - 1], id, content);
    }
  }

  lemma TakeBacked(decode: Decoder, j: Joint, id: nat, content: KS.Saved)
    requires Backed(j) && Enabled(j, Take(id, content))
    ensures Backed(After(decode, j, Take(id, content)))
  {
    var j' := After(decode, j, Take(id, content));
    var s, s' := j.services, j'.services;
    forall k | 0 <= k < |j'.cluster.servers| ensures HasSaved(s', j'.cluster.servers[k].base) {
      MoreSaved(s, s', j.cluster.servers[k].base);
    }
    forall m | m in j'.cluster.sent ensures BackedMsg(s', m) {
      assert BackedMsg(s, m);
      if m.InstallCall? { MoreSaved(s, s', |m.installArgs.prefix|); }
    }
    forall k, x | 0 <= k < |s'.channels| && 0 <= x < |s'.channels[k]| && s'.channels[k][x].SnapshotMsg?
      ensures HasSaved(s', |s'.channels[k][x].prefix|)
    {
      assert BackedChannel(s, s.channels[k]);
      var y := if k == id then x + 1 else x;
      assert s'.channels[k][x] == s.channels[k][y];
      MoreSaved(s, s', |s.channels[k][y].prefix|);
    }
  }

  /** The rule for snapshots shuts no run out: at every point a peer can restart from a saved state at its own snapshot
      position, and a snapshot on its way to a replica is one that some replica has saved. */
  lemma SnapshotsExist(decode: Decoder, r: Run, i: nat, id: nat)
    requires IsRun(decode, r) && i < |r.states| && id < |r.states[i].cluster.servers|
    ensures Sized(r.states[i])
    ensures exists from :: Known(r.states[i].services, from) && from.lastApplied == r.states[i].cluster.servers[id].base
    ensures r.states[i].services.channels[id] != [] ==> exists content :: Enabled(r.states[i], Take(id, content))
  {
    RunBacked(decode, r, i);
    var j := r.states[i];
    assert HasSaved(j.services, j.cluster.servers[id].base);
    if j.services.channels[id] != [] {
      var msg := j.services.channels[id][0];
      assert BackedChannel(j.services, j.services.channels[id]);
      if msg.SnapshotMsg? {
        var content :| Known(j.services, content) && content.lastApplied == |msg.prefix|;
        assert Enabled(j, Take(id, content));
      } else {
        assert Enabled(j, Take(id, KS.EMPTY));
      }
    }
  }

  // ---------- a service never runs ahead of its peer ----------

  predicate UpTo(msgs: seq<ApplyMsg>, k: int) {
    forall x {:trigger msgs[x]} :: 0 <= x < |msgs| ==> IndexOf(msgs[x]) <= k
  }

  predicate BehindAt(s: Server, r: KS.Replica, channel: seq<ApplyMsg>) {
    r.state.lastApplied <= s.commitIndex && UpTo(channel, s.commitIndex)
  }

  predicate Behind(j: Joint) {
    Sized(j) && forall id {:trigger j.services.channels[id]} :: 0 <= id < |j.services.channels| ==>
      BehindAt(j.cluster.servers[id], j.services.replicas[id], j.services.channels[id])
  }

  lemma {:induction false} CommandsUpTo(log: Log, base: nat, low: int, high: int)
    ensures UpTo(Commands(log, base, low, high), high)
    decreases high - low
  {
    if low <= high { CommandsUpTo(log, base, low + 1, high); }
  }

  lemma AppliedUpTo(s: Server)
    requires WellFormed(s)
    ensures UpTo(ApplyCommitted(s).1, s.commitIndex) && ApplyCommitted(s).0.commitIndex == s.commitIndex
  {
    CommandsUpTo(s.log, s.base, s.lastApplied + 1, s.commitIndex);
  }

  lemma PeerBehind(decode: Decoder, j: Joint, step: RC.Step, from: KS.Saved)
    requires Behind(j) && Enabled(j, Peer(step, from))
    requires step.ReceiveAppendCall? || step.ReceiveStrayCall? ==>
               step.appendArgs.leaderCommit <= step.appendArgs.prevLogIndex + |step.appendArgs.entries|
    ensures Behind(After(decode, j, Peer(step, from)))
  {
    var j' := After(decode, j, Peer(step, from));
    forall id | 0 <= id < |j'.services.channels|
        ensures BehindAt(j'.cluster.servers[id], j'.services.replicas[id], j'.services.channels[id]) {
      assert BehindAt(j.cluster.servers[id], j.services.replicas[id], j.services.channels[id]);
      if step.id == id && step.Apply? {
        AppliedUpTo(j.cluster.servers[id]);
      } else if !RC.Restarts(step, id) {
        RS.StepKeepsCommit(j.cluster, step, id);
      }
    }
  }

  lemma TakeBehind(decode: Decoder, j: Joint, id: nat, content: KS.Saved)
    requires Behind(j) && Enabled(j, Take(id, content))
    ensures Behind(After(decode, j, Take(id, content)))
  {
    var channel := j.services.channels[id];
    assert BehindAt(j.cluster.servers[id], j.services.replicas[id], channel)
           && IndexOf(channel[0]) <= j.cluster.servers[id].commitIndex;
    forall x | 0 <= x < |channel[1..]| ensures IndexOf(channel[1..][x]) <= j.cluster.servers[id].commitIndex {
      assert channel[1..][x] == channel[x + 1];
    }
  }

  lemma {:induction false} RunBehind(decode: Decoder, r: Run, i: nat)
    requires IsRun(decode, r) && i < |r.states|
    ensures Behind(r.states[i])
  {
    if i > 0 {
      RunBehind(decode, r, i - 1);
      assert StepsAt(decode, r, i - 1);
      match r.events[i - 1]
      case Peer(step, from) =>
        if step.ReceiveAppendCall? || step.ReceiveStrayCall? {
          RaftAlone(decode, r, i - 1);
          RS.AppendCarriesCommit(Alone(r, i - 1), |Alone(r, i - 1).steps|, step.id, step.appendArgs);
        }
        PeerBehind(decode, r.states[i - 1], step, from);
      case Take(id, content) => TakeBehind(decode, r.states[i - 1], id, content);
    }
  }

  /** A service may compact at the index it has applied at any point of any run: that index is committed, so it is never
      beyond its peer's log. */
  lemma CompactionIsPossible(decode: Decoder, r: Run, i: nat, id: nat)
    requires IsRun(decode, r) && i < |r.states| && id < |r.states[i].services.replicas|
    ensures var j := r.states[i];
            && Sized(j)
            && j.services.replicas[id].state.lastApplied <= j.cluster.servers[id].commitIndex <=
                 |j.cluster.servers[id].log|
            && RC.Enabled(j.cluster, RC.Compact(id, j.services.replicas[id].state.lastApplied))
  {
    RunBehind(decode, r, i);
    var j := r.states[i];
    assert BehindAt(j.cluster.servers[id], j.services.replicas[id], j.services.channels[id]);
    RaftAlone(decode, r, i);
    RS.PositionsInOrder(Alone(r, i), |Alone(r, i).steps|, id);
  }
}
