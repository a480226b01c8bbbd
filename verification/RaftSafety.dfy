/**
  The safety properties of Figure 3 of the Raft paper, for every run in which no peer votes for two candidates in a
  term and none takes the dummy slot of a compacted log for an entry.  Messages may be lost, delayed, reordered and
  repeated, peers crash and restart from what they persisted, and logs are compacted.
 */
module RaftSafety {
  import opened Options
  import opened RaftTypes
  import opened RaftHandlers
  import opened RaftCluster
  import opened RaftHistory
  import opened RaftInvariant
  import opened RaftSteps
  import opened RaftReplication

  // ---------- every step keeps the invariant ----------

  lemma ElectionStepInv(c: Cluster, h: Record, step: Step) returns (h': Record)
    requires Inv(c, h) && Enabled(c, step) && OneVote(After(c, step))
    requires step.Timeout? || step.ReceiveVoteCall? || step.ReceiveVoteAnswer?
    ensures Inv(After(c, step), h') && Grows(h, h')
  {
    var id := step.id;
    var s := c.servers[id];
    match step
    case Timeout(_) =>
      h' := TimeoutInv(c, h, id, VoteCalls(ElectionArgs(StartElection(s, id, |c.servers|), id), id, |c.servers|));
    case ReceiveVoteCall(_, args) =>
      assert Update(c, id, RequestVote(s, args).0, {}).cast == After(c, step).cast;
      h' := ReceiveVoteCallInv(c, h, id, args);
    case ReceiveVoteAnswer(_, from, args, reply) =>
      h' := ReceiveVoteAnswerInv(c, h, id, from, args, reply);
  }

  lemma AppendStepInv(c: Cluster, h: Record, step: Step) returns (h': Record)
    requires Inv(c, h) && Enabled(c, step) && SkipsDummy(c, step)
    requires || step.ClientCommand? || step.Heartbeat? || step.StrayHeartbeat?
             || step.ReceiveAppendCall? || step.ReceiveStrayCall? || step.ReceiveAppendAnswer?
    ensures Inv(After(c, step), h') && Grows(h, h')
  {
    var id := step.id;
    var s := c.servers[id];
    match step
    case ClientCommand(_, command) =>
      h' := StartInv(c, h, id, command);
    case Heartbeat(_, peer) =>
      h' := HeartbeatInv(c, h, id, peer);
    case StrayHeartbeat(_, peer, dummy) =>
      h' := StrayHeartbeatInv(c, h, id, peer, dummy);
    case ReceiveAppendCall(_, args) =>
      var (s', reply) := AppendEntries(s, args);
      h' := ReceiveAppendCallInv(c, h, id, args, s', reply);
    case ReceiveStrayCall(_, args) =>
      var (s', reply) := AppendEntries(s, args);
      h' := ReceiveAppendCallInv(c, h, id, args, s', reply);
    case ReceiveAppendAnswer(_, from, args, reply) =>
      h' := ReceiveAppendAnswerInv(c, h, id, from, args, reply, HandleAppendReply(s, id, from, args, reply));
  }

  lemma SnapshotStepInv(c: Cluster, h: Record, step: Step) returns (h': Record)
    requires Inv(c, h) && Enabled(c, step)
    requires step.Compact? || step.OfferSnapshot? || step.ReceiveInstallCall? || step.ReceiveInstallAnswer?
    ensures Inv(After(c, step), h') && Grows(h, h')
  {
    var id := step.id;
    var s := c.servers[id];
    match step
    case Compact(_, index) =>
      h' := CompactInv(c, h, id, index);
    case OfferSnapshot(_, peer) =>
      h' := OfferSnapshotInv(c, h, id, peer);
    case ReceiveInstallCall(_, args) =>
      var (s', reply) := InstallSnapshot(s, args);
      h' := ReceiveInstallCallInv(c, h, id, args, s', reply);
    case ReceiveInstallAnswer(_, from, args, reply) =>
      h' := ReceiveInstallAnswerInv(c, h, id, from, args, reply, HandleInstallReply(s, from, args, reply));
  }

  lemma LocalStepInv(c: Cluster, h: Record, step: Step) returns (h': Record)
    requires Inv(c, h) && Enabled(c, step) && (step.Apply? || step.Crash? || step.Interrupt?)
    ensures Inv(After(c, step), h') && Grows(h, h')
  {
    var id := step.id;
    match step
    case Apply(_) =>
      var (s', msgs) := ApplyCommitted(c.servers[id]);
      h' := ApplyInv(c, h, id, s', msgs);
    case Crash(_) =>
      h' := CrashInv(c, h, id);
    case Interrupt(_, call) =>
      h' := InterruptInv(c, h, id, TermOfCall(call, id).value);
  }

  lemma StepInv(c: Cluster, h: Record, step: Step) returns (h': Record)
    requires Inv(c, h) && Enabled(c, step) && SkipsDummy(c, step) && OneVote(After(c, step))
    ensures Inv(After(c, step), h') && Grows(h, h')
  {
    if step.Timeout? || step.ReceiveVoteCall? || step.ReceiveVoteAnswer? {
      h' := ElectionStepInv(c, h, step);
    } else if step.Apply? || step.Crash? || step.Interrupt? {
      h' := LocalStepInv(c, h, step);
    } else if step.Compact? || step.OfferSnapshot? || step.ReceiveInstallCall? || step.ReceiveInstallAnswer? {
      h' := SnapshotStepInv(c, h, step);
    } else {
      h' := AppendStepInv(c, h, step);
    }
  }

  // A history for every state of a run, each continuing the one before.
  ghost predicate Explains(hs: seq<Record>, r: Run) {
    && |hs| <= |r.states|
    && (forall i {:trigger hs[i]} :: 0 <= i < |hs| ==> Inv(r.states[i], hs[i]))
    && (forall i, j {:trigger hs[i], hs[j]} :: 0 <= i <= j < |hs| ==> Grows(hs[i], hs[j]))
  }

  lemma ExplainsMore(hs: seq<Record>, r: Run, h: Record)
    requires Explains(hs, r) && 1 <= |hs| < |r.states|
    requires Inv(r.states[|hs|], h) && Grows(hs[|hs| - 1], h) && Grows(h, h)
    ensures Explains(hs + [h], r)
  {
    forall i | 0 <= i < |hs| ensures Grows(hs[i], h) {
      GrowsTransitive(hs[i], hs[|hs| - 1], h);
    }
  }

  lemma NextHistory(r: Run, i: nat, h: Record) returns (h': Record)
    requires IsSoundRun(r) && i < |r.steps| && Inv(r.states[i], h)
    ensures Inv(r.states[i + 1], h') && Grows(h, h') && Grows(h', h')
  {
    assert SoundAt(r, i);
    h' := StepInv(r.states[i], h, r.steps[i]);
    SameHistory(h', 0);
  }

  lemma {:induction false} Histories(r: Run, n: nat) returns (hs: seq<Record>)
    requires IsSoundRun(r) && 1 <= n <= |r.states|
    ensures |hs| == n && Explains(hs, r)
  {
    if n == 1 {
      InitialInv(r.states[0]);
      hs := [NoHistory(|r.states[0].servers|)];
      SameHistory(hs[0], 0);
    } else {
      var before := Histories(r, n - 1);
      var h := NextHistory(r, n - 2, before[n - 2]);
      ExplainsMore(before, r, h);
      hs := before + [h];
    }
  }

  // Two moments of a run with the histories they belong to, whichever came first.
  lemma TwoMoments(r: Run, i: nat, j: nat) returns (g: Record, h: Record)
    requires IsSoundRun(r) && i < |r.states| && j < |r.states|
    ensures Inv(r.states[i], g) && Inv(r.states[j], h)
    ensures i <= j ==> Grows(g, h)
    ensures j <= i ==> Grows(h, g)
  {
    var hs := Histories(r, |r.states|);
    g, h := hs[i], hs[j];
  }

  lemma OneMoment(r: Run, i: nat) returns (h: Record)
    requires IsSoundRun(r) && i < |r.states|
    ensures Inv(r.states[i], h)
  {
    var hs := Histories(r, |r.states|);
    h := hs[i];
  }

  lemma TracedLogs(r: Run, i: nat) returns (h: Record)
    requires IsSoundRun(r) && i < |r.states|
    ensures forall id {:trigger r.states[i].servers[id]} :: 0 <= id < |r.states[i].servers| ==>
            Traced(h, r.states[i].servers[id].log)
  {
    h := OneMoment(r, i);
  }

  // ---------- Election Safety ----------

  ghost predicate LeadsIn(c: Cluster, id: nat, t: nat) {
    id < |c.servers| && c.servers[id].status == Leader && c.servers[id].currentTerm == t
  }

  /** At most one peer ever leads in a term, at whatever moments of the run. */
  lemma ElectionSafety(r: Run, i: nat, j: nat, a: nat, b: nat, t: nat)
    requires IsSoundRun(r) && i < |r.states| && j < |r.states|
    requires LeadsIn(r.states[i], a, t) && LeadsIn(r.states[j], b, t)
    ensures a == b
  {
    var g, h := TwoMoments(r, i, j);
    assert ServerOk(g, a, r.states[i].servers[a]);
    assert ServerOk(h, b, r.states[j].servers[b]);
  }

  /** While it leads in a term, a peer only appends to its log. */
  lemma LeaderAppendOnly(r: Run, i: nat, j: nat, a: nat, b: nat, t: nat)
    requires IsSoundRun(r) && i <= j < |r.states|
    requires LeadsIn(r.states[i], a, t) && LeadsIn(r.states[j], b, t)
    ensures r.states[i].servers[a].log <= r.states[j].servers[b].log
  {
    var g, h := TwoMoments(r, i, j);
    assert ServerOk(g, a, r.states[i].servers[a]);
    assert ServerOk(h, b, r.states[j].servers[b]);
  }

  // ---------- Log Matching ----------

  lemma MatchingLogs(g: History, h: History, x: Log, y: Log, k: nat)
    requires Grows(g, h) && Traced(g, x) && Traced(h, y)
    requires 1 <= k <= |x| && k <= |y| && TermAt(x, k) == TermAt(y, k)
    ensures x[..k] == y[..k]
  {
    TracedGrows(g, h, x);
    SameTermSamePrefix(h, x, y, k);
  }

  /** Two logs, of any peers at any moments, that hold the same term at an index are identical up to it. */
  lemma LogMatching(r: Run, i: nat, j: nat, a: nat, b: nat, k: nat)
    requires IsSoundRun(r) && i < |r.states| && j < |r.states|
    requires a < |r.states[i].servers| && b < |r.states[j].servers|
    requires 1 <= k <= |r.states[i].servers[a].log| && k <= |r.states[j].servers[b].log|
    requires TermAt(r.states[i].servers[a].log, k) == TermAt(r.states[j].servers[b].log, k)
    ensures r.states[i].servers[a].log[..k] == r.states[j].servers[b].log[..k]
  {
    var g, h := TwoMoments(r, i, j);
    var x, y := r.states[i].servers[a].log, r.states[j].servers[b].log;
    if i <= j { MatchingLogs(g, h, x, y, k); } else { MatchingLogs(h, g, y, x, k); }
  }

  // ---------- Leader Completeness ----------

  lemma ElectedHolds(h: Record, prefix: Log, t: nat, u: nat)
    requires CommittedBy(h, prefix, t) && t < u && u in h.elected
    ensures prefix <= h.elected[u]
  {
    if prefix != [] {
      var v: nat, n: nat :| CommitWitness(h, prefix, t, v, n);
      ChosenIsOpen(h, v, n);
      assert Open(h, v, n);
      PrefixTrans(prefix, h.logs[v][..n], h.elected[u]);
    }
  }

  lemma LeaderElectedLog(h: Record, id: nat, s: Server)
    requires LeadershipOk(h, id, s) && s.status == Leader
    ensures s.currentTerm in h.elected && h.elected[s.currentTerm] <= s.log
  {
    assert LeaderOk(h, s.currentTerm);
  }

  lemma LaterLeaderHasCommitted(g: Record, h: Record, s: Server, id: nat, leader: Server)
    requires CommitOk(g, s) && LeadershipOk(h, id, leader) && leader.status == Leader
    requires Grows(g, h) || Grows(h, g)
    requires s.currentTerm < leader.currentTerm
    ensures s.log[..s.commitIndex] <= leader.log
  {
    LeaderElectedLog(h, id, leader);
    var committed := s.log[..s.commitIndex];
    if Grows(g, h) {
      CommittedGrows(g, h, committed, s.currentTerm, s.currentTerm);
      ElectedHolds(h, committed, s.currentTerm, leader.currentTerm);
    } else {
      ElectedHolds(g, committed, s.currentTerm, leader.currentTerm);
    }
  }

  /** Whatever any peer counts as committed while in term t is in the log of every leader of a later term, from
      its election on, and whether the leader was elected before or after the peer learnt of the commit. */
  lemma LeaderCompleteness(r: Run, i: nat, j: nat, a: nat, b: nat, t: nat)
    requires IsSoundRun(r) && i < |r.states| && j < |r.states|
    requires a < |r.states[i].servers| && r.states[i].servers[a].currentTerm < t && LeadsIn(r.states[j], b, t)
    ensures var s := r.states[i].servers[a];
            0 <= s.commitIndex <= |s.log| && s.log[..s.commitIndex] <= r.states[j].servers[b].log
  {
    var g, h := TwoMoments(r, i, j);
    LaterLeaderHasCommitted(g, h, r.states[i].servers[a], b, r.states[j].servers[b]);
  }

  // ---------- State Machine Safety ----------

  // Two committed prefixes never part.
  lemma CommittedAgree(h: Record, a: Log, t: nat, b: Log, u: nat, k: nat)
    requires CommittedBy(h, a, t) && CommittedBy(h, b, u) && k <= |a| && k <= |b|
    ensures a[..k] == b[..k]
  {
    if k > 0 {
      var v: nat, n: nat :| CommitWitness(h, a, t, v, n);
      var w: nat, m: nat :| CommitWitness(h, b, u, w, m);
      if v <= w {
        CommittedHeld(h, a, v, w) by { assert CommitWitness(h, a, v, v, n); }
      } else {
        CommittedHeld(h, b, w, v) by { assert CommitWitness(h, b, w, w, m); }
      }
    }
  }

  lemma ServersAgree(g: Record, h: Record, x: Server, y: Server, k: nat)
    requires CommitOk(g, x) && CommitOk(h, y) && Grows(g, h)
    requires k <= x.commitIndex && k <= y.commitIndex
    ensures x.log[..k] == y.log[..k]
  {
    var p, q := x.log[..x.commitIndex], y.log[..y.commitIndex];
    CommittedGrows(g, h, p, x.currentTerm, x.currentTerm);
    CommittedAgree(h, p, x.currentTerm, q, y.currentTerm, k);
    assert x.log[..k] == p[..k] && y.log[..k] == q[..k];
  }

  /** What two peers count as committed, at any moments, agrees wherever both reach. */
  lemma CommittedLogsAgree(r: Run, i: nat, j: nat, a: nat, b: nat, k: nat)
    requires IsSoundRun(r) && i < |r.states| && j < |r.states|
    requires a < |r.states[i].servers| && b < |r.states[j].servers|
    requires k <= r.states[i].servers[a].commitIndex && k <= r.states[j].servers[b].commitIndex
    ensures k <= |r.states[i].servers[a].log| && k <= |r.states[j].servers[b].log|
    ensures r.states[i].servers[a].log[..k] == r.states[j].servers[b].log[..k]
  {
    var g, h := TwoMoments(r, i, j);
    var x, y := r.states[i].servers[a], r.states[j].servers[b];
    if i <= j { ServersAgree(g, h, x, y, k); } else { ServersAgree(h, g, y, x, k); }
  }

  // What a message to a service says about an index: the command there, if it covers that index.
  function Says(msg: ApplyMsg, index: nat): Option<Command> {
    match msg
    case CommandMsg(i, command) => if i == index then Some(command) else None
    case SnapshotMsg(prefix) => if 1 <= index <= |prefix| then Some(prefix[index - 1].command) else None
  }

  lemma SaidCommitted(h: Record, msg: ApplyMsg, index: nat) returns (prefix: Log, t: nat)
    requires AppliedOk(h, msg) && Says(msg, index).Some?
    ensures CommittedBy(h, prefix, t) && 1 <= index <= |prefix| && Says(msg, index) == Some(prefix[index - 1].command)
  {
    match msg
    case CommandMsg(i, command) =>
      prefix, t :| AppliedFrom(h, i, command, prefix, t);
    case SnapshotMsg(p) =>
      prefix := p;
      t :| CommittedBy(h, p, t);
  }

  /** Whatever is ever put on the apply channels, by any peers, before or after crashes, one command at a time or
      as a snapshot, never disagrees about the command at an index. */
  lemma StateMachineSafety(r: Run, i: nat, x: nat, y: nat, index: nat)
    requires IsSoundRun(r) && i < |r.states|
    requires x < |r.states[i].applied| && y < |r.states[i].applied|
    requires Says(r.states[i].applied[x].msg, index).Some? && Says(r.states[i].applied[y].msg, index).Some?
    ensures Says(r.states[i].applied[x].msg, index) == Says(r.states[i].applied[y].msg, index)
  {
    var h := OneMoment(r, i);
    var p, t := SaidCommitted(h, r.states[i].applied[x].msg, index);
    var q, u := SaidCommitted(h, r.states[i].applied[y].msg, index);
    CommittedAgree(h, p, t, q, u, index);
    assert p[..index][index - 1] == p[index - 1] && q[..index][index - 1] == q[index - 1];
  }

  // The message is about this log: its command, or a beginning of it.
  predicate TakenFrom(log: Log, msg: ApplyMsg) {
    match msg
    case CommandMsg(index, command) => 1 <= index <= |log| && log[index - 1].command == command
    case SnapshotMsg(prefix) => prefix <= log
  }

  // ---------- the commit index ----------

  /** In every state of a run the positions of each peer are in order, so that no step is ever refused for want
      of that. */
  lemma PositionsInOrder(r: Run, i: nat, id: nat)
    requires IsSoundRun(r) && i < |r.states| && id < |r.states[i].servers|
    ensures var s := r.states[i].servers[id];
            WellFormed(s) && |s.nextIndex| == |s.matchIndex| == |r.states[i].servers|
  {
    var h := OneMoment(r, i);
    assert ServerOk(h, id, r.states[i].servers[id]);
  }

  /** Every AppendEntries ever sent, stray or not, reaches at least to the commit index it announces. */
  lemma AppendCarriesCommit(r: Run, i: nat, to: nat, args: AppendArgs)
    requires IsSoundRun(r) && i < |r.states|
    requires AppendCall(to, args) in r.states[i].sent || StrayCall(to, args) in r.states[i].sent
    ensures 0 <= args.leaderCommit <= args.prevLogIndex + |args.entries|
  {
    var h := OneMoment(r, i);
    assert AppendCall(to, args) in r.states[i].sent ==> MessageOk(h, AppendCall(to, args));
    assert StrayCall(to, args) in r.states[i].sent ==> MessageOk(h, StrayCall(to, args));
  }

  lemma StepKeepsCommit(c: Cluster, step: Step, id: nat)
    requires Enabled(c, step) && id < |c.servers| && !Restarts(step, id)
    requires step.ReceiveAppendCall? || step.ReceiveStrayCall? ==>
               step.appendArgs.leaderCommit <= step.appendArgs.prevLogIndex + |step.appendArgs.entries|
    ensures id < |After(c, step).servers| && c.servers[id].commitIndex <= After(c, step).servers[id].commitIndex
  {
    if step.ReceiveAppendAnswer? {
      AnswerKeepsCommit(c.servers[step.id], step.id, step.from, step.appendArgs, step.appendReply);
    }
  }

  lemma AnswerKeepsCommit(s: Server, me: nat, from: nat, args: AppendArgs, reply: AppendReply)
    requires WellFormed(s) && from < |s.matchIndex| && from < |s.nextIndex|
    ensures s.commitIndex <= HandleAppendReply(s, me, from, args, reply).commitIndex
  {
    LeaderCommitHighest(UpdateMatchAndNext(s, from, args.prevLogIndex + |args.entries|), me, |s.log|);
  }

  // An index the leader may commit: an entry of its own term, held by the leader and enough others for a majority.
  predicate Committable(s: Server, me: nat, k: int) {
    && 1 <= k <= |s.log| && TermAt(s.log, k) == s.currentTerm
    && IsQuorum({me} + HolderSet(s.matchIndex, me, k, |s.matchIndex|), |s.matchIndex|)
  }

  lemma CommittableIff(s: Server, me: nat, n: nat)
    requires 1 <= n <= |s.log|
    ensures Committable(s, me, n) <==>
            TermAt(s.log, n) == s.currentTerm && 1 + Holders(s.matchIndex, me, n, |s.matchIndex|) > |s.matchIndex| / 2
  {
    HoldersCounts(s.matchIndex, me, n, |s.matchIndex|);
    WithMe(HolderSet(s.matchIndex, me, n, |s.matchIndex|), me);
  }

  lemma WithMe(holders: set<nat>, me: nat)
    requires me !in holders
    ensures |{me} + holders| == 1 + |holders|
  {
  }

  /** The leader's downward search finds the highest index it may commit, and stays where it is if there is none. */
  lemma {:induction false} LeaderCommitHighest(s: Server, me: nat, n: int)
    requires n <= |s.log| && 0 <= s.commitIndex
    ensures var k := LeaderCommit(s, me, n);
            && s.commitIndex <= k && (k == s.commitIndex || (k <= n && Committable(s, me, k)))
            && forall j {:trigger Committable(s, me, j)} :: k < j <= n ==> !Committable(s, me, j)
    decreases n - s.commitIndex
  {
    if n > s.commitIndex {
      CommittableIff(s, me, n);
      LeaderCommitHighest(s, me, n - 1);
    }
  }

  /** Between restarts a peer's commit index never moves back. */
  lemma {:induction false} CommitIndexMonotone(r: Run, i: nat, j: nat, id: nat)
    requires IsSoundRun(r) && i <= j < |r.states| && id < |r.states[i].servers|
    requires forall k :: i <= k < j ==> !Restarts(r.steps[k], id)
    ensures id < |r.states[j].servers| && r.states[i].servers[id].commitIndex <= r.states[j].servers[id].commitIndex
    decreases j - i
  {
    if i < j {
      CommitIndexMonotone(r, i, j - 1, id);
      assert StepsAt(r, j - 1);
      var step := r.steps[j - 1];
      if step.ReceiveAppendCall? || step.ReceiveStrayCall? { AppendCarriesCommit(r, j - 1, step.id, step.appendArgs); }
      StepKeepsCommit(r.states[j - 1], step, id);
    }
  }

  /** In every run, a follower that accepts a call stands at the leader's commit index afterwards, if it was not already
      beyond it. */
  lemma FollowerCommits(r: Run, i: nat, id: nat, args: AppendArgs)
    requires IsSoundRun(r) && i < |r.steps|
    requires r.steps[i] == ReceiveAppendCall(id, args) || r.steps[i] == ReceiveStrayCall(id, args)
    requires id < |r.states[i].servers| && WellFormed(r.states[i].servers[id])
    requires AppendEntries(r.states[i].servers[id], args).1.success
    ensures var was := r.states[i].servers[id].commitIndex;
            && id < |r.states[i + 1].servers|
            && r.states[i + 1].servers[id].commitIndex == if args.leaderCommit > was then args.leaderCommit else was
  {
    assert StepsAt(r, i);
    AppendCarriesCommit(r, i, id, args);
  }

  lemma StoredOnSuccess(h: Record, id: nat, s: Server, args: AppendArgs, reply: AppendReply, log: Log)
    requires ServerOk(h, id, s) && MessageOk(h, AppendAnswer(id, args, reply)) && reply.success
    requires args.term in h.logs && s.currentTerm == args.term
    requires log <= h.logs[args.term] && |log| <= args.prevLogIndex + |args.entries|
    ensures log <= s.log
  {
    PrefixTrans(log, h.logs[args.term][..Ack(h, id, args.term)], s.log);
  }

  lemma SenderLog(g: Record, h: Record, a: nat, l: Server)
    requires ServerOk(g, a, l) && l.status == Leader && Grows(g, h)
    ensures l.currentTerm in h.logs && l.log <= h.logs[l.currentTerm]
  {
  }

  // What the call of a heartbeat is.
  lemma CallOf(l: Server, me: nat, peer: nat, args: AppendArgs)
    requires WellFormed(l) && SendAppend(l, me, peer) == Some(args)
    ensures l.status == Leader && args.term == l.currentTerm && args.leaderCommit == l.commitIndex
    ensures args.prevLogIndex + |args.entries| == |l.log|
  {
  }

  lemma AfterSuccess(c: Cluster, id: nat, args: AppendArgs)
    requires Enabled(c, ReceiveAppendCall(id, args)) && AppendEntries(c.servers[id], args).1.success
    ensures var c' := After(c, ReceiveAppendCall(id, args));
            && |c'.servers| == |c.servers| && c'.servers[id].currentTerm == args.term
            && AppendAnswer(id, args, AppendEntries(c.servers[id], args).1) in c'.sent
  {
  }

  /** One heartbeat is enough: whoever accepts it, whenever it arrives, has the log the leader had when it was sent, and
      is committed at least as far as the leader then was. */
  lemma AcceptedCallCatchesUp(r: Run, i: nat, j: nat, a: nat, b: nat, args: AppendArgs)
    requires IsSoundRun(r) && i < j < |r.steps| && a < |r.states[i].servers| && b < |r.states[j].servers|
    requires WellFormed(r.states[i].servers[a]) && SendAppend(r.states[i].servers[a], a, b) == Some(args)
    requires r.steps[i] == Heartbeat(a, b) && r.steps[j] == ReceiveAppendCall(b, args)
    requires WellFormed(r.states[j].servers[b]) && AppendEntries(r.states[j].servers[b], args).1.success
    ensures var l := r.states[i].servers[a];
            && b < |r.states[j + 1].servers| && l.log <= r.states[j + 1].servers[b].log
            && l.commitIndex <= r.states[j + 1].servers[b].commitIndex
  {
    FollowerCommits(r, j, b, args);
    assert StepsAt(r, j);
    CallOf(r.states[i].servers[a], a, b, args);
    AfterSuccess(r.states[j], b, args);
    CaughtUp(r, i, j + 1, a, b, args, AppendEntries(r.states[j].servers[b], args).1);
  }

  lemma CaughtUp(r: Run, i: nat, j: nat, a: nat, b: nat, args: AppendArgs, reply: AppendReply)
    requires IsSoundRun(r) && i <= j < |r.states| && a < |r.states[i].servers| && b < |r.states[j].servers|
    requires AppendAnswer(b, args, reply) in r.states[j].sent && reply.success
    requires var l := r.states[i].servers[a];
             l.status == Leader && args.term == l.currentTerm && args.prevLogIndex + |args.entries| == |l.log|
    requires r.states[j].servers[b].currentTerm == args.term
    ensures r.states[i].servers[a].log <= r.states[j].servers[b].log
  {
    var g, h := TwoMoments(r, i, j);
    SenderLog(g, h, a, r.states[i].servers[a]);
    StoredOnSuccess(h, b, r.states[j].servers[b], args, reply, r.states[i].servers[a].log);
  }
}
