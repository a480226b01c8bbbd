/**
  The distributed protocol: n peers and a network that may lose, delay, reorder and repeat messages.
  A step is one critical section of one peer, together with the messages it sends.  Timeouts, client
  requests, crashes and compaction happen at any moment.
 */
module RaftCluster {
  import opened Options
  import opened RaftTypes
  import opened RaftHandlers

  datatype Message =
    | VoteCall(to: nat, voteArgs: VoteArgs)
    | VoteAnswer(from: nat, voteArgs: VoteArgs, voteReply: VoteReply)
    | AppendCall(to: nat, appendArgs: AppendArgs)
    | StrayCall(to: nat, appendArgs: AppendArgs)  // an AppendEntries call that starts with the dummy slot
    | AppendAnswer(from: nat, appendArgs: AppendArgs, appendReply: AppendReply)
    | InstallCall(to: nat, installArgs: InstallArgs)
    | InstallAnswer(from: nat, installArgs: InstallArgs, installReply: InstallReply)

  datatype Applied = Applied(server: nat, msg: ApplyMsg)

  // A vote that a peer has been seen to hold in a term, its own candidacy included.
  datatype CastVote = CastVote(voter: nat, term: nat, candidate: int)

  // `sent` holds every message ever sent, `applied` everything ever put on an applyCh, oldest first, and `cast`
  // every vote ever held.
  datatype Cluster = Cluster(servers: seq<Server>, sent: set<Message>, applied: seq<Applied>, cast: set<CastVote>)

  datatype Step =
    | Timeout(id: nat)
    | ReceiveVoteCall(id: nat, voteArgs: VoteArgs)
    | ReceiveVoteAnswer(id: nat, from: nat, voteArgs: VoteArgs, voteReply: VoteReply)
    | ClientCommand(id: nat, command: Command)
    | Heartbeat(id: nat, peer: nat)
    | StrayHeartbeat(id: nat, peer: nat, dummy: Entry)
    | ReceiveAppendCall(id: nat, appendArgs: AppendArgs)
    | ReceiveStrayCall(id: nat, appendArgs: AppendArgs)
    | ReceiveAppendAnswer(id: nat, from: nat, appendArgs: AppendArgs, appendReply: AppendReply)
    | Compact(id: nat, index: nat)
    | OfferSnapshot(id: nat, peer: nat)
    | ReceiveInstallCall(id: nat, installArgs: InstallArgs)
    | ReceiveInstallAnswer(id: nat, from: nat, installArgs: InstallArgs, installReply: InstallReply)
    | Apply(id: nat)
    | Crash(id: nat)
    | Interrupt(id: nat, call: Message)  // a crash inside a handler that has only taken over the call's term

  // The calls of an election, one to every other peer.
  function VoteCalls(args: VoteArgs, me: nat, n: nat): (r: set<Message>)
    ensures forall m :: m in r <==> m.VoteCall? && m.to < n && m.to != me && m.voteArgs == args
  {
    if n == 0 then {} else VoteCalls(args, me, n - 1) + (if n - 1 == me then {} else {VoteCall(n - 1, args)})
  }

  function Labelled(id: nat, msgs: seq<ApplyMsg>): (r: seq<Applied>)
    ensures |r| == |msgs|
    ensures forall i :: 0 <= i < |r| ==> r[i] == Applied(id, msgs[i])
  {
    seq(|msgs|, i requires 0 <= i < |msgs| => Applied(id, msgs[i]))
  }

  predicate Enabled(c: Cluster, step: Step) {
    var n := |c.servers|;
    && step.id < n
    && WellFormed(c.servers[step.id])
    && |c.servers[step.id].nextIndex| == n
    && |c.servers[step.id].matchIndex| == n
    && match step
       case Timeout(_) => n > 1
       case ReceiveVoteCall(id, args) => VoteCall(id, args) in c.sent
       case ReceiveVoteAnswer(id, from, args, reply) =>
         args.candidate == id && VoteAnswer(from, args, reply) in c.sent && from in c.servers[id].awaiting
       case ClientCommand(_, _) => true
       case Heartbeat(id, peer) => peer < n && peer != id
       case StrayHeartbeat(id, peer, dummy) => peer < n && peer != id && IsDummy(c.servers[id], dummy)
       case ReceiveAppendCall(id, args) => AppendCall(id, args) in c.sent
       case ReceiveStrayCall(id, args) => StrayCall(id, args) in c.sent
       case ReceiveAppendAnswer(id, from, args, reply) =>
         args.leader == id && from < n && AppendAnswer(from, args, reply) in c.sent
       case Compact(id, index) => index <= c.servers[id].commitIndex
       case OfferSnapshot(id, peer) => peer < n && peer != id
       case ReceiveInstallCall(id, args) => InstallCall(id, args) in c.sent
       case ReceiveInstallAnswer(id, from, args, reply) =>
         args.leader == id && from < n && InstallAnswer(from, args, reply) in c.sent
       case Apply(_) => true
       case Crash(_) => true
       case Interrupt(id, call) => call in c.sent && TermOfCall(call, id).Some?
  }

  // The term that a handler of this call to `id` saves before it does anything else.
  function TermOfCall(call: Message, id: nat): Option<nat> {
    match call
    case VoteCall(to, args) => if to == id then Some(args.term) else None
    case AppendCall(to, args) => if to == id then Some(args.term) else None
    case StrayCall(to, args) => if to == id then Some(args.term) else None
    case _ => None
  }

  function VoteOf(id: nat, s: Server): set<CastVote> {
    if s.votedFor == NOBODY then {} else {CastVote(id, s.currentTerm, s.votedFor)}
  }

  function Update(c: Cluster, id: nat, s: Server, msgs: set<Message>): Cluster
    requires id < |c.servers|
  {
    c.(servers := c.servers[id := s], sent := c.sent + msgs, cast := c.cast + VoteOf(id, s))
  }

  predicate Restarts(step: Step, id: nat) {
    (step.Crash? || step.Interrupt?) && step.id == id
  }

  // The cluster after a step.
  function After(c: Cluster, step: Step): Cluster
    requires Enabled(c, step)
  {
    var n := |c.servers|;
    var id := step.id;
    var s := c.servers[id];
    match step
    case Timeout(_) =>
      var s' := StartElection(s, id, n);
      Update(c, id, s', VoteCalls(ElectionArgs(s', id), id, n))
    case ReceiveVoteCall(_, args) =>
      var (s', reply) := RequestVote(s, args);
      Update(c, id, s', {VoteAnswer(id, args, reply)})
    case ReceiveVoteAnswer(_, from, args, reply) =>
      Update(c, id, HandleVoteReply(s, n, from, args, reply), {})
    case ClientCommand(_, command) =>
      Update(c, id, Start(s, command), {})
    case Heartbeat(_, peer) =>
      Update(c, id, s, match SendAppend(s, id, peer) case Some(args) => {AppendCall(peer, args)} case None => {})
    case StrayHeartbeat(_, peer, dummy) =>
      Update(c, id, s, match SendStray(s, id, peer, dummy) case Some(args) => {StrayCall(peer, args)} case None => {})
    case ReceiveAppendCall(_, args) =>
      var (s', reply) := AppendEntries(s, args);
      Update(c, id, s', {AppendAnswer(id, args, reply)})
    case ReceiveStrayCall(_, args) =>
      var (s', reply) := AppendEntries(s, args);
      Update(c, id, s', {AppendAnswer(id, args, reply)})
    case ReceiveAppendAnswer(_, from, args, reply) =>
      Update(c, id, HandleAppendReply(s, id, from, args, reply), {})
    case Compact(_, index) =>
      Update(c, id, Snapshot(s, index), {})
    case OfferSnapshot(_, peer) =>
      Update(c, id, s, match SendInstall(s, id, peer) case Some(args) => {InstallCall(peer, args)} case None => {})
    case ReceiveInstallCall(_, args) =>
      var (s', reply) := InstallSnapshot(s, args);
      Update(c, id, s', {InstallAnswer(id, args, reply)})
    case ReceiveInstallAnswer(_, from, args, reply) =>
      Update(c, id, HandleInstallReply(s, from, args, reply), {})
    case Apply(_) =>
      var (s', msgs) := ApplyCommitted(s);
      Update(c, id, s', {}).(applied := c.applied + Labelled(id, msgs))
    case Crash(_) =>
      Update(c, id, Restart(s, n), {})
    case Interrupt(_, call) =>
      Update(c, id, Restart(StepDown(s, TermOfCall(call, id).value), n), {})
  }

  // The peer that would take the dummy slot for the first entry: it has compacted nothing, the call starts at
  // index 1, and the peer's own first entry, if any, has another term.
  predicate WouldTakeDummy(s: Server, args: AppendArgs) {
    && args.term >= s.currentTerm && args.prevLogIndex == 0 && s.base == 0
    && (s.log == [] || args.entries == [] || s.log[0].term != args.entries[0].term)
  }

  predicate SkipsDummy(c: Cluster, step: Step)
    requires Enabled(c, step)
  {
    step.ReceiveStrayCall? ==> !WouldTakeDummy(c.servers[step.id], step.appendArgs)
  }

  predicate Initial(c: Cluster) {
    && |c.servers| > 0
    && c.servers == seq(|c.servers|, _ => FirstBoot(|c.servers|))
    && c.sent == {}
    && c.applied == []
    && c.cast == {}
  }

  // A run: the states passed through, and the steps between them.
  datatype Run = Run(states: seq<Cluster>, steps: seq<Step>)

  ghost predicate IsRun(r: Run) {
    && |r.states| == |r.steps| + 1
    && Initial(r.states[0])
    && forall i {:trigger StepsAt(r, i)} :: 0 <= i < |r.steps| ==> StepsAt(r, i)
  }

  ghost predicate StepsAt(r: Run, i: nat)
    requires i < |r.steps| && i + 1 < |r.states|
  {
    Enabled(r.states[i], r.steps[i]) && r.states[i + 1] == After(r.states[i], r.steps[i])
  }

  // No peer has ever voted for two candidates in one term.
  predicate OneVote(c: Cluster) {
    SingleVotes(c.cast)
  }

  predicate SingleVotes(cast: set<CastVote>) {
    forall x, y {:trigger x in cast, y in cast} ::
      x in cast && y in cast && x.voter == y.voter && x.term == y.term ==> x.candidate == y.candidate
  }

  ghost predicate SoundAt(r: Run, i: nat)
    requires |r.states| == |r.steps| + 1 && i < |r.steps|
  {
    StepsAt(r, i) && SkipsDummy(r.states[i], r.steps[i]) && OneVote(r.states[i + 1])
  }

  // A run in which no peer votes for two candidates in a term, and none takes a dummy slot for an entry.
  ghost predicate IsSoundRun(r: Run) {
    && IsRun(r)
    && forall i {:trigger SoundAt(r, i)} :: 0 <= i < |r.steps| ==> SoundAt(r, i)
  }

  // ---------- where votes are kept ----------

  // InstallSnapshot forgets the vote of the receiver.  A step keeps votes when it does not do so within
  // the very term of that vote; every step other than the receipt of a snapshot does.
  predicate KeepsVote(c: Cluster, step: Step)
    requires Enabled(c, step)
  {
    step.ReceiveInstallCall? ==>
      var s := c.servers[step.id];
      step.installArgs.term == s.currentTerm ==> s.votedFor == NOBODY
  }

  // A vote once held in a peer's current term is the one it holds.
  predicate VotesHeld(servers: seq<Server>, cast: set<CastVote>) {
    && (forall x {:trigger x in cast} :: x in cast ==>
          && x.voter < |servers| && x.term <= servers[x.voter].currentTerm
          && (x.term == servers[x.voter].currentTerm ==> x.candidate == servers[x.voter].votedFor != NOBODY))
    && SingleVotes(cast)
  }

  // How one peer's vote may move.
  predicate VoteMoves(s: Server, s': Server) {
    || s'.currentTerm > s.currentTerm
    || (s'.currentTerm == s.currentTerm && (s'.votedFor == s.votedFor || s.votedFor == NOBODY))
  }

  lemma MovesKeepVotes(c: Cluster, id: nat, s: Server, msgs: set<Message>)
    requires VotesHeld(c.servers, c.cast) && id < |c.servers| && VoteMoves(c.servers[id], s)
    ensures VotesHeld(Update(c, id, s, msgs).servers, Update(c, id, s, msgs).cast)
  {
  }

  lemma StepMovesVote(c: Cluster, step: Step)
    requires Enabled(c, step) && KeepsVote(c, step)
    ensures |After(c, step).servers| == |c.servers| && VoteMoves(c.servers[step.id], After(c, step).servers[step.id])
  {
    if step.Timeout? || step.ReceiveVoteCall? || step.ReceiveVoteAnswer? || step.Interrupt? || step.Crash? {
      ElectionMovesVote(c, step);
    } else {
      OtherMovesVote(c, step);
    }
  }

  lemma ElectionMovesVote(c: Cluster, step: Step)
    requires Enabled(c, step)
    requires step.Timeout? || step.ReceiveVoteCall? || step.ReceiveVoteAnswer? || step.Interrupt? || step.Crash?
    ensures |After(c, step).servers| == |c.servers| && VoteMoves(c.servers[step.id], After(c, step).servers[step.id])
  {
  }

  lemma OtherMovesVote(c: Cluster, step: Step)
    requires Enabled(c, step) && KeepsVote(c, step)
    requires !(step.Timeout? || step.ReceiveVoteCall? || step.ReceiveVoteAnswer? || step.Interrupt? || step.Crash?)
    ensures |After(c, step).servers| == |c.servers| && VoteMoves(c.servers[step.id], After(c, step).servers[step.id])
  {
  }

  // Every step is an update of one peer, as far as peers and votes go.
  lemma StepUpdates(c: Cluster, step: Step, s': Server)
    requires Enabled(c, step) && |After(c, step).servers| == |c.servers| && s' == After(c, step).servers[step.id]
    ensures After(c, step).servers == Update(c, step.id, s', {}).servers
    ensures After(c, step).cast == Update(c, step.id, s', {}).cast
  {
  }

  lemma KeptVotesStep(c: Cluster, step: Step)
    requires VotesHeld(c.servers, c.cast) && Enabled(c, step) && KeepsVote(c, step)
    ensures VotesHeld(After(c, step).servers, After(c, step).cast)
  {
    StepMovesVote(c, step);
    var s' := After(c, step).servers[step.id];
    MovesKeepVotes(c, step.id, s', {});
    StepUpdates(c, step, s');
  }

  ghost predicate KeptAt(r: Run, i: nat)
    requires |r.states| == |r.steps| + 1 && i < |r.steps|
  {
    StepsAt(r, i) && KeepsVote(r.states[i], r.steps[i])
  }

  /** Wherever votes are kept, none is given twice. */
  lemma {:induction false} KeptVotesAreSingle(r: Run, i: nat)
    requires IsRun(r) && i < |r.states| && forall k {:trigger KeptAt(r, k)} :: 0 <= k < i ==> KeptAt(r, k)
    ensures VotesHeld(r.states[i].servers, r.states[i].cast)
  {
    if i > 0 {
      KeptVotesAreSingle(r, i - 1);
      assert KeptAt(r, i - 1);
      KeptVotesStep(r.states[i - 1], r.steps[i - 1]);
    }
  }

  // ---------- runs without compaction ----------

  predicate Uncompacted(c: Cluster) {
    && (forall id :: 0 <= id < |c.servers| ==> c.servers[id].base == 0)
    && (forall m :: m in c.sent && m.StrayCall? ==> m.appendArgs.prevLogIndex == -1)
  }

  lemma BaseStays(c: Cluster, step: Step, id: nat)
    requires Enabled(c, step) && !step.Compact? && !step.ReceiveInstallCall? && id < |c.servers|
    ensures |After(c, step).servers| == |c.servers| && After(c, step).servers[id].base == c.servers[id].base
  {
  }

  lemma StrayFrom(c: Cluster, step: Step, m: Message)
    requires Enabled(c, step) && m in After(c, step).sent && m.StrayCall?
    ensures m in c.sent || m.appendArgs.prevLogIndex == c.servers[step.id].base - 1
  {
  }

  lemma UncompactedStep(c: Cluster, step: Step)
    requires Uncompacted(c) && Enabled(c, step) && !step.Compact? && !step.ReceiveInstallCall?
    ensures Uncompacted(After(c, step)) && SkipsDummy(c, step)
  {
    var c' := After(c, step);
    BaseStays(c, step, step.id);
    forall id | 0 <= id < |c'.servers| ensures c'.servers[id].base == 0 { BaseStays(c, step, id); }
    forall m | m in c'.sent && m.StrayCall? ensures m.appendArgs.prevLogIndex == -1 { StrayFrom(c, step, m); }
  }

  lemma {:induction false} StaysUncompacted(r: Run, i: nat)
    requires IsRun(r) && i < |r.states|
    requires forall k :: 0 <= k < i ==> !r.steps[k].Compact? && !r.steps[k].ReceiveInstallCall?
    ensures Uncompacted(r.states[i])
  {
    if i > 0 {
      StaysUncompacted(r, i - 1);
      assert StepsAt(r, i - 1);
      UncompactedStep(r.states[i - 1], r.steps[i - 1]);
    }
  }

  /** Runs in which nothing is compacted are sound, whatever else happens in them. */
  lemma UncompactedRunsAreSound(r: Run)
    requires IsRun(r) && forall k :: 0 <= k < |r.steps| ==> !r.steps[k].Compact? && !r.steps[k].ReceiveInstallCall?
    ensures IsSoundRun(r)
  {
    forall i | 0 <= i < |r.steps| ensures SoundAt(r, i) {
      StaysUncompacted(r, i);
      assert StepsAt(r, i);
      UncompactedStep(r.states[i], r.steps[i]);
      forall k | 0 <= k < i + 1 ensures KeptAt(r, k) { assert StepsAt(r, k); }
      KeptVotesAreSingle(r, i + 1);
    }
  }

  /** Runs in which votes are kept and no dummy slot is taken are sound. */
  lemma VoteKeepingRunsAreSound(r: Run)
    requires IsRun(r)
    requires forall k {:trigger KeptAt(r, k)} :: 0 <= k < |r.steps| ==>
               KeptAt(r, k) && SkipsDummy(r.states[k], r.steps[k])
    ensures IsSoundRun(r)
  {
    forall i | 0 <= i < |r.steps| ensures SoundAt(r, i) {
      assert KeptAt(r, i);
      KeptVotesAreSingle(r, i + 1);
    }
  }
}
