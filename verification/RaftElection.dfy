/**
  No state of a run is a dead end for elections: any majority of the peers can go on alone and elect one of them.
 */
module RaftElection {
  import opened Options
  import opened Sets
  import opened RaftTypes
  import opened RaftHandlers
  import opened RaftCluster
  import opened RaftHistory
  import opened RaftInvariant
  import opened RaftSafety
  import opened RaftVote

  // ---------- going on from a run ----------

  function End(r: Run): Cluster
    requires |r.states| == |r.steps| + 1
  {
    r.states[|r.steps|]
  }

  // A step of one of these peers, with no crash, compaction or stray call, and no client command but this one.
  predicate Ordinary(step: Step, peers: set<nat>, x: Command) {
    && step.id in peers
    && !step.Compact? && !step.Crash? && !step.Interrupt? && !step.StrayHeartbeat? && !step.ReceiveStrayCall?
    && (step.ClientCommand? ==> step.command == x)
  }

  ghost predicate Extends(r: Run, r': Run, peers: set<nat>, x: Command) {
    && IsSoundRun(r) && IsSoundRun(r') && r.states <= r'.states && r.steps <= r'.steps
    && forall i {:trigger r'.steps[i]} :: |r.steps| <= i < |r'.steps| ==> Ordinary(r'.steps[i], peers, x)
  }

  lemma ExtendsMore(a: Run, b: Run, c: Run, peers: set<nat>, x: Command)
    requires Extends(a, b, peers, x) && Extends(b, c, peers, x)
    ensures Extends(a, c, peers, x)
  {
    forall i | |a.steps| <= i < |c.steps| ensures Ordinary(c.steps[i], peers, x) {
      if i < |b.steps| { assert c.steps[i] == b.steps[i]; }
    }
  }

  lemma Go(r: Run, step: Step, peers: set<nat>, x: Command) returns (r': Run)
    requires IsSoundRun(r) && Enabled(End(r), step) && Ordinary(step, peers, x) && OneVote(After(End(r), step))
    ensures Extends(r, r', peers, x) && End(r') == After(End(r), step)
  {
    r' := Run(r.states + [After(End(r), step)], r.steps + [step]);
    forall i | 0 <= i < |r'.steps| ensures SoundAt(r', i) {
      if i < |r.steps| { assert SoundAt(r, i); }
    }
    forall i | 0 <= i < |r'.steps| ensures StepsAt(r', i) { assert SoundAt(r', i); }
  }

  // ---------- votes ----------

  lemma TermStays(c: Cluster, step: Step)
    requires Enabled(c, step)
    ensures |After(c, step).servers| == |c.servers|
    ensures c.servers[step.id].currentTerm <= After(c, step).servers[step.id].currentTerm
  {
    if !step.ReceiveInstallCall? { StepMovesVote(c, step); }
  }

  // The term that a message brings to the peer that receives it.
  function TermBrought(step: Step): Option<nat> {
    match step
    case ReceiveVoteCall(_, args) => Some(args.term)
    case ReceiveAppendCall(_, args) => Some(args.term)
    case ReceiveStrayCall(_, args) => Some(args.term)
    case ReceiveInstallCall(_, args) => Some(args.term)
    case ReceiveVoteAnswer(_, _, _, reply) => Some(reply.term)
    case ReceiveAppendAnswer(_, _, _, reply) => Some(reply.term)
    case ReceiveInstallAnswer(_, _, _, reply) => Some(reply.term)
    case _ => None
  }

  // An answer to a call that the peer has made in its present term and role.
  predicate Current(s: Server, step: Step) {
    match step
    case ReceiveVoteAnswer(_, _, args, _) => s.status == Candidate && args.term == s.currentTerm
    case ReceiveAppendAnswer(_, _, args, _) => s.status == Leader && args.term == s.currentTerm
    case ReceiveInstallAnswer(_, _, args, _) => s.status == Leader && args.term == s.currentTerm
    case _ => true
  }

  /** A newer term is taken over from every call, and from every answer that is not out of date itself: the peer is in
      that term then, and neither leads nor stands in it. */
  lemma NewerTermIsTakenOver(c: Cluster, step: Step)
    requires Enabled(c, step) && Current(c.servers[step.id], step)
    requires TermBrought(step).Some? && TermBrought(step).value > c.servers[step.id].currentTerm
    ensures |After(c, step).servers| == |c.servers|
    ensures var s := After(c, step).servers[step.id];
            && s.currentTerm == TermBrought(step).value && s.status == Follower
            && (s.votedFor != NOBODY ==> step.ReceiveVoteCall? && s.votedFor == step.voteArgs.candidate)
  {
  }

  /** A caller that is behind learns it from the answer, whatever it asked for; nobody else is told of a newer term. */
  lemma StaleCallersLearn(s: Server, vote: VoteArgs, append: AppendArgs, install: InstallArgs)
    requires s.base <= |s.log|
    ensures var reply := RequestVote(s, vote).1;
            if vote.term < s.currentTerm then reply.term == s.currentTerm && !reply.granted else reply.term == vote.term
    ensures var reply := AppendEntries(s, append).1;
            if append.term < s.currentTerm then reply.term == s.currentTerm && !reply.success
            else reply.term == append.term
    ensures var reply := InstallSnapshot(s, install).1;
            if install.term < s.currentTerm then reply.term == s.currentTerm else reply.term <= install.term
  {
  }

  // Votes seen belong to terms that their voters have reached.
  predicate CastInTime(servers: seq<Server>, cast: set<CastVote>) {
    forall v {:trigger v in cast} :: v in cast ==> v.voter < |servers| && v.term <= servers[v.voter].currentTerm
  }

  lemma CastLater(c: Cluster, id: nat, s: Server)
    requires CastInTime(c.servers, c.cast) && id < |c.servers| && c.servers[id].currentTerm <= s.currentTerm
    ensures CastInTime(Update(c, id, s, {}).servers, Update(c, id, s, {}).cast)
  {
  }

  lemma CastStep(c: Cluster, step: Step)
    requires CastInTime(c.servers, c.cast) && Enabled(c, step)
    ensures CastInTime(After(c, step).servers, After(c, step).cast)
  {
    TermStays(c, step);
    var s := After(c, step).servers[step.id];
    StepUpdates(c, step, s);
    CastLater(c, step.id, s);
  }

  lemma {:induction false} RunCastInTime(r: Run, i: nat)
    requires IsRun(r) && i < |r.states|
    ensures CastInTime(r.states[i].servers, r.states[i].cast)
  {
    if i > 0 {
      RunCastInTime(r, i - 1);
      assert StepsAt(r, i - 1);
      CastStep(r.states[i - 1], r.steps[i - 1]);
    }
  }

  lemma EndVotes(r: Run)
    requires IsSoundRun(r)
    ensures CastInTime(End(r).servers, End(r).cast) && OneVote(End(r))
    ensures forall id {:trigger VoteOf(id, End(r).servers[id])} :: 0 <= id < |End(r).servers| ==>
              VoteOf(id, End(r).servers[id]) <= End(r).cast
  {
    RunCastInTime(r, |r.steps|);
    if |r.steps| > 0 { assert SoundAt(r, |r.steps| - 1); }
    var h := OneMoment(r, |r.steps|);
  }

  // Every peer can take a step.
  lemma EndSized(r: Run, id: nat)
    requires IsSoundRun(r) && id < |End(r).servers|
    ensures var s := End(r).servers[id];
            WellFormed(s) && |s.nextIndex| == |s.matchIndex| == |End(r).servers|
  {
    PositionsInOrder(r, |r.steps|, id);
  }

  // A first vote in a new term, and a step that casts no vote, leave votes single.
  lemma NewVote(c: Cluster, id: nat, s: Server, msgs: set<Message>)
    requires id < |c.servers| && OneVote(c) && CastInTime(c.servers, c.cast)
    requires c.servers[id].currentTerm < s.currentTerm
    ensures OneVote(Update(c, id, s, msgs))
  {
  }

  lemma SameVote(c: Cluster, id: nat, s: Server, msgs: set<Message>)
    requires id < |c.servers| && OneVote(c) && VoteOf(id, s) <= c.cast
    ensures OneVote(Update(c, id, s, msgs))
  {
    assert c.cast + VoteOf(id, s) == c.cast;
  }

  // ---------- standing ----------

  // The candidate calls everybody.
  predicate Standing(c: Cluster, p: nat) {
    && p < |c.servers|
    && var s := c.servers[p];
       && s.status == Candidate && s.votes == 1 && s.awaiting == Peers(|c.servers|) - {p}
       && forall q {:trigger VoteCall(q, ElectionArgs(s, p))} :: 0 <= q < |c.servers| && q != p ==>
            VoteCall(q, ElectionArgs(s, p)) in c.sent
  }

  lemma Stand(r: Run, p: nat, peers: set<nat>, x: Command) returns (r': Run)
    requires IsSoundRun(r) && p < |End(r).servers| && |End(r).servers| > 1 && p in peers
    ensures Extends(r, r', peers, x) && Standing(End(r'), p)
    ensures End(r').servers == End(r).servers[p := StartElection(End(r).servers[p], p, |End(r).servers|)]
  {
    EndVotes(r);
    EndSized(r, p);
    var c := End(r);
    var s := StartElection(c.servers[p], p, |c.servers|);
    NewVote(c, p, s, VoteCalls(ElectionArgs(s, p), p, |c.servers|));
    r' := Go(r, Timeout(p), peers, x);
  }

  // It stands again and again, until it has reached the term.
  lemma {:induction false} StandIn(r: Run, p: nat, t: nat, peers: set<nat>, x: Command) returns (r': Run)
    requires IsSoundRun(r) && p < |End(r).servers| && |End(r).servers| > 1 && p in peers
    ensures Extends(r, r', peers, x) && Standing(End(r'), p) && End(r').servers[p].currentTerm > t
    ensures |End(r').servers| == |End(r).servers| && End(r').servers[p].log == End(r).servers[p].log
    ensures forall q :: 0 <= q < |End(r).servers| && q != p ==> End(r').servers[q] == End(r).servers[q]
    decreases t - End(r).servers[p].currentTerm
  {
    r' := Stand(r, p, peers, x);
    if End(r').servers[p].currentTerm <= t {
      var before := r';
      r' := StandIn(before, p, t, peers, x);
      ExtendsMore(r, before, r', peers, x);
    }
  }

  // ---------- granting ----------

  function Granted(s: Server, t: nat, p: nat): Server {
    s.(currentTerm := t, status := Follower, votedFor := p)
  }

  predicate Answered(c: Cluster, args: VoteArgs, q: nat) {
    VoteAnswer(q, args, VoteReply(args.term, true)) in c.sent
  }

  // These peers have granted the vote, and nothing else has happened.
  ghost predicate HaveGranted(c: Cluster, c': Cluster, p: nat, args: VoteArgs, voters: set<nat>) {
    && |c'.servers| == |c.servers| && c.sent <= c'.sent
    && (forall q {:trigger c'.servers[q]} :: 0 <= q < |c.servers| ==>
          c'.servers[q] == if q in voters then Granted(c.servers[q], args.term, p) else c.servers[q])
    && (forall q {:trigger q in voters} :: q in voters ==> Answered(c', args, q))
  }

  lemma Grant(r: Run, p: nat, q: nat, args: VoteArgs, peers: set<nat>, x: Command) returns (r': Run)
    requires IsSoundRun(r) && q < |End(r).servers| && q in peers && VoteCall(q, args) in End(r).sent
    requires args.candidate == p && End(r).servers[q].currentTerm < args.term
    requires UpToDate(args.lastLogIndex, args.lastLogTerm, End(r).servers[q].log)
    ensures Extends(r, r', peers, x) && Answered(End(r'), args, q) && End(r).sent <= End(r').sent
    ensures End(r').servers == End(r).servers[q := Granted(End(r).servers[q], args.term, p)]
  {
    EndVotes(r);
    EndSized(r, q);
    var c := End(r);
    var (s, reply) := RequestVote(c.servers[q], args);
    assert s == Granted(c.servers[q], args.term, p);
    NewVote(c, q, s, {VoteAnswer(q, args, reply)});
    r' := Go(r, ReceiveVoteCall(q, args), peers, x);
  }

  predicate MayVote(c: Cluster, args: VoteArgs, q: nat) {
    && q < |c.servers| && VoteCall(q, args) in c.sent && c.servers[q].currentTerm < args.term
    && UpToDate(args.lastLogIndex, args.lastLogTerm, c.servers[q].log)
  }

  lemma {:induction false} GrantAll(r: Run, p: nat, args: VoteArgs, voters: set<nat>, peers: set<nat>, x: Command)
    returns (r': Run)
    requires IsSoundRun(r) && voters <= peers && args.candidate == p
    requires forall q {:trigger q in voters} :: q in voters ==> MayVote(End(r), args, q)
    ensures Extends(r, r', peers, x) && HaveGranted(End(r), End(r'), p, args, voters)
    decreases |voters|
  {
    if voters == {} {
      r' := r;
    } else {
      var q :| q in voters;
      var first := GrantAll(r, p, args, voters - {q}, peers, x);
      assert MayVote(End(r), args, q) && End(first).servers[q] == End(r).servers[q];
      r' := Grant(first, p, q, args, peers, x);
      ExtendsMore(r, first, r', peers, x);
      OneMoreGranted(End(r), End(first), End(r'), p, args, voters, q);
    }
  }

  lemma OneMoreGranted(c: Cluster, c1: Cluster, c': Cluster, p: nat, args: VoteArgs, voters: set<nat>, q: nat)
    requires q in voters && q < |c.servers| && HaveGranted(c, c1, p, args, voters - {q})
    requires c'.servers == c1.servers[q := Granted(c.servers[q], args.term, p)]
    requires c1.sent <= c'.sent && Answered(c', args, q)
    ensures HaveGranted(c, c', p, args, voters)
  {
    forall v | v in voters ensures Answered(c', args, v) {
      assert v != q ==> v in voters - {q} && Answered(c1, args, v);
    }
  }

  // ---------- counting ----------

  function Elected(s: Server, n: nat): Server {
    s.(status := Leader, nextIndex := seq(n, _ => |s.log| + 1), matchIndex := seq(n, _ => s.base))
  }

  // A leader that has just been elected, but for the counters of its election.
  predicate JustElected(s: Server, l: Server, n: nat) {
    l == Elected(s, n).(votes := l.votes, awaiting := l.awaiting)
  }

  lemma CountOne(r: Run, p: nat, q: nat, args: VoteArgs, peers: set<nat>, x: Command) returns (r': Run)
    requires IsSoundRun(r) && p < |End(r).servers| && p in peers && Answered(End(r), args, q) && args.candidate == p
    requires q in End(r).servers[p].awaiting
    requires End(r).servers[p].status == Candidate && End(r).servers[p].currentTerm == args.term
    ensures Extends(r, r', peers, x) && End(r).sent <= End(r').sent
    ensures var s, n := End(r).servers[p], |End(r).servers|;
            var s1 := s.(awaiting := s.awaiting - {q}, votes := s.votes + 1);
            End(r').servers == End(r).servers[p := if s1.votes > n / 2 then Elected(s1, n) else s1]
  {
    EndVotes(r);
    EndSized(r, p);
    var c := End(r);
    var s := HandleVoteReply(c.servers[p], |c.servers|, q, args, VoteReply(args.term, true));
    assert VoteOf(p, s) == VoteOf(p, c.servers[p]);
    SameVote(c, p, s, {});
    r' := Go(r, ReceiveVoteAnswer(p, q, args, VoteReply(args.term, true)), peers, x);
  }

  /** A candidate that enough peers have granted their votes becomes the leader. */
  lemma {:induction false} CountAll(r: Run, p: nat, args: VoteArgs, voters: set<nat>, peers: set<nat>, x: Command)
    returns (r': Run)
    requires IsSoundRun(r) && p < |End(r).servers| && p in peers && args.candidate == p
    requires voters <= End(r).servers[p].awaiting && forall q :: q in voters ==> Answered(End(r), args, q)
    requires End(r).servers[p].status == Candidate && End(r).servers[p].currentTerm == args.term
    requires End(r).servers[p].votes <= |End(r).servers| / 2 < End(r).servers[p].votes + |voters|
    ensures Extends(r, r', peers, x) && |End(r').servers| == |End(r).servers|
    ensures JustElected(End(r).servers[p], End(r').servers[p], |End(r).servers|)
    ensures forall q :: 0 <= q < |End(r).servers| && q != p ==> End(r').servers[q] == End(r).servers[q]
    decreases |voters|
  {
    var q :| q in voters;
    r' := CountOne(r, p, q, args, peers, x);
    if End(r').servers[p].status == Candidate {
      var first := r';
      r' := CountAll(first, p, args, voters - {q}, peers, x);
      ExtendsMore(r, first, r', peers, x);
    }
  }

  // ---------- the election ----------

  lemma {:induction false} TermsBelow(servers: seq<Server>, peers: set<nat>) returns (t: nat)
    requires forall q :: q in peers ==> q < |servers|
    ensures forall q :: q in peers ==> servers[q].currentTerm <= t
    decreases |peers|
  {
    if peers == {} {
      t := 0;
    } else {
      var q :| q in peers;
      var rest := TermsBelow(servers, peers - {q});
      t := if servers[q].currentTerm <= rest then rest else servers[q].currentTerm;
    }
  }

  // Peer p has just been elected, and these peers are in its term.
  ghost predicate Leads(c: Cluster, p: nat, peers: set<nat>) {
    && p in peers && p < |c.servers| && c.servers[p].status == Leader
    && forall q {:trigger c.servers[q]} :: q in peers ==>
         q < |c.servers| && c.servers[q].currentTerm == c.servers[p].currentTerm
  }

  lemma QuorumOf(peers: set<nat>, p: nat, n: nat)
    requires p in peers && IsQuorum(peers, n) && n > 1
    ensures 1 <= n / 2 < 1 + |peers - {p}|
  {
    assert peers == (peers - {p}) + {p};
  }

  lemma VotersMay(c: Cluster, c': Cluster, p: nat, peers: set<nat>, t: nat)
    requires Standing(c', p) && |c'.servers| == |c.servers| && peers <= Peers(|c.servers|) && p in peers
    requires c'.servers[p].log == c.servers[p].log && c'.servers[p].currentTerm > t
    requires forall q :: 0 <= q < |c.servers| && q != p ==> c'.servers[q] == c.servers[q]
    requires forall q :: q in peers ==> c.servers[q].currentTerm <= t && AtLeast(c.servers[p].log, c.servers[q].log)
    ensures forall q {:trigger q in peers - {p}} :: q in peers - {p} ==> MayVote(c', ElectionArgs(c'.servers[p], p), q)
  {
  }

  /** At every point of every run, any majority of the peers can elect one of them without the help of the others, in a
      term that all of them are then in. */
  lemma MajorityElects(r: Run, peers: set<nat>, x: Command) returns (r': Run, p: nat)
    requires IsSoundRun(r) && |End(r).servers| > 1
    requires peers <= Peers(|End(r).servers|) && IsQuorum(peers, |End(r).servers|)
    ensures Extends(r, r', peers, x) && |End(r').servers| == |End(r).servers| && Leads(End(r'), p, peers)
    ensures var l, n := End(r').servers[p], |End(r).servers|;
            l.nextIndex == seq(n, _ => |l.log| + 1) && l.matchIndex == seq(n, _ => l.base)
  {
    var n := |End(r).servers|;
    p := BestCandidate(End(r).servers, peers);
    var t := TermsBelow(End(r).servers, peers);
    var r1 := StandIn(r, p, t, peers, x);
    VotersMay(End(r), End(r1), p, peers, t);
    var args, voters := ElectionArgs(End(r1).servers[p], p), peers - {p};
    var r2 := GrantAll(r1, p, args, voters, peers, x);
    assert End(r2).servers[p] == End(r1).servers[p];
    QuorumOf(peers, p, n);
    r' := CountAll(r2, p, args, voters, peers, x);
    ExtendsMore(r, r1, r2, peers, x);
    ExtendsMore(r, r2, r', peers, x);
    forall q | q in peers ensures q < n && End(r').servers[q].currentTerm == args.term {
      assert q != p ==> End(r').servers[q] == End(r2).servers[q];
    }
  }
}
