/**
  How the peers, the messages in flight and the commands applied relate to the history of a run, and that
  every step of the cluster keeps it so.
 */
module RaftInvariant {
  import opened Sets
  import opened RaftTypes
  import opened RaftHandlers
  import opened RaftCluster
  import opened RaftHistory

  // ---------- peers ----------

  ghost predicate LogOk(h: History, id: nat, s: Server) {
    && id < |h.terms|
    && h.terms[id] == s.currentTerm
    && |s.nextIndex| == |s.matchIndex| == |h.terms|
    && WellFormed(s)
    && Traced(h, s.log)
    && TermsUpTo(s.log, s.currentTerm)
  }

  ghost predicate VoteRecorded(h: History, id: nat, s: Server) {
    s.votedFor != NOBODY ==>
      (id, s.currentTerm) in h.ballots && h.ballots[(id, s.currentTerm)].candidate == s.votedFor
  }

  ghost predicate CandidateOk(h: History, id: nat, s: Server) {
    s.status == Candidate ==>
      && (id, s.currentTerm) in h.campaigns
      && h.campaigns[(id, s.currentTerm)] == s.log
      && (s.currentTerm in h.leaders ==> h.leaders[s.currentTerm] != id)
      && s.votes <= |VotersOf(h, id, s.currentTerm) - s.awaiting|
  }

  ghost predicate LeadershipOk(h: History, id: nat, s: Server) {
    s.status == Leader ==>
      && s.currentTerm in h.leaders
      && s.currentTerm in h.logs
      && h.leaders[s.currentTerm] == id
      && h.logs[s.currentTerm] == s.log
      && Ack(h, id, s.currentTerm) == |s.log|
      && MatchOk(h, s)
  }

  // What the leader believes of a peer is true of it, above what is committed anyway.
  ghost predicate MatchOk(h: History, s: Server) {
    forall p {:trigger s.matchIndex[p]} :: 0 <= p < |s.matchIndex| ==>
      s.matchIndex[p] <= Ack(h, p, s.currentTerm) || s.matchIndex[p] <= s.commitIndex
  }

  ghost predicate MemoryOk(h: History, id: nat, s: Server) {
    && Remembers(h, id, s.log, s.currentTerm)
    && (s.currentTerm in h.logs ==> Stored(h, id, s.currentTerm, s.log))
  }

  ghost predicate Stored(h: History, id: nat, t: nat, log: Log)
    requires t in h.logs
  {
    Ack(h, id, t) <= |h.logs[t]| && h.logs[t][..Ack(h, id, t)] <= log
  }

  ghost predicate CommitOk(h: History, s: Server) {
    0 <= s.commitIndex <= |s.log| && CommittedBy(h, s.log[..s.commitIndex], s.currentTerm)
  }

  ghost predicate ServerOk(h: History, id: nat, s: Server) {
    && LogOk(h, id, s)
    && VoteRecorded(h, id, s)
    && CandidateOk(h, id, s)
    && LeadershipOk(h, id, s)
    && MemoryOk(h, id, s)
    && CommitOk(h, s)
  }

  // ---------- messages ----------

  // The call reaches no further than the leader's log, and at least to a commit index that is right.
  ghost predicate CarriedOk(h: History, args: AppendArgs) {
    && args.term in h.logs
    && args.prevLogIndex + |args.entries| <= |h.logs[args.term]|
    && 0 <= args.leaderCommit <= args.prevLogIndex + |args.entries|
    && CommittedBy(h, h.logs[args.term][..args.leaderCommit], args.term)
  }

  ghost predicate AppendArgsOk(h: History, args: AppendArgs) {
    && CarriedOk(h, args)
    && 0 <= args.prevLogIndex
    && args.prevLogTerm == TermAt(h.logs[args.term], args.prevLogIndex)
    && args.entries == h.logs[args.term][args.prevLogIndex..args.prevLogIndex + |args.entries|]
  }

  // All but the first entry, the dummy, are the leader's.
  predicate StrayShape(args: AppendArgs, leader: Log) {
    && -1 <= args.prevLogIndex && args.prevLogTerm == -1 && args.entries != []
    && args.prevLogIndex + |args.entries| <= |leader|
    && (forall k {:trigger args.entries[k]} :: 1 <= k < |args.entries| ==>
         args.entries[k] == leader[args.prevLogIndex + k])
    && (args.prevLogIndex >= 0 ==> args.entries[0].term == 0 || args.entries[0].term == leader[args.prevLogIndex].term)
  }

  ghost predicate StrayArgsOk(h: History, args: AppendArgs) {
    CarriedOk(h, args) && StrayShape(args, h.logs[args.term])
  }

  ghost predicate InstallArgsOk(h: History, args: InstallArgs) {
    && args.term in h.logs
    && args.prefix <= h.logs[args.term]
    && CommittedBy(h, args.prefix, args.term)
  }

  ghost predicate MessageOk(h: History, m: Message) {
    match m
    case VoteCall(_, args) =>
      && (args.candidate, args.term) in h.campaigns
      && var log := h.campaigns[(args.candidate, args.term)];
      args.lastLogIndex == |log| && args.lastLogTerm == LastTerm(log)
    case VoteAnswer(from, args, reply) =>
      from < |h.terms|
      && (reply.granted ==> (from, args.term) in h.ballots && h.ballots[(from, args.term)].candidate == args.candidate)
    case AppendCall(_, args) => AppendArgsOk(h, args)
    case StrayCall(_, args) => StrayArgsOk(h, args)
    case AppendAnswer(from, args, reply) =>
      && from < |h.terms|
      && (reply.success ==> Ack(h, from, args.term) >= args.prevLogIndex + |args.entries|)
    case InstallCall(_, args) => InstallArgsOk(h, args)
    case InstallAnswer(from, args, reply) =>
      && InstallArgsOk(h, args)
      && from < |h.terms|
      && (reply.term <= args.term ==> Ack(h, from, args.term) >= |args.prefix|)
  }

  // ---------- applied commands ----------

  ghost predicate AppliedOk(h: History, msg: ApplyMsg) {
    match msg
    case CommandMsg(index, command) => exists prefix, t :: AppliedFrom(h, index, command, prefix, t)
    case SnapshotMsg(prefix) => exists t :: CommittedBy(h, prefix, t)
  }

  ghost predicate AppliedFrom(h: History, index: nat, command: Command, prefix: Log, t: nat) {
    CommittedBy(h, prefix, t) && 1 <= index <= |prefix| && prefix[index - 1].command == command
  }

  // ---------- the cluster ----------

  ghost predicate Inv(c: Cluster, h: Record) {
    && |c.servers| == |h.terms|
    && (forall id {:trigger c.servers[id]} :: 0 <= id < |c.servers| ==> ServerOk(h, id, c.servers[id]))
    && (forall m {:trigger m in c.sent} :: m in c.sent ==> MessageOk(h, m))
    && (forall i {:trigger c.applied[i]} :: 0 <= i < |c.applied| ==> AppliedOk(h, c.applied[i].msg))
    && CastOk(c.servers, c.cast, h)
  }

  // Every vote recorded has been seen, and so has every vote held.
  ghost predicate CastOk(servers: seq<Server>, cast: set<CastVote>, h: History) {
    && (forall id {:trigger VoteOf(id, servers[id])} :: 0 <= id < |servers| ==> VoteOf(id, servers[id]) <= cast)
    && (forall v: nat, t: nat {:trigger Shown(cast, h, v, t)} :: (v, t) in h.ballots ==> Shown(cast, h, v, t))
  }

  ghost predicate Shown(cast: set<CastVote>, h: History, v: nat, t: nat) {
    (v, t) in h.ballots && CastVote(v, t, h.ballots[(v, t)].candidate) in cast
  }

  ghost function NoHistory(n: nat): Record {
    History(seq(n, _ => 0), map[], map[], map[], map[], map[], map[])
  }

  lemma InitialInv(c: Cluster)
    requires Initial(c)
    ensures Inv(c, NoHistory(|c.servers|))
  {
    var h := NoHistory(|c.servers|);
    forall id | 0 <= id < |c.servers| ensures ServerOk(h, id, c.servers[id]) {
      assert c.servers[id] == FirstBoot(|c.servers|);
    }
  }

  // ---------- what a step of another peer leaves alone ----------

  ghost predicate Untouched(h: History, h': History, p: nat) {
    && SameRole(h, h', p)
    && (forall t: nat {:trigger (p, t) in h'.ballots} :: (p, t) in h'.ballots ==> (p, t) in h.ballots)
  }

  ghost predicate SameRole(h: History, h': History, p: nat) {
    && p < |h.terms| == |h'.terms|
    && h'.terms[p] == h.terms[p]
    && (forall t: nat {:trigger Ack(h', p, t)} :: Ack(h', p, t) == Ack(h, p, t))
    && (forall t: nat {:trigger h'.leaders[t]} :: t in h'.leaders && h'.leaders[t] == p ==>
          t in h.leaders && t in h.logs && t in h'.logs && h'.logs[t] == h.logs[t])
  }

  ghost predicate OthersUntouched(h: History, h': History, id: nat) {
    forall p: nat {:trigger Untouched(h, h', p)} :: p < |h.terms| && p != id ==> Untouched(h, h', p)
  }

  // The history h' continues h, and only `id` had a part in it.
  ghost predicate Continues(h: History, h': History, id: nat) {
    Grows(h, h') && OthersUntouched(h, h', id)
  }

  lemma UntouchedTrans(a: History, b: History, c: History, id: nat)
    requires Grows(a, b) && Grows(b, c) && OthersUntouched(a, b, id) && OthersUntouched(b, c, id)
    ensures OthersUntouched(a, c, id)
  {
    forall p: nat | p < |a.terms| && p != id ensures Untouched(a, c, p) {
      assert Untouched(a, b, p) && Untouched(b, c, p);
      forall t: nat ensures Ack(c, p, t) == Ack(a, p, t) { assert Ack(c, p, t) == Ack(b, p, t); }
    }
  }

  lemma MatchGrows(h: History, h': History, s: Server)
    requires Grows(h, h') && |s.matchIndex| == |h.terms| && MatchOk(h, s)
    ensures MatchOk(h', s)
  {
    forall p | 0 <= p < |s.matchIndex|
      ensures s.matchIndex[p] <= Ack(h', p, s.currentTerm) || s.matchIndex[p] <= s.commitIndex
    {
      assert AckGrows(h, h', p, s.currentTerm);
    }
  }

  lemma MemoryGrows(h: History, h': History, id: nat, s: Server)
    requires Grows(h, h') && AcksOk(h) && SameRole(h, h', id) && MemoryOk(h, id, s)
    ensures MemoryOk(h', id, s)
  {
    RemembersGrows(h, h', id, s.log, s.currentTerm);
    var t := s.currentTerm;
    assert Ack(h', id, t) == Ack(h, id, t);
    if t in h.logs {
      assert h.logs[t] <= h'.logs[t];
      assert h'.logs[t][..Ack(h, id, t)] == h.logs[t][..Ack(h, id, t)];
    } else {
      assert Ack(h, id, t) == 0;
    }
  }

  lemma CandidacyGrows(h: History, h': History, id: nat, s: Server)
    requires Grows(h, h') && SameRole(h, h', id) && CandidateOk(h, id, s)
    ensures CandidateOk(h', id, s)
  {
    if s.status == Candidate {
      SubsetSize(VotersOf(h, id, s.currentTerm) - s.awaiting, VotersOf(h', id, s.currentTerm) - s.awaiting);
    }
  }

  lemma LeadershipGrows(h: History, h': History, id: nat, s: Server)
    requires Grows(h, h') && SameRole(h, h', id) && |s.matchIndex| == |h.terms| && LeadershipOk(h, id, s)
    ensures LeadershipOk(h', id, s)
  {
    if s.status == Leader {
      MatchGrows(h, h', s);
      assert h'.leaders[s.currentTerm] == id;
      assert Ack(h', id, s.currentTerm) == Ack(h, id, s.currentTerm);
    }
  }

  lemma ServerGrows(h: History, h': History, id: nat, s: Server)
    requires Grows(h, h') && AcksOk(h) && Untouched(h, h', id) && ServerOk(h, id, s)
    ensures ServerOk(h', id, s)
  {
    TracedGrows(h, h', s.log);
    CandidacyGrows(h, h', id, s);
    LeadershipGrows(h, h', id, s);
    MemoryGrows(h, h', id, s);
    CommittedGrows(h, h', s.log[..s.commitIndex], s.currentTerm, s.currentTerm);
  }

  lemma CarriedGrows(h: History, h': History, args: AppendArgs)
    requires Grows(h, h') && CarriedOk(h, args)
    ensures CarriedOk(h', args) && h.logs[args.term] <= h'.logs[args.term]
  {
    var t := args.term;
    assert h.logs[t] <= h'.logs[t];
    assert h'.logs[t][..args.leaderCommit] == h.logs[t][..args.leaderCommit];
    CommittedGrows(h, h', h.logs[t][..args.leaderCommit], t, t);
  }

  lemma AppendArgsGrow(h: History, h': History, args: AppendArgs)
    requires Grows(h, h') && AppendArgsOk(h, args)
    ensures AppendArgsOk(h', args)
  {
    CarriedGrows(h, h', args);
  }

  lemma StrayArgsGrow(h: History, h': History, args: AppendArgs)
    requires Grows(h, h') && StrayArgsOk(h, args)
    ensures StrayArgsOk(h', args)
  {
    CarriedGrows(h, h', args);
  }

  lemma MessageGrows(h: History, h': History, m: Message)
    requires Grows(h, h') && MessageOk(h, m)
    ensures MessageOk(h', m)
  {
    match m
    case VoteCall(_, _) =>
    case VoteAnswer(_, _, _) =>
    case AppendCall(_, args) => AppendArgsGrow(h, h', args);
    case StrayCall(_, args) => StrayArgsGrow(h, h', args);
    case AppendAnswer(from, args, _) =>
      assert AckGrows(h, h', from, args.term);
    case InstallCall(_, args) =>
      CommittedGrows(h, h', args.prefix, args.term, args.term);
    case InstallAnswer(from, args, _) =>
      CommittedGrows(h, h', args.prefix, args.term, args.term);
      assert AckGrows(h, h', from, args.term);
  }

  lemma AppliedGrows(h: History, h': History, msg: ApplyMsg)
    requires Grows(h, h') && AppliedOk(h, msg)
    ensures AppliedOk(h', msg)
  {
    match msg
    case CommandMsg(index, command) =>
      var prefix, t :| AppliedFrom(h, index, command, prefix, t);
      CommittedGrows(h, h', prefix, t, t);
      assert AppliedFrom(h', index, command, prefix, t);
    case SnapshotMsg(prefix) =>
      var t :| CommittedBy(h, prefix, t);
      CommittedGrows(h, h', prefix, t, t);
  }

  // The only vote the history may have gained is the one the peer now holds.
  ghost predicate VoteGained(h: History, h': History, id: nat, s: Server) {
    forall v: nat, t: nat {:trigger (v, t) in h'.ballots} :: (v, t) in h'.ballots && (v, t) !in h.ballots ==>
      v == id && t == s.currentTerm && s.votedFor != NOBODY && h'.ballots[(v, t)].candidate == s.votedFor
  }

  lemma CastUpdate(c: Cluster, h: History, id: nat, s: Server, msgs: set<Message>, h': History)
    requires CastOk(c.servers, c.cast, h) && id < |c.servers| && Grows(h, h') && VoteGained(h, h', id, s)
    ensures CastOk(Update(c, id, s, msgs).servers, Update(c, id, s, msgs).cast, h')
  {
    var c' := Update(c, id, s, msgs);
    forall v: nat, t: nat | (v, t) in h'.ballots ensures Shown(c'.cast, h', v, t) {
      if (v, t) in h.ballots { assert Shown(c.cast, h, v, t); }
    }
    forall p | 0 <= p < |c'.servers| ensures VoteOf(p, c'.servers[p]) <= c'.cast {
      if p != id { assert VoteOf(p, c.servers[p]) <= c.cast; }
    }
  }

  // One peer, the messages it sent and the history moved on; everything else follows.
  lemma InvUpdate(c: Cluster, h: Record, id: nat, s: Server, msgs: set<Message>, h': Record)
    requires Inv(c, h) && id < |c.servers| && Continues(h, h', id)
    requires ServerOk(h', id, s) && VoteGained(h, h', id, s)
    requires forall m :: m in msgs ==> MessageOk(h', m)
    ensures Inv(Update(c, id, s, msgs), h')
  {
    var c' := Update(c, id, s, msgs);
    forall p | 0 <= p < |c'.servers| ensures ServerOk(h', p, c'.servers[p]) {
      if p != id {
        assert ServerOk(h, p, c.servers[p]);
        assert Untouched(h, h', p);
        ServerGrows(h, h', p, c.servers[p]);
      }
    }
    forall m | m in c'.sent ensures MessageOk(h', m) {
      if m in c.sent { MessageGrows(h, h', m); }
    }
    forall i | 0 <= i < |c'.applied| ensures AppliedOk(h', c'.applied[i].msg) {
      AppliedGrows(h, h', c.applied[i].msg);
    }
    CastUpdate(c, h, id, s, msgs, h');
  }
}
