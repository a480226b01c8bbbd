/**
  Each kind of step keeps the invariant: the history it belongs to is extended by what the step decided.
 */
module RaftSteps {
  import opened Sets
  import opened RaftTypes
  import opened RaftHandlers
  import opened RaftCluster
  import opened RaftHistory
  import opened RaftInvariant

  // ---------- each growth of the history concerns one peer ----------

  lemma ContinuesTrans(a: History, b: History, c: History, id: nat)
    requires Continues(a, b, id) && Continues(b, c, id)
    ensures Continues(a, c, id)
  {
    GrowsTransitive(a, b, c);
    UntouchedTrans(a, b, c, id);
  }

  lemma SameHistory(h: Record, id: nat)
    ensures Continues(h, h, id)
  {
    forall p: nat, t: nat | p < |h.terms| ensures AckGrows(h, h, p, t) { }
    forall p: nat | p < |h.terms| && p != id ensures Untouched(h, h, p) { }
  }

  lemma EnterContinues(h: Record, id: nat, t: nat) returns (h': Record)
    requires id < |h.terms| && h.terms[id] <= t
    ensures h' == Enter(h, id, t) && Continues(h, h', id)
  {
    EnterOk(h, id, t);
    h' := Enter(h, id, t);
    forall p: nat | p < |h.terms| && p != id ensures Untouched(h, h', p) {
      forall t: nat ensures Ack(h', p, t) == Ack(h, p, t) { }
    }
  }

  lemma CampaignContinues(h: Record, c: nat, t: nat, log: Log) returns (h': Record)
    requires c < |h.terms| && h.terms[c] == t >= 1 && (c, t) !in h.campaigns
    requires Traced(h, log) && TermsUpTo(log, t as int - 1)
    ensures h' == Campaign(h, c, t, log) && Continues(h, h', c) && Untouched(h, h', c)
  {
    CampaignOk(h, c, t, log);
    h' := Campaign(h, c, t, log);
    forall p: nat | p < |h.terms| ensures Untouched(h, h', p) {
      forall t: nat ensures Ack(h', p, t) == Ack(h, p, t) { }
    }
  }

  lemma VoteContinues(h: Record, v: nat, t: nat, c: nat, log: Log) returns (h': Record)
    requires v < |h.terms| && h.terms[v] == t && (v, t) !in h.ballots
    requires (c, t) in h.campaigns && AtLeast(h.campaigns[(c, t)], log)
    requires Traced(h, log) && Remembers(h, v, log, t)
    ensures h' == Vote(h, v, t, c, log) && Continues(h, h', v) && SameRole(h, h', v)
  {
    VoteOk(h, v, t, c, log);
    h' := Vote(h, v, t, c, log);
    forall p: nat | p < |h.terms| ensures SameRole(h, h', p) {
      forall t: nat ensures Ack(h', p, t) == Ack(h, p, t) { }
    }
    forall p: nat | p < |h.terms| && p != v ensures Untouched(h, h', p) { assert SameRole(h, h', p); }
  }

  lemma StoreContinues(h: Record, v: nat, t: nat, k: nat) returns (h': Record)
    requires v < |h.terms| && h.terms[v] == t && t in h.logs && k <= |h.logs[t]|
    ensures h' == Store(h, v, t, k) && Continues(h, h', v) && Ack(h', v, t) >= k
  {
    StoreOk(h, v, t, k);
    h' := Store(h, v, t, k);
    StoreUntouched(h, v, t, k);
  }

  lemma StoreUntouched(h: History, v: nat, t: nat, k: nat)
    requires LeadersOk(h)
    ensures OthersUntouched(h, Store(h, v, t, k), v)
  {
    var h' := Store(h, v, t, k);
    forall p: nat | p < |h.terms| && p != v ensures Untouched(h, h', p) {
      forall u: nat ensures Ack(h', p, u) == Ack(h, p, u) { }
    }
  }

  lemma ElectContinues(h: Record, c: nat, t: nat) returns (h': Record)
    requires (c, t) in h.campaigns && t !in h.leaders
    requires IsQuorum(VotersOf(h, c, t), |h.terms|)
    ensures h' == Elect(h, c, t) && Continues(h, h', c)
  {
    ElectOk(h, c, t);
    h' := Elect(h, c, t);
    ElectUntouched(h, c, t);
  }

  lemma ElectUntouched(h: History, c: nat, t: nat)
    requires LeadersOk(h) && (c, t) in h.campaigns && t !in h.leaders
    ensures OthersUntouched(h, Elect(h, c, t), c)
  {
    var h' := Elect(h, c, t);
    forall p: nat | p < |h.terms| && p != c ensures Untouched(h, h', p) {
      forall u: nat ensures Ack(h', p, u) == Ack(h, p, u) { }
    }
  }

  lemma ExtendContinues(h: Record, t: nat, e: Entry) returns (h': Record)
    requires t in h.logs && t in h.leaders && e.term == t
    ensures h' == Extend(h, t, e) && Continues(h, h', h.leaders[t])
  {
    ExtendOk(h, t, e);
    h' := Extend(h, t, e);
    ExtendUntouched(h, t, e);
  }

  lemma ExtendUntouched(h: History, t: nat, e: Entry)
    requires LeadersOk(h) && t in h.logs && t in h.leaders
    ensures OthersUntouched(h, Extend(h, t, e), h.leaders[t])
  {
    var h' := Extend(h, t, e);
    forall p: nat | p < |h.terms| && p != h.leaders[t] ensures Untouched(h, h', p) {
      forall u: nat ensures Ack(h', p, u) == Ack(h, p, u) { }
    }
  }

  // ---------- entering a term ----------

  lemma RemembersNewTerm(h: History, id: nat, s: Server, t: nat)
    requires AcksOk(h) && LogOk(h, id, s) && MemoryOk(h, id, s) && s.currentTerm < t
    ensures Remembers(h, id, s.log, t)
  {
    forall u: nat, n: nat | u < t && 1 <= n <= Ack(h, id, u) && Open(h, u, n) ensures h.logs[u][..n] <= s.log {
      assert (id, u) in h.acks;
      if u == s.currentTerm {
        assert h.logs[u][..n] <= h.logs[u][..Ack(h, id, u)];
      }
    }
  }

  lemma EnteredServer(h: Record, h': History, id: nat, s: Server, t: nat)
    requires ServerOk(h, id, s) && t > h.terms[id]
    requires h' == Enter(h, id, t) && Grows(h, h')
    ensures ServerOk(h', id, StepDown(s, t))
  {
    TracedGrows(h, h', s.log);
    RemembersNewTerm(h, id, s, t);
    RemembersGrows(h, h', id, s.log, t);
    CommittedGrows(h, h', s.log[..s.commitIndex], s.currentTerm, t);
    assert Ack(h', id, t) == 0;
    assert (id, t) in h.ballots ==> BallotOk(h, id, t);
  }

  // A change to one peer that decides nothing new.
  lemma LocalInv(c: Cluster, h: Record, id: nat, s: Server, msgs: set<Message>)
    requires Inv(c, h) && id < |c.servers| && ServerOk(h, id, s)
    requires forall m :: m in msgs ==> MessageOk(h, m)
    ensures Inv(Update(c, id, s, msgs), h)
  {
    SameHistory(h, id);
    InvUpdate(c, h, id, s, msgs, h);
  }

  lemma StepDownInv(c: Cluster, h: Record, id: nat, t: nat) returns (h': Record)
    requires Inv(c, h) && id < |c.servers|
    ensures Inv(Update(c, id, StepDown(c.servers[id], t), {}), h') && Grows(h, h')
    ensures t > c.servers[id].currentTerm ==> h' == Enter(h, id, t)
  {
    var s := c.servers[id];
    if t > s.currentTerm {
      h' := EnterContinues(h, id, t);
      EnteredServer(h, h', id, s, t);
      InvUpdate(c, h, id, StepDown(s, t), {}, h');
    } else {
      h' := h;
      SameHistory(h, id);
      assert Update(c, id, StepDown(s, t), {}) == c;
    }
  }

  // ---------- elections ----------

  lemma VotedServer(h: History, h': History, id: nat, s: Server, c: nat)
    requires AcksOk(h) && ServerOk(h, id, s)
    requires h' == Vote(h, id, s.currentTerm, c, s.log) && Grows(h, h') && SameRole(h, h', id)
    ensures ServerOk(h', id, s.(votedFor := c))
  {
    TracedGrows(h, h', s.log);
    CandidacyGrows(h, h', id, s);
    LeadershipGrows(h, h', id, s);
    MemoryGrows(h, h', id, s);
    CommittedGrows(h, h', s.log[..s.commitIndex], s.currentTerm, s.currentTerm);
    assert MatchOk(h', s) ==> MatchOk(h', s.(votedFor := c));
  }

  lemma VoteInv(c: Cluster, h: Record, id: nat, candidate: nat) returns (h': Record)
    requires Inv(c, h) && id < |c.servers| && (id, c.servers[id].currentTerm) !in h.ballots
    requires var s := c.servers[id];
             (candidate, s.currentTerm) in h.campaigns && AtLeast(h.campaigns[(candidate, s.currentTerm)], s.log)
    ensures var s := c.servers[id];
            Inv(Update(c, id, s.(votedFor := candidate), {}), h') && h' == Vote(h, id, s.currentTerm, candidate, s.log)
    ensures Grows(h, h')
  {
    var s := c.servers[id];
    h' := VoteContinues(h, id, s.currentTerm, candidate, s.log);
    VotedServer(h, h', id, s, candidate);
    InvUpdate(c, h, id, s.(votedFor := candidate), {}, h');
  }

  lemma CampaignInv(c: Cluster, h: Record, id: nat) returns (h': Record)
    requires Inv(c, h) && id < |c.servers|
    requires var s := c.servers[id];
             s.currentTerm >= 1 && (id, s.currentTerm) !in h.campaigns && TermsUpTo(s.log, s.currentTerm as int - 1)
    ensures Inv(c, h') && h' == Campaign(h, id, c.servers[id].currentTerm, c.servers[id].log) && Grows(h, h')
  {
    var s := c.servers[id];
    h' := CampaignContinues(h, id, s.currentTerm, s.log);
    ServerGrows(h, h', id, s);
    InvUpdate(c, h, id, s, {}, h');
    assert Update(c, id, s, {}) == c;
  }

  lemma FreshCampaign(h: Record, id: nat, s: Server, t: nat)
    requires LogOk(h, id, s) && t == s.currentTerm + 1
    ensures (id, t) !in h.campaigns && (id, t) !in h.ballots && (t in h.leaders ==> h.leaders[t] != id)
    ensures TermsUpTo(s.log, t as int - 1)
  {
    assert (id, t) in h.ballots ==> BallotOk(h, id, t);
    assert (id, t) in h.campaigns ==> GoodCampaign(h, id, t);
    assert t in h.leaders ==> LeaderOk(h, t);
  }

  // Having voted for itself, a peer is a candidate with one vote.
  lemma CandidateInv(c: Cluster, h: Record, id: nat, awaiting: set<nat>, msgs: set<Message>)
    requires Inv(c, h) && id < |c.servers| && id !in awaiting
    requires var s := c.servers[id];
             && s.status == Follower && s.votedFor == id
             && (id, s.currentTerm) in h.campaigns && h.campaigns[(id, s.currentTerm)] == s.log
             && (s.currentTerm in h.leaders ==> h.leaders[s.currentTerm] != id)
    requires forall m :: m in msgs ==> MessageOk(h, m)
    ensures Inv(Update(c, id, c.servers[id].(status := Candidate, votes := 1, awaiting := awaiting), msgs), h)
  {
    var s := c.servers[id];
    var supporters := VotersOf(h, id, s.currentTerm) - awaiting;
    assert id in supporters;
    SubsetSize({id}, supporters);
    LocalInv(c, h, id, s.(status := Candidate, votes := 1, awaiting := awaiting), msgs);
  }

  // A peer fresh in its term starts a campaign and votes for itself.
  lemma SelfVoteInv(c: Cluster, h: Record, id: nat) returns (h': Record)
    requires Inv(c, h) && id < |c.servers|
    requires var s := c.servers[id];
             && s.currentTerm >= 1 && (id, s.currentTerm) !in h.ballots && (id, s.currentTerm) !in h.campaigns
             && TermsUpTo(s.log, s.currentTerm as int - 1)
    ensures var s := c.servers[id];
            && Inv(Update(c, id, s.(votedFor := id), {}), h') && Grows(h, h') && h'.leaders == h.leaders
            && (id, s.currentTerm) in h'.campaigns && h'.campaigns[(id, s.currentTerm)] == s.log
  {
    var h1 := CampaignInv(c, h, id);
    h' := VoteInv(c, h1, id, id);
    GrowsTransitive(h, h1, h');
  }

  // It stands for election.
  lemma StandInv(c: Cluster, h: Record, id: nat, awaiting: set<nat>, msgs: set<Message>) returns (h': Record)
    requires Inv(c, h) && id < |c.servers| && id !in awaiting
    requires var s := c.servers[id];
             && s.status == Follower && s.currentTerm >= 1 && (id, s.currentTerm) !in h.ballots
             && (id, s.currentTerm) !in h.campaigns && TermsUpTo(s.log, s.currentTerm as int - 1)
             && (s.currentTerm in h.leaders ==> h.leaders[s.currentTerm] != id)
    requires forall m :: m in msgs ==> m.VoteCall? && m.voteArgs == ElectionArgs(c.servers[id], id)
    ensures Inv(Update(c, id, c.servers[id].(votedFor := id, status := Candidate, votes := 1, awaiting := awaiting),
            msgs), h')
    ensures Grows(h, h')
  {
    var s1 := c.servers[id].(votedFor := id);
    var s2 := s1.(status := Candidate, votes := 1, awaiting := awaiting);
    h' := SelfVoteInv(c, h, id);
    CandidateInv(Update(c, id, s1, {}), h', id, awaiting, msgs);
    UpdateTwice(c, id, s1, {}, s2, msgs);
  }

  lemma UpdateTwice(c: Cluster, id: nat, s: Server, msgs: set<Message>, s': Server, msgs': set<Message>)
    requires id < |c.servers| && VoteOf(id, s) <= c.cast + VoteOf(id, s')
    ensures Update(Update(c, id, s, msgs), id, s', msgs') == Update(c, id, s', msgs + msgs')
    ensures {} + msgs' == msgs'
  {
  }

  lemma TimeoutInv(c: Cluster, h: Record, id: nat, msgs: set<Message>) returns (h': Record)
    requires Inv(c, h) && id < |c.servers|
    requires var s' := StartElection(c.servers[id], id, |c.servers|);
             forall m :: m in msgs ==> m.VoteCall? && m.voteArgs == ElectionArgs(s', id)
    ensures Inv(Update(c, id, StartElection(c.servers[id], id, |c.servers|), msgs), h') && Grows(h, h')
  {
    var s := c.servers[id];
    var s1 := StepDown(s, s.currentTerm + 1);
    var s' := StartElection(s, id, |c.servers|);
    FreshCampaign(h, id, s, s1.currentTerm);
    var h1 := StepDownInv(c, h, id, s1.currentTerm);
    h' := StandInv(Update(c, id, s1, {}), h1, id, s'.awaiting, msgs);
    GrowsTransitive(h, h1, h');
    UpdateTwice(c, id, s1, {}, s', msgs);
  }

  // A vote given by a peer that holds none: its first in the term, or the same again after it was forgotten.
  lemma NewVoteInv(c: Cluster, h: Record, id: nat, candidate: nat, s': Server) returns (h': Record)
    requires Inv(c, h) && id < |c.servers| && s' == c.servers[id].(votedFor := candidate)
             && OneVote(Update(c, id, s', {}))
    requires var s := c.servers[id];
             (candidate, s.currentTerm) in h.campaigns && AtLeast(h.campaigns[(candidate, s.currentTerm)], s.log)
    ensures Inv(Update(c, id, s', {}), h') && Grows(h, h')
    ensures (id, s'.currentTerm) in h'.ballots && h'.ballots[(id, s'.currentTerm)].candidate == candidate
  {
    var s := c.servers[id];
    if (id, s.currentTerm) in h.ballots {
      assert Shown(c.cast, h, id, s.currentTerm);
      assert CastVote(id, s.currentTerm, candidate) in Update(c, id, s', {}).cast;
      VotedAgain(h, id, s, candidate);
      LocalInv(c, h, id, s', {});
      SameHistory(h, id);
      h' := h;
    } else {
      h' := VoteInv(c, h, id, candidate);
    }
  }

  lemma VotedAgain(h: History, id: nat, s: Server, candidate: nat)
    requires ServerOk(h, id, s)
    requires (id, s.currentTerm) in h.ballots && h.ballots[(id, s.currentTerm)].candidate == candidate
    ensures ServerOk(h, id, s.(votedFor := candidate))
  {
    assert MatchOk(h, s) ==> MatchOk(h, s.(votedFor := candidate));
  }

  lemma GrantInv(c: Cluster, h: Record, id: nat, args: VoteArgs) returns (h': Record)
    requires Inv(c, h) && id < |c.servers| && MessageOk(h, VoteCall(id, args)) && args.term == c.servers[id].currentTerm
    requires OneVote(Update(c, id, RequestVote(c.servers[id], args).0, {}))
    ensures var (s', reply) := RequestVote(c.servers[id], args);
            Inv(Update(c, id, s', {VoteAnswer(id, args, reply)}), h')
    ensures Grows(h, h')
  {
    var s := c.servers[id];
    var (s', reply) := RequestVote(s, args);
    if s.votedFor == NOBODY && UpToDate(args.lastLogIndex, args.lastLogTerm, s.log) {
      h' := NewVoteInv(c, h, id, args.candidate, s');
      AnswerInv(Update(c, id, s', {}), h', id, VoteAnswer(id, args, reply));
      UpdateTwice(c, id, s', {}, s', {VoteAnswer(id, args, reply)});
    } else {
      SameHistory(h, id);
      h' := h;
      AnswerInv(c, h, id, VoteAnswer(id, args, reply));
    }
  }

  lemma AnswerInv(c: Cluster, h: Record, id: nat, m: Message)
    requires Inv(c, h) && id < |c.servers| && MessageOk(h, m)
    ensures Inv(Update(c, id, c.servers[id], {m}), h)
  {
    LocalInv(c, h, id, c.servers[id], {m});
  }

  lemma StepDownThenVote(s: Server, s1: Server, args: VoteArgs)
    requires args.term >= s.currentTerm && s1 == StepDown(s, args.term)
    ensures s1.currentTerm == args.term && RequestVote(s1, args) == RequestVote(s, args)
  {
  }

  lemma ReceiveVoteCallInv(c: Cluster, h: Record, id: nat, args: VoteArgs) returns (h': Record)
    requires Inv(c, h) && id < |c.servers| && MessageOk(h, VoteCall(id, args))
    requires OneVote(Update(c, id, RequestVote(c.servers[id], args).0, {}))
    ensures var (s', reply) := RequestVote(c.servers[id], args);
            Inv(Update(c, id, s', {VoteAnswer(id, args, reply)}), h')
    ensures Grows(h, h')
  {
    var s := c.servers[id];
    var (s', reply) := RequestVote(s, args);
    if args.term < s.currentTerm {
      SameHistory(h, id);
      h' := h;
      AnswerInv(c, h, id, VoteAnswer(id, args, reply));
    } else {
      var s1 := StepDown(s, args.term);
      StepDownThenVote(s, s1, args);
      var h1 := StepDownInv(c, h, id, args.term);
      MessageGrows(h, h1, VoteCall(id, args));
      UpdateTwice(c, id, s1, {}, s', {});
      h' := GrantInv(Update(c, id, s1, {}), h1, id, args);
      GrowsTransitive(h, h1, h');
      UpdateTwice(c, id, s1, {}, s', {VoteAnswer(id, args, reply)});
    }
  }

  // Counting one more supporter.
  lemma CountedVote(h: History, id: nat, s: Server, from: nat)
    requires ServerOk(h, id, s) && s.status == Candidate && from in s.awaiting
    requires from in VotersOf(h, id, s.currentTerm)
    ensures ServerOk(h, id, s.(awaiting := s.awaiting - {from}, votes := s.votes + 1))
  {
    OneSupporterMore(VotersOf(h, id, s.currentTerm), s.awaiting, from);
  }

  lemma OneSupporterMore(voters: set<nat>, awaiting: set<nat>, from: nat)
    requires from in voters && from in awaiting
    ensures |voters - (awaiting - {from})| == |voters - awaiting| + 1
  {
    assert voters - (awaiting - {from}) == (voters - awaiting) + {from};
  }

  lemma HeardNo(h: History, id: nat, s: Server, from: nat)
    requires ServerOk(h, id, s) && s.status == Candidate
    ensures ServerOk(h, id, s.(awaiting := s.awaiting - {from}))
  {
    var voters := VotersOf(h, id, s.currentTerm);
    SubsetSize(voters - s.awaiting, voters - (s.awaiting - {from}));
  }

  lemma HeardNoInv(c: Cluster, h: Record, id: nat, from: nat, s': Server) returns (h': Record)
    requires Inv(c, h) && id < |c.servers| && c.servers[id].status == Candidate
    requires s' == c.servers[id].(awaiting := c.servers[id].awaiting - {from})
    ensures Inv(Update(c, id, s', {}), h') && Grows(h, h')
  {
    HeardNo(h, id, c.servers[id], from);
    LocalInv(c, h, id, s', {});
    SameHistory(h, id);
    h' := h;
  }

  // A second majority in the same term would share a voter with the first.
  lemma MajorityWon(h: Record, id: nat, s: Server)
    requires CandidateOk(h, id, s) && s.status == Candidate && s.votes > |h.terms| / 2
    ensures IsQuorum(VotersOf(h, id, s.currentTerm), |h.terms|) && s.currentTerm !in h.leaders
  {
    var t := s.currentTerm;
    SubsetSize(VotersOf(h, id, t) - s.awaiting, VotersOf(h, id, t));
    if t in h.leaders {
      assert LeaderOk(h, t);
      var v := QuorumsMeet(VotersOf(h, id, t), VotersOf(h, h.leaders[t], t), |h.terms|);
      assert false;
    }
  }

  lemma ElectedServer(h: Record, h': History, id: nat, s: Server)
    requires ServerOk(h, id, s) && s.status == Candidate && s.currentTerm !in h.leaders
    requires h' == Store(Elect(h, id, s.currentTerm), id, s.currentTerm, |s.log|) && Grows(h, h')
    ensures ServerOk(h', id, BecomeLeader(s, |h.terms|))
  {
    TracedGrows(h, h', s.log);
    ElectedMemory(h, h', id, s);
    CommittedGrows(h, h', s.log[..s.commitIndex], s.currentTerm, s.currentTerm);
  }

  lemma ElectedMemory(h: History, h': History, id: nat, s: Server)
    requires AcksOk(h) && LeadersOk(h) && MemoryOk(h, id, s) && id < |h.terms| && s.currentTerm !in h.leaders
    requires (id, s.currentTerm) in h.campaigns && h.campaigns[(id, s.currentTerm)] == s.log
    requires h' == Store(Elect(h, id, s.currentTerm), id, s.currentTerm, |s.log|) && Grows(h, h')
    ensures MemoryOk(h', id, s) && Ack(h', id, s.currentTerm) == |s.log|
  {
    forall u: nat | u < s.currentTerm ensures Ack(h', id, u) == Ack(h, id, u) { }
    RemembersGrows(h, h', id, s.log, s.currentTerm);
    assert (id, s.currentTerm) !in h.acks;
  }

  lemma ElectInv(c: Cluster, h: Record, id: nat) returns (h': Record)
    requires Inv(c, h) && id < |c.servers| && c.servers[id].status == Candidate && c.servers[id].votes > |c.servers| / 2
    ensures Inv(Update(c, id, BecomeLeader(c.servers[id], |c.servers|), {}), h') && Grows(h, h')
  {
    var s := c.servers[id];
    MajorityWon(h, id, s);
    var h1 := ElectContinues(h, id, s.currentTerm);
    h' := StoreContinues(h1, id, s.currentTerm, |s.log|);
    ContinuesTrans(h, h1, h', id);
    ElectedServer(h, h', id, s);
    InvUpdate(c, h, id, BecomeLeader(s, |c.servers|), {}, h');
  }

  lemma SupportedInv(c: Cluster, h: Record, id: nat, from: nat, s': Server) returns (h': Record)
    requires Inv(c, h) && id < |c.servers| && c.servers[id].status == Candidate && from in c.servers[id].awaiting
    requires from in VotersOf(h, id, c.servers[id].currentTerm)
    requires var s := c.servers[id].(awaiting := c.servers[id].awaiting - {from}, votes := c.servers[id].votes + 1);
             s' == if s.votes > |c.servers| / 2 then BecomeLeader(s, |c.servers|) else s
    ensures Inv(Update(c, id, s', {}), h') && Grows(h, h')
  {
    CountedVote(h, id, c.servers[id], from);
    var s := c.servers[id].(awaiting := c.servers[id].awaiting - {from}, votes := c.servers[id].votes + 1);
    LocalInv(c, h, id, s, {});
    if s.votes > |c.servers| / 2 {
      h' := ElectInv(Update(c, id, s, {}), h, id);
      UpdateTwice(c, id, s, {}, s', {});
    } else {
      SameHistory(h, id);
      h' := h;
    }
  }

  lemma ReceiveVoteAnswerInv(c: Cluster, h: Record, id: nat, from: nat, args: VoteArgs, reply: VoteReply)
      returns (h': Record)
    requires Inv(c, h) && id < |c.servers| && MessageOk(h, VoteAnswer(from, args, reply))
    requires args.candidate == id && from in c.servers[id].awaiting
    ensures Inv(Update(c, id, HandleVoteReply(c.servers[id], |c.servers|, from, args, reply), {}), h') && Grows(h, h')
  {
    var s := c.servers[id];
    var s' := HandleVoteReply(s, |c.servers|, from, args, reply);
    if s.currentTerm != args.term || s.status != Candidate {
      h' := StayInv(c, h, id, s');
    } else if reply.term > s.currentTerm {
      h' := StepDownInv(c, h, id, reply.term);
    } else if !reply.granted {
      h' := HeardNoInv(c, h, id, from, s');
    } else {
      h' := SupportedInv(c, h, id, from, s');
    }
  }

  lemma StayInv(c: Cluster, h: Record, id: nat, s: Server) returns (h': Record)
    requires Inv(c, h) && id < |c.servers| && s == c.servers[id]
    ensures Inv(Update(c, id, s, {}), h') && Grows(h, h')
  {
    h' := h;
    SameHistory(h, id);
    assert Update(c, id, s, {}) == c;
  }
}
