/**
  The steps that move log entries: client commands, AppendEntries, snapshots, applying and crashing.
 */
module RaftReplication {
  import opened Options
  import opened RaftTypes
  import opened RaftHandlers
  import opened RaftCluster
  import opened RaftHistory
  import opened RaftInvariant
  import opened RaftSteps

  // ---------- what is committed is in every later leader's log ----------

  lemma ChosenHeld(h: History, v: nat, n: nat, u: nat)
    requires LeadersOk(h) && Complete(h) && Chosen(h, v, n) && v <= u && u in h.logs
    ensures h.logs[v][..n] <= h.logs[u]
  {
    if v < u {
      ChosenIsOpen(h, v, n);
      LaterLeaderHolds(h, u, v, n);
    }
  }

  lemma CommittedHeld(h: History, prefix: Log, t: nat, u: nat)
    requires LeadersOk(h) && Complete(h) && CommittedBy(h, prefix, t) && t <= u && u in h.logs
    ensures prefix <= h.logs[u]
  {
    if prefix != [] {
      var v: nat, n: nat :| CommitWitness(h, prefix, t, v, n);
      ChosenHeld(h, v, n, u);
      PrefixTrans(prefix, h.logs[v][..n], h.logs[u]);
    }
  }

  lemma LeaderLog(h: History, t: nat)
    requires LeadersOk(h) && t in h.logs
    ensures Traced(h, h.logs[t]) && TermsUpTo(h.logs[t], t)
  {
    assert LeaderOk(h, t);
  }

  // ---------- client commands ----------

  lemma StartedServer(h: Record, h': Record, id: nat, s: Server, e: Entry)
    requires ServerOk(h, id, s) && s.status == Leader && e.term == s.currentTerm
    requires h' == Store(Extend(h, s.currentTerm, e), id, s.currentTerm, |s.log| + 1) && Grows(h, h')
    ensures ServerOk(h', id, s.(log := s.log + [e]))
  {
    var t := s.currentTerm;
    assert h'.logs[t] == s.log + [e];
    LeaderLog(h', t);
    StartedMemory(h, h', id, s, e);
    MatchGrows(h, h', s);
    StartedCommit(h, h', s, e);
  }

  lemma StartedCommit(h: History, h': History, s: Server, e: Entry)
    requires CommitOk(h, s) && Grows(h, h')
    ensures CommitOk(h', s.(log := s.log + [e]))
  {
    assert (s.log + [e])[..s.commitIndex] == s.log[..s.commitIndex];
    CommittedGrows(h, h', s.log[..s.commitIndex], s.currentTerm, s.currentTerm);
  }

  lemma StartedMemory(h: Record, h': Record, id: nat, s: Server, e: Entry)
    requires ServerOk(h, id, s) && s.status == Leader
    requires h' == Store(Extend(h, s.currentTerm, e), id, s.currentTerm, |s.log| + 1) && Grows(h, h')
    ensures MemoryOk(h', id, s.(log := s.log + [e])) && Ack(h', id, s.currentTerm) == |s.log| + 1
  {
    var t := s.currentTerm;
    forall u: nat | u < t ensures Ack(h', id, u) == Ack(h, id, u) { }
    RemembersGrows(h, h', id, s.log, t);
    RemembersLonger(h', id, s.log, s.log + [e], t);
  }

  lemma RemembersLonger(h: History, id: nat, a: Log, b: Log, t: nat)
    requires Remembers(h, id, a, t) && a <= b
    ensures Remembers(h, id, b, t)
  {
  }

  lemma StartInv(c: Cluster, h: Record, id: nat, command: Command) returns (h': Record)
    requires Inv(c, h) && id < |c.servers|
    ensures Inv(Update(c, id, Start(c.servers[id], command), {}), h') && Grows(h, h')
  {
    var s := c.servers[id];
    if s.status == Leader {
      h' := LeaderStartInv(c, h, id, Entry(s.currentTerm, command));
    } else {
      h' := StayInv(c, h, id, s);
    }
  }

  lemma LeaderStartInv(c: Cluster, h: Record, id: nat, e: Entry) returns (h': Record)
    requires Inv(c, h) && id < |c.servers| && c.servers[id].status == Leader && e.term == c.servers[id].currentTerm
    ensures Inv(Update(c, id, c.servers[id].(log := c.servers[id].log + [e]), {}), h') && Grows(h, h')
  {
    var s := c.servers[id];
    var h1 := ExtendContinues(h, s.currentTerm, e);
    h' := StoreContinues(h1, id, s.currentTerm, |s.log| + 1);
    ContinuesTrans(h, h1, h', id);
    StartedServer(h, h', id, s, e);
    InvUpdate(c, h, id, s.(log := s.log + [e]), {}, h');
  }

  // ---------- AppendEntries, sending ----------

  lemma HeartbeatInv(c: Cluster, h: Record, id: nat, peer: nat) returns (h': Record)
    requires Inv(c, h) && id < |c.servers|
    requires c.servers[id].base <= |c.servers[id].log|
    ensures var s := c.servers[id];
            Inv(Update(c, id, s,
                match SendAppend(s, id, peer) case Some(args) => {AppendCall(peer, args)} case None => {}), h')
    ensures Grows(h, h')
  {
    var s := c.servers[id];
    match SendAppend(s, id, peer)
    case Some(args) =>
      AppendSent(h, id, s, peer, args);
      AnswerInv(c, h, id, AppendCall(peer, args));
      SameHistory(h, id);
      h' := h;
    case None =>
      h' := StayInv(c, h, id, s);
  }

  lemma AppendSent(h: History, id: nat, s: Server, peer: nat, args: AppendArgs)
    requires LeadershipOk(h, id, s) && CommitOk(h, s) && s.base <= |s.log| && SendAppend(s, id, peer) == Some(args)
    ensures AppendArgsOk(h, args)
  {
    var prev := args.prevLogIndex;
    assert args.entries == s.log[prev..] && prev + |args.entries| == |s.log|;
    assert s.log[prev..|s.log|] == s.log[prev..];
  }

  lemma StrayHeartbeatInv(c: Cluster, h: Record, id: nat, peer: nat, dummy: Entry) returns (h': Record)
    requires Inv(c, h) && id < |c.servers|
    requires c.servers[id].base <= |c.servers[id].log| && IsDummy(c.servers[id], dummy)
    ensures var s := c.servers[id];
            Inv(Update(c, id, s,
                match SendStray(s, id, peer, dummy) case Some(args) => {StrayCall(peer, args)} case None => {}), h')
    ensures Grows(h, h')
  {
    var s := c.servers[id];
    match SendStray(s, id, peer, dummy)
    case Some(args) =>
      StraySent(h, id, s, peer, dummy, args);
      AnswerInv(c, h, id, StrayCall(peer, args));
      SameHistory(h, id);
      h' := h;
    case None =>
      h' := StayInv(c, h, id, s);
  }

  lemma StraySent(h: History, id: nat, s: Server, peer: nat, dummy: Entry, args: AppendArgs)
    requires LeadershipOk(h, id, s) && CommitOk(h, s) && s.base <= |s.log| && IsDummy(s, dummy)
    requires SendStray(s, id, peer, dummy) == Some(args)
    ensures StrayArgsOk(h, args)
  {
    forall k | 1 <= k < |args.entries| ensures args.entries[k] == s.log[args.prevLogIndex + k] { }
  }

  // ---------- AppendEntries, receiving ----------

  // Two logs have the same first k entries.
  predicate Agree(a: Log, b: Log, k: nat) {
    k <= |a| && k <= |b| && a[..k] == b[..k]
  }

  // Rewriting `log` to `log'` gives up nothing that `leader` has too.
  ghost predicate Keeps(log: Log, leader: Log, log': Log) {
    forall k: nat {:trigger Agree(log, leader, k)} :: Agree(log, leader, k) ==> Agree(log, log', k)
  }

  // A refusal or a success is decided by the previous entry: on success the logs agree that far.
  lemma MatchedPrev(h: History, s: Server, args: AppendArgs)
    requires LeadersOk(h) && Traced(h, s.log) && s.base <= |s.log|
    requires args.term in h.logs && 0 <= args.prevLogIndex <= |h.logs[args.term]|
    requires args.prevLogTerm == TermAt(h.logs[args.term], args.prevLogIndex)
    requires Agree(s.log, h.logs[args.term], s.base)
    requires MatchPrev(s, args).None?
    ensures Agree(s.log, h.logs[args.term], args.prevLogIndex)
  {
    var prev := args.prevLogIndex;
    if prev < s.base {
      AgreeLess(s.log, h.logs[args.term], s.base, prev);
    } else if prev > 0 {
      LeaderLog(h, args.term);
      SameTermSamePrefix(h, s.log, h.logs[args.term], prev);
    }
  }

  lemma AgreeLess(a: Log, b: Log, k: nat, j: nat)
    requires Agree(a, b, k) && j <= k
    ensures Agree(a, b, j)
  {
    assert a[..j] == a[..k][..j] && b[..j] == b[..k][..j];
  }

  // The truncate-or-append loop leaves either the log as it was or a prefix of the leader's log, holds
  // everything it was sent, and keeps whatever agreed before.
  lemma {:induction false} MergeFollows(h: History, log: Log, base: nat, leader: Log, next: nat, last: nat)
    requires Traced(h, log) && Traced(h, leader) && Agree(log, leader, base)
    requires 1 <= next <= last + 1 <= |leader| + 1 && Agree(log, leader, next - 1)
    ensures var log' := Merge(log, base, next, leader[next - 1..last]);
            && (log' == log || log' == leader[..last])
            && leader[..last] <= log'
            && Keeps(log, leader, log')
    decreases last + 1 - next
  {
    var entries := leader[next - 1..last];
    if next <= last {
      assert entries[1..] == leader[next..last];
      assert entries[0] == leader[next - 1];
      if next <= base {
        AgreeLess(log, leader, base, next);
        MergeFollows(h, log, base, leader, next + 1, last);
      } else if next > |log| {
        assert log + entries == leader[..last];
      } else if log[next - 1].term != entries[0].term {
        assert log[..next - 1] + entries == leader[..last];
        DisagreeAt(log, leader, next, last);
      } else {
        SameTermSamePrefix(h, log, leader, next);
        MergeFollows(h, log, base, leader, next + 1, last);
      }
    }
  }

  lemma DisagreeAt(log: Log, leader: Log, next: nat, last: nat)
    requires 1 <= next <= last <= |leader| && next <= |log| && log[next - 1] != leader[next - 1]
    ensures Keeps(log, leader, leader[..last])
  {
    forall k: nat | Agree(log, leader, k) ensures Agree(log, leader[..last], k) {
      AgreeAt(log, leader, k, next - 1);
      assert leader[..last][..k] == leader[..k];
    }
  }

  lemma AgreeAt(a: Log, b: Log, k: nat, i: nat)
    requires Agree(a, b, k)
    ensures i < k ==> a[i] == b[i]
  {
    assert i < k ==> a[i] == a[..k][i] && b[i] == b[..k][i];
  }

  // What the peer must not forget, it does not: everything of the kind is in the leader's log as well.
  lemma RewrittenMemory(h: Record, id: nat, log: Log, t: nat, log': Log)
    requires t in h.logs && Remembers(h, id, log, t) && Keeps(log, h.logs[t], log')
    ensures Remembers(h, id, log', t)
  {
    forall u: nat, n: nat | u < t && 1 <= n <= Ack(h, id, u) && Open(h, u, n) ensures h.logs[u][..n] <= log' {
      LaterLeaderHolds(h, t, u, n);
      KeptPrefix(log, h.logs[t], log', h.logs[u][..n]);
    }
  }

  lemma KeptPrefix(log: Log, leader: Log, log': Log, prefix: Log)
    requires prefix <= log && prefix <= leader && Keeps(log, leader, log')
    ensures prefix <= log'
  {
    var k := |prefix|;
    assert log[..k] == prefix == leader[..k];
    assert Agree(log, leader, k);
    assert Agree(log, log', k);
  }

  lemma StoredMemory(h: Record, h': History, id: nat, s: Server, log': Log, last: nat)
    requires MemoryOk(h, id, s) && id < |h.terms| && s.currentTerm in h.logs && last <= |h.logs[s.currentTerm]|
    requires h' == Store(h, id, s.currentTerm, last) && Grows(h, h')
    requires h.logs[s.currentTerm][..last] <= log' && Keeps(s.log, h.logs[s.currentTerm], log')
    ensures MemoryOk(h', id, s.(log := log'))
  {
    var t := s.currentTerm;
    RewrittenMemory(h, id, s.log, t, log');
    forall u: nat | u < t ensures Ack(h', id, u) == Ack(h, id, u) { }
    RemembersGrows(h, h', id, log', t);
    KeptPrefix(s.log, h.logs[t], log', h.logs[t][..Ack(h, id, t)]);
  }

  lemma KeptCommit(h: Record, s: Server, log': Log)
    requires CommitOk(h, s) && s.currentTerm in h.logs && Keeps(s.log, h.logs[s.currentTerm], log')
    ensures s.commitIndex <= |log'| && log'[..s.commitIndex] == s.log[..s.commitIndex]
    ensures Agree(s.log, h.logs[s.currentTerm], s.commitIndex)
  {
    CommittedHeld(h, s.log[..s.commitIndex], s.currentTerm, s.currentTerm);
    KeptPrefix(s.log, h.logs[s.currentTerm], log', s.log[..s.commitIndex]);
  }

  // The log of a peer rewritten by its leader, up to index `last` of the leader's log.
  ghost predicate Rewritten(h: History, s: Server, s': Server, last: nat) {
    && s'.currentTerm == s.currentTerm && s'.status == Follower
    && (s'.votedFor == s.votedFor || s'.votedFor == NOBODY)
    && s'.nextIndex == s.nextIndex && s'.matchIndex == s.matchIndex
    && s.currentTerm in h.logs && last <= |h.logs[s.currentTerm]|
    && (s'.log == s.log || s'.log <= h.logs[s.currentTerm])
    && h.logs[s.currentTerm][..last] <= s'.log
    && Keeps(s.log, h.logs[s.currentTerm], s'.log)
    && WellFormed(s')
    && CommittedBy(h, s'.log[..s'.commitIndex], s.currentTerm)
  }

  lemma RewrittenServer(h: Record, h': Record, id: nat, s: Server, s': Server, last: nat)
    requires ServerOk(h, id, s) && Rewritten(h, s, s', last)
    requires h' == Store(h, id, s.currentTerm, last) && Grows(h, h')
    ensures ServerOk(h', id, s')
  {
    RewrittenLog(h, id, s, s', last);
    TracedGrows(h, h', s'.log);
    StoredMemory(h, h', id, s, s'.log, last);
    CommittedGrows(h, h', s'.log[..s'.commitIndex], s.currentTerm, s.currentTerm);
  }

  lemma RewrittenLog(h: Record, id: nat, s: Server, s': Server, last: nat)
    requires LogOk(h, id, s) && Rewritten(h, s, s', last)
    ensures LogOk(h, id, s')
  {
    LeaderLog(h, s.currentTerm);
    if s'.log != s.log { TracedPrefix(h, s'.log, h.logs[s.currentTerm]); }
  }

  lemma RewrittenInv(c: Cluster, h: Record, id: nat, s': Server, last: nat, msgs: set<Message>) returns (h': Record)
    requires Inv(c, h) && id < |c.servers| && Rewritten(h, c.servers[id], s', last)
    requires var t := c.servers[id].currentTerm;
             forall m :: m in msgs ==>
               || (m.AppendAnswer? && m.from == id && m.appendArgs.term == t
                   && m.appendArgs.prevLogIndex + |m.appendArgs.entries| <= last)
               || (m.InstallAnswer? && m.from == id && InstallArgsOk(h, m.installArgs) && m.installArgs.term == t
                   && |m.installArgs.prefix| <= last)
    ensures Inv(Update(c, id, s', msgs), h') && Grows(h, h')
  {
    var s := c.servers[id];
    h' := StoreContinues(h, id, s.currentTerm, last);
    RewrittenServer(h, h', id, s, s', last);
    forall m | m in msgs ensures MessageOk(h', m) {
      if m.InstallAnswer? { CommittedGrows(h, h', m.installArgs.prefix, m.installArgs.term, m.installArgs.term); }
    }
    InvUpdate(c, h, id, s', msgs, h');
  }

  // The log after a call: as it was or the leader's, holding all the call covers and keeping all they share.
  ghost predicate MergedOk(s: Server, args: AppendArgs, leader: Log)
    requires args.prevLogIndex + |args.entries| >= 0
  {
    var log' := Merge(s.log, s.base, args.prevLogIndex + 1, args.entries);
    var last := args.prevLogIndex + |args.entries|;
    && last <= |leader| && (log' == s.log || log' == leader[..last]) && leader[..last] <= log'
    && Keeps(s.log, leader, log')
  }

  lemma AppendedLog(h: Record, s: Server, args: AppendArgs)
    requires Traced(h, s.log) && CommitOk(h, s) && AppendArgsOk(h, args) && args.term == s.currentTerm
    requires s.base <= s.commitIndex && MatchPrev(s, args).None?
    ensures MergedOk(s, args, h.logs[args.term])
  {
    var leader := h.logs[args.term];
    BaseAgrees(h, s);
    MatchedPrev(h, s, args);
    LeaderLog(h, args.term);
    MergeFollows(h, s.log, s.base, leader, args.prevLogIndex + 1, args.prevLogIndex + |args.entries|);
  }

  lemma LeaderTerm(h: History, t: nat)
    requires LeadersOk(h) && CampaignsOk(h) && t in h.logs
    ensures t >= 1
  {
    assert LeaderOk(h, t);
    assert GoodCampaign(h, h.leaders[t], t);
  }

  // When a call with no term for its previous entry is accepted.
  lemma StrayMatches(s: Server, args: AppendArgs)
    requires s.base <= |s.log| && args.prevLogTerm == -1 && MatchPrev(s, args).None?
    ensures args.prevLogIndex < s.base || (args.prevLogIndex == 0 && s.base == 0)
  {
  }

  // An entry with the dummy's term at the dummy's index is the leader's own.
  lemma FirstEntryAgrees(h: Record, log: Log, leader: Log, dummy: Entry)
    requires Traced(h, log) && Traced(h, leader) && log != [] && leader != [] && log[0].term == dummy.term
    requires dummy.term == 0 || dummy.term == leader[0].term
    ensures Agree(log, leader, 1)
  {
    assert TracedAt(h, log, 0);
    LeaderTerm(h, log[0].term);
    SameTermSamePrefix(h, log, leader, 1);
  }

  // Where a stray call is accepted and its dummy not taken.
  predicate DummySkipped(s: Server, args: AppendArgs) {
    args.prevLogIndex < s.base
        || (args.prevLogIndex == 0 && s.base == 0 && s.log != [] && args.entries != []
        && s.log[0].term == args.entries[0].term)
  }

  lemma StrayAccepted(s: Server, args: AppendArgs)
    requires s.base <= |s.log| && args.prevLogTerm == -1 && MatchPrev(s, args).None? && args.term == s.currentTerm
    requires !WouldTakeDummy(s, args)
    ensures DummySkipped(s, args)
  {
    StrayMatches(s, args);
  }

  // There the peer's log agrees with the leader's up to and including the dummy's index.
  lemma StrayAgrees(h: Record, s: Server, args: AppendArgs, leader: Log, next: nat)
    requires Traced(h, s.log) && Traced(h, leader) && s.base <= |s.log| && Agree(s.log, leader, s.base)
    requires next == args.prevLogIndex + 1 <= |leader| && args.entries != [] && DummySkipped(s, args)
    requires next > 0 ==> args.entries[0].term == 0 || args.entries[0].term == leader[next - 1].term
    ensures Agree(s.log, leader, next) && (next <= s.base || s.log[next - 1].term == args.entries[0].term)
  {
    if next <= s.base { AgreeLess(s.log, leader, s.base, next); }
        else { FirstEntryAgrees(h, s.log, leader, args.entries[0]); }
  }

  lemma SkipFirst(log: Log, base: nat, next: nat, entries: Log)
    requires entries != [] && (next <= base || (1 <= next <= |log| && log[next - 1].term == entries[0].term))
    ensures Merge(log, base, next, entries) == Merge(log, base, next + 1, entries[1..])
  {
  }

  lemma StrayMerged(h: Record, s: Server, args: AppendArgs, leader: Log, next: nat, last: nat)
    requires Traced(h, s.log) && Traced(h, leader) && Agree(s.log, leader, s.base)
    requires next == args.prevLogIndex + 1 && last == args.prevLogIndex + |args.entries| && args.entries != []
    requires last <= |leader| && args.entries[1..] == leader[next..last] && Agree(s.log, leader, next)
    requires next <= s.base || s.log[next - 1].term == args.entries[0].term
    ensures MergedOk(s, args, leader)
  {
    SkipFirst(s.log, s.base, next, args.entries);
    MergeFollows(h, s.log, s.base, leader, next + 1, last);
  }

  lemma StrayRest(args: AppendArgs, leader: Log, next: nat, last: nat)
    requires StrayShape(args, leader) && next == args.prevLogIndex + 1 && last == args.prevLogIndex + |args.entries|
    ensures args.entries[1..] == leader[next..last]
  {
    forall k | 0 <= k < |args.entries| - 1 ensures args.entries[1..][k] == leader[next..last][k] {
      assert args.entries[k + 1] == leader[args.prevLogIndex + (k + 1)];
    }
  }

  lemma StrayPlaced(h: Record, s: Server, args: AppendArgs, leader: Log, next: nat, last: nat)
    requires Traced(h, s.log) && Traced(h, leader) && s.base <= |s.log| && Agree(s.log, leader, s.base)
    requires StrayShape(args, leader) && DummySkipped(s, args)
    requires next == args.prevLogIndex + 1 && last == args.prevLogIndex + |args.entries|
    ensures MergedOk(s, args, leader)
  {
    StrayAgrees(h, s, args, leader, next);
    StrayRest(args, leader, next, last);
    StrayMerged(h, s, args, leader, next, last);
  }

  // What a peer has compacted is in the log of the leader it follows.
  lemma BaseAgrees(h: Record, s: Server)
    requires CommitOk(h, s) && s.currentTerm in h.logs && s.base <= s.commitIndex
    ensures Agree(s.log, h.logs[s.currentTerm], s.base)
  {
    KeptCommit(h, s, s.log);
    AgreeLess(s.log, h.logs[s.currentTerm], s.commitIndex, s.base);
  }

  lemma StrayLog(h: Record, s: Server, args: AppendArgs)
    requires Traced(h, s.log) && CommitOk(h, s) && StrayArgsOk(h, args) && args.term == s.currentTerm
    requires s.base <= s.commitIndex && MatchPrev(s, args).None? && !WouldTakeDummy(s, args)
    ensures MergedOk(s, args, h.logs[args.term])
  {
    BaseAgrees(h, s);
    LeaderLog(h, args.term);
    StrayAccepted(s, args);
    StrayPlaced(h, s, args, h.logs[args.term], args.prevLogIndex + 1, args.prevLogIndex + |args.entries|);
  }

  lemma AppendedCommit(h: Record, s: Server, args: AppendArgs, log': Log)
    requires CommitOk(h, s) && CarriedOk(h, args) && args.term == s.currentTerm
    requires h.logs[args.term][..args.prevLogIndex + |args.entries|] <= log' && Keeps(s.log, h.logs[args.term], log')
    ensures var k := FollowerCommit(s.commitIndex, args.leaderCommit, args.prevLogIndex + |args.entries|);
            s.commitIndex <= k <= |log'| && CommittedBy(h, log'[..k], s.currentTerm)
  {
    KeptCommit(h, s, log');
    if args.leaderCommit > s.commitIndex {
      assert log'[..args.leaderCommit] == h.logs[args.term][..args.leaderCommit];
    }
  }

  // A peer already in the term of the message.
  lemma AppendedRewritten(h: Record, id: nat, s: Server, args: AppendArgs, s': Server)
    requires LogOk(h, id, s) && CommitOk(h, s) && CarriedOk(h, args) && args.term == s.currentTerm
    requires s.status == Follower && MatchPrev(s, args).None? && s' == AppendEntries(s, args).0
    requires MergedOk(s, args, h.logs[args.term])
    ensures Rewritten(h, s, s', args.prevLogIndex + |args.entries|)
  {
    AppendedCommit(h, s, args, s'.log);
  }

  // A message from the leader of a term makes its receiver a follower in that term.
  lemma FollowInv(c: Cluster, h: Record, id: nat, t: nat) returns (h': Record)
    requires Inv(c, h) && id < |c.servers|
    ensures Inv(Update(c, id, StepDown(c.servers[id], t).(status := Follower), {}), h') && Grows(h, h')
  {
    var s1 := StepDown(c.servers[id], t);
    h' := StepDownInv(c, h, id, t);
    BecomeFollowerInv(Update(c, id, s1, {}), h', id);
    UpdateTwice(c, id, s1, {}, s1.(status := Follower), {});
  }

  // Stepping down shows no new vote.
  lemma SteppedVote(c: Cluster, h: Record, id: nat, t: nat)
    requires CastOk(c.servers, c.cast, h) && id < |c.servers|
    ensures VoteOf(id, StepDown(c.servers[id], t).(status := Follower)) <= c.cast
  {
    assert VoteOf(id, c.servers[id]) <= c.cast;
  }

  lemma BecomeFollowerInv(c: Cluster, h: Record, id: nat)
    requires Inv(c, h) && id < |c.servers|
    ensures Inv(Update(c, id, c.servers[id].(status := Follower), {}), h)
  {
    LocalInv(c, h, id, c.servers[id].(status := Follower), {});
  }

  // A call a leader made, or a stray one whose dummy this peer will not take.
  ghost predicate CallOk(h: History, s: Server, args: AppendArgs) {
    AppendArgsOk(h, args) || (StrayArgsOk(h, args) && !WouldTakeDummy(s, args))
  }

  lemma CallGrows(h: History, h': History, s: Server, s1: Server, args: AppendArgs)
    requires Grows(h, h') && CallOk(h, s, args)
    requires args.term >= s.currentTerm && s1 == StepDown(s, args.term).(status := Follower)
    ensures CallOk(h', s1, args)
  {
    if AppendArgsOk(h, args) { AppendArgsGrow(h, h', args); } else { StrayArgsGrow(h, h', args); }
  }

  lemma CalledLog(h: Record, id: nat, s: Server, args: AppendArgs, s': Server)
    requires LogOk(h, id, s) && CommitOk(h, s) && CallOk(h, s, args) && args.term == s.currentTerm
    requires s.status == Follower && MatchPrev(s, args).None? && s' == AppendEntries(s, args).0
    ensures Rewritten(h, s, s', args.prevLogIndex + |args.entries|)
  {
    if AppendArgsOk(h, args) { AppendedLog(h, s, args); } else { StrayLog(h, s, args); }
    AppendedRewritten(h, id, s, args, s');
  }

  lemma FollowerAppendInv(c: Cluster, h: Record, id: nat, args: AppendArgs, s': Server, reply: AppendReply)
      returns (h': Record)
    requires Inv(c, h) && id < |c.servers| && CallOk(h, c.servers[id], args)
    requires args.term == c.servers[id].currentTerm && c.servers[id].status == Follower
             && c.servers[id].base <= |c.servers[id].log|
    requires (s', reply) == AppendEntries(c.servers[id], args)
    ensures Inv(Update(c, id, s', {AppendAnswer(id, args, reply)}), h') && Grows(h, h')
  {
    if MatchPrev(c.servers[id], args).None? {
      h' := AcceptedAppendInv(c, h, id, args, s', reply);
    } else {
      SameHistory(h, id);
      h' := h;
      AnswerInv(c, h, id, AppendAnswer(id, args, reply));
    }
  }

  lemma AcceptedAppendInv(c: Cluster, h: Record, id: nat, args: AppendArgs, s': Server, reply: AppendReply)
      returns (h': Record)
    requires Inv(c, h) && id < |c.servers| && CallOk(h, c.servers[id], args)
    requires args.term == c.servers[id].currentTerm && c.servers[id].status == Follower
             && c.servers[id].base <= |c.servers[id].log|
    requires (s', reply) == AppendEntries(c.servers[id], args) && MatchPrev(c.servers[id], args).None?
    ensures Inv(Update(c, id, s', {AppendAnswer(id, args, reply)}), h') && Grows(h, h')
  {
    CalledLog(h, id, c.servers[id], args, s');
    h' := RewrittenInv(c, h, id, s', args.prevLogIndex + |args.entries|, {AppendAnswer(id, args, reply)});
  }

  lemma FollowThenAppend(s: Server, s1: Server, args: AppendArgs)
    requires s.base <= |s.log| && args.term >= s.currentTerm && s1 == StepDown(s, args.term).(status := Follower)
    ensures s1.currentTerm == args.term && s1.base == s.base && s1.log == s.log
    ensures AppendEntries(s1, args) == AppendEntries(s, args)
  {
  }

  lemma CurrentAppendInv(c: Cluster, h: Record, id: nat, args: AppendArgs, s': Server, reply: AppendReply)
      returns (h': Record)
    requires Inv(c, h) && id < |c.servers| && CallOk(h, c.servers[id], args)
             && c.servers[id].base <= |c.servers[id].log|
    requires args.term >= c.servers[id].currentTerm && (s', reply) == AppendEntries(c.servers[id], args)
    ensures Inv(Update(c, id, s', {AppendAnswer(id, args, reply)}), h') && Grows(h, h')
  {
    var s1 := StepDown(c.servers[id], args.term).(status := Follower);
    FollowThenAppend(c.servers[id], s1, args);
    var h1 := FollowInv(c, h, id, args.term);
    CallGrows(h, h1, c.servers[id], s1, args);
    SteppedVote(c, h, id, args.term);
    h' := FollowerAppendInv(Update(c, id, s1, {}), h1, id, args, s', reply);
    UpdateTwice(c, id, s1, {}, s', {AppendAnswer(id, args, reply)});
    GrowsTransitive(h, h1, h');
  }

  lemma ReceiveAppendCallInv(c: Cluster, h: Record, id: nat, args: AppendArgs, s': Server, reply: AppendReply)
      returns (h': Record)
    requires Inv(c, h) && id < |c.servers| && CallOk(h, c.servers[id], args)
             && c.servers[id].base <= |c.servers[id].log|
    requires (s', reply) == AppendEntries(c.servers[id], args)
    ensures Inv(Update(c, id, s', {AppendAnswer(id, args, reply)}), h') && Grows(h, h')
  {
    if args.term < c.servers[id].currentTerm {
      SameHistory(h, id);
      h' := h;
      AnswerInv(c, h, id, AppendAnswer(id, args, reply));
    } else {
      h' := CurrentAppendInv(c, h, id, args, s', reply);
    }
  }

  // ---------- AppendEntries, the leader hears back ----------

  // The peers the leader counts have all stored the entry.
  lemma {:induction false} HoldersStored(matchIndex: seq<int>, stored: set<nat>, me: nat, n: nat, k: nat)
    requires k <= |matchIndex|
    requires forall p {:trigger matchIndex[p]} :: 0 <= p < |matchIndex| && p != me && matchIndex[p] >= n ==> p in stored
    ensures Holders(matchIndex, me, n, k) <= |stored * Peers(k)|
  {
    if k > 0 {
      HoldersStored(matchIndex, stored, me, n, k - 1);
      OneMore(stored, k);
    }
  }

  lemma OneMore(stored: set<nat>, k: nat)
    requires k > 0
    ensures |stored * Peers(k)| == |stored * Peers(k - 1)| + if k - 1 in stored then 1 else 0
  {
    assert stored * Peers(k) == stored * Peers(k - 1) + if k - 1 in stored then {k - 1} else {};
  }

  lemma MajorityStored(h: History, id: nat, s: Server, n: nat)
    requires MatchOk(h, s) && |s.matchIndex| == |h.terms| && s.commitIndex < n <= |s.log|
    requires id < |h.terms| && Ack(h, id, s.currentTerm) == |s.log|
    requires 1 + Holders(s.matchIndex, id, n, |s.matchIndex|) > |s.matchIndex| / 2
    ensures IsQuorum(StoredBy(h, s.currentTerm, n), |h.terms|)
  {
    var stored := StoredBy(h, s.currentTerm, n);
    HoldersStored(s.matchIndex, stored - {id}, id, n, |s.matchIndex|);
    assert (stored - {id}) * Peers(|s.matchIndex|) == stored - {id};
    assert stored == (stored - {id}) + {id};
  }

  // The commit rule of section 5.4.2: only an entry of the leader's own term counts a majority.
  lemma {:induction false} LeaderCommitOk(h: History, id: nat, s: Server, n: int)
    requires LeadershipOk(h, id, s) && s.status == Leader && CommitOk(h, s)
    requires |s.matchIndex| == |h.terms| && id < |h.terms| && s.commitIndex <= n <= |s.log|
    ensures var k := LeaderCommit(s, id, n);
            s.commitIndex <= k <= |s.log| && CommittedBy(h, s.log[..k], s.currentTerm)
    decreases n - s.commitIndex
  {
    if n > s.commitIndex {
      if TermAt(s.log, n) == s.currentTerm && 1 + Holders(s.matchIndex, id, n, |s.matchIndex|) > |s.matchIndex| / 2 {
        MajorityStored(h, id, s, n);
        assert CommitWitness(h, s.log[..n], s.currentTerm, s.currentTerm, n);
      } else {
        LeaderCommitOk(h, id, s, n - 1);
      }
    }
  }

  // The leader's view of one peer moves up to what that peer has acknowledged.
  lemma MatchedServer(h: History, id: nat, s: Server, peer: nat, newMatch: int)
    requires ServerOk(h, id, s) && s.status == Leader && peer < |s.matchIndex|
             && newMatch <= Ack(h, peer, s.currentTerm)
    ensures ServerOk(h, id, UpdateMatchAndNext(s, peer, newMatch))
  {
  }

  lemma CommittedServer(h: History, id: nat, s: Server, k: int)
    requires ServerOk(h, id, s) && s.commitIndex <= k <= |s.log| && CommittedBy(h, s.log[..k], s.currentTerm)
    ensures ServerOk(h, id, s.(commitIndex := k))
  {
  }

  lemma AcknowledgedInv(c: Cluster, h: Record, id: nat, peer: nat, newMatch: int, s': Server) returns (h': Record)
    requires Inv(c, h) && id < |c.servers| && c.servers[id].status == Leader && peer < |c.servers|
    requires |c.servers[id].matchIndex| == |c.servers[id].nextIndex| == |c.servers|
    requires newMatch <= Ack(h, peer, c.servers[id].currentTerm)
    requires s' == UpdateMatchAndNext(c.servers[id], peer, newMatch)
    ensures Inv(Update(c, id, s', {}), h') && Grows(h, h')
  {
    MatchedServer(h, id, c.servers[id], peer, newMatch);
    LocalInv(c, h, id, s', {});
    SameHistory(h, id);
    h' := h;
  }

  lemma LeaderCommitInv(c: Cluster, h: Record, id: nat, s': Server) returns (h': Record)
    requires Inv(c, h) && id < |c.servers| && c.servers[id].status == Leader && 0 <= c.servers[id].commitIndex
    requires s' == c.servers[id].(commitIndex := LeaderCommit(c.servers[id], id, |c.servers[id].log|))
    ensures Inv(Update(c, id, s', {}), h') && Grows(h, h')
  {
    var s := c.servers[id];
    LeaderCommitOk(h, id, s, |s.log|);
    CommittedServer(h, id, s, s'.commitIndex);
    LocalInv(c, h, id, s', {});
    SameHistory(h, id);
    h' := h;
  }

  lemma BackedUpInv(c: Cluster, h: Record, id: nat, s': Server) returns (h': Record)
    requires Inv(c, h) && id < |c.servers| && |s'.nextIndex| == |c.servers[id].nextIndex|
    requires s' == c.servers[id].(nextIndex := s'.nextIndex)
    ensures Inv(Update(c, id, s', {}), h') && Grows(h, h')
  {
    LocalInv(c, h, id, s', {});
    SameHistory(h, id);
    h' := h;
  }

  lemma AppendSucceededInv(c: Cluster, h: Record, id: nat, peer: nat, last: int, s': Server) returns (h': Record)
    requires Inv(c, h) && id < |c.servers| && c.servers[id].status == Leader && peer < |c.servers|
             && WellFormed(c.servers[id])
    requires |c.servers[id].matchIndex| == |c.servers[id].nextIndex| == |c.servers|
    requires last <= Ack(h, peer, c.servers[id].currentTerm)
    requires var s1 := UpdateMatchAndNext(c.servers[id], peer, last);
             s' == s1.(commitIndex := LeaderCommit(s1, id, |s1.log|))
    ensures Inv(Update(c, id, s', {}), h') && Grows(h, h')
  {
    var s1 := UpdateMatchAndNext(c.servers[id], peer, last);
    var h1 := AcknowledgedInv(c, h, id, peer, last, s1);
    h' := LeaderCommitInv(Update(c, id, s1, {}), h1, id, s');
    GrowsTransitive(h, h1, h');
    UpdateTwice(c, id, s1, {}, s', {});
  }

  lemma ReceiveAppendAnswerInv(c: Cluster, h: Record, id: nat, from: nat, args: AppendArgs, reply: AppendReply,
      s': Server)
    returns (h': Record)
    requires Inv(c, h) && id < |c.servers| && from < |c.servers| && WellFormed(c.servers[id])
    requires |c.servers[id].matchIndex| == |c.servers[id].nextIndex| == |c.servers|
    requires reply.success ==> Ack(h, from, args.term) >= args.prevLogIndex + |args.entries|
    requires s' == HandleAppendReply(c.servers[id], id, from, args, reply)
    ensures Inv(Update(c, id, s', {}), h') && Grows(h, h')
  {
    var s := c.servers[id];
    if s.status != Leader || s.currentTerm != args.term {
      h' := StayInv(c, h, id, s');
    } else if reply.term > s.currentTerm {
      h' := StepDownInv(c, h, id, reply.term);
    } else if reply.success {
      h' := AppendSucceededInv(c, h, id, from, args.prevLogIndex + |args.entries|, s');
    } else {
      h' := BackedUpInv(c, h, id, s');
    }
  }

  // ---------- compaction ----------

  lemma CompactInv(c: Cluster, h: Record, id: nat, index: nat) returns (h': Record)
    requires Inv(c, h) && id < |c.servers| && index <= c.servers[id].commitIndex
    ensures Inv(Update(c, id, Snapshot(c.servers[id], index), {}), h') && Grows(h, h')
  {
    LocalInv(c, h, id, Snapshot(c.servers[id], index), {});
    SameHistory(h, id);
    h' := h;
  }

  lemma OfferSnapshotInv(c: Cluster, h: Record, id: nat, peer: nat) returns (h': Record)
    requires Inv(c, h) && id < |c.servers|
    requires c.servers[id].base <= |c.servers[id].log|
    ensures var s := c.servers[id];
            Inv(Update(c, id, s,
                match SendInstall(s, id, peer) case Some(args) => {InstallCall(peer, args)} case None => {}), h')
    ensures Grows(h, h')
  {
    var s := c.servers[id];
    match SendInstall(s, id, peer)
    case Some(args) =>
      SnapshotSent(h, id, s, peer, args);
      AnswerInv(c, h, id, InstallCall(peer, args));
      SameHistory(h, id);
      h' := h;
    case None =>
      h' := StayInv(c, h, id, s);
  }

  lemma CommittedPrefix(h: History, a: Log, b: Log, t: nat)
    requires CommittedBy(h, b, t) && a <= b
    ensures CommittedBy(h, a, t)
  {
    if a != [] {
      var u: nat, n: nat :| CommitWitness(h, b, t, u, n);
      assert CommitWitness(h, a, t, u, n);
    }
  }

  lemma SnapshotSent(h: History, id: nat, s: Server, peer: nat, args: InstallArgs)
    requires LeadershipOk(h, id, s) && CommitOk(h, s) && WellFormed(s) && SendInstall(s, id, peer) == Some(args)
    ensures InstallArgsOk(h, args)
  {
    CommittedPrefix(h, s.log[..s.base], s.log[..s.commitIndex], s.currentTerm);
  }

  // Installing a snapshot never gives up anything the leader has: where the entry at its last index is the
  // leader's, the log stays as it is, and otherwise nothing from that index on was the leader's.
  lemma InstalledLog(h: Record, s: Server, prefix: Log, leader: Log)
    requires Traced(h, s.log) && Traced(h, leader) && prefix <= leader && 1 <= |prefix|
    ensures var k := |prefix|;
            var log' := if k <= |s.log| && TermAt(s.log, k) == LastTerm(prefix) then prefix + s.log[k..] else prefix;
            && (log' == s.log || log' == prefix)
            && prefix <= log'
            && Keeps(s.log, leader, log')
  {
    var k := |prefix|;
    if k <= |s.log| && TermAt(s.log, k) == LastTerm(prefix) {
      SameTermSamePrefix(h, s.log, leader, k);
      assert s.log[..k] == prefix;
      assert prefix + s.log[k..] == s.log;
    } else {
      forall j: nat | Agree(s.log, leader, j) ensures Agree(s.log, prefix, j) {
        AgreeAt(s.log, leader, j, k - 1);
        assert prefix[..j] == leader[..j];
      }
    }
  }

  lemma InstalledCommit(h: Record, s: Server, prefix: Log, log': Log)
    requires CommitOk(h, s) && s.currentTerm in h.logs && CommittedBy(h, prefix, s.currentTerm)
    requires prefix <= log' && Keeps(s.log, h.logs[s.currentTerm], log')
    ensures var k := if s.commitIndex < |prefix| then |prefix| else s.commitIndex;
            s.commitIndex <= k <= |log'| && CommittedBy(h, log'[..k], s.currentTerm)
  {
    KeptCommit(h, s, log');
    assert log'[..|prefix|] == prefix;
  }

  lemma InstalledRewritten(h: Record, id: nat, s: Server, args: InstallArgs, s': Server)
    requires LogOk(h, id, s) && CommitOk(h, s) && InstallArgsOk(h, args) && args.term == s.currentTerm
    requires s.status == Follower && s' == InstallSnapshot(s, args).0
    ensures Rewritten(h, s, s', |args.prefix|)
  {
    var leader := h.logs[args.term];
    assert leader[..|args.prefix|] == args.prefix;
    LeaderLog(h, args.term);
    if |args.prefix| <= s.base {
      KeptCommit(h, s, s.log);
      AgreeLess(s.log, leader, s.commitIndex, |args.prefix|);
    } else {
      InstalledLog(h, s, args.prefix, leader);
      InstalledCommit(h, s, args.prefix, s'.log);
    }
  }

  lemma FollowerInstallInv(c: Cluster, h: Record, id: nat, args: InstallArgs, s': Server, reply: InstallReply)
      returns (h': Record)
    requires Inv(c, h) && id < |c.servers| && InstallArgsOk(h, args) && c.servers[id].base <= |c.servers[id].log|
    requires args.term == c.servers[id].currentTerm && c.servers[id].status == Follower
    requires s' == InstallSnapshot(c.servers[id], args).0
    ensures Inv(Update(c, id, s', {InstallAnswer(id, args, reply)}), h') && Grows(h, h')
  {
    InstalledRewritten(h, id, c.servers[id], args, s');
    h' := RewrittenInv(c, h, id, s', |args.prefix|, {InstallAnswer(id, args, reply)});
  }

  lemma FollowThenInstall(s: Server, s1: Server, args: InstallArgs)
    requires s.base <= |s.log| && args.term >= s.currentTerm
    requires s1 == StepDown(s, args.term).(status := Follower)
    ensures s1.currentTerm == args.term && s1.base == s.base && s1.log == s.log
    ensures InstallSnapshot(s1, args).0 == InstallSnapshot(s, args).0
  {
  }

  lemma CurrentInstallInv(c: Cluster, h: Record, id: nat, args: InstallArgs, s': Server, reply: InstallReply)
      returns (h': Record)
    requires Inv(c, h) && id < |c.servers| && InstallArgsOk(h, args) && c.servers[id].base <= |c.servers[id].log|
    requires args.term >= c.servers[id].currentTerm && s' == InstallSnapshot(c.servers[id], args).0
    ensures Inv(Update(c, id, s', {InstallAnswer(id, args, reply)}), h') && Grows(h, h')
  {
    var s1 := StepDown(c.servers[id], args.term).(status := Follower);
    FollowThenInstall(c.servers[id], s1, args);
    var h1 := FollowInv(c, h, id, args.term);
    SteppedVote(c, h, id, args.term);
    CommittedGrows(h, h1, args.prefix, args.term, args.term);
    h' := FollowerInstallInv(Update(c, id, s1, {}), h1, id, args, s', reply);
    UpdateTwice(c, id, s1, {}, s', {InstallAnswer(id, args, reply)});
    GrowsTransitive(h, h1, h');
  }

  lemma ReceiveInstallCallInv(c: Cluster, h: Record, id: nat, args: InstallArgs, s': Server, reply: InstallReply)
      returns (h': Record)
    requires Inv(c, h) && id < |c.servers| && InstallArgsOk(h, args) && c.servers[id].base <= |c.servers[id].log|
    requires (s', reply) == InstallSnapshot(c.servers[id], args)
    ensures Inv(Update(c, id, s', {InstallAnswer(id, args, reply)}), h') && Grows(h, h')
  {
    if args.term < c.servers[id].currentTerm {
      SameHistory(h, id);
      h' := h;
      AnswerInv(c, h, id, InstallAnswer(id, args, reply));
    } else {
      h' := CurrentInstallInv(c, h, id, args, s', reply);
    }
  }

  lemma ReceiveInstallAnswerInv(c: Cluster, h: Record, id: nat, from: nat, args: InstallArgs, reply: InstallReply,
      s': Server)
    returns (h': Record)
    requires Inv(c, h) && id < |c.servers| && from < |c.servers|
    requires |c.servers[id].matchIndex| == |c.servers[id].nextIndex| == |c.servers|
    requires reply.term <= args.term ==> Ack(h, from, args.term) >= |args.prefix|
    requires s' == HandleInstallReply(c.servers[id], from, args, reply)
    ensures Inv(Update(c, id, s', {}), h') && Grows(h, h')
  {
    var s := c.servers[id];
    if s.status != Leader || s.currentTerm != args.term {
      h' := StayInv(c, h, id, s');
    } else if reply.term > s.currentTerm {
      h' := StepDownInv(c, h, id, reply.term);
    } else {
      h' := AcknowledgedInv(c, h, id, from, |args.prefix|, s');
    }
  }

  // ---------- applying ----------

  lemma {:induction false} CommandsOk(h: History, s: Server, low: int, high: int)
    requires CommitOk(h, s) && high <= s.commitIndex
    ensures forall i :: 0 <= i < |Commands(s.log, s.base, low, high)| ==>
            AppliedOk(h, Commands(s.log, s.base, low, high)[i])
    decreases high - low
  {
    if low <= high {
      CommandsOk(h, s, low + 1, high);
      if s.base < low <= |s.log| {
        assert AppliedFrom(h, low, s.log[low - 1].command, s.log[..s.commitIndex], s.currentTerm);
      }
    }
  }

  lemma ApplyServer(h: History, id: nat, s: Server)
    requires ServerOk(h, id, s)
    ensures ServerOk(h, id, ApplyCommitted(s).0)
    ensures forall i :: 0 <= i < |ApplyCommitted(s).1| ==> AppliedOk(h, ApplyCommitted(s).1[i])
  {
    CommandsOk(h, s, s.lastApplied + 1, s.commitIndex);
    CommittedPrefix(h, s.log[..s.base], s.log[..s.commitIndex], s.currentTerm);
  }

  lemma ApplyInv(c: Cluster, h: Record, id: nat, s': Server, msgs: seq<ApplyMsg>) returns (h': Record)
    requires Inv(c, h) && id < |c.servers| && c.servers[id].base <= |c.servers[id].log|
    requires (s', msgs) == ApplyCommitted(c.servers[id])
    ensures Inv(Update(c, id, s', {}).(applied := c.applied + Labelled(id, msgs)), h') && Grows(h, h')
  {
    ApplyServer(h, id, c.servers[id]);
    LocalInv(c, h, id, s', {});
    SameHistory(h, id);
    h' := h;
  }

  // ---------- crashing ----------

  lemma RestartedServer(h: History, id: nat, s: Server)
    requires ServerOk(h, id, s)
    ensures ServerOk(h, id, Restart(s, |h.terms|))
  {
    CommittedPrefix(h, s.log[..s.base], s.log[..s.commitIndex], s.currentTerm);
  }

  // A peer that has saved a newer term and crashes before it does anything else.
  lemma InterruptInv(c: Cluster, h: Record, id: nat, t: nat) returns (h': Record)
    requires Inv(c, h) && id < |c.servers|
    ensures Inv(Update(c, id, Restart(StepDown(c.servers[id], t), |c.servers|), {}), h') && Grows(h, h')
  {
    var s1 := StepDown(c.servers[id], t);
    var h1 := StepDownInv(c, h, id, t);
    h' := CrashInv(Update(c, id, s1, {}), h1, id);
    UpdateTwice(c, id, s1, {}, Restart(s1, |c.servers|), {});
    GrowsTransitive(h, h1, h');
  }

  lemma CrashInv(c: Cluster, h: Record, id: nat) returns (h': Record)
    requires Inv(c, h) && id < |c.servers|
    ensures Inv(Update(c, id, Restart(c.servers[id], |c.servers|), {}), h') && Grows(h, h')
  {
    RestartedServer(h, id, c.servers[id]);
    LocalInv(c, h, id, Restart(c.servers[id], |c.servers|), {});
    SameHistory(h, id);
    h' := h;
  }
}
