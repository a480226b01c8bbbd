/**
  No state of a run is a dead end: any majority of the peers can go on alone, elect a leader, and commit and apply any
  command, however their logs have parted and whatever they have compacted.
 */
module RaftProgress {
  import opened Options
  import opened Sets
  import opened RaftTypes
  import opened RaftHandlers
  import opened RaftCluster
  import opened RaftHistory
  import opened RaftInvariant
  import opened RaftReplication
  import opened RaftSafety
  import opened RaftBackup
  import opened RaftDelivery
  import opened RaftElection

  // ---------- single steps ----------

  // The step is an update of one peer that casts no new vote.
  lemma Do(r: Run, step: Step, s: Server, msgs: set<Message>, peers: set<nat>, x: Command) returns (r': Run)
    requires IsSoundRun(r) && step.id < |End(r).servers| && Enabled(End(r), step) && Ordinary(step, peers, x)
    requires After(End(r), step) == Update(End(r), step.id, s, msgs)
    requires s.votedFor == NOBODY
             || (s.votedFor == End(r).servers[step.id].votedFor && s.currentTerm == End(r).servers[step.id].currentTerm)
    ensures Extends(r, r', peers, x) && End(r') == Update(End(r), step.id, s, msgs)
  {
    EndVotes(r);
    assert VoteOf(step.id, End(r).servers[step.id]) <= End(r).cast;
    SameVote(End(r), step.id, s, msgs);
    r' := Go(r, step, peers, x);
  }

  // ---------- exchanges ----------

  ghost predicate Between(c: Cluster, p: nat, q: nat, peers: set<nat>) {
    && p < |c.servers| && q < |c.servers| && p != q && p in peers && q in peers
    && c.servers[p].status == Leader && c.servers[q].currentTerm == c.servers[p].currentTerm
    && WellFormed(c.servers[p]) && WellFormed(c.servers[q])
    && |c.servers[p].nextIndex| == |c.servers[p].matchIndex| == |c.servers|
    && |c.servers[q].nextIndex| == |c.servers[q].matchIndex| == |c.servers|
  }

  lemma SendEntries(r: Run, p: nat, q: nat, args: AppendArgs, peers: set<nat>, x: Command) returns (r': Run)
    requires IsSoundRun(r) && Between(End(r), p, q, peers) && SendAppend(End(r).servers[p], p, q) == Some(args)
    ensures Extends(r, r', peers, x)
    ensures End(r') == Update(End(r), p, End(r).servers[p], {AppendCall(q, args)}) && End(r').servers == End(r).servers
  {
    r' := Do(r, Heartbeat(p, q), End(r).servers[p], {AppendCall(q, args)}, peers, x);
  }

  lemma TakeEntries(r: Run, p: nat, q: nat, args: AppendArgs, peers: set<nat>, x: Command) returns (r': Run)
    requires IsSoundRun(r) && Between(End(r), p, q, peers) && AppendCall(q, args) in End(r).sent
    requires args.term == End(r).servers[q].currentTerm
    ensures Extends(r, r', peers, x)
    ensures var (f, reply) := AppendEntries(End(r).servers[q], args);
            End(r') == Update(End(r), q, f, {AppendAnswer(q, args, reply)}) && reply.term == args.term
  {
    var (f, reply) := AppendEntries(End(r).servers[q], args);
    r' := Do(r, ReceiveAppendCall(q, args), f, {AppendAnswer(q, args, reply)}, peers, x);
  }

  lemma HearAnswer(r: Run, p: nat, q: nat, args: AppendArgs, reply: AppendReply, peers: set<nat>, x: Command)
    returns (r': Run)
    requires IsSoundRun(r) && p < |End(r).servers| && q < |End(r).servers| && p in peers
    requires AppendAnswer(q, args, reply) in End(r).sent && args.leader == p
    requires reply.term <= End(r).servers[p].currentTerm
    requires WellFormed(End(r).servers[p])
    requires |End(r).servers[p].nextIndex| == |End(r).servers[p].matchIndex| == |End(r).servers|
    ensures Extends(r, r', peers, x)
    ensures End(r') == Update(End(r), p, HandleAppendReply(End(r).servers[p], p, q, args, reply), {})
  {
    var l := HandleAppendReply(End(r).servers[p], p, q, args, reply);
    r' := Do(r, ReceiveAppendAnswer(p, q, args, reply), l, {}, peers, x);
  }

  // The two peers after an exchange, and everybody else as before.
  predicate Exchanged(c: Cluster, c': Cluster, p: nat, q: nat, l: Server, f: Server) {
    p < |c.servers| && q < |c.servers| && c'.servers == c.servers[q := f][p := l] && c'.applied == c.applied
  }

  lemma ExchangeEntries(r: Run, p: nat, q: nat, args: AppendArgs, peers: set<nat>, x: Command) returns (r': Run)
    requires IsSoundRun(r) && Between(End(r), p, q, peers) && SendAppend(End(r).servers[p], p, q) == Some(args)
    ensures Extends(r, r', peers, x)
    ensures var (f, reply) := AppendEntries(End(r).servers[q], args);
            Exchanged(End(r), End(r'), p, q, HandleAppendReply(End(r).servers[p], p, q, args, reply), f)
  {
    var r1 := SendEntries(r, p, q, args, peers, x);
    var r2 := TakeEntries(r1, p, q, args, peers, x);
    r' := HearAnswer(r2, p, q, args, AppendEntries(End(r).servers[q], args).1, peers, x);
    ExtendsMore(r, r1, r2, peers, x);
    ExtendsMore(r, r2, r', peers, x);
  }

  lemma SendSnapshot(r: Run, p: nat, q: nat, args: InstallArgs, peers: set<nat>, x: Command) returns (r': Run)
    requires IsSoundRun(r) && Between(End(r), p, q, peers) && SendInstall(End(r).servers[p], p, q) == Some(args)
    ensures Extends(r, r', peers, x)
    ensures End(r') == Update(End(r), p, End(r).servers[p], {InstallCall(q, args)}) && End(r').servers == End(r).servers
  {
    r' := Do(r, OfferSnapshot(p, q), End(r).servers[p], {InstallCall(q, args)}, peers, x);
  }

  lemma TakeSnapshot(r: Run, p: nat, q: nat, args: InstallArgs, peers: set<nat>, x: Command) returns (r': Run)
    requires IsSoundRun(r) && Between(End(r), p, q, peers) && InstallCall(q, args) in End(r).sent
    requires args.term == End(r).servers[q].currentTerm
    ensures Extends(r, r', peers, x)
    ensures var (f, reply) := InstallSnapshot(End(r).servers[q], args);
            End(r') == Update(End(r), q, f, {InstallAnswer(q, args, reply)}) && reply.term == args.term
  {
    var (f, reply) := InstallSnapshot(End(r).servers[q], args);
    r' := Do(r, ReceiveInstallCall(q, args), f, {InstallAnswer(q, args, reply)}, peers, x);
  }

  lemma HearInstalled(r: Run, p: nat, q: nat, args: InstallArgs, reply: InstallReply, peers: set<nat>, x: Command)
    returns (r': Run)
    requires IsSoundRun(r) && p < |End(r).servers| && q < |End(r).servers| && p in peers
    requires InstallAnswer(q, args, reply) in End(r).sent && args.leader == p
    requires reply.term <= End(r).servers[p].currentTerm
    requires WellFormed(End(r).servers[p])
    requires |End(r).servers[p].nextIndex| == |End(r).servers[p].matchIndex| == |End(r).servers|
    ensures Extends(r, r', peers, x)
    ensures End(r') == Update(End(r), p, HandleInstallReply(End(r).servers[p], q, args, reply), {})
  {
    var l := HandleInstallReply(End(r).servers[p], q, args, reply);
    r' := Do(r, ReceiveInstallAnswer(p, q, args, reply), l, {}, peers, x);
  }

  lemma ExchangeSnapshot(r: Run, p: nat, q: nat, args: InstallArgs, peers: set<nat>, x: Command) returns (r': Run)
    requires IsSoundRun(r) && Between(End(r), p, q, peers) && SendInstall(End(r).servers[p], p, q) == Some(args)
    ensures Extends(r, r', peers, x)
    ensures var (f, reply) := InstallSnapshot(End(r).servers[q], args);
            Exchanged(End(r), End(r'), p, q, HandleInstallReply(End(r).servers[p], q, args, reply), f)
  {
    var r1 := SendSnapshot(r, p, q, args, peers, x);
    var r2 := TakeSnapshot(r1, p, q, args, peers, x);
    r' := HearInstalled(r2, p, q, args, InstallSnapshot(End(r).servers[q], args).1, peers, x);
    ExtendsMore(r, r1, r2, peers, x);
    ExtendsMore(r, r2, r', peers, x);
  }

  // One round, whichever kind it is.
  lemma Exchange(r: Run, p: nat, q: nat, peers: set<nat>, x: Command) returns (r': Run)
    requires IsSoundRun(r) && Between(End(r), p, q, peers)
    ensures Extends(r, r', peers, x)
    ensures var (l, f) := Round(End(r).servers[p], End(r).servers[q], p, q);
            Exchanged(End(r), End(r'), p, q, l, f)
  {
    var l := End(r).servers[p];
    match SendAppend(l, p, q)
    case Some(args) => r' := ExchangeEntries(r, p, q, args, peers, x);
    case None =>
      match SendInstall(l, p, q) {
        case Some(args) => r' := ExchangeSnapshot(r, p, q, args, peers, x);
        case None =>
          r' := r;
          assert End(r).servers[q := End(r).servers[q]][p := l] == End(r).servers;
      }
  }

  // ---------- one follower ----------

  // The leader is as before, but for what it believes of peer q and its commit index.
  predicate SameLead(l: Server, l': Server, q: nat) {
    && l' == l.(nextIndex := l'.nextIndex, matchIndex := l'.matchIndex, commitIndex := l'.commitIndex)
    && |l'.nextIndex| == |l.nextIndex| && |l'.matchIndex| == |l.matchIndex|
    && (forall i {:trigger l'.nextIndex[i]} :: 0 <= i < |l.nextIndex| && i != q ==> l'.nextIndex[i] == l.nextIndex[i])
    && (forall i {:trigger l'.matchIndex[i]} :: 0 <= i < |l.matchIndex| && i != q ==>
          l'.matchIndex[i] == l.matchIndex[i])
  }

  // The follower has not yet dealt with index k.
  predicate Low(f: Server, k: int) {
    f.base < k && f.lastApplied < k
  }

  // The follower stays in its term, and a round does not get it to an index above the leader's snapshot.
  ghost predicate SameFollower(l: Server, f: Server, f': Server) {
    && f'.currentTerm == f.currentTerm
    && forall k {:trigger Low(f', k)} :: Low(f, k) && l.base < k ==> Low(f', k)
  }

  lemma SameLeadMore(a: Server, b: Server, c: Server, q: nat)
    requires SameLead(a, b, q) && SameLead(b, c, q)
    ensures SameLead(a, c, q)
  {
    forall i | 0 <= i < |a.nextIndex| && i != q ensures c.nextIndex[i] == a.nextIndex[i] {
      assert b.nextIndex[i] == a.nextIndex[i];
    }
    forall i | 0 <= i < |a.matchIndex| && i != q ensures c.matchIndex[i] == a.matchIndex[i] {
      assert b.matchIndex[i] == a.matchIndex[i];
    }
  }

  lemma RoundFrame(h: History, l: Server, f: Server, p: nat, q: nat)
    requires Paired(h, l, f, q) && Unheard(l, q)
    ensures var (l', f') := Round(l, f, p, q);
            SameLead(l, l', q) && SameFollower(l, f, f')
  {
    if SendAppend(l, p, q).Some? {
      var args := SendAppend(l, p, q).value;
      var reply := AppendEntries(f, args).1;
      if reply.success { SuccessCounts(l, p, q, args, reply); } else { BackUpBounds(h, l, f, p, q, args, reply, 0); }
    } else {
      SnapshotTaken(h, l, f, p, q, SendInstall(l, p, q).value);
    }
  }

  // Nothing more can be committed.
  ghost predicate CommitsAll(l: Server, p: nat) {
    forall j {:trigger Committable(l, p, j)} :: l.commitIndex < j <= |l.log| ==> !Committable(l, p, j)
  }

  lemma SuccessCommits(l: Server, p: nat, q: nat, args: AppendArgs, reply: AppendReply)
    requires WellFormed(l) && q < |l.nextIndex| == |l.matchIndex| && SendAppend(l, p, q) == Some(args)
    requires reply.success && reply.term <= l.currentTerm
    ensures CommitsAll(HandleAppendReply(l, p, q, args, reply), p)
    ensures l.commitIndex <= HandleAppendReply(l, p, q, args, reply).commitIndex
  {
    var s := UpdateMatchAndNext(l, q, args.prevLogIndex + |args.entries|);
    var l' := HandleAppendReply(l, p, q, args, reply);
    LeaderCommitHighest(s, p, |s.log|);
    forall j | l'.commitIndex < j <= |l'.log| ensures !Committable(l', p, j) {
      assert !Committable(s, p, j);
      SameCommittable(s, l', p, j);
    }
  }

  lemma SameCommittable(a: Server, b: Server, p: nat, j: int)
    requires a.log == b.log && a.currentTerm == b.currentTerm && a.matchIndex == b.matchIndex
    ensures Committable(a, p, j) == Committable(b, p, j)
  {
  }

  // The leader knows that peer q has its log, and so it is.
  ghost predicate UpToLeader(l: Server, f: Server, p: nat, q: nat) {
    && q < |l.matchIndex| && q < |l.nextIndex| && l.matchIndex[q] == |l.log| && l.nextIndex[q] == |l.log| + 1
    && l.log <= f.log && CommitsAll(l, p)
  }

  lemma LastRound(h: History, l: Server, f: Server, p: nat, q: nat)
    requires Paired(h, l, f, q) && l.matchIndex[q] <= |l.log| && Accepts(l, f, p, q)
    ensures var (l', f') := Round(l, f, p, q);
            UpToLeader(l', f', p, q) && l'.log == l.log && l.commitIndex <= l'.commitIndex
  {
    var args := SendAppend(l, p, q).value;
    AcceptedHolds(h, l, f, p, q, args);
    SuccessCounts(l, p, q, args, AppendEntries(f, args).1);
    SuccessCommits(l, p, q, args, AppendEntries(f, args).1);
  }

  // Only these two peers have changed.
  predicate OthersSame(c: Cluster, c': Cluster, p: nat, q: nat) {
    && |c'.servers| == |c.servers| && c'.applied == c.applied
    && forall i {:trigger c'.servers[i]} :: 0 <= i < |c.servers| && i != p && i != q ==> c'.servers[i] == c.servers[i]
  }

  /** However their logs have parted, the leader brings a peer in its term up to its own log. */
  lemma {:induction false} BringUp(r: Run, p: nat, q: nat, peers: set<nat>, x: Command) returns (r': Run)
    requires IsSoundRun(r) && Between(End(r), p, q, peers) && Unheard(End(r).servers[p], q)
    requires End(r).servers[q].base < End(r).servers[p].nextIndex[q] <= |End(r).servers[p].log| + 1
    ensures Extends(r, r', peers, x) && OthersSame(End(r), End(r'), p, q)
    ensures SameLead(End(r).servers[p], End(r').servers[p], q)
    ensures SameFollower(End(r).servers[p], End(r).servers[q], End(r').servers[q])
    ensures UpToLeader(End(r').servers[p], End(r').servers[q], p, q)
    decreases if End(r).servers[q].base < End(r).servers[p].base then 1 else 0, End(r).servers[p].nextIndex[q]
  {
    var l, f := End(r).servers[p], End(r).servers[q];
    var h := PairedInRun(r, |r.steps|, p, q);
    r' := Exchange(r, p, q, peers, x);
    RoundFrame(h, l, f, p, q);
    if Accepts(l, f, p, q) {
      LastRound(h, l, f, p, q);
    } else {
      RoundMoves(h, l, f, p, q);
      var first := r';
      EndSized(first, p);
      EndSized(first, q);
      r' := BringUp(first, p, q, peers, x);
      ExtendsMore(r, first, r', peers, x);
      SameLeadMore(l, End(first).servers[p], End(r').servers[p], q);
    }
  }

  // ---------- all followers ----------

  // Peer q is in the leader's term, and the leader has not heard of it yet.
  predicate Waiting(l: Server, f: Server, q: nat) {
    && q < |l.matchIndex| && q < |l.nextIndex| && l.matchIndex[q] <= l.base < |l.log|
    && f.currentTerm == l.currentTerm && f.base < l.nextIndex[q] <= |l.log| + 1 && Low(f, |l.log|)
  }

  // Peer q has the leader's log, and the leader knows.
  predicate Caught(l: Server, f: Server, q: nat) {
    && q < |l.matchIndex| && q < |l.nextIndex| && l.matchIndex[q] == |l.log| && l.nextIndex[q] == |l.log| + 1
    && f.currentTerm == l.currentTerm && l.log <= f.log && Low(f, |l.log|)
  }

  // The leader is as before, but for what it believes of these peers and its commit index.
  ghost predicate StillLeads(l: Server, l': Server, todo: set<nat>) {
    && l' == l.(nextIndex := l'.nextIndex, matchIndex := l'.matchIndex, commitIndex := l'.commitIndex)
    && |l'.nextIndex| == |l.nextIndex| && |l'.matchIndex| == |l.matchIndex|
    && (forall i {:trigger l'.nextIndex[i]} :: 0 <= i < |l.nextIndex| && i !in todo ==>
          l'.nextIndex[i] == l.nextIndex[i])
    && (forall i {:trigger l'.matchIndex[i]} :: 0 <= i < |l.matchIndex| && i !in todo ==>
          l'.matchIndex[i] == l.matchIndex[i])
  }

  ghost predicate BroughtUp(c: Cluster, c': Cluster, p: nat, todo: set<nat>) {
    && p < |c.servers| == |c'.servers| && c'.applied == c.applied
    && StillLeads(c.servers[p], c'.servers[p], todo)
    && (forall i {:trigger c'.servers[i]} :: 0 <= i < |c.servers| && i != p && i !in todo ==>
          c'.servers[i] == c.servers[i])
    && (forall q {:trigger q in todo} :: q in todo && q < |c.servers| ==> Caught(c'.servers[p], c'.servers[q], q))
    && (todo != {} ==> CommitsAll(c'.servers[p], p))
  }

  lemma OneMoreUp(c: Cluster, c1: Cluster, c': Cluster, p: nat, todo: set<nat>, q: nat)
    requires q in todo && p !in todo && q < |c.servers| && BroughtUp(c, c1, p, todo - {q})
    requires OthersSame(c1, c', p, q) && SameLead(c1.servers[p], c'.servers[p], q)
    requires Caught(c'.servers[p], c'.servers[q], q) && CommitsAll(c'.servers[p], p)
    ensures BroughtUp(c, c', p, todo)
  {
    var l, l1, l' := c.servers[p], c1.servers[p], c'.servers[p];
    forall i | 0 <= i < |l.nextIndex| && i !in todo ensures l'.nextIndex[i] == l.nextIndex[i] {
      assert l1.nextIndex[i] == l.nextIndex[i];
    }
    forall i | 0 <= i < |l.matchIndex| && i !in todo ensures l'.matchIndex[i] == l.matchIndex[i] {
      assert l1.matchIndex[i] == l.matchIndex[i];
    }
    forall i | 0 <= i < |c.servers| && i != p && i !in todo ensures c'.servers[i] == c.servers[i] {
      assert c1.servers[i] == c.servers[i];
    }
    forall v | v in todo && v < |c.servers| ensures Caught(l', c'.servers[v], v) {
      if v != q { assert v in todo - {q} && Caught(l1, c1.servers[v], v); }
    }
  }

  lemma {:induction false} BringUpAll(r: Run, p: nat, todo: set<nat>, peers: set<nat>, x: Command) returns (r': Run)
    requires IsSoundRun(r) && todo <= peers && p in peers && p !in todo
    requires p < |End(r).servers| && End(r).servers[p].status == Leader
    requires forall q {:trigger q in todo} :: q in todo ==>
               q < |End(r).servers| && Waiting(End(r).servers[p], End(r).servers[q], q)
    ensures Extends(r, r', peers, x) && BroughtUp(End(r), End(r'), p, todo)
    decreases |todo|
  {
    if todo == {} {
      r' := r;
    } else {
      var q :| q in todo;
      var first := BringUpAll(r, p, todo - {q}, peers, x);
      var c, c1 := End(r), End(first);
      assert q in todo && c1.servers[q] == c.servers[q] && q !in todo - {q};
      assert c1.servers[p].matchIndex[q] == c.servers[p].matchIndex[q];
      assert c1.servers[p].nextIndex[q] == c.servers[p].nextIndex[q];
      EndSized(first, p);
      EndSized(first, q);
      r' := BringUp(first, p, q, peers, x);
      ExtendsMore(r, first, r', peers, x);
      assert Low(End(r').servers[q], |c.servers[p].log|);
      OneMoreUp(c, c1, End(r'), p, todo, q);
    }
  }

  /** With its whole log on a majority and its last entry of its own term, the leader has committed all of it. */
  lemma AllCommitted(l: Server, p: nat, peers: set<nat>)
    requires WellFormed(l) && l.log != [] && LastTerm(l.log) == l.currentTerm && CommitsAll(l, p)
    requires p in peers && p < |l.matchIndex| && IsQuorum(peers, |l.matchIndex|)
    requires forall q :: q in peers && q != p ==> q < |l.matchIndex| && l.matchIndex[q] == |l.log|
    ensures l.commitIndex == |l.log|
  {
    var k := |l.log|;
    var holders := {p} + HolderSet(l.matchIndex, p, k, |l.matchIndex|);
    forall q | q in peers ensures q in holders { }
    SubsetSize(peers, holders);
    assert Committable(l, p, k);
  }

  // ---------- announcing ----------

  // What the next heartbeat does to a peer that has the whole log: it commits it.
  lemma AnnounceRound(l: Server, f: Server, p: nat, q: nat)
    requires WellFormed(l) && WellFormed(f) && l.status == Leader && |l.nextIndex| == |l.matchIndex|
    requires l.log != [] && Caught(l, f, q) && l.commitIndex == |l.log| && f.commitIndex <= |l.log|
    ensures Round(l, f, p, q) == (l, Informed(f, |l.log|))
  {
    var k := |l.log|;
    var args := SendAppend(l, p, q).value;
    assert l.log[k..] == [] && args.entries == [];
    assert f.log[k - 1] == l.log[k - 1];
    assert StepDown(f, args.term) == f;
    assert MatchPrev(f.(status := Follower), args).None?;
    assert l.matchIndex[q := k] == l.matchIndex && l.nextIndex[q := k + 1] == l.nextIndex;
  }

  // A follower that has learnt that k is committed.
  function Informed(f: Server, k: int): Server {
    f.(status := Follower, commitIndex := k)
  }

  ghost predicate Announced(c: Cluster, c': Cluster, todo: set<nat>, k: int) {
    && |c'.servers| == |c.servers| && c'.applied == c.applied
    && forall i {:trigger c'.servers[i]} :: 0 <= i < |c.servers| ==>
         c'.servers[i] == if i in todo then Informed(c.servers[i], k) else c.servers[i]
  }

  lemma Announce(r: Run, p: nat, q: nat, peers: set<nat>, x: Command) returns (r': Run)
    requires IsSoundRun(r) && p in peers && q in peers && p != q && p < |End(r).servers| && q < |End(r).servers|
    requires End(r).servers[p].status == Leader && End(r).servers[p].log != []
    requires End(r).servers[p].commitIndex == |End(r).servers[p].log| && Caught(End(r).servers[p], End(r).servers[q], q)
    ensures Extends(r, r', peers, x) && Announced(End(r), End(r'), {q}, |End(r).servers[p].log|)
  {
    EndSized(r, p);
    EndSized(r, q);
    var h := PairedInRun(r, |r.steps|, p, q);
    AnnounceRound(End(r).servers[p], End(r).servers[q], p, q);
    r' := Exchange(r, p, q, peers, x);
  }

  lemma {:induction false} AnnounceAll(r: Run, p: nat, todo: set<nat>, peers: set<nat>, x: Command) returns (r': Run)
    requires IsSoundRun(r) && todo <= peers && p in peers && p !in todo && p < |End(r).servers|
    requires End(r).servers[p].status == Leader && End(r).servers[p].log != []
    requires End(r).servers[p].commitIndex == |End(r).servers[p].log|
    requires forall q {:trigger q in todo} :: q in todo ==>
               q < |End(r).servers| && Caught(End(r).servers[p], End(r).servers[q], q)
    ensures Extends(r, r', peers, x) && Announced(End(r), End(r'), todo, |End(r).servers[p].log|)
    decreases |todo|
  {
    if todo == {} {
      r' := r;
    } else {
      var q :| q in todo;
      var k := |End(r).servers[p].log|;
      var first := AnnounceAll(r, p, todo - {q}, peers, x);
      assert q in todo && End(first).servers[q] == End(r).servers[q] && End(first).servers[p] == End(r).servers[p];
      r' := Announce(first, p, q, peers, x);
      ExtendsMore(r, first, r', peers, x);
      forall i | 0 <= i < |End(r).servers|
        ensures End(r').servers[i] == if i in todo then Informed(End(r).servers[i], k) else End(r).servers[i]
      {
        assert End(first).servers[i] == if i in todo - {q} then Informed(End(r).servers[i], k) else End(r).servers[i];
      }
    }
  }

  // ---------- applying ----------

  lemma ApplyOnce(r: Run, q: nat, peers: set<nat>, x: Command) returns (r': Run)
    requires IsSoundRun(r) && q in peers && q < |End(r).servers| && WellFormed(End(r).servers[q])
    ensures Extends(r, r', peers, x)
    ensures var (s, msgs) := ApplyCommitted(End(r).servers[q]);
            End(r').servers == End(r).servers[q := s] && End(r').applied == End(r).applied + Labelled(q, msgs)
  {
    EndVotes(r);
    EndSized(r, q);
    var c := End(r);
    var (s, msgs) := ApplyCommitted(c.servers[q]);
    assert VoteOf(q, c.servers[q]) <= c.cast && VoteOf(q, s) == VoteOf(q, c.servers[q]);
    SameVote(c, q, s, {});
    r' := Go(r, Apply(q), peers, x);
  }

  predicate HasApplied(applied: seq<Applied>, q: nat, k: nat, x: Command) {
    Applied(q, CommandMsg(k, x)) in applied
  }

  lemma LabelledIn(q: nat, a: seq<ApplyMsg>, b: seq<ApplyMsg>, k: nat, x: Command)
    requires CommandMsg(k, x) in a || CommandMsg(k, x) in b
    ensures HasApplied(Labelled(q, a) + Labelled(q, b), q, k, x)
  {
    var all := Labelled(q, a) + Labelled(q, b);
    if CommandMsg(k, x) in a {
      var i :| 0 <= i < |a| && a[i] == CommandMsg(k, x);
      assert all[i] == Applied(q, CommandMsg(k, x));
    } else {
      var i :| 0 <= i < |b| && b[i] == CommandMsg(k, x);
      assert all[|a| + i] == Applied(q, CommandMsg(k, x));
    }
  }

  lemma BehindFirst<T>(a: seq<T>, b: seq<T>, c: seq<T>)
    ensures (a + b + c)[|a|..] == b + c && a <= a + b + c
  {
  }

  /** Two rounds of its apply loop, and a peer has applied a committed command that it had not dealt with. */
  lemma ApplyBoth(r: Run, q: nat, k: nat, peers: set<nat>, x: Command) returns (r': Run)
    requires IsSoundRun(r) && q in peers && q < |End(r).servers| && Low(End(r).servers[q], k)
    requires 1 <= k <= End(r).servers[q].commitIndex <= |End(r).servers[q].log|
    ensures Extends(r, r', peers, x) && End(r).applied <= End(r').applied
    ensures var s := End(r).servers[q];
            && End(r').servers == End(r).servers[q := s.(lastApplied := s.commitIndex, applySnapshot := false)]
            && HasApplied(End(r').applied[|End(r).applied|..], q, k, s.log[k - 1].command)
  {
    EndSized(r, q);
    AppliedIsCommitted(r, |r.steps|, q);
    var s := End(r).servers[q];
    var first := ApplyOnce(r, q, peers, x);
    var s1 := End(first).servers[q];
    r' := ApplyOnce(first, q, peers, x);
    ExtendsMore(r, first, r', peers, x);
    var msgs, msgs1 := ApplyCommitted(s).1, ApplyCommitted(s1).1;
    BehindFirst(End(r).applied, Labelled(q, msgs), Labelled(q, msgs1));
    if s.applySnapshot || s.lastApplied < s.base {
      SnapshotRound(s, k);
      CommandRound(s1, k);
    } else {
      CommandRound(s, k);
      CommandRound(s1, k);
    }
    LabelledIn(q, msgs, msgs1, k, s.log[k - 1].command);
  }

  // These peers have committed up to k, with the command there, and have not dealt with it.
  predicate Due(s: Server, k: nat, x: Command) {
    Low(s, k) && 1 <= k <= |s.log| && s.commitIndex == k && s.log[k - 1].command == x
  }

  predicate AppliedUpTo(s: Server, k: nat, x: Command) {
    1 <= k <= |s.log| && s.commitIndex == k == s.lastApplied && !s.applySnapshot && s.log[k - 1].command == x
  }

  ghost predicate HaveApplied(c: Cluster, c': Cluster, todo: set<nat>, k: nat, x: Command) {
    && |c'.servers| == |c.servers| && c.applied <= c'.applied
    && (forall q {:trigger q in todo} :: q in todo && q < |c.servers| ==>
          && c'.servers[q] == c.servers[q].(lastApplied := k, applySnapshot := false)
          && HasApplied(c'.applied[|c.applied|..], q, k, x))
    && forall q {:trigger c'.servers[q]} :: 0 <= q < |c.servers| && q !in todo ==> c'.servers[q] == c.servers[q]
  }

  lemma StillApplied(a: seq<Applied>, b: seq<Applied>, c: seq<Applied>, q: nat, k: nat, x: Command)
    requires a <= b && b <= c
    ensures HasApplied(b[|a|..], q, k, x) || HasApplied(c[|b|..], q, k, x) ==> HasApplied(c[|a|..], q, k, x)
  {
    assert c[|a|..] == b[|a|..] + c[|b|..];
  }

  lemma {:induction false} ApplyAll(r: Run, todo: set<nat>, k: nat, peers: set<nat>, x: Command) returns (r': Run)
    requires IsSoundRun(r) && todo <= peers
    requires forall q {:trigger q in todo} :: q in todo ==> q < |End(r).servers| && Due(End(r).servers[q], k, x)
    ensures Extends(r, r', peers, x) && HaveApplied(End(r), End(r'), todo, k, x)
    decreases |todo|
  {
    if todo == {} {
      r' := r;
    } else {
      var q :| q in todo;
      var first := ApplyAll(r, todo - {q}, k, peers, x);
      assert q in todo && End(first).servers[q] == End(r).servers[q];
      r' := ApplyBoth(first, q, k, peers, x);
      ExtendsMore(r, first, r', peers, x);
      forall v | v in todo && v < |End(r).servers|
        ensures End(r').servers[v] == End(r).servers[v].(lastApplied := k, applySnapshot := false)
        ensures HasApplied(End(r').applied[|End(r).applied|..], v, k, x)
      {
        StillApplied(End(r).applied, End(first).applied, End(r').applied, v, k, x);
        assert v != q ==> v in todo - {q};
      }
    }
  }

  lemma {:induction false} AppliedGrowsTo(r: Run, i: nat, j: nat)
    requires IsRun(r) && i <= j < |r.states|
    ensures r.states[i].applied <= r.states[j].applied
    decreases j
  {
    if i < j {
      AppliedGrowsTo(r, i, j - 1);
      assert StepsAt(r, j - 1);
      AppliedStep(r.states[j - 1], r.steps[j - 1]);
    }
  }

  lemma AppliedStep(c: Cluster, step: Step)
    requires Enabled(c, step)
    ensures c.applied <= After(c, step).applied
  {
  }

  lemma AppliedGrows(r: Run, r': Run, peers: set<nat>, x: Command)
    requires Extends(r, r', peers, x)
    ensures End(r).applied <= End(r').applied
  {
    assert End(r) == r'.states[|r.steps|];
    AppliedGrowsTo(r', |r.steps|, |r'.steps|);
  }

  // ---------- the whole way ----------

  // What a peer in the leader's term has committed is no more than the leader has.
  lemma CommitsWithin(r: Run, p: nat, q: nat)
    requires IsSoundRun(r) && p < |End(r).servers| && q < |End(r).servers|
    requires End(r).servers[p].status == Leader && End(r).servers[q].currentTerm == End(r).servers[p].currentTerm
    ensures Low(End(r).servers[q], |End(r).servers[p].log| + 1)
  {
    var h := OneMoment(r, |r.steps|);
    var l, f := End(r).servers[p], End(r).servers[q];
    assert ServerOk(h, p, l) && ServerOk(h, q, f);
    KeptCommit(h, f, f.log);
    AppliedIsCommitted(r, |r.steps|, q);
  }

  // The leader has taken the command, and waits for everybody.
  ghost predicate Submitted(c: Cluster, p: nat, peers: set<nat>, x: Command) {
    && p in peers && p < |c.servers| && c.servers[p].status == Leader && Low(c.servers[p], |c.servers[p].log|)
    && c.servers[p].log != []
    && c.servers[p].log[|c.servers[p].log| - 1] == Entry(c.servers[p].currentTerm, x)
    && forall q {:trigger q in peers} :: q in peers && q != p ==>
         q < |c.servers| && Waiting(c.servers[p], c.servers[q], q)
  }

  lemma Submit(r: Run, peers: set<nat>, x: Command) returns (r': Run, p: nat)
    requires IsSoundRun(r) && |End(r).servers| > 1
    requires peers <= Peers(|End(r).servers|) && IsQuorum(peers, |End(r).servers|)
    ensures Extends(r, r', peers, x) && |End(r').servers| == |End(r).servers| && Submitted(End(r'), p, peers, x)
  {
    var first;
    first, p := MajorityElects(r, peers, x);
    EndSized(first, p);
    var c := End(first);
    var l := Start(c.servers[p], x);
    r' := Do(first, ClientCommand(p, x), l, {}, peers, x);
    ExtendsMore(r, first, r', peers, x);
    CommitsWithin(first, p, p);
    forall q | q in peers && q != p ensures q < |c.servers| && Waiting(l, c.servers[q], q) {
      assert c.servers[q].currentTerm == c.servers[p].currentTerm;
      CommitsWithin(first, p, q);
    }
  }

  lemma TwoInQuorum(peers: set<nat>, p: nat, n: nat)
    requires p in peers && IsQuorum(peers, n) && n > 1
    ensures peers - {p} != {}
  {
    QuorumOf(peers, p, n);
  }

  // Every one of them has the leader's log, and the leader has committed it.
  ghost predicate Replicated(c: Cluster, p: nat, peers: set<nat>, x: Command) {
    && p in peers && p < |c.servers| && c.servers[p].status == Leader && c.servers[p].log != []
    && Due(c.servers[p], |c.servers[p].log|, x)
    && forall q {:trigger q in peers} :: q in peers && q != p ==>
         q < |c.servers| && Caught(c.servers[p], c.servers[q], q)
  }

  lemma Replicate(r: Run, p: nat, peers: set<nat>, x: Command) returns (r': Run)
    requires IsSoundRun(r) && Submitted(End(r), p, peers, x) && |End(r).servers| > 1
    requires peers <= Peers(|End(r).servers|) && IsQuorum(peers, |End(r).servers|)
    ensures Extends(r, r', peers, x) && |End(r').servers| == |End(r).servers| && Replicated(End(r'), p, peers, x)
  {
    var todo := peers - {p};
    forall q | q in todo ensures q < |End(r).servers| && Waiting(End(r).servers[p], End(r).servers[q], q) {
      assert q in peers;
    }
    r' := BringUpAll(r, p, todo, peers, x);
    EndSized(r', p);
    TwoInQuorum(peers, p, |End(r).servers|);
    var l := End(r').servers[p];
    forall q | q in peers && q != p
      ensures q < |l.matchIndex| && l.matchIndex[q] == |l.log| && Caught(l, End(r').servers[q], q)
    {
      assert q in todo;
    }
    AllCommitted(l, p, peers);
  }

  lemma CaughtIsDue(l: Server, f: Server, q: nat, x: Command)
    requires l.log != [] && Due(l, |l.log|, x) && Caught(l, f, q)
    ensures Due(Informed(f, |l.log|), |l.log|, x)
  {
  }

  /** At every point of every run, any majority of the peers can go on without the others, and have any command
      committed and applied by every one of them at the same index. */
  lemma MajorityMakesProgress(r: Run, peers: set<nat>, x: Command) returns (r': Run, p: nat, k: nat)
    requires IsSoundRun(r) && |End(r).servers| > 1
    requires peers <= Peers(|End(r).servers|) && IsQuorum(peers, |End(r).servers|)
    ensures Extends(r, r', peers, x) && |End(r').servers| == |End(r).servers| && p in peers
    ensures End(r').servers[p].status == Leader
    ensures forall q {:trigger q in peers} :: q in peers ==>
              AppliedUpTo(End(r').servers[q], k, x)
    ensures End(r).applied <= End(r').applied
    ensures forall q {:trigger q in peers} :: q in peers ==>
              HasApplied(End(r').applied[|End(r).applied|..], q, k, x)
  {
    var r1;
    r1, p := Submit(r, peers, x);
    var r2 := Replicate(r1, p, peers, x);
    var l := End(r2).servers[p];
    k := |l.log|;
    var todo := peers - {p};
    forall q | q in todo ensures q < |End(r2).servers| && Caught(l, End(r2).servers[q], q) { assert q in peers; }
    var r3 := AnnounceAll(r2, p, todo, peers, x);
    forall q | q in peers ensures q < |End(r3).servers| && Due(End(r3).servers[q], k, x) {
      if q != p { CaughtIsDue(l, End(r2).servers[q], q, x); }
    }
    r' := ApplyAll(r3, peers, k, peers, x);
    ExtendsMore(r, r1, r2, peers, x);
    ExtendsMore(r, r2, r3, peers, x);
    ExtendsMore(r, r3, r', peers, x);
    AppliedGrows(r, r3, peers, x);
    forall q | q in peers ensures HasApplied(End(r').applied[|End(r).applied|..], q, k, x) {
      StillApplied(End(r).applied, End(r3).applied, End(r').applied, q, k, x);
    }
  }
}
