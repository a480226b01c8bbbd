/**
  Fast conflict back-up: what a leader learns from refusals about where its log and a follower's part, and how a
  follower is brought up to the leader's log, by entries or by a snapshot.
 */
module RaftBackup {
  import opened Options
  import opened RaftTypes
  import opened RaftHandlers
  import opened RaftCluster
  import opened RaftHistory
  import opened RaftInvariant
  import opened RaftReplication
  import opened RaftSafety

  // ---------- logs of one history ----------

  lemma TermsAscend(h: History, log: Log, i: nat, j: nat)
    requires LeadersOk(h) && Traced(h, log) && 1 <= i <= j <= |log|
    ensures TermAt(log, i) <= TermAt(log, j)
  {
    assert log[..j] <= log;
    TracedPrefix(h, log[..j], log);
    LastTermGreatest(h, log[..j]);
    assert log[..j][i - 1] == log[i - 1];
  }

  // A term that both logs hold, at i in one and at or after i in the other: then they agree up to i.
  lemma SharedTerm(h: History, a: Log, b: Log, i: nat, j: nat)
    requires Traced(h, a) && Traced(h, b) && 1 <= i <= j && i <= |a| && j <= |b|
    requires TermAt(a, i) == TermAt(b, j)
    ensures Agree(a, b, i)
  {
    assert TracedAt(h, a, i - 1) && TracedAt(h, b, j - 1);
    assert a[..i] <= h.logs[a[i - 1].term] && b[..j] <= h.logs[a[i - 1].term];
    assert b[..i] == b[..j][..i];
  }

  lemma AgreeingTerm(a: Log, b: Log, k: nat)
    requires Agree(a, b, k)
    ensures TermAt(a, k) == TermAt(b, k)
  {
    if k > 0 { AgreeAt(a, b, k, k - 1); }
  }

  // ---------- the follower's answer ----------

  lemma {:induction false} RunStartIs(log: Log, base: nat, i: nat, term: int)
    requires base <= i <= |log|
    ensures var k := RunStart(log, base, i, term);
            && base <= k <= i && (k == i <==> i == base || TermAt(log, i) != term)
            && (forall j {:trigger TermAt(log, j)} :: k < j <= i ==> TermAt(log, j) == term)
            && (base < k ==> TermAt(log, k) != term)
    decreases i
  {
    if i > base && TermAt(log, i) == term { RunStartIs(log, base, i - 1, term); }
  }

  /** A refusal over a conflicting entry names the entry's term and the first index, above the snapshot, of the run of
      entries with that term that ends there; a refusal for want of entries, the first missing index. */
  lemma ConflictIsReported(s: Server, args: AppendArgs)
    requires s.base <= |s.log| && MatchPrev(s, args).Some? && s.base < args.prevLogIndex
    ensures var reply, prev := MatchPrev(s, args).value, args.prevLogIndex;
            && !reply.success && reply.term == s.currentTerm
            && if prev > |s.log| then reply.xLen == |s.log| + 1
               else
                 && reply.xLen == 0 && reply.xTerm == TermAt(s.log, prev) != args.prevLogTerm
                 && s.base < reply.xIndex <= prev
                 && (forall j {:trigger TermAt(s.log, j)} :: reply.xIndex <= j <= prev ==>
                       TermAt(s.log, j) == reply.xTerm)
                 && (s.base < reply.xIndex - 1 ==> TermAt(s.log, reply.xIndex - 1) != reply.xTerm)
  {
    var prev := args.prevLogIndex;
    if prev <= |s.log| { RunStartIs(s.log, s.base, prev, TermAt(s.log, prev)); }
  }

  // ---------- the leader's search ----------

  lemma {:induction false} LastIndexIs(log: Log, base: nat, term: int, i: nat)
    requires i <= |log|
    ensures var k := LastIndexOfTerm(log, base, term, i);
            && (k == -1 || (base < k <= i && TermAt(log, k) == term))
            && forall j :: base <= j < i && j >= k ==> log[j].term != term
    decreases i
  {
    if i > base && TermAt(log, i) != term { LastIndexIs(log, base, term, i - 1); }
  }

  /** The search for a term finds the last index that has it, from the snapshot position on, and -1 if there is none. */
  lemma LastOfTermFound(s: Server, term: int)
    requires s.base <= |s.log|
    ensures var i := FindLastIndexOfTerm(s, term);
            && (i == -1 || (s.base <= i <= |s.log| && TermAt(s.log, i) == term))
            && forall j {:trigger TermAt(s.log, j)} :: s.base <= j <= |s.log| && i < j ==> TermAt(s.log, j) != term
  {
    LastIndexIs(s.log, s.base, term, |s.log|);
    var i := FindLastIndexOfTerm(s, term);
    forall j | s.base <= j <= |s.log| && i < j ensures TermAt(s.log, j) != term {
      if j > s.base { assert s.log[j - 1].term != term; }
    }
  }

  // ---------- one refusal ----------

  // The entries differ where the refusal says they do.
  lemma RefusedAt(leader: Log, follower: Log, prev: nat, k: nat)
    requires 1 <= prev <= |leader| && prev <= |follower|
    requires TermAt(leader, prev) != TermAt(follower, prev) && Agree(leader, follower, k)
    ensures k < prev
  {
    AgreeAt(leader, follower, k, prev - 1);
  }

  // The leader has no entry of the follower's conflicting term above its snapshot: the whole run of that term goes.
  lemma TermMissing(leader: Log, base: nat, follower: Log, first: nat, prev: nat, term: int, k: nat)
    requires 1 <= first <= prev <= |follower| && k < prev && Agree(leader, follower, k)
    requires forall j {:trigger TermAt(follower, j)} :: first <= j <= prev ==> TermAt(follower, j) == term
    requires forall j :: base <= j < |leader| ==> leader[j].term != term
    ensures k < first || first <= base
  {
    if first <= k {
      AgreeAt(leader, follower, k, k - 1);
      assert TermAt(follower, k) == term;
    }
  }

  // The leader has that term: its last entry of the term lies below the conflict, and nothing above agrees.
  lemma TermPresent(h: History, leader: Log, follower: Log, prev: nat, i: nat, k: nat)
    requires LeadersOk(h) && Traced(h, leader) && Traced(h, follower)
    requires 1 <= prev <= |leader| && prev <= |follower| && TermAt(leader, prev) != TermAt(follower, prev)
    requires 1 <= i <= |leader| && TermAt(leader, i) == TermAt(follower, prev) && k < prev && Agree(leader, follower, k)
    requires forall j :: i <= j < |leader| ==> leader[j].term != TermAt(follower, prev)
    ensures i < prev && k <= i
  {
    if i > prev {
      SharedTerm(h, follower, leader, prev, i);
      AgreeAt(follower, leader, prev, prev - 1);
    }
    if k > i {
      AgreeAt(leader, follower, k, i - 1);
      AgreeAt(leader, follower, k, i);
      TermsAscend(h, follower, i, i + 1);
      TermsAscend(h, follower, i + 1, prev);
      assert false;
    }
  }

  lemma ConflictBacksUp(h: History, l: Server, f: Server, reply: AppendReply, prev: nat, k: nat)
    requires LeadersOk(h) && Traced(h, l.log) && Traced(h, f.log) && l.base <= prev <= |l.log|
    requires f.base < prev <= |f.log| && TermAt(l.log, prev) != TermAt(f.log, prev) && Agree(l.log, f.log, k)
    requires reply.xLen == 0 && reply.xTerm == TermAt(f.log, prev) && f.base < reply.xIndex <= prev
    requires forall j {:trigger TermAt(f.log, j)} :: reply.xIndex <= j <= prev ==> TermAt(f.log, j) == reply.xTerm
    ensures BackUp(l, reply) <= prev && (k < BackUp(l, reply) || reply.xIndex == BackUp(l, reply) <= l.base)
  {
    RefusedAt(l.log, f.log, prev, k);
    LastIndexIs(l.log, l.base, reply.xTerm, |l.log|);
    var i := FindLastIndexOfTerm(l, reply.xTerm);
    if i == -1 {
      TermMissing(l.log, l.base, f.log, reply.xIndex, prev, reply.xTerm, k);
    } else {
      TermPresent(h, l.log, f.log, prev, i, k);
    }
  }

  // ---------- what the leader knows ----------

  lemma MatchOnlyMoves(c: Cluster, step: Step, id: nat, p: nat)
    requires Enabled(c, step) && id < |c.servers| && p < |c.servers[id].matchIndex|
    requires c.servers[id].status == Leader && !Restarts(step, id)
    ensures |After(c, step).servers| == |c.servers| && p < |After(c, step).servers[id].matchIndex|
    ensures c.servers[id].matchIndex[p] <= After(c, step).servers[id].matchIndex[p]
  {
    if !(step.ReceiveAppendAnswer? || step.ReceiveInstallAnswer?) { MatchStays(c, step, id); }
  }

  // Only answers to its calls tell a leader anything.
  lemma MatchStays(c: Cluster, step: Step, id: nat)
    requires Enabled(c, step) && id < |c.servers| && c.servers[id].status == Leader && !Restarts(step, id)
    requires !(step.ReceiveAppendAnswer? || step.ReceiveInstallAnswer?)
    ensures |After(c, step).servers| == |c.servers|
    ensures After(c, step).servers[id].matchIndex == c.servers[id].matchIndex
  {
  }

  /** While a peer leads, what it knows of another is never forgotten, however late answers arrive. */
  lemma {:induction false} MatchNeverFalls(r: Run, i: nat, j: nat, id: nat, p: nat)
    requires IsSoundRun(r) && i <= j < |r.states| && id < |r.states[i].servers| && p < |r.states[i].servers|
    requires forall k {:trigger r.states[k]} :: i <= k <= j ==>
               id < |r.states[k].servers| && r.states[k].servers[id].status == Leader
    ensures p < |r.states[i].servers[id].matchIndex| && p < |r.states[j].servers[id].matchIndex|
    ensures r.states[i].servers[id].matchIndex[p] <= r.states[j].servers[id].matchIndex[p]
    decreases j
  {
    PositionsInOrder(r, i, id);
    if i < j {
      MatchNeverFalls(r, i, j - 1, id, p);
      assert StepsAt(r, j - 1);
      assert r.states[j - 1].servers[id].status == Leader && r.states[j].servers[id].status == Leader;
      MatchOnlyMoves(r.states[j - 1], r.steps[j - 1], id, p);
    }
  }

  // ---------- a leader and a follower in its term ----------

  // The leader leads, the follower is in its term, what the follower has committed is the leader's, and the leader has
  // not backed up into what the follower has compacted.
  ghost predicate Paired(h: History, l: Server, f: Server, peer: nat) {
    && LeadersOk(h) && Traced(h, l.log) && Traced(h, f.log) && WellFormed(l) && WellFormed(f)
    && l.status == Leader && f.currentTerm == l.currentTerm
    && peer < |l.nextIndex| == |l.matchIndex|
    && Agree(l.log, f.log, f.commitIndex) && f.base < l.nextIndex[peer] <= |l.log| + 1
  }

  // The answer to the leader's heartbeat, if it is one with entries.
  predicate Refused(l: Server, f: Server, me: nat, peer: nat, args: AppendArgs, reply: AppendReply)
    requires WellFormed(l) && WellFormed(f)
  {
    SendAppend(l, me, peer) == Some(args) && AppendEntries(f, args).1 == reply && !reply.success
  }

  lemma RefusalIs(f: Server, args: AppendArgs)
    requires f.base <= |f.log| && args.term == f.currentTerm
    ensures var (f', reply) := AppendEntries(f, args);
            && (MatchPrev(f, args).None? <==> reply.success)
            && (!reply.success ==> f' == f.(status := Follower) && MatchPrev(f, args) == Some(reply))
  {
    var s := StepDown(f, args.term).(status := Follower);
    assert s == f.(status := Follower);
    assert MatchPrev(s, args) == MatchPrev(f, args);
  }

  /** Handling a refusal, the leader moves nextIndex strictly down, not into what the follower has compacted, and not
      past an index up to which the two logs agree, unless into what it has compacted itself.  Nothing else changes. */
  lemma BackUpBounds(h: History, l: Server, f: Server, me: nat, peer: nat, args: AppendArgs, reply: AppendReply, k: nat)
    requires Paired(h, l, f, peer) && Refused(l, f, me, peer, args, reply) && Agree(l.log, f.log, k)
    ensures var l' := HandleAppendReply(l, me, peer, args, reply);
            && |l'.nextIndex| == |l.nextIndex| && l' == l.(nextIndex := l.nextIndex[peer := l'.nextIndex[peer]])
            && f.base < l'.nextIndex[peer] < l.nextIndex[peer]
            && (k < l'.nextIndex[peer] || l'.nextIndex[peer] <= l.base)
  {
    var prev := args.prevLogIndex;
    RefusalIs(f, args);
    AgreeLess(l.log, f.log, f.commitIndex, f.base);
    AgreeingTerm(l.log, f.log, f.base);
    assert prev > f.base;
    ConflictIsReported(f, args);
    if prev <= |f.log| {
      ConflictBacksUp(h, l, f, reply, prev, k);
      ConflictBacksUp(h, l, f, reply, prev, f.base);
    }
  }

  /** Where nextIndex has fallen into what the follower has compacted, handling the refusal leaves the leader as it was,
      so that the next call is refused again, if and only if the leader has a snapshot of its own. */
  lemma RefusedForeverIff(l: Server, f: Server, me: nat, peer: nat, args: AppendArgs, reply: AppendReply)
    requires WellFormed(l) && WellFormed(f) && peer < |l.nextIndex| == |l.matchIndex| && f.currentTerm == l.currentTerm
    requires Refused(l, f, me, peer, args, reply) && args.prevLogIndex < f.base
    ensures HandleAppendReply(l, me, peer, args, reply) == l <==> 0 < l.base
  {
    RefusalIs(f, args);
    LastIndexIs(l.log, l.base, -1, |l.log|);
    assert l.nextIndex[peer := l.nextIndex[peer]] == l.nextIndex;
  }

  // ---------- repeated rounds ----------

  // The leader as it is when its call is accepted at last: every refusal is handled, and neither log changes.
  ghost function Settle(h: History, l: Server, f: Server, me: nat, peer: nat): (l': Server)
    requires Paired(h, l, f, peer) && l.base == 0
    ensures Paired(h, l', f, peer) && l'.base == 0 && l'.log == l.log && SendAppend(l', me, peer).Some?
    ensures AppendEntries(f, SendAppend(l', me, peer).value).1.success
    decreases l.nextIndex[peer]
  {
    var args := SendAppend(l, me, peer).value;
    var reply := AppendEntries(f, args).1;
    if reply.success then l
    else
      BackUpBounds(h, l, f, me, peer, args, reply, 0);
      Settle(h, HandleAppendReply(l, me, peer, args, reply), f, me, peer)
  }

  // It never passes an agreeing index on the way ...
  lemma {:induction false} SettlesAbove(h: History, l: Server, f: Server, me: nat, peer: nat, k: nat)
    requires Paired(h, l, f, peer) && l.base == 0 && Agree(l.log, f.log, k) && k < l.nextIndex[peer]
    ensures k < Settle(h, l, f, me, peer).nextIndex[peer]
    decreases l.nextIndex[peer]
  {
    var args := SendAppend(l, me, peer).value;
    var reply := AppendEntries(f, args).1;
    if !reply.success {
      BackUpBounds(h, l, f, me, peer, args, reply, k);
      SettlesAbove(h, HandleAppendReply(l, me, peer, args, reply), f, me, peer, k);
    }
  }

  // ... and where it is accepted the logs agree.
  lemma AcceptedAgrees(h: History, l: Server, f: Server, me: nat, peer: nat, args: AppendArgs)
    requires Paired(h, l, f, peer) && SendAppend(l, me, peer) == Some(args) && AppendEntries(f, args).1.success
    ensures Agree(l.log, f.log, args.prevLogIndex)
  {
    RefusalIs(f, args);
    AgreeLess(l.log, f.log, f.commitIndex, f.base);
    if args.prevLogIndex > f.base { SharedTerm(h, l.log, f.log, args.prevLogIndex, args.prevLogIndex); }
  }

  lemma SettlesAtCommonPrefix(h: History, l: Server, f: Server, me: nat, peer: nat)
    requires Paired(h, l, f, peer) && l.base == 0 && l.nextIndex[peer] == |l.log| + 1
    ensures var k := Settle(h, l, f, me, peer).nextIndex[peer] - 1;
            Agree(l.log, f.log, k) && forall j: nat :: Agree(l.log, f.log, j) ==> j <= k
  {
    var l' := Settle(h, l, f, me, peer);
    AcceptedAgrees(h, l', f, me, peer, SendAppend(l', me, peer).value);
    forall j: nat | Agree(l.log, f.log, j) ensures j < l'.nextIndex[peer] { SettlesAbove(h, l, f, me, peer, j); }
  }

  lemma PairedInRun(r: Run, i: nat, a: nat, b: nat) returns (h: Record)
    requires IsSoundRun(r) && i < |r.states| && a < |r.states[i].servers| && b < |r.states[i].servers|
    requires var l, f := r.states[i].servers[a], r.states[i].servers[b];
             && l.status == Leader && f.currentTerm == l.currentTerm
             && b < |l.nextIndex| && f.base < l.nextIndex[b] <= |l.log| + 1
    ensures Paired(h, r.states[i].servers[a], r.states[i].servers[b], b)
  {
    h := OneMoment(r, i);
    var l, f := r.states[i].servers[a], r.states[i].servers[b];
    assert ServerOk(h, a, l) && ServerOk(h, b, f);
    KeptCommit(h, f, f.log);
  }

  /** In every state of every run, a leader that starts from the end of its log and handles each refusal of a follower
      in its term, neither having compacted, arrives at exactly the longest common prefix of the two logs. */
  lemma BackUpFindsCommonPrefix(r: Run, i: nat, a: nat, b: nat) returns (h: Record)
    requires IsSoundRun(r) && i < |r.states| && a < |r.states[i].servers| && b < |r.states[i].servers|
    requires var l, f := r.states[i].servers[a], r.states[i].servers[b];
             && l.base == 0 && f.base == 0 && l.status == Leader && f.currentTerm == l.currentTerm
             && b < |l.nextIndex| && l.nextIndex[b] == |l.log| + 1
    ensures var l, f := r.states[i].servers[a], r.states[i].servers[b];
            && Paired(h, l, f, b)
            && var k := Settle(h, l, f, a, b).nextIndex[b] - 1;
               Agree(l.log, f.log, k) && forall j: nat :: Agree(l.log, f.log, j) ==> j <= k
  {
    h := PairedInRun(r, i, a, b);
    SettlesAtCommonPrefix(h, r.states[i].servers[a], r.states[i].servers[b], a, b);
  }

  // ---------- bringing a follower up ----------

  /** Handling a success, the leader knows that the peer has its whole log. */
  lemma SuccessCounts(l: Server, me: nat, peer: nat, args: AppendArgs, reply: AppendReply)
    requires WellFormed(l) && peer < |l.nextIndex| == |l.matchIndex| && SendAppend(l, me, peer) == Some(args)
    requires reply.success && reply.term <= l.currentTerm && l.matchIndex[peer] <= |l.log|
    ensures var l' := HandleAppendReply(l, me, peer, args, reply);
            && l'.matchIndex == l.matchIndex[peer := |l.log|] && l'.nextIndex == l.nextIndex[peer := |l.log| + 1]
            && l' == l.(matchIndex := l'.matchIndex, nextIndex := l'.nextIndex, commitIndex := l'.commitIndex)
  {
  }

  /** An accepted call leaves the follower with the leader's whole log. */
  lemma AcceptedHolds(h: History, l: Server, f: Server, me: nat, peer: nat, args: AppendArgs)
    requires Paired(h, l, f, peer) && SendAppend(l, me, peer) == Some(args) && AppendEntries(f, args).1.success
    ensures l.log <= AppendEntries(f, args).0.log
  {
    AcceptedAgrees(h, l, f, me, peer, args);
    RefusalIs(f, args);
    AgreeLess(l.log, f.log, f.commitIndex, f.base);
    assert l.log[args.prevLogIndex..|l.log|] == args.entries && l.log[..|l.log|] == l.log;
    MergeFollows(h, f.log, f.base, l.log, args.prevLogIndex + 1, |l.log|);
  }

  /** An answered snapshot counts: the leader knows that the peer has its prefix, and goes on with the entries behind
      it, so that it does not offer the same snapshot again. */
  lemma AnsweredSnapshotCounts(l: Server, me: nat, peer: nat, args: InstallArgs, reply: InstallReply)
    requires l.status == Leader && args.term == l.currentTerm && reply.term <= l.currentTerm && l.base <= |l.log|
    requires peer < |l.matchIndex| && peer < |l.nextIndex|
    ensures var l' := HandleInstallReply(l, peer, args, reply);
            && |args.prefix| <= l'.matchIndex[peer] < l'.nextIndex[peer]
            && (l.base <= |args.prefix| ==> SendInstall(l', me, peer) == None)
  {
  }

  // The snapshot brings the follower to the leader's snapshot position, and leaves it right up to what it knows.
  lemma SnapshotTaken(h: History, l: Server, f: Server, me: nat, peer: nat, args: InstallArgs)
    requires Paired(h, l, f, peer) && SendInstall(l, me, peer) == Some(args) && l.matchIndex[peer] <= l.base
    ensures var (f', reply) := InstallSnapshot(f, args);
            var l' := HandleInstallReply(l, peer, args, reply);
            && Paired(h, l', f', peer) && f'.base == l.base && l'.matchIndex[peer] == l.base
            && l' == l.(matchIndex := l.matchIndex[peer := l.base], nextIndex := l.nextIndex[peer := l.base + 1])
  {
    var k := l.base;
    var f' := InstallSnapshot(f, args).0;
    TracedPrefix(h, l.log[..k], l.log);
    assert LastTerm(l.log[..k]) == TermAt(l.log, k);
    if k <= f.commitIndex {
      AgreeLess(l.log, f.log, f.commitIndex, k);
      AgreeingTerm(l.log, f.log, k);
    }
    if k <= |f.log| && TermAt(f.log, k) == TermAt(l.log, k) {
      SharedTerm(h, l.log, f.log, k, k);
      assert l.log[..k] + f.log[k..] == f.log;
    }
  }

  // One exchange: entries if the next one is still in the leader's log, the snapshot if it is not.
  ghost function Round(l: Server, f: Server, me: nat, peer: nat): (Server, Server)
    requires WellFormed(l) && WellFormed(f) && peer < |l.nextIndex| == |l.matchIndex|
  {
    match SendAppend(l, me, peer)
    case Some(args) =>
      var (f', reply) := AppendEntries(f, args);
      (HandleAppendReply(l, me, peer, args, reply), f')
    case None =>
      match SendInstall(l, me, peer)
      case Some(args) =>
        var (f', reply) := InstallSnapshot(f, args);
        (HandleInstallReply(l, peer, args, reply), f')
      case None => (l, f)
  }

  ghost predicate Accepts(l: Server, f: Server, me: nat, peer: nat)
    requires WellFormed(l) && WellFormed(f)
  {
    SendAppend(l, me, peer).Some? && AppendEntries(f, SendAppend(l, me, peer).value).1.success
  }

  // A leader that does not yet know of anything beyond its own snapshot.
  ghost predicate Unheard(l: Server, peer: nat) {
    peer < |l.matchIndex| && l.matchIndex[peer] <= l.base
  }

  /** A round that is not the last brings the end nearer: nextIndex falls, or the snapshot has been installed. */
  lemma RoundMoves(h: History, l: Server, f: Server, me: nat, peer: nat)
    requires Paired(h, l, f, peer) && Unheard(l, peer) && !Accepts(l, f, me, peer)
    ensures var (l', f') := Round(l, f, me, peer);
            && Paired(h, l', f', peer) && Unheard(l', peer) && l'.log == l.log && l'.base == l.base
            && ((f.base < l.base && f'.base == l.base) || (f'.base == f.base && l'.nextIndex[peer] < l.nextIndex[peer]))
  {
    if SendAppend(l, me, peer).Some? {
      var args := SendAppend(l, me, peer).value;
      RefusalIs(f, args);
      BackUpBounds(h, l, f, me, peer, args, AppendEntries(f, args).1, 0);
    } else {
      SnapshotTaken(h, l, f, me, peer, SendInstall(l, me, peer).value);
    }
  }

  /** However far apart the two logs are and whatever either has compacted, exchanges end, with the leader's whole log
      at the follower and the leader knowing it. */
  ghost function CatchUp(h: History, l: Server, f: Server, me: nat, peer: nat): (r: (Server, Server))
    requires Paired(h, l, f, peer) && Unheard(l, peer)
    ensures r.0.log == l.log <= r.1.log && peer < |r.0.matchIndex| && r.0.matchIndex[peer] == |l.log|
    decreases if f.base < l.base then 1 else 0, l.nextIndex[peer]
  {
    var (l', f') := Round(l, f, me, peer);
    if Accepts(l, f, me, peer) then
      var args := SendAppend(l, me, peer).value;
      AcceptedHolds(h, l, f, me, peer, args);
      SuccessCounts(l, me, peer, args, AppendEntries(f, args).1);
      (l', f')
    else
      RoundMoves(h, l, f, me, peer);
      CatchUp(h, l', f', me, peer)
  }
}
