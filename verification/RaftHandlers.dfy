/**
  What each critical section of a Raft peer does, as a function on its state: one function per handler that
  runs under `rf.mu`.  RaftServer.dfy proves the field-updating methods against these functions, and
  RaftCluster.dfy builds the distributed protocol from them.
 */
module RaftHandlers {
  import opened Options
  import opened RaftTypes

  // ---------- terms ----------

  function StepDown(s: Server, newTerm: nat): Server {
    if newTerm <= s.currentTerm then s
    else s.(currentTerm := newTerm, status := Follower, votedFor := NOBODY)
  }

  // ---------- elections ----------

  function StartElection(s: Server, me: nat, peers: nat): Server {
    s.(status := Candidate,
       currentTerm := s.currentTerm + 1,
       votedFor := me,
       votes := 1,
       awaiting := Peers(peers) - {me})
  }

  function ElectionArgs(s: Server, me: nat): VoteArgs {
    VoteArgs(s.currentTerm, me, |s.log|, LastTerm(s.log))
  }

  function RequestVote(s: Server, args: VoteArgs): (Server, VoteReply) {
    if args.term < s.currentTerm then
      (s, VoteReply(s.currentTerm, false))
    else
      var s1 := StepDown(s, args.term);
      if (s1.votedFor == NOBODY || s1.votedFor == args.candidate)
          && UpToDate(args.lastLogIndex, args.lastLogTerm, s1.log) then
        (s1.(votedFor := args.candidate), VoteReply(s1.currentTerm, true))
      else
        (s1, VoteReply(s1.currentTerm, false))
  }

  function BecomeLeader(s: Server, peers: nat): Server {
    if s.status == Leader then s
    else s.(status := Leader,
            nextIndex := seq(peers, _ => |s.log| + 1),
            matchIndex := seq(peers, _ => s.base))
  }

  // The reply of `peer` to the call made for the election `args`; each call delivers at most one reply.
  function HandleVoteReply(s: Server, peers: nat, peer: nat, args: VoteArgs, reply: VoteReply): Server {
    if s.currentTerm != args.term || s.status != Candidate then s
    else if reply.term > s.currentTerm then StepDown(s, reply.term)
    else
      var s1 := s.(awaiting := s.awaiting - {peer});
      if !reply.granted then s1
      else
        var s2 := s1.(votes := s1.votes + 1);
        if s2.votes > peers / 2 then BecomeLeader(s2, peers) else s2
  }

  // ---------- log replication, receiving side ----------

  // Walks down from `i` while the entries above the snapshot carry `term`.
  function RunStart(log: Log, base: nat, i: int, term: int): int
    requires i <= |log|
    decreases i
  {
    if i > base && TermAt(log, i) == term then RunStart(log, base, i - 1, term) else i
  }

  // The refusal of an AppendEntries whose previous entry is not in the log; None when it is.
  function MatchPrev(s: Server, args: AppendArgs): Option<AppendReply>
    requires s.base <= |s.log|
  {
    var prev := args.prevLogIndex;
    if prev > |s.log| then
      Some(AppendReply(s.currentTerm, false, 0, 0, |s.log| + 1))
    else if prev == s.base then
      if TermAt(s.log, s.base) != args.prevLogTerm
      then Some(AppendReply(s.currentTerm, false, TermAt(s.log, s.base), s.base, 0))
      else None
    else
      var term := if prev < s.base then -1 else TermAt(s.log, prev);
      if term != args.prevLogTerm
      then Some(AppendReply(s.currentTerm, false, term, RunStart(s.log, s.base, prev, term) + 1, 0))
      else None
  }

  // Truncate-or-append: `next` is the logical index at which entries[0] belongs.
  function Merge(log: Log, base: nat, next: int, entries: Log): Log
    decreases |entries|
  {
    if entries == [] then log
    else if next <= base then Merge(log, base, next + 1, entries[1..])
    else if next > |log| then log + entries
    else if log[next - 1].term != entries[0].term then log[..next - 1] + entries
    else Merge(log, base, next + 1, entries[1..])
  }

  function FollowerCommit(commitIndex: int, leaderCommit: int, lastNew: int): int {
    if leaderCommit > commitIndex then
      if leaderCommit < lastNew then leaderCommit else lastNew
    else commitIndex
  }

  function AppendEntries(s: Server, args: AppendArgs): (Server, AppendReply)
    requires s.base <= |s.log|
  {
    if args.term < s.currentTerm then
      (s, AppendReply(s.currentTerm, false, 0, 0, 0))
    else
      var s1 := StepDown(s, args.term).(status := Follower);
      match MatchPrev(s1, args)
      case Some(refusal) => (s1, refusal)
      case None =>
        var log := Merge(s1.log, s1.base, args.prevLogIndex + 1, args.entries);
        var commit := FollowerCommit(s1.commitIndex, args.leaderCommit, args.prevLogIndex + |args.entries|);
        (s1.(log := log, commitIndex := commit), AppendReply(s1.currentTerm, true, 0, 0, 0))
  }

  // ---------- log replication, leader's side ----------

  function Start(s: Server, command: Command): Server {
    if s.status != Leader then s
    else s.(log := s.log + [Entry(s.currentTerm, command)])
  }

  // A heartbeat to a peer whose next entry is still in the log carries the leader's whole suffix.
  function SendAppend(s: Server, me: nat, peer: nat): Option<AppendArgs>
    requires s.base <= |s.log|
  {
    if s.status != Leader || peer >= |s.nextIndex| then None
    else
      var next := s.nextIndex[peer];
      if next <= s.base || next > |s.log| + 1 then None
      else Some(AppendArgs(s.currentTerm, me, next - 1, TermAt(s.log, next - 1), s.log[next - 1..], s.commitIndex))
  }

  // A heartbeat while the snapshot is still on its way: if the next entry is the last one compacted, everything
  // from the dummy slot on, and no term for the entry before.
  function SendStray(s: Server, me: nat, peer: nat, dummy: Entry): Option<AppendArgs>
    requires s.base <= |s.log|
  {
    if s.status != Leader || peer >= |s.nextIndex| || s.nextIndex[peer] != s.base then None
    else Some(AppendArgs(s.currentTerm, me, s.base - 1, -1, [dummy] + s.log[s.base..], s.commitIndex))
  }

  // What may be in the dummy slot: no term, or the snapshot's.
  predicate IsDummy(s: Server, e: Entry)
    requires s.base <= |s.log|
  {
    e.term == 0 || e.term == TermAt(s.log, s.base)
  }

  // A peer whose next entry has been compacted away is sent the snapshot.
  function SendInstall(s: Server, me: nat, peer: nat): Option<InstallArgs>
    requires s.base <= |s.log|
  {
    if s.status != Leader || peer >= |s.nextIndex| || s.nextIndex[peer] > s.base then None
    else Some(InstallArgs(s.currentTerm, me, s.log[..s.base]))
  }

  function UpdateMatchAndNext(s: Server, peer: nat, newMatch: int): Server
    requires peer < |s.matchIndex| && peer < |s.nextIndex|
  {
    var m := if newMatch > s.matchIndex[peer] then newMatch else s.matchIndex[peer];
    s.(matchIndex := s.matchIndex[peer := m], nextIndex := s.nextIndex[peer := m + 1])
  }

  // The peers among the first `k`, other than `me`, known to hold the log up to `n`.
  function Holders(matchIndex: seq<int>, me: nat, n: int, k: nat): nat
    requires k <= |matchIndex|
  {
    if k == 0 then 0
    else Holders(matchIndex, me, n, k - 1) + (if k - 1 != me && matchIndex[k - 1] >= n then 1 else 0)
  }

  // Those peers themselves.
  function HolderSet(matchIndex: seq<int>, me: nat, n: int, k: nat): (r: set<nat>)
    requires k <= |matchIndex|
    ensures forall p: nat :: p in r <==> p < k && p != me && matchIndex[p] >= n
  {
    set p | p in Peers(k) && p != me && matchIndex[p] >= n
  }

  lemma OneHolderMore(a: set<nat>, b: set<nat>, p: nat)
    requires p !in a && forall q: nat :: q in b <==> q in a || (q == p && p in b)
    ensures |b| == |a| + if p in b then 1 else 0
  {
    if p in b { assert b == a + {p}; } else { assert b == a; }
  }

  /** The count is the number of peers, other than the leader, that hold the log up to n. */
  lemma {:induction false} HoldersCounts(matchIndex: seq<int>, me: nat, n: int, k: nat)
    requires k <= |matchIndex|
    ensures Holders(matchIndex, me, n, k) == |HolderSet(matchIndex, me, n, k)|
  {
    if k == 0 {
      assert HolderSet(matchIndex, me, n, 0) == {};
    } else {
      HoldersCounts(matchIndex, me, n, k - 1);
      OneHolderMore(HolderSet(matchIndex, me, n, k - 1), HolderSet(matchIndex, me, n, k), k - 1);
    }
  }

  // The highest index at or below `n` that a leader may commit: its own term, and stored by a majority.
  function LeaderCommit(s: Server, me: nat, n: int): int
    requires n <= |s.log| && 0 <= s.commitIndex
    decreases n - s.commitIndex
  {
    if n <= s.commitIndex then s.commitIndex
    else if TermAt(s.log, n) == s.currentTerm
        && 1 + Holders(s.matchIndex, me, n, |s.matchIndex|) > |s.matchIndex| / 2 then n
    else LeaderCommit(s, me, n - 1)
  }

  // The last index at or below `i`, above the snapshot, whose entry has the term; -1 if there is none.
  function LastIndexOfTerm(log: Log, base: nat, term: int, i: int): int
    requires i <= |log|
    decreases i
  {
    if i <= base then -1
    else if TermAt(log, i) == term then i
    else LastIndexOfTerm(log, base, term, i - 1)
  }

  function FindLastIndexOfTerm(s: Server, term: int): int
    requires s.base <= |s.log|
  {
    var i := LastIndexOfTerm(s.log, s.base, term, |s.log|);
    if i == -1 && term == TermAt(s.log, s.base) then s.base else i
  }

  // Where the leader backs up to after a refusal.
  function BackUp(s: Server, reply: AppendReply): int
    requires s.base <= |s.log|
  {
    if reply.xLen != 0 then reply.xLen
    else
      var i := FindLastIndexOfTerm(s, reply.xTerm);
      if i == -1 then reply.xIndex else i + 1
  }

  function HandleAppendReply(s: Server, me: nat, peer: nat, args: AppendArgs, reply: AppendReply): Server
    requires WellFormed(s)
    requires peer < |s.matchIndex| && peer < |s.nextIndex|
  {
    if s.status != Leader || s.currentTerm != args.term then s
    else if reply.term > s.currentTerm then StepDown(s, reply.term)
    else if reply.success then
      var s1 := UpdateMatchAndNext(s, peer, args.prevLogIndex + |args.entries|);
      s1.(commitIndex := LeaderCommit(s1, me, |s1.log|))
    else
      s.(nextIndex := s.nextIndex[peer := BackUp(s, reply)])
  }

  function HandleInstallReply(s: Server, peer: nat, args: InstallArgs, reply: InstallReply): Server
    requires peer < |s.matchIndex| && peer < |s.nextIndex|
  {
    if s.status != Leader || s.currentTerm != args.term then s
    else if reply.term > s.currentTerm then StepDown(s, reply.term)
    else UpdateMatchAndNext(s, peer, |args.prefix|)
  }

  // ---------- compaction ----------

  function Snapshot(s: Server, index: nat): Server {
    if index <= s.base then s else s.(base := index)
  }

  function InstallSnapshot(s: Server, args: InstallArgs): (Server, InstallReply)
    requires s.base <= |s.log|
  {
    var reply := InstallReply(s.currentTerm);
    if args.term < s.currentTerm then (s, reply)
    else
      var s1 := s.(currentTerm := args.term, votedFor := NOBODY, status := Follower);
      var k := |args.prefix|;
      if k <= s.base then (s1, reply)
      else
        var log := if k <= |s.log| && TermAt(s.log, k) == LastTerm(args.prefix) then args.prefix + s.log[k..]
            else args.prefix;
        (s1.(log := log,
             base := k,
             commitIndex := if s.commitIndex < k then k else s.commitIndex,
             lastApplied := if s.lastApplied < k then k else s.lastApplied,
             applySnapshot := true),
         reply)
  }

  // ---------- applying and restarting ----------

  // The committed commands from `low` up to `high`, as they are sent to the service.
  function Commands(log: Log, base: nat, low: int, high: int): seq<ApplyMsg>
    decreases high - low
  {
    if low > high then []
    else (if base < low <= |log| then [CommandMsg(low, log[low - 1].command)]
        else []) + Commands(log, base, low + 1, high)
  }

  // One round of the apply loop.
  function ApplyCommitted(s: Server): (Server, seq<ApplyMsg>)
    requires s.base <= |s.log|
  {
    if s.commitIndex <= s.lastApplied && !s.applySnapshot then (s, [])
    else if s.lastApplied < s.base || s.applySnapshot then
      (s.(lastApplied := s.base, applySnapshot := false), [SnapshotMsg(s.log[..s.base])])
    else
      (s.(lastApplied := s.commitIndex), Commands(s.log, s.base, s.lastApplied + 1, s.commitIndex))
  }

  // A fresh object built from the persisted term, vote, log and snapshot position.
  function Restart(s: Server, peers: nat): Server {
    Server(s.currentTerm, s.votedFor, s.log, s.base, s.base, s.base, Follower,
           seq(peers, _ => 1), seq(peers, _ => 0), false, 0, {})
  }

  function FirstBoot(peers: nat): Server {
    Server(0, NOBODY, [], 0, 0, 0, Follower, seq(peers, _ => 1), seq(peers, _ => 0), false, 0, {})
  }
}
