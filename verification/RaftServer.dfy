/**
  A Raft peer as an object: its fields updated in place under `rf.mu`, its log kept at an offset behind a dummy
  slot, and its persistent fields saved before every method returns.

  The ghost field `full` is the whole logical log, compacted part included.  Each method is proved to do to the
  logical state exactly what the corresponding function of RaftHandlers does, so that a peer with an offset log
  behaves as one that never dropped an entry.
 */
module RaftServer {
  import opened Options
  import opened RaftTypes
  import H = RaftHandlers

  type Bytes = seq<bv8>

  // What `persist` encodes; encoding and decoding lose nothing.
  datatype Saved = Saved(currentTerm: nat, votedFor: int, slots: Log, lastIncludedIndex: nat, lastIncludedTerm: int)

  class Persister {
    var raftstate: Option<Saved>
    var snapshot: Bytes

    constructor ()
      ensures raftstate == None && snapshot == []
    {
      raftstate, snapshot := None, [];
    }

    // A fresh store with the same contents.
    constructor Copy(from: Persister)
      ensures raftstate == from.raftstate && snapshot == from.snapshot
    {
      raftstate, snapshot := from.raftstate, from.snapshot;
    }

    method Save(state: Saved, data: Bytes)
      modifies this
      ensures raftstate == Some(state) && snapshot == data
    {
      raftstate, snapshot := Some(state), data;
    }
  }

  // The InstallSnapshot arguments as sent.
  datatype InstallRpc = InstallRpc(term: nat, leader: nat, lastIncludedIndex: nat, lastIncludedTerm: int, data: Bytes)

  // An ApplyMsg as delivered.
  datatype Delivery =
    | CommandAt(index: int, command: Command)
    | SnapshotAt(index: int, term: int, data: Bytes)

  // The delivery stands for the message: a snapshot is named by its last index and term.
  predicate StandsFor(d: Delivery, m: ApplyMsg) {
    match m
    case CommandMsg(index, command) => d == CommandAt(index, command)
    case SnapshotMsg(prefix) => d.SnapshotAt? && d.index == |prefix| && d.term == LastTerm(prefix)
  }

  class Raft {
    const me: nat
    const peers: nat
    const nil: Command   // the command of a dummy slot
    const persister: Persister

    var currentTerm: nat
    var votedFor: int
    var slots: Log                 // slot 0 is a dummy, slot i holds logical index lastIncludedIndex + i
    var commitIndex: int
    var lastApplied: int
    var status: Status
    var nextIndex: seq<int>
    var matchIndex: seq<int>
    var snapshot: Bytes
    var lastIncludedIndex: nat
    var lastIncludedTerm: int
    var applySnapshot: bool
    var votes: nat
    var awaiting: set<nat>

    ghost var full: Log

    // The slots are the part of the logical log above the snapshot, behind a dummy.
    static ghost predicate SlotsOf(slots: Log, index: nat, term: int, full: Log) {
      && |slots| >= 1
      && |full| == index + |slots| - 1
      && slots[1..] == full[index..]
      && term == TermAt(full, index)
      && (slots[0].term == 0 || slots[0].term == term)
    }

    ghost predicate Offset()
      reads this
    {
      SlotsOf(slots, lastIncludedIndex, lastIncludedTerm, full)
    }

    // A restart would find the current term, vote, log and snapshot.
    ghost predicate Persisted()
      reads this, persister
    {
      && persister.snapshot == snapshot
      && match persister.raftstate
         case Some(saved) => saved == Saved(currentTerm, votedFor, slots, lastIncludedIndex, lastIncludedTerm)
         case None => currentTerm == 0 && votedFor == NOBODY && full == [] && lastIncludedIndex == 0
    }

    ghost predicate Shape()
      reads this
    {
      && me < peers
      && |nextIndex| == |matchIndex| == peers
      && Offset()
    }

    ghost predicate Valid()
      reads this, persister
    {
      Shape() && Persisted()
    }

    ghost function State(): Server
      reads this
    {
      Server(currentTerm, votedFor, full, lastIncludedIndex, commitIndex, lastApplied, status,
             nextIndex, matchIndex, applySnapshot, votes, awaiting)
    }

    // The logical log `whole` is what the saved state stands for.
    static ghost predicate Describes(saved: Option<Saved>, whole: Log) {
      match saved
      case Some(s) => SlotsOf(s.slots, s.lastIncludedIndex, s.lastIncludedTerm, whole)
      case None => whole == []
    }

    constructor Make(me: nat, peers: nat, nil: Command, persister: Persister, ghost whole: Log)
      requires me < peers && Describes(persister.raftstate, whole)
      ensures Valid() && this.me == me && this.peers == peers && this.persister == persister
              && snapshot == persister.snapshot
      ensures match persister.raftstate
              case Some(s) => State() ==
                  Server(s.currentTerm, s.votedFor, whole, s.lastIncludedIndex, s.lastIncludedIndex,
                  s.lastIncludedIndex,
                                                Follower, seq(peers, _ => 1), seq(peers, _ => 0), false, 0, {})
              case None => State() == H.FirstBoot(peers)
    {
      this.me, this.peers, this.nil, this.persister := me, peers, nil, persister;
      currentTerm, votedFor, slots := 0, NOBODY, [Entry(0, nil)];
      lastIncludedIndex, lastIncludedTerm := 0, -1;
      commitIndex, lastApplied := 0, 0;
      nextIndex, matchIndex := seq(peers, _ => 1), seq(peers, _ => 0);
      status, applySnapshot, votes, awaiting := Follower, false, 0, {};
      snapshot := persister.snapshot;
      full := whole;
      new;
      ReadPersist();
    }

    // Takes over what was saved before a crash, if anything.
    method ReadPersist()
      requires commitIndex == lastApplied == 0
      modifies `currentTerm, `votedFor, `slots, `lastIncludedIndex, `lastIncludedTerm, `commitIndex, `lastApplied
      ensures match persister.raftstate
              case Some(s) =>
                && currentTerm == s.currentTerm && votedFor == s.votedFor && slots == s.slots
                && lastIncludedIndex == commitIndex == lastApplied == s.lastIncludedIndex
                && lastIncludedTerm == s.lastIncludedTerm
              case None => unchanged(this)
    {
      if persister.raftstate.Some? {
        var s := persister.raftstate.value;
        currentTerm, votedFor, slots := s.currentTerm, s.votedFor, s.slots;
        lastIncludedIndex, lastIncludedTerm := s.lastIncludedIndex, s.lastIncludedTerm;
        if lastIncludedIndex > lastApplied { lastApplied := lastIncludedIndex; }
        if lastIncludedIndex > commitIndex { commitIndex := lastIncludedIndex; }
      }
    }

    // ---------- indices ----------

    function ToPhysicalIndex(logical: int): int
      reads this
    {
      logical - lastIncludedIndex
    }

    // The term of a slot, -1 outside the log.
    function TermOfSlot(physical: int): int
      reads this
    {
      if physical < 0 || physical >= |slots| then -1 else slots[physical].term
    }

    function TermOf(logical: int): (t: int)
      reads this
      ensures Shape() && lastIncludedIndex < logical <= |full| ==> t == TermAt(full, logical)
      ensures logical < lastIncludedIndex || (Shape() && logical > |full|) ==> t == -1
    {
      assert Shape() && lastIncludedIndex < logical <= |full| ==>
             slots[1..][logical - lastIncludedIndex - 1] == full[logical - 1];
      TermOfSlot(ToPhysicalIndex(logical))
    }

    function LastLogIndex(): (i: int)
      reads this
      ensures Shape() ==> i == |full|
    {
      |slots| - 1 + lastIncludedIndex
    }

    function LastLogIndexTerm(): (t: int)
      requires |slots| >= 1
      reads this
      ensures Shape() ==> t == LastTerm(full)
    {
      assert Shape() && |slots| > 1 ==> slots[1..][|slots| - 2] == full[|full| - 1];
      if |slots| > 1 then slots[|slots| - 1].term else lastIncludedTerm
    }

    predicate IsLogUpToDate(candidateIndex: int, candidateTerm: int)
      requires |slots| >= 1
      reads this
      ensures Shape() ==> IsLogUpToDate(candidateIndex, candidateTerm) == UpToDate(candidateIndex, candidateTerm, full)
    {
      if candidateTerm != LastLogIndexTerm() then candidateTerm > LastLogIndexTerm()
          else candidateIndex >= LastLogIndex()
    }

    // ---------- persistence ----------

    method Persist()
      requires Shape()
      modifies persister
      ensures Valid()
    {
      persister.Save(Saved(currentTerm, votedFor, slots, lastIncludedIndex, lastIncludedTerm), snapshot);
    }

    // ---------- terms and elections ----------

    method StepDown(newTerm: nat) returns (stepped: bool)
      requires Valid()
      modifies this, persister
      ensures Valid() && State() == H.StepDown(old(State()), newTerm)
      ensures stepped == (newTerm > old(currentTerm)) && snapshot == old(snapshot) && slots == old(slots)
    {
      if newTerm <= currentTerm { return false; }
      currentTerm := newTerm;
      status := Follower;
      votedFor := NOBODY;
      Persist();
      return true;
    }

    method RequestVote(args: VoteArgs) returns (reply: VoteReply)
      requires Valid()
      modifies this, persister
      ensures Valid() && (State(), reply) == H.RequestVote(old(State()), args)
    {
      if args.term < currentTerm { return VoteReply(currentTerm, false); }
      if args.term > currentTerm { var _ := StepDown(args.term); }
      if (votedFor == NOBODY || votedFor == args.candidate) && IsLogUpToDate(args.lastLogIndex, args.lastLogTerm) {
        votedFor := args.candidate;
        Persist();
        reply := VoteReply(currentTerm, true);
      } else {
        reply := VoteReply(currentTerm, false);
      }
    }

    method StartElection() returns (args: VoteArgs)
      requires Valid()
      modifies this, persister
      ensures Valid() && State() == H.StartElection(old(State()), me, peers) && args == H.ElectionArgs(State(), me)
    {
      Stand();
      votes, awaiting := 1, Peers(peers) - {me};
      args := VoteArgs(currentTerm, me, LastLogIndex(), LastLogIndexTerm());
    }

    // Becomes a candidate of the next term and votes for itself.
    method Stand()
      requires Valid()
      modifies this, persister
      ensures Valid() && slots == old(slots)
      ensures State() == old(State()).(status := Candidate, currentTerm := old(currentTerm) + 1, votedFor := me)
    {
      status := Candidate;
      currentTerm := currentTerm + 1;
      votedFor := me;
      Persist();
    }

    method BecomeLeader()
      requires Valid()
      modifies this
      ensures Valid() && State() == H.BecomeLeader(old(State()), peers)
    {
      if status == Leader { return; }
      status := Leader;
      var next, known := lastIncludedIndex + |slots|, lastIncludedIndex;
      nextIndex, matchIndex := seq(peers, _ => next), seq(peers, _ => known);
    }

    method HandleRequestVoteReply(peer: nat, args: VoteArgs, reply: VoteReply)
      requires Valid()
      modifies this, persister
      ensures Valid() && State() == H.HandleVoteReply(old(State()), peers, peer, args, reply)
    {
      if currentTerm != args.term || status != Candidate { return; }
      if reply.term > currentTerm {
        var _ := StepDown(reply.term);
        return;
      }
      awaiting := awaiting - {peer};
      if !reply.granted { return; }
      votes := votes + 1;
      if votes > peers / 2 { BecomeLeader(); }
    }

    // ---------- log replication, receiving side ----------

    method MatchPrevLog(args: AppendArgs) returns (matched: bool, refusal: AppendReply)
      requires Valid()
      ensures matched == H.MatchPrev(State(), args).None?
      ensures !matched ==> H.MatchPrev(State(), args) == Some(refusal)
    {
      matched, refusal := false, AppendReply(currentTerm, false, 0, 0, 0);
      if args.prevLogIndex > LastLogIndex() {
        refusal := refusal.(xLen := LastLogIndex() + 1);
        return;
      }
      if args.prevLogIndex == lastIncludedIndex {
        matched := lastIncludedTerm == args.prevLogTerm;
        refusal := refusal.(xTerm := lastIncludedTerm, xIndex := lastIncludedIndex);
        return;
      }
      var term := TermOf(args.prevLogIndex);
      if term == args.prevLogTerm {
        matched := true;
        return;
      }
      var i := args.prevLogIndex;
      while i > lastIncludedIndex && TermOf(i) == term
        invariant i <= |full|
        invariant H.RunStart(full, lastIncludedIndex, i, term) ==
                  H.RunStart(full, lastIncludedIndex, args.prevLogIndex, term)
        decreases i
      {
        i := i - 1;
      }
      refusal := refusal.(xTerm := term, xIndex := i + 1);
    }

    // Replaces everything from logical index `next` on.
    method Splice(next: int, entries: Log)
      requires Shape() && lastIncludedIndex < next <= |full| + 1
      modifies this
      ensures Shape() && State() == old(State()).(log := old(full)[..next - 1] + entries)
      ensures snapshot == old(snapshot)
    {
      var physical := ToPhysicalIndex(next);
      slots := slots[..physical] + entries;
      full := full[..next - 1] + entries;
      assert slots[1..] == old(slots[1..])[..physical - 1] + entries;
      assert full[lastIncludedIndex..] == old(full[lastIncludedIndex..])[..physical - 1] + entries;
      assert lastIncludedIndex > 0 ==> full[lastIncludedIndex - 1] == old(full[lastIncludedIndex - 1]);
    }

    method AppendEntries(args: AppendArgs) returns (reply: AppendReply)
      requires Valid()
      modifies this, persister
      ensures Valid() && (State(), reply) == H.AppendEntries(old(State()), args)
    {
      if args.term < currentTerm { return AppendReply(currentTerm, false, 0, 0, 0); }
      Follow(args.term);
      var matched, refusal := MatchPrevLog(args);
      if !matched { return refusal; }
      TakeEntries(args);
      reply := AppendReply(currentTerm, true, 0, 0, 0);
    }

    // Follows the leader of `term`, which is not behind this server's own.
    method Follow(term: nat)
      requires Valid()
      modifies this, persister
      ensures Valid() && State() == H.StepDown(old(State()), term).(status := Follower) && snapshot == old(snapshot)
    {
      var _ := StepDown(term);
      status := Follower;
    }

    // Merges the entries of an accepted call, saves, and commits as far as the call allows.
    method TakeEntries(args: AppendArgs)
      requires Valid() && args.prevLogIndex <= |full|
      modifies this, persister
      ensures Valid() && snapshot == old(snapshot)
      ensures State() == old(State()).(
                log := H.Merge(old(full), lastIncludedIndex, args.prevLogIndex + 1, args.entries),
                commitIndex :=
                    H.FollowerCommit(old(commitIndex), args.leaderCommit, args.prevLogIndex + |args.entries|))
    {
      MergeEntries(args.prevLogIndex, args.entries);
      Persist();
      UpdateFollowerCommitIndex(args.leaderCommit, args.prevLogIndex + |args.entries|);
    }

    // Truncates at the first conflict and appends what is missing.
    method MergeEntries(prev: int, entries: Log)
      requires Shape() && prev <= |full|
      modifies this
      ensures Shape() && State() == old(State()).(log := H.Merge(old(full), lastIncludedIndex, prev + 1, entries))
      ensures snapshot == old(snapshot)
    {
      var i := 0;
      while i < |entries|
        invariant 0 <= i <= |entries| && prev + i <= |full|
        invariant Shape() && State() == old(State()) && snapshot == old(snapshot)
        invariant H.Merge(full, lastIncludedIndex, prev + 1, entries) ==
                  H.Merge(full, lastIncludedIndex, prev + 1 + i, entries[i..])
      {
        var logical := prev + 1 + i;
        var physical := ToPhysicalIndex(logical);
        assert entries[i..][1..] == entries[i + 1..];
        if physical < 1 {
          i := i + 1;
          continue;
        }
        if physical >= |slots| {
          assert full[..logical - 1] == full;
          Splice(logical, entries[i..]);
          return;
        } else if TermOf(logical) != entries[i].term {
          Splice(logical, entries[i..]);
          return;
        }
        i := i + 1;
      }
    }

    method UpdateFollowerCommitIndex(leaderCommit: int, lastNew: int)
      requires Valid()
      modifies this
      ensures Valid()
              && State() == old(State()).(commitIndex := H.FollowerCommit(old(commitIndex), leaderCommit, lastNew))
    {
      if leaderCommit > commitIndex {
        if leaderCommit < lastNew { commitIndex := leaderCommit; } else { commitIndex := lastNew; }
      }
    }

    // ---------- log replication, leader's side ----------

    method Start(command: Command) returns (index: int, term: int, isLeader: bool)
      requires Valid()
      modifies this, persister
      ensures Valid() && State() == H.Start(old(State()), command)
      ensures isLeader == (status == Leader) && term == currentTerm
      ensures index == if isLeader then |full| else -1
    {
      if status != Leader { return -1, currentTerm, false; }
      slots := slots + [Entry(currentTerm, command)];
      full := full + [Entry(currentTerm, command)];
      assert slots[1..] == old(slots[1..]) + [Entry(currentTerm, command)];
      assert full[lastIncludedIndex..] == old(full[lastIncludedIndex..]) + [Entry(currentTerm, command)];
      Persist();
      return LastLogIndex(), currentTerm, true;
    }

    function PrevLogTerm(logical: int): int
      reads this
    {
      if logical == lastIncludedIndex then lastIncludedTerm else TermOf(logical)
    }

    // What a heartbeat to a peer carries, or whether it is time for the snapshot instead.  `replicating`: a snapshot
    // for the peer is on its way.
    method HeartbeatWorker(peer: nat, replicating: bool) returns (call: Option<AppendArgs>, install: bool)
      requires Valid() && peer < peers
      ensures call == if replicating && nextIndex[peer] <= lastIncludedIndex
                      then H.SendStray(State(), me, peer, slots[0])
                      else H.SendAppend(State(), me, peer)
      ensures install == (!replicating && H.SendInstall(State(), me, peer).Some?)
      ensures H.IsDummy(State(), slots[0])
    {
      call, install := None, false;
      if status != Leader { return; }
      var next := nextIndex[peer];
      if next <= lastIncludedIndex && !replicating {
        install := true;
        return;
      }
      var physicalNext := ToPhysicalIndex(next);
      if physicalNext < 0 || physicalNext > |slots| { return; }
      assert physicalNext > 0 ==> slots[physicalNext..] == slots[1..][physicalNext - 1..] == full[next - 1..];
      assert physicalNext == 0 ==> slots[physicalNext..] == [slots[0]] + slots[1..];
      call := Some(AppendArgs(currentTerm, me, next - 1, PrevLogTerm(next - 1), slots[physicalNext..], commitIndex));
    }

    method UpdateMatchAndNextIndex(peer: nat, newMatchIndex: int)
      requires Valid() && peer < peers
      modifies this
      ensures Valid() && State() == H.UpdateMatchAndNext(old(State()), peer, newMatchIndex)
    {
      if newMatchIndex > matchIndex[peer] { matchIndex := matchIndex[peer := newMatchIndex]; }
      assert matchIndex == old(matchIndex)[peer := matchIndex[peer]];
      nextIndex := nextIndex[peer := matchIndex[peer] + 1];
    }

    method UpdateLeaderCommitIndex()
      requires Valid() && WellFormed(State())
      modifies this
      ensures Valid() && State() == old(State()).(commitIndex := H.LeaderCommit(old(State()), me, |full|))
    {
      var n := LastLogIndex();
      while n > commitIndex
        invariant commitIndex <= n <= |full|
        invariant Valid() && State() == old(State())
        invariant H.LeaderCommit(old(State()), me, n) == H.LeaderCommit(old(State()), me, |full|)
      {
        if TermOf(n) == currentTerm {
          var count := CountHolders(n);
          if count > peers / 2 {
            commitIndex := n;
            return;
          }
        }
        n := n - 1;
      }
    }

    method CountHolders(n: int) returns (count: nat)
      requires Valid()
      ensures count == 1 + H.Holders(matchIndex, me, n, |matchIndex|)
      ensures count == 1 + |H.HolderSet(matchIndex, me, n, |matchIndex|)|
    {
      H.HoldersCounts(matchIndex, me, n, |matchIndex|);
      count := 1;
      for i := 0 to peers
        invariant count == 1 + H.Holders(matchIndex, me, n, i)
      {
        if i != me && matchIndex[i] >= n { count := count + 1; }
      }
    }

    method FindLastIndexOfTerm(term: int) returns (index: int)
      requires Valid()
      ensures index == H.FindLastIndexOfTerm(State(), term)
    {
      index := -1;
      for i := 1 to |slots|
        invariant index == H.LastIndexOfTerm(full, lastIncludedIndex, term, lastIncludedIndex + i - 1)
      {
        assert TermOf(lastIncludedIndex + i) == TermOfSlot(i);
        if TermOfSlot(i) == term { index := i + lastIncludedIndex; }
      }
      if index == -1 && term == lastIncludedTerm { index := lastIncludedIndex; }
    }

    method HandleAppendReply(peer: nat, args: AppendArgs, reply: AppendReply)
      requires Valid() && peer < peers && WellFormed(State())
      modifies this, persister
      ensures Valid() && State() == H.HandleAppendReply(old(State()), me, peer, args, reply)
    {
      if status != Leader || currentTerm != args.term { return; }
      var stepped := StepDown(reply.term);
      if stepped { return; }
      if reply.success {
        UpdateMatchAndNextIndex(peer, args.prevLogIndex + |args.entries|);
        UpdateLeaderCommitIndex();
      } else if reply.xLen != 0 {
        nextIndex := nextIndex[peer := reply.xLen];
      } else {
        var index := FindLastIndexOfTerm(reply.xTerm);
        nextIndex := nextIndex[peer := if index == -1 then reply.xIndex else index + 1];
      }
    }

    // ---------- compaction ----------

    // The service has a snapshot of everything up to a committed index: only the representation changes.
    method Snapshot(index: nat, data: Bytes)
      requires Valid() && index <= |full|
      modifies this, persister
      ensures Valid() && State() == H.Snapshot(old(State()), index)
      ensures full == old(full)
      ensures snapshot == if index > old(lastIncludedIndex) then data else old(snapshot)
    {
      if index <= lastIncludedIndex { return; }
      var physical := ToPhysicalIndex(index);
      assert TermOf(index) == TermOfSlot(physical);
      lastIncludedTerm := TermOfSlot(physical);
      lastIncludedIndex := index;
      slots := [Entry(0, nil)] + slots[physical + 1..];
      assert slots[1..] == old(slots[1..])[physical..] == old(full[lastIncludedIndex..])[physical..] == full[index..];
      snapshot := data;
      Persist();
    }

    // `prefix` is the part of the leader's log that the snapshot bytes summarise.
    method InstallSnapshot(rpc: InstallRpc, ghost prefix: Log) returns (reply: InstallReply)
      requires Valid() && |prefix| == rpc.lastIncludedIndex && LastTerm(prefix) == rpc.lastIncludedTerm
      modifies this, persister
      ensures Valid() && (State(), reply) == H.InstallSnapshot(old(State()), InstallArgs(rpc.term, rpc.leader, prefix))
      ensures snapshot == if rpc.term >= old(currentTerm) && rpc.lastIncludedIndex > old(lastIncludedIndex)
                          then rpc.data else old(snapshot)
    {
      reply := InstallReply(currentTerm);
      if rpc.term < currentTerm { return; }
      currentTerm, votedFor, status := rpc.term, NOBODY, Follower;
      if rpc.lastIncludedIndex <= lastIncludedIndex {
        Persist();
        return;
      }
      snapshot := rpc.data;
      AdoptPrefix(rpc.lastIncludedIndex, rpc.lastIncludedTerm, prefix);
      CatchUp(rpc.lastIncludedIndex);
      Persist();
    }

    method CatchUp(index: nat)
      requires Shape()
      modifies this
      ensures Shape() && snapshot == old(snapshot)
      ensures State() == old(State()).(
                commitIndex := if old(commitIndex) < index then index else old(commitIndex),
                lastApplied := if old(lastApplied) < index then index else old(lastApplied),
                applySnapshot := true)
    {
      if commitIndex < index { commitIndex := index; }
      if lastApplied < index { lastApplied := index; }
      applySnapshot := true;
    }

    // Moves the snapshot up to (index, term), keeping the entries after it exactly when the log has that entry.
    method AdoptPrefix(index: nat, term: int, ghost prefix: Log)
      requires Shape() && |prefix| == index && LastTerm(prefix) == term && index > lastIncludedIndex
      modifies this
      ensures Shape() && snapshot == old(snapshot)
      ensures State() == old(State()).(
                base := index,
                log := if index <= |old(full)| && TermAt(old(full), index) == term then prefix + old(full)[index..]
                    else prefix)
    {
      var appendStart := FindSlot(index, term);
      if appendStart > 0 {
        assert slots[appendStart..] == slots[1..][appendStart - 1..] == full[index..];
        slots := [Entry(term, nil)] + slots[appendStart..];
        full := prefix + full[index..];
        assert full[index - 1] == prefix[index - 1];
      } else {
        slots := [Entry(term, nil)];
        full := prefix;
      }
      lastIncludedIndex := index;
      lastIncludedTerm := term;
    }

    // The slot after the one holding (index, term); -1 if the log has no such entry.
    method FindSlot(index: nat, term: int) returns (start: int)
      requires Shape() && index > lastIncludedIndex
      ensures if index <= |full| && TermAt(full, index) == term then start == index - lastIncludedIndex + 1
              else start == -1
    {
      start := -1;
      for i := 1 to |slots|
        invariant i + lastIncludedIndex > index ==> !(index <= |full| && TermAt(full, index) == term)
      {
        assert TermOf(lastIncludedIndex + i) == TermOfSlot(i);
        if i + lastIncludedIndex == index && TermOfSlot(i) == term { return i + 1; }
      }
    }

    method HandleInstallReply(peer: nat, args: InstallArgs, reply: InstallReply)
      requires Valid() && peer < peers
      modifies this, persister
      ensures Valid() && State() == H.HandleInstallReply(old(State()), peer, args, reply)
    {
      if status != Leader || currentTerm != args.term { return; }
      var stepped := StepDown(reply.term);
      if stepped { return; }
      UpdateMatchAndNextIndex(peer, |args.prefix|);
    }

    // ---------- applying ----------

    // One round of the apply loop: what it delivers to the service.
    method ApplyCommitted() returns (out: seq<Delivery>)
      requires Valid()
      modifies this
      ensures Valid() && State() == H.ApplyCommitted(old(State())).0
      ensures var msgs := H.ApplyCommitted(old(State())).1;
              |out| == |msgs| && forall i :: 0 <= i < |out| ==> StandsFor(out[i], msgs[i])
      ensures forall d :: d in out && d.SnapshotAt? ==> d.data == snapshot
    {
      out := [];
      if commitIndex <= lastApplied && !applySnapshot { return; }
      if lastApplied < lastIncludedIndex || applySnapshot {
        lastApplied := lastIncludedIndex;
        applySnapshot := false;
        return [SnapshotAt(lastIncludedIndex, lastIncludedTerm, snapshot)];
      }
      out := CollectCommands(lastApplied + 1, commitIndex);
      lastApplied := commitIndex;
    }

    method CollectCommands(low: int, high: int) returns (out: seq<Delivery>)
      requires Valid()
      ensures var msgs := H.Commands(full, lastIncludedIndex, low, high);
              |out| == |msgs| && forall i :: 0 <= i < |out| ==> StandsFor(out[i], msgs[i])
      ensures forall d :: d in out ==> d.CommandAt?
    {
      out := [];
      ghost var msgs: seq<ApplyMsg> := [];
      var i := low;
      while i <= high
        invariant low <= i
        invariant msgs + H.Commands(full, lastIncludedIndex, i, high) == H.Commands(full, lastIncludedIndex, low, high)
        invariant |out| == |msgs| && forall k :: 0 <= k < |out| ==> StandsFor(out[k], msgs[k])
        invariant forall d :: d in out ==> d.CommandAt?
        decreases high - i
      {
        var physical := ToPhysicalIndex(i);
        NextCommand(msgs, full, lastIncludedIndex, i, high);
        if physical > 0 && physical < |slots| {
          assert slots[physical] == slots[1..][physical - 1] == full[i - 1];
          out := out + [CommandAt(i, slots[physical].command)];
          msgs := msgs + [CommandMsg(i, full[i - 1].command)];
        }
        i := i + 1;
      }
      assert msgs == H.Commands(full, lastIncludedIndex, low, high);
    }
  }

  lemma NextCommand(msgs: seq<ApplyMsg>, log: Log, base: nat, i: int, high: int)
    requires i <= high
    ensures msgs + H.Commands(log, base, i, high) ==
            (if base < i <= |log| then msgs + [CommandMsg(i, log[i - 1].command)]
                else msgs) + H.Commands(log, base, i + 1, high)
  {
  }

  /** A crash and restart as src/raft/config.go performs it: the store is copied before the old object is killed, and
      the new object is built from the copy.  Nothing persistent is lost.  StepDown leaves the object valid, so this
      also covers a copy made inside a handler that has saved a newer term and nothing else yet. */
  method CrashAndRestart(rf: Raft) returns (rf': Raft)
    requires rf.Valid()
    ensures fresh(rf') && rf'.Valid() && rf'.me == rf.me && rf'.peers == rf.peers
    ensures rf'.State() == H.Restart(rf.State(), rf.peers) && rf'.snapshot == rf.snapshot
  {
    var store := new Persister.Copy(rf.persister);
    rf' := new Raft.Make(rf.me, rf.peers, rf.nil, store, rf.full);
  }
}
