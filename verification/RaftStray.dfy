/**
  What goes wrong when a second heartbeat finds a snapshot on its way: it may send the dummy slot of a compacted log as
  if it were an entry.  A run of three peers ends with two of them having applied different commands at index 1.
 */
module RaftStray {
  import opened Options
  import opened RaftTypes
  import opened RaftHandlers
  import opened RaftCluster
  import opened RaftDoubleVote

  // ---------- one peer: exactly when the dummy is taken ----------

  // The call leaves the dummy in the log, where it was not before.
  predicate TakesDummy(s: Server, args: AppendArgs)
    requires s.base <= |s.log|
  {
    var i, log' := args.prevLogIndex, AppendEntries(s, args).0.log;
    args.entries != [] && 0 <= i < |log'| && log'[i] == args.entries[0] && !(i < |s.log| && s.log[i] == args.entries[0])
  }

  lemma {:induction false} MergeKeeps(log: Log, base: nat, next: int, entries: Log, i: nat)
    requires i < |log| && base <= |log| && (i < base || i + 1 < next)
    ensures i < |Merge(log, base, next, entries)| && Merge(log, base, next, entries)[i] == log[i]
    decreases |entries|
  {
    if entries != [] && (next <= base || (next <= |log| && log[next - 1].term == entries[0].term)) {
      MergeKeeps(log, base, next + 1, entries[1..], i);
    }
  }

  lemma DummyTaken(s: Server, args: AppendArgs)
    requires s.base <= |s.log| && args.prevLogTerm == -1 && args.entries != [] && WouldTakeDummy(s, args)
    ensures TakesDummy(s, args)
  {
    assert s.log[..0] + args.entries == args.entries && [] + args.entries == args.entries;
  }

  lemma DummyNotTaken(s: Server, args: AppendArgs)
    requires s.base <= |s.log| && args.prevLogTerm == -1 && args.prevLogIndex >= -1 && args.entries != []
    requires args.term >= s.currentTerm && MatchPrev(StepDown(s, args.term).(status := Follower), args).None?
    requires !WouldTakeDummy(s, args)
    ensures !TakesDummy(s, args)
  {
    var prev := args.prevLogIndex;
    if 0 <= prev < s.base {
      MergeKeeps(s.log, s.base, prev + 1, args.entries, prev);
    } else if prev == 0 {
      MergeKeeps(s.log, s.base, 2, args.entries[1..], 0);
    }
  }

  /** A stray call leaves the dummy in a peer's log if and only if the leader has compacted exactly one entry and the
      peer none, the call is not from an old term, and the peer has no first entry with the dummy's term. */
  lemma StrayTakenIff(leader: Server, me: nat, peer: nat, dummy: Entry, s: Server, args: AppendArgs)
    requires s.base <= |s.log| && leader.base <= |leader.log| && SendStray(leader, me, peer, dummy) == Some(args)
    ensures TakesDummy(s, args) <==>
            && leader.base == 1 && s.base == 0 && leader.currentTerm >= s.currentTerm
            && !(s.log != [] && s.log[0].term == dummy.term)
  {
    if WouldTakeDummy(s, args) {
      DummyTaken(s, args);
    } else if args.term >= s.currentTerm && MatchPrev(StepDown(s, args.term).(status := Follower), args).None? {
      DummyNotTaken(s, args);
    }
  }

  // ---------- three peers: a run with two commands at one index ----------

  function Stray(nil: Command): AppendArgs {
    AppendArgs(1, 0, 0, -1, [Entry(0, nil)], 1)
  }

  // The leader applies the command it has committed with peer 1, and compacts it away.
  lemma AppliedAndCompacted(x: Command) returns (r: Run)
    ensures Stage(r, [Committed(x).(lastApplied := 1, base := 1), Voted(1).(log := OneEntry(x)), Fresh()], {})
    ensures Applied(0, CommandMsg(1, x)) in Last(r).applied && NoInstalls(r)
  {
    r := Commit(x);
    var msgs := ApplyCommitted(Committed(x)).1;
    assert Commands(OneEntry(x), 0, 2, 1) == [];
    assert msgs == [CommandMsg(1, x)];
    r := Advance(r, Apply(0));
    assert Last(r).applied[|Last(r).applied| - 1] == Applied(0, CommandMsg(1, x));
    assert Last(r).servers == [Committed(x).(lastApplied := 1), Voted(1).(log := OneEntry(x)), Fresh()];
    r := Advance(r, Compact(0, 1));
  }

  predicate NoInstalls(r: Run) {
    forall i :: 0 <= i < |r.steps| ==> !r.steps[i].ReceiveInstallCall?
  }

  // Peer 2 is still to be sent index 1, and gets the dummy slot instead.
  lemma Strayed(x: Command, nil: Command) returns (r: Run)
    ensures Stage(r, [Committed(x).(lastApplied := 1, base := 1), Voted(1).(log := OneEntry(x)), Fresh()],
            {StrayCall(2, Stray(nil))})
    ensures Applied(0, CommandMsg(1, x)) in Last(r).applied && NoInstalls(r)
  {
    r := AppliedAndCompacted(x);
    var s := Committed(x).(lastApplied := 1, base := 1);
    assert [Entry(0, nil)] + s.log[1..] == [Entry(0, nil)];
    assert SendStray(s, 0, 2, Entry(0, nil)) == Some(Stray(nil));
    r := Advance(r, StrayHeartbeat(0, 2, Entry(0, nil)));
  }

  function Fooled(nil: Command): Server {
    Fresh().(currentTerm := 1, log := [Entry(0, nil)], commitIndex := 1)
  }

  lemma DummyCommitted(nil: Command)
    ensures AppendEntries(Fresh(), Stray(nil)) == (Fooled(nil), AppendReply(1, true, 0, 0, 0))
    ensures ApplyCommitted(Fooled(nil)).1 == [CommandMsg(1, nil)]
  {
    assert [] + [Entry(0, nil)] == [Entry(0, nil)];
    assert Commands([Entry(0, nil)], 0, 2, 1) == [];
  }

  /** Without the guard on dummy slots State Machine Safety fails, although every vote is kept: for every command and
      every value of an unset one there is a run of three peers in which peer 0 applies the command at index 1 and
      peer 2 the unset one. */
  lemma TwoCommands(x: Command, nil: Command) returns (r: Run)
    ensures IsRun(r) && forall i {:trigger KeptAt(r, i)} :: 0 <= i < |r.steps| ==> KeptAt(r, i)
    ensures Applied(0, CommandMsg(1, x)) in Last(r).applied && Applied(2, CommandMsg(1, nil)) in Last(r).applied
  {
    r := Strayed(x, nil);
    DummyCommitted(nil);
    r := Advance(r, ReceiveStrayCall(2, Stray(nil)));
    assert Last(r).servers[2] == Fooled(nil);
    r := Advance(r, Apply(2));
    assert Last(r).applied[|Last(r).applied| - 1] == Applied(2, CommandMsg(1, nil));
    forall i | 0 <= i < |r.steps| ensures KeptAt(r, i) { assert StepsAt(r, i); }
  }
}
