/**
  What goes wrong when a snapshot makes a peer forget its vote: InstallSnapshot clears `VotedFor` even when the
  message belongs to the term of the vote.  A run of three peers ends with two leaders of one term.
 */
module RaftDoubleVote {
  import opened Options
  import opened RaftTypes
  import opened RaftHandlers
  import opened RaftCluster
  import opened RaftSafety

  // ---------- one peer: exactly when a vote can be given twice ----------

  // After this snapshot the peer will grant some other candidate a vote in the term it has already voted in.
  ghost predicate CanVoteTwice(s: Server, args: InstallArgs)
    requires s.base <= |s.log|
  {
    s.votedFor != NOBODY && exists v: VoteArgs :: SecondVote(s, args, v)
  }

  ghost predicate SecondVote(s: Server, args: InstallArgs, v: VoteArgs)
    requires s.base <= |s.log|
  {
    v.term == s.currentTerm && v.candidate != s.votedFor && RequestVote(InstallSnapshot(s, args).0, v).1.granted
  }

  /** A snapshot lets a peer vote twice in a term exactly when it arrives within the term of the vote. */
  lemma VotesTwiceIff(s: Server, args: InstallArgs)
    requires s.base <= |s.log|
    ensures CanVoteTwice(s, args) <==> args.term == s.currentTerm && s.votedFor != NOBODY
  {
    if args.term == s.currentTerm && s.votedFor != NOBODY {
      var s' := InstallSnapshot(s, args).0;
      var other: nat := if s.votedFor == 0 then 1 else 0;
      assert SecondVote(s, args, VoteArgs(s.currentTerm, other, |s'.log|, LastTerm(s'.log)));
    }
  }

  // ---------- three peers: a run with two leaders ----------

  function Last(r: Run): Cluster
    requires |r.states| > 0
  {
    r.states[|r.states| - 1]
  }

  // Nothing has been compacted yet.
  predicate Quiet(r: Run) {
    forall i :: 0 <= i < |r.steps| ==> !r.steps[i].Compact? && !r.steps[i].ReceiveInstallCall?
  }

  lemma Advance(r: Run, step: Step) returns (r': Run)
    requires IsRun(r) && Enabled(Last(r), step)
    ensures IsRun(r') && Last(r') == After(Last(r), step) && r'.steps == r.steps + [step]
    ensures Quiet(r) && !step.Compact? && !step.ReceiveInstallCall? ==> Quiet(r')
  {
    r' := Run(r.states + [After(Last(r), step)], r.steps + [step]);
    forall i | 0 <= i < |r'.steps| ensures StepsAt(r', i) {
      if i < |r.steps| { assert StepsAt(r, i); }
    }
  }

  // The three peers of the run, and messages that have been sent.
  ghost predicate Stage(r: Run, servers: seq<Server>, msgs: set<Message>) {
    IsRun(r) && Last(r).servers == servers && msgs <= Last(r).sent
  }

  // Peer 0 leads in term 1, commits one command with peer 1, compacts it away and restarts.  In term 2 peers 0
  // and 1 both stand; peer 2 votes for peer 0, which wins, and then sends it the snapshot.

  function Fresh(): Server {
    Server(0, NOBODY, [], 0, 0, 0, Follower, [1, 1, 1], [0, 0, 0], false, 0, {})
  }

  function Args(term: nat, candidate: nat, log: Log): VoteArgs {
    VoteArgs(term, candidate, |log|, LastTerm(log))
  }

  function Standing(s: Server, me: nat, awaiting: set<nat>): Server {
    s.(currentTerm := s.currentTerm + 1, votedFor := me, status := Candidate, votes := 1, awaiting := awaiting)
  }

  function Leading(s: Server, awaiting: set<nat>, next: int): Server {
    s.(status := Leader, votes := 2, awaiting := awaiting, nextIndex := [next, next, next], matchIndex :=
        [s.base, s.base, s.base])
  }

  lemma Boot() returns (r: Run)
    ensures Stage(r, [Fresh(), Fresh(), Fresh()], {})
    ensures Quiet(r)
  {
    assert FirstBoot(3) == Fresh();
    var c := Cluster([FirstBoot(3), FirstBoot(3), FirstBoot(3)], {}, [], {});
    assert c.servers == seq(3, _ => FirstBoot(3));
    r := Run([c], []);
  }

  lemma OtherPeers()
    ensures Peers(3) - {0} == {1, 2} && Peers(3) - {1} == {0, 2}
  {
    assert 1 in Peers(3) && 2 in Peers(3) && 0 in Peers(3);
  }

  // A follower of three peers stands for election.
  lemma Stand(r: Run, ss: seq<Server>, msgs: set<Message>, me: nat, to: nat, awaiting: set<nat>) returns (r': Run)
    requires Stage(r, ss, msgs) && |ss| == 3 && me < 3 && to < 3 && to != me
    requires WellFormed(ss[me]) && |ss[me].nextIndex| == |ss[me].matchIndex| == 3
    requires awaiting == Peers(3) - {me}
    ensures Stage(r', ss[me := Standing(ss[me], me, awaiting)],
                  msgs + {VoteCall(to, Args(ss[me].currentTerm + 1, me, ss[me].log))})
    ensures Quiet(r) ==> Quiet(r')
  {
    r' := Advance(r, Timeout(me));
    assert StartElection(ss[me], me, 3) == Standing(ss[me], me, awaiting);
  }

  // A peer grants its vote.
  lemma Grant(r: Run, ss: seq<Server>, msgs: set<Message>, id: nat, args: VoteArgs) returns (r': Run)
    requires Stage(r, ss, msgs) && |ss| == 3 && id < 3 && VoteCall(id, args) in msgs
    requires WellFormed(ss[id]) && |ss[id].nextIndex| == |ss[id].matchIndex| == 3
    requires RequestVote(ss[id], args).1 == VoteReply(args.term, true)
    ensures Stage(r', ss[id := RequestVote(ss[id], args).0], msgs + {VoteAnswer(id, args, VoteReply(args.term, true))})
    ensures Quiet(r) ==> Quiet(r')
  {
    r' := Advance(r, ReceiveVoteCall(id, args));
  }

  // A candidate with one vote wins with a second.
  lemma Win(r: Run, ss: seq<Server>, msgs: set<Message>, id: nat, from: nat, args: VoteArgs, awaiting: set<nat>)
      returns (r': Run)
    requires Stage(r, ss, msgs) && |ss| == 3 && id < 3 && from in ss[id].awaiting
             && awaiting == ss[id].awaiting - {from}
    requires VoteAnswer(from, args, VoteReply(args.term, true)) in msgs && args.candidate == id
    requires WellFormed(ss[id]) && |ss[id].nextIndex| == |ss[id].matchIndex| == 3
    requires ss[id].status == Candidate && ss[id].votes == 1 && ss[id].currentTerm == args.term
    ensures Stage(r', ss[id := Leading(ss[id], awaiting, |ss[id].log| + 1)], msgs)
    ensures Quiet(r) ==> Quiet(r')
  {
    r' := Advance(r, ReceiveVoteAnswer(id, from, args, VoteReply(args.term, true)));
    assert HandleVoteReply(ss[id], 3, from, args, VoteReply(args.term, true)) ==
           Leading(ss[id], awaiting, |ss[id].log| + 1);
  }

  function Leader1(): Server {
    Leading(Standing(Fresh(), 0, {1, 2}), {2}, 1)
  }

  function Voted(term: nat): Server {
    Fresh().(currentTerm := term, votedFor := 0)
  }

  lemma FirstElection() returns (r: Run)
    ensures Stage(r, [Leader1(), Voted(1), Fresh()], {})
    ensures Quiet(r)
  {
    r := Boot();
    OtherPeers();
    r := Stand(r, [Fresh(), Fresh(), Fresh()], {}, 0, 1, {1, 2});
    var a := Standing(Fresh(), 0, {1, 2});
    var args := Args(1, 0, []);
    r := Grant(r, [a, Fresh(), Fresh()], {VoteCall(1, args)}, 1, args);
    assert {1, 2} - {1} == {2};
    r := Win(r, [a, Voted(1), Fresh()], {VoteCall(1, args), VoteAnswer(1, args, VoteReply(1, true))}, 0, 1, args, {2});
  }

  function OneEntry(x: Command): Log {
    [Entry(1, x)]
  }

  function FirstAppend(x: Command): AppendArgs {
    AppendArgs(1, 0, 0, -1, OneEntry(x), 0)
  }

  lemma Accepts(r: Run, ss: seq<Server>, x: Command, leader: Server) returns (r': Run)
    requires Stage(r, ss, {}) && |ss| == 3 && WellFormed(ss[0]) && |ss[0].nextIndex| == |ss[0].matchIndex| == 3
    requires ss[0].status == Leader && leader == ss[0].(log := ss[0].log + [Entry(ss[0].currentTerm, x)])
    ensures Stage(r', ss[0 := leader], {})
    ensures Quiet(r) ==> Quiet(r')
  {
    r' := Advance(r, ClientCommand(0, x));
  }

  function Started(x: Command): Server {
    Leader1().(log := OneEntry(x))
  }

  lemma Submitted(x: Command) returns (r: Run)
    ensures Stage(r, [Started(x), Voted(1), Fresh()], {})
    ensures Quiet(r)
  {
    r := FirstElection();
    assert [] + OneEntry(x) == OneEntry(x);
    r := Accepts(r, [Leader1(), Voted(1), Fresh()], x, Started(x));
    assert [Leader1(), Voted(1), Fresh()][0 := Started(x)] == [Started(x), Voted(1), Fresh()];
  }

  lemma StartedSends(x: Command)
    ensures WellFormed(Started(x)) && |Started(x).nextIndex| == |Started(x).matchIndex| == 3
    ensures SendAppend(Started(x), 0, 1) == Some(FirstAppend(x))
  {
    var s := Started(x);
    assert s.status == Leader && s.base == 0 && s.nextIndex == [1, 1, 1] && s.nextIndex[1] == 1;
    assert s.log == OneEntry(x) && s.log[0..] == OneEntry(x) && TermAt(s.log, 0) == -1;
  }

  // The command is sent to peer 1.
  lemma Submit(x: Command) returns (r: Run)
    ensures Stage(r, [Started(x), Voted(1), Fresh()], {AppendCall(1, FirstAppend(x))})
    ensures Quiet(r)
  {
    r := Submitted(x);
    StartedSends(x);
    r := Heartbeats(r, [Started(x), Voted(1), Fresh()], {}, 1, FirstAppend(x));
  }

  lemma Heartbeats(r: Run, ss: seq<Server>, msgs: set<Message>, to: nat, args: AppendArgs) returns (r': Run)
    requires Stage(r, ss, msgs) && |ss| == 3 && 0 < to < 3
    requires WellFormed(ss[0]) && |ss[0].nextIndex| == |ss[0].matchIndex| == 3 && SendAppend(ss[0], 0, to) == Some(args)
    ensures Stage(r', ss, msgs + {AppendCall(to, args)})
    ensures Quiet(r) ==> Quiet(r')
  {
    r' := Advance(r, Heartbeat(0, to));
  }

  lemma Receives(r: Run, ss: seq<Server>, msgs: set<Message>, id: nat, args: AppendArgs) returns (r': Run)
    requires Stage(r, ss, msgs) && |ss| == 3 && id < 3 && AppendCall(id, args) in msgs
    requires WellFormed(ss[id]) && |ss[id].nextIndex| == |ss[id].matchIndex| == 3
    ensures Stage(r', ss[id := AppendEntries(ss[id], args).0],
            msgs + {AppendAnswer(id, args, AppendEntries(ss[id], args).1)})
    ensures Quiet(r) ==> Quiet(r')
  {
    r' := Advance(r, ReceiveAppendCall(id, args));
  }

  lemma Hears(r: Run, ss: seq<Server>, msgs: set<Message>, from: nat, args: AppendArgs, reply: AppendReply)
      returns (r': Run)
    requires Stage(r, ss, msgs) && |ss| == 3 && from < 3 && AppendAnswer(from, args, reply) in msgs && args.leader == 0
    requires WellFormed(ss[0]) && |ss[0].nextIndex| == |ss[0].matchIndex| == 3
    ensures Stage(r', ss[0 := HandleAppendReply(ss[0], 0, from, args, reply)], msgs)
    ensures Quiet(r) ==> Quiet(r')
  {
    r' := Advance(r, ReceiveAppendAnswer(0, from, args, reply));
  }

  function Committed(x: Command): Server {
    Leader1().(log := OneEntry(x), matchIndex := [0, 1, 0], nextIndex := [1, 2, 1], commitIndex := 1)
  }

  // It is stored there, and committed.
  lemma Commit(x: Command) returns (r: Run)
    ensures Stage(r, [Committed(x), Voted(1).(log := OneEntry(x)), Fresh()], {})
    ensures Quiet(r)
  {
    r := Submit(x);
    var a := Started(x);
    r := Receives(r, [a, Voted(1), Fresh()], {AppendCall(1, FirstAppend(x))}, 1, FirstAppend(x));
    PeerStores(x);
    r := Hears(r, [a, Voted(1).(log := OneEntry(x)), Fresh()],
               {AppendAnswer(1, FirstAppend(x), AppendReply(1, true, 0, 0, 0))}, 1, FirstAppend(x),
                   AppendReply(1, true, 0, 0, 0));
    LeaderCommits(x);
  }

  /** The runs without compaction do get somewhere: for every command there is one of three peers, a leader among
      them, that ends with the command committed. */
  lemma CommandIsCommitted(x: Command) returns (r: Run)
    ensures IsSoundRun(r) && LeadsIn(Last(r), 0, 1)
    ensures var s := Last(r).servers[0];
            s.commitIndex == 1 && s.log == [Entry(1, x)]
  {
    r := Commit(x);
    UncompactedRunsAreSound(r);
  }

  lemma PeerStores(x: Command)
    ensures AppendEntries(Voted(1), FirstAppend(x)) == (Voted(1).(log := OneEntry(x)), AppendReply(1, true, 0, 0, 0))
  {
    assert [] + OneEntry(x) == OneEntry(x);
  }

  lemma LeaderCommits(x: Command)
    ensures HandleAppendReply(Leader1().(log := OneEntry(x)), 0, 1, FirstAppend(x), AppendReply(1, true, 0, 0, 0)) ==
            Committed(x)
  {
    var s := Leader1().(log := OneEntry(x), matchIndex := [0, 1, 0], nextIndex := [1, 2, 1]);
    assert [0, 0, 0][1 := 1] == s.matchIndex && [1, 1, 1][1 := 2] == s.nextIndex;
    assert UpdateMatchAndNext(Leader1().(log := OneEntry(x)), 1, 1) == s;
    assert Holders(s.matchIndex, 0, 1, 1) == 0;
    assert Holders(s.matchIndex, 0, 1, 2) == 1;
    assert Holders(s.matchIndex, 0, 1, 3) == 1;
  }

  function Restarted(x: Command): Server {
    Server(1, 0, OneEntry(x), 1, 1, 1, Follower, [1, 1, 1], [0, 0, 0], false, 0, {})
  }

  // Peer 0 compacts its log and restarts.
  lemma CompactAndRestart(x: Command) returns (r: Run)
    ensures Stage(r, [Restarted(x), Voted(1).(log := OneEntry(x)), Fresh()], {})
  {
    r := Commit(x);
    r := Advance(r, Compact(0, 1));
    assert Last(r).servers == [Committed(x).(base := 1), Voted(1).(log := OneEntry(x)), Fresh()];
    r := Advance(r, Crash(0));
    assert Restart(Committed(x).(base := 1), 3) == Restarted(x);
  }

  function Rival(x: Command): Server {
    Standing(Voted(1).(log := OneEntry(x)), 1, {0, 2})
  }

  function Leader2(x: Command): Server {
    Leading(Standing(Restarted(x), 0, {1, 2}), {1}, 2)
  }

  function RivalCall(x: Command): Message {
    VoteCall(2, Args(2, 1, OneEntry(x)))
  }

  lemma BothStand(x: Command) returns (r: Run)
    ensures Stage(r, [Standing(Restarted(x), 0, {1, 2}), Rival(x), Fresh()],
            {VoteCall(2, Args(2, 0, OneEntry(x))), RivalCall(x)})
  {
    r := CompactAndRestart(x);
    var b := Voted(1).(log := OneEntry(x));
    OtherPeers();
    r := Stand(r, [Restarted(x), b, Fresh()], {}, 0, 2, {1, 2});
    r := Stand(r, [Standing(Restarted(x), 0, {1, 2}), b, Fresh()], {VoteCall(2, Args(2, 0, OneEntry(x)))}, 1, 2,
        {0, 2});
  }

  lemma SecondElection(x: Command) returns (r: Run)
    ensures Stage(r, [Leader2(x), Rival(x), Voted(2)], {RivalCall(x)})
  {
    r := BothStand(x);
    var a := Standing(Restarted(x), 0, {1, 2});
    var args := Args(2, 0, OneEntry(x));
    r := Grant(r, [a, Rival(x), Fresh()], {VoteCall(2, args), RivalCall(x)}, 2, args);
    assert {1, 2} - {2} == {1};
    r := Win(r, [a, Rival(x), Voted(2)], {RivalCall(x), VoteAnswer(2, args, VoteReply(2, true))}, 0, 2, args, {1});
  }

  function Probe(): AppendArgs {
    AppendArgs(2, 0, 1, 1, [], 1)
  }

  // The new leader finds that peer 2 needs the snapshot.
  lemma Probed(x: Command) returns (r: Run)
    ensures Stage(r, [Leader2(x).(nextIndex := [2, 2, 1]), Rival(x), Voted(2)], {RivalCall(x)})
  {
    r := SecondElection(x);
    assert OneEntry(x)[1..] == [];
    assert SendAppend(Leader2(x), 0, 2) == Some(Probe());
    r := Heartbeats(r, [Leader2(x), Rival(x), Voted(2)], {RivalCall(x)}, 2, Probe());
    r := Receives(r, [Leader2(x), Rival(x), Voted(2)], {RivalCall(x), AppendCall(2, Probe())}, 2, Probe());
    assert AppendEntries(Voted(2), Probe()) == (Voted(2), AppendReply(2, false, 0, 0, 1));
    r := Hears(r, [Leader2(x), Rival(x), Voted(2)],
               {RivalCall(x), AppendAnswer(2, Probe(), AppendReply(2, false, 0, 0, 1))}, 2, Probe(),
                   AppendReply(2, false, 0, 0, 1));
    assert [2, 2, 2][2 := 1] == [2, 2, 1];
  }

  // Peer 2, which voted for peer 0 in term 2, after the snapshot.
  function Forgetful(x: Command): Server {
    Server(2, NOBODY, OneEntry(x), 1, 1, 1, Follower, [1, 1, 1], [0, 0, 0], true, 0, {})
  }

  lemma Installed(x: Command) returns (r: Run)
    ensures Stage(r, [Leader2(x).(nextIndex := [2, 2, 1]), Rival(x), Forgetful(x)], {RivalCall(x)})
  {
    r := Probed(x);
    var a := Leader2(x).(nextIndex := [2, 2, 1]);
    var args := InstallArgs(2, 0, OneEntry(x));
    assert a.log[..a.base] == OneEntry(x);
    r := Advance(r, OfferSnapshot(0, 2));
    assert Stage(r, [a, Rival(x), Voted(2)], {RivalCall(x), InstallCall(2, args)});
    r := Advance(r, ReceiveInstallCall(2, args));
    assert InstallSnapshot(Voted(2), args).0 == Forgetful(x);
  }

  /** Without the guard on snapshots Election Safety fails: for every command there is a run of three peers that
      ends with peers 0 and 1 both leading in term 2. */
  lemma TwoLeaders(x: Command) returns (r: Run)
    ensures IsRun(r)
    ensures LeadsIn(Last(r), 0, 2) && LeadsIn(Last(r), 1, 2)
  {
    r := Installed(x);
    var a := Leader2(x).(nextIndex := [2, 2, 1]);
    var args := Args(2, 1, OneEntry(x));
    r := Grant(r, [a, Rival(x), Forgetful(x)], {RivalCall(x)}, 2, args);
    assert {0, 2} - {2} == {0};
    r := Win(r, [a, Rival(x), Forgetful(x).(votedFor := 1)], {VoteAnswer(2, args, VoteReply(2, true))}, 1, 2, args,
        {0});
  }
}
