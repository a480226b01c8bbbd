/**
  The committed log of a run: the longest that any peer has ever counted as committed.  It only grows, every peer's own
  is a beginning of it, everything delivered to a service is taken from it, and clients have submitted all of it.
 */
module RaftCommitted {
  import opened RaftTypes
  import opened RaftHandlers
  import opened RaftCluster
  import opened RaftSafety

  // What a peer counts as committed.
  function Committed(s: Server): Log {
    if 0 <= s.commitIndex <= |s.log| then s.log[..s.commitIndex] else []
  }

  function Longer(a: Log, b: Log): Log {
    if |b| <= |a| then a else b
  }

  function LongestOf(servers: seq<Server>): Log {
    if servers == [] then [] else Longer(LongestOf(servers[..|servers| - 1]), Committed(servers[|servers| - 1]))
  }

  function CommittedLog(r: Run, i: nat): Log
    requires i < |r.states|
  {
    var now := LongestOf(r.states[i].servers);
    if i == 0 then now else Longer(CommittedLog(r, i - 1), now)
  }

  // ---------- it is some peer's, and no peer's is longer ----------

  lemma {:induction false} OneOf(servers: seq<Server>)
    ensures LongestOf(servers) == [] || exists a :: 0 <= a < |servers| && LongestOf(servers) == Committed(servers[a])
    ensures forall a :: 0 <= a < |servers| ==> |Committed(servers[a])| <= |LongestOf(servers)|
  {
    if servers != [] { OneOf(servers[..|servers| - 1]); }
  }

  ghost predicate HeldAt(r: Run, j: nat, log: Log)
    requires j < |r.states|
  {
    exists a :: 0 <= a < |r.states[j].servers| && log == Committed(r.states[j].servers[a])
  }

  lemma {:induction false} HeldSomewhere(r: Run, i: nat)
    requires i < |r.states|
    ensures CommittedLog(r, i) == [] || exists j :: 0 <= j <= i && HeldAt(r, j, CommittedLog(r, i))
  {
    OneOf(r.states[i].servers);
    assert LongestOf(r.states[i].servers) == [] || HeldAt(r, i, LongestOf(r.states[i].servers));
    if i > 0 { HeldSomewhere(r, i - 1); }
  }

  lemma {:induction false} NoneLonger(r: Run, i: nat, j: nat, a: nat)
    requires j <= i < |r.states| && a < |r.states[j].servers|
    ensures |Committed(r.states[j].servers[a])| <= |CommittedLog(r, i)|
  {
    if j == i { OneOf(r.states[i].servers); } else { NoneLonger(r, i - 1, j, a); }
  }

  /** What a peer counts as committed at any moment up to now is a beginning of the committed log. */
  lemma PeersFollow(r: Run, i: nat, j: nat, a: nat)
    requires IsSoundRun(r) && j <= i < |r.states| && a < |r.states[j].servers|
    ensures Committed(r.states[j].servers[a]) <= CommittedLog(r, i)
  {
    HeldSomewhere(r, i);
    NoneLonger(r, i, j, a);
    PositionsInOrder(r, j, a);
    var log, k := CommittedLog(r, i), r.states[j].servers[a].commitIndex;
    if log != [] {
      var m: nat :| m <= i && HeldAt(r, m, log);
      var b: nat :| b < |r.states[m].servers| && log == Committed(r.states[m].servers[b]);
      CommittedLogsAgree(r, j, m, a, b, k);
      assert r.states[m].servers[b].log[..k] == log[..k];
    }
  }

  /** The committed log only grows. */
  lemma CommittedLogGrows(r: Run, i: nat, j: nat)
    requires IsSoundRun(r) && i <= j < |r.states|
    ensures CommittedLog(r, i) <= CommittedLog(r, j)
  {
    HeldSomewhere(r, i);
    if CommittedLog(r, i) != [] {
      var m: nat :| m <= i && HeldAt(r, m, CommittedLog(r, i));
      var b: nat :| b < |r.states[m].servers| && CommittedLog(r, i) == Committed(r.states[m].servers[b]);
      PeersFollow(r, j, m, b);
    }
  }

  // ---------- what is delivered ----------

  lemma {:induction false} CommandsTaken(log: Log, base: nat, low: int, high: int, x: nat)
    requires 0 <= high <= |log| && x < |Commands(log, base, low, high)|
    ensures TakenFrom(log[..high], Commands(log, base, low, high)[x])
    decreases high - low
  {
    if base < low <= |log| {
      if x > 0 { CommandsTaken(log, base, low + 1, high, x - 1); }
    } else {
      CommandsTaken(log, base, low + 1, high, x);
    }
  }

  lemma DeliveredTaken(s: Server, x: nat)
    requires WellFormed(s) && x < |ApplyCommitted(s).1|
    ensures TakenFrom(Committed(s), ApplyCommitted(s).1[x])
  {
    if !(s.lastApplied < s.base || s.applySnapshot) {
      CommandsTaken(s.log, s.base, s.lastApplied + 1, s.commitIndex, x);
    } else {
      assert s.log[..s.base] <= s.log[..s.commitIndex];
    }
  }

  lemma TakenFromLonger(a: Log, b: Log, msg: ApplyMsg)
    requires a <= b && TakenFrom(a, msg)
    ensures TakenFrom(b, msg)
  {
  }

  lemma AppliedBefore(c: Cluster, step: Step, x: nat)
    requires Enabled(c, step) && x < |After(c, step).applied|
    ensures if x < |c.applied| then After(c, step).applied[x] == c.applied[x]
            else step.Apply? && x - |c.applied| < |ApplyCommitted(c.servers[step.id]).1|
                 && After(c, step).applied[x].msg == ApplyCommitted(c.servers[step.id]).1[x - |c.applied|]
  {
  }

  /** At every point of every run everything ever put on the apply channels is taken from one log, the committed one:
      each command is the one at its index, and each snapshot a beginning. */
  lemma {:induction false} OneLog(r: Run, i: nat, x: nat)
    requires IsSoundRun(r) && i < |r.states| && x < |r.states[i].applied|
    ensures TakenFrom(CommittedLog(r, i), r.states[i].applied[x].msg)
  {
    if i > 0 {
      assert StepsAt(r, i - 1);
      AppliedBefore(r.states[i - 1], r.steps[i - 1], x);
      if x < |r.states[i - 1].applied| {
        OneLog(r, i - 1, x);
        StillTaken(r, i, r.states[i].applied[x].msg);
      } else {
        NewlyTaken(r, i, r.steps[i - 1].id, x - |r.states[i - 1].applied|);
      }
    }
  }

  lemma StillTaken(r: Run, i: nat, msg: ApplyMsg)
    requires IsSoundRun(r) && 0 < i < |r.states| && TakenFrom(CommittedLog(r, i - 1), msg)
    ensures TakenFrom(CommittedLog(r, i), msg)
  {
    CommittedLogGrows(r, i - 1, i);
    TakenFromLonger(CommittedLog(r, i - 1), CommittedLog(r, i), msg);
  }

  lemma NewlyTaken(r: Run, i: nat, id: nat, x: nat)
    requires IsSoundRun(r) && 0 < i < |r.states| && id < |r.states[i - 1].servers|
    requires WellFormed(r.states[i - 1].servers[id])
    requires x < |ApplyCommitted(r.states[i - 1].servers[id]).1|
    ensures TakenFrom(CommittedLog(r, i), ApplyCommitted(r.states[i - 1].servers[id]).1[x])
  {
    var s := r.states[i - 1].servers[id];
    DeliveredTaken(s, x);
    PeersFollow(r, i, i - 1, id);
    TakenFromLonger(Committed(s), CommittedLog(r, i), ApplyCommitted(s).1[x]);
  }

  // ---------- nothing is invented ----------

  predicate AllIn(log: Log, cmds: set<Command>) {
    forall k {:trigger log[k]} :: 0 <= k < |log| ==> log[k].command in cmds
  }

  predicate Carries(m: Message, cmds: set<Command>) {
    match m
    case AppendCall(_, args) => AllIn(args.entries, cmds)
    case StrayCall(_, args) => args.entries != [] && args.prevLogTerm == -1 && AllIn(args.entries[1..], cmds)
    case InstallCall(_, args) => AllIn(args.prefix, cmds)
    case _ => true
  }

  // Every entry of every log and on its way has one of these commands, the dummy slots aside.
  predicate Only(c: Cluster, cmds: set<Command>) {
    && (forall id {:trigger c.servers[id]} :: 0 <= id < |c.servers| ==> AllIn(c.servers[id].log, cmds))
    && (forall m {:trigger m in c.sent} :: m in c.sent ==> Carries(m, cmds))
  }

  // The command a step submits, if the peer takes it.
  function CommandOf(step: Step): set<Command> {
    if step.ClientCommand? then {step.command} else {}
  }

  function Submitted(steps: seq<Step>): set<Command> {
    if steps == [] then {} else Submitted(steps[..|steps| - 1]) + CommandOf(steps[|steps| - 1])
  }

  lemma {:induction false} MergeIn(log: Log, base: nat, next: int, entries: Log, cmds: set<Command>)
    requires AllIn(log, cmds) && AllIn(entries, cmds)
    ensures AllIn(Merge(log, base, next, entries), cmds)
    decreases |entries|
  {
    if entries != [] { MergeIn(log, base, next + 1, entries[1..], cmds); }
  }

  lemma AppendIn(s: Server, args: AppendArgs, cmds: set<Command>)
    requires s.base <= |s.log| && AllIn(s.log, cmds) && AllIn(args.entries, cmds)
    ensures AllIn(AppendEntries(s, args).0.log, cmds)
  {
    MergeIn(s.log, s.base, args.prevLogIndex + 1, args.entries, cmds);
  }

  // Where the dummy is not taken it is skipped.
  lemma StrayIn(s: Server, args: AppendArgs, cmds: set<Command>)
    requires s.base <= |s.log| && AllIn(s.log, cmds) && !WouldTakeDummy(s, args)
    requires args.entries != [] && args.prevLogTerm == -1 && AllIn(args.entries[1..], cmds)
    ensures AllIn(AppendEntries(s, args).0.log, cmds)
  {
    if args.term >= s.currentTerm && MatchPrev(StepDown(s, args.term).(status := Follower), args).None? {
      MergeIn(s.log, s.base, args.prevLogIndex + 2, args.entries[1..], cmds);
    }
  }

  lemma LogAfter(c: Cluster, step: Step, cmds: set<Command>)
    requires Enabled(c, step) && SkipsDummy(c, step) && Only(c, cmds) && CommandOf(step) <= cmds
    ensures AllIn(After(c, step).servers[step.id].log, cmds)
  {
    var s := c.servers[step.id];
    assert AllIn(s.log, cmds);
    match step
    case ReceiveAppendCall(id, args) =>
      assert Carries(AppendCall(id, args), cmds);
      AppendIn(s, args, cmds);
    case ReceiveStrayCall(id, args) =>
      assert Carries(StrayCall(id, args), cmds);
      StrayIn(s, args, cmds);
    case ReceiveInstallCall(id, args) =>
      assert Carries(InstallCall(id, args), cmds);
      InstallIn(s, args, cmds);
    case ClientCommand(_, _) =>
    case _ => SameLog(c, step);
  }

  lemma InstallIn(s: Server, args: InstallArgs, cmds: set<Command>)
    requires s.base <= |s.log| && AllIn(s.log, cmds) && AllIn(args.prefix, cmds)
    ensures AllIn(InstallSnapshot(s, args).0.log, cmds)
  {
  }

  lemma SameLog(c: Cluster, step: Step)
    requires Enabled(c, step) && !step.ReceiveAppendCall? && !step.ReceiveStrayCall? && !step.ReceiveInstallCall?
    requires !step.ClientCommand?
    ensures After(c, step).servers[step.id].log == c.servers[step.id].log
  {
  }

  lemma SentAfter(c: Cluster, step: Step, m: Message, cmds: set<Command>)
    requires Enabled(c, step) && Only(c, cmds) && m in After(c, step).sent
    ensures Carries(m, cmds)
  {
    var s := c.servers[step.id];
    assert AllIn(s.log, cmds);
    assert m in c.sent ==> Carries(m, cmds);
    assert step.StrayHeartbeat? ==> ([step.dummy] + s.log[s.base..])[1..] == s.log[s.base..];
  }

  lemma OnlyMore(c: Cluster, cmds: set<Command>, cmds': set<Command>)
    requires Only(c, cmds) && cmds <= cmds'
    ensures Only(c, cmds')
  {
    forall m | m in c.sent ensures Carries(m, cmds') { assert Carries(m, cmds); }
  }

  lemma {:induction false} RunOnly(r: Run, i: nat)
    requires IsSoundRun(r) && i < |r.states|
    ensures Only(r.states[i], Submitted(r.steps[..i]))
  {
    if i > 0 {
      RunOnly(r, i - 1);
      assert SoundAt(r, i - 1) && StepsAt(r, i - 1);
      assert r.steps[..i][..i - 1] == r.steps[..i - 1];
      var c, step, cmds := r.states[i - 1], r.steps[i - 1], Submitted(r.steps[..i]);
      OnlyMore(c, Submitted(r.steps[..i - 1]), cmds);
      LogAfter(c, step, cmds);
      forall m | m in r.states[i].sent ensures Carries(m, cmds) { SentAfter(c, step, m, cmds); }
    }
  }

  lemma {:induction false} SubmittedMore(steps: seq<Step>, i: nat, j: nat)
    requires i <= j <= |steps|
    ensures Submitted(steps[..i]) <= Submitted(steps[..j])
  {
    if i < j {
      SubmittedMore(steps, i, j - 1);
      assert steps[..j][..j - 1] == steps[..j - 1];
    }
  }

  /** Nothing is invented: every command of the committed log was submitted by a client before. */
  lemma OnlySubmitted(r: Run, i: nat, k: nat)
    requires IsSoundRun(r) && i < |r.states| && k < |CommittedLog(r, i)|
    ensures CommittedLog(r, i)[k].command in Submitted(r.steps[..i])
  {
    HeldSomewhere(r, i);
    var j: nat :| j <= i && HeldAt(r, j, CommittedLog(r, i));
    var a: nat :| a < |r.states[j].servers| && CommittedLog(r, i) == Committed(r.states[j].servers[a]);
    RunOnly(r, j);
    assert r.states[j].servers[a].log[k] == CommittedLog(r, i)[k];
    SubmittedMore(r.steps, j, i);
  }
}
