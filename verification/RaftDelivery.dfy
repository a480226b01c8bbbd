/**
  What a peer has committed its service gets: two rounds of the apply loop deliver all of it, and a snapshot that was
  installed is delivered before anything else.
 */
module RaftDelivery {
  import opened Options
  import opened RaftTypes
  import opened RaftHandlers
  import opened RaftCluster
  import opened RaftSafety

  // ---------- nothing committed is kept back ----------

  // Some message says which command is at the index.
  predicate Told(msgs: seq<ApplyMsg>, index: nat, command: Command) {
    exists x :: 0 <= x < |msgs| && Says(msgs[x], index) == Some(command)
  }

  lemma {:induction false} CommandsTell(log: Log, base: nat, low: int, high: int, k: nat)
    requires base < low <= k <= high <= |log|
    ensures CommandMsg(k, log[k - 1].command) in Commands(log, base, low, high)
    decreases high - low
  {
    var msgs, rest := Commands(log, base, low, high), Commands(log, base, low + 1, high);
    assert msgs == [CommandMsg(low, log[low - 1].command)] + rest;
    if low < k {
      CommandsTell(log, base, low + 1, high, k);
    } else {
      assert msgs[0] == CommandMsg(k, log[k - 1].command);
    }
  }

  lemma ToldMore(a: seq<ApplyMsg>, b: seq<ApplyMsg>, index: nat, command: Command)
    requires Told(a, index, command) || Told(b, index, command)
    ensures Told(a + b, index, command)
  {
    if Told(a, index, command) {
      var x :| 0 <= x < |a| && Says(a[x], index) == Some(command);
      assert (a + b)[x] == a[x];
    } else {
      var x :| 0 <= x < |b| && Says(b[x], index) == Some(command);
      assert (a + b)[|a| + x] == b[x];
    }
  }

  // A round with no snapshot due delivers every command committed and not yet delivered.
  lemma CommandRound(s: Server, k: nat)
    requires WellFormed(s) && !s.applySnapshot && s.base <= s.lastApplied <= s.commitIndex
    ensures ApplyCommitted(s).0 == s.(lastApplied := s.commitIndex)
    ensures s.lastApplied < k <= s.commitIndex ==>
              && CommandMsg(k, s.log[k - 1].command) in ApplyCommitted(s).1
              && Told(ApplyCommitted(s).1, k, s.log[k - 1].command)
  {
    if s.lastApplied < k <= s.commitIndex {
      CommandsTell(s.log, s.base, s.lastApplied + 1, s.commitIndex, k);
      var msgs := ApplyCommitted(s).1;
      var x :| 0 <= x < |msgs| && msgs[x] == CommandMsg(k, s.log[k - 1].command);
    }
  }

  // A round with a snapshot due delivers it, and with it everything compacted.
  lemma SnapshotRound(s: Server, k: nat)
    requires WellFormed(s) && (s.applySnapshot || s.lastApplied < s.base) && s.lastApplied <= s.commitIndex
    ensures ApplyCommitted(s) == (s.(lastApplied := s.base, applySnapshot := false), [SnapshotMsg(s.log[..s.base])])
    ensures 1 <= k <= s.base ==> Told(ApplyCommitted(s).1, k, s.log[k - 1].command)
  {
    assert 1 <= k <= s.base ==> Says(ApplyCommitted(s).1[0], k) == Some(s.log[k - 1].command);
  }

  /** A snapshot from the leader that is ahead of the peer's own is in place at once, the commit index with it, and the
      next thing delivered is that snapshot. */
  lemma InstalledIsDelivered(s: Server, args: InstallArgs)
    requires s.base <= |s.log| && args.term >= s.currentTerm && |args.prefix| > s.base
    ensures var s' := InstallSnapshot(s, args).0;
            && s'.base == |args.prefix| <= s'.commitIndex && s.commitIndex <= s'.commitIndex
            && args.prefix <= s'.log && s'.currentTerm == args.term
            && (s'.lastApplied <= s'.commitIndex ==> ApplyCommitted(s').1 == [SnapshotMsg(args.prefix)])
  {
    var s' := InstallSnapshot(s, args).0;
    assert s'.log[..s'.base] == args.prefix;
  }

  // What two rounds of the apply loop deliver.
  function TwoRounds(s: Server): (Server, seq<ApplyMsg>)
    requires WellFormed(s)
  {
    var (s1, first) := ApplyCommitted(s);
    var (s2, second) := ApplyCommitted(s1);
    (s2, first + second)
  }

  /** After two rounds of the apply loop everything committed has been delivered: each index above what was applied
      before is told, the loop stands at the commit index with no snapshot due, and a third round delivers nothing. */
  lemma TwoRoundsDeliverAll(s: Server, k: nat)
    requires WellFormed(s) && s.lastApplied <= s.commitIndex
    ensures var (s', msgs) := TwoRounds(s);
            && s' == s.(lastApplied := s.commitIndex, applySnapshot := false)
            && (s.lastApplied < k <= s.commitIndex && 1 <= k ==> Told(msgs, k, s.log[k - 1].command))
            && ApplyCommitted(s') == (s', [])
  {
    var (s1, first) := ApplyCommitted(s);
    var second := ApplyCommitted(s1).1;
    if s.applySnapshot || s.lastApplied < s.base {
      SnapshotRound(s, k);
      CommandRound(s1, k);
    } else {
      CommandRound(s, k);
    }
    if 1 <= k && s.lastApplied < k <= s.commitIndex { ToldMore(first, second, k, s.log[k - 1].command); }
  }

  // ---------- the apply loop never runs ahead ----------

  // What moves lastApplied: a round of the loop, a snapshot, a restart.
  lemma AppliedMoves(c: Cluster, step: Step, id: nat)
    requires Enabled(c, step) && id < |c.servers|
    requires !(step.id == id && (step.Apply? || step.ReceiveInstallCall? || step.Crash? || step.Interrupt?))
    ensures |After(c, step).servers| == |c.servers|
    ensures After(c, step).servers[id].lastApplied == c.servers[id].lastApplied
  {
  }

  lemma AppliedMovesTo(c: Cluster, step: Step)
    requires Enabled(c, step) && c.servers[step.id].lastApplied <= c.servers[step.id].commitIndex
    requires step.Apply? || step.ReceiveInstallCall? || step.Crash? || step.Interrupt?
    ensures |After(c, step).servers| == |c.servers|
    ensures After(c, step).servers[step.id].lastApplied <= After(c, step).servers[step.id].commitIndex
  {
  }

  /** In every run what a peer has applied is committed. */
  lemma {:induction false} AppliedIsCommitted(r: Run, i: nat, id: nat)
    requires IsSoundRun(r) && i < |r.states| && id < |r.states[i].servers|
    ensures r.states[i].servers[id].lastApplied <= r.states[i].servers[id].commitIndex
  {
    if i > 0 {
      assert StepsAt(r, i - 1);
      var c, step := r.states[i - 1], r.steps[i - 1];
      AppliedIsCommitted(r, i - 1, id);
      if step.id == id && (step.Apply? || step.ReceiveInstallCall? || step.Crash? || step.Interrupt?) {
        AppliedMovesTo(c, step);
      } else {
        if step.ReceiveAppendCall? || step.ReceiveStrayCall? {
          AppendCarriesCommit(r, i - 1, step.id, step.appendArgs);
        }
        StepKeepsCommit(c, step, id);
        AppliedMoves(c, step, id);
      }
    }
  }
}
