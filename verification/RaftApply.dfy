/**
  The stream of messages a peer delivers to its service: commands one after another, snapshots in between, and
  never a gap, through commits, compaction, snapshots from the leader and restarts.
 */
module RaftApply {
  import opened RaftTypes
  import opened RaftHandlers
  import opened RaftCluster

  function IndexOf(m: ApplyMsg): nat {
    match m
    case CommandMsg(index, _) => index
    case SnapshotMsg(prefix) => |prefix|
  }

  // Every command directly follows what was delivered before it.
  predicate GapFree(last: int, msgs: seq<ApplyMsg>)
    decreases |msgs|
  {
    msgs == [] || ((msgs[0].CommandMsg? ==> msgs[0].index == last + 1) && GapFree(IndexOf(msgs[0]), msgs[1..]))
  }

  function LastIndexAfter(last: int, msgs: seq<ApplyMsg>): int {
    if msgs == [] then last else IndexOf(msgs[|msgs| - 1])
  }

  // The peer's own idea of what it has delivered is right, or it is about to deliver a snapshot.
  predicate InStep(s: Server, last: int) {
    s.applySnapshot || s.lastApplied < s.base || s.lastApplied == last
  }

  lemma {:induction false} CommandsInOrder(log: Log, base: nat, low: int, high: int)
    requires base < low <= high + 1 && high <= |log|
    ensures var msgs := Commands(log, base, low, high);
            |msgs| == high + 1 - low && GapFree(low - 1, msgs) && LastIndexAfter(low - 1, msgs) == high
    decreases high - low
  {
    if low <= high {
      CommandsInOrder(log, base, low + 1, high);
      var rest := Commands(log, base, low + 1, high);
      var msgs := Commands(log, base, low, high);
      assert msgs == [CommandMsg(low, log[low - 1].command)] + rest;
      assert msgs[1..] == rest;
    }
  }

  lemma ApplyInStep(s: Server, last: int)
    requires WellFormed(s) && InStep(s, last)
    ensures GapFree(last, ApplyCommitted(s).1)
    ensures InStep(ApplyCommitted(s).0, LastIndexAfter(last, ApplyCommitted(s).1))
  {
    if s.commitIndex <= s.lastApplied && !s.applySnapshot {
    } else if s.lastApplied < s.base || s.applySnapshot {
      assert GapFree(s.base, []);
    } else {
      CommandsInOrder(s.log, s.base, s.lastApplied + 1, s.commitIndex);
    }
  }

  // ---------- runs ----------

  // The index of the last message peer `id` delivered since it last started, which it did from its snapshot.
  ghost function Delivered(r: Run, i: nat, id: nat): int
    requires IsRun(r) && i < |r.states| && id < |r.states[0].servers|
    decreases i
  {
    if i == 0 then 0
    else
      SameSize(r, i - 1);
      assert StepsAt(r, i - 1);
      var s := r.states[i - 1].servers[id];
      match r.steps[i - 1]
      case Apply(p) => if p == id then LastIndexAfter(Delivered(r, i - 1, id), ApplyCommitted(s).1)
          else Delivered(r, i - 1, id)
      case Crash(p) => if p == id then s.base else Delivered(r, i - 1, id)
      case Interrupt(p, _) => if p == id then s.base else Delivered(r, i - 1, id)
      case _ => Delivered(r, i - 1, id)
  }

  lemma {:induction false} SameSize(r: Run, i: nat)
    requires IsRun(r) && i < |r.states|
    ensures |r.states[i].servers| == |r.states[0].servers|
  {
    if i > 0 {
      SameSize(r, i - 1);
      assert StepsAt(r, i - 1);
    }
  }

  // Only applying and restarting move lastApplied without announcing a snapshot.
  lemma OtherStepsInStep(c: Cluster, step: Step, id: nat, last: int)
    requires Enabled(c, step) && id < |c.servers| && InStep(c.servers[id], last)
    requires !Restarts(step, id) && !(step.Apply? && step.id == id)
    ensures InStep(After(c, step).servers[id], last)
  {
  }

  lemma {:induction false} AlwaysInStep(r: Run, i: nat, id: nat)
    requires IsRun(r) && i < |r.states| && id < |r.states[0].servers|
    ensures id < |r.states[i].servers| && InStep(r.states[i].servers[id], Delivered(r, i, id))
  {
    SameSize(r, i);
    if i > 0 {
      AlwaysInStep(r, i - 1, id);
      assert StepsAt(r, i - 1);
      var step := r.steps[i - 1];
      var c := r.states[i - 1];
      if step.id == id && step.Apply? {
        ApplyInStep(c.servers[id], Delivered(r, i - 1, id));
      } else if !Restarts(step, id) {
        OtherStepsInStep(c, step, id, Delivered(r, i - 1, id));
      }
    }
  }

  /** In every run, whatever a peer delivers in one round of its apply loop continues without a gap from what it
      delivered before: each command has the index one above the message before it, be that a command, a snapshot,
      or the snapshot it booted from. */
  lemma DeliversWithoutGaps(r: Run, i: nat, id: nat)
    requires IsRun(r) && i < |r.steps| && r.steps[i] == Apply(id)
    ensures id < |r.states[0].servers| && id < |r.states[i].servers| && WellFormed(r.states[i].servers[id])
    ensures GapFree(Delivered(r, i, id), ApplyCommitted(r.states[i].servers[id]).1)
  {
    assert StepsAt(r, i);
    SameSize(r, i);
    AlwaysInStep(r, i, id);
    ApplyInStep(r.states[i].servers[id], Delivered(r, i, id));
  }
}
