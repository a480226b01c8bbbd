/**
  Where a compacted peer can tell the difference: its answers to AppendEntries compared with those of the same
  peer that has dropped nothing.
 */
module RaftCompaction {
  import opened Options
  import opened RaftTypes
  import opened RaftHandlers

  // The same peer with its whole log.
  function Uncompacted(s: Server): Server {
    s.(base := 0)
  }

  // A previous entry as a leader names it: only index 0 has no term.
  predicate NamesEntry(args: AppendArgs) {
    0 <= args.prevLogIndex && (args.prevLogIndex == 0 <==> args.prevLogTerm == -1)
  }

  /** Compaction changes the verdict on a previous entry in exactly one case: an entry the peer has, strictly below
      its snapshot.  Such a call is refused. */
  lemma CompactedMatches(s: Server, args: AppendArgs)
    requires s.base <= |s.log| && NamesEntry(args)
    ensures MatchPrev(s, args).None? <==> MatchPrev(Uncompacted(s), args).None? && !(0 < args.prevLogIndex < s.base)
  {
  }

  // The entries sent for compacted indices are the ones the peer compacted.
  predicate AgreesBelow(s: Server, args: AppendArgs) {
    forall i ::
      0 <= i < |args.entries| && 1 <= args.prevLogIndex + 1 + i <= s.base && args.prevLogIndex + 1 + i <= |s.log| ==>
        s.log[args.prevLogIndex + i].term == args.entries[i].term
  }

  lemma {:induction false} CompactedMerge(log: Log, base: nat, next: int, entries: Log)
    requires 1 <= next && base <= |log|
    requires forall i :: 0 <= i < |entries| && next + i <= base ==> log[next + i - 1].term == entries[i].term
    ensures Merge(log, base, next, entries) == Merge(log, 0, next, entries)
    decreases |entries|
  {
    if entries != [] && (next <= base || (next <= |log| && log[next - 1].term == entries[0].term)) {
      assert next <= base ==> log[next + 0 - 1].term == entries[0].term;
      forall i | 0 <= i < |entries[1..]| && next + 1 + i <= base
          ensures log[next + 1 + i - 1].term == entries[1..][i].term {
        assert log[next + (i + 1) - 1].term == entries[i + 1].term;
      }
      CompactedMerge(log, base, next + 1, entries[1..]);
    }
  }

  /** Everywhere else a compacted peer does to its log, term, vote and commit index what the whole peer would. */
  lemma CompactedAppends(s: Server, args: AppendArgs)
    requires s.base <= |s.log| && NamesEntry(args) && AgreesBelow(s, args)
    requires !(0 < args.prevLogIndex < s.base)
    ensures AppendEntries(s, args).0 == AppendEntries(Uncompacted(s), args).0.(base := s.base)
    ensures AppendEntries(s, args).1.success == AppendEntries(Uncompacted(s), args).1.success
  {
    if args.term >= s.currentTerm {
      var s1 := StepDown(s, args.term).(status := Follower);
      CompactedMatches(s1, args);
      forall i | 0 <= i < |args.entries| && args.prevLogIndex + 1 + i <= s.base
        ensures s.log[args.prevLogIndex + 1 + i - 1].term == args.entries[i].term
      {
      }
      CompactedMerge(s.log, s.base, args.prevLogIndex + 1, args.entries);
    }
  }

  /** A snapshot whose last entry the peer has, and whose earlier entries are therefore the peer's own, leaves the
      logical log as it is; any other replaces it. */
  lemma InstallKeepsSuffix(s: Server, args: InstallArgs)
    requires s.base <= |s.log| && args.term >= s.currentTerm && |args.prefix| > s.base
    requires forall k :: 1 <= k <= |args.prefix| && k <= |s.log| && TermAt(s.log, k) == TermAt(args.prefix, k) ==>
             s.log[..k] == args.prefix[..k]
    ensures var k := |args.prefix|;
            InstallSnapshot(s, args).0.log == if k <= |s.log| && TermAt(s.log, k) == LastTerm(args.prefix) then s.log
                else args.prefix
  {
    var k := |args.prefix|;
    if k <= |s.log| && TermAt(s.log, k) == LastTerm(args.prefix) {
      assert s.log[..k] == args.prefix[..k];
      assert args.prefix + s.log[k..] == s.log;
    }
  }
}
