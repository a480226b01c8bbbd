/**
  The data of one Raft peer and of the RPCs between peers.

  A log is kept in logical form: the entry at logical index `i` (from 1) is `log[i - 1]`, and `base` is the
  index up to which the peer has replaced its entries by a snapshot.  The offset representation, with its
  dummy slot and physical indices, is the business of the class in RaftServer.dfy, which is shown to agree
  with this form.
 */
module RaftTypes {

  // A client command: Raft never looks inside one.
  type Command(==, !new, 0)

  datatype Entry = Entry(term: nat, command: Command)

  type Log = seq<Entry>

  datatype Status = Leader | Candidate | Follower

  // The term of an index; index 0 stands for the empty snapshot of a first boot, whose term is -1.
  function TermAt(log: Log, i: int): int
    requires 0 <= i <= |log|
  {
    if i == 0 then -1 else log[i - 1].term
  }

  function LastTerm(log: Log): int {
    TermAt(log, |log|)
  }

  // Whether a candidate whose last entry is (index, term) is at least as up to date as `log`.
  predicate UpToDate(index: int, term: int, log: Log) {
    if term != LastTerm(log) then term > LastTerm(log) else index >= |log|
  }

  const NOBODY := -1

  datatype Server = Server(
    currentTerm: nat,
    votedFor: int,
    log: Log,
    base: nat,
    commitIndex: int,
    lastApplied: int,
    status: Status,
    nextIndex: seq<int>,
    matchIndex: seq<int>,
    applySnapshot: bool,
    votes: nat,           // the vote counter shared by the reply handlers of the current election
    awaiting: set<nat>)   // the peers whose reply to the current election has not been handled

  datatype VoteArgs = VoteArgs(term: nat, candidate: nat, lastLogIndex: int, lastLogTerm: int)

  datatype VoteReply = VoteReply(term: nat, granted: bool)

  datatype AppendArgs = AppendArgs(term: nat, leader: nat, prevLogIndex: int, prevLogTerm: int, entries: Log,
      leaderCommit: int)

  datatype AppendReply = AppendReply(term: nat, success: bool, xTerm: int, xIndex: int, xLen: int)

  // The snapshot bytes are represented by the log prefix they summarise, so that
  // LastIncludedIndex is |prefix| and LastIncludedTerm is LastTerm(prefix).
  datatype InstallArgs = InstallArgs(term: nat, leader: nat, prefix: Log)

  datatype InstallReply = InstallReply(term: nat)

  datatype ApplyMsg =
    | CommandMsg(index: nat, command: Command)
    | SnapshotMsg(prefix: Log)

  // The positions of a peer in order: everything compacted is committed, everything committed is in the log.
  predicate WellFormed(s: Server) {
    s.base <= s.commitIndex <= |s.log|
  }

  // The identities of n peers.
  function Peers(n: nat): (r: set<nat>)
    ensures |r| == n
    ensures forall p: nat :: p in r <==> p < n
  {
    if n == 0 then {} else Peers(n - 1) + {n - 1}
  }
}
