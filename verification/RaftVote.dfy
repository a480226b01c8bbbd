/**
  Who gets a vote: the comparison of logs is a total order, and in every run a peer grants its vote to exactly the
  candidates that it owes it to.  So among any peers there is one that all of them would vote for.
 */
module RaftVote {
  import opened RaftTypes
  import opened RaftHandlers
  import opened RaftCluster
  import opened RaftHistory
  import opened RaftInvariant
  import opened RaftReplication
  import opened RaftSafety

  // ---------- the comparison ----------

  /** Of any two logs one is up to date for the other; both are only if they have the same length and last term. */
  lemma ComparisonIsTotal(a: Log, b: Log)
    ensures AtLeast(a, b) || AtLeast(b, a)
    ensures AtLeast(a, b) && AtLeast(b, a) <==> |a| == |b| && LastTerm(a) == LastTerm(b)
  {
  }

  lemma ComparisonIsTransitive(a: Log, b: Log, c: Log)
    requires AtLeast(a, b) && AtLeast(b, c)
    ensures AtLeast(a, c)
  {
  }

  // Logs of one history with the same last term are one the beginning of the other.
  lemma SameLastTerm(h: History, a: Log, b: Log)
    requires Traced(h, a) && Traced(h, b) && LastTerm(a) == LastTerm(b) && |b| <= |a|
    ensures b <= a
  {
    if b != [] {
      assert TracedAt(h, a, |a| - 1) && TracedAt(h, b, |b| - 1);
      assert a[..|a|] == a && b[..|b|] == b;
    }
  }

  lemma LongerEndsLater(h: History, a: Log, b: Log)
    requires LeadersOk(h) && Traced(h, a) && b <= a
    ensures LastTerm(b) <= LastTerm(a)
  {
    if b != [] {
      LastTermGreatest(h, a);
      assert a[|b| - 1] == b[|b| - 1];
    }
  }

  // What the comparison comes to for logs of one history.
  lemma ComparisonIs(h: History, a: Log, b: Log)
    requires LeadersOk(h) && Traced(h, a) && Traced(h, b)
    ensures AtLeast(a, b) <==> LastTerm(a) > LastTerm(b) || b <= a
  {
    if LastTerm(a) == LastTerm(b) && |b| <= |a| { SameLastTerm(h, a, b); }
    if b <= a { LongerEndsLater(h, a, b); }
  }

  lemma TracedBoth(r: Run, i: nat, j: nat, a: nat, b: nat) returns (h: Record)
    requires IsSoundRun(r) && i < |r.states| && j < |r.states|
    requires a < |r.states[i].servers| && b < |r.states[j].servers|
    ensures Traced(h, r.states[i].servers[a].log) && Traced(h, r.states[j].servers[b].log)
  {
    var g, h' := TwoMoments(r, i, j);
    assert ServerOk(g, a, r.states[i].servers[a]) && ServerOk(h', b, r.states[j].servers[b]);
    if i <= j {
      TracedGrows(g, h', r.states[i].servers[a].log);
      h := h';
    } else {
      TracedGrows(h', g, r.states[j].servers[b].log);
      h := g;
    }
  }

  /** In every run, whenever a peer a stands and whenever its call reaches a peer b: the vote is granted if and only if
      a's term is not behind, b has not voted for another in that term, and a's log extends b's or ends in a later term.
      Then b holds that vote, and its log is as it was. */
  lemma GrantsIff(r: Run, i: nat, j: nat, a: nat, b: nat)
    requires IsSoundRun(r) && i < |r.states| && j < |r.states|
    requires a < |r.states[i].servers| && b < |r.states[j].servers|
    ensures var x, y := r.states[i].servers[a], r.states[j].servers[b];
            var (y', reply) := RequestVote(y, ElectionArgs(x, a));
            && (reply.granted <==>
                 && x.currentTerm >= y.currentTerm
                 && (x.currentTerm > y.currentTerm || y.votedFor == NOBODY || y.votedFor == a)
                 && (LastTerm(x.log) > LastTerm(y.log) || y.log <= x.log))
            && (reply.granted ==> y'.votedFor == a)
            && y'.log == y.log && reply.term == y'.currentTerm
            && y'.currentTerm == if x.currentTerm > y.currentTerm then x.currentTerm else y.currentTerm
  {
    var h := TracedBoth(r, i, j, a, b);
    ComparisonIs(h, r.states[i].servers[a].log, r.states[j].servers[b].log);
  }

  /** Among any peers, at any moment, there is one whose log is up to date for all of them. */
  lemma {:induction false} BestCandidate(servers: seq<Server>, peers: set<nat>) returns (p: nat)
    requires peers != {} && forall q :: q in peers ==> q < |servers|
    ensures p in peers && forall q :: q in peers ==> AtLeast(servers[p].log, servers[q].log)
    decreases |peers|
  {
    var x :| x in peers;
    var best := x;
    if peers != {x} { best := BestCandidate(servers, peers - {x}); }
    ComparisonIsTotal(servers[x].log, servers[best].log);
    p := if AtLeast(servers[best].log, servers[x].log) then best else x;
    forall q | q in peers ensures AtLeast(servers[p].log, servers[q].log) {
      if q != x { ComparisonIsTransitive(servers[p].log, servers[best].log, servers[q].log); }
    }
  }
}
