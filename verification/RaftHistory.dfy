/**
  What a run has decided so far, independent of who still remembers it: the elections held, the votes cast,
  the log of each term's leader, and how much of it each peer has acknowledged.  This ghost record, its
  invariant and the six ways it grows carry the safety argument of sections 5.2 to 5.4 of the Raft paper.
 */
module RaftHistory {
  import opened Sets
  import opened RaftTypes

  // A vote: for whom, and the voter's log at that moment.
  datatype Ballot = Ballot(candidate: nat, log: Log)

  datatype History = History(
    terms: seq<nat>,                      // the current term of each peer
    campaigns: map<(nat, nat), Log>,      // (candidate, term) -> its log when the election started
    ballots: map<(nat, nat), Ballot>,     // (voter, term) -> the vote
    leaders: map<nat, nat>,               // term -> leader
    elected: map<nat, Log>,               // term -> the leader's log when it was elected
    logs: map<nat, Log>,                  // term -> the leader's log, as long as it ever was in that term
    acks: map<(nat, nat), nat>)           // (peer, term) -> how much of logs[term] it has stored in that term

  // ---------- quorums ----------

  // A set of peers that is a majority of n.
  predicate IsQuorum(q: set<nat>, n: nat) {
    2 * |q| > n
  }

  lemma QuorumsMeet(a: set<nat>, b: set<nat>, n: nat) returns (p: nat)
    requires IsQuorum(a, n) && IsQuorum(b, n)
    requires a <= Peers(n) && b <= Peers(n)
    ensures p in a && p in b
  {
    assert |a + b| == |a| + |b| - |a * b|;
    SubsetSize(a + b, Peers(n));
    p :| p in a * b;
  }

  lemma OneQuorum(a: set<nat>, b: set<nat>, n: nat)
    requires IsQuorum(a, n) && a <= Peers(n) && b <= Peers(n) && forall p :: p in a ==> p !in b
    ensures !IsQuorum(b, n)
  {
    if IsQuorum(b, n) {
      var p := QuorumsMeet(a, b, n);
      assert false;
    }
  }

  // ---------- reading the record ----------

  function Ack(h: History, p: nat, t: nat): nat {
    if (p, t) in h.acks then h.acks[(p, t)] else 0
  }

  function VotersOf(h: History, candidate: nat, t: nat): (r: set<nat>)
    ensures forall p: nat :: p in r <==>
              p < |h.terms| && (p, t) in h.ballots && h.ballots[(p, t)].candidate == candidate
  {
    set p | p in Peers(|h.terms|) && (p, t) in h.ballots && h.ballots[(p, t)].candidate == candidate
  }

  // The peers that have stored, or could still come to store, the first `n` entries of term t's leader in
  // term t.  A peer that has moved to a later term without them never will.
  function Unblocked(h: History, t: nat, n: nat): (r: set<nat>)
    ensures forall p: nat :: p in r <==> p < |h.terms| && (h.terms[p] <= t || Ack(h, p, t) >= n)
  {
    set p | p in Peers(|h.terms|) && (h.terms[p] <= t || Ack(h, p, t) >= n)
  }

  function StoredBy(h: History, t: nat, n: nat): (r: set<nat>)
    ensures forall p: nat :: p in r <==> p < |h.terms| && Ack(h, p, t) >= n
  {
    set p | p in Peers(|h.terms|) && Ack(h, p, t) >= n
  }

  // Index n of the leader's log of term t is an entry of that term.
  predicate IsOwnEntry(h: History, t: nat, n: nat) {
    t in h.logs && 1 <= n <= |h.logs[t]| && h.logs[t][n - 1].term == t
  }

  // It may have been committed, or may yet be.
  predicate Open(h: History, t: nat, n: nat) {
    IsOwnEntry(h, t, n) && IsQuorum(Unblocked(h, t, n), |h.terms|)
  }

  // It has been committed: a majority stored it within term t.
  predicate Chosen(h: History, t: nat, n: nat) {
    IsOwnEntry(h, t, n) && IsQuorum(StoredBy(h, t, n), |h.terms|)
  }

  lemma ChosenIsOpen(h: History, t: nat, n: nat)
    requires Chosen(h, t, n)
    ensures Open(h, t, n)
  {
    SubsetSize(StoredBy(h, t, n), Unblocked(h, t, n));
  }

  // A prefix that a commit in a term up to `t` covers.
  ghost predicate CommittedBy(h: History, prefix: Log, t: nat) {
    prefix == [] || exists u: nat, n: nat :: CommitWitness(h, prefix, t, u, n)
  }

  ghost predicate CommitWitness(h: History, prefix: Log, t: nat, u: nat, n: nat) {
    u <= t && Chosen(h, u, n) && |prefix| <= n && prefix <= h.logs[u]
  }

  // ---------- the invariant ----------

  // Every entry was put there by the leader of its term, along with everything before it.
  ghost predicate Traced(h: History, log: Log) {
    forall i {:trigger TracedAt(h, log, i)} :: 0 <= i < |log| ==> TracedAt(h, log, i)
  }

  predicate TracedAt(h: History, log: Log, i: nat)
    requires i < |log|
  {
    log[i].term in h.logs && log[..i + 1] <= h.logs[log[i].term]
  }

  predicate TermsUpTo(log: Log, t: int) {
    forall i :: 0 <= i < |log| ==> log[i].term <= t
  }

  ghost predicate LeadersOk(h: History) {
    && (forall t :: t in h.logs <==> t in h.leaders)
    && (forall t :: t in h.elected <==> t in h.leaders)
    && forall t: nat {:trigger LeaderOk(h, t)} :: t in h.leaders ==> LeaderOk(h, t)
  }

  ghost predicate LeaderOk(h: History, t: nat) {
    && t in h.leaders && t in h.logs && t in h.elected
    && h.leaders[t] < |h.terms|
    && (h.leaders[t], t) in h.campaigns
    && h.campaigns[(h.leaders[t], t)] == h.elected[t]
    && IsQuorum(VotersOf(h, h.leaders[t], t), |h.terms|)
    && h.elected[t] <= h.logs[t]
    && Traced(h, h.logs[t])
    && TermsUpTo(h.logs[t], t)
  }

  ghost predicate CampaignsOk(h: History) {
    forall c: nat, t: nat {:trigger GoodCampaign(h, c, t)} :: (c, t) in h.campaigns ==> GoodCampaign(h, c, t)
  }

  ghost predicate GoodCampaign(h: History, c: nat, t: nat) {
    && (c, t) in h.campaigns
    && c < |h.terms|
    && 1 <= t <= h.terms[c]
    && Traced(h, h.campaigns[(c, t)])
    && TermsUpTo(h.campaigns[(c, t)], t as int - 1)
  }

  // The up-to-date comparison, of two logs.
  predicate AtLeast(a: Log, b: Log) {
    UpToDate(|a|, LastTerm(a), b)
  }

  ghost predicate BallotsOk(h: History) {
    forall v: nat, t: nat {:trigger BallotOk(h, v, t)} :: (v, t) in h.ballots ==> BallotOk(h, v, t)
  }

  ghost predicate BallotOk(h: History, v: nat, t: nat) {
    && (v, t) in h.ballots
    && var b := h.ballots[(v, t)];
    && v < |h.terms|
    && t <= h.terms[v]
    && (b.candidate, t) in h.campaigns
    && AtLeast(h.campaigns[(b.candidate, t)], b.log)
    && Traced(h, b.log)
    && Remembers(h, v, b.log, t)
  }

  // A peer's log still holds whatever it acknowledged, before term `t`, that may count as committed.
  ghost predicate Remembers(h: History, v: nat, log: Log, t: nat) {
    forall u: nat, n: nat {:trigger Open(h, u, n)} ::
      u < t && 1 <= n <= Ack(h, v, u) && Open(h, u, n) ==> h.logs[u][..n] <= log
  }

  ghost predicate AcksOk(h: History) {
    forall v: nat, t: nat {:trigger (v, t) in h.acks} :: (v, t) in h.acks ==>
      v < |h.terms| && t <= h.terms[v] && t in h.logs && h.acks[(v, t)] <= |h.logs[t]|
  }

  // Leader Completeness: what may count as committed in term u is in the log of every later leader.
  ghost predicate Complete(h: History) {
    forall u: nat, t: nat, n: nat {:trigger Open(h, u, n), h.elected[t]} ::
      u < t && t in h.elected && Open(h, u, n) ==> h.logs[u][..n] <= h.elected[t]
  }

  ghost predicate HistoryOk(h: History) {
    && LeadersOk(h)
    && CampaignsOk(h)
    && BallotsOk(h)
    && AcksOk(h)
    && Complete(h)
  }

  // A history that a run can have.
  type Record = h: History | HistoryOk(h) ghost witness History([], map[], map[], map[], map[], map[], map[])

  // ---------- growth ----------

  // The record only grows, and what a peer stored in a term is settled once it has left that term.
  ghost predicate Grows(h: History, h': History) {
    && |h'.terms| == |h.terms|
    && (forall p :: 0 <= p < |h.terms| ==> h.terms[p] <= h'.terms[p])
    && (forall k :: k in h.campaigns ==> k in h'.campaigns && h'.campaigns[k] == h.campaigns[k])
    && (forall k :: k in h.ballots ==> k in h'.ballots && h'.ballots[k] == h.ballots[k])
    && (forall t :: t in h.leaders ==> t in h'.leaders && h'.leaders[t] == h.leaders[t])
    && (forall t :: t in h.elected ==> t in h'.elected && h'.elected[t] == h.elected[t])
    && (forall t :: t in h.logs ==> t in h'.logs && h.logs[t] <= h'.logs[t])
    && (forall p: nat, t: nat {:trigger Ack(h', p, t)} :: p < |h.terms| ==> AckGrows(h, h', p, t))
  }

  predicate AckGrows(h: History, h': History, p: nat, t: nat)
    requires p < |h.terms|
  {
    Ack(h, p, t) <= Ack(h', p, t) && (h.terms[p] > t ==> Ack(h', p, t) == Ack(h, p, t))
  }

  lemma GrowsTransitive(a: History, b: History, c: History)
    requires Grows(a, b) && Grows(b, c)
    ensures Grows(a, c)
  {
    forall t | t in a.logs ensures t in c.logs && a.logs[t] <= c.logs[t] {
      assert a.logs[t] <= b.logs[t] && b.logs[t] <= c.logs[t];
    }
    forall p: nat, t: nat | p < |a.terms| ensures AckGrows(a, c, p, t) {
      assert AckGrows(a, b, p, t) by { assert Ack(b, p, t) == Ack(b, p, t); }
      assert AckGrows(b, c, p, t);
    }
  }

  lemma PrefixGrows(h: History, h': History, log: Log, t: nat)
    requires Grows(h, h') && t in h.logs && log <= h.logs[t]
    ensures log <= h'.logs[t]
  {
  }

  lemma TracedGrows(h: History, h': History, log: Log)
    requires Grows(h, h') && Traced(h, log)
    ensures Traced(h', log)
  {
    forall i | 0 <= i < |log| ensures TracedAt(h', log, i) {
      assert TracedAt(h, log, i);
      PrefixGrows(h, h', log[..i + 1], log[i].term);
    }
  }

  lemma ChosenGrows(h: History, h': History, t: nat, n: nat)
    requires Grows(h, h') && Chosen(h, t, n)
    ensures Chosen(h', t, n)
  {
    assert h.logs[t] <= h'.logs[t];
    forall p | p in StoredBy(h, t, n) ensures p in StoredBy(h', t, n) {
      assert AckGrows(h, h', p, t) by { assert Ack(h', p, t) == Ack(h', p, t); }
    }
    SubsetSize(StoredBy(h, t, n), StoredBy(h', t, n));
  }

  lemma CommittedGrows(h: History, h': History, prefix: Log, t: nat, t': nat)
    requires Grows(h, h') && t <= t' && CommittedBy(h, prefix, t)
    ensures CommittedBy(h', prefix, t')
  {
    if prefix != [] {
      var u: nat, n: nat :| CommitWitness(h, prefix, t, u, n);
      ChosenGrows(h, h', u, n);
      PrefixGrows(h, h', prefix, u);
      assert CommitWitness(h', prefix, t', u, n);
    }
  }

  // An index that is open later was open before, provided it existed.
  lemma OpenShrinks(h: History, h': History, t: nat, n: nat)
    requires Grows(h, h') && Open(h', t, n) && t in h.logs && n <= |h.logs[t]|
    ensures Open(h, t, n)
  {
    assert h.logs[t] <= h'.logs[t];
    forall p | p in Unblocked(h', t, n) ensures p in Unblocked(h, t, n) {
      assert AckGrows(h, h', p, t) by { assert Ack(h', p, t) == Ack(h', p, t); }
    }
    SubsetSize(Unblocked(h', t, n), Unblocked(h, t, n));
  }

  lemma RemembersGrows(h: History, h': History, v: nat, log: Log, t: nat)
    requires Grows(h, h') && AcksOk(h) && v < |h.terms|
    requires Remembers(h, v, log, t)
    requires forall u: nat {:trigger Ack(h', v, u)} :: u < t ==> Ack(h', v, u) == Ack(h, v, u)
    ensures Remembers(h', v, log, t)
  {
    forall u: nat, n: nat | u < t && 1 <= n <= Ack(h', v, u) && Open(h', u, n)
      ensures h'.logs[u][..n] <= log
    {
      assert (v, u) in h.acks;
      OpenShrinks(h, h', u, n);
      assert h.logs[u] <= h'.logs[u];
      assert h'.logs[u][..n] == h.logs[u][..n];
    }
  }

  // ---------- consequences ----------

  lemma PrefixTrans(a: Log, b: Log, c: Log)
    requires a <= b && b <= c
    ensures a <= c
  {
  }

  // Two logs with the same term at an index agree up to it.
  lemma SameTermSamePrefix(h: History, a: Log, b: Log, i: nat)
    requires Traced(h, a) && Traced(h, b)
    requires 1 <= i <= |a| && i <= |b|
    requires TermAt(a, i) == TermAt(b, i)
    ensures a[..i] == b[..i]
  {
    assert TracedAt(h, a, i - 1) && TracedAt(h, b, i - 1);
  }

  lemma TracedPrefix(h: History, a: Log, b: Log)
    requires a <= b && Traced(h, b)
    ensures Traced(h, a)
  {
    forall i | 0 <= i < |a| ensures TracedAt(h, a, i) {
      assert TracedAt(h, b, i);
      assert a[i] == b[i] && a[..i + 1] == b[..i + 1];
    }
  }

  // The last entry of a traced log has its greatest term.
  lemma LastTermGreatest(h: History, log: Log)
    requires LeadersOk(h) && Traced(h, log)
    ensures TermsUpTo(log, LastTerm(log))
  {
    if log != [] {
      var t := log[|log| - 1].term;
      assert TracedAt(h, log, |log| - 1);
      assert t in h.leaders && LeaderOk(h, t);
      assert log == log[..|log| - 1 + 1];
    }
  }

  // ---------- what growth keeps ----------

  lemma VotersGrow(h: History, h': History, c: nat, t: nat)
    requires Grows(h, h') && IsQuorum(VotersOf(h, c, t), |h.terms|)
    ensures IsQuorum(VotersOf(h', c, t), |h'.terms|)
  {
    SubsetSize(VotersOf(h, c, t), VotersOf(h', c, t));
  }

  lemma LeaderGrows(h: History, h': History, t: nat)
    requires Grows(h, h') && LeadersOk(h) && t in h.leaders
    requires h'.logs[t] == h.logs[t]
    ensures LeaderOk(h', t)
  {
    assert LeaderOk(h, t);
    VotersGrow(h, h', h.leaders[t], t);
    TracedGrows(h, h', h.logs[t]);
  }

  lemma BallotGrows(h: History, h': History, v: nat, t: nat)
    requires Grows(h, h') && BallotsOk(h) && AcksOk(h) && (v, t) in h.ballots
    ensures BallotOk(h', v, t)
  {
    assert BallotOk(h, v, t);
    var b := h.ballots[(v, t)];
    TracedGrows(h, h', b.log);
    forall u: nat | u < t ensures Ack(h', v, u) == Ack(h, v, u) {
      assert AckGrows(h, h', v, u);
    }
    RemembersGrows(h, h', v, b.log, t);
  }

  lemma CampaignGrows(h: History, h': History, c: nat, t: nat)
    requires Grows(h, h') && CampaignsOk(h) && (c, t) in h.campaigns
    ensures GoodCampaign(h', c, t)
  {
    assert GoodCampaign(h, c, t);
    TracedGrows(h, h', h.campaigns[(c, t)]);
  }

  // Completeness of the leaders there were, for the entries there were.
  lemma CompleteGrows(h: History, h': History, u: nat, t: nat, n: nat)
    requires Grows(h, h') && Complete(h)
    requires u < t && t in h.elected && u in h.logs && n <= |h.logs[u]| && Open(h', u, n)
    ensures h'.logs[u][..n] <= h'.elected[t]
  {
    OpenShrinks(h, h', u, n);
    assert h.logs[u] <= h'.logs[u];
    assert h'.logs[u][..n] == h.logs[u][..n];
    assert h.elected[t] == h'.elected[t];
  }

  // ---------- the six ways the record grows ----------

  function Enter(h: History, v: nat, t: nat): History
    requires v < |h.terms|
  {
    h.(terms := h.terms[v := t])
  }

  lemma EnterOk(h: History, v: nat, t: nat)
    requires HistoryOk(h) && v < |h.terms| && h.terms[v] <= t
    ensures HistoryOk(Enter(h, v, t)) && Grows(h, Enter(h, v, t))
  {
    var h' := Enter(h, v, t);
    assert Grows(h, h') by {
      forall p: nat, t: nat | p < |h.terms| ensures AckGrows(h, h', p, t) { assert Ack(h', p, t) == Ack(h, p, t); }
    }
    SameLogsOk(h, h');
  }

  // When no leader is added and no leader's log grows, only new campaigns, ballots and acks need looking at.
  lemma SameLogsOk(h: History, h': History)
    requires HistoryOk(h) && Grows(h, h')
    requires h'.logs == h.logs && h'.leaders == h.leaders && h'.elected == h.elected
    requires forall c: nat, t: nat {:trigger GoodCampaign(h', c, t)} ::
               (c, t) in h'.campaigns && (c, t) !in h.campaigns ==> GoodCampaign(h', c, t)
    requires forall v: nat, t: nat {:trigger BallotOk(h', v, t)} ::
               (v, t) in h'.ballots && (v, t) !in h.ballots ==> BallotOk(h', v, t)
    requires AcksOk(h')
    ensures HistoryOk(h')
  {
    forall t | t in h'.leaders ensures LeaderOk(h', t) { LeaderGrows(h, h', t); }
    forall c: nat, t: nat | (c, t) in h'.campaigns && (c, t) in h.campaigns
        ensures GoodCampaign(h', c, t) { CampaignGrows(h, h', c, t); }
    forall v: nat, t: nat | (v, t) in h'.ballots && (v, t) in h.ballots
        ensures BallotOk(h', v, t) { BallotGrows(h, h', v, t); }
    forall u: nat, t: nat, n: nat | u < t && t in h'.elected && Open(h', u, n)
      ensures h'.logs[u][..n] <= h'.elected[t]
    {
      CompleteGrows(h, h', u, t, n);
    }
  }

  function Campaign(h: History, c: nat, t: nat, log: Log): History {
    h.(campaigns := h.campaigns[(c, t) := log])
  }

  lemma CampaignOk(h: History, c: nat, t: nat, log: Log)
    requires HistoryOk(h) && c < |h.terms| && h.terms[c] == t >= 1 && (c, t) !in h.campaigns
    requires Traced(h, log) && TermsUpTo(log, t as int - 1)
    ensures HistoryOk(Campaign(h, c, t, log)) && Grows(h, Campaign(h, c, t, log))
  {
    var h' := Campaign(h, c, t, log);
    assert Grows(h, h') by {
      forall p: nat, t: nat | p < |h.terms| ensures AckGrows(h, h', p, t) { assert Ack(h', p, t) == Ack(h, p, t); }
    }
    TracedGrows(h, h', log);
    SameLogsOk(h, h');
  }

  function Vote(h: History, v: nat, t: nat, c: nat, log: Log): History {
    h.(ballots := h.ballots[(v, t) := Ballot(c, log)])
  }

  lemma VoteOk(h: History, v: nat, t: nat, c: nat, log: Log)
    requires HistoryOk(h) && v < |h.terms| && h.terms[v] == t && (v, t) !in h.ballots
    requires (c, t) in h.campaigns && AtLeast(h.campaigns[(c, t)], log)
    requires Traced(h, log) && Remembers(h, v, log, t)
    ensures HistoryOk(Vote(h, v, t, c, log)) && Grows(h, Vote(h, v, t, c, log))
  {
    var h' := Vote(h, v, t, c, log);
    assert Grows(h, h') by {
      forall p: nat, t: nat | p < |h.terms| ensures AckGrows(h, h', p, t) { assert Ack(h', p, t) == Ack(h, p, t); }
    }
    assert BallotOk(h', v, t) by {
      TracedGrows(h, h', log);
      forall u: nat | u < t ensures Ack(h', v, u) == Ack(h, v, u) { }
      RemembersGrows(h, h', v, log, t);
    }
    SameLogsOk(h, h');
  }

  function Store(h: History, v: nat, t: nat, k: nat): History {
    h.(acks := h.acks[(v, t) := if k > Ack(h, v, t) then k else Ack(h, v, t)])
  }

  lemma StoreOk(h: History, v: nat, t: nat, k: nat)
    requires HistoryOk(h) && v < |h.terms| && h.terms[v] == t && t in h.logs && k <= |h.logs[t]|
    ensures HistoryOk(Store(h, v, t, k)) && Grows(h, Store(h, v, t, k))
    ensures Ack(Store(h, v, t, k), v, t) >= k
  {
    StoreGrows(h, v, t, k);
    SameLogsOk(h, Store(h, v, t, k));
  }

  lemma StoreGrows(h: History, v: nat, t: nat, k: nat)
    requires AcksOk(h) && v < |h.terms| && h.terms[v] == t && t in h.logs && k <= |h.logs[t]|
    ensures Grows(h, Store(h, v, t, k)) && AcksOk(Store(h, v, t, k))
  {
    var h' := Store(h, v, t, k);
    forall p: nat, u: nat | p < |h.terms| ensures AckGrows(h, h', p, u) {
      assert (p, u) == (v, t) || Ack(h', p, u) == Ack(h, p, u);
    }
  }

  function Elect(h: History, c: nat, t: nat): History
    requires (c, t) in h.campaigns
  {
    var log := h.campaigns[(c, t)];
    h.(leaders := h.leaders[t := c], elected := h.elected[t := log], logs := h.logs[t := log])
  }

  lemma ElectOk(h: History, c: nat, t: nat)
    requires HistoryOk(h) && (c, t) in h.campaigns && t !in h.leaders
    requires IsQuorum(VotersOf(h, c, t), |h.terms|)
    ensures HistoryOk(Elect(h, c, t)) && Grows(h, Elect(h, c, t))
  {
    var h' := Elect(h, c, t);
    ElectGrows(h, c, t);
    ElectLeaders(h, h', c, t);
    VotingGrows(h, h');
    ElectComplete(h, h', c, t);
  }

  lemma ElectLeaders(h: History, h': History, c: nat, t: nat)
    requires LeadersOk(h) && CampaignsOk(h) && (c, t) in h.campaigns && h' == Elect(h, c, t) && Grows(h, h')
    requires IsQuorum(VotersOf(h, c, t), |h.terms|)
    ensures LeadersOk(h')
  {
    forall u | u in h'.leaders ensures LeaderOk(h', u) {
      if u == t {
        NewLeaderOk(h, h', c, t);
      } else {
        LeaderGrows(h, h', u);
      }
    }
  }

  lemma NewLeaderOk(h: History, h': History, c: nat, t: nat)
    requires CampaignsOk(h) && (c, t) in h.campaigns && h' == Elect(h, c, t) && Grows(h, h')
    requires IsQuorum(VotersOf(h, c, t), |h.terms|)
    ensures LeaderOk(h', t)
  {
    VotersGrow(h, h', c, t);
    CampaignGrows(h, h', c, t);
  }

  lemma ElectGrows(h: History, c: nat, t: nat)
    requires LeadersOk(h) && (c, t) in h.campaigns && t !in h.leaders
    ensures Grows(h, Elect(h, c, t))
  {
    var h' := Elect(h, c, t);
    forall p: nat, t: nat | p < |h.terms| ensures AckGrows(h, h', p, t) { assert Ack(h', p, t) == Ack(h, p, t); }
  }

  // Campaigns, votes and acknowledgements stay in order when only the leaders and their logs grow.
  lemma VotingGrows(h: History, h': History)
    requires HistoryOk(h) && Grows(h, h')
    requires h'.campaigns == h.campaigns && h'.ballots == h.ballots && h'.acks == h.acks && h'.terms == h.terms
    ensures CampaignsOk(h') && BallotsOk(h') && AcksOk(h')
  {
    forall c: nat, t: nat | (c, t) in h'.campaigns ensures GoodCampaign(h', c, t) { CampaignGrows(h, h', c, t); }
    forall v: nat, t: nat | (v, t) in h'.ballots ensures BallotOk(h', v, t) { BallotGrows(h, h', v, t); }
    forall v: nat, t: nat | (v, t) in h'.acks
      ensures t in h'.logs && h'.acks[(v, t)] <= |h'.logs[t]|
    {
      assert (v, t) in h.acks && h.logs[t] <= h'.logs[t];
    }
  }

  lemma ElectComplete(h: History, h': History, c: nat, t: nat)
    requires HistoryOk(h) && (c, t) in h.campaigns && t !in h.leaders && h' == Elect(h, c, t) && Grows(h, h')
    requires IsQuorum(VotersOf(h, c, t), |h.terms|)
    ensures Complete(h')
  {
    forall u: nat, t': nat, n: nat | u < t' && t' in h'.elected && Open(h', u, n)
      ensures h'.logs[u][..n] <= h'.elected[t']
    {
      assert GoodCampaign(h, c, t);
      assert u != t;
      if t' == t {
        OpenShrinks(h, h', u, n);
        WinnerHolds(h, c, t, u, n);
      } else {
        CompleteGrows(h, h', u, t', n);
      }
    }
  }

  // The heart of Leader Completeness: the majority that elects a leader meets the majority that could
  // commit an entry, and a voter in both has only voted for a log that holds the entry.
  lemma WinnerHolds(h: History, c: nat, t: nat, u: nat, n: nat)
    requires HistoryOk(h) && (c, t) in h.campaigns && u < t
    requires IsQuorum(VotersOf(h, c, t), |h.terms|) && Open(h, u, n)
    ensures h.logs[u][..n] <= h.campaigns[(c, t)]
  {
    var v := QuorumsMeet(VotersOf(h, c, t), Unblocked(h, u, n), |h.terms|);
    assert BallotOk(h, v, t) && GoodCampaign(h, c, t);
    assert h.logs[u][..n] <= h.ballots[(v, t)].log;
    UpToDateHolds(h, h.campaigns[(c, t)], h.ballots[(v, t)].log, u, n);
  }

  lemma UpToDateHolds(h: History, a: Log, b: Log, u: nat, n: nat)
    requires LeadersOk(h) && Complete(h) && Open(h, u, n)
    requires Traced(h, a) && Traced(h, b) && AtLeast(a, b)
    requires h.logs[u][..n] <= b
    ensures h.logs[u][..n] <= a
  {
    LastTermGreatest(h, b);
    assert b[n - 1] == h.logs[u][n - 1];
    assert LastTerm(a) >= LastTerm(b) >= u;
    var t := a[|a| - 1].term;
    assert TracedAt(h, a, |a| - 1);
    assert a[..|a| - 1 + 1] == a;
    if LastTerm(a) == LastTerm(b) {
      assert TracedAt(h, b, |b| - 1);
      assert b[..|b| - 1 + 1] == b;
    } else {
      LaterLeaderHolds(h, t, u, n);
      assert h.logs[t][|a| - 1].term == t;
    }
  }

  lemma LaterLeaderHolds(h: History, t: nat, u: nat, n: nat)
    requires LeadersOk(h) && Complete(h) && Open(h, u, n) && u < t && t in h.logs
    ensures h.logs[u][..n] <= h.logs[t]
    ensures n <= |h.logs[t]| && forall i :: 0 <= i < n ==> h.logs[t][i].term <= u
  {
    assert t in h.leaders && LeaderOk(h, t);
    assert u in h.leaders && LeaderOk(h, u);
    assert h.logs[u][..n] <= h.elected[t];
    forall i | 0 <= i < n ensures h.logs[t][i].term <= u {
      assert h.logs[t][i] == h.logs[u][..n][i];
    }
  }

  function Extend(h: History, t: nat, e: Entry): History
    requires t in h.logs
  {
    h.(logs := h.logs[t := h.logs[t] + [e]])
  }

  lemma ExtendOk(h: History, t: nat, e: Entry)
    requires HistoryOk(h) && t in h.logs && e.term == t
    ensures HistoryOk(Extend(h, t, e)) && Grows(h, Extend(h, t, e))
  {
    var h' := Extend(h, t, e);
    ExtendGrows(h, t, e);
    ExtendLeaders(h, h', t, e);
    VotingGrows(h, h');
    ExtendComplete(h, h', t, e);
  }

  lemma ExtendLeaders(h: History, h': History, t: nat, e: Entry)
    requires LeadersOk(h) && t in h.logs && e.term == t && h' == Extend(h, t, e) && Grows(h, h')
    ensures LeadersOk(h')
  {
    forall u | u in h'.leaders ensures LeaderOk(h', u) {
      if u == t {
        ExtendedLeaderOk(h, h', t, e);
      } else {
        LeaderGrows(h, h', u);
      }
    }
  }

  lemma ExtendGrows(h: History, t: nat, e: Entry)
    requires t in h.logs
    ensures Grows(h, Extend(h, t, e))
  {
    var h' := Extend(h, t, e);
    forall p: nat, t: nat | p < |h.terms| ensures AckGrows(h, h', p, t) { assert Ack(h', p, t) == Ack(h, p, t); }
  }

  lemma ExtendedLeaderOk(h: History, h': History, t: nat, e: Entry)
    requires LeadersOk(h) && t in h.leaders && e.term == t && h' == Extend(h, t, e) && Grows(h, h')
    ensures LeaderOk(h', t)
  {
    assert LeaderOk(h, t);
    VotersGrow(h, h', h.leaders[t], t);
    ExtendedTraced(h, h', t, e);
  }

  lemma ExtendedTraced(h: History, h': History, t: nat, e: Entry)
    requires t in h.logs && e.term == t && h' == Extend(h, t, e) && Traced(h, h.logs[t]) && Grows(h, h')
    ensures Traced(h', h'.logs[t])
  {
    var old' := h.logs[t];
    var log := h'.logs[t];
    TracedGrows(h, h', old');
    forall i | 0 <= i < |log| ensures TracedAt(h', log, i) {
      if i < |old'| {
        assert TracedAt(h', old', i);
        assert log[..i + 1] == old'[..i + 1];
      } else {
        assert log[..i + 1] == log;
      }
    }
  }

  lemma ExtendComplete(h: History, h': History, t: nat, e: Entry)
    requires HistoryOk(h) && t in h.logs && h' == Extend(h, t, e) && Grows(h, h')
    ensures Complete(h')
  {
    forall u: nat, t': nat, n: nat | u < t' && t' in h'.elected && Open(h', u, n)
      ensures h'.logs[u][..n] <= h'.elected[t']
    {
      if n > |h.logs[u]| { TooLateToOpen(h, h', u, t', n); }
      CompleteGrows(h, h', u, t', n);
    }
  }

  lemma VoterBlocked(h: History, v: nat, u: nat, t: nat, n: nat)
    requires BallotsOk(h) && AcksOk(h) && (v, t) in h.ballots && u < t && u in h.logs && n > |h.logs[u]|
    ensures v < |h.terms| && h.terms[v] > u && Ack(h, v, u) < n
  {
    assert BallotOk(h, v, t);
  }

  // Once a later leader has its majority, a new entry of an older leader cannot gather one.
  lemma TooLateToOpen(h: History, h': History, u: nat, t: nat, n: nat)
    requires HistoryOk(h) && h'.acks == h.acks && h'.terms == h.terms
    requires u < t && t in h.leaders && u in h.logs && n > |h.logs[u]|
    ensures !Open(h', u, n)
  {
    var voters := VotersOf(h, h.leaders[t], t);
    assert IsQuorum(voters, |h.terms|) by { assert LeaderOk(h, t); }
    forall v | v in voters ensures v !in Unblocked(h', u, n) {
      VoterBlocked(h, v, u, t, n);
    }
    OneQuorum(voters, Unblocked(h', u, n), |h.terms|);
  }
}
