/**
  Checking the partitions of a history side by side: the verdicts arrive in any order.
 */
module PorcupineParallel {
  import opened Options
  import opened Linearizability
  import opened PorcupineList
  import opened PorcupinePositions
  import opened PorcupineChecker
  import PorcupineSearch

  datatype CheckResult = Ok | Illegal

  // What is reported about each operation of one partition.
  type Longest = seq<Option<seq<nat>>>

  ghost predicate Reported<S, V>(m: Model<S, V>, ops: seq<Op<V>>, longest: Longest) {
    && |longest| == |ops|
    && forall i {:trigger longest[i]} :: 0 <= i < |ops| ==> IsLongestWith(m, ops, i, longest[i])
  }

  lemma CompleteIsLongest<S, V>(m: Model<S, V>, ops: seq<Op<V>>, order: seq<nat>, i: nat)
    requires WellTimed(ops) && IsLinearization(m, ops, order) && i < |ops|
    ensures IsLongestWith(m, ops, i, Some(order))
  {
    CompleteIsLinearization(m, ops, order);
    PartialIsReachable(m, ops, order);
    PorcupineSearch.PathSize(m, ops, order);
    forall q: seq<nat> | IsPartialLinearization(m, ops, q) ensures |q| <= |order| {
      PartialIsReachable(m, ops, q);
      PorcupineSearch.PathSize(m, ops, q);
    }
    assert |Everything(ops)| == |ops|;
  }

  /** What the display relies on: every order it is given can be replayed on the model without a refusal. */
  lemma ReportedReplays<S, V>(m: Model<S, V>, ops: seq<Op<V>>, longest: Longest, i: nat, k: nat)
    requires Reported(m, ops, longest) && i < |ops| && longest[i].Some? && k < |longest[i].value|
    ensures var order := longest[i].value;
            InRange(order, |ops|) && Accepts(m, ops, StateAfter(m, ops, order[..k]), order[k])
  {
    assert IsLongestWith(m, ops, i, longest[i]);
  }

  // One partition, with a report on it if one is wanted.
  method CheckPartition<S(==, !new), V>(m: Model<S, V>, history: seq<Event<V>>, computeInfo: bool,
      ghost ops: seq<Op<V>>)
    returns (ok: bool, longest: Longest)
    requires Indexed(history, ops)
    ensures ok <==> Linearizable(m, ops)
    ensures computeInfo ==> Reported(m, ops, longest)
  {
    ok, longest := CheckSingle(m, history, computeInfo, ops);
    IndexedWellTimed(history, ops);
    if ok && computeInfo {
      forall i | 0 <= i < |ops|
          ensures IsLongestWith(m, ops, i, longest[i]) { CompleteIsLongest(m, ops, longest[i].value, i); }
    }
  }

  /**
    The verdict on a partitioned history.  Partitions report in any order; without `computeInfo` the first bad
    verdict ends the wait.
   */
  method CheckParallel<S(==, !new), V>(m: Model<S, V>, histories: seq<seq<Event<V>>>, computeInfo: bool,
      ghost parts: seq<seq<Op<V>>>)
    returns (result: CheckResult, reports: map<nat, Longest>)
    requires |parts| == |histories| > 0
    requires forall i :: 0 <= i < |parts| ==> Indexed(histories[i], parts[i])
    ensures result == Ok <==> forall i :: 0 <= i < |parts| ==> Linearizable(m, parts[i])
    ensures computeInfo ==> forall i: nat :: i < |parts| ==> i in reports && Reported(m, parts[i], reports[i])
  {
    var ok := true;
    reports := map[];
    var running := Below(|histories|);
    ghost var arrived: set<nat> := {};
    while running != {} && (ok || computeInfo)
      invariant forall i: nat :: i < |parts| <==> i in running || i in arrived
      invariant ok <==> forall i :: i in arrived ==> Linearizable(m, parts[i])
      invariant computeInfo ==> forall i: nat :: i in arrived ==> i in reports && Reported(m, parts[i], reports[i])
      decreases running
    {
      var i :| i in running;
      var verdict, longest := CheckPartition(m, histories[i], computeInfo, parts[i]);
      running := running - {i};
      arrived := arrived + {i};
      reports := reports[i := longest];
      ok := ok && verdict;
    }
    result := if ok then Ok else Illegal;
  }
}
