/**
  The data path of the distributed MapReduce, from map output through hashed buckets to reduce output, against the
  sequential program.
 */
module MapReduce {

  datatype KeyValue = KeyValue(key: string, value: string)

  // A line of output.
  datatype Line = Line(key: string, output: string)

  type Reducer = (string, seq<string>) -> string

  // ---------- the order of keys ----------

  predicate Before(a: string, b: string) {
    b != [] && (a == [] || a[0] < b[0] || (a[0] == b[0] && Before(a[1..], b[1..])))
  }

  lemma {:induction false} BeforeTransitive(a: string, b: string, c: string)
    requires Before(a, b) && Before(b, c)
    ensures Before(a, c)
  {
    if a != [] && a[0] == b[0] == c[0] { BeforeTransitive(a[1..], b[1..], c[1..]); }
  }

  lemma {:induction false} BeforeTotal(a: string, b: string)
    ensures Before(a, b) || Before(b, a) || a == b
    ensures !(Before(a, b) && Before(b, a))
  {
    if a != [] && b != [] && a[0] == b[0] {
      BeforeTotal(a[1..], b[1..]);
      assert a == [a[0]] + a[1..] && b == [b[0]] + b[1..];
    }
  }

  ghost predicate SortedByKey(s: seq<KeyValue>) {
    forall i, j :: 0 <= i < j < |s| ==> !Before(s[j].key, s[i].key)
  }

  lemma NotBeforeTransitive(a: string, b: string, c: string)
    requires !Before(b, a) && !Before(c, b)
    ensures !Before(c, a)
  {
    BeforeTotal(a, b);
    BeforeTotal(b, c);
    BeforeTotal(a, c);
    if Before(a, b) && Before(b, c) { BeforeTransitive(a, b, c); }
  }

  lemma SortedWith(s: seq<KeyValue>, i: nat, e: KeyValue)
    requires SortedByKey(s) && i <= |s|
    requires (forall k :: 0 <= k < i ==> !Before(e.key, s[k].key))
             && (forall k :: i <= k < |s| ==> !Before(s[k].key, e.key))
    ensures SortedByKey(s[..i] + [e] + s[i..])
  {
    var r := s[..i] + [e] + s[i..];
    forall a, b | 0 <= a < b < |r| ensures !Before(r[b].key, r[a].key) {
      assert r[a] == if a < i then s[a] else if a == i then e else s[a - 1];
      assert r[b] == if b < i then s[b] else if b == i then e else s[b - 1];
    }
  }

  lemma OneMore(s: seq<KeyValue>, i: nat, e: KeyValue)
    requires i <= |s|
    ensures multiset(s[..i] + [e] + s[i..]) == multiset(s) + multiset{e}
  {
    assert s == s[..i] + s[i..];
  }

  // Where e belongs: behind everything not after it.
  method PlaceFor(s: seq<KeyValue>, e: KeyValue) returns (i: nat)
    requires SortedByKey(s)
    ensures i <= |s| && (forall k :: 0 <= k < i ==> !Before(e.key, s[k].key))
            && (forall k :: i <= k < |s| ==> !Before(s[k].key, e.key))
  {
    i := |s|;
    while i > 0 && Before(e.key, s[i - 1].key)
      invariant 0 <= i <= |s| && forall k :: i <= k < |s| ==> !Before(s[k].key, e.key)
    {
      BeforeTotal(e.key, s[i - 1].key);
      i := i - 1;
    }
    forall k | 0 <= k < i
        ensures !Before(e.key, s[k].key) { if k < i - 1 { NotBeforeTransitive(s[k].key, s[i - 1].key, e.key); } }
  }

  method InsertByKey(s: seq<KeyValue>, e: KeyValue) returns (r: seq<KeyValue>)
    requires SortedByKey(s)
    ensures SortedByKey(r) && multiset(r) == multiset(s) + multiset{e}
  {
    var i := PlaceFor(s, e);
    SortedWith(s, i, e);
    OneMore(s, i, e);
    r := s[..i] + [e] + s[i..];
  }

  method SortByKey(s: seq<KeyValue>) returns (r: seq<KeyValue>)
    ensures SortedByKey(r) && multiset(r) == multiset(s)
  {
    r := [];
    for i := 0 to |s|
      invariant SortedByKey(r) && multiset(r) == multiset(s[..i])
    {
      assert s[..i + 1] == s[..i] + [s[i]];
      r := InsertByKey(r, s[i]);
    }
    assert s[..|s|] == s;
  }

  // ---------- the values of a key ----------

  function ValuesOf(kvs: seq<KeyValue>, k: string): seq<string> {
    if kvs == [] then []
    else ValuesOf(kvs[..|kvs| - 1], k) + if kvs[|kvs| - 1].key == k then [kvs[|kvs| - 1].value] else []
  }

  lemma {:induction false} ValuesOfConcat(a: seq<KeyValue>, b: seq<KeyValue>, k: string)
    ensures ValuesOf(a + b, k) == ValuesOf(a, k) + ValuesOf(b, k)
  {
    if b == [] {
      assert a + b == a;
    } else {
      var b' := b[..|b| - 1];
      assert (a + b)[..|a + b| - 1] == a + b';
      ValuesOfConcat(a, b', k);
    }
  }

  lemma CountMore<T>(s: seq<T>, x: T, y: T)
    ensures multiset(s + [x])[y] == multiset(s)[y] + if x == y then 1 else 0
  {
  }

  // How often a value occurs for a key is a matter of the pairs, not of their order.
  lemma {:induction false} ValueCounts(kvs: seq<KeyValue>, k: string, v: string)
    ensures multiset(ValuesOf(kvs, k))[v] == multiset(kvs)[KeyValue(k, v)]
  {
    if kvs != [] {
      var before, last := kvs[..|kvs| - 1], kvs[|kvs| - 1];
      ValueCounts(before, k, v);
      assert kvs == before + [last];
      CountMore(before, last, KeyValue(k, v));
      CountMore(ValuesOf(before, k), last.value, v);
      assert ValuesOf(before, k) + [] == ValuesOf(before, k);
    }
  }

  lemma SamePairsSameValues(a: seq<KeyValue>, b: seq<KeyValue>, k: string)
    requires multiset(a) == multiset(b)
    ensures multiset(ValuesOf(a, k)) == multiset(ValuesOf(b, k))
  {
    forall v ensures multiset(ValuesOf(a, k))[v] == multiset(ValuesOf(b, k))[v] {
      ValueCounts(a, k, v);
      ValueCounts(b, k, v);
    }
  }

  // ---------- grouping and reducing ----------

  ghost predicate HasLine(lines: seq<Line>, k: string) {
    exists i :: 0 <= i < |lines| && lines[i].key == k
  }

  // One line for each key, with the key reduced over all its values.
  ghost predicate Reduces(lines: seq<Line>, kvs: seq<KeyValue>, f: Reducer) {
    && (forall i, j :: 0 <= i < j < |lines| ==> lines[i].key != lines[j].key)
    && (forall i {:trigger lines[i]} :: 0 <= i < |lines| ==>
          ValuesOf(kvs, lines[i].key) != [] && lines[i].output == f(lines[i].key, ValuesOf(kvs, lines[i].key)))
    && (forall k {:trigger HasLine(lines, k)} :: ValuesOf(kvs, k) != [] ==> HasLine(lines, k))
  }

  // A run of pairs with one key.
  ghost predicate Group(g: seq<KeyValue>, k: string, values: seq<string>) {
    |values| == |g| > 0 && forall i :: 0 <= i < |g| ==> g[i] == KeyValue(k, values[i])
  }

  lemma {:induction false} GroupValues(g: seq<KeyValue>, k: string, values: seq<string>, k': string)
    requires Group(g, k, values)
    ensures ValuesOf(g, k') == if k' == k then values else []
  {
    var n := |g| - 1;
    if n > 0 {
      GroupValues(g[..n], k, values[..n], k');
    } else {
      assert g[..n] == [];
    }
    assert values == values[..n] + [values[n]];
  }

  lemma ReducesMore(lines: seq<Line>, kvs: seq<KeyValue>, f: Reducer, g: seq<KeyValue>, k: string, values: seq<string>)
    requires Reduces(lines, kvs, f) && Group(g, k, values) && ValuesOf(kvs, k) == []
    ensures Reduces(lines + [Line(k, f(k, values))], kvs + g, f)
  {
    var more := lines + [Line(k, f(k, values))];
    forall k' ensures ValuesOf(kvs + g, k') == ValuesOf(kvs, k') + if k' == k then values else [] {
      ValuesOfConcat(kvs, g, k');
      GroupValues(g, k, values, k');
    }
    forall i | 0 <= i < |lines| ensures lines[i].key != k { assert ValuesOf(kvs, lines[i].key) != []; }
    forall i | 0 <= i < |more|
        ensures ValuesOf(kvs + g, more[i].key) != []
        && more[i].output == f(more[i].key, ValuesOf(kvs + g, more[i].key)) {
      if i < |lines| { assert more[i] == lines[i] && ValuesOf(kvs + g, lines[i].key) == ValuesOf(kvs, lines[i].key); }
          else { assert ValuesOf(kvs + g, k) == values; }
    }
    forall k' | ValuesOf(kvs + g, k') != [] ensures HasLine(more, k') {
      if k' == k {
        assert more[|lines|].key == k;
      } else {
        assert HasLine(lines, k');
        var i :| 0 <= i < |lines| && lines[i].key == k';
        assert more[i] == lines[i];
      }
    }
  }

  lemma {:induction false} NoValues(kvs: seq<KeyValue>, k: string)
    requires forall i :: 0 <= i < |kvs| ==> kvs[i].key != k
    ensures ValuesOf(kvs, k) == []
  {
    if kvs != [] { NoValues(kvs[..|kvs| - 1], k); }
  }

  // No key goes on beyond position j.
  ghost predicate Boundary(s: seq<KeyValue>, j: nat) {
    j <= |s| && forall a, b :: 0 <= a < j <= b < |s| ==> s[a].key != s[b].key
  }

  lemma GroupEnds(s: seq<KeyValue>, i: nat, j: nat)
    requires SortedByKey(s) && i < j <= |s| && (j < |s| ==> s[j].key != s[i].key)
    requires forall a :: i <= a < j ==> s[a].key == s[i].key
    ensures Boundary(s, j)
  {
    forall a, b | 0 <= a < j <= b < |s| ensures s[a].key != s[b].key {
      var k, x := s[j - 1].key, s[a].key;
      BeforeTotal(x, x);
      BeforeTotal(s[b].key, s[b].key);
      assert !Before(k, x) && !Before(s[b].key, s[j].key) && !Before(s[j].key, k);
      BeforeTotal(s[j].key, k);
      if x == s[b].key { NotBeforeTransitive(s[j].key, x, k); }
    }
  }

  // The run of pairs that starts at i, and its values.
  method NextGroup(s: seq<KeyValue>, i: nat) returns (j: nat, values: seq<string>)
    requires SortedByKey(s) && i < |s|
    ensures i < j <= |s| && Boundary(s, j) && Group(s[i..j], s[i].key, values)
  {
    j := i + 1;
    while j < |s| && s[j].key == s[i].key
      invariant i < j <= |s| && forall a :: i <= a < j ==> s[a].key == s[i].key
    {
      j := j + 1;
    }
    values := [];
    for k := i to j
      invariant |values| == k - i && forall a :: 0 <= a < k - i ==> values[a] == s[i + a].value
    {
      values := values + [s[k].value];
    }
    GroupEnds(s, i, j);
  }

  lemma ReducesNext(lines: seq<Line>, s: seq<KeyValue>, f: Reducer, i: nat, j: nat, values: seq<string>)
    requires i < j <= |s| && Boundary(s, i) && Reduces(lines, s[..i], f) && Group(s[i..j], s[i].key, values)
    ensures Reduces(lines + [Line(s[i].key, f(s[i].key, values))], s[..j], f)
  {
    NoValues(s[..i], s[i].key);
    ReducesMore(lines, s[..i], f, s[i..j], s[i].key, values);
    assert s[..i] + s[i..j] == s[..j];
  }

  // Groups the sorted pairs by key and reduces each group.
  method PerformReduce(intermediate: seq<KeyValue>, reducef: Reducer) returns (lines: seq<Line>)
    requires SortedByKey(intermediate)
    ensures Reduces(lines, intermediate, reducef)
  {
    lines := [];
    var i := 0;
    while i < |intermediate|
      invariant 0 <= i <= |intermediate| && Boundary(intermediate, i)
      invariant Reduces(lines, intermediate[..i], reducef)
    {
      var j, values := NextGroup(intermediate, i);
      ReducesNext(lines, intermediate, reducef, i, j, values);
      lines := lines + [Line(intermediate[i].key, reducef(intermediate[i].key, values))];
      i := j;
    }
    assert intermediate[..|intermediate|] == intermediate;
  }

  // ---------- buckets ----------

  // The pairs that go to one bucket, in order.
  function Bucket(kvs: seq<KeyValue>, hash: string -> nat, n: nat, p: nat): seq<KeyValue>
    requires n > 0
  {
    if kvs == [] then []
    else Bucket(kvs[..|kvs| - 1], hash, n, p) + if hash(kvs[|kvs| - 1].key) % n == p then [kvs[|kvs| - 1]] else []
  }

  // A map task's output, one file for each reduce task.
  method StoreIntermediate(kva: seq<KeyValue>, nReduce: nat, hash: string -> nat) returns (files: seq<seq<KeyValue>>)
    requires nReduce > 0
    ensures |files| == nReduce && forall p :: 0 <= p < nReduce ==> files[p] == Bucket(kva, hash, nReduce, p)
  {
    files := seq(nReduce, _ => []);
    for i := 0 to |kva|
      invariant |files| == nReduce && forall p :: 0 <= p < nReduce ==> files[p] == Bucket(kva[..i], hash, nReduce, p)
    {
      var partition := hash(kva[i].key) % nReduce;
      assert kva[..i + 1][..i] == kva[..i];
      files := files[partition := files[partition] + [kva[i]]];
    }
    assert kva[..|kva|] == kva;
  }

  function Concat<T>(parts: seq<seq<T>>): seq<T> {
    if parts == [] then [] else Concat(parts[..|parts| - 1]) + parts[|parts| - 1]
  }

  lemma ConcatMore<T>(parts: seq<seq<T>>, n: nat)
    requires n < |parts|
    ensures Concat(parts[..n + 1]) == Concat(parts[..n]) + parts[n]
  {
    assert parts[..n + 1][..n] == parts[..n];
  }

  // All map tasks' files for one reduce task.
  method GetIntermediate(files: seq<seq<seq<KeyValue>>>, partition: nat) returns (intermediate: seq<KeyValue>)
    requires forall i :: 0 <= i < |files| ==> partition < |files[i]|
    ensures intermediate == Concat(seq(|files|, i requires 0 <= i < |files| => files[i][partition]))
  {
    intermediate := [];
    ghost var parts := seq(|files|, i requires 0 <= i < |files| => files[i][partition]);
    for i := 0 to |files|
      invariant intermediate == Concat(parts[..i])
    {
      ConcatMore(parts, i);
      intermediate := intermediate + files[i][partition];
    }
    assert parts[..|files|] == parts;
  }

  lemma {:induction false} BucketConcat(a: seq<KeyValue>, b: seq<KeyValue>, hash: string -> nat, n: nat, p: nat)
    requires n > 0
    ensures Bucket(a + b, hash, n, p) == Bucket(a, hash, n, p) + Bucket(b, hash, n, p)
  {
    if b == [] {
      assert a + b == a;
    } else {
      assert (a + b)[..|a + b| - 1] == a + b[..|b| - 1];
      BucketConcat(a, b[..|b| - 1], hash, n, p);
    }
  }

  // Collecting one bucket from every map task is the bucket of everything.
  lemma {:induction false} BucketsCollect(maps: seq<seq<KeyValue>>, hash: string -> nat, n: nat, p: nat,
      parts: seq<seq<KeyValue>>)
    requires n > 0 && |parts| == |maps| && forall i :: 0 <= i < |maps| ==> parts[i] == Bucket(maps[i], hash, n, p)
    ensures Concat(parts) == Bucket(Concat(maps), hash, n, p)
  {
    if maps != [] {
      var k := |maps| - 1;
      BucketsCollect(maps[..k], hash, n, p, parts[..k]);
      BucketConcat(Concat(maps[..k]), maps[k], hash, n, p);
    }
  }

  // A key keeps all its values, in one bucket.
  lemma {:induction false} BucketValues(kvs: seq<KeyValue>, hash: string -> nat, n: nat, p: nat, k: string)
    requires n > 0
    ensures ValuesOf(Bucket(kvs, hash, n, p), k) == if hash(k) % n == p then ValuesOf(kvs, k) else []
  {
    if kvs != [] {
      var before, last := kvs[..|kvs| - 1], kvs[|kvs| - 1];
      BucketValues(before, hash, n, p, k);
      var bucket := Bucket(before, hash, n, p);
      assert (bucket + [last])[..|bucket|] == bucket;
      assert bucket + [] == bucket;
    }
  }

  // ---------- equivalence ----------

  ghost predicate OrderInsensitive(f: Reducer) {
    forall k, a, b {:trigger f(k, a), f(k, b)} :: multiset(a) == multiset(b) ==> f(k, a) == f(k, b)
  }

  // What the output should be: a line for each key, whatever order its values come in.
  ghost predicate IsOutput(line: Line, kvs: seq<KeyValue>, f: Reducer) {
    ValuesOf(kvs, line.key) != [] && line.output == f(line.key, ValuesOf(kvs, line.key))
  }

  lemma SortedReduces(lines: seq<Line>, s: seq<KeyValue>, kvs: seq<KeyValue>, f: Reducer, line: Line)
    requires OrderInsensitive(f) && multiset(s) == multiset(kvs) && Reduces(lines, s, f)
    ensures line in lines <==> IsOutput(line, kvs, f)
  {
    SamePairsSameValues(s, kvs, line.key);
    assert |ValuesOf(s, line.key)| == |multiset(ValuesOf(s, line.key))| == |ValuesOf(kvs, line.key)|;
    assert f(line.key, ValuesOf(s, line.key)) == f(line.key, ValuesOf(kvs, line.key));
    if IsOutput(line, kvs, f) {
      assert HasLine(lines, line.key);
      var i :| 0 <= i < |lines| && lines[i].key == line.key;
      assert lines[i] == line;
    }
  }

  ghost predicate NoKeyTwice(lines: seq<Line>) {
    forall i, j :: 0 <= i < j < |lines| ==> lines[i].key != lines[j].key
  }

  lemma {:induction false} CountOnce(lines: seq<Line>, line: Line)
    requires NoKeyTwice(lines)
    ensures multiset(lines)[line] == if line in lines then 1 else 0
  {
    if lines != [] {
      var before, last := lines[..|lines| - 1], lines[|lines| - 1];
      CountOnce(before, line);
      assert lines == before + [last];
      assert multiset(lines) == multiset(before) + multiset{last};
    }
  }

  lemma SameLines(a: seq<Line>, b: seq<Line>)
    requires NoKeyTwice(a) && NoKeyTwice(b) && forall line :: line in a <==> line in b
    ensures multiset(a) == multiset(b)
  {
    forall line ensures multiset(a)[line] == multiset(b)[line] {
      CountOnce(a, line);
      CountOnce(b, line);
    }
  }

  // The lines come from reducing the pairs, sorted somehow.
  ghost predicate ReducesSorted(lines: seq<Line>, kvs: seq<KeyValue>, f: Reducer) {
    exists s: seq<KeyValue> :: multiset(s) == multiset(kvs) && Reduces(lines, s, f)
  }

  // The outputs of the reduce tasks, each from its own bucket.
  ghost predicate ReducesBuckets(outputs: seq<seq<Line>>, kvs: seq<KeyValue>, hash: string -> nat, f: Reducer) {
    |outputs| > 0 && forall p {:trigger outputs[p]} :: 0 <= p < |outputs| ==>
        ReducesSorted(outputs[p], Bucket(kvs, hash, |outputs|, p), f)
  }

  lemma LinesOf(lines: seq<Line>, kvs: seq<KeyValue>, f: Reducer, line: Line)
    requires OrderInsensitive(f) && ReducesSorted(lines, kvs, f)
    ensures NoKeyTwice(lines) && (line in lines <==> IsOutput(line, kvs, f))
  {
    var s: seq<KeyValue> :| multiset(s) == multiset(kvs) && Reduces(lines, s, f);
    SortedReduces(lines, s, kvs, f, line);
  }

  // A bucket's lines are the output's lines for the keys that go there.
  lemma BucketLines(outputs: seq<seq<Line>>, kvs: seq<KeyValue>, hash: string -> nat, f: Reducer, p: nat, line: Line)
    requires OrderInsensitive(f) && ReducesBuckets(outputs, kvs, hash, f) && p < |outputs|
    ensures NoKeyTwice(outputs[p])
    ensures line in outputs[p] <==> IsOutput(line, kvs, f) && hash(line.key) % |outputs| == p
  {
    LinesOf(outputs[p], Bucket(kvs, hash, |outputs|, p), f, line);
    BucketValues(kvs, hash, |outputs|, p, line.key);
  }

  // The outputs of the first m reduce tasks together.
  lemma {:induction false} BucketsLines(outputs: seq<seq<Line>>, kvs: seq<KeyValue>, hash: string -> nat, f: Reducer,
      m: nat)
    requires OrderInsensitive(f) && ReducesBuckets(outputs, kvs, hash, f) && m <= |outputs|
    ensures NoKeyTwice(Concat(outputs[..m]))
    ensures forall line {:trigger line in Concat(outputs[..m])} ::
              line in Concat(outputs[..m]) <==> IsOutput(line, kvs, f) && hash(line.key) % |outputs| < m
  {
    if m > 0 {
      var before, last := Concat(outputs[..m - 1]), outputs[m - 1];
      BucketsLines(outputs, kvs, hash, f, m - 1);
      ConcatMore(outputs, m - 1);
      forall line ensures line in before + last <==> IsOutput(line, kvs, f) && hash(line.key) % |outputs| < m {
        BucketLines(outputs, kvs, hash, f, m - 1, line);
        assert line in before <==> IsOutput(line, kvs, f) && hash(line.key) % |outputs| < m - 1;
      }
      NoKeyTwiceMore(outputs, kvs, hash, f, m - 1, before, last);
    }
  }

  lemma NoKeyTwiceMore(outputs: seq<seq<Line>>, kvs: seq<KeyValue>, hash: string -> nat, f: Reducer, p: nat,
      before: seq<Line>, last: seq<Line>)
    requires OrderInsensitive(f) && ReducesBuckets(outputs, kvs, hash, f) && p < |outputs| && last == outputs[p]
    requires NoKeyTwice(before) && forall line :: line in before ==> hash(line.key) % |outputs| < p
    ensures NoKeyTwice(before + last)
  {
    forall i, j | 0 <= i < |before| && 0 <= j < |last| ensures before[i].key != last[j].key {
      assert before[i] in before && last[j] in last;
      BucketLines(outputs, kvs, hash, f, p, last[j]);
    }
    if last != [] { BucketLines(outputs, kvs, hash, f, p, last[0]); }
  }

  /** The lines of all reduce tasks together are the lines of the sequential program: each key once, reduced over all
      its values, for any number of reduce tasks and any hash. */
  lemma SameOutput(outputs: seq<seq<Line>>, lines: seq<Line>, kvs: seq<KeyValue>, hash: string -> nat, f: Reducer)
    requires OrderInsensitive(f) && ReducesBuckets(outputs, kvs, hash, f) && ReducesSorted(lines, kvs, f)
    ensures multiset(Concat(outputs)) == multiset(lines) && NoKeyTwice(Concat(outputs))
  {
    assert outputs[..|outputs|] == outputs;
    BucketsLines(outputs, kvs, hash, f, |outputs|);
    LinesOf(lines, kvs, f, Line("", ""));
    forall line ensures line in Concat(outputs) <==> line in lines {
      LinesOf(lines, kvs, f, line);
      assert line in Concat(outputs) <==> IsOutput(line, kvs, f) && hash(line.key) % |outputs| < |outputs|;
    }
    SameLines(Concat(outputs), lines);
  }

  // ---------- the two programs ----------

  type Mapper = (string, string) -> seq<KeyValue>

  datatype Input = Input(name: string, content: string)

  function MapAll(inputs: seq<Input>, mapf: Mapper): (r: seq<seq<KeyValue>>)
    ensures |r| == |inputs|
  {
    seq(|inputs|, i requires 0 <= i < |inputs| => mapf(inputs[i].name, inputs[i].content))
  }

  // Everything in one place, sorted and reduced.
  method Sequential(inputs: seq<Input>, mapf: Mapper, reducef: Reducer) returns (lines: seq<Line>)
    ensures ReducesSorted(lines, Concat(MapAll(inputs, mapf)), reducef)
  {
    var intermediate := [];
    ghost var maps := MapAll(inputs, mapf);
    for i := 0 to |inputs|
      invariant intermediate == Concat(maps[..i])
    {
      ConcatMore(maps, i);
      intermediate := intermediate + mapf(inputs[i].name, inputs[i].content);
    }
    assert maps[..|inputs|] == maps;
    var sorted := SortByKey(intermediate);
    lines := PerformReduce(sorted, reducef);
  }

  method MapTasks(inputs: seq<Input>, mapf: Mapper, nReduce: nat, hash: string -> nat)
      returns (files: seq<seq<seq<KeyValue>>>)
    requires nReduce > 0
    ensures |files| == |inputs|
    ensures forall i :: 0 <= i < |files| ==> |files[i]| == nReduce
    ensures forall i, p :: 0 <= i < |files| && 0 <= p < nReduce ==>
            files[i][p] == Bucket(MapAll(inputs, mapf)[i], hash, nReduce, p)
  {
    files := [];
    for i := 0 to |inputs|
      invariant |files| == i && forall j :: 0 <= j < i ==> |files[j]| == nReduce
      invariant forall j, p :: 0 <= j < i && 0 <= p < nReduce ==>
                files[j][p] == Bucket(MapAll(inputs, mapf)[j], hash, nReduce, p)
    {
      var kva := mapf(inputs[i].name, inputs[i].content);
      var stored := StoreIntermediate(kva, nReduce, hash);
      files := files + [stored];
    }
  }

  // One reduce task: its bucket from every map task, sorted and reduced.
  method ReduceTask(files: seq<seq<seq<KeyValue>>>, p: nat, reducef: Reducer, ghost maps: seq<seq<KeyValue>>,
      ghost n: nat, ghost hash: string -> nat)
    returns (lines: seq<Line>)
    requires p < n && |files| == |maps| && forall i :: 0 <= i < |files| ==>
               |files[i]| == n && files[i][p] == Bucket(maps[i], hash, n, p)
    ensures ReducesSorted(lines, Bucket(Concat(maps), hash, n, p), reducef)
  {
    var intermediate := GetIntermediate(files, p);
    BucketsCollect(maps, hash, n, p, seq(|files|, i requires 0 <= i < |files| => files[i][p]));
    var sorted := SortByKey(intermediate);
    lines := PerformReduce(sorted, reducef);
  }

  method Distributed(inputs: seq<Input>, mapf: Mapper, reducef: Reducer, nReduce: nat, hash: string -> nat)
      returns (outputs: seq<seq<Line>>)
    requires nReduce > 0
    ensures |outputs| == nReduce && ReducesBuckets(outputs, Concat(MapAll(inputs, mapf)), hash, reducef)
  {
    ghost var maps := MapAll(inputs, mapf);
    var files := MapTasks(inputs, mapf, nReduce, hash);
    outputs := [];
    for p := 0 to nReduce
      invariant |outputs| == p
      invariant forall q {:trigger outputs[q]} :: 0 <= q < p ==>
                ReducesSorted(outputs[q], Bucket(Concat(maps), hash, nReduce, q), reducef)
    {
      var lines := ReduceTask(files, p, reducef, maps, nReduce, hash);
      outputs := outputs + [lines];
    }
  }

  /** Runs both and compares what they print, as the repository's test script does. */
  method Compare(inputs: seq<Input>, mapf: Mapper, reducef: Reducer, nReduce: nat, hash: string -> nat)
      returns (outputs: seq<seq<Line>>, lines: seq<Line>)
    requires nReduce > 0 && OrderInsensitive(reducef)
    ensures |outputs| == nReduce && multiset(Concat(outputs)) == multiset(lines) && NoKeyTwice(lines)
    ensures forall line :: line in lines <==> IsOutput(line, Concat(MapAll(inputs, mapf)), reducef)
  {
    lines := Sequential(inputs, mapf, reducef);
    outputs := Distributed(inputs, mapf, reducef, nReduce, hash);
    ghost var kvs := Concat(MapAll(inputs, mapf));
    SameOutput(outputs, lines, kvs, hash, reducef);
    LinesOf(lines, kvs, reducef, Line("", ""));
    forall line ensures line in lines <==> IsOutput(line, kvs, reducef) { LinesOf(lines, kvs, reducef, line); }
  }
}
