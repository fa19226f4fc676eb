// The two `topo_sort` functions: Kahn's algorithm over the tasks' in-list
// dependencies, with a ready queue kept sorted by IRI (the later planner) or
// first-in first-out (the first planner).
module TopoSort {
  import opened Lists
  import opened TaskGraph
  import opened StringOrder
  import opened Kahn

  /** `topo_sort` with the ready queue kept sorted by IRI. The first `scheduled` tasks
      of the result are a dependency order; the rest are the tasks a cycle held back,
      in list order, each still waiting for an unscheduled dependency. */
  method TopoSortSorted<T(!new)>(tasks: seq<T>, key: T -> string, deps: T -> seq<string>)
    returns (result: seq<T>, ghost scheduled: nat)
    requires Distinct(Keys(tasks, key))
    ensures multiset(result) == multiset(tasks)
    ensures scheduled <= |result| && Topological(result[..scheduled], key, deps, KeySet(tasks, key))
    ensures result[scheduled..] == Leftover(tasks, key, KeySet(result[..scheduled], key))
    ensures forall i :: scheduled <= i < |result| ==>
              !Ready(deps(result[i]), KeySet(tasks, key), KeySet(result[..scheduled], key))
    ensures Acyclic(tasks, key, deps) <==> scheduled == |result|
    ensures Acyclic(tasks, key, deps) <==> Topological(result, key, deps, KeySet(tasks, key))
    ensures forall i, j :: 0 <= i < j < scheduled && Ready(deps(result[j]), KeySet(tasks, key), KeySet(result[..i], key))
              ==> !LexLess(key(result[j]), key(result[i]))
  {
    var adj, indeg, queue := StartSorted(tasks, key, deps);
    var ordered;
    ordered, indeg := ScheduleSorted(tasks, key, deps, adj, indeg, queue);
    scheduled := |ordered|;
    result := ordered;
    if |ordered| != |tasks| {
      result := ordered + Leftover(tasks, key, KeySet(ordered, key));
    }
    Finish(tasks, key, deps, adj, indeg, ordered, result);
    FinishGreedy(tasks, key, deps, ordered, result);
  }

  /** The first phase of the sorted variant: the graph, and the roots sorted by IRI. */
  method StartSorted<T>(tasks: seq<T>, key: T -> string, deps: T -> seq<string>)
    returns (adj: map<string, seq<string>>, indeg: map<string, int>, queue: seq<string>)
    requires Distinct(Keys(tasks, key))
    ensures Scheduling(tasks, key, deps, adj, indeg, queue, []) && Sorted(queue)
  {
    indeg, adj := BuildGraph(tasks, key, deps);
    StartDegrees(tasks, key, deps, indeg);
    StartQueue(tasks, key, deps, indeg);
    queue := SortStrings(ZeroDegree(Keys(tasks, key), indeg));
    Start(tasks, key, deps, adj, indeg, queue);
  }

  /** The main loop of the sorted variant, from the initial queue until it runs dry. */
  method ScheduleSorted<T>(tasks: seq<T>, key: T -> string, deps: T -> seq<string>,
                           adj: map<string, seq<string>>, indeg0: map<string, int>, queue0: seq<string>)
    returns (ordered: seq<T>, indeg: map<string, int>)
    requires Distinct(Keys(tasks, key))
    requires Scheduling(tasks, key, deps, adj, indeg0, queue0, []) && Sorted(queue0)
    ensures Scheduling(tasks, key, deps, adj, indeg, [], ordered) && Greedy(ordered, tasks, key, deps)
  {
    var byIri := ByKey(tasks, key);
    var queue := queue0;
    indeg, ordered := indeg0, [];
    while queue != []
      invariant Scheduling(tasks, key, deps, adj, indeg, queue, ordered)
      invariant Sorted(queue) && Greedy(ordered, tasks, key, deps)
      decreases |tasks| - |ordered|
    {
      var iri := queue[0];
      PopSorted(tasks, key, deps, adj, indeg, queue, ordered);
      queue := queue[1..];
      ordered := ordered + [byIri[iri]];
      indeg, queue := ReleaseSorted(tasks, key, deps, indeg, queue, KeySet(ordered, key), adj[iri]);
    }
  }

  /** Popping the head of the sorted queue. */
  lemma {:induction false} PopSorted<T>(tasks: seq<T>, key: T -> string, deps: T -> seq<string>,
                        adj: map<string, seq<string>>, indeg: map<string, int>, queue: seq<string>, ordered: seq<T>)
    requires Distinct(Keys(tasks, key))
    requires Scheduling(tasks, key, deps, adj, indeg, queue, ordered)
    requires Sorted(queue) && Greedy(ordered, tasks, key, deps) && queue != []
    ensures queue[0] in ByKey(tasks, key) && queue[0] in adj
    ensures var o' := ordered + [ByKey(tasks, key)[queue[0]]];
      && Progress(tasks, key, deps, adj, o') && Greedy(o', tasks, key, deps)
      && Releasing(tasks, key, deps, indeg, queue[1..], KeySet(o', key), multiset(adj[queue[0]]))
      && Sorted(queue[1..])
      && |ordered| < |o'| <= |tasks|
  {
    PopGreedy(tasks, key, deps, adj, indeg, queue, ordered);
    Pop(tasks, key, deps, adj, indeg, queue, ordered);
  }

  /** The inner loop of the sorted variant: lower the in-degree of each dependent of
      the task just scheduled and insert those reaching zero into the sorted queue. */
  method ReleaseSorted<T>(ghost tasks: seq<T>, ghost key: T -> string, ghost deps: T -> seq<string>,
                          indeg0: map<string, int>, queue0: seq<string>, ghost done: set<string>, succ: seq<string>)
    returns (indeg: map<string, int>, queue: seq<string>)
    requires Releasing(tasks, key, deps, indeg0, queue0, done, multiset(succ)) && Sorted(queue0)
    ensures Releasing(tasks, key, deps, indeg, queue, done, multiset{}) && Sorted(queue)
  {
    indeg, queue := indeg0, queue0;
    var k := 0;
    assert succ[k..] == succ;
    while k < |succ|
      invariant k <= |succ|
      invariant Releasing(tasks, key, deps, indeg, queue, done, multiset(succ[k..])) && Sorted(queue)
    {
      var nxt := succ[k];
      ReleaseSortedStep(tasks, key, deps, indeg, queue, done, succ, k);
      var d := indeg[nxt] - 1;
      indeg := indeg[nxt := indeg[nxt] - 1];
      if d == 0 {
        queue := SortStrings(queue + [nxt]);
      }
      k := k + 1;
    }
    assert succ[k..] == [];
  }

  /** One turn of `ReleaseSorted`. */
  lemma {:induction false} ReleaseSortedStep<T>(tasks: seq<T>, key: T -> string, deps: T -> seq<string>,
                                indeg: map<string, int>, queue: seq<string>, done: set<string>,
                                succ: seq<string>, k: nat)
    requires k < |succ|
    requires Releasing(tasks, key, deps, indeg, queue, done, multiset(succ[k..])) && Sorted(queue)
    ensures succ[k] in indeg
    ensures indeg[succ[k]] - 1 == 0 ==>
      Releasing(tasks, key, deps, indeg[succ[k] := indeg[succ[k]] - 1], SortStrings(queue + [succ[k]]), done, multiset(succ[k + 1..]))
    ensures indeg[succ[k]] - 1 != 0 ==>
      Releasing(tasks, key, deps, indeg[succ[k] := indeg[succ[k]] - 1], queue, done, multiset(succ[k + 1..]))
  {
    var nxt := succ[k];
    assert succ[k..] == [nxt] + succ[k + 1..];
    Decrement(tasks, key, deps, indeg, queue, done, multiset(succ[k..]), nxt);
    if indeg[nxt] == 1 {
      ReleasingPermuted(tasks, key, deps, indeg[nxt := 0], queue + [nxt], SortStrings(queue + [nxt]), done, multiset(succ[k + 1..]));
    }
  }

  // ---------------------------------------------------------------- first-in first-out

  /** `topo_sort` with a first-in first-out ready queue: the same promises as the
      sorted variant, and the tasks without in-list dependencies come first, in list
      order. */
  method TopoSortFifo<T(!new), K(==,!new)>(tasks: seq<T>, key: T -> K, deps: T -> seq<K>)
    returns (result: seq<T>, ghost scheduled: nat)
    requires Distinct(Keys(tasks, key))
    ensures multiset(result) == multiset(tasks)
    ensures scheduled <= |result| && Topological(result[..scheduled], key, deps, KeySet(tasks, key))
    ensures result[scheduled..] == Leftover(tasks, key, KeySet(result[..scheduled], key))
    ensures forall i :: scheduled <= i < |result| ==>
              !Ready(deps(result[i]), KeySet(tasks, key), KeySet(result[..scheduled], key))
    ensures Acyclic(tasks, key, deps) <==> scheduled == |result|
    ensures Acyclic(tasks, key, deps) <==> Topological(result, key, deps, KeySet(tasks, key))
    ensures |Roots(tasks, key, deps, KeySet(tasks, key))| <= scheduled
    ensures Keys(result, key)[..|Roots(tasks, key, deps, KeySet(tasks, key))|] == Roots(tasks, key, deps, KeySet(tasks, key))
  {
    var adj, indeg, queue := StartFifo(tasks, key, deps);
    var ordered;
    ordered, indeg := ScheduleFifo(tasks, key, deps, adj, indeg, queue, Roots(tasks, key, deps, KeySet(tasks, key)));
    scheduled := |ordered|;
    result := ordered;
    if |ordered| != |tasks| {
      result := ordered + Leftover(tasks, key, KeySet(ordered, key));
    }
    FinishFifo(tasks, key, deps, adj, indeg, ordered, result, Roots(tasks, key, deps, KeySet(tasks, key)));
  }

  /** The first phase of the first-in first-out variant: the graph, and the roots in
      list order. */
  method StartFifo<T, K(==,!new)>(tasks: seq<T>, key: T -> K, deps: T -> seq<K>)
    returns (adj: map<K, seq<K>>, indeg: map<K, int>, queue: seq<K>)
    requires Distinct(Keys(tasks, key))
    ensures Scheduling(tasks, key, deps, adj, indeg, queue, [])
    ensures RootsFirst([], queue, key, Roots(tasks, key, deps, KeySet(tasks, key)))
  {
    indeg, adj := BuildGraph(tasks, key, deps);
    StartDegrees(tasks, key, deps, indeg);
    StartQueue(tasks, key, deps, indeg);
    queue := ZeroDegree(Keys(tasks, key), indeg);
    Start(tasks, key, deps, adj, indeg, queue);
    StartRootsFirst<T, K>(queue, key);
  }

  /** The main loop of the first-in first-out variant. */
  method ScheduleFifo<T, K(==,!new)>(tasks: seq<T>, key: T -> K, deps: T -> seq<K>,
                                     adj: map<K, seq<K>>, indeg0: map<K, int>, queue0: seq<K>,
                                     ghost roots: seq<K>)
    returns (ordered: seq<T>, indeg: map<K, int>)
    requires Distinct(Keys(tasks, key))
    requires Scheduling(tasks, key, deps, adj, indeg0, queue0, []) && RootsFirst([], queue0, key, roots)
    ensures Scheduling(tasks, key, deps, adj, indeg, [], ordered)
    ensures RootsFirst(ordered, [], key, roots)
  {
    var byIri := ByKey(tasks, key);
    var queue := queue0;
    indeg, ordered := indeg0, [];
    while queue != []
      invariant Scheduling(tasks, key, deps, adj, indeg, queue, ordered)
      invariant RootsFirst(ordered, queue, key, roots)
      decreases |tasks| - |ordered|
    {
      var iri := queue[0];
      PopFifo(tasks, key, deps, adj, indeg, queue, ordered, roots);
      queue := queue[1..];
      ordered := ordered + [byIri[iri]];
      indeg, queue := ReleaseFifo(tasks, key, deps, indeg, queue, KeySet(ordered, key), adj[iri], ordered, roots);
    }
  }

  /** Popping the head of the first-in first-out queue. */
  lemma {:induction false} PopFifo<T, K(!new)>(tasks: seq<T>, key: T -> K, deps: T -> seq<K>,
                      adj: map<K, seq<K>>, indeg: map<K, int>, queue: seq<K>, ordered: seq<T>, roots: seq<K>)
    requires Distinct(Keys(tasks, key))
    requires Scheduling(tasks, key, deps, adj, indeg, queue, ordered)
    requires RootsFirst(ordered, queue, key, roots) && queue != []
    ensures queue[0] in ByKey(tasks, key) && queue[0] in adj
    ensures var o' := ordered + [ByKey(tasks, key)[queue[0]]];
      && Progress(tasks, key, deps, adj, o') && RootsFirst(o', queue[1..], key, roots)
      && Releasing(tasks, key, deps, indeg, queue[1..], KeySet(o', key), multiset(adj[queue[0]]))
      && |ordered| < |o'| <= |tasks|
  {
    Pop(tasks, key, deps, adj, indeg, queue, ordered);
    PopRootsFirst(ordered, queue, key, roots, ByKey(tasks, key)[queue[0]]);
  }

  /** The inner loop of the first-in first-out variant: lower the in-degree of each
      dependent of the task just scheduled and append those reaching zero. */
  method ReleaseFifo<T, K(==,!new)>(ghost tasks: seq<T>, ghost key: T -> K, ghost deps: T -> seq<K>,
                                    indeg0: map<K, int>, queue0: seq<K>, ghost done: set<K>, succ: seq<K>,
                                    ghost ordered: seq<T>, ghost roots: seq<K>)
    returns (indeg: map<K, int>, queue: seq<K>)
    requires Releasing(tasks, key, deps, indeg0, queue0, done, multiset(succ))
    requires RootsFirst(ordered, queue0, key, roots)
    ensures Releasing(tasks, key, deps, indeg, queue, done, multiset{})
    ensures RootsFirst(ordered, queue, key, roots)
  {
    indeg, queue := indeg0, queue0;
    var k := 0;
    assert succ[k..] == succ;
    while k < |succ|
      invariant k <= |succ|
      invariant Releasing(tasks, key, deps, indeg, queue, done, multiset(succ[k..]))
      invariant RootsFirst(ordered, queue, key, roots)
    {
      var nxt := succ[k];
      ReleaseFifoStep(tasks, key, deps, indeg, queue, done, succ, k, ordered, roots);
      var d := indeg[nxt] - 1;
      indeg := indeg[nxt := indeg[nxt] - 1];
      if d == 0 {
        queue := queue + [nxt];
      }
      k := k + 1;
    }
    assert succ[k..] == [];
  }

  /** One turn of `ReleaseFifo`. */
  lemma {:induction false} ReleaseFifoStep<T, K(!new)>(tasks: seq<T>, key: T -> K, deps: T -> seq<K>,
                              indeg: map<K, int>, queue: seq<K>, done: set<K>,
                              succ: seq<K>, k: nat, ordered: seq<T>, roots: seq<K>)
    requires k < |succ|
    requires Releasing(tasks, key, deps, indeg, queue, done, multiset(succ[k..]))
    requires RootsFirst(ordered, queue, key, roots)
    ensures succ[k] in indeg
    ensures indeg[succ[k]] - 1 == 0 ==>
      Releasing(tasks, key, deps, indeg[succ[k] := indeg[succ[k]] - 1], queue + [succ[k]], done, multiset(succ[k + 1..]))
      && RootsFirst(ordered, queue + [succ[k]], key, roots)
    ensures indeg[succ[k]] - 1 != 0 ==>
      Releasing(tasks, key, deps, indeg[succ[k] := indeg[succ[k]] - 1], queue, done, multiset(succ[k + 1..]))
  {
    var nxt := succ[k];
    assert succ[k..] == [nxt] + succ[k + 1..];
    Decrement(tasks, key, deps, indeg, queue, done, multiset(succ[k..]), nxt);
    PushRootsFirst(ordered, queue, key, roots, nxt);
  }

  /** Nothing scheduled yet: the queue is the roots. */
  lemma {:induction false} StartRootsFirst<T, K(!new)>(roots: seq<K>, key: T -> K)
    ensures RootsFirst([], roots, key, roots)
  {
    assert Keys([], key) + roots == roots;
  }

  /** Everything `TopoSortFifo` promises, once its queue is dry. */
  lemma {:induction false} FinishFifo<T(!new), K(!new)>(tasks: seq<T>, key: T -> K, deps: T -> seq<K>,
                          adj: map<K, seq<K>>, indeg: map<K, int>, ordered: seq<T>, result: seq<T>, roots: seq<K>)
    requires Distinct(Keys(tasks, key))
    requires Scheduling(tasks, key, deps, adj, indeg, [], ordered) && RootsFirst(ordered, [], key, roots)
    requires result == if |ordered| != |tasks| then ordered + Leftover(tasks, key, KeySet(ordered, key)) else ordered
    ensures multiset(result) == multiset(tasks)
    ensures |ordered| <= |result| && Topological(result[..|ordered|], key, deps, KeySet(tasks, key))
    ensures result[|ordered|..] == Leftover(tasks, key, KeySet(result[..|ordered|], key))
    ensures forall i :: |ordered| <= i < |result| ==>
              !Ready(deps(result[i]), KeySet(tasks, key), KeySet(result[..|ordered|], key))
    ensures Acyclic(tasks, key, deps) <==> |ordered| == |result|
    ensures Acyclic(tasks, key, deps) <==> Topological(result, key, deps, KeySet(tasks, key))
    ensures |roots| <= |ordered|
    ensures Keys(result, key)[..|roots|] == roots
  {
    Finish(tasks, key, deps, adj, indeg, ordered, result);
    FinishShape(tasks, key, ordered, result);
    FinishRoots(ordered, result, key, roots);
  }

  /** Once the queue runs dry, the result begins with the roots. */
  lemma {:induction false} FinishRoots<T, K(!new)>(ordered: seq<T>, result: seq<T>, key: T -> K, roots: seq<K>)
    requires RootsFirst(ordered, [], key, roots)
    requires |ordered| <= |result| && result[..|ordered|] == ordered
    ensures |roots| <= |ordered|
    ensures Keys(result, key)[..|roots|] == roots
  {
    KeysPrefix(result, key, |ordered|);
    assert Keys(ordered, key) + [] == Keys(ordered, key);
  }
}
