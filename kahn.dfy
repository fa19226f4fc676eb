// Kahn's algorithm as the two `topo_sort` functions run it: pop a ready IRI,
// schedule its task, lower the in-degree of every task depending on it and queue
// those that reach zero; tasks a cycle keeps waiting are appended at the end.
module Kahn {
  import opened Lists
  import opened TaskGraph
  import opened StringOrder

  // ---------------------------------------------------------------- loop state

  /** `adj` as `BuildGraph` leaves it. */
  ghost predicate AdjOf<T, K(!new)>(adj: map<K, seq<K>>, tasks: seq<T>, key: T -> K, deps: T -> seq<K>)
  {
    && adj.Keys == KeySet(tasks, key)
    && forall d :: d in adj ==> adj[d] == Dependents(tasks, key, deps, d)
  }

  /** `indeg[x]` counts x's dependencies in the list that are not in done, plus the
      occurrences of x in extra (decrements still to be applied). */
  ghost predicate Degrees<T, K(!new)>(indeg: map<K, int>, tasks: seq<T>, key: T -> K, deps: T -> seq<K>,
                       done: set<K>, extra: multiset<K>)
  {
    && indeg.Keys == KeySet(tasks, key)
    && forall x :: x in indeg ==>
         indeg[x] == Pending(deps(ByKey(tasks, key)[x]), KeySet(tasks, key), done) + extra[x]
  }

  /** The ready queue holds, once each, exactly the unscheduled IRIs of in-degree 0. */
  ghost predicate ReadyQueue<K(!new)>(queue: seq<K>, indeg: map<K, int>, done: set<K>)
  {
    forall x :: multiset(queue)[x] == if x in indeg && x !in done && indeg[x] == 0 then 1 else 0
  }

  /** The decrements still to be applied concern unscheduled tasks of the list. */
  ghost predicate Unscheduled<K(!new)>(extra: multiset<K>, indeg: map<K, int>, done: set<K>)
  {
    forall x :: x in extra ==> x in indeg && x !in done
  }

  /** The scheduled tasks, with the tasks not yet scheduled, make up the list. */
  ghost predicate Accounted<T, K(!new)>(ordered: seq<T>, tasks: seq<T>, key: T -> K, done: set<K>)
  {
    multiset(ordered) + multiset(Leftover(tasks, key, done)) == multiset(tasks)
  }

  /** Every scheduled task has its dependencies in the list scheduled too. */
  ghost predicate Closed<T, K(!new)>(tasks: seq<T>, key: T -> K, deps: T -> seq<K>, done: set<K>)
  {
    forall y :: y in done ==> y in ByKey(tasks, key) && Ready(deps(ByKey(tasks, key)[y]), KeySet(tasks, key), done)
  }

  /** The part of the loop state that the inner loop leaves alone. */
  ghost predicate Progress<T, K(!new)>(tasks: seq<T>, key: T -> K, deps: T -> seq<K>,
                              adj: map<K, seq<K>>, ordered: seq<T>)
  {
    && |ordered| <= |tasks|
    && AdjOf(adj, tasks, key, deps)
    && Accounted(ordered, tasks, key, KeySet(ordered, key))
    && Closed(tasks, key, deps, KeySet(ordered, key))
    && Topological(ordered, key, deps, KeySet(tasks, key))
  }

  /** The in-degrees and the queue while the decrements in extra are still to be applied. */
  ghost predicate Releasing<T, K(!new)>(tasks: seq<T>, key: T -> K, deps: T -> seq<K>,
                               indeg: map<K, int>, queue: seq<K>, done: set<K>, extra: multiset<K>)
  {
    && Degrees(indeg, tasks, key, deps, done, extra)
    && Unscheduled(extra, indeg, done)
    && ReadyQueue(queue, indeg, done)
  }

  /** What holds each time the outer loop of `topo_sort` tests its queue. */
  ghost predicate Scheduling<T, K(!new)>(tasks: seq<T>, key: T -> K, deps: T -> seq<K>,
                                adj: map<K, seq<K>>, indeg: map<K, int>,
                                queue: seq<K>, ordered: seq<T>)
  {
    Progress(tasks, key, deps, adj, ordered) && Releasing(tasks, key, deps, indeg, queue, KeySet(ordered, key), multiset{})
  }

  /** Popping the head of the queue and scheduling its task. */
  lemma {:induction false} Pop<T, K(!new)>(tasks: seq<T>, key: T -> K, deps: T -> seq<K>,
               adj: map<K, seq<K>>, indeg: map<K, int>, queue: seq<K>, ordered: seq<T>)
    requires Distinct(Keys(tasks, key))
    requires Scheduling(tasks, key, deps, adj, indeg, queue, ordered) && queue != []
    ensures queue[0] in ByKey(tasks, key) && queue[0] in adj
    ensures Progress(tasks, key, deps, adj, ordered + [ByKey(tasks, key)[queue[0]]])
    ensures Releasing(tasks, key, deps, indeg, queue[1..], KeySet(ordered + [ByKey(tasks, key)[queue[0]]], key), multiset(adj[queue[0]]))
  {
    var iri := queue[0];
    var done := KeySet(ordered, key);
    PopFacts(tasks, key, deps, indeg, queue, ordered);
    PopDegrees(tasks, key, deps, indeg, done, iri);
    PopQueue(queue, indeg, done);
    PopAccounted(tasks, key, ordered, done, iri);
    PopClosed(tasks, key, deps, done, iri);
    TopologicalSnoc(ordered, ByKey(tasks, key)[iri], key, deps, KeySet(tasks, key));
    PopUnscheduled(tasks, key, deps, indeg, done, iri);
  }

  /** One decrement of the inner loop; the IRI joins the queue when it reaches 0. */
  lemma {:induction false} Decrement<T, K(!new)>(tasks: seq<T>, key: T -> K, deps: T -> seq<K>,
                                        indeg: map<K, int>, queue: seq<K>, done: set<K>,
                                        extra: multiset<K>, nxt: K)
    requires nxt in extra && Releasing(tasks, key, deps, indeg, queue, done, extra)
    ensures nxt in indeg && nxt !in queue
    ensures indeg[nxt] == 1 ==>
              Releasing(tasks, key, deps, indeg[nxt := indeg[nxt] - 1], queue + [nxt], done, extra - multiset{nxt})
    ensures indeg[nxt] != 1 ==>
              Releasing(tasks, key, deps, indeg[nxt := indeg[nxt] - 1], queue, done, extra - multiset{nxt})
  {
    DecFacts(tasks, key, deps, indeg, queue, done, extra, nxt);
    DecDegrees(tasks, key, deps, indeg, done, extra, nxt);
    DecQueue(queue, indeg, done, nxt);
  }

  /** The queue is only ever read up to reordering. */
  lemma {:induction false} ReleasingPermuted<T, K(!new)>(tasks: seq<T>, key: T -> K, deps: T -> seq<K>,
                             indeg: map<K, int>, queue: seq<K>, queue': seq<K>,
                             done: set<K>, extra: multiset<K>)
    requires Releasing(tasks, key, deps, indeg, queue, done, extra) && multiset(queue') == multiset(queue)
    ensures Releasing(tasks, key, deps, indeg, queue', done, extra)
  {
  }

  // ---------------------------------------------------------------- one pop

  lemma {:induction false} PopFacts<T, K(!new)>(tasks: seq<T>, key: T -> K, deps: T -> seq<K>, indeg: map<K, int>,
                    queue: seq<K>, ordered: seq<T>)
    requires Degrees(indeg, tasks, key, deps, KeySet(ordered, key), multiset{})
    requires ReadyQueue(queue, indeg, KeySet(ordered, key))
    requires queue != []
    ensures queue[0] in indeg && queue[0] in ByKey(tasks, key) && queue[0] !in KeySet(ordered, key)
    ensures Ready(deps(ByKey(tasks, key)[queue[0]]), KeySet(tasks, key), KeySet(ordered, key))
    ensures KeySet(ordered + [ByKey(tasks, key)[queue[0]]], key) == KeySet(ordered, key) + {queue[0]}
  {
    var iri := queue[0];
    assert multiset(queue)[iri] > 0;
    PendingZeroIffReady(deps(ByKey(tasks, key)[iri]), KeySet(tasks, key), KeySet(ordered, key));
    KeysAppend(ordered, ByKey(tasks, key)[iri], key);
  }

  /** After popping iri, the in-degrees are those of the enlarged schedule plus the
      decrements for iri's dependents. */
  lemma {:induction false} PopDegrees<T, K(!new)>(tasks: seq<T>, key: T -> K, deps: T -> seq<K>, indeg: map<K, int>,
                      done: set<K>, iri: K)
    requires Distinct(Keys(tasks, key))
    requires Degrees(indeg, tasks, key, deps, done, multiset{})
    requires iri in indeg && iri !in done
    ensures Degrees(indeg, tasks, key, deps, done + {iri}, multiset(Dependents(tasks, key, deps, iri)))
  {
    forall x | x in indeg
      ensures indeg[x] == Pending(deps(ByKey(tasks, key)[x]), KeySet(tasks, key), done + {iri})
                          + multiset(Dependents(tasks, key, deps, iri))[x]
    {
      PendingStep(deps(ByKey(tasks, key)[x]), KeySet(tasks, key), done, iri);
      DependentsCount(tasks, key, deps, iri, x);
    }
  }

  lemma {:induction false} PopQueue<K(!new)>(queue: seq<K>, indeg: map<K, int>, done: set<K>)
    requires ReadyQueue(queue, indeg, done) && queue != []
    ensures ReadyQueue(queue[1..], indeg, done + {queue[0]})
  {
    assert queue == [queue[0]] + queue[1..];
  }

  lemma {:induction false} PopAccounted<T, K(!new)>(tasks: seq<T>, key: T -> K, ordered: seq<T>, done: set<K>, iri: K)
    requires Distinct(Keys(tasks, key))
    requires Accounted(ordered, tasks, key, done)
    requires iri in KeySet(tasks, key) && iri !in done
    ensures Accounted(ordered + [ByKey(tasks, key)[iri]], tasks, key, done + {iri})
    ensures |ordered| < |tasks|
  {
    LeftoverStep(tasks, key, done, iri);
    MultisetMove(ordered, ByKey(tasks, key)[iri], Leftover(tasks, key, done), Leftover(tasks, key, done + {iri}), tasks);
  }

  /** Moving one element from one side of a multiset sum to the other. */
  lemma {:induction false} MultisetMove<T>(a: seq<T>, t: T, l: seq<T>, l': seq<T>, all: seq<T>)
    requires multiset(a) + multiset(l) == multiset(all)
    requires multiset(l) == multiset(l') + multiset{t}
    ensures multiset(a + [t]) + multiset(l') == multiset(all)
    ensures |a| < |all|
  {
    assert |multiset(a)| + |multiset(l')| + 1 == |multiset(all)|;
  }

  lemma {:induction false} PopClosed<T, K(!new)>(tasks: seq<T>, key: T -> K, deps: T -> seq<K>, done: set<K>, iri: K)
    requires Closed(tasks, key, deps, done)
    requires iri in ByKey(tasks, key) && Ready(deps(ByKey(tasks, key)[iri]), KeySet(tasks, key), done)
    ensures Closed(tasks, key, deps, done + {iri})
  {
  }

  lemma {:induction false} TopologicalSnoc<T, K(!new)>(s: seq<T>, t: T, key: T -> K, deps: T -> seq<K>, S: set<K>)
    requires Topological(s, key, deps, S)
    requires Ready(deps(t), S, KeySet(s, key))
    ensures Topological(s + [t], key, deps, S)
  {
    forall i | 0 <= i < |s| + 1
      ensures Ready(deps((s + [t])[i]), S, KeySet((s + [t])[..i], key))
    {
      if i < |s| {
        assert (s + [t])[..i] == s[..i];
      } else {
        assert (s + [t])[..i] == s;
      }
    }
  }

  /** No dependent of iri is already scheduled, iri included. */
  lemma {:induction false} PopUnscheduled<T, K(!new)>(tasks: seq<T>, key: T -> K, deps: T -> seq<K>, indeg: map<K, int>,
                          done: set<K>, iri: K)
    requires Distinct(Keys(tasks, key))
    requires indeg.Keys == KeySet(tasks, key)
    requires Closed(tasks, key, deps, done)
    requires iri in indeg && iri !in done
    requires Ready(deps(ByKey(tasks, key)[iri]), KeySet(tasks, key), done)
    ensures Unscheduled(multiset(Dependents(tasks, key, deps, iri)), indeg, done + {iri})
  {
    forall x | x in Dependents(tasks, key, deps, iri)
      ensures x in indeg && x !in done + {iri}
    {
      DependentsCount(tasks, key, deps, iri, x);
    }
  }

  // ---------------------------------------------------------------- one decrement

  lemma {:induction false} DecFacts<T, K(!new)>(tasks: seq<T>, key: T -> K, deps: T -> seq<K>,
                                       indeg: map<K, int>, queue: seq<K>, done: set<K>,
                                       extra: multiset<K>, nxt: K)
    requires nxt in extra
    requires Degrees(indeg, tasks, key, deps, done, extra)
    requires ReadyQueue(queue, indeg, done)
    requires Unscheduled(extra, indeg, done)
    ensures nxt in indeg && nxt !in done && indeg[nxt] >= 1 && nxt !in queue
  {
    assert multiset(queue)[nxt] == 0;
  }

  lemma {:induction false} DecDegrees<T, K(!new)>(tasks: seq<T>, key: T -> K, deps: T -> seq<K>,
                                         indeg: map<K, int>, done: set<K>, extra: multiset<K>, nxt: K)
    requires nxt in indeg && nxt in extra
    requires Degrees(indeg, tasks, key, deps, done, extra)
    requires Unscheduled(extra, indeg, done)
    ensures Degrees(indeg[nxt := indeg[nxt] - 1], tasks, key, deps, done, extra - multiset{nxt})
    ensures Unscheduled(extra - multiset{nxt}, indeg[nxt := indeg[nxt] - 1], done)
  {
    var indeg' := indeg[nxt := indeg[nxt] - 1];
    forall x | x in indeg'
      ensures indeg'[x] == Pending(deps(ByKey(tasks, key)[x]), KeySet(tasks, key), done) + (extra - multiset{nxt})[x]
    {
      if x == nxt {
        assert (extra - multiset{nxt})[x] == extra[x] - 1;
      } else {
        assert (extra - multiset{nxt})[x] == extra[x];
      }
    }
  }

  lemma {:induction false} DecQueue<K(!new)>(queue: seq<K>, indeg: map<K, int>, done: set<K>, nxt: K)
    requires ReadyQueue(queue, indeg, done)
    requires nxt in indeg && nxt !in done && indeg[nxt] >= 1
    ensures indeg[nxt] == 1 ==> ReadyQueue(queue + [nxt], indeg[nxt := indeg[nxt] - 1], done)
    ensures indeg[nxt] != 1 ==> ReadyQueue(queue, indeg[nxt := indeg[nxt] - 1], done)
  {
  }

  // ---------------------------------------------------------------- the end

  /** Every unscheduled task of the list waits for an unscheduled dependency. */
  ghost predicate Blocked<T, K(!new)>(tasks: seq<T>, key: T -> K, deps: T -> seq<K>, done: set<K>)
  {
    forall x :: x in KeySet(tasks, key) && x !in done ==>
      !Ready(deps(ByKey(tasks, key)[x]), KeySet(tasks, key), done)
  }

  /** With the ready queue empty, every unscheduled task is blocked. */
  lemma {:induction false} Stuck<T, K(!new)>(tasks: seq<T>, key: T -> K, deps: T -> seq<K>, indeg: map<K, int>,
                 done: set<K>)
    requires Degrees(indeg, tasks, key, deps, done, multiset{})
    requires ReadyQueue([], indeg, done)
    ensures Blocked(tasks, key, deps, done)
  {
    forall x | x in KeySet(tasks, key) && x !in done
      ensures !Ready(deps(ByKey(tasks, key)[x]), KeySet(tasks, key), done)
    {
      assert multiset([])[x] == 0;
      PendingZeroIffReady(deps(ByKey(tasks, key)[x]), KeySet(tasks, key), done);
    }
  }

  /** In an acyclic list no task can be blocked: the first blocked task of a dependency
      order would have all its dependencies scheduled. */
  lemma {:induction false} AcyclicNotStuck<T(!new), K(!new)>(tasks: seq<T>, key: T -> K, deps: T -> seq<K>, done: set<K>)
    requires Distinct(Keys(tasks, key))
    requires Acyclic(tasks, key, deps) && Blocked(tasks, key, deps, done)
    ensures KeySet(tasks, key) <= done
  {
    var order :| multiset(order) == multiset(tasks) && Topological(order, key, deps, KeySet(tasks, key));
    OrderScheduled(tasks, key, deps, done, order, |order|);
    assert order[..|order|] == order;
    SameKeys(tasks, order, key);
  }

  /** Two arrangements of the same tasks have the same IRIs. */
  lemma {:induction false} SameKeys<T, K(!new)>(tasks: seq<T>, order: seq<T>, key: T -> K)
    requires multiset(order) == multiset(tasks)
    ensures KeySet(tasks, key) <= KeySet(order, key)
  {
    forall x | x in KeySet(tasks, key)
      ensures x in KeySet(order, key)
    {
      var m :| 0 <= m < |tasks| && Keys(tasks, key)[m] == x;
      assert tasks[m] in multiset(order);
      var i :| 0 <= i < |order| && order[i] == tasks[m];
      assert Keys(order, key)[i] == x;
    }
  }

  /** A dependency order of a blocked list has its first n tasks all scheduled. */
  lemma {:induction false} OrderScheduled<T, K(!new)>(tasks: seq<T>, key: T -> K, deps: T -> seq<K>,
                                             done: set<K>, order: seq<T>, n: nat)
    requires Distinct(Keys(tasks, key))
    requires multiset(order) == multiset(tasks) && Topological(order, key, deps, KeySet(tasks, key))
    requires Blocked(tasks, key, deps, done)
    requires n <= |order|
    ensures KeySet(order[..n], key) <= done
  {
    if n > 0 {
      OrderScheduled(tasks, key, deps, done, order, n - 1);
      var t := order[n - 1];
      assert t in multiset(tasks);
      assert Ready(deps(t), KeySet(tasks, key), KeySet(order[..n - 1], key));
      BlockedReady(tasks, key, deps, done, KeySet(order[..n - 1], key), t);
      assert order[..n] == order[..n - 1] + [t];
      KeysAppend(order[..n - 1], t, key);
    }
  }

  /** A task of a blocked list that is ready with fewer tasks scheduled is scheduled. */
  lemma {:induction false} BlockedReady<T, K(!new)>(tasks: seq<T>, key: T -> K, deps: T -> seq<K>,
                                           done: set<K>, before: set<K>, t: T)
    requires Distinct(Keys(tasks, key)) && Blocked(tasks, key, deps, done)
    requires t in tasks && before <= done && Ready(deps(t), KeySet(tasks, key), before)
    ensures key(t) in done
  {
    ByKeyOf(tasks, key, t);
  }

  // ---------------------------------------------------------------- start and finish

  /** The in-degrees as the first phase leaves them: nothing scheduled yet. */
  lemma {:induction false} StartDegrees<T, K(!new)>(tasks: seq<T>, key: T -> K, deps: T -> seq<K>, indeg: map<K, int>)
    requires Distinct(Keys(tasks, key))
    requires indeg.Keys == KeySet(tasks, key)
    requires forall m :: 0 <= m < |tasks| ==> indeg[key(tasks[m])] == Pending(deps(tasks[m]), KeySet(tasks, key), {})
    ensures Degrees(indeg, tasks, key, deps, {}, multiset{})
  {
    forall x | x in indeg
      ensures indeg[x] == Pending(deps(ByKey(tasks, key)[x]), KeySet(tasks, key), {})
    {
      var m :| 0 <= m < |tasks| && key(tasks[m]) == x;
      ByKeyAt(tasks, key, m);
    }
  }

  /** The initial queue holds the roots, in list order, each once. */
  lemma {:induction false} StartQueue<T, K(!new)>(tasks: seq<T>, key: T -> K, deps: T -> seq<K>, indeg: map<K, int>)
    requires Distinct(Keys(tasks, key))
    requires indeg.Keys == KeySet(tasks, key)
    requires forall m :: 0 <= m < |tasks| ==> indeg[key(tasks[m])] == Pending(deps(tasks[m]), KeySet(tasks, key), {})
    ensures forall x :: x in Keys(tasks, key) ==> x in indeg
    ensures ZeroDegree(Keys(tasks, key), indeg) == Roots(tasks, key, deps, KeySet(tasks, key))
    ensures ReadyQueue(ZeroDegree(Keys(tasks, key), indeg), indeg, {})
  {
    ZeroDegreeRoots(tasks, key, deps, indeg, |tasks|);
    assert tasks[..|tasks|] == tasks;
    forall x
      ensures multiset(ZeroDegree(Keys(tasks, key), indeg))[x] == if x in indeg && x !in {} && indeg[x] == 0 then 1 else 0
    {
      ZeroDegreeCount(Keys(tasks, key), indeg, x);
    }
  }

  /** The loop state right after the first phase, whatever order the queue starts in. */
  lemma {:induction false} Start<T, K(!new)>(tasks: seq<T>, key: T -> K, deps: T -> seq<K>,
                 adj: map<K, seq<K>>, indeg: map<K, int>, queue: seq<K>)
    requires Distinct(Keys(tasks, key))
    requires AdjOf(adj, tasks, key, deps)
    requires Degrees(indeg, tasks, key, deps, {}, multiset{})
    requires ReadyQueue(queue, indeg, {})
    ensures Scheduling(tasks, key, deps, adj, indeg, queue, [])
  {
    StartProgress(tasks, key, deps, adj);
    assert KeySet([], key) == {};
  }

  /** Nothing scheduled: the whole list is left over. */
  lemma {:induction false} StartProgress<T, K(!new)>(tasks: seq<T>, key: T -> K, deps: T -> seq<K>,
                         adj: map<K, seq<K>>)
    requires AdjOf(adj, tasks, key, deps)
    ensures Progress(tasks, key, deps, adj, [])
  {
    assert KeySet([], key) == {};
    LeftoverNone(tasks, key);
  }

  /** When the ready queue runs dry, the result is the schedule followed by the tasks
      not scheduled, in list order: a permutation of the list. */
  lemma {:induction false} FinishShape<T, K(!new)>(tasks: seq<T>, key: T -> K, ordered: seq<T>, result: seq<T>)
    requires Accounted(ordered, tasks, key, KeySet(ordered, key))
    requires result == if |ordered| != |tasks| then ordered + Leftover(tasks, key, KeySet(ordered, key)) else ordered
    ensures multiset(result) == multiset(tasks)
    ensures |ordered| <= |result| && result[..|ordered|] == ordered
    ensures result[|ordered|..] == Leftover(tasks, key, KeySet(ordered, key))
  {
    var left := Leftover(tasks, key, KeySet(ordered, key));
    assert |multiset(ordered)| + |multiset(left)| == |multiset(tasks)|;
    if |ordered| == |tasks| {
      assert left == [];
    }
    assert result == ordered + left;
  }

  /** Every task left unscheduled still waits for a dependency. */
  lemma {:induction false} FinishWaiting<T, K(!new)>(tasks: seq<T>, key: T -> K, deps: T -> seq<K>, indeg: map<K, int>,
                         ordered: seq<T>, result: seq<T>)
    requires Distinct(Keys(tasks, key))
    requires Degrees(indeg, tasks, key, deps, KeySet(ordered, key), multiset{})
    requires ReadyQueue([], indeg, KeySet(ordered, key))
    requires |ordered| <= |result| && result[|ordered|..] == Leftover(tasks, key, KeySet(ordered, key))
    ensures forall i :: |ordered| <= i < |result| ==>
              !Ready(deps(result[i]), KeySet(tasks, key), KeySet(ordered, key))
  {
    var done := KeySet(ordered, key);
    Stuck(tasks, key, deps, indeg, done);
    forall i | |ordered| <= i < |result|
      ensures !Ready(deps(result[i]), KeySet(tasks, key), done)
    {
      assert result[i] == Leftover(tasks, key, done)[i - |ordered|];
      LeftoverMember(tasks, key, done, i - |ordered|);
      ByKeyOf(tasks, key, result[i]);
    }
  }

  /** Everything gets scheduled exactly when the graph is acyclic, and then the result
      is a topological order. */
  lemma {:induction false} FinishAcyclic<T(!new), K(!new)>(tasks: seq<T>, key: T -> K, deps: T -> seq<K>, indeg: map<K, int>,
                               ordered: seq<T>, result: seq<T>)
    requires Distinct(Keys(tasks, key))
    requires Degrees(indeg, tasks, key, deps, KeySet(ordered, key), multiset{})
    requires ReadyQueue([], indeg, KeySet(ordered, key))
    requires Topological(ordered, key, deps, KeySet(tasks, key))
    requires multiset(result) == multiset(tasks)
    requires |ordered| <= |result| && result[..|ordered|] == ordered
    requires result[|ordered|..] == Leftover(tasks, key, KeySet(ordered, key))
    ensures Acyclic(tasks, key, deps) <==> |ordered| == |result|
    ensures Acyclic(tasks, key, deps) <==> Topological(result, key, deps, KeySet(tasks, key))
  {
    var done := KeySet(ordered, key);
    assert result == result[..|ordered|] + result[|ordered|..];
    if Acyclic(tasks, key, deps) {
      Stuck(tasks, key, deps, indeg, done);
      AcyclicNotStuck(tasks, key, deps, done);
      LeftoverAllDone(tasks, key, done);
    }
    if |ordered| == |result| {
      assert result == ordered;
    }
  }

  /** Everything the two `topo_sort` variants promise in common, once their queue is dry. */
  lemma {:induction false} Finish<T(!new), K(!new)>(tasks: seq<T>, key: T -> K, deps: T -> seq<K>,
                        adj: map<K, seq<K>>, indeg: map<K, int>, ordered: seq<T>, result: seq<T>)
    requires Distinct(Keys(tasks, key))
    requires Scheduling(tasks, key, deps, adj, indeg, [], ordered)
    requires result == if |ordered| != |tasks| then ordered + Leftover(tasks, key, KeySet(ordered, key)) else ordered
    ensures multiset(result) == multiset(tasks)
    ensures |ordered| <= |result| && Topological(result[..|ordered|], key, deps, KeySet(tasks, key))
    ensures result[|ordered|..] == Leftover(tasks, key, KeySet(result[..|ordered|], key))
    ensures forall i :: |ordered| <= i < |result| ==>
              !Ready(deps(result[i]), KeySet(tasks, key), KeySet(result[..|ordered|], key))
    ensures Acyclic(tasks, key, deps) <==> |ordered| == |result|
    ensures Acyclic(tasks, key, deps) <==> Topological(result, key, deps, KeySet(tasks, key))
  {
    FinishShape(tasks, key, ordered, result);
    FinishWaiting(tasks, key, deps, indeg, ordered, result);
    FinishAcyclic(tasks, key, deps, indeg, ordered, result);
  }

  // ---------------------------------------------------------------- ready-queue orders

  /** With the ready queue kept sorted, a task scheduled at position i has an IRI not
      above that of any task that was ready then and scheduled later, or not yet. */
  ghost predicate Greedy<T>(ordered: seq<T>, tasks: seq<T>, key: T -> string, deps: T -> seq<string>)
  {
    GreedyOrder(ordered, tasks, key, deps) && GreedyWaiting(ordered, tasks, key, deps)
  }

  /** The part of `Greedy` about tasks scheduled later. */
  ghost predicate GreedyOrder<T>(ordered: seq<T>, tasks: seq<T>, key: T -> string, deps: T -> seq<string>)
  {
    forall i, j :: 0 <= i < j < |ordered| && Ready(deps(ordered[j]), KeySet(tasks, key), KeySet(ordered[..i], key))
      ==> !LexLess(key(ordered[j]), key(ordered[i]))
  }

  /** The part of `Greedy` about tasks not scheduled yet. */
  ghost predicate GreedyWaiting<T>(ordered: seq<T>, tasks: seq<T>, key: T -> string, deps: T -> seq<string>)
  {
    forall i, x :: 0 <= i < |ordered| && x in ByKey(tasks, key) && x !in KeySet(ordered, key)
      && Ready(deps(ByKey(tasks, key)[x]), KeySet(tasks, key), KeySet(ordered[..i], key))
      ==> !LexLess(x, key(ordered[i]))
  }

  /** No unscheduled task that is ready now has an IRI below h. */
  ghost predicate Least<T>(h: string, ordered: seq<T>, tasks: seq<T>, key: T -> string, deps: T -> seq<string>)
  {
    forall x :: x in ByKey(tasks, key) && x !in KeySet(ordered, key)
      && Ready(deps(ByKey(tasks, key)[x]), KeySet(tasks, key), KeySet(ordered, key))
      ==> !LexLess(x, h)
  }

  /** Popping the head of the sorted queue keeps the schedule greedy. */
  lemma {:induction false} PopGreedy<T>(tasks: seq<T>, key: T -> string, deps: T -> seq<string>,
                     adj: map<string, seq<string>>, indeg: map<string, int>, queue: seq<string>, ordered: seq<T>)
    requires Scheduling(tasks, key, deps, adj, indeg, queue, ordered)
    requires Greedy(ordered, tasks, key, deps) && Sorted(queue) && queue != []
    ensures queue[0] in ByKey(tasks, key)
    ensures Greedy(ordered + [ByKey(tasks, key)[queue[0]]], tasks, key, deps)
  {
    PopFacts(tasks, key, deps, indeg, queue, ordered);
    QueueHead(tasks, key, deps, indeg, queue, ordered);
    var t := ByKey(tasks, key)[queue[0]];
    PopGreedyOrder(tasks, key, deps, ordered, t);
    PopGreedyWaiting(tasks, key, deps, ordered, t);
  }

  /** Every unscheduled task that is ready is in the sorted queue, so not below its head. */
  lemma {:induction false} QueueHead<T>(tasks: seq<T>, key: T -> string, deps: T -> seq<string>,
                     indeg: map<string, int>, queue: seq<string>, ordered: seq<T>)
    requires Degrees(indeg, tasks, key, deps, KeySet(ordered, key), multiset{})
    requires ReadyQueue(queue, indeg, KeySet(ordered, key))
    requires Sorted(queue) && queue != []
    ensures Least(queue[0], ordered, tasks, key, deps)
  {
    forall x | x in ByKey(tasks, key) && x !in KeySet(ordered, key)
               && Ready(deps(ByKey(tasks, key)[x]), KeySet(tasks, key), KeySet(ordered, key))
      ensures !LexLess(x, queue[0])
    {
      PendingZeroIffReady(deps(ByKey(tasks, key)[x]), KeySet(tasks, key), KeySet(ordered, key));
      assert multiset(queue)[x] == 1;
      SortedHead(queue, x);
    }
  }

  lemma {:induction false} PopGreedyOrder<T>(tasks: seq<T>, key: T -> string, deps: T -> seq<string>,
                          ordered: seq<T>, t: T)
    requires GreedyOrder(ordered, tasks, key, deps) && GreedyWaiting(ordered, tasks, key, deps)
    requires key(t) in ByKey(tasks, key) && ByKey(tasks, key)[key(t)] == t && key(t) !in KeySet(ordered, key)
    ensures GreedyOrder(ordered + [t], tasks, key, deps)
  {
    var o' := ordered + [t];
    forall i, j | 0 <= i < j < |o'| && Ready(deps(o'[j]), KeySet(tasks, key), KeySet(o'[..i], key))
      ensures !LexLess(key(o'[j]), key(o'[i]))
    {
      assert o'[..i] == ordered[..i];
    }
  }

  lemma {:induction false} PopGreedyWaiting<T>(tasks: seq<T>, key: T -> string, deps: T -> seq<string>,
                            ordered: seq<T>, t: T)
    requires GreedyWaiting(ordered, tasks, key, deps) && Least(key(t), ordered, tasks, key, deps)
    ensures GreedyWaiting(ordered + [t], tasks, key, deps)
  {
    var o' := ordered + [t];
    KeysAppend(ordered, t, key);
    forall i, x | 0 <= i < |o'| && x in ByKey(tasks, key) && x !in KeySet(o', key)
                  && Ready(deps(ByKey(tasks, key)[x]), KeySet(tasks, key), KeySet(o'[..i], key))
      ensures !LexLess(x, key(o'[i]))
    {
      if i < |ordered| {
        assert o'[..i] == ordered[..i];
      } else {
        assert o'[..i] == ordered;
      }
    }
  }

  lemma {:induction false} FinishGreedy<T>(tasks: seq<T>, key: T -> string, deps: T -> seq<string>, ordered: seq<T>, result: seq<T>)
    requires Greedy(ordered, tasks, key, deps)
    requires |ordered| <= |result| && result[..|ordered|] == ordered
    ensures forall i, j :: 0 <= i < j < |ordered| && Ready(deps(result[j]), KeySet(tasks, key), KeySet(result[..i], key))
              ==> !LexLess(key(result[j]), key(result[i]))
  {
    forall i, j | 0 <= i < j < |ordered| && Ready(deps(result[j]), KeySet(tasks, key), KeySet(result[..i], key))
      ensures !LexLess(key(result[j]), key(result[i]))
    {
      assert result[..i] == ordered[..i];
      assert result[j] == ordered[j] && result[i] == ordered[i];
    }
  }

  /** With a first-in first-out ready queue, the IRIs scheduled so far followed by the
      queue begin with the roots, in list order. */
  predicate RootsFirst<T, K(==,!new)>(ordered: seq<T>, queue: seq<K>, key: T -> K, roots: seq<K>)
  {
    |ordered| + |queue| >= |roots| && (Keys(ordered, key) + queue)[..|roots|] == roots
  }

  lemma {:induction false} PopRootsFirst<T, K(!new)>(ordered: seq<T>, queue: seq<K>, key: T -> K, roots: seq<K>, t: T)
    requires RootsFirst(ordered, queue, key, roots) && queue != [] && key(t) == queue[0]
    ensures RootsFirst(ordered + [t], queue[1..], key, roots)
  {
    KeysAppend(ordered, t, key);
    assert Keys(ordered + [t], key) + queue[1..] == Keys(ordered, key) + queue;
  }

  lemma {:induction false} PushRootsFirst<T, K(!new)>(ordered: seq<T>, queue: seq<K>, key: T -> K, roots: seq<K>, x: K)
    requires RootsFirst(ordered, queue, key, roots)
    ensures RootsFirst(ordered, queue + [x], key, roots)
  {
    assert (Keys(ordered, key) + (queue + [x]))[..|roots|] == (Keys(ordered, key) + queue)[..|roots|];
  }
}
