// The dependency graph of moving tasks and the two topological sorts built on it
// (Kahn's algorithm with a sorted ready queue in last/app.py, with a first-in
// first-out ready queue in app.py). Tasks are generic: `key` reads a task's IRI and
// `deps` the IRIs it depends on; dependencies outside the task list are ignored.
module TaskGraph {
  import opened Lists

  // ---------------------------------------------------------------- keys

  /** The IRIs of a task list, in order. */
  function Keys<T, K(==,!new)>(ts: seq<T>, key: T -> K): (ks: seq<K>)
    ensures |ks| == |ts|
    ensures forall i :: 0 <= i < |ts| ==> ks[i] == key(ts[i])
  {
    seq(|ts|, i requires 0 <= i < |ts| => key(ts[i]))
  }

  /** The IRIs of a task list, as a set: the keys of `by_iri`. */
  function KeySet<T, K(==,!new)>(ts: seq<T>, key: T -> K): (ks: set<K>)
    ensures forall x :: x in ks <==> x in Keys(ts, key)
  {
    set x | x in Keys(ts, key)
  }

  lemma {:induction false} KeysPrefix<T, K(!new)>(ts: seq<T>, key: T -> K, n: nat)
    requires n <= |ts|
    ensures Keys(ts[..n], key) == Keys(ts, key)[..n]
  {
  }

  lemma {:induction false} KeySetPrefix<T, K(!new)>(ts: seq<T>, key: T -> K, n: nat)
    requires n <= |ts|
    ensures KeySet(ts[..n], key) <= KeySet(ts, key)
  {
    KeysPrefix(ts, key, n);
  }

  lemma {:induction false} KeysAppend<T, K(!new)>(ts: seq<T>, t: T, key: T -> K)
    ensures Keys(ts + [t], key) == Keys(ts, key) + [key(t)]
  {
  }

  /** Every task's IRI is among the IRIs of its list. */
  lemma KeysOfMembers<T, K(!new)>(ts: seq<T>, key: T -> K)
    ensures forall t :: t in ts ==> key(t) in KeySet(ts, key)
  {
    forall t | t in ts
      ensures key(t) in KeySet(ts, key)
    {
      var j :| 0 <= j < |ts| && ts[j] == t;
      assert Keys(ts, key)[j] == key(t);
    }
  }

  /** The IRIs of a non-empty list: those before the last task, and the last one's. */
  lemma {:induction false} KeySetLast<T, K(!new)>(ts: seq<T>, key: T -> K)
    requires ts != []
    ensures KeySet(ts, key) == KeySet(ts[..|ts| - 1], key) + {key(ts[|ts| - 1])}
  {
    assert ts == ts[..|ts| - 1] + [ts[|ts| - 1]];
    KeysAppend(ts[..|ts| - 1], ts[|ts| - 1], key);
  }

  /** With distinct IRIs the last task's IRI is not among those before it. */
  lemma {:induction false} LastKeyFresh<T, K(!new)>(ts: seq<T>, key: T -> K)
    requires ts != [] && Distinct(Keys(ts, key))
    ensures key(ts[|ts| - 1]) !in KeySet(ts[..|ts| - 1], key)
  {
    var init := ts[..|ts| - 1];
    KeysPrefix(ts, key, |ts| - 1);
    forall x | x in Keys(init, key)
      ensures x != key(ts[|ts| - 1])
    {
      var j :| 0 <= j < |init| && Keys(init, key)[j] == x;
      assert Keys(ts, key)[j] == x;
    }
  }

  /** Picking tasks out of a list with distinct IRIs keeps them distinct. */
  lemma {:induction false} FilterKeysDistinct<T(!new), K(!new)>(ts: seq<T>, p: T -> bool, key: T -> K)
    requires Distinct(Keys(ts, key))
    ensures Distinct(Keys(Filter(ts, p), key))
  {
    if ts != [] {
      var init := ts[..|ts| - 1];
      var x := ts[|ts| - 1];
      KeysPrefix(ts, key, |ts| - 1);
      assert Distinct(Keys(init, key));
      FilterKeysDistinct(init, p, key);
      if p(x) {
        var f := Filter(init, p);
        LastKeyFresh(ts, key);
        KeysOfMembers(init, key);
        KeysAppend(f, x, key);
        assert forall i :: 0 <= i < |f| ==> f[i] in init;
      }
    }
  }

  // ---------------------------------------------------------------- the graph

  /** `{t.iri: t for t in tasks}`: a later task with the same IRI replaces an
      earlier one. */
  function ByKey<T, K(==,!new)>(ts: seq<T>, key: T -> K): (m: map<K, T>)
    ensures m.Keys == KeySet(ts, key)
    ensures forall x :: x in m ==> key(m[x]) == x && m[x] in ts
  {
    if ts == [] then map[] else ByKey(ts[..|ts| - 1], key)[key(ts[|ts| - 1]) := ts[|ts| - 1]]
  }

  lemma {:induction false} ByKeyAt<T, K(!new)>(ts: seq<T>, key: T -> K, m: nat)
    requires Distinct(Keys(ts, key)) && m < |ts|
    ensures ByKey(ts, key)[key(ts[m])] == ts[m]
  {
    if m < |ts| - 1 {
      var init := ts[..|ts| - 1];
      KeysPrefix(ts, key, |ts| - 1);
      assert key(ts[|ts| - 1]) != key(ts[m]);
      ByKeyAt(init, key, m);
    }
  }

  /** How many of the dependencies ds lie in the list S and are not yet in done:
      the in-degree Kahn's algorithm keeps for a task once done is scheduled. */
  function Pending<K(==,!new)>(ds: seq<K>, S: set<K>, done: set<K>): (n: nat)
    ensures n <= |ds|
  {
    if ds == [] then 0
    else Pending(ds[..|ds| - 1], S, done) + (if ds[|ds| - 1] in S && ds[|ds| - 1] !in done then 1 else 0)
  }

  /** Every dependency that lies in the list S is already in done. */
  predicate Ready<K(==,!new)>(ds: seq<K>, S: set<K>, done: set<K>)
  {
    forall d :: d in ds && d in S ==> d in done
  }

  lemma {:induction false} PendingZeroIffReady<K(!new)>(ds: seq<K>, S: set<K>, done: set<K>)
    ensures Pending(ds, S, done) == 0 <==> Ready(ds, S, done)
  {
    if ds != [] {
      var init := ds[..|ds| - 1];
      PendingZeroIffReady(init, S, done);
      assert ds == init + [ds[|ds| - 1]];
    }
  }

  /** Scheduling x removes from the in-degree exactly its occurrences among ds. */
  lemma {:induction false} PendingStep<K(!new)>(ds: seq<K>, S: set<K>, done: set<K>, x: K)
    requires x in S && x !in done
    ensures Pending(ds, S, done) == Pending(ds, S, done + {x}) + multiset(ds)[x]
  {
    if ds != [] {
      PendingStep(ds[..|ds| - 1], S, done, x);
      assert ds == ds[..|ds| - 1] + [ds[|ds| - 1]];
    }
  }

  /** k once per occurrence of d in ds: what the dependencies ds of the task with
      IRI k add to `adj[d]`. */
  function Hits<K(==,!new)>(ds: seq<K>, d: K, k: K): seq<K>
  {
    if ds == [] then [] else Hits(ds[..|ds| - 1], d, k) + (if ds[|ds| - 1] == d then [k] else [])
  }

  lemma {:induction false} CountHits<K(!new)>(ds: seq<K>, d: K, k: K, x: K)
    ensures multiset(Hits(ds, d, k))[x] == if x == k then multiset(ds)[d] else 0
  {
    if ds != [] {
      CountHits(ds[..|ds| - 1], d, k, x);
      assert ds == ds[..|ds| - 1] + [ds[|ds| - 1]];
    }
  }

  /** `adj[d]` as `topo_sort` builds it: each task's IRI, once per occurrence of d
      among the task's dependencies, tasks in list order. */
  function Dependents<T, K(==,!new)>(ts: seq<T>, key: T -> K, deps: T -> seq<K>, d: K): seq<K>
  {
    if ts == [] then []
    else Dependents(ts[..|ts| - 1], key, deps, d) + Hits(deps(ts[|ts| - 1]), d, key(ts[|ts| - 1]))
  }

  /** x occurs in adj[d] as often as d occurs among x's dependencies, and nothing but
      IRIs of the list occurs there. */
  lemma {:induction false} DependentsCount<T, K(!new)>(ts: seq<T>, key: T -> K, deps: T -> seq<K>,
                                              d: K, x: K)
    requires Distinct(Keys(ts, key))
    ensures x in Keys(ts, key) ==> multiset(Dependents(ts, key, deps, d))[x] == multiset(deps(ByKey(ts, key)[x]))[d]
    ensures x !in Keys(ts, key) ==> x !in Dependents(ts, key, deps, d)
  {
    if ts != [] {
      var init := ts[..|ts| - 1];
      var last := ts[|ts| - 1];
      KeysPrefix(ts, key, |ts| - 1);
      DependentsCount(init, key, deps, d, x);
      CountHits(deps(last), d, key(last), x);
      if x == key(last) {
        assert x !in Keys(init, key);
        ByKeyAt(ts, key, |ts| - 1);
      } else if x in Keys(ts, key) {
        assert ByKey(ts, key)[x] == ByKey(init, key)[x];
      }
    }
  }

  /** The first phase of `topo_sort`: the in-degree of every task (dependencies
      outside the list not counted) and, for every IRI, the tasks depending on it. */
  method BuildGraph<T, K(==,!new)>(tasks: seq<T>, key: T -> K, deps: T -> seq<K>)
    returns (indeg: map<K, int>, adj: map<K, seq<K>>)
    requires Distinct(Keys(tasks, key))
    ensures indeg.Keys == KeySet(tasks, key) && adj.Keys == KeySet(tasks, key)
    ensures forall m :: 0 <= m < |tasks| ==> indeg[key(tasks[m])] == Pending(deps(tasks[m]), KeySet(tasks, key), {})
    ensures forall d :: d in adj ==> adj[d] == Dependents(tasks, key, deps, d)
  {
    var S := KeySet(tasks, key);
    indeg := map x | x in S :: 0;
    adj := map x | x in S :: [];
    var i := 0;
    assert tasks[..0] == [];
    while i < |tasks|
      invariant 0 <= i <= |tasks|
      invariant DegreesUpTo(indeg, tasks, key, deps, i)
      invariant EdgesUpTo(adj, tasks, key, deps, i)
    {
      var indeg', adj' := AddDependencies(indeg, adj, S, key(tasks[i]), deps(tasks[i]));
      DegreesStep(indeg, indeg', tasks, key, deps, i);
      EdgesUpToStep(adj, adj', tasks, key, deps, i);
      indeg, adj := indeg', adj';
      i := i + 1;
    }
    assert tasks[..i] == tasks;
  }

  /** The in-degrees once the first i tasks have been scanned. */
  predicate DegreesUpTo<T, K(==,!new)>(indeg: map<K, int>, tasks: seq<T>, key: T -> K,
                           deps: T -> seq<K>, i: nat)
  {
    && i <= |tasks|
    && indeg.Keys == KeySet(tasks, key)
    && (forall m :: 0 <= m < i ==> indeg[key(tasks[m])] == Pending(deps(tasks[m]), KeySet(tasks, key), {}))
    && (forall m :: i <= m < |tasks| ==> indeg[key(tasks[m])] == 0)
  }

  /** The dependents lists once the first i tasks have been scanned. */
  predicate EdgesUpTo<T, K(==,!new)>(adj: map<K, seq<K>>, tasks: seq<T>, key: T -> K,
                         deps: T -> seq<K>, i: nat)
  {
    && i <= |tasks|
    && adj.Keys == KeySet(tasks, key)
    && (forall d :: d in adj ==> adj[d] == Dependents(tasks[..i], key, deps, d))
  }

  lemma {:induction false} DegreesStep<T, K(!new)>(indeg: map<K, int>, indeg': map<K, int>, tasks: seq<T>,
                       key: T -> K, deps: T -> seq<K>, i: nat)
    requires Distinct(Keys(tasks, key)) && i < |tasks|
    requires DegreesUpTo(indeg, tasks, key, deps, i)
    requires DegreeSoFar(indeg', indeg, KeySet(tasks, key), key(tasks[i]), deps(tasks[i]))
    ensures DegreesUpTo(indeg', tasks, key, deps, i + 1)
  {
    forall m | 0 <= m < |tasks| && m != i
      ensures key(tasks[m]) != key(tasks[i])
    {
      assert Keys(tasks, key)[m] == key(tasks[m]) && Keys(tasks, key)[i] == key(tasks[i]);
    }
  }

  lemma {:induction false} EdgesUpToStep<T, K(!new)>(adj: map<K, seq<K>>, adj': map<K, seq<K>>, tasks: seq<T>,
                         key: T -> K, deps: T -> seq<K>, i: nat)
    requires i < |tasks|
    requires EdgesUpTo(adj, tasks, key, deps, i)
    requires EdgesSoFar(adj', adj, KeySet(tasks, key), key(tasks[i]), deps(tasks[i]))
    ensures EdgesUpTo(adj', tasks, key, deps, i + 1)
  {
    assert tasks[..i + 1][..i] == tasks[..i];
  }

  /** `indeg` after the first j dependencies ds of the task with IRI k are scanned. */
  predicate DegreeSoFar<K(==,!new)>(indeg: map<K, int>, indeg0: map<K, int>, S: set<K>, k: K,
                        ds: seq<K>)
  {
    && indeg0.Keys == S && k in S
    && indeg == indeg0[k := indeg0[k] + Pending(ds, S, {})]
  }

  /** `adj` after the dependencies ds of the task with IRI k are scanned. */
  predicate EdgesSoFar<K(==,!new)>(adj: map<K, seq<K>>, adj0: map<K, seq<K>>, S: set<K>,
                       k: K, ds: seq<K>)
  {
    && adj0.Keys == S
    && adj.Keys == S
    && forall d :: d in S ==> adj[d] == adj0[d] + Hits(ds, d, k)
  }

  lemma {:induction false} DegreeStep<K(!new)>(indeg: map<K, int>, indeg0: map<K, int>, S: set<K>, k: K,
                   ds: seq<K>, j: nat)
    requires j < |ds|
    requires DegreeSoFar(indeg, indeg0, S, k, ds[..j])
    ensures DegreeSoFar(if ds[j] in S then indeg[k := indeg[k] + 1] else indeg, indeg0, S, k, ds[..j + 1])
  {
    assert ds[..j + 1][..j] == ds[..j];
  }

  lemma {:induction false} EdgesStep<K(!new)>(adj: map<K, seq<K>>, adj0: map<K, seq<K>>, S: set<K>,
                  k: K, ds: seq<K>, j: nat)
    requires j < |ds|
    requires EdgesSoFar(adj, adj0, S, k, ds[..j])
    ensures EdgesSoFar(if ds[j] in S then adj[ds[j] := adj[ds[j]] + [k]] else adj, adj0, S, k, ds[..j + 1])
  {
    assert ds[..j + 1][..j] == ds[..j];
  }

  /** The inner loop of the first phase for one task with IRI k: each dependency in
      the list S raises k's in-degree and records k as its dependent. */
  method AddDependencies<K(==,!new)>(indeg0: map<K, int>, adj0: map<K, seq<K>>, S: set<K>,
                         k: K, ds: seq<K>)
    returns (indeg: map<K, int>, adj: map<K, seq<K>>)
    requires indeg0.Keys == S && adj0.Keys == S && k in S
    ensures DegreeSoFar(indeg, indeg0, S, k, ds)
    ensures EdgesSoFar(adj, adj0, S, k, ds)
  {
    indeg, adj := indeg0, adj0;
    var j := 0;
    assert ds[..0] == [];
    while j < |ds|
      invariant 0 <= j <= |ds|
      invariant DegreeSoFar(indeg, indeg0, S, k, ds[..j])
      invariant EdgesSoFar(adj, adj0, S, k, ds[..j])
    {
      var dep := ds[j];
      DegreeStep(indeg, indeg0, S, k, ds, j);
      EdgesStep(adj, adj0, S, k, ds, j);
      if dep in S {
        indeg := indeg[k := indeg[k] + 1];
        adj := adj[dep := adj[dep] + [k]];
      }
      j := j + 1;
    }
    assert ds[..j] == ds;
  }

  // ---------------------------------------------------------------- orders

  /** Every task of s comes after its dependencies that lie in the list S. */
  ghost predicate Topological<T, K(!new)>(s: seq<T>, key: T -> K, deps: T -> seq<K>, S: set<K>)
  {
    forall i :: 0 <= i < |s| ==> Ready(deps(s[i]), S, KeySet(s[..i], key))
  }

  /** A list is in order when its prefix is and its last task comes after its
      dependencies. */
  lemma {:induction false} TopologicalLast<T, K(!new)>(s: seq<T>, key: T -> K, deps: T -> seq<K>, S: set<K>)
    requires s != []
    ensures Topological(s, key, deps, S) <==>
      Topological(s[..|s| - 1], key, deps, S) && Ready(deps(s[|s| - 1]), S, KeySet(s[..|s| - 1], key))
  {
    var init := s[..|s| - 1];
    assert forall i :: 0 <= i < |init| ==> init[..i] == s[..i] && init[i] == s[i];
  }

  /** The in-list dependency graph has no cycle: some arrangement of the tasks puts
      every task after its dependencies. */
  ghost predicate Acyclic<T(!new), K(!new)>(tasks: seq<T>, key: T -> K, deps: T -> seq<K>)
  {
    exists order: seq<T> :: multiset(order) == multiset(tasks) && Topological(order, key, deps, KeySet(tasks, key))
  }

  /** The tasks whose IRI is not in done, in list order: what `topo_sort` appends
      when a cycle keeps some tasks from being scheduled. */
  function Leftover<T, K(==,!new)>(ts: seq<T>, key: T -> K, done: set<K>): (r: seq<T>)
    ensures |r| <= |ts|
  {
    if ts == [] then []
    else Leftover(ts[..|ts| - 1], key, done) + (if key(ts[|ts| - 1]) !in done then [ts[|ts| - 1]] else [])
  }

  lemma {:induction false} LeftoverMember<T, K(!new)>(ts: seq<T>, key: T -> K, done: set<K>, i: nat)
    requires i < |Leftover(ts, key, done)|
    ensures Leftover(ts, key, done)[i] in ts && key(Leftover(ts, key, done)[i]) !in done
  {
    if ts != [] {
      var init := ts[..|ts| - 1];
      if i < |Leftover(init, key, done)| {
        LeftoverMember(init, key, done, i);
      }
    }
  }

  lemma {:induction false} LeftoverNone<T, K(!new)>(ts: seq<T>, key: T -> K)
    ensures Leftover(ts, key, {}) == ts
  {
    if ts != [] {
      LeftoverNone(ts[..|ts| - 1], key);
      assert ts == ts[..|ts| - 1] + [ts[|ts| - 1]];
    }
  }

  lemma {:induction false} LeftoverAllDone<T, K(!new)>(ts: seq<T>, key: T -> K, done: set<K>)
    requires KeySet(ts, key) <= done
    ensures Leftover(ts, key, done) == []
  {
    if ts != [] {
      KeysPrefix(ts, key, |ts| - 1);
      assert Keys(ts, key)[|ts| - 1] == key(ts[|ts| - 1]);
      LeftoverAllDone(ts[..|ts| - 1], key, done);
    }
  }

  /** Scheduling x takes exactly the task with IRI x out of the leftovers. */
  lemma {:induction false} LeftoverStep<T, K(!new)>(ts: seq<T>, key: T -> K, done: set<K>, x: K)
    requires Distinct(Keys(ts, key)) && x in KeySet(ts, key) && x !in done
    ensures multiset(Leftover(ts, key, done)) == multiset(Leftover(ts, key, done + {x})) + multiset{ByKey(ts, key)[x]}
  {
    var init := ts[..|ts| - 1];
    var last := ts[|ts| - 1];
    KeysPrefix(ts, key, |ts| - 1);
    assert Keys(ts, key)[|ts| - 1] == key(last);
    if key(last) == x {
      ByKeyAt(ts, key, |ts| - 1);
      LeftoverUnaffected(init, key, done, x);
    } else {
      assert x in Keys(init, key);
      LeftoverStep(init, key, done, x);
      assert ByKey(ts, key)[x] == ByKey(init, key)[x];
    }
  }

  lemma {:induction false} LeftoverUnaffected<T, K(!new)>(ts: seq<T>, key: T -> K, done: set<K>, x: K)
    requires x !in Keys(ts, key)
    ensures Leftover(ts, key, done) == Leftover(ts, key, done + {x})
  {
    if ts != [] {
      KeysPrefix(ts, key, |ts| - 1);
      assert Keys(ts, key)[|ts| - 1] == key(ts[|ts| - 1]);
      LeftoverUnaffected(ts[..|ts| - 1], key, done, x);
    }
  }

  /** The IRIs of the tasks with no dependency in the list S, in list order. */
  function Roots<T, K(==,!new)>(ts: seq<T>, key: T -> K, deps: T -> seq<K>, S: set<K>): seq<K>
  {
    if ts == [] then []
    else Roots(ts[..|ts| - 1], key, deps, S) + (if Ready(deps(ts[|ts| - 1]), S, {}) then [key(ts[|ts| - 1])] else [])
  }

  /** `[iri for iri, d in indeg.items() if d == 0]`, the items taken in the order of keys. */
  function ZeroDegree<K(==,!new)>(keys: seq<K>, indeg: map<K, int>): (r: seq<K>)
    requires forall x :: x in keys ==> x in indeg
  {
    if keys == [] then []
    else ZeroDegree(keys[..|keys| - 1], indeg) + (if indeg[keys[|keys| - 1]] == 0 then [keys[|keys| - 1]] else [])
  }

  lemma {:induction false} ZeroDegreeCount<K(!new)>(keys: seq<K>, indeg: map<K, int>, x: K)
    requires forall y :: y in keys ==> y in indeg
    requires Distinct(keys)
    ensures multiset(ZeroDegree(keys, indeg))[x] == if x in keys && indeg[x] == 0 then 1 else 0
  {
    if keys != [] {
      var init := keys[..|keys| - 1];
      ZeroDegreeCount(init, indeg, x);
      assert keys == init + [keys[|keys| - 1]];
      assert x in keys <==> x in init || x == keys[|keys| - 1];
    }
  }

  /** Once the in-degrees are those of `BuildGraph`, the zero-degree IRIs are the
      roots. */
  lemma {:induction false} ZeroDegreeRoots<T, K(!new)>(tasks: seq<T>, key: T -> K, deps: T -> seq<K>,
                                              indeg: map<K, int>, n: nat)
    requires n <= |tasks|
    requires indeg.Keys == KeySet(tasks, key)
    requires forall m :: 0 <= m < |tasks| ==> indeg[key(tasks[m])] == Pending(deps(tasks[m]), KeySet(tasks, key), {})
    ensures forall x :: x in Keys(tasks[..n], key) ==> x in indeg
    ensures ZeroDegree(Keys(tasks[..n], key), indeg) == Roots(tasks[..n], key, deps, KeySet(tasks, key))
  {
    KeysPrefix(tasks, key, n);
    forall x | x in Keys(tasks[..n], key)
      ensures x in indeg
    {
      var i :| 0 <= i < n && Keys(tasks[..n], key)[i] == x;
      assert Keys(tasks, key)[i] == x;
    }
    if n > 0 {
      var ks := Keys(tasks[..n], key);
      ZeroDegreeRoots(tasks, key, deps, indeg, n - 1);
      assert tasks[..n][..n - 1] == tasks[..n - 1];
      KeysPrefix(tasks[..n], key, n - 1);
      assert ks[..n - 1] == Keys(tasks[..n - 1], key);
      assert ks[n - 1] == key(tasks[n - 1]);
      PendingZeroIffReady(deps(tasks[n - 1]), KeySet(tasks, key), {});
    }
  }

  /** A task of the list is the one `by_iri` finds under its IRI. */
  lemma {:induction false} ByKeyOf<T, K(!new)>(ts: seq<T>, key: T -> K, t: T)
    requires Distinct(Keys(ts, key)) && t in ts
    ensures key(t) in ByKey(ts, key) && ByKey(ts, key)[key(t)] == t
  {
    var m :| 0 <= m < |ts| && ts[m] == t;
    ByKeyAt(ts, key, m);
  }
}
