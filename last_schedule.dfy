// `build_schedule_cp` of last/app.py: the critical-path pass over topologically
// ordered tasks (earliest start = latest finish of the dependencies in the list),
// the project length, the move date after the buffer, and the plan sorted by start.
// Dates are day numbers: `start + timedelta(days=k)` is `start + k`.
module LastSchedule {
  import opened Lists
  import opened TaskGraph
  import opened LastApp
  import opened Kahn
  import opened TopoSort

  datatype Option<T> = None | Some(value: T)

  /** Earliest start, earliest finish and duration of each timed task, by IRI. */
  datatype Times = Times(es: map<string, int>, ef: map<string, int>, dur: map<string, int>)

  /** One row of the plan. */
  datatype Entry = Entry(task: Task, start: int, end: int, days: int, deps: seq<string>)

  /** What `build_schedule_cp` returns. */
  datatype Schedule = Schedule(plan: seq<Entry>, moveDate: int, projectDays: int, bufferDays: int)

  /** `[d for d in deps if d in by_iri]`: the dependencies that are tasks of the
      list, in order. */
  function Present(deps: seq<string>, S: set<string>): (r: seq<string>)
    ensures forall d :: d in r <==> d in deps && d in S
  {
    if deps == [] then []
    else Present(deps[..|deps| - 1], S) + (if deps[|deps| - 1] in S then [deps[|deps| - 1]] else [])
  }

  /** `max((ef[d] for d in deps), default=0)`; None stands for the `KeyError` raised
      by a dependency that has no finish yet. */
  function LatestFinish(deps: seq<string>, ef: map<string, int>): (r: Option<int>)
    ensures r.Some? <==> forall d :: d in deps ==> d in ef
    ensures r.Some? ==> forall d :: d in deps ==> ef[d] <= r.value
    ensures r.Some? && deps != [] ==> exists i :: 0 <= i < |deps| && ef[deps[i]] == r.value
    ensures deps == [] ==> r == Some(0)
  {
    if deps == [] then Some(0)
    else if deps[0] !in ef then None
    else match LatestFinish(deps[1..], ef)
      case None => None
      case Some(m) =>
        assert forall d :: d in deps ==> d == deps[0] || d in deps[1..];
        if deps[1..] == [] then Some(ef[deps[0]])
        else
          assert forall i :: 0 <= i < |deps[1..]| ==> deps[1..][i] == deps[i + 1];
          Some(Max(ef[deps[0]], m))
  }

  /** Finishes that agree on the dependencies give the same latest finish. */
  lemma {:induction false} LatestFinishAgree(deps: seq<string>, ef: map<string, int>, ef': map<string, int>)
    requires forall d :: d in deps ==> d in ef && d in ef' && ef[d] == ef'[d]
    ensures LatestFinish(deps, ef) == LatestFinish(deps, ef')
  {
    if deps != [] {
      LatestFinishAgree(deps[1..], ef, ef');
    }
  }

  /** The three dicts time the same tasks; every timed task finishes its duration
      after it starts, lasts at least a day and starts no earlier than day 0. */
  ghost predicate Consistent(tm: Times)
  {
    forall x :: (x in tm.es <==> x in tm.ef) && (x in tm.es <==> x in tm.dur) &&
      (x in tm.es ==> tm.ef[x] == tm.es[x] + tm.dur[x] && tm.dur[x] >= 1 && tm.es[x] >= 0)
  }

  /** One iteration of the first loop: task t starts at the latest finish of its
      dependencies in the list S, or the iteration raises `KeyError` (None). */
  function Step(tm: Times, t: Task, S: set<string>, nItems: int, fragileCount: int, moveType: string)
    : Option<Times>
  {
    var l := LatestFinish(Present(t.dependsOn, S), tm.ef);
    if l.None? then None
    else
      var d := TaskDurationDays(t, nItems, fragileCount, moveType);
      Some(Times(tm.es[t.iri := l.value], tm.ef[t.iri := l.value + d], tm.dur[t.iri := d]))
  }

  /** A step gets through exactly when every dependency of t in the list is timed;
      it keeps the dicts consistent and adds t to them. */
  lemma {:induction false} StepFacts(tm: Times, t: Task, S: set<string>, nItems: int, fragileCount: int,
                                     moveType: string)
    ensures var r := Step(tm, t, S, nItems, fragileCount, moveType);
      && (r.Some? <==> forall d :: d in t.dependsOn && d in S ==> d in tm.ef)
      && (Consistent(tm) && r.Some? ==> Consistent(r.value))
      && (r.Some? ==> forall x :: (x in r.value.es <==> x in tm.es || x == t.iri))
  {
    var l := LatestFinish(Present(t.dependsOn, S), tm.ef);
    if l.Some? {
      var d := TaskDurationDays(t, nItems, fragileCount, moveType);
      assert d >= 1;
    }
  }

  /** The first loop of `build_schedule_cp` over the tasks ts, S being the IRIs of
      the whole list: None when some task meets a dependency of the list that is
      not yet timed. */
  function Pass(ts: seq<Task>, S: set<string>, nItems: int, fragileCount: int, moveType: string)
    : Option<Times>
  {
    if ts == [] then Some(Times(map[], map[], map[]))
    else
      var p := Pass(ts[..|ts| - 1], S, nItems, fragileCount, moveType);
      if p.None? then None else Step(p.value, ts[|ts| - 1], S, nItems, fragileCount, moveType)
  }

  /** The pass leaves consistent dicts holding exactly the tasks of ts. */
  lemma {:induction false} PassFacts(ts: seq<Task>, S: set<string>, nItems: int, fragileCount: int, moveType: string)
    ensures var r := Pass(ts, S, nItems, fragileCount, moveType);
      r.Some? ==> Consistent(r.value) && forall x :: x in r.value.es <==> x in KeySet(ts, Iri)
  {
    if ts != [] {
      var init := ts[..|ts| - 1];
      PassFacts(init, S, nItems, fragileCount, moveType);
      KeySetLast(ts, Iri);
      var p := Pass(init, S, nItems, fragileCount, moveType);
      if p.Some? {
        StepFacts(p.value, ts[|ts| - 1], S, nItems, fragileCount, moveType);
      }
    }
  }

  /** The pass over one more task is one more step. */
  lemma {:induction false} PassPrefix(ts: seq<Task>, S: set<string>, nItems: int, fragileCount: int, moveType: string, n: nat)
    requires n < |ts|
    ensures var p := Pass(ts[..n], S, nItems, fragileCount, moveType);
      Pass(ts[..n + 1], S, nItems, fragileCount, moveType)
      == if p.None? then None else Step(p.value, ts[n], S, nItems, fragileCount, moveType)
  {
    assert ts[..n + 1][..n] == ts[..n];
  }

  /** Once a prefix meets the `KeyError`, so does every longer prefix. */
  lemma {:induction false} PassNonePersists(ts: seq<Task>, S: set<string>, nItems: int, fragileCount: int,
                                            moveType: string, n: nat)
    requires n <= |ts| && Pass(ts[..n], S, nItems, fragileCount, moveType).None?
    ensures Pass(ts, S, nItems, fragileCount, moveType).None?
    decreases |ts| - n
  {
    if n < |ts| {
      assert ts[..n + 1][..n] == ts[..n];
      PassNonePersists(ts, S, nItems, fragileCount, moveType, n + 1);
    } else {
      assert ts[..n] == ts;
    }
  }

  /** The pass gets through exactly when every task comes after its dependencies of
      the list: on the output of `topo_sort` for an acyclic graph, and never when a
      cycle left tasks at the end. */
  lemma {:induction false} PassSomeIff(ts: seq<Task>, S: set<string>, nItems: int, fragileCount: int,
                                       moveType: string)
    ensures Pass(ts, S, nItems, fragileCount, moveType).Some? <==> Topological(ts, Iri, DependsOn, S)
  {
    if ts != [] {
      var init := ts[..|ts| - 1];
      PassSomeIff(init, S, nItems, fragileCount, moveType);
      TopologicalLast(ts, Iri, DependsOn, S);
      var p := Pass(init, S, nItems, fragileCount, moveType);
      if p.Some? {
        PassFacts(init, S, nItems, fragileCount, moveType);
        StepReady(p.value, ts[|ts| - 1], S, nItems, fragileCount, moveType, KeySet(init, Iri));
      }
    }
  }

  /** A step on dicts timing exactly the tasks done gets through exactly when the
      task is ready. */
  lemma {:induction false} StepReady(tm: Times, t: Task, S: set<string>, nItems: int, fragileCount: int,
                                     moveType: string, done: set<string>)
    requires Consistent(tm) && forall x :: x in tm.es <==> x in done
    ensures Step(tm, t, S, nItems, fragileCount, moveType).Some? <==> Ready(t.dependsOn, S, done)
  {
    StepFacts(tm, t, S, nItems, fragileCount, moveType);
  }

  /** The pass over a non-empty list that gets through is a step after the pass
      over its prefix. */
  lemma {:induction false} PassLast(ts: seq<Task>, S: set<string>, nItems: int, fragileCount: int,
                                    moveType: string, tm: Times)
    requires ts != [] && Pass(ts, S, nItems, fragileCount, moveType) == Some(tm)
    ensures Pass(ts[..|ts| - 1], S, nItems, fragileCount, moveType).Some?
    ensures Step(Pass(ts[..|ts| - 1], S, nItems, fragileCount, moveType).value, ts[|ts| - 1], S, nItems,
                 fragileCount, moveType) == Some(tm)
  {
  }

  /** The critical-path recurrence for task u: it is timed, starts at the latest
      finish of its dependencies in the list (day 0 without any) and lasts
      `task_duration_days`. */
  ghost predicate Recurrence(tm: Times, u: Task, S: set<string>, nItems: int, fragileCount: int, moveType: string)
  {
    && u.iri in tm.es && u.iri in tm.dur
    && LatestFinish(Present(u.dependsOn, S), tm.ef) == Some(tm.es[u.iri])
    && tm.dur[u.iri] == TaskDurationDays(u, nItems, fragileCount, moveType)
  }

  /** A step timing a new task t establishes the recurrence for t and keeps it for
      the tasks timed before. */
  lemma {:induction false} StepRecurrence(tm0: Times, t: Task, tm: Times, u: Task, S: set<string>, nItems: int,
                                          fragileCount: int, moveType: string)
    requires Step(tm0, t, S, nItems, fragileCount, moveType) == Some(tm)
    requires Consistent(tm0) && t.iri !in tm0.es
    requires u == t || (u.iri in tm0.es && Recurrence(tm0, u, S, nItems, fragileCount, moveType))
    ensures Recurrence(tm, u, S, nItems, fragileCount, moveType)
  {
    LatestFinishAgree(Present(u.dependsOn, S), tm0.ef, tm.ef);
  }

  /** With distinct IRIs the times the pass leaves satisfy the critical-path
      recurrence for every task. */
  lemma {:induction false} PassRecurrence(ts: seq<Task>, S: set<string>, nItems: int, fragileCount: int,
                                          moveType: string, tm: Times, i: nat)
    requires Distinct(Keys(ts, Iri)) && i < |ts|
    requires Pass(ts, S, nItems, fragileCount, moveType) == Some(tm)
    ensures Recurrence(tm, ts[i], S, nItems, fragileCount, moveType)
  {
    var init := ts[..|ts| - 1];
    PassLast(ts, S, nItems, fragileCount, moveType, tm);
    var tm0 := Pass(init, S, nItems, fragileCount, moveType).value;
    PassFacts(init, S, nItems, fragileCount, moveType);
    LastKeyFresh(ts, Iri);
    if i < |ts| - 1 {
      KeysPrefix(ts, Iri, |ts| - 1);
      assert init[i] == ts[i];
      PassRecurrence(init, S, nItems, fragileCount, moveType, tm0, i);
    }
    StepRecurrence(tm0, ts[|ts| - 1], tm, ts[i], S, nItems, fragileCount, moveType);
  }

  /** Hence no task starts before a dependency of the list finishes, and a task
      with such dependencies starts exactly when one of them finishes. */
  lemma {:induction false} Precedence(ts: seq<Task>, S: set<string>, nItems: int, fragileCount: int, moveType: string,
                   tm: Times, i: nat)
    requires Distinct(Keys(ts, Iri)) && i < |ts|
    requires Pass(ts, S, nItems, fragileCount, moveType) == Some(tm)
    ensures ts[i].iri in tm.es
    ensures forall d :: d in ts[i].dependsOn && d in S ==> d in tm.ef && tm.ef[d] <= tm.es[ts[i].iri]
    ensures (forall d :: d in ts[i].dependsOn ==> d !in S) ==> tm.es[ts[i].iri] == 0
    ensures (exists d :: d in ts[i].dependsOn && d in S) ==>
              exists d :: d in ts[i].dependsOn && d in S && d in tm.ef && tm.ef[d] == tm.es[ts[i].iri]
  {
    PassRecurrence(ts, S, nItems, fragileCount, moveType, tm, i);
    var fs := Present(ts[i].dependsOn, S);
    assert forall d :: d in fs <==> d in ts[i].dependsOn && d in S;
    if fs != [] {
      var k :| 0 <= k < |fs| && tm.ef[fs[k]] == tm.es[ts[i].iri];
      assert fs[k] in fs;
    } else {
      assert forall d :: d in ts[i].dependsOn ==> d !in S;
    }
  }

  // ---------------------------------------------------------------- the plan

  /** `es.get(t.iri, 0)`. */
  function StartKey(es: map<string, int>): Task -> int
  {
    (t: Task) => if t.iri in es then es[t.iri] else 0
  }

  predicate SortedBy<T>(s: seq<T>, key: T -> int)
  {
    forall i, j :: 0 <= i < j < |s| ==> key(s[i]) <= key(s[j])
  }

  /** Put x after every element of r whose key is not larger. */
  function InsertBy<T>(r: seq<T>, x: T, key: T -> int): (r': seq<T>)
    ensures multiset(r') == multiset(r) + multiset{x}
  {
    if r == [] || key(r[|r| - 1]) <= key(x) then r + [x]
    else
      var init := r[..|r| - 1];
      assert r == init + [r[|r| - 1]];
      InsertBy(init, x, key) + [r[|r| - 1]]
  }

  lemma {:induction false} InsertBySorted<T>(r: seq<T>, x: T, key: T -> int)
    requires SortedBy(r, key)
    ensures SortedBy(InsertBy(r, x, key), key)
  {
    if !(r == [] || key(r[|r| - 1]) <= key(x)) {
      var init := r[..|r| - 1];
      var last := r[|r| - 1];
      InsertBySorted(init, x, key);
      var r' := InsertBy(init, x, key);
      forall y | y in r'
        ensures key(y) <= key(last)
      {
        assert y in multiset(r');
        if y != x {
          assert y in init;
        }
      }
      assert forall i :: 0 <= i < |r'| ==> r'[i] in r';
    }
  }

  /** `sorted(ts, key=key)`: a stable sort. */
  function SortBy<T>(ts: seq<T>, key: T -> int): (r: seq<T>)
    ensures multiset(r) == multiset(ts)
    ensures SortedBy(r, key)
  {
    if ts == [] then []
    else
      assert ts == ts[..|ts| - 1] + [ts[|ts| - 1]];
      InsertBySorted(SortBy(ts[..|ts| - 1], key), ts[|ts| - 1], key);
      InsertBy(SortBy(ts[..|ts| - 1], key), ts[|ts| - 1], key)
  }

  function KeyIs<T>(key: T -> int, k: int): T -> bool
  {
    t => key(t) == k
  }

  lemma {:induction false} InsertByStable<T(!new)>(r: seq<T>, x: T, key: T -> int, k: int)
    ensures Filter(InsertBy(r, x, key), KeyIs(key, k))
         == Filter(r, KeyIs(key, k)) + (if key(x) == k then [x] else [])
  {
    var p := KeyIs(key, k);
    if r == [] || key(r[|r| - 1]) <= key(x) {
      FilterSnoc(r, x, p);
    } else {
      var init := r[..|r| - 1];
      var last := r[|r| - 1];
      InsertByStable(init, x, key, k);
      assert InsertBy(r, x, key) == InsertBy(init, x, key) + [last];
      assert init + [last] == r;
      FilteredSwap(InsertBy(init, x, key), init, x, last, p);
    }
  }

  /** If a keeps what b keeps plus possibly x, the same holds after appending y to
      both, as long as x and y are not both kept. */
  lemma {:induction false} FilteredSwap<T(!new)>(a: seq<T>, b: seq<T>, x: T, y: T, p: T -> bool)
    requires Filter(a, p) == Filter(b, p) + (if p(x) then [x] else [])
    requires !(p(x) && p(y))
    ensures Filter(a + [y], p) == Filter(b + [y], p) + (if p(x) then [x] else [])
  {
    FilterSnoc(a, y, p);
    FilterSnoc(b, y, p);
    StableSwap(Filter(b, p), x, y, p(x), p(y));
  }

  /** At most one of x and y is kept, so the order of the two does not matter. */
  lemma {:induction false} StableSwap<T>(s: seq<T>, x: T, y: T, px: bool, py: bool)
    requires !(px && py)
    ensures s + (if px then [x] else []) + (if py then [y] else [])
         == s + (if py then [y] else []) + (if px then [x] else [])
  {
  }

  /** The sort is stable: the tasks of each key keep their relative order. */
  lemma {:induction false} SortByStable<T(!new)>(ts: seq<T>, key: T -> int, k: int)
    ensures Filter(SortBy(ts, key), KeyIs(key, k)) == Filter(ts, KeyIs(key, k))
  {
    if ts != [] {
      SortByStable(ts[..|ts| - 1], key, k);
      InsertByStable(SortBy(ts[..|ts| - 1], key), ts[|ts| - 1], key, k);
    }
  }

  /** `[by_iri[d].label for d in t.depends_on if d in by_iri]`. */
  function DepTitles(deps: seq<string>, byIri: map<string, Task>): seq<string>
  {
    var fs := Present(deps, byIri.Keys);
    assert forall d :: d in fs ==> d in byIri;
    seq(|fs|, i requires 0 <= i < |fs| => byIri[fs[i]].title)
  }

  /** The plan row of a timed task. */
  function EntryOf(t: Task, start: int, tm: Times, byIri: map<string, Task>): Entry
    requires t.iri in tm.es && Consistent(tm)
  {
    Entry(t, start + tm.es[t.iri], start + tm.ef[t.iri], tm.dur[t.iri], DepTitles(t.dependsOn, byIri))
  }

  /** The rows of the plan, in the order of the tasks given. */
  function Plan(order: seq<Task>, start: int, tm: Times, byIri: map<string, Task>): (plan: seq<Entry>)
    requires Consistent(tm) && forall t :: t in order ==> t.iri in tm.es
    ensures |plan| == |order|
    ensures forall j :: 0 <= j < |order| ==> plan[j] == EntryOf(order[j], start, tm, byIri)
  {
    seq(|order|, j requires 0 <= j < |order| => EntryOf(order[j], start, tm, byIri))
  }

  /** What `build_schedule_cp` computes, None standing for its `KeyError`. */
  function ScheduleOf(ts: seq<Task>, start: int, nItems: int, fragileCount: int, moveType: string)
    : Option<Schedule>
  {
    var p := Pass(ts, KeySet(ts, Iri), nItems, fragileCount, moveType);
    if p.None? then None
    else
      var tm := p.value;
      PassFacts(ts, KeySet(ts, Iri), nItems, fragileCount, moveType);
      var projectDays := LatestFinish(Keys(ts, Iri), tm.ef).value;
      var buffer := BufferDays(nItems, fragileCount, moveType);
      var order := SortBy(ts, StartKey(tm.es));
      KeysOfMembers(ts, Iri);
      assert forall t :: t in order ==> t in multiset(ts);
      Some(Schedule(Plan(order, start, tm, ByKey(ts, Iri)), start + projectDays + buffer, projectDays, buffer))
  }

  /** `build_schedule_cp`. */
  method BuildScheduleCP(orderedTasks: seq<Task>, start: int, nItems: int, fragileCount: int, moveType: string)
    returns (r: Option<Schedule>)
    ensures r == ScheduleOf(orderedTasks, start, nItems, fragileCount, moveType)
    ensures r.Some? <==> Topological(orderedTasks, Iri, DependsOn, KeySet(orderedTasks, Iri))
  {
    PassSomeIff(orderedTasks, KeySet(orderedTasks, Iri), nItems, fragileCount, moveType);
    var byIri := ByKey(orderedTasks, Iri);
    var times := TimeTasks(orderedTasks, byIri.Keys, nItems, fragileCount, moveType);
    if times.None? {
      return None;
    }
    ScheduleOfSome(orderedTasks, start, nItems, fragileCount, moveType, times.value);
    var es, ef, dur := times.value.es, times.value.ef, times.value.dur;
    var projectDays := LatestFinish(Keys(orderedTasks, Iri), ef).value;
    var bufferDays := BufferDays(nItems, fragileCount, moveType);
    var moveDate := start + projectDays + bufferDays;
    var order := SortBy(orderedTasks, StartKey(es));
    var plan := PlanRows(order, start, Times(es, ef, dur), byIri);
    r := Some(Schedule(plan, moveDate, projectDays, bufferDays));
  }

  /** ScheduleOf once the pass has got through. */
  lemma {:induction false} ScheduleOfSome(ts: seq<Task>, start: int, nItems: int, fragileCount: int,
                                          moveType: string, tm: Times)
    requires Pass(ts, KeySet(ts, Iri), nItems, fragileCount, moveType) == Some(tm)
    ensures Consistent(tm) && forall t :: t in SortBy(ts, StartKey(tm.es)) ==> t.iri in tm.es
    ensures LatestFinish(Keys(ts, Iri), tm.ef).Some?
    ensures ScheduleOf(ts, start, nItems, fragileCount, moveType)
         == Some(Schedule(Plan(SortBy(ts, StartKey(tm.es)), start, tm, ByKey(ts, Iri)),
                          start + LatestFinish(Keys(ts, Iri), tm.ef).value + BufferDays(nItems, fragileCount, moveType),
                          LatestFinish(Keys(ts, Iri), tm.ef).value, BufferDays(nItems, fragileCount, moveType)))
  {
    PassFacts(ts, KeySet(ts, Iri), nItems, fragileCount, moveType);
    KeysOfMembers(ts, Iri);
    assert forall t :: t in SortBy(ts, StartKey(tm.es)) ==> t in multiset(ts);
  }

  /** The schedule step of the planning route: `topo_sort` on the selected tasks, then
      `build_schedule_cp`. It raises `KeyError` exactly when the dependencies among the
      selected tasks form a cycle, since `topo_sort` then appends the tasks on the
      cycle after the others. */
  method PlanSchedule(picked: seq<Task>, start: int, nItems: int, fragileCount: int, moveType: string)
    returns (r: Option<Schedule>)
    requires Distinct(Keys(picked, Iri))
    ensures r.Some? <==> Acyclic(picked, Iri, DependsOn)
  {
    var ordered;
    ghost var scheduled;
    ordered, scheduled := TopoSortSorted(picked, Iri, DependsOn);
    SameKeys(picked, ordered, Iri);
    SameKeys(ordered, picked, Iri);
    r := BuildScheduleCP(ordered, start, nItems, fragileCount, moveType);
  }

  /** The first loop of `build_schedule_cp`, filling `es`, `ef` and `dur`. */
  method TimeTasks(orderedTasks: seq<Task>, S: set<string>, nItems: int, fragileCount: int, moveType: string)
    returns (r: Option<Times>)
    ensures r == Pass(orderedTasks, S, nItems, fragileCount, moveType)
  {
    var es: map<string, int> := map[];
    var ef: map<string, int> := map[];
    var dur: map<string, int> := map[];
    var i := 0;
    while i < |orderedTasks|
      invariant i <= |orderedTasks|
      invariant Pass(orderedTasks[..i], S, nItems, fragileCount, moveType) == Some(Times(es, ef, dur))
    {
      var next := Step(Times(es, ef, dur), orderedTasks[i], S, nItems, fragileCount, moveType);
      PassPrefix(orderedTasks, S, nItems, fragileCount, moveType, i);
      if next.None? {
        PassNonePersists(orderedTasks, S, nItems, fragileCount, moveType, i + 1);
        return None;
      }
      es, ef, dur := next.value.es, next.value.ef, next.value.dur;
      i := i + 1;
    }
    assert orderedTasks[..i] == orderedTasks;
    r := Some(Times(es, ef, dur));
  }

  /** The last loop of `build_schedule_cp`: one row per task, in the given order. */
  method PlanRows(order: seq<Task>, start: int, tm: Times, byIri: map<string, Task>) returns (plan: seq<Entry>)
    requires Consistent(tm) && forall t :: t in order ==> t.iri in tm.es
    ensures plan == Plan(order, start, tm, byIri)
  {
    plan := [];
    var k := 0;
    while k < |order|
      invariant k <= |order|
      invariant |plan| == k
      invariant forall j :: 0 <= j < k ==> plan[j] == EntryOf(order[j], start, tm, byIri)
    {
      var t := order[k];
      var s := start + tm.es[t.iri];
      var e := start + tm.ef[t.iri];
      plan := plan + [Entry(t, s, e, tm.dur[t.iri], DepTitles(t.dependsOn, byIri))];
      k := k + 1;
    }
  }

  /** The project lasts until the last task finishes (0 days without tasks), and the
      move date comes the buffer after that, so after every task of the plan. */
  lemma {:induction false} ScheduleBounds(ts: seq<Task>, start: int, nItems: int, fragileCount: int, moveType: string)
    requires ScheduleOf(ts, start, nItems, fragileCount, moveType).Some?
    ensures var sc := ScheduleOf(ts, start, nItems, fragileCount, moveType).value;
      && (ts == [] <==> sc.projectDays == 0)
      && sc.moveDate == start + sc.projectDays + sc.bufferDays
      && (forall e :: e in sc.plan ==> start <= e.start < e.end <= start + sc.projectDays < sc.moveDate)
      && (ts != [] ==> exists e :: e in sc.plan && e.end == start + sc.projectDays)
  {
    var tm := Pass(ts, KeySet(ts, Iri), nItems, fragileCount, moveType).value;
    ScheduleOfSome(ts, start, nItems, fragileCount, moveType, tm);
    ProjectDays(ts, nItems, fragileCount, moveType, tm);
    var pd := LatestFinish(Keys(ts, Iri), tm.ef).value;
    var order := SortBy(ts, StartKey(tm.es));
    var plan := Plan(order, start, tm, ByKey(ts, Iri));
    assert forall t :: t in order ==> t in multiset(ts);
    PlanWithin(order, start, tm, ByKey(ts, Iri), pd);
    if ts != [] {
      var t :| t in ts && tm.ef[t.iri] == pd;
      assert t in multiset(order);
      var j :| 0 <= j < |order| && order[j] == t;
      assert plan[j] in plan;
    }
    BufferMonotone(nItems, nItems, fragileCount, fragileCount, moveType);
  }

  /** `max(ef.values(), default=0)`: the latest finish of all tasks, 0 without tasks. */
  lemma {:induction false} ProjectDays(ts: seq<Task>, nItems: int, fragileCount: int, moveType: string, tm: Times)
    requires Pass(ts, KeySet(ts, Iri), nItems, fragileCount, moveType) == Some(tm)
    ensures LatestFinish(Keys(ts, Iri), tm.ef).Some?
    ensures forall t :: t in ts ==> t.iri in tm.es && tm.ef[t.iri] <= LatestFinish(Keys(ts, Iri), tm.ef).value
    ensures ts == [] <==> LatestFinish(Keys(ts, Iri), tm.ef).value == 0
    ensures ts != [] ==> exists t :: t in ts && tm.ef[t.iri] == LatestFinish(Keys(ts, Iri), tm.ef).value
  {
    var ks := Keys(ts, Iri);
    PassFacts(ts, KeySet(ts, Iri), nItems, fragileCount, moveType);
    KeysOfMembers(ts, Iri);
    if ts != [] {
      var m :| 0 <= m < |ks| && tm.ef[ks[m]] == LatestFinish(ks, tm.ef).value;
      assert ts[m] in ts;
    }
  }

  /** Rows of tasks finishing by day pd lie between the start and day pd. */
  lemma {:induction false} PlanWithin(order: seq<Task>, start: int, tm: Times, byIri: map<string, Task>, pd: int)
    requires Consistent(tm) && forall t :: t in order ==> t.iri in tm.es && tm.ef[t.iri] <= pd
    ensures forall e :: e in Plan(order, start, tm, byIri) ==> start <= e.start < e.end <= start + pd
  {
    var plan := Plan(order, start, tm, byIri);
    forall e | e in plan
      ensures start <= e.start < e.end <= start + pd
    {
      var j :| 0 <= j < |plan| && plan[j] == e;
      assert order[j] in order;
    }
  }

  /** Rows of tasks sorted by start are sorted by start date. */
  lemma {:induction false} PlanSorted(order: seq<Task>, start: int, tm: Times, byIri: map<string, Task>)
    requires Consistent(tm) && forall t :: t in order ==> t.iri in tm.es
    requires SortedBy(order, StartKey(tm.es))
    ensures forall i, j :: 0 <= i < j < |order| ==>
              Plan(order, start, tm, byIri)[i].start <= Plan(order, start, tm, byIri)[j].start
  {
    var plan := Plan(order, start, tm, byIri);
    forall i, j | 0 <= i < j < |order|
      ensures plan[i].start <= plan[j].start
    {
      assert StartKey(tm.es)(order[i]) <= StartKey(tm.es)(order[j]);
    }
  }

  /** The plan lists every task once, in order of start, tasks starting on the same
      day in the order they were given. */
  lemma {:induction false} PlanOrder(ts: seq<Task>, start: int, nItems: int, fragileCount: int, moveType: string)
    requires ScheduleOf(ts, start, nItems, fragileCount, moveType).Some?
    ensures var sc := ScheduleOf(ts, start, nItems, fragileCount, moveType).value;
      var tm := Pass(ts, KeySet(ts, Iri), nItems, fragileCount, moveType).value;
      var order := SortBy(ts, StartKey(tm.es));
      && |sc.plan| == |ts|
      && multiset(order) == multiset(ts)
      && (forall j :: 0 <= j < |sc.plan| ==> sc.plan[j].task == order[j])
      && (forall i, j :: 0 <= i < j < |sc.plan| ==> sc.plan[i].start <= sc.plan[j].start)
      && (forall k :: Filter(order, KeyIs(StartKey(tm.es), k)) == Filter(ts, KeyIs(StartKey(tm.es), k)))
  {
    var tm := Pass(ts, KeySet(ts, Iri), nItems, fragileCount, moveType).value;
    ScheduleOfSome(ts, start, nItems, fragileCount, moveType, tm);
    var order := SortBy(ts, StartKey(tm.es));
    var plan := Plan(order, start, tm, ByKey(ts, Iri));
    assert |multiset(order)| == |multiset(ts)|;
    PlanSorted(order, start, tm, ByKey(ts, Iri));
    forall k
      ensures Filter(order, KeyIs(StartKey(tm.es), k)) == Filter(ts, KeyIs(StartKey(tm.es), k))
    {
      SortByStable(ts, StartKey(tm.es), k);
    }
  }
}
