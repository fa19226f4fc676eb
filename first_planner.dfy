// The first planner, app.py: the services a move needs, their cost, the tasks of the
// move, and a schedule that runs the tasks back to back in dependency order before
// the recommended move date. Dates are day numbers: `d + timedelta(days=k)` is `d + k`.
module FirstPlanner {
  import opened Lists
  import opened Dicts
  import opened Money
  import opened MoveTypes
  import opened Text
  import opened Quantizer
  import opened TaskGraph
  import opened Kahn
  import opened TopoSort

  datatype Service = Service(iri: string, name: string, basePrice: real, perItemPrice: real, intlCoef: real)

  datatype Task = Task(iri: string, title: string, description: string, days: int,
                       applicableType: string, condition: string, dependsOn: seq<string>)

  function ServiceIri(s: Service): string { s.iri }

  function Iri(t: Task): string { t.iri }

  function DependsOn(t: Task): seq<string> { t.dependsOn }

  // ---------------------------------------------------------------- services

  /** The lower-cased name starts like "перевозка" (transport) or "упаковка" (packing). */
  predicate Transport(s: Service)
  {
    StartsWith(Lower(s.name), "перевоз") || StartsWith(Lower(s.name), "упаков")
  }

  /** On an international move, the lower-cased name mentions "документ" (documents). */
  predicate Documents(s: Service, moveType: string)
  {
    moveType == INTERNATIONAL && Contains(Lower(s.name), "документ")
  }

  predicate Wanted(s: Service, moveType: string)
  {
    Transport(s) || Documents(s, moveType)
  }

  function WantedRule(moveType: string): Service -> bool
  {
    s => Wanted(s, moveType)
  }

  /** `result` after the first loop of `select_services`: each service once for each
      of the two rules it meets, in catalogue order. */
  function Candidates(services: seq<Service>, moveType: string): seq<Service>
  {
    if services == [] then []
    else
      var s := services[|services| - 1];
      Candidates(services[..|services| - 1], moveType)
        + (if Transport(s) then [s] else []) + (if Documents(s, moveType) then [s] else [])
  }

  /** `uniq` after the second loop: the candidates keyed by IRI, a later candidate
      with an IRI already present replacing the value in its place. */
  function Uniq(result: seq<Service>): (d: Dict<Service>)
    ensures d.Valid()
  {
    if result == [] then Empty()
    else
      var s := result[|result| - 1];
      Put(Uniq(result[..|result| - 1]), s.iri, s)
  }

  /** The candidates are exactly the wanted services. */
  lemma {:induction false} CandidatesMembers(services: seq<Service>, moveType: string)
    ensures forall s :: s in Candidates(services, moveType) <==> s in services && Wanted(s, moveType)
  {
    if services != [] {
      var init := services[..|services| - 1];
      CandidatesMembers(init, moveType);
      assert services == init + [services[|services| - 1]];
    }
  }

  /** Each key of `uniq` holds a candidate with that IRI, and every candidate's IRI
      is a key. */
  lemma {:induction false} UniqMembers(result: seq<Service>)
    ensures forall k :: k in Uniq(result).entries ==> Uniq(result).entries[k].iri == k && Uniq(result).entries[k] in result
    ensures forall s :: s in result ==> s.iri in Uniq(result).entries
  {
    if result != [] {
      var init := result[..|result| - 1];
      UniqMembers(init);
      assert result == init + [result[|result| - 1]];
    }
  }

  /** `select_services`: the transport, packing and (international) document services,
      each IRI once. */
  method SelectServices(services: seq<Service>, moveType: string) returns (picked: seq<Service>)
    ensures picked == Values(Uniq(Candidates(services, moveType)))
    ensures Distinct(Keys(picked, ServiceIri))
    ensures forall s :: s in picked ==> s in services && Wanted(s, moveType)
    ensures forall s :: s in services && Wanted(s, moveType) ==> s.iri in KeySet(picked, ServiceIri)
  {
    var result: seq<Service> := [];
    var i := 0;
    while i < |services|
      invariant i <= |services|
      invariant result == Candidates(services[..i], moveType)
    {
      var s := services[i];
      assert services[..i + 1][..i] == services[..i];
      var name := Lower(s.name);
      if StartsWith(name, "перевоз") || StartsWith(name, "упаков") {
        result := result + [s];
      }
      if moveType == INTERNATIONAL && Contains(name, "документ") {
        result := result + [s];
      }
      i := i + 1;
    }
    assert services[..i] == services;
    var uniq := Empty();
    var j := 0;
    while j < |result|
      invariant j <= |result|
      invariant uniq == Uniq(result[..j])
    {
      assert result[..j + 1][..j] == result[..j];
      uniq := Put(uniq, result[j].iri, result[j]);
      j := j + 1;
    }
    assert result[..j] == result;
    picked := Values(uniq);
    UniqValues(result);
    CandidatesMembers(services, moveType);
  }

  /** The values of `uniq` carry distinct IRIs, come from the list, and cover the IRI
      of every service in it. */
  lemma {:induction false} UniqValues(result: seq<Service>)
    ensures Distinct(Keys(Values(Uniq(result)), ServiceIri))
    ensures forall s :: s in Values(Uniq(result)) ==> s in result
    ensures forall s :: s in result ==> s.iri in KeySet(Values(Uniq(result)), ServiceIri)
  {
    var d := Uniq(result);
    var vs := Values(d);
    UniqMembers(result);
    assert forall i :: 0 <= i < |vs| ==> Keys(vs, ServiceIri)[i] == d.order[i];
    forall s | s in vs
      ensures s in result
    {
      var i :| 0 <= i < |vs| && vs[i] == s;
      assert d.order[i] in d.entries;
    }
    forall s | s in result
      ensures s.iri in KeySet(vs, ServiceIri)
    {
      var i :| 0 <= i < |d.order| && d.order[i] == s.iri;
      assert Keys(vs, ServiceIri)[i] == s.iri;
    }
  }

  /** Deduplicating one more candidate is one more `uniq[s.iri] = s`. */
  lemma {:induction false} UniqSnoc(result: seq<Service>, s: Service)
    ensures Uniq(result + [s]) == Put(Uniq(result), s.iri, s)
  {
    assert (result + [s])[..|result|] == result;
  }

  /** On a catalogue keyed by IRI (the dict the services come from) the selection is
      the wanted services in catalogue order, each once, even a document service that
      also meets the transport rule. */
  lemma {:induction false} SelectServicesOfCatalogue(services: seq<Service>, moveType: string)
    requires Distinct(Keys(services, ServiceIri))
    ensures Values(Uniq(Candidates(services, moveType))) == Filter(services, WantedRule(moveType))
  {
    if services != [] {
      var init := services[..|services| - 1];
      var s := services[|services| - 1];
      KeysPrefix(services, ServiceIri, |services| - 1);
      assert Distinct(Keys(init, ServiceIri));
      SelectServicesOfCatalogue(init, moveType);
      FreshIri(services, moveType);
      UniqStep(Candidates(init, moveType), s, Transport(s), Documents(s, moveType));
      assert services == init + [s];
      FilterSnoc(init, s, WantedRule(moveType));
    }
  }

  /** One more catalogue service, met by `first` and/or `second` of the two rules,
      adds itself to the values once if either rule holds. */
  lemma {:induction false} UniqStep(c: seq<Service>, s: Service, first: bool, second: bool)
    requires s.iri !in Uniq(c).entries
    ensures Values(Uniq(c + (if first then [s] else []) + (if second then [s] else [])))
         == Values(Uniq(c)) + (if first || second then [s] else [])
  {
    if first && second {
      UniqTwice(c, s);
    } else if first || second {
      UniqOnce(c, s);
      assert c + (if first then [s] else []) + (if second then [s] else []) == c + [s];
    } else {
      assert c + (if first then [s] else []) + (if second then [s] else []) == c;
      assert Values(Uniq(c)) + [] == Values(Uniq(c));
    }
  }

  /** In a catalogue keyed by IRI, the last service's IRI is not yet in `uniq`. */
  lemma {:induction false} FreshIri(services: seq<Service>, moveType: string)
    requires services != [] && Distinct(Keys(services, ServiceIri))
    ensures services[|services| - 1].iri !in Uniq(Candidates(services[..|services| - 1], moveType)).entries
  {
    var init := services[..|services| - 1];
    var d := Uniq(Candidates(init, moveType));
    UniqMembers(Candidates(init, moveType));
    CandidatesMembers(init, moveType);
    LastKeyFresh(services, ServiceIri);
    KeysOfMembers(init, ServiceIri);
    forall k | k in d.entries
      ensures k in KeySet(init, ServiceIri)
    {
      assert d.entries[k] in init;
    }
  }

  /** A candidate with a new IRI is appended to the values. */
  lemma {:induction false} UniqOnce(c: seq<Service>, s: Service)
    requires s.iri !in Uniq(c).entries
    ensures Values(Uniq(c + [s])) == Values(Uniq(c)) + [s]
  {
    UniqSnoc(c, s);
    PutValues(Uniq(c), s.iri, s);
  }

  /** A candidate met twice in a row leaves one value. */
  lemma {:induction false} UniqTwice(c: seq<Service>, s: Service)
    requires s.iri !in Uniq(c).entries
    ensures Values(Uniq(c + [s] + [s])) == Values(Uniq(c)) + [s]
  {
    UniqOnce(c, s);
    UniqSnoc(c, s);
    UniqSnoc(c + [s], s);
    PutValues(Uniq(c + [s]), s.iri, s);
  }

  // ---------------------------------------------------------------- cost

  /** One service's price for n items, scaled on an international move; the planner
      does not round it. */
  function ServiceCost(s: Service, nItems: int, moveType: string): real
  {
    var cost := s.basePrice + s.perItemPrice * nItems as real;
    if moveType == INTERNATIONAL then cost * s.intlCoef else cost
  }

  /** The exact sum of the services' prices, in list order. */
  function RawTotal(services: seq<Service>, nItems: int, moveType: string): real
  {
    if services == [] then 0.0
    else RawTotal(services[..|services| - 1], nItems, moveType) + ServiceCost(services[|services| - 1], nItems, moveType)
  }

  /** `estimate_cost`: the total and the mover's share, each rounded to cents only
      at the end. */
  method EstimateCost(services: seq<Service>, nItems: int, moveType: string, employerCovers: bool)
    returns (total: real, outOfPocket: real)
    ensures total == Quantize(RawTotal(services, nItems, moveType))
    ensures outOfPocket == Quantize(RawTotal(services, nItems, moveType) * Share(employerCovers))
  {
    var sum := 0.0;
    var i := 0;
    while i < |services|
      invariant i <= |services|
      invariant sum == RawTotal(services[..i], nItems, moveType)
    {
      var s := services[i];
      assert services[..i + 1][..i] == services[..i];
      var cost := ServiceCost(s, nItems, moveType);
      sum := sum + cost;
      i := i + 1;
    }
    assert services[..i] == services;
    var share := if employerCovers then 0.30 else 1.00;
    total := Quantize(sum);
    outOfPocket := Quantize(sum * share);
  }

  /** With prices, coefficients and the item count not negative, every service
      costs something not negative, and so does the total. */
  lemma {:induction false} RawTotalNonNegative(services: seq<Service>, nItems: int, moveType: string)
    requires nItems >= 0
    requires forall s :: s in services ==> s.basePrice >= 0.0 && s.perItemPrice >= 0.0 && s.intlCoef >= 0.0
    ensures RawTotal(services, nItems, moveType) >= 0.0
  {
    if services != [] {
      var init := services[..|services| - 1];
      var s := services[|services| - 1];
      assert forall x :: x in init ==> x in services;
      RawTotalNonNegative(init, nItems, moveType);
      var c := s.basePrice + s.perItemPrice * nItems as real;
      assert c >= 0.0;
      assert ServiceCost(s, nItems, moveType) >= 0.0 by {
        if moveType == INTERNATIONAL {
          assert c * s.intlCoef >= 0.0;
        }
      }
    }
  }

  /** The mover never pays more than the rounded total, and pays all of it without
      cover; both amounts lie within half a cent of the exact figures. */
  lemma EstimateBounds(raw: real, employerCovers: bool)
    requires raw >= 0.0
    ensures 0.0 <= Quantize(raw * Share(employerCovers)) <= Quantize(raw)
    ensures !employerCovers ==> Quantize(raw * Share(employerCovers)) == Quantize(raw)
    ensures raw - 0.005 <= Quantize(raw) <= raw + 0.005
  {
    QuantizeMonotone(0.0, raw * Share(employerCovers));
    QuantizeMonotone(raw * Share(employerCovers), raw);
    ZeroCents();
  }

  // ---------------------------------------------------------------- tasks

  /** A task applies to the move type and the situation: unconditionally, when some
      item is fragile, or on an international move. */
  predicate TaskPicked(t: Task, moveType: string, hasFragile: bool)
  {
    && Applies(t.applicableType, moveType)
    && (|| t.condition == ANY
        || (t.condition == FRAGILE_PRESENT && hasFragile)
        || (t.condition == INTERNATIONAL_MOVE && moveType == INTERNATIONAL))
  }

  function TaskRule(moveType: string, hasFragile: bool): Task -> bool
  {
    t => TaskPicked(t, moveType, hasFragile)
  }

  /** `select_tasks`: the applicable tasks, in catalogue order. */
  method SelectTasks(tasks: seq<Task>, moveType: string, hasFragile: bool) returns (picked: seq<Task>)
    ensures picked == Filter(tasks, TaskRule(moveType, hasFragile))
    ensures IsSubsequence(picked, tasks)
    ensures forall t :: t in picked <==> t in tasks && TaskPicked(t, moveType, hasFragile)
  {
    picked := [];
    var i := 0;
    while i < |tasks|
      invariant i <= |tasks|
      invariant picked == Filter(tasks[..i], TaskRule(moveType, hasFragile))
    {
      var t := tasks[i];
      assert tasks[..i + 1][..i] == tasks[..i];
      if Applies(t.applicableType, moveType) {
        if t.condition == ANY {
          picked := picked + [t];
        } else if t.condition == FRAGILE_PRESENT && hasFragile {
          picked := picked + [t];
        } else if t.condition == INTERNATIONAL_MOVE && moveType == INTERNATIONAL {
          picked := picked + [t];
        }
      }
      i := i + 1;
    }
    assert tasks[..i] == tasks;
    FilterIsSubsequence(tasks, TaskRule(moveType, hasFragile));
  }

  /** The conditional tasks need their situation; a task with any other condition
      (such as a permit) is never picked. */
  lemma TaskConditions(t: Task, moveType: string, hasFragile: bool)
    requires TaskPicked(t, moveType, hasFragile)
    ensures t.applicableType == ANY || t.applicableType == moveType
    ensures t.condition == FRAGILE_PRESENT ==> hasFragile
    ensures t.condition == INTERNATIONAL_MOVE ==> moveType == INTERNATIONAL
    ensures t.condition in {ANY, FRAGILE_PRESENT, INTERNATIONAL_MOVE}
  {
  }

  // ---------------------------------------------------------------- schedule

  /** One row of the plan. */
  datatype Entry = Entry(task: Task, start: int, end: int)

  /** `max(1, int(t.days))`. */
  function Days(t: Task): int
  {
    if t.days >= 1 then t.days else 1
  }

  /** `sum(max(1, int(t.days)) for t in ts)`. */
  function TotalDays(ts: seq<Task>): (n: int)
    ensures n >= |ts|
  {
    if ts == [] then 0 else TotalDays(ts[..|ts| - 1]) + Days(ts[|ts| - 1])
  }

  /** `max(1, int(round(total_days * 0.10)))`. */
  function BufferDays(totalDays: int): int
  {
    var b := PyRound(totalDays as real * 0.10);
    if b >= 1 then b else 1
  }

  /** The rows `build_schedule` appends: each task from the end of the one before,
      the first from the start day. */
  function Rows(ts: seq<Task>, start: int): (plan: seq<Entry>)
    ensures |plan| == |ts|
  {
    if ts == [] then []
    else
      var init := ts[..|ts| - 1];
      Rows(init, start) + [Entry(ts[|ts| - 1], start + TotalDays(init), start + TotalDays(ts))]
  }

  /** `build_schedule`: the plan and the recommended move date. */
  method BuildSchedule(orderedTasks: seq<Task>, start: int) returns (plan: seq<Entry>, moveDate: int)
    ensures plan == Rows(orderedTasks, start)
    ensures moveDate == start + TotalDays(orderedTasks) + BufferDays(TotalDays(orderedTasks))
  {
    plan := [];
    var cur := start;
    var i := 0;
    while i < |orderedTasks|
      invariant i <= |orderedTasks|
      invariant plan == Rows(orderedTasks[..i], start)
      invariant cur == start + TotalDays(orderedTasks[..i])
    {
      var t := orderedTasks[i];
      assert orderedTasks[..i + 1][..i] == orderedTasks[..i];
      var startT := cur;
      var endT := cur + (if t.days >= 1 then t.days else 1);
      plan := plan + [Entry(t, startT, endT)];
      cur := endT;
      i := i + 1;
    }
    assert orderedTasks[..i] == orderedTasks;
    var totalDays := TotalDays(orderedTasks);
    var b := PyRound(totalDays as real * 0.10);
    var bufferDays := if b >= 1 then b else 1;
    moveDate := cur + bufferDays;
  }

  /** Row i runs from the days of the tasks before it to the days up to it. */
  lemma {:induction false} RowAt(ts: seq<Task>, start: int, i: nat)
    requires i < |ts|
    ensures Rows(ts, start)[i] == Entry(ts[i], start + TotalDays(ts[..i]), start + TotalDays(ts[..i + 1]))
  {
    if i < |ts| - 1 {
      var init := ts[..|ts| - 1];
      RowAt(init, start, i);
      assert init[..i] == ts[..i] && init[..i + 1] == ts[..i + 1];
    } else {
      assert ts[..i + 1] == ts;
    }
  }

  /** The days up to task i are the days before it plus its own. */
  lemma {:induction false} TotalDaysStep(ts: seq<Task>, i: nat)
    requires i < |ts|
    ensures TotalDays(ts[..i + 1]) == TotalDays(ts[..i]) + Days(ts[i])
  {
    assert ts[..i + 1][..i] == ts[..i];
  }

  /** More tasks take more days. */
  lemma {:induction false} TotalDaysMonotone(ts: seq<Task>, i: nat, j: nat)
    requires i <= j <= |ts|
    ensures TotalDays(ts[..i]) + (j - i) <= TotalDays(ts[..j])
    decreases j - i
  {
    if i < j {
      TotalDaysStep(ts, j - 1);
      TotalDaysMonotone(ts, i, j - 1);
    }
  }

  /** The schedule is contiguous: the first task starts on the start day, each task
      lasts `max(1, days)` days and the next starts when it ends, no two overlap, and
      the move date is at least a day after the last task, the buffer after it. */
  lemma {:induction false} ScheduleContiguous(ts: seq<Task>, start: int)
    ensures var plan := Rows(ts, start);
      && (forall i :: 0 <= i < |ts| ==> plan[i].task == ts[i] && plan[i].end - plan[i].start == Days(ts[i]))
      && (ts != [] ==> plan[0].start == start && plan[|ts| - 1].end == start + TotalDays(ts))
      && (forall i :: 0 <= i < |ts| - 1 ==> plan[i + 1].start == plan[i].end)
      && (forall i, j :: 0 <= i < j < |ts| ==> plan[i].end <= plan[j].start)
      && (forall i :: 0 <= i < |ts| ==> plan[i].end < start + TotalDays(ts) + BufferDays(TotalDays(ts)))
  {
    var plan := Rows(ts, start);
    forall i | 0 <= i < |ts|
      ensures plan[i].task == ts[i] && plan[i].end - plan[i].start == Days(ts[i])
      ensures plan[i].end < start + TotalDays(ts) + BufferDays(TotalDays(ts))
    {
      RowAt(ts, start, i);
      TotalDaysStep(ts, i);
      TotalDaysMonotone(ts, i + 1, |ts|);
      assert ts[..|ts|] == ts;
    }
    if ts != [] {
      RowAt(ts, start, 0);
      RowAt(ts, start, |ts| - 1);
      assert ts[..|ts|] == ts;
    }
    forall i | 0 <= i < |ts| - 1
      ensures plan[i + 1].start == plan[i].end
    {
      RowAt(ts, start, i);
      RowAt(ts, start, i + 1);
    }
    forall i, j | 0 <= i < j < |ts|
      ensures plan[i].end <= plan[j].start
    {
      RowAt(ts, start, i);
      RowAt(ts, start, j);
      TotalDaysMonotone(ts, i + 1, j);
    }
  }

  /** The buffer is one day up to 4 days of work, from then on within half a day of
      a tenth of the work, and it grows with the work. */
  lemma BufferBounds(totalDays: int, more: int)
    requires totalDays <= more
    ensures BufferDays(totalDays) >= 1
    ensures totalDays <= 4 ==> BufferDays(totalDays) == 1
    ensures totalDays >= 5 ==>
      totalDays as real * 0.10 - 0.5 <= BufferDays(totalDays) as real <= totalDays as real * 0.10 + 0.5
    ensures BufferDays(totalDays) <= BufferDays(more)
  {
    PyRoundMonotone(totalDays as real * 0.10, more as real * 0.10);
    if totalDays <= 4 {
      PyRoundMonotone(totalDays as real * 0.10, 0.4);
    }
  }

  // ---------------------------------------------------------------- the route

  /** The planning steps of the route on a task catalogue keyed by IRI: select the
      tasks, order them with `topo_sort`, schedule them. Every task picked gets one
      row; when the dependencies among them have no cycle, every dependency among the
      picked tasks ends before its dependent starts. */
  method PlanTasks(tasks: seq<Task>, moveType: string, hasFragile: bool, start: int)
    returns (plan: seq<Entry>, moveDate: int)
    requires Distinct(Keys(tasks, Iri))
    ensures multiset(Tasks(plan)) == multiset(Filter(tasks, TaskRule(moveType, hasFragile)))
    ensures forall e :: e in plan ==> e.end < moveDate
    ensures Acyclic(Filter(tasks, TaskRule(moveType, hasFragile)), Iri, DependsOn) ==>
      forall i, d :: 0 <= i < |plan| && d in plan[i].task.dependsOn && d in KeySet(Tasks(plan), Iri) ==>
        exists j :: 0 <= j < i && plan[j].task.iri == d && plan[j].end <= plan[i].start
  {
    var picked := SelectTasks(tasks, moveType, hasFragile);
    FilterKeysDistinct(tasks, TaskRule(moveType, hasFragile), Iri);
    var ordered;
    ghost var scheduled;
    ordered, scheduled := TopoSortFifo(picked, Iri, DependsOn);
    plan, moveDate := BuildSchedule(ordered, start);
    PlanFacts(picked, ordered, start);
  }

  /** The schedule of a permutation of the picked tasks, in dependency order when
      their dependencies have no cycle. */
  lemma {:induction false} PlanFacts(picked: seq<Task>, ordered: seq<Task>, start: int)
    requires multiset(ordered) == multiset(picked)
    requires Acyclic(picked, Iri, DependsOn) ==> Topological(ordered, Iri, DependsOn, KeySet(picked, Iri))
    ensures multiset(Tasks(Rows(ordered, start))) == multiset(picked)
    ensures forall e :: e in Rows(ordered, start) ==> e.end < start + TotalDays(ordered) + BufferDays(TotalDays(ordered))
    ensures Acyclic(picked, Iri, DependsOn) ==>
      forall i, d :: 0 <= i < |ordered| && d in Rows(ordered, start)[i].task.dependsOn
                     && d in KeySet(Tasks(Rows(ordered, start)), Iri) ==>
        exists j :: 0 <= j < i && Rows(ordered, start)[j].task.iri == d
                    && Rows(ordered, start)[j].end <= Rows(ordered, start)[i].start
  {
    var plan := Rows(ordered, start);
    ScheduleContiguous(ordered, start);
    TasksOfRows(ordered, start);
    forall e | e in plan
      ensures e.end < start + TotalDays(ordered) + BufferDays(TotalDays(ordered))
    {
      var i :| 0 <= i < |plan| && plan[i] == e;
    }
    if Acyclic(picked, Iri, DependsOn) {
      SameKeySet(picked, ordered);
      DependenciesFirst(ordered, start, KeySet(picked, Iri));
    }
  }

  /** The tasks of the rows, in order. */
  function Tasks(plan: seq<Entry>): (ts: seq<Task>)
    ensures |ts| == |plan| && forall i :: 0 <= i < |plan| ==> ts[i] == plan[i].task
  {
    seq(|plan|, i requires 0 <= i < |plan| => plan[i].task)
  }

  lemma {:induction false} TasksOfRows(ts: seq<Task>, start: int)
    ensures Tasks(Rows(ts, start)) == ts
  {
    ScheduleContiguous(ts, start);
  }

  /** A permutation has the same IRIs. */
  lemma {:induction false} SameKeySet(a: seq<Task>, b: seq<Task>)
    requires multiset(a) == multiset(b)
    ensures KeySet(a, Iri) == KeySet(b, Iri)
  {
    SameKeys(a, b, Iri);
    SameKeys(b, a, Iri);
  }

  /** In the schedule of a list in dependency order, each dependency in S of a task is
      an earlier row that ends by the time the task starts. */
  lemma {:induction false} DependenciesFirst(ts: seq<Task>, start: int, S: set<string>)
    requires Topological(ts, Iri, DependsOn, S)
    ensures forall i, d :: 0 <= i < |ts| && d in ts[i].dependsOn && d in S ==>
      exists j :: 0 <= j < i && Rows(ts, start)[j].task.iri == d && Rows(ts, start)[j].end <= Rows(ts, start)[i].start
  {
    var plan := Rows(ts, start);
    ScheduleContiguous(ts, start);
    forall i, d | 0 <= i < |ts| && d in ts[i].dependsOn && d in S
      ensures exists j :: 0 <= j < i && plan[j].task.iri == d && plan[j].end <= plan[i].start
    {
      assert Ready(DependsOn(ts[i]), S, KeySet(ts[..i], Iri));
      assert d in Keys(ts[..i], Iri);
      var j :| 0 <= j < i && Keys(ts[..i], Iri)[j] == d;
      assert plan[j].task.iri == d;
    }
  }
}
