// The planning functions of last/app.py apart from the two scheduling passes: the
// move type, which services and tasks apply, the cost estimate and task durations.
module LastApp {
  import opened Lists
  import opened Dicts
  import opened Money
  import opened MoveTypes

  datatype City = City(iri: string, title: string, code: string, countryCode: string)

  datatype Service = Service(iri: string, name: string, basePrice: real, perItemPrice: real,
                             intlCoef: real, applicableType: string, condition: string)

  datatype Task = Task(iri: string, title: string, description: string, applicableType: string,
                       condition: string, baseDays: int, perItemDays: real, perFragileDays: real,
                       intlExtraDays: int, dependsOn: seq<string>)

  function Iri(t: Task): string { t.iri }

  function DependsOn(t: Task): seq<string> { t.dependsOn }

  // ---------------------------------------------------------------- move type

  /** `detect_move_type`: any destination outside Russia makes the move international. */
  function DetectMoveType(destination: City): (moveType: string)
    ensures moveType == INTERNATIONAL || moveType == DOMESTIC_RU
    ensures moveType == INTERNATIONAL <==> destination.countryCode != "RU"
  {
    if destination.countryCode != "RU" then INTERNATIONAL else DOMESTIC_RU
  }

  // ---------------------------------------------------------------- selection

  /** A service applies to the move type, unconditionally or as an international one. */
  predicate ServicePicked(s: Service, moveType: string)
  {
    && Applies(s.applicableType, moveType)
    && (s.condition == ANY || (s.condition == INTERNATIONAL_MOVE && moveType == INTERNATIONAL))
  }

  function ServiceRule(moveType: string): Service -> bool
  {
    s => ServicePicked(s, moveType)
  }

  /** `select_services`: the applicable services, in the order of the catalogue. */
  method SelectServices(services: seq<Service>, moveType: string) returns (picked: seq<Service>)
    ensures picked == Filter(services, ServiceRule(moveType))
    ensures IsSubsequence(picked, services)
    ensures forall s :: s in picked <==> s in services && ServicePicked(s, moveType)
  {
    picked := [];
    var i := 0;
    while i < |services|
      invariant i <= |services|
      invariant picked == Filter(services[..i], ServiceRule(moveType))
    {
      var s := services[i];
      assert services[..i + 1][..i] == services[..i];
      if Applies(s.applicableType, moveType) {
        if s.condition == ANY {
          picked := picked + [s];
        } else if s.condition == INTERNATIONAL_MOVE && moveType == INTERNATIONAL {
          picked := picked + [s];
        }
      }
      i := i + 1;
    }
    assert services[..i] == services;
    FilterIsSubsequence(services, ServiceRule(moveType));
  }

  /** A task applies to the move type and the situation: unconditionally, when some
      item is fragile, on an international move, or on an international move by
      someone who works there and needs a permit. */
  predicate TaskPicked(t: Task, moveType: string, hasFragile: bool, hasWork: bool, needsPermit: bool)
  {
    && Applies(t.applicableType, moveType)
    && (|| t.condition == ANY
        || (t.condition == FRAGILE_PRESENT && hasFragile)
        || (t.condition == INTERNATIONAL_MOVE && moveType == INTERNATIONAL)
        || (t.condition == PERMIT_NEEDED && moveType == INTERNATIONAL && hasWork && needsPermit))
  }

  function TaskRule(moveType: string, hasFragile: bool, hasWork: bool, needsPermit: bool): Task -> bool
  {
    t => TaskPicked(t, moveType, hasFragile, hasWork, needsPermit)
  }

  /** `select_tasks`: the applicable tasks, in the order of the catalogue. */
  method SelectTasks(tasks: seq<Task>, moveType: string, hasFragile: bool, hasWork: bool, needsPermit: bool)
    returns (picked: seq<Task>)
    ensures picked == Filter(tasks, TaskRule(moveType, hasFragile, hasWork, needsPermit))
    ensures IsSubsequence(picked, tasks)
    ensures forall t :: t in picked <==> t in tasks && TaskPicked(t, moveType, hasFragile, hasWork, needsPermit)
  {
    picked := [];
    var i := 0;
    while i < |tasks|
      invariant i <= |tasks|
      invariant picked == Filter(tasks[..i], TaskRule(moveType, hasFragile, hasWork, needsPermit))
    {
      var t := tasks[i];
      assert tasks[..i + 1][..i] == tasks[..i];
      if Applies(t.applicableType, moveType) {
        if t.condition == ANY {
          picked := picked + [t];
        } else if t.condition == FRAGILE_PRESENT && hasFragile {
          picked := picked + [t];
        } else if t.condition == INTERNATIONAL_MOVE && moveType == INTERNATIONAL {
          picked := picked + [t];
        } else if t.condition == PERMIT_NEEDED && moveType == INTERNATIONAL && hasWork && needsPermit {
          picked := picked + [t];
        }
      }
      i := i + 1;
    }
    assert tasks[..i] == tasks;
    FilterIsSubsequence(tasks, TaskRule(moveType, hasFragile, hasWork, needsPermit));
  }

  /** The conditional tasks need their situation: fragile items, an international
      move, and for a permit also work abroad. */
  lemma TaskConditions(t: Task, moveType: string, hasFragile: bool, hasWork: bool, needsPermit: bool)
    requires TaskPicked(t, moveType, hasFragile, hasWork, needsPermit)
    ensures t.applicableType == ANY || t.applicableType == moveType
    ensures t.condition == FRAGILE_PRESENT ==> hasFragile
    ensures t.condition == INTERNATIONAL_MOVE ==> moveType == INTERNATIONAL
    ensures t.condition == PERMIT_NEEDED ==> moveType == INTERNATIONAL && hasWork && needsPermit
    ensures t.condition in {ANY, FRAGILE_PRESENT, INTERNATIONAL_MOVE, PERMIT_NEEDED}
  {
  }

  // ---------------------------------------------------------------- cost

  /** One service's price, rounded to cents. */
  function ServiceCost(s: Service, nItems: int, moveType: string): real
  {
    Quantize(RawCost(s, nItems, moveType))
  }

  /** One service's price for n items, scaled on an international move. */
  function RawCost(s: Service, nItems: int, moveType: string): real
  {
    var cost := s.basePrice + s.perItemPrice * nItems as real;
    if moveType == INTERNATIONAL then cost * s.intlCoef else cost
  }

  /** The sum of the services' costs, in list order. */
  function TotalCost(services: seq<Service>, nItems: int, moveType: string): (total: real)
    ensures IsCents(total)
  {
    if services == [] then ZeroCents(); 0.0
    else
      var init := services[..|services| - 1];
      CentsSum(TotalCost(init, nItems, moveType), ServiceCost(services[|services| - 1], nItems, moveType));
      TotalCost(init, nItems, moveType) + ServiceCost(services[|services| - 1], nItems, moveType)
  }

  /** `breakdown`: each service name with its cost, a later service of the same name
      replacing the earlier cost in the earlier place. */
  function Breakdown(services: seq<Service>, nItems: int, moveType: string): (b: Dict<real>)
    ensures b.Valid()
  {
    if services == [] then Empty()
    else
      var s := services[|services| - 1];
      Put(Breakdown(services[..|services| - 1], nItems, moveType), s.name, ServiceCost(s, nItems, moveType))
  }

  /** `estimate_cost`: the total, the mover's share, and the cost of each service. */
  method EstimateCost(services: seq<Service>, nItems: int, moveType: string, employerCovers: bool)
    returns (total: real, outOfPocket: real, breakdown: Dict<real>)
    ensures total == TotalCost(services, nItems, moveType)
    ensures outOfPocket == Quantize(total * Share(employerCovers))
    ensures breakdown == Breakdown(services, nItems, moveType)
  {
    var sum := 0.0;
    breakdown := Empty();
    var i := 0;
    while i < |services|
      invariant i <= |services|
      invariant sum == TotalCost(services[..i], nItems, moveType)
      invariant breakdown == Breakdown(services[..i], nItems, moveType)
    {
      var s := services[i];
      var cost := Quantize(RawCost(s, nItems, moveType));
      EstimateStep(services, nItems, moveType, i);
      breakdown := Put(breakdown, s.name, cost);
      sum := sum + cost;
      i := i + 1;
    }
    assert services[..i] == services;
    var share := if employerCovers then 0.30 else 1.00;
    QuantizeCents(sum);
    total := Quantize(sum);
    outOfPocket := Quantize(sum * share);
  }

  /** One more service adds its cost to the total and puts it in the breakdown. */
  lemma EstimateStep(services: seq<Service>, nItems: int, moveType: string, i: nat)
    requires i < |services|
    ensures TotalCost(services[..i + 1], nItems, moveType)
         == TotalCost(services[..i], nItems, moveType) + ServiceCost(services[i], nItems, moveType)
    ensures Breakdown(services[..i + 1], nItems, moveType)
         == Put(Breakdown(services[..i], nItems, moveType), services[i].name, ServiceCost(services[i], nItems, moveType))
  {
    assert services[..i + 1][..i] == services[..i];
  }

  /** Quantizing the sum of quantized costs changes nothing: the total is exactly the
      sum of the costs listed in the breakdown. */
  lemma {:induction false} TotalIsSum(services: seq<Service>, nItems: int, moveType: string)
    ensures Quantize(TotalCost(services, nItems, moveType)) == TotalCost(services, nItems, moveType)
  {
    QuantizeCents(TotalCost(services, nItems, moveType));
  }

  /** The mover never pays more than the total, and pays all of it without cover. */
  lemma OutOfPocketBounds(total: real, employerCovers: bool)
    requires 0.0 <= total && IsCents(total)
    ensures 0.0 <= Quantize(total * Share(employerCovers)) <= total
    ensures !employerCovers ==> Quantize(total * Share(employerCovers)) == total
  {
    QuantizeMonotone(0.0, total * Share(employerCovers));
    QuantizeMonotone(total * Share(employerCovers), total);
    ZeroCents();
    QuantizeCents(total);
  }

  /** Each name in the breakdown carries the cost of the last service of that name, and
      the names are those of the services, each listed once. */
  lemma {:induction false} BreakdownEntries(services: seq<Service>, nItems: int, moveType: string, i: nat)
    requires i < |services|
    requires forall j :: i < j < |services| ==> services[j].name != services[i].name
    ensures services[i].name in Breakdown(services, nItems, moveType).entries
    ensures Breakdown(services, nItems, moveType).entries[services[i].name] == ServiceCost(services[i], nItems, moveType)
  {
    if i < |services| - 1 {
      BreakdownEntries(services[..|services| - 1], nItems, moveType, i);
    }
  }

  /** No name appears in the breakdown that is not a service's name. */
  lemma {:induction false} BreakdownNames(services: seq<Service>, nItems: int, moveType: string, name: string)
    requires name in Breakdown(services, nItems, moveType).entries
    ensures exists j :: 0 <= j < |services| && services[j].name == name
  {
    var init := services[..|services| - 1];
    if services[|services| - 1].name != name {
      BreakdownNames(init, nItems, moveType, name);
      var j :| 0 <= j < |init| && init[j].name == name;
      assert services[j].name == name;
    }
  }

  // ---------------------------------------------------------------- durations

  /** `int(d)`: truncation toward zero. */
  function Trunc(d: real): (i: int)
    ensures d >= 0.0 ==> i == d.Floor
  {
    if d >= 0.0 then d.Floor else -((-d).Floor)
  }

  /** `ceil_decimal` as written: one more than the truncation unless d is whole. */
  function CeilDecimalAsWritten(d: real): int
  {
    var i := Trunc(d);
    if d == i as real then i else i + 1
  }

  /** `ceil_decimal` as intended: the least integer not below d. */
  function CeilDecimal(d: real): (c: int)
    ensures d <= c as real < d + 1.0
  {
    var f := d.Floor;
    if d == f as real then f else f + 1
  }

  /** On non-negative amounts the written version is the ceiling. */
  lemma CeilDecimalAgrees(d: real)
    requires d >= 0.0
    ensures CeilDecimalAsWritten(d) == CeilDecimal(d)
  {
  }

  /** On -0.5 the written version answers 1, which is not the ceiling 0: `int()`
      truncates toward zero, so for a negative fraction adding 1 overshoots. */
  lemma CeilDecimalAsWrittenOvershoots()
    ensures CeilDecimalAsWritten(-0.5) == 1
    ensures CeilDecimal(-0.5) == 0
  {
    assert (0.5).Floor == 0;
    assert (-0.5).Floor == -1;
  }

  /** `task_duration_days` clamps to at least 1 day, which hides the difference. */
  lemma CeilingMaskedByClamp(d: real)
    ensures Max(1, CeilDecimalAsWritten(d)) == Max(1, CeilDecimal(d))
  {
    if d < 0.0 {
      assert (-d).Floor >= 0;
    }
  }

  function Max(a: int, b: int): int { if a >= b then a else b }

  /** The work of a task in days: base, per item, per fragile item, and the
      international extra. */
  function RawDays(t: Task, nItems: int, fragileCount: int, moveType: string): real
  {
    t.baseDays as real + t.perItemDays * nItems as real + t.perFragileDays * fragileCount as real
    + (if moveType == INTERNATIONAL then t.intlExtraDays as real else 0.0)
  }

  /** `task_duration_days`: whole days, at least one, covering the work. */
  function TaskDurationDays(t: Task, nItems: int, fragileCount: int, moveType: string): (days: int)
    ensures days >= 1
    ensures days as real >= RawDays(t, nItems, fragileCount, moveType)
    ensures days == 1 || (days - 1) as real < RawDays(t, nItems, fragileCount, moveType)
  {
    var d := t.baseDays as real;
    var d1 := d + t.perItemDays * nItems as real;
    var d2 := d1 + t.perFragileDays * fragileCount as real;
    var d3 := if moveType == INTERNATIONAL then d2 + t.intlExtraDays as real else d2;
    Max(1, CeilDecimal(d3))
  }

  // ---------------------------------------------------------------- buffers

  /** Extra days for a large move: 3, 5 or 7 from 15, 25 or 40 items. */
  function ScaleBuffer(nItems: int): int
  {
    if nItems >= 40 then 7 else if nItems >= 25 then 5 else if nItems >= 15 then 3 else 0
  }

  /** Extra days for fragile items: 1, 2 or 3 from 4, 8 or 15 of them. */
  function FragileBuffer(fragileCount: int): int
  {
    if fragileCount >= 15 then 3 else if fragileCount >= 8 then 2 else if fragileCount >= 4 then 1 else 0
  }

  /** Extra days for the move itself: 10 abroad, 2 at home. */
  function IntlBuffer(moveType: string): int
  {
    if moveType == INTERNATIONAL then 10 else 2
  }

  function BufferDays(nItems: int, fragileCount: int, moveType: string): int
  {
    ScaleBuffer(nItems) + FragileBuffer(fragileCount) + IntlBuffer(moveType)
  }

  /** More items, or more fragile ones, never shorten the buffer; it lies between 2 and
      20 days, at least 10 on an international move. */
  lemma BufferMonotone(n1: int, n2: int, f1: int, f2: int, moveType: string)
    requires n1 <= n2 && f1 <= f2
    ensures ScaleBuffer(n1) <= ScaleBuffer(n2) && FragileBuffer(f1) <= FragileBuffer(f2)
    ensures BufferDays(n1, f1, moveType) <= BufferDays(n2, f2, moveType)
    ensures 2 <= BufferDays(n1, f1, moveType) <= 20
    ensures moveType == INTERNATIONAL ==> BufferDays(n1, f1, moveType) >= 10
  {
  }
}
