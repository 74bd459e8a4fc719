/** The day-by-day cash timeline of `src/components/Timeline/Timeline.jsx` (`cargarEventos`). */
module Timeline {
  import opened Wrappers
  import opened Seqs
  import opened Text
  import opened Sorting
  import opened Records
  import Calculations

  datatype Kind = Ingreso | GastoFijo | GastoVariable

  /** One entry of `todosEventos`. */
  datatype Event = Event(tipo: Kind, concepto: string, cantidad: real, fecha: string, categoria: string)

  /** `config.mesReferencia || config.mesActual`. */
  function ReferenceMonth(c: Config): (r: string)
    ensures c.mesReferencia != "" ==> r == c.mesReferencia
    ensures c.mesReferencia == "" ==> r == c.mesActual
  {
    OrElse(c.mesReferencia, c.mesActual)
  }

  /** `config.incomeBase > 0`; an absent value compares false. */
  predicate HasBase(c: Config)
  {
    c.incomeBase.Some? && c.incomeBase.value > 0.0
  }

  // ---------------------------------------------------------------- building the events

  /** The base income, on day 01 of the month. */
  function BaseEvent(mes: string, incomeBase: real): Event
  {
    Event(Ingreso, "Ingreso Base", incomeBase, mes + "-01", "Salario")
  }

  function IncomeEvent(i: Income): Event
  {
    Event(Ingreso, i.concepto, i.cantidad, i.fecha, i.tipo)
  }

  /** `${mesActual}-${dia.toString().padStart(2, '0')}` for the day the expense is charged. */
  function FixedDate(mes: string, g: FixedExpense, year: int, month: int): string
  {
    mes + "-" + PadTwo(IntToString(Calculations.RealChargeDay(g.diaDelMes, year, month)))
  }

  function FixedEventAt(mes: string, year: int, month: int): FixedExpense -> Event
  {
    (g: FixedExpense) => Event(GastoFijo, g.nombre, g.cantidad, FixedDate(mes, g, year, month), OrElse(g.categoria, g.tipo))
  }

  function VariableEvent(g: VariableExpense): Event
  {
    Event(GastoVariable, g.concepto, g.cantidad, g.fecha, OrElse(g.categoria, "General"))
  }

  /** `fecha.startsWith(mes)`, with no check that the date is present. */
  function IncomeIn(mes: string): Income -> bool
  {
    (i: Income) => StartsWith(i.fecha, mes)
  }

  function VariableIn(mes: string): VariableExpense -> bool
  {
    (g: VariableExpense) => StartsWith(g.fecha, mes)
  }

  function BaseEvents(c: Config): seq<Event>
  {
    if HasBase(c) then [BaseEvent(ReferenceMonth(c), c.incomeBase.value)] else []
  }

  /** The events in the order they are pushed: base income, incomes, fixed expenses, variable expenses.
      `year` and `month` are the numbers read from the two parts of the reference month. */
  function EventsOf(c: Config, fijos: seq<FixedExpense>, variables: seq<VariableExpense>,
                    ingresos: seq<Income>, year: int, month: int): seq<Event>
  {
    var mes := ReferenceMonth(c);
    BaseEvents(c)
      + Map(Filter(ingresos, IncomeIn(mes)), IncomeEvent)
      + Map(Filter(fijos, Calculations.ActiveFn()), FixedEventAt(mes, year, month))
      + Map(Filter(variables, VariableIn(mes)), VariableEvent)
  }

  /** Pushes `f` of each item of `items` onto `todos`. */
  method PushAll<T>(todos: seq<Event>, items: seq<T>, f: T -> Event) returns (r: seq<Event>)
    ensures r == todos + Map(items, f)
  {
    r := todos;
    for i := 0 to |items|
      invariant r == todos + Map(items[..i], f)
    {
      MapAppend(items[..i], [items[i]], f);
      assert items[..i + 1] == items[..i] + [items[i]];
      r := r + [f(items[i])];
    }
    assert items[..|items|] == items;
  }

  /** The first part of `cargarEventos`: the unified event list, before sorting. */
  method BuildEvents(c: Config, fijos: seq<FixedExpense>, variables: seq<VariableExpense>,
                     ingresos: seq<Income>, year: int, month: int) returns (todos: seq<Event>)
    ensures todos == EventsOf(c, fijos, variables, ingresos, year, month)
  {
    var mes := ReferenceMonth(c);
    var activos := Filter(fijos, Calculations.ActiveFn());
    var delMes := Filter(variables, VariableIn(mes));
    var ingresosMes := Filter(ingresos, IncomeIn(mes));
    todos := [];
    if c.incomeBase.Some? && c.incomeBase.value > 0.0 {
      todos := todos + [BaseEvent(mes, c.incomeBase.value)];
    }
    assert todos == BaseEvents(c);
    todos := PushAll(todos, ingresosMes, IncomeEvent);
    todos := PushAll(todos, activos, FixedEventAt(mes, year, month));
    todos := PushAll(todos, delMes, VariableEvent);
  }

  function IsKind(k: Kind): Event -> bool
  {
    (e: Event) => e.tipo == k
  }

  function Cantidad(e: Event): real
  {
    e.cantidad
  }

  lemma {:induction false} MapKind<T>(s: seq<T>, f: T -> Event, k: Kind, l: Kind)
    requires forall x :: f(x).tipo == k
    ensures Filter(Map(s, f), IsKind(l)) == if k == l then Map(s, f) else []
  {
    if k == l {
      FilterAll(Map(s, f), IsKind(l));
    } else {
      FilterNone(Map(s, f), IsKind(l));
    }
  }

  lemma {:induction false} FilterFour<T>(b: seq<T>, i: seq<T>, f: seq<T>, v: seq<T>, keep: T -> bool)
    ensures Filter(b + i + f + v, keep) == Filter(b, keep) + Filter(i, keep) + Filter(f, keep) + Filter(v, keep)
  {
    FilterAppend(b + i + f, v, keep);
    FilterAppend(b + i, f, keep);
    FilterAppend(b, i, keep);
  }

  /** The events of kind `k`, part by part. */
  lemma {:induction false} EventsOfKind(c: Config, fijos: seq<FixedExpense>, variables: seq<VariableExpense>,
                     ingresos: seq<Income>, year: int, month: int, k: Kind)
    ensures var evs := EventsOf(c, fijos, variables, ingresos, year, month);
      var mes := ReferenceMonth(c);
      && (k == Ingreso ==> Filter(evs, IsKind(k)) == BaseEvents(c) + Map(Filter(ingresos, IncomeIn(mes)), IncomeEvent))
      && (k == GastoFijo ==> Filter(evs, IsKind(k)) == Map(Filter(fijos, Calculations.ActiveFn()), FixedEventAt(mes, year, month)))
      && (k == GastoVariable ==> Filter(evs, IsKind(k)) == Map(Filter(variables, VariableIn(mes)), VariableEvent))
  {
    var mes := ReferenceMonth(c);
    var b := BaseEvents(c);
    var i := Map(Filter(ingresos, IncomeIn(mes)), IncomeEvent);
    var f := Map(Filter(fijos, Calculations.ActiveFn()), FixedEventAt(mes, year, month));
    var v := Map(Filter(variables, VariableIn(mes)), VariableEvent);
    if HasBase(c) {
      FilterSingle(BaseEvent(mes, c.incomeBase.value), IsKind(k));
    }
    MapKind(Filter(ingresos, IncomeIn(mes)), IncomeEvent, Ingreso, k);
    MapKind(Filter(fijos, Calculations.ActiveFn()), FixedEventAt(mes, year, month), GastoFijo, k);
    MapKind(Filter(variables, VariableIn(mes)), VariableEvent, GastoVariable, k);
    KindParts(b, i, f, v, k);
  }

  /** Four parts, each all of one kind in the order incomes, incomes, fixed, variable, filter part by part. */
  lemma {:induction false} KindParts(b: seq<Event>, i: seq<Event>, f: seq<Event>, v: seq<Event>, k: Kind)
    requires Filter(b, IsKind(k)) == if k == Ingreso then b else []
    requires Filter(i, IsKind(k)) == if k == Ingreso then i else []
    requires Filter(f, IsKind(k)) == if k == GastoFijo then f else []
    requires Filter(v, IsKind(k)) == if k == GastoVariable then v else []
    ensures k == Ingreso ==> Filter(b + i + f + v, IsKind(k)) == b + i
    ensures k == GastoFijo ==> Filter(b + i + f + v, IsKind(k)) == f
    ensures k == GastoVariable ==> Filter(b + i + f + v, IsKind(k)) == v
  {
    FilterFour(b, i, f, v, IsKind(k));
    if k == Ingreso {
      assert b + i + [] + [] == b + i;
    } else if k == GastoFijo {
      assert [] + [] + f + [] == f;
    } else {
      assert [] + [] + [] + v == v;
    }
  }

  /** Each kind of event comes from exactly its own source: the base income and the month's
      incomes, the active fixed expenses (charged on their clamped day), and the month's
      variable expenses. */
  lemma {:induction false} EventsByKind(c: Config, fijos: seq<FixedExpense>, variables: seq<VariableExpense>,
                     ingresos: seq<Income>, year: int, month: int)
    ensures var evs := EventsOf(c, fijos, variables, ingresos, year, month);
      var mes := ReferenceMonth(c);
      && Filter(evs, IsKind(Ingreso)) == BaseEvents(c) + Map(Filter(ingresos, IncomeIn(mes)), IncomeEvent)
      && Filter(evs, IsKind(GastoFijo)) == Map(Filter(fijos, Calculations.ActiveFn()), FixedEventAt(mes, year, month))
      && Filter(evs, IsKind(GastoVariable)) == Map(Filter(variables, VariableIn(mes)), VariableEvent)
  {
    EventsOfKind(c, fijos, variables, ingresos, year, month, Ingreso);
    EventsOfKind(c, fijos, variables, ingresos, year, month, GastoFijo);
    EventsOfKind(c, fijos, variables, ingresos, year, month, GastoVariable);
  }

  /** The base income event exists exactly when `incomeBase` is positive, and then it comes first
      and is dated day 01 of the reference month. */
  lemma {:induction false} BaseEventIff(c: Config, fijos: seq<FixedExpense>, variables: seq<VariableExpense>,
                     ingresos: seq<Income>, year: int, month: int)
    ensures var evs := EventsOf(c, fijos, variables, ingresos, year, month);
      && (HasBase(c) ==> evs[0] == BaseEvent(ReferenceMonth(c), c.incomeBase.value)
                         && evs[0].fecha == ReferenceMonth(c) + "-01")
      && |evs| == |BaseEvents(c)| + |Filter(ingresos, IncomeIn(ReferenceMonth(c)))|
                  + |Filter(fijos, Calculations.ActiveFn())| + |Filter(variables, VariableIn(ReferenceMonth(c)))|
  {
  }

  /** The events of a list whose fixed-expense events are those of `activos` carry their dates. */
  lemma {:induction false} FixedDatesOf(evs: seq<Event>, mes: string, activos: seq<FixedExpense>, year: int, month: int)
    requires Filter(evs, IsKind(GastoFijo)) == Map(activos, FixedEventAt(mes, year, month))
    ensures forall e :: e in evs && e.tipo == GastoFijo ==>
      StartsWith(e.fecha, mes + "-") && |e.fecha| >= |mes| + 3
  {
    var f := Map(activos, FixedEventAt(mes, year, month));
    forall e: Event | e in evs && e.tipo == GastoFijo
      ensures StartsWith(e.fecha, mes + "-") && |e.fecha| >= |mes| + 3
    {
      var j :| 0 <= j < |evs| && evs[j] == e;
      FilterMembers(evs, IsKind(GastoFijo));
      assert IsKind(GastoFijo)(evs[j]);
      assert e in f;
      var k :| 0 <= k < |f| && f[k] == e;
      var d := PadTwo(IntToString(Calculations.RealChargeDay(activos[k].diaDelMes, year, month)));
      assert e.fecha == (mes + "-") + d;
    }
  }

  /** Every fixed-expense event is dated in the reference month, on a two-digit day. */
  lemma {:induction false} FixedEventDates(c: Config, fijos: seq<FixedExpense>, variables: seq<VariableExpense>,
                        ingresos: seq<Income>, year: int, month: int)
    ensures forall e :: e in EventsOf(c, fijos, variables, ingresos, year, month) && e.tipo == GastoFijo ==>
      StartsWith(e.fecha, ReferenceMonth(c) + "-") && |e.fecha| >= |ReferenceMonth(c)| + 3
  {
    EventsOfKind(c, fijos, variables, ingresos, year, month, GastoFijo);
    FixedDatesOf(EventsOf(c, fijos, variables, ingresos, year, month), ReferenceMonth(c),
                 Filter(fijos, Calculations.ActiveFn()), year, month);
  }

  // ---------------------------------------------------------------- sorting

  /** The comparator `new Date(a.fecha) - new Date(b.fecha)`, on ISO dates. */
  predicate EventLe(a: Event, b: Event)
  {
    LexLe(a.fecha, b.fecha)
  }

  lemma {:induction false} EventLeTotalPreorder()
    ensures TotalPreorder(EventLe)
  {
    forall a: Event, b: Event ensures EventLe(a, b) || EventLe(b, a) {
      LexLeTotal(a.fecha, b.fecha);
    }
    forall a: Event, b: Event, c: Event | EventLe(a, b) && EventLe(b, c) ensures EventLe(a, c) {
      LexLeTransitive(a.fecha, b.fecha, c.fecha);
    }
  }

  // ---------------------------------------------------------------- grouping by day

  /** One entry of `eventosPorDia`. */
  datatype Group = Group(fecha: string, eventos: seq<Event>, saldoDia: real, saldoAcumulado: real)

  /** What an event adds to the balance: incomes add, expenses subtract. */
  function Signed(e: Event): real
  {
    if e.tipo == Ingreso then e.cantidad else -e.cantidad
  }

  /** The balance of a run of events. */
  function Balance(evs: seq<Event>): real
  {
    Sum(evs, Signed)
  }

  function DayIs(fecha: string): Group -> bool
  {
    (g: Group) => g.fecha == fecha
  }

  /** Files event `e` under its day (a new day is appended), with `saldo` the running balance after it. */
  function AddEvent(grupos: seq<Group>, e: Event, saldo: real): seq<Group>
  {
    match FindFirst(grupos, DayIs(e.fecha))
    case None => grupos + [Group(e.fecha, [e], Signed(e), saldo)]
    case Some(k) => grupos[k := Group(e.fecha, grupos[k].eventos + [e], grupos[k].saldoDia + Signed(e), saldo)]
  }

  /** The reference grouping: the events filed one by one, in the order the days first appear. */
  function GroupsOf(evs: seq<Event>): seq<Group>
    decreases |evs|
  {
    if evs == [] then []
    else AddEvent(GroupsOf(evs[..|evs| - 1]), evs[|evs| - 1], Balance(evs))
  }

  /** No two groups share a day. */
  predicate DistinctDays(gs: seq<Group>)
  {
    forall i, j :: 0 <= i < j < |gs| ==> gs[i].fecha != gs[j].fecha
  }

  lemma {:induction false} BalanceSnoc(evs: seq<Event>, e: Event)
    ensures Balance(evs + [e]) == Balance(evs) + Signed(e)
  {
    SumAppend(evs, [e], Signed);
    SumSingle(e, Signed);
  }

  lemma {:induction false} GroupsDistinct(evs: seq<Event>)
    ensures DistinctDays(GroupsOf(evs))
    decreases |evs|
  {
    if evs != [] {
      GroupsDistinct(evs[..|evs| - 1]);
    }
  }

  /** `eventosPorDia` (a dictionary) with its keys in insertion order agrees with the grouping `gs`. */
  ghost predicate Agrees(porDia: map<string, Group>, orden: seq<string>, gs: seq<Group>)
  {
    && |orden| == |gs|
    && (forall k :: 0 <= k < |gs| ==> orden[k] == gs[k].fecha && orden[k] in porDia && porDia[orden[k]] == gs[k])
    && (forall d :: d in porDia ==> d in orden)
  }

  /** The grouping of one more event of `evs`. */
  lemma {:induction false} GroupsPrefix(evs: seq<Event>, i: nat)
    requires i < |evs|
    ensures GroupsOf(evs[..i + 1]) == AddEvent(GroupsOf(evs[..i]), evs[i], Balance(evs[..i + 1]))
    ensures Balance(evs[..i + 1]) == Balance(evs[..i]) + Signed(evs[i])
    ensures DistinctDays(GroupsOf(evs[..i]))
  {
    assert evs[..i + 1][..i] == evs[..i];
    BalanceSnoc(evs[..i], evs[i]);
    assert evs[..i + 1] == evs[..i] + [evs[i]];
    GroupsDistinct(evs[..i]);
  }

  /** An event of a day already in the dictionary updates that day's entry, as `AddEvent` updates its group. */
  lemma {:induction false} AgreesUpdate(porDia: map<string, Group>, orden: seq<string>, gs: seq<Group>, e: Event, saldo: real,
                     nuevo: Group)
    requires Agrees(porDia, orden, gs) && DistinctDays(gs) && e.fecha in porDia
    requires nuevo == Group(e.fecha, porDia[e.fecha].eventos + [e], porDia[e.fecha].saldoDia + Signed(e), saldo)
    ensures Agrees(porDia[e.fecha := nuevo], orden, AddEvent(gs, e, saldo))
  {
    var k :| 0 <= k < |orden| && orden[k] == e.fecha;
    assert DayIs(e.fecha)(gs[k]);
    var j := FindFirst(gs, DayIs(e.fecha));
    assert j.Some? && gs[j.value].fecha == e.fecha;
    assert j.value == k;
    var gs' := gs[k := nuevo];
    assert AddEvent(gs, e, saldo) == gs';
    var porDia' := porDia[e.fecha := nuevo];
    forall i | 0 <= i < |gs'|
      ensures orden[i] == gs'[i].fecha && orden[i] in porDia' && porDia'[orden[i]] == gs'[i]
    {
      if i != k {
        assert orden[i] != e.fecha;
      }
    }
  }

  /** An event of a new day adds an entry at the end of the key order, as `AddEvent` appends a group. */
  lemma {:induction false} AgreesAppend(porDia: map<string, Group>, orden: seq<string>, gs: seq<Group>, e: Event, saldo: real)
    requires Agrees(porDia, orden, gs) && e.fecha !in porDia
    ensures Agrees(porDia[e.fecha := Group(e.fecha, [e], Signed(e), saldo)], orden + [e.fecha], AddEvent(gs, e, saldo))
  {
    forall k | 0 <= k < |gs| ensures !DayIs(e.fecha)(gs[k]) {
      assert orden[k] in porDia;
    }
  }

  /** Filing one event in the dictionary as the source does keeps it in agreement with `AddEvent`. */
  lemma {:induction false} AgreesStep(porDia: map<string, Group>, orden: seq<string>, gs: seq<Group>, e: Event, saldo: real,
                   conDia: map<string, Group>, nuevo: Group, porDia': map<string, Group>, orden': seq<string>)
    requires Agrees(porDia, orden, gs) && DistinctDays(gs)
    requires orden' == if e.fecha in porDia then orden else orden + [e.fecha]
    requires conDia == if e.fecha in porDia then porDia else porDia[e.fecha := Group(e.fecha, [], 0.0, 0.0)]
    requires nuevo == Group(e.fecha, conDia[e.fecha].eventos + [e], conDia[e.fecha].saldoDia + Signed(e), saldo)
    requires porDia' == conDia[e.fecha := nuevo]
    ensures Agrees(porDia', orden', AddEvent(gs, e, saldo))
  {
    if e.fecha in porDia {
      AgreesUpdate(porDia, orden, gs, e, saldo, nuevo);
    } else {
      assert nuevo == Group(e.fecha, [e], Signed(e), saldo);
      assert porDia' == porDia[e.fecha := nuevo];
      AgreesAppend(porDia, orden, gs, e, saldo);
    }
  }

  /** `Object.values` of a dictionary that agrees with `gs` is `gs`. */
  lemma {:induction false} AgreesValues(porDia: map<string, Group>, orden: seq<string>, gs: seq<Group>, valores: seq<Group>)
    requires Agrees(porDia, orden, gs)
    requires |valores| == |orden| && forall k :: 0 <= k < |orden| ==> valores[k] == porDia[orden[k]]
    ensures valores == gs
  {
  }

  /** The comparator of the second sort, on the groups' dates. */
  predicate GroupLe(a: Group, b: Group)
  {
    LexLe(a.fecha, b.fecha)
  }

  /** The grouping loop of `cargarEventos` over the sorted events, then `Object.values` sorted by date. */
  method GroupByDay(evs: seq<Event>) returns (grupos: seq<Group>)
    ensures grupos == SortBy(GroupsOf(evs), GroupLe)
  {
    var porDia: map<string, Group> := map[];
    var orden: seq<string> := [];
    var saldoAcumulado := 0.0;
    for i := 0 to |evs|
      invariant saldoAcumulado == Balance(evs[..i])
      invariant Agrees(porDia, orden, GroupsOf(evs[..i]))
    {
      var evento := evs[i];
      var dia := evento.fecha;
      GroupsPrefix(evs, i);
      ghost var porDia0, orden0 := porDia, orden;
      if dia !in porDia {
        porDia := porDia[dia := Group(dia, [], 0.0, 0.0)];
        orden := orden + [dia];
      }
      ghost var conDia := porDia;
      var g := porDia[dia];
      var saldoDia := if evento.tipo == Ingreso then g.saldoDia + evento.cantidad else g.saldoDia - evento.cantidad;
      saldoAcumulado := if evento.tipo == Ingreso then saldoAcumulado + evento.cantidad
                        else saldoAcumulado - evento.cantidad;
      assert saldoDia == g.saldoDia + Signed(evento) && saldoAcumulado == Balance(evs[..i + 1]);
      var nuevo := Group(dia, g.eventos + [evento], saldoDia, saldoAcumulado);
      porDia := porDia[dia := nuevo];
      AgreesStep(porDia0, orden0, GroupsOf(evs[..i]), evento, saldoAcumulado, conDia, nuevo, porDia, orden);
    }
    assert evs[..|evs|] == evs;
    var valores := seq(|orden|, k requires 0 <= k < |orden| && orden[k] in porDia => porDia[orden[k]]);
    AgreesValues(porDia, orden, GroupsOf(evs), valores);
    grupos := SortBy(valores, GroupLe);
  }

  // ---------------------------------------------------------------- properties of the grouping

  function Eventos(g: Group): seq<Event>
  {
    g.eventos
  }

  /** The events of the groups, group after group. */
  function AllEvents(gs: seq<Group>): seq<Event>
  {
    Flatten(Map(gs, Eventos))
  }

  /** Days strictly ascending. */
  predicate Ascending(gs: seq<Group>)
  {
    forall i, j :: 0 <= i < j < |gs| ==> LexLe(gs[i].fecha, gs[j].fecha) && gs[i].fecha != gs[j].fecha
  }

  /** Group `k` is a non-empty run of events of its own day, its `saldoDia` is their balance and its
      `saldoAcumulado` the balance of every event up to and including the group. */
  predicate GroupOk(gs: seq<Group>, k: int)
    requires 0 <= k < |gs|
  {
    && gs[k].eventos != []
    && (forall e :: e in gs[k].eventos ==> e.fecha == gs[k].fecha)
    && gs[k].saldoDia == Balance(gs[k].eventos)
    && gs[k].saldoAcumulado == Balance(AllEvents(gs[..k + 1]))
  }

  /** `gs` splits the sorted run `evs` into ascending day groups. */
  predicate DayGroups(gs: seq<Group>, evs: seq<Event>)
  {
    && AllEvents(gs) == evs
    && Ascending(gs)
    && forall k :: 0 <= k < |gs| ==> GroupOk(gs, k)
  }

  lemma {:induction false} AllEventsSnoc(gs: seq<Group>, g: Group)
    ensures AllEvents(gs + [g]) == AllEvents(gs) + g.eventos
  {
    MapAppend(gs, [g], Eventos);
    FlattenAppend(Map(gs, Eventos), Map([g], Eventos));
    FlattenSingle(g.eventos);
  }

  /** Earlier groups keep their running balance when a later one changes or is added. */
  lemma {:induction false} KeepsPrefix(gs: seq<Group>, gs': seq<Group>, n: nat)
    requires n <= |gs| && n <= |gs'| && gs[..n] == gs'[..n]
    requires forall k :: 0 <= k < n ==> GroupOk(gs, k)
    ensures forall k :: 0 <= k < n ==> GroupOk(gs', k)
  {
    forall k | 0 <= k < n ensures GroupOk(gs', k) {
      assert GroupOk(gs, k);
      assert gs[k] == gs[..n][k] == gs'[k];
      assert gs[..k + 1] == gs[..n][..k + 1] == gs'[..k + 1];
    }
  }

  /** Replacing the last group by one with `e` appended to its events appends `e` to all the events. */
  lemma {:induction false} GrowEvents(gs: seq<Group>, g': Group, e: Event)
    requires gs != [] && g'.eventos == gs[|gs| - 1].eventos + [e]
    ensures AllEvents(gs[|gs| - 1 := g']) == AllEvents(gs) + [e]
  {
    var n := |gs| - 1;
    var last := gs[n];
    assert gs == gs[..n] + [last] && gs[n := g'] == gs[..n] + [g'];
    AllEventsSnoc(gs[..n], last);
    AllEventsSnoc(gs[..n], g');
    assert AllEvents(gs[..n]) + (last.eventos + [e]) == (AllEvents(gs[..n]) + last.eventos) + [e];
  }

  /** Growing the last group by `e`: the events and the last group's balances. */
  lemma {:induction false} GrowLast(gs: seq<Group>, evs: seq<Event>, e: Event)
    requires AllEvents(gs) == evs && gs != [] && GroupOk(gs, |gs| - 1) && e.fecha == gs[|gs| - 1].fecha
    ensures var n := |gs| - 1;
      var gs' := gs[n := Group(e.fecha, gs[n].eventos + [e], gs[n].saldoDia + Signed(e), Balance(evs + [e]))];
      AllEvents(gs') == evs + [e] && GroupOk(gs', n)
  {
    var n := |gs| - 1;
    var last := gs[n];
    var g' := Group(e.fecha, last.eventos + [e], last.saldoDia + Signed(e), Balance(evs + [e]));
    var gs' := gs[n := g'];
    GrowEvents(gs, g', e);
    GrowOk(last, g', e);
    assert gs'[..n + 1] == gs';
  }

  /** The grown group keeps one day and its day balance. */
  lemma {:induction false} GrowOk(last: Group, g': Group, e: Event)
    requires last.eventos != [] && (forall x :: x in last.eventos ==> x.fecha == last.fecha)
    requires last.saldoDia == Balance(last.eventos) && e.fecha == last.fecha
    requires g'.fecha == e.fecha && g'.eventos == last.eventos + [e] && g'.saldoDia == last.saldoDia + Signed(e)
    ensures g'.eventos != [] && (forall x :: x in g'.eventos ==> x.fecha == g'.fecha)
    ensures g'.saldoDia == Balance(g'.eventos)
  {
    forall x | x in g'.eventos ensures x.fecha == g'.fecha {
      if x != e {
        assert x in last.eventos;
      }
    }
    BalanceSnoc(last.eventos, e);
  }

  /** On ascending days, an event of the last day is filed in the last group. */
  lemma {:induction false} AddToLastDay(gs: seq<Group>, e: Event, saldo: real)
    requires Ascending(gs) && gs != [] && e.fecha == gs[|gs| - 1].fecha
    ensures var n := |gs| - 1;
      AddEvent(gs, e, saldo) == gs[n := Group(e.fecha, gs[n].eventos + [e], gs[n].saldoDia + Signed(e), saldo)]
  {
    var n := |gs| - 1;
    assert DayIs(e.fecha)(gs[n]);
    var j := FindFirst(gs, DayIs(e.fecha));
    assert j.Some? && gs[j.value].fecha == gs[n].fecha;
    assert j.value == n;
  }

  /** An event of a day no group has opens a new group at the end. */
  lemma {:induction false} AddToNewDay(gs: seq<Group>, e: Event, saldo: real)
    requires forall k :: 0 <= k < |gs| ==> gs[k].fecha != e.fecha
    ensures AddEvent(gs, e, saldo) == gs + [Group(e.fecha, [e], Signed(e), saldo)]
  {
    forall k | 0 <= k < |gs| ensures !DayIs(e.fecha)(gs[k]) {
    }
    assert FindFirst(gs, DayIs(e.fecha)).None?;
  }

  /** An event of the last group's day joins that group. */
  lemma {:induction false} StepSameDay(gs: seq<Group>, evs: seq<Event>, e: Event)
    requires DayGroups(gs, evs) && gs != [] && e.fecha == gs[|gs| - 1].fecha
    ensures DayGroups(AddEvent(gs, e, Balance(evs + [e])), evs + [e])
  {
    var n := |gs| - 1;
    var gs' := AddEvent(gs, e, Balance(evs + [e]));
    AddToLastDay(gs, e, Balance(evs + [e]));
    assert forall k :: 0 <= k < |gs| ==> gs'[k].fecha == gs[k].fecha;
    assert GroupOk(gs, n);
    GrowLast(gs, evs, e);
    assert gs[..n] == gs'[..n];
    KeepsPrefix(gs, gs', n);
    SameDays(gs, gs');
    forall k | 0 <= k < |gs'| ensures GroupOk(gs', k) {
      if k == n {
      }
    }
  }

  lemma {:induction false} SameDays(gs: seq<Group>, gs': seq<Group>)
    requires Ascending(gs) && |gs| == |gs'| && forall k :: 0 <= k < |gs| ==> gs'[k].fecha == gs[k].fecha
    ensures Ascending(gs')
  {
  }

  /** The new group of an event of a later day: the events and its balances. */
  lemma {:induction false} NewLast(gs: seq<Group>, evs: seq<Event>, e: Event)
    requires AllEvents(gs) == evs
    ensures var gs' := gs + [Group(e.fecha, [e], Signed(e), Balance(evs + [e]))];
      AllEvents(gs') == evs + [e] && GroupOk(gs', |gs|)
  {
    var g' := Group(e.fecha, [e], Signed(e), Balance(evs + [e]));
    var gs' := gs + [g'];
    AllEventsSnoc(gs, g');
    SumSingle(e, Signed);
    assert gs'[..|gs| + 1] == gs';
  }

  /** An event of a later day opens a new group. */
  lemma {:induction false} StepNewDay(gs: seq<Group>, evs: seq<Event>, e: Event)
    requires DayGroups(gs, evs)
    requires gs != [] ==> LexLe(gs[|gs| - 1].fecha, e.fecha) && e.fecha != gs[|gs| - 1].fecha
    ensures DayGroups(AddEvent(gs, e, Balance(evs + [e])), evs + [e])
  {
    forall k | 0 <= k < |gs| ensures gs[k].fecha != e.fecha && LexLe(gs[k].fecha, e.fecha) {
      var n := |gs| - 1;
      if k < n {
        LexLeTransitive(gs[k].fecha, gs[n].fecha, e.fecha);
        if gs[k].fecha == e.fecha {
          LexLeAntisymmetric(gs[k].fecha, gs[n].fecha);
        }
      }
    }
    var gs' := AddEvent(gs, e, Balance(evs + [e]));
    AddToNewDay(gs, e, Balance(evs + [e]));
    NewLast(gs, evs, e);
    assert gs'[..|gs|] == gs;
    KeepsPrefix(gs, gs', |gs|);
    assert Ascending(gs');
    forall k | 0 <= k < |gs'| ensures GroupOk(gs', k) {
      if k == |gs| {
      }
    }
  }

  /** On events sorted by date, the grouping splits them into ascending days. */
  lemma {:induction false} SortedGroups(evs: seq<Event>)
    requires Sorted(evs, EventLe)
    ensures DayGroups(GroupsOf(evs), evs)
    decreases |evs|
  {
    if evs != [] {
      var n := |evs| - 1;
      var init, e := evs[..n], evs[n];
      assert evs == init + [e];
      assert Sorted(init, EventLe);
      SortedGroups(init);
      var gs := GroupsOf(init);
      if gs == [] {
        StepNewDay(gs, init, e);
      } else {
        LastEventDay(gs, init);
        assert EventLe(evs[n - 1], evs[n]);
        if e.fecha == gs[|gs| - 1].fecha {
          StepSameDay(gs, init, e);
        } else {
          StepNewDay(gs, init, e);
        }
      }
    }
  }

  /** The last event is on the last group's day. */
  lemma {:induction false} LastEventDay(gs: seq<Group>, evs: seq<Event>)
    requires DayGroups(gs, evs) && gs != []
    ensures evs != [] && evs[|evs| - 1].fecha == gs[|gs| - 1].fecha
  {
    var last := gs[|gs| - 1];
    assert gs == gs[..|gs| - 1] + [last];
    AllEventsSnoc(gs[..|gs| - 1], last);
    assert GroupOk(gs, |gs| - 1);
    assert evs == AllEvents(gs[..|gs| - 1]) + last.eventos;
    assert evs[|evs| - 1] == last.eventos[|last.eventos| - 1];
    assert last.eventos[|last.eventos| - 1] in last.eventos;
  }

  lemma {:induction false} RunningStep(gs: seq<Group>, k: nat)
    requires k < |gs| && GroupOk(gs, k) && (k > 0 ==> GroupOk(gs, k - 1))
    ensures gs[k].saldoAcumulado == (if k == 0 then 0.0 else gs[k - 1].saldoAcumulado) + gs[k].saldoDia
  {
    assert gs[..k + 1] == gs[..k] + [gs[k]];
    AllEventsSnoc(gs[..k], gs[k]);
    SumAppend(AllEvents(gs[..k]), gs[k].eventos, Signed);
    if k > 0 {
      assert gs[..k] == gs[..k - 1 + 1];
    } else {
      assert gs[..0] == [];
    }
  }

  /** `saldoAcumulado` runs from group to group: each adds its own `saldoDia` to the one before,
      starting from 0, and the last one is the balance of all the events. */
  lemma {:induction false} RunningBalance(gs: seq<Group>, evs: seq<Event>)
    requires DayGroups(gs, evs)
    ensures gs != [] ==> gs[0].saldoAcumulado == gs[0].saldoDia
    ensures forall k :: 0 < k < |gs| ==> gs[k].saldoAcumulado == gs[k - 1].saldoAcumulado + gs[k].saldoDia
    ensures gs == [] <==> evs == []
    ensures gs != [] ==> gs[|gs| - 1].saldoAcumulado == Balance(evs)
  {
    forall k | 0 <= k < |gs|
      ensures gs[k].saldoAcumulado == (if k == 0 then 0.0 else gs[k - 1].saldoAcumulado) + gs[k].saldoDia
    {
      assert GroupOk(gs, k);
      if k > 0 {
        assert GroupOk(gs, k - 1);
      }
      RunningStep(gs, k);
    }
    if gs != [] {
      assert GroupOk(gs, 0);
      RunningStep(gs, 0);
      assert GroupOk(gs, |gs| - 1);
      assert gs[..|gs|] == gs;
      AllEventsSnoc(gs[..|gs| - 1], gs[|gs| - 1]);
      assert gs == gs[..|gs| - 1] + [gs[|gs| - 1]];
      assert AllEvents(gs) == AllEvents(gs[..|gs| - 1]) + gs[|gs| - 1].eventos;
      assert |evs| >= |gs[|gs| - 1].eventos| > 0;
    } else {
      assert AllEvents(gs) == [];
    }
  }

  /** Ascending groups are already in the order of the second sort, which therefore changes nothing. */
  lemma {:induction false} SecondSortIsIdentity(evs: seq<Event>)
    requires Sorted(evs, EventLe)
    ensures SortBy(GroupsOf(evs), GroupLe) == GroupsOf(evs)
  {
    SortedGroups(evs);
    SortByOfSorted(GroupsOf(evs), GroupLe);
  }

  // ---------------------------------------------------------------- the summary

  datatype Summary = Summary(totalIngresos: real, totalGastosFijos: real, totalGastosVariables: real, balance: real)

  /** The summary of `cargarEventos`: the amounts of each kind of event and their balance. */
  function SummaryOf(evs: seq<Event>): Summary
  {
    var ti := Sum(Filter(evs, IsKind(Ingreso)), Cantidad);
    var tf := Sum(Filter(evs, IsKind(GastoFijo)), Cantidad);
    var tv := Sum(Filter(evs, IsKind(GastoVariable)), Cantidad);
    Summary(ti, tf, tv, ti - tf - tv)
  }

  /** The summary's balance is the signed total of the events. */
  lemma {:induction false} SummaryBalance(evs: seq<Event>)
    ensures SummaryOf(evs).balance == Balance(evs)
  {
    if evs != [] {
      SummaryBalance(evs[1..]);
    }
  }

  function KindAmount(k: Kind): Event -> real
  {
    (e: Event) => if e.tipo == k then e.cantidad else 0.0
  }

  /** The amount of the events of kind `k` does not depend on their order. */
  lemma {:induction false} KindTotalPermutation(s: seq<Event>, t: seq<Event>, k: Kind)
    requires multiset(s) == multiset(t)
    ensures Sum(Filter(s, IsKind(k)), Cantidad) == Sum(Filter(t, IsKind(k)), Cantidad)
  {
    SumFilter(s, IsKind(k), Cantidad, KindAmount(k));
    SumFilter(t, IsKind(k), Cantidad, KindAmount(k));
    SumPermutation(s, t, KindAmount(k));
  }

  /** The summary's totals, from the inputs: the base income plus the month's incomes, the active
      fixed expenses (`calcularTotalGastosFijos`) and the month's variable expenses. */
  lemma {:induction false} SummaryTotals(c: Config, fijos: seq<FixedExpense>, variables: seq<VariableExpense>,
                      ingresos: seq<Income>, year: int, month: int)
    ensures var mes := ReferenceMonth(c);
      var r := SummaryOf(SortBy(EventsOf(c, fijos, variables, ingresos, year, month), EventLe));
      && r.totalIngresos == (if HasBase(c) then c.incomeBase.value else 0.0)
                            + Sum(Filter(ingresos, IncomeIn(mes)), IncomeAmount)
      && r.totalGastosFijos == Calculations.TotalFixed(fijos)
      && r.totalGastosVariables == Sum(Filter(variables, VariableIn(mes)), VariableAmount)
  {
    var mes := ReferenceMonth(c);
    var evs := EventsOf(c, fijos, variables, ingresos, year, month);
    var sorted := SortBy(evs, EventLe);
    KindTotalPermutation(sorted, evs, Ingreso);
    KindTotalPermutation(sorted, evs, GastoFijo);
    KindTotalPermutation(sorted, evs, GastoVariable);
    EventsByKind(c, fijos, variables, ingresos, year, month);
    var ins := Filter(ingresos, IncomeIn(mes));
    SumAppend(BaseEvents(c), Map(ins, IncomeEvent), Cantidad);
    if HasBase(c) {
      SumSingle(BaseEvent(mes, c.incomeBase.value), Cantidad);
    }
    SumMap(ins, IncomeEvent, Cantidad, IncomeAmount);
    SumMap(Filter(fijos, Calculations.ActiveFn()), FixedEventAt(mes, year, month), Cantidad, FixedAmount);
    SumMap(Filter(variables, VariableIn(mes)), VariableEvent, Cantidad, VariableAmount);
  }

  // ---------------------------------------------------------------- cargarEventos

  /** `cargarEventos`: builds the events, sorts them by date, groups them by day with the running
      balance, and summarises them. `year` and `month` are the numbers of the reference month. */
  method LoadEvents(c: Config, fijos: seq<FixedExpense>, variables: seq<VariableExpense>,
                    ingresos: seq<Income>, year: int, month: int) returns (eventos: seq<Group>, resumen: Summary)
    ensures var evs := SortBy(EventsOf(c, fijos, variables, ingresos, year, month), EventLe);
      && multiset(evs) == multiset(EventsOf(c, fijos, variables, ingresos, year, month))
      && Sorted(evs, EventLe)
      && eventos == GroupsOf(evs)
      && DayGroups(eventos, evs)
      && resumen == SummaryOf(evs)
      && resumen.balance == Balance(evs)
      && (eventos != [] ==> eventos[|eventos| - 1].saldoAcumulado == resumen.balance)
  {
    var todos := BuildEvents(c, fijos, variables, ingresos, year, month);
    var ordenados := SortBy(todos, EventLe);
    EventLeTotalPreorder();
    SortBySorted(todos, EventLe);
    eventos := GroupByDay(ordenados);
    SecondSortIsIdentity(ordenados);
    SortedGroups(ordenados);
    RunningBalance(eventos, ordenados);
    SummaryBalance(ordenados);
    resumen := SummaryOf(ordenados);
  }
}
