/** The charge calendar of `src/components/Calendar/CalendarView.jsx`: active fixed expenses
    filed under the day they are really charged, the month grid, the month total, and the
    navigation and day-selection state. The weekday of the month's first day (`getDay()`,
    0 = Sunday) and the expense list read from storage are inputs. */
module CalendarView {
  import opened Wrappers
  import opened Seqs
  import opened Records
  import opened Calculations

  // ---------------------------------------------------------------- charges per day

  /** The day of month `mes` (0-based) of year `anio` an expense is charged on. */
  function ChargeDayOf(g: FixedExpense, anio: int, mes: int): int
  {
    RealChargeDay(g.diaDelMes, anio, mes + 1)
  }

  function OnDay(anio: int, mes: int, d: int): FixedExpense -> bool
  {
    g => ChargeDayOf(g, anio, mes) == d
  }

  function OnDays(anio: int, mes: int, ds: set<int>): FixedExpense -> bool
  {
    g => ChargeDayOf(g, anio, mes) in ds
  }

  /** The expenses of `activos`, in order, charged on day `d`. */
  function ChargesOn(activos: seq<FixedExpense>, anio: int, mes: int, d: int): seq<FixedExpense>
  {
    Filter(activos, OnDay(anio, mes, d))
  }

  /** `gastosFijos.filter(g => g.estado === 'activo')`. */
  function ActiveFixed(gastos: seq<FixedExpense>): seq<FixedExpense>
  {
    Filter(gastos, ActiveFn())
  }

  /** `mapa` files `activos` by charge day: its keys are exactly the days something is charged
      on, and each key holds the expenses charged that day, in their original order. */
  ghost predicate IsChargeMap(mapa: map<int, seq<FixedExpense>>, activos: seq<FixedExpense>, anio: int, mes: int)
  {
    && (forall d :: d in mapa <==> ChargesOn(activos, anio, mes, d) != [])
    && (forall d :: d in mapa ==> mapa[d] == ChargesOn(activos, anio, mes, d))
  }

  lemma {:induction false} ChargesStep(a: seq<FixedExpense>, g: FixedExpense, anio: int, mes: int)
    ensures forall d ::
      ChargesOn(a + [g], anio, mes, d) == ChargesOn(a, anio, mes, d) + (if ChargeDayOf(g, anio, mes) == d then [g] else [])
  {
    forall d ensures ChargesOn(a + [g], anio, mes, d)
      == ChargesOn(a, anio, mes, d) + (if ChargeDayOf(g, anio, mes) == d then [g] else [])
    {
      FilterAppend(a, [g], OnDay(anio, mes, d));
      FilterSingle(g, OnDay(anio, mes, d));
    }
  }

  /** `cobrosPorDia`: walks the active fixed expenses and pushes each onto the list of its real
      charge day, creating the list the first time the day is met. */
  method ChargesByDay(gastosFijos: seq<FixedExpense>, anio: int, mes: int) returns (mapa: map<int, seq<FixedExpense>>)
    ensures IsChargeMap(mapa, ActiveFixed(gastosFijos), anio, mes)
  {
    var gastos := Filter(gastosFijos, ActiveFn());
    mapa := map[];
    for i := 0 to |gastos|
      invariant IsChargeMap(mapa, gastos[..i], anio, mes)
    {
      var gasto := gastos[i];
      var diaReal := RealChargeDay(gasto.diaDelMes, anio, mes + 1);
      if diaReal !in mapa {
        mapa := mapa[diaReal := []];
      }
      mapa := mapa[diaReal := mapa[diaReal] + [gasto]];
      ChargesStep(gastos[..i], gasto, anio, mes);
      assert gastos[..i + 1] == gastos[..i] + [gasto];
    }
    assert gastos[..|gastos|] == gastos;
  }

  /** Every active expense is filed under its own charge day and under no other one, and only
      active expenses are filed. */
  lemma {:induction false} ChargeMapPlacement(mapa: map<int, seq<FixedExpense>>, gastos: seq<FixedExpense>, anio: int, mes: int)
    requires IsChargeMap(mapa, ActiveFixed(gastos), anio, mes)
    ensures forall g :: g in gastos && IsActive(g) ==>
      ChargeDayOf(g, anio, mes) in mapa && g in mapa[ChargeDayOf(g, anio, mes)]
    ensures forall d, g :: d in mapa && g in mapa[d] ==> g in gastos && IsActive(g) && ChargeDayOf(g, anio, mes) == d
  {
    var activos := ActiveFixed(gastos);
    FilterMembers(gastos, ActiveFn());
    forall g | g in gastos && IsActive(g)
      ensures ChargeDayOf(g, anio, mes) in mapa && g in mapa[ChargeDayOf(g, anio, mes)]
    {
      var i :| 0 <= i < |gastos| && gastos[i] == g;
      assert ActiveFn()(gastos[i]);
      var d := ChargeDayOf(g, anio, mes);
      FilterMembers(activos, OnDay(anio, mes, d));
      var j :| 0 <= j < |activos| && activos[j] == g;
      assert OnDay(anio, mes, d)(activos[j]);
      assert g in ChargesOn(activos, anio, mes, d);
    }
    forall d, g | d in mapa && g in mapa[d]
      ensures g in gastos && IsActive(g) && ChargeDayOf(g, anio, mes) == d
    {
      FilterMembers(activos, OnDay(anio, mes, d));
      var j :| 0 <= j < |mapa[d]| && mapa[d][j] == g;
      assert OnDay(anio, mes, d)(mapa[d][j]);
      var k :| 0 <= k < |activos| && activos[k] == g;
      assert ActiveFn()(activos[k]);
    }
  }

  // ---------------------------------------------------------------- month total

  /** `Object.values(mapa)` for an enumeration `keys` of the map's keys. */
  function ValuesOf(mapa: map<int, seq<FixedExpense>>, keys: seq<int>): seq<seq<FixedExpense>>
  {
    if keys == [] then [] else [if keys[0] in mapa then mapa[keys[0]] else []] + ValuesOf(mapa, keys[1..])
  }

  /** `totalMes`: the amounts of every list of the map, flattened and added up. */
  function MonthTotal(mapa: map<int, seq<FixedExpense>>, keys: seq<int>): real
  {
    Sum(Flatten(ValuesOf(mapa, keys)), FixedAmount)
  }

  /** The lists under distinct charge days together hold the expenses charged on one of them. */
  lemma {:induction false} ValuesPartition(mapa: map<int, seq<FixedExpense>>, activos: seq<FixedExpense>,
                                           anio: int, mes: int, keys: seq<int>)
    requires IsChargeMap(mapa, activos, anio, mes)
    requires forall i, j :: 0 <= i < j < |keys| ==> keys[i] != keys[j]
    ensures multiset(Flatten(ValuesOf(mapa, keys))) == multiset(Filter(activos, OnDays(anio, mes, set k | k in keys)))
    decreases |keys|
  {
    var ds := set k | k in keys;
    if keys == [] {
      FilterNone(activos, OnDays(anio, mes, ds));
    } else {
      var rest := keys[1..];
      var dr := set k | k in rest;
      ValuesPartition(mapa, activos, anio, mes, rest);
      var first := if keys[0] in mapa then mapa[keys[0]] else [];
      assert first == ChargesOn(activos, anio, mes, keys[0]);
      assert ValuesOf(mapa, keys) == [first] + ValuesOf(mapa, rest);
      assert Flatten(ValuesOf(mapa, keys)) == first + Flatten(ValuesOf(mapa, rest));
      assert keys[0] !in dr by {
        forall k | k in rest ensures k != keys[0] {
          var j :| 0 <= j < |rest| && rest[j] == k;
          assert keys[j + 1] == k;
        }
      }
      assert forall d :: d in ds <==> d == keys[0] || d in dr;
      FilterUnion(activos, OnDay(anio, mes, keys[0]), OnDays(anio, mes, dr), OnDays(anio, mes, ds));
    }
  }

  /** Whatever order `Object.values` lists the days in, the month total is the sum of the
      active fixed expenses, and the lists hold each active expense exactly as many times as
      the expense list does. */
  lemma {:induction false} MonthTotalIsActiveTotal(mapa: map<int, seq<FixedExpense>>, gastos: seq<FixedExpense>,
                                                   anio: int, mes: int, keys: seq<int>)
    requires IsChargeMap(mapa, ActiveFixed(gastos), anio, mes)
    requires (set k | k in keys) == mapa.Keys
    requires forall i, j :: 0 <= i < j < |keys| ==> keys[i] != keys[j]
    ensures multiset(Flatten(ValuesOf(mapa, keys))) == multiset(ActiveFixed(gastos))
    ensures MonthTotal(mapa, keys) == TotalFixed(gastos)
  {
    var activos := ActiveFixed(gastos);
    ValuesPartition(mapa, activos, anio, mes, keys);
    forall g | g in activos ensures OnDays(anio, mes, mapa.Keys)(g) {
      var d := ChargeDayOf(g, anio, mes);
      FilterMembers(activos, OnDay(anio, mes, d));
      var j :| 0 <= j < |activos| && activos[j] == g;
      assert OnDay(anio, mes, d)(activos[j]);
      assert ChargesOn(activos, anio, mes, d) != [];
    }
    FilterAll(activos, OnDays(anio, mes, mapa.Keys));
    SumPermutation(Flatten(ValuesOf(mapa, keys)), activos, FixedAmount);
  }

  // ---------------------------------------------------------------- one day

  /** `cobrosPorDia[dia] || []`. */
  function DayCharges(mapa: map<int, seq<FixedExpense>>, dia: int): seq<FixedExpense>
  {
    if dia in mapa then mapa[dia] else []
  }

  /** `totalDia` and `tieneCobros` of a grid cell. */
  function DayTotal(mapa: map<int, seq<FixedExpense>>, dia: int): real
  {
    Sum(DayCharges(mapa, dia), FixedAmount)
  }

  predicate HasPayment(mapa: map<int, seq<FixedExpense>>, dia: int)
  {
    |DayCharges(mapa, dia)| > 0
  }

  /** A day is marked as a payment day exactly when an active expense is charged on it, and its
      total is the sum of the active expenses charged on it. */
  lemma {:induction false} DayCell(mapa: map<int, seq<FixedExpense>>, gastos: seq<FixedExpense>, anio: int, mes: int, dia: int)
    requires IsChargeMap(mapa, ActiveFixed(gastos), anio, mes)
    ensures HasPayment(mapa, dia) <==> exists g :: g in gastos && IsActive(g) && ChargeDayOf(g, anio, mes) == dia
    ensures DayTotal(mapa, dia) == Sum(ChargesOn(ActiveFixed(gastos), anio, mes, dia), FixedAmount)
  {
    ChargeMapPlacement(mapa, gastos, anio, mes);
    if HasPayment(mapa, dia) {
      var g := mapa[dia][0];
      assert g in mapa[dia];
      assert g in gastos && IsActive(g) && ChargeDayOf(g, anio, mes) == dia;
    }
    if exists g :: g in gastos && IsActive(g) && ChargeDayOf(g, anio, mes) == dia {
      var g :| g in gastos && IsActive(g) && ChargeDayOf(g, anio, mes) == dia;
      assert g in DayCharges(mapa, dia);
    }
  }

  /** `cobrosDiaSeleccionado`: the charges of the selected day, none without a selection. */
  function SelectedCharges(mapa: map<int, seq<FixedExpense>>, diaSeleccionado: Option<int>): (r: seq<FixedExpense>)
    ensures diaSeleccionado.None? ==> r == []
    ensures diaSeleccionado.Some? && diaSeleccionado.value !in mapa ==> r == []
    ensures diaSeleccionado.Some? && diaSeleccionado.value in mapa ==> r == mapa[diaSeleccionado.value]
  {
    if diaSeleccionado.None? then [] else DayCharges(mapa, diaSeleccionado.value)
  }

  // ---------------------------------------------------------------- month grid

  /** `diaInicio`: how many blank cells precede day 1 in a Monday-first week. */
  function LeadingBlanks(primerDia: int): int
  {
    if primerDia - 1 < 0 then 6 else primerDia - 1
  }

  /** The offset is the weekday counted from Monday: Monday gives none, Sunday six. */
  lemma {:induction false} LeadingBlanksMondayFirst(primerDia: int)
    requires 0 <= primerDia <= 6
    ensures LeadingBlanks(primerDia) == (primerDia + 6) % 7
    ensures 0 <= LeadingBlanks(primerDia) <= 6
    ensures primerDia == 1 ==> LeadingBlanks(primerDia) == 0
    ensures primerDia == 0 ==> LeadingBlanks(primerDia) == 6
  {
  }

  /** `diasDelMes`: `diaInicio` blank cells (`None`), then the days 1 to the last day of the
      month, in order. */
  method DaysGrid(primerDia: int, anio: int, mes: int) returns (dias: seq<Option<int>>)
    requires 0 <= primerDia <= 6
    ensures |dias| == LeadingBlanks(primerDia) + LastDayOfMonth(anio, mes + 1)
    ensures forall i :: 0 <= i < LeadingBlanks(primerDia) ==> dias[i].None?
    ensures forall i :: LeadingBlanks(primerDia) <= i < |dias| ==> dias[i] == Some(i - LeadingBlanks(primerDia) + 1)
  {
    var diasEnMes := LastDayOfMonth(anio, mes + 1);
    var diaInicio := primerDia - 1;
    if diaInicio < 0 {
      diaInicio := 6;
    }
    dias := [];
    for i := 0 to diaInicio
      invariant |dias| == i && forall k :: 0 <= k < i ==> dias[k].None?
    {
      dias := dias + [None];
    }
    for dia := 1 to diasEnMes + 1
      invariant |dias| == diaInicio + dia - 1
      invariant forall k :: 0 <= k < diaInicio ==> dias[k].None?
      invariant forall k :: diaInicio <= k < |dias| ==> dias[k] == Some(k - diaInicio + 1)
    {
      dias := dias + [Some(dia)];
    }
  }

  /** Every day of the month has exactly one cell, and the grid spans four to six weeks. */
  lemma {:induction false} GridCells(primerDia: int, anio: int, mes: int, dias: seq<Option<int>>)
    requires 0 <= primerDia <= 6
    requires |dias| == LeadingBlanks(primerDia) + LastDayOfMonth(anio, mes + 1)
    requires forall i :: 0 <= i < LeadingBlanks(primerDia) ==> dias[i].None?
    requires forall i :: LeadingBlanks(primerDia) <= i < |dias| ==> dias[i] == Some(i - LeadingBlanks(primerDia) + 1)
    ensures forall d :: 1 <= d <= LastDayOfMonth(anio, mes + 1) ==>
      dias[LeadingBlanks(primerDia) + d - 1] == Some(d)
      && forall i :: 0 <= i < |dias| && dias[i] == Some(d) ==> i == LeadingBlanks(primerDia) + d - 1
    ensures 28 <= |dias| <= 37
  {
  }

  // ---------------------------------------------------------------- navigation and selection

  /** The calendar's state: the month shown (0-based), its year and the selected day. */
  datatype CalendarState = CalendarState(mes: int, anio: int, diaSeleccionado: Option<int>)

  predicate ValidMonth(s: CalendarState)
  {
    0 <= s.mes <= 11
  }

  /** `cambiarMes(direccion)`: past December comes January of the next year, before January
      December of the previous one; the selected day is cleared. */
  function ChangeMonth(s: CalendarState, direccion: int): (r: CalendarState)
    ensures r.diaSeleccionado.None?
    ensures s.mes + direccion > 11 ==> r.mes == 0 && r.anio == s.anio + 1
    ensures s.mes + direccion < 0 ==> r.mes == 11 && r.anio == s.anio - 1
    ensures 0 <= s.mes + direccion <= 11 ==> r.mes == s.mes + direccion && r.anio == s.anio
  {
    var nuevoMes := s.mes + direccion;
    if nuevoMes > 11 then CalendarState(0, s.anio + 1, None)
    else if nuevoMes < 0 then CalendarState(11, s.anio - 1, None)
    else CalendarState(nuevoMes, s.anio, None)
  }

  /** One step forward or back keeps the month in range and moves the absolute month count
      (year times twelve plus month) by exactly that step. */
  lemma {:induction false} ChangeMonthStep(s: CalendarState, direccion: int)
    requires ValidMonth(s) && (direccion == 1 || direccion == -1)
    ensures ValidMonth(ChangeMonth(s, direccion))
    ensures ChangeMonth(s, direccion).anio * 12 + ChangeMonth(s, direccion).mes == s.anio * 12 + s.mes + direccion
  {
  }

  /** Going forward and then back, or back and then forward, shows the same month again. */
  lemma {:induction false} ChangeMonthInverse(s: CalendarState)
    requires ValidMonth(s)
    ensures ChangeMonth(ChangeMonth(s, 1), -1) == s.(diaSeleccionado := None)
    ensures ChangeMonth(ChangeMonth(s, -1), 1) == s.(diaSeleccionado := None)
  {
  }

  /** Clicking day `dia`: the selected day is deselected, any other day becomes the selection. */
  function ClickDay(s: CalendarState, dia: int): (r: CalendarState)
    ensures r.mes == s.mes && r.anio == s.anio
    ensures s.diaSeleccionado == Some(dia) ==> r.diaSeleccionado.None?
    ensures s.diaSeleccionado != Some(dia) ==> r.diaSeleccionado == Some(dia)
  {
    s.(diaSeleccionado := if s.diaSeleccionado == Some(dia) then None else Some(dia))
  }

  /** Clicking the same day twice from no selection leaves nothing selected. */
  lemma {:induction false} ClickTwice(s: CalendarState, dia: int)
    requires s.diaSeleccionado.None?
    ensures ClickDay(ClickDay(s, dia), dia) == s
  {
  }
}
