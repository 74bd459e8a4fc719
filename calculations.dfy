/** Monthly sums, the balance formula and the charge-day rule of `src/utils/calculations.js`. */
module Calculations {
  import opened Seqs
  import opened Text
  import opened Records

  /** An item is in month `mes` (a `"YYYY-MM"` prefix) when it has a date starting with it. */
  predicate HasMonth(fecha: string, mes: string)
  {
    fecha != "" && StartsWith(fecha, mes)
  }

  function InMonth<T>(fecha: T -> string, mes: string): T -> bool
  {
    x => HasMonth(fecha(x), mes)
  }

  /** `filtrarPorMes`: the items dated in month `mes`, in their original order. */
  function FilterByMonth<T>(items: seq<T>, fecha: T -> string, mes: string): (r: seq<T>)
    ensures forall i :: 0 <= i < |r| ==> r[i] in items && HasMonth(fecha(r[i]), mes)
    ensures forall i :: 0 <= i < |items| && HasMonth(fecha(items[i]), mes) ==> items[i] in r
  {
    FilterMembers(items, InMonth(fecha, mes));
    Filter(items, InMonth(fecha, mes))
  }

  /** Order is preserved: filtering a concatenation filters each part in turn. */
  lemma {:induction false} FilterByMonthAppend<T>(a: seq<T>, b: seq<T>, fecha: T -> string, mes: string)
    ensures FilterByMonth(a + b, fecha, mes) == FilterByMonth(a, fecha, mes) + FilterByMonth(b, fecha, mes)
    ensures FilterByMonth([], fecha, mes) == []
  {
    FilterAppend(a, b, InMonth(fecha, mes));
  }

  lemma {:induction false} FilterByMonthSingle<T>(x: T, fecha: T -> string, mes: string)
    ensures FilterByMonth([x], fecha, mes) == if HasMonth(fecha(x), mes) then [x] else []
  {
    FilterSingle(x, InMonth(fecha, mes));
  }

  function ActiveFn(): FixedExpense -> bool { g => IsActive(g) }

  /** `calcularTotalGastosFijos`: the sum of the active fixed expenses. */
  function TotalFixed(gs: seq<FixedExpense>): real
  {
    Sum(Filter(gs, ActiveFn()), FixedAmount)
  }

  /** `calcularTotalGastosVariables`. */
  function TotalVariables(gs: seq<VariableExpense>, mes: string): real
  {
    Sum(FilterByMonth(gs, VariableDate, mes), VariableAmount)
  }

  /** `calcularTotalIngresos`. */
  function TotalIncomes(ins: seq<Income>, mes: string): real
  {
    Sum(FilterByMonth(ins, IncomeDate, mes), IncomeAmount)
  }

  /** Only active fixed expenses count: adding one adds its amount, adding any other adds nothing. */
  lemma {:induction false} TotalFixedStep(gs: seq<FixedExpense>, g: FixedExpense)
    ensures TotalFixed(gs + [g]) == TotalFixed(gs) + (if IsActive(g) then g.cantidad else 0.0)
  {
    FilterAppend(gs, [g], ActiveFn());
    FilterSingle(g, ActiveFn());
    SumAppend(Filter(gs, ActiveFn()), Filter([g], ActiveFn()), FixedAmount);
    SumSingle(g, FixedAmount);
  }

  /** Only items of the month count towards the variable-expense total. */
  lemma {:induction false} TotalVariablesStep(gs: seq<VariableExpense>, g: VariableExpense, mes: string)
    ensures TotalVariables(gs + [g], mes)
         == TotalVariables(gs, mes) + (if HasMonth(g.fecha, mes) then g.cantidad else 0.0)
  {
    FilterByMonthAppend(gs, [g], VariableDate, mes);
    FilterByMonthSingle(g, VariableDate, mes);
    SumAppend(FilterByMonth(gs, VariableDate, mes), FilterByMonth([g], VariableDate, mes), VariableAmount);
    SumSingle(g, VariableAmount);
  }

  /** Only items of the month count towards the income total. */
  lemma {:induction false} TotalIncomesStep(ins: seq<Income>, i: Income, mes: string)
    ensures TotalIncomes(ins + [i], mes)
         == TotalIncomes(ins, mes) + (if HasMonth(i.fecha, mes) then i.cantidad else 0.0)
  {
    FilterByMonthAppend(ins, [i], IncomeDate, mes);
    FilterByMonthSingle(i, IncomeDate, mes);
    SumAppend(FilterByMonth(ins, IncomeDate, mes), FilterByMonth([i], IncomeDate, mes), IncomeAmount);
    SumSingle(i, IncomeAmount);
  }

  /** `calcularSaldoRestante`: base income plus the month's incomes, minus the
      active fixed expenses (of any month) and the month's variable expenses. */
  function RemainingBalance(incomeBase: real, mesActual: string, fijos: seq<FixedExpense>,
                            variables: seq<VariableExpense>, ingresos: seq<Income>): real
  {
    incomeBase + TotalIncomes(ingresos, mesActual) - TotalFixed(fijos) - TotalVariables(variables, mesActual)
  }

  /** Fixed expenses are not filtered by month: an active one dated anywhere lowers the balance. */
  lemma {:induction false} RemainingBalanceFixedAnyMonth(incomeBase: real, mes: string, fijos: seq<FixedExpense>,
                                      vs: seq<VariableExpense>, ins: seq<Income>, g: FixedExpense)
    requires IsActive(g)
    ensures RemainingBalance(incomeBase, mes, fijos + [g], vs, ins)
         == RemainingBalance(incomeBase, mes, fijos, vs, ins) - g.cantidad
  {
    TotalFixedStep(fijos, g);
  }

  datatype MonthSummary = MonthSummary(
    totalIngresos: real,
    totalGastosFijos: real,
    totalGastosVariables: real,
    totalGastos: real,
    saldoRestante: real)

  /** `obtenerResumenMes`. */
  function MonthSummaryOf(incomeBase: real, mesActual: string, fijos: seq<FixedExpense>,
                          variables: seq<VariableExpense>, ingresos: seq<Income>): (r: MonthSummary)
    ensures r.totalIngresos == incomeBase + TotalIncomes(ingresos, mesActual)
    ensures r.totalGastosFijos == TotalFixed(fijos)
    ensures r.totalGastosVariables == TotalVariables(variables, mesActual)
    ensures r.totalGastos == r.totalGastosFijos + r.totalGastosVariables
    ensures r.saldoRestante == r.totalIngresos - r.totalGastos
    ensures r.saldoRestante == RemainingBalance(incomeBase, mesActual, fijos, variables, ingresos)
  {
    var ti := incomeBase + TotalIncomes(ingresos, mesActual);
    var tf := TotalFixed(fijos);
    var tv := TotalVariables(variables, mesActual);
    MonthSummary(ti, tf, tv, tf + tv, ti - tf - tv)
  }

  /** The Gregorian leap-year rule. */
  predicate IsLeapYear(y: int)
  {
    y % 4 == 0 && (y % 100 != 0 || y % 400 == 0)
  }

  /** Days in month `m` (1..12) of year `y`. */
  function DaysInMonth(y: int, m: int): (d: int)
    requires 1 <= m <= 12
  {
    if m == 2 then (if IsLeapYear(y) then 29 else 28)
    else if m == 4 || m == 6 || m == 9 || m == 11 then 30
    else 31
  }

  /** `new Date(año, mesIndex, 0).getDate()`: the last day of month `mesIndex`
      (1-based), where a month outside 1..12 rolls over into a neighbouring year. */
  function LastDayOfMonth(year: int, mesIndex: int): (d: int)
    ensures 28 <= d <= 31
  {
    DaysInMonth(year + (mesIndex - 1) / 12, (mesIndex - 1) % 12 + 1)
  }

  lemma {:induction false} LastDayOfMonthValues(year: int, m: int)
    requires 1 <= m <= 12
    ensures LastDayOfMonth(year, m) == DaysInMonth(year, m)
    ensures m == 2 ==> (LastDayOfMonth(year, m) == 29 <==> IsLeapYear(year))
    ensures m != 2 ==> LastDayOfMonth(year, m) >= 30
  {
  }

  /** `calcularDiaRealCobro`: a charge day clamped to the end of the month. */
  function RealChargeDay(diaDelMes: int, year: int, mesIndex: int): (r: int)
    ensures r <= LastDayOfMonth(year, mesIndex) && r <= diaDelMes
    ensures r == diaDelMes || r == LastDayOfMonth(year, mesIndex)
    ensures diaDelMes <= LastDayOfMonth(year, mesIndex) ==> r == diaDelMes
    ensures 1 <= diaDelMes ==> 1 <= r <= 31
  {
    var last := LastDayOfMonth(year, mesIndex);
    if diaDelMes < last then diaDelMes else last
  }

  /** Day 31 falls on the 29th of February in a leap year and on the 28th otherwise. */
  lemma {:induction false} ChargeDayFebruary(year: int)
    ensures RealChargeDay(31, year, 2) == if IsLeapYear(year) then 29 else 28
  {
  }
}
