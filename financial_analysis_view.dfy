/** `cargarAnalisis` of `src/components/FinancialAnalysis/FinancialAnalysis.jsx`: how the
    analysis panel turns the stored config, expenses and incomes into the arguments of
    `analizarDistribucionFinanciera`, and when it calls it at all. The stored collections and
    today's date are inputs. */
module FinancialAnalysisView {
  import opened Wrappers
  import opened Seqs
  import opened Text
  import opened Records
  import opened Calculations
  import FinancialAnalysis

  type Entry = FinancialAnalysis.Entry

  function StartsWithMonth<T>(fecha: T -> string, mes: string): T -> bool
  {
    x => StartsWith(fecha(x), mes)
  }

  /** `items.filter(x => x.fecha.startsWith(config.mesActual))`. */
  function DatedIn<T>(items: seq<T>, fecha: T -> string, mes: string): seq<T>
  {
    Filter(items, StartsWithMonth(fecha, mes))
  }

  /** `ingresosTotales`: the base income (0 when unset) plus the month's extra incomes. */
  function IncomeTotal(config: Config, ingresos: seq<Income>): real
  {
    config.incomeBase.GetOr(0.0) + TotalIncomes(DatedIn(ingresos, IncomeDate, config.mesActual), config.mesActual)
  }

  /** Filtering the incomes by month before `calcularTotalIngresos` filters them again changes
      nothing: the income total is the base income plus that month's incomes. */
  lemma {:induction false} IncomeTotalIsMonthIncome(config: Config, ingresos: seq<Income>)
    ensures IncomeTotal(config, ingresos) == config.incomeBase.GetOr(0.0) + TotalIncomes(ingresos, config.mesActual)
  {
    var mes := config.mesActual;
    forall x: Income
      ensures InMonth(IncomeDate, mes)(x) == (StartsWithMonth(IncomeDate, mes)(x) && InMonth(IncomeDate, mes)(x))
    {
      assert IncomeDate(x) == x.fecha;
      assert InMonth(IncomeDate, mes)(x) == HasMonth(IncomeDate(x), mes);
      assert StartsWithMonth(IncomeDate, mes)(x) == StartsWith(IncomeDate(x), mes);
    }
    FilterFilter(ingresos, StartsWithMonth(IncomeDate, mes), InMonth(IncomeDate, mes), InMonth(IncomeDate, mes));
  }

  /** `{categoria: g.categoria || g.tipo, monto: g.cantidad}`. */
  function FixedEntry(g: FixedExpense): Entry
  {
    FinancialAnalysis.Entry(OrElse(g.categoria, g.tipo), Some(g.cantidad))
  }

  /** `{categoria: g.categoria || 'General', monto: g.cantidad}`. */
  function VariableEntry(g: VariableExpense): Entry
  {
    FinancialAnalysis.Entry(OrElse(g.categoria, "General"), Some(g.cantidad))
  }

  /** `gastosParaAnalisis`: the active fixed expenses, then the month's variable expenses. */
  function AnalysisEntries(config: Config, fijos: seq<FixedExpense>, variables: seq<VariableExpense>): seq<Entry>
  {
    Map(Filter(fijos, ActiveFn()), FixedEntry) + Map(DatedIn(variables, VariableDate, config.mesActual), VariableEntry)
  }

  /** The entries are the active fixed expenses first and the variable expenses dated in the
      current month after them, one entry each, in order, with a category falling back to the
      fixed expense's type and to "General", and the expense's own amount. */
  lemma {:induction false} EntriesOfExpenses(config: Config, fijos: seq<FixedExpense>, variables: seq<VariableExpense>)
    ensures |AnalysisEntries(config, fijos, variables)|
            == |Filter(fijos, ActiveFn())| + |DatedIn(variables, VariableDate, config.mesActual)|
    ensures forall i :: 0 <= i < |Filter(fijos, ActiveFn())| ==>
      var g := Filter(fijos, ActiveFn())[i];
      g in fijos && IsActive(g)
      && AnalysisEntries(config, fijos, variables)[i].categoria == (if g.categoria != "" then g.categoria else g.tipo)
      && AnalysisEntries(config, fijos, variables)[i].monto == Some(g.cantidad)
    ensures forall i :: 0 <= i < |DatedIn(variables, VariableDate, config.mesActual)| ==>
      var g := DatedIn(variables, VariableDate, config.mesActual)[i];
      var e := AnalysisEntries(config, fijos, variables)[|Filter(fijos, ActiveFn())| + i];
      g in variables && StartsWith(g.fecha, config.mesActual)
      && e.categoria == (if g.categoria != "" then g.categoria else "General")
      && e.monto == Some(g.cantidad)
  {
    FilterMembers(fijos, ActiveFn());
    FilterMembers(variables, StartsWithMonth(VariableDate, config.mesActual));
    var a := Filter(fijos, ActiveFn());
    var v := DatedIn(variables, VariableDate, config.mesActual);
    forall i | 0 <= i < |a| ensures IsActive(a[i]) {
      assert ActiveFn()(a[i]);
    }
    forall i | 0 <= i < |v| ensures StartsWith(v[i].fecha, config.mesActual) {
      assert StartsWithMonth(VariableDate, config.mesActual)(v[i]);
      assert VariableDate(v[i]) == v[i].fecha;
    }
  }

  /** `cargarAnalisis`: with a total income of zero or less there is no analysis and the
      analyser is not called; otherwise the panel shows the analysis of that income and the
      prepared entries, with the analyser's default options and today's date. */
  function LoadAnalysis(config: Config, fijos: seq<FixedExpense>, variables: seq<VariableExpense>,
                        ingresos: seq<Income>, year: int, month: int, day: int): (r: Option<FinancialAnalysis.Analysis>)
    ensures r.None? <==> IncomeTotal(config, ingresos) <= 0.0
    ensures r.Some? ==>
      FinancialAnalysis.Analyze(Some(IncomeTotal(config, ingresos)), Some(AnalysisEntries(config, fijos, variables)),
                                FinancialAnalysis.Options(None, None, None), year, month, day) == Ok(r.value)
  {
    var total := IncomeTotal(config, ingresos);
    if total <= 0.0 then None
    else
      var resultado := FinancialAnalysis.Analyze(Some(total), Some(AnalysisEntries(config, fijos, variables)),
                                                 FinancialAnalysis.Options(None, None, None), year, month, day);
      Some(resultado.value)
  }

  /** A shown analysis is of the month's whole income and counts one entry per active fixed
      expense and per variable expense of the month. */
  lemma {:induction false} LoadedAnalysisCounts(config: Config, fijos: seq<FixedExpense>, variables: seq<VariableExpense>,
                                                ingresos: seq<Income>, year: int, month: int, day: int)
    requires LoadAnalysis(config, fijos, variables, ingresos, year, month, day).Some?
    ensures var a := LoadAnalysis(config, fijos, variables, ingresos, year, month, day).value;
      && a.ingresosMensuales == config.incomeBase.GetOr(0.0) + TotalIncomes(ingresos, config.mesActual)
      && a.totalGastosAnalizados == |Filter(fijos, ActiveFn())| + |DatedIn(variables, VariableDate, config.mesActual)|
  {
    IncomeTotalIsMonthIncome(config, ingresos);
    EntriesOfExpenses(config, fijos, variables);
  }
}
