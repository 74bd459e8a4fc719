/** The record store and fund ledger of `src/utils/storage.js`.

    The pure functions on `Ledger` describe what each storage operation leaves
    behind; class `Store` performs the same operations step by step on its
    fields and is proved against them. */
module Storage {
  import opened Wrappers
  import opened Seqs
  import opened Text
  import opened Records
  import opened Calculations

  /** `clasificacionCategorias`: bucket name to keyword list. */
  type KeywordTable = map<string, seq<string>>

  /** Everything kept in local storage. A collection that is absent reads as `[]`. */
  datatype Ledger = Ledger(
    config: Option<Config>,
    gastosFijos: seq<FixedExpense>,
    gastosVariables: seq<VariableExpense>,
    ingresos: seq<Income>,
    clasificacion: Option<KeywordTable>)

  const EmptyLedger := Ledger(None, [], [], [], None)

  // ---------------------------------------------------------------- config

  /** `parseFloat(config.fondoDisponible || 0)`. */
  function Fund(c: Config): real
  {
    c.fondoDisponible.GetOr(0.0)
  }

  /** `config.historialNominas || []`. */
  function History(c: Config): seq<Paycheck>
  {
    c.historialNominas.GetOr([])
  }

  /** The config a new user starts with; `now` is the ISO timestamp of the call. */
  function DefaultConfig(now: string): Config
  {
    Config(Some(0.0), Prefix(now, 7), Some(0.0), None, Prefix(now, 7), Some([]), true, now)
  }

  /** The one-shot migration of a legacy config to the continuous-fund model. */
  function Migrate(c: Config, now: string): Config
  {
    var fallbackMes := Prefix(now, 7);
    Config(
      Some(c.incomeBase.GetOr(0.0)),
      OrElse(c.mesActual, fallbackMes),
      Some(if c.fondoDisponible.Some? then c.fondoDisponible.value else c.incomeBase.GetOr(0.0)),
      if c.ultimaNomina == Some("") then None else c.ultimaNomina,
      OrElse(c.mesReferencia, OrElse(c.mesActual, fallbackMes)),
      Some(History(c)),
      true,
      now)
  }

  /** What `getConfig` returns, and what is in storage after it. */
  datatype ConfigRead = ConfigRead(config: Config, stored: Option<Config>)

  /** The fund a stored config stands for, whichever branch `getConfig` takes. */
  function StoredFund(stored: Option<Config>): real
  {
    match stored
    case None => 0.0
    case Some(c) =>
      if c.migratedToFundModel then Fund(c)
      else if c.fondoDisponible.Some? then c.fondoDisponible.value
      else c.incomeBase.GetOr(0.0)
  }

  /** The paycheck history a stored config stands for. */
  function StoredHistory(stored: Option<Config>): seq<Paycheck>
  {
    match stored
    case None => []
    case Some(c) => History(c)
  }

  /** `getConfig`: defaults when nothing is stored, the stored config when it is
      already migrated, and otherwise the migrated config, which is also saved. */
  function ReadConfig(stored: Option<Config>, now: string): (r: ConfigRead)
    ensures r.config.migratedToFundModel
    ensures stored.None? ==> r.stored.None? && r.config == DefaultConfig(now)
    ensures stored.Some? ==> r.stored == Some(r.config)
    ensures stored.Some? && stored.value.migratedToFundModel ==> r.config == stored.value
    ensures Fund(r.config) == StoredFund(stored)
    ensures History(r.config) == StoredHistory(stored)
  {
    match stored
    case None => ConfigRead(DefaultConfig(now), None)
    case Some(c) =>
      if c.migratedToFundModel then ConfigRead(c, stored)
      else var m := Migrate(c, now); ConfigRead(m, Some(m))
  }

  /** A new user starts with an empty, migrated fund and both months set to the clock's. */
  lemma {:induction false} ReadConfigAbsent(now: string)
    ensures var c := ReadConfig(None, now).config;
      Fund(c) == 0.0 && c.incomeBase == Some(0.0) && c.ultimaNomina.None? && History(c) == []
      && c.mesActual == Prefix(now, 7) && c.mesReferencia == Prefix(now, 7)
  {
  }

  /** A legacy config keeps its fund, else takes its base income, else 0; it keeps
      its month, base income and history, and its reference month falls back to
      the current month and then to the clock's. */
  lemma {:induction false} MigrationValues(c: Config, now: string)
    requires !c.migratedToFundModel
    ensures var m := ReadConfig(Some(c), now).config;
      && Fund(m) == (if c.fondoDisponible.Some? then c.fondoDisponible.value
                     else if c.incomeBase.Some? then c.incomeBase.value else 0.0)
      && (c.incomeBase.Some? ==> m.incomeBase == c.incomeBase)
      && (c.mesActual != "" ==> m.mesActual == c.mesActual)
      && (c.mesReferencia != "" ==> m.mesReferencia == c.mesReferencia)
      && (c.mesReferencia == "" && c.mesActual != "" ==> m.mesReferencia == c.mesActual)
      && (c.mesReferencia == "" && c.mesActual == "" ==> m.mesReferencia == Prefix(now, 7))
      && History(m) == History(c)
      && m.migrationDate == now
  {
  }

  /** Reading the config a second time returns what the first read returned and
      writes nothing new, whatever the clock says. */
  lemma {:induction false} ReadConfigIdempotent(stored: Option<Config>, t1: string, t2: string)
    requires stored.Some?
    ensures ReadConfig(ReadConfig(stored, t1).stored, t2) == ReadConfig(stored, t1)
  {
    var r1 := ReadConfig(stored, t1);
    assert r1.stored == Some(r1.config);
    assert r1.config.migratedToFundModel;
  }

  /** The fund and history a read yields do not depend on the clock. */
  lemma {:induction false} ReadConfigClockFree(stored: Option<Config>, t1: string, t2: string)
    ensures Fund(ReadConfig(stored, t1).config) == Fund(ReadConfig(stored, t2).config)
    ensures History(ReadConfig(stored, t1).config) == History(ReadConfig(stored, t2).config)
  {
  }

  /** Saving the config `getConfig` returns, with its fund set to `fund`. */
  function SaveFund(stored: Option<Config>, now: string, fund: real): (r: Option<Config>)
    ensures r.Some? && r.value.migratedToFundModel
    ensures StoredFund(r) == fund
    ensures StoredHistory(r) == StoredHistory(stored)
  {
    var c := ReadConfig(stored, now).config;
    Some(c.(fondoDisponible := Some(fund)))
  }

  // ---------------------------------------------------------------- id predicates

  function FixedIdIsNot(id: string): FixedExpense -> bool { (g: FixedExpense) => g.id != id }
  function FixedIdIs(id: string): FixedExpense -> bool { (g: FixedExpense) => g.id == id }
  function VariableIdIsNot(id: string): VariableExpense -> bool { (g: VariableExpense) => g.id != id }
  function VariableIdIs(id: string): VariableExpense -> bool { (g: VariableExpense) => g.id == id }
  function IncomeIdIsNot(id: string): Income -> bool { (i: Income) => i.id != id }

  /** No two variable expenses share an id. */
  predicate UniqueIds(vs: seq<VariableExpense>)
  {
    forall i, j :: 0 <= i < j < |vs| ==> vs[i].id != vs[j].id
  }

  /** `id` is not the id of any stored variable expense. */
  predicate FreshId(vs: seq<VariableExpense>, id: string)
  {
    forall i :: 0 <= i < |vs| ==> vs[i].id != id
  }

  // ---------------------------------------------------------------- fixed expenses

  /** The fields `updateGastoFijo` may overwrite; `None` leaves a field as it is. */
  datatype FixedPatch = FixedPatch(
    id: Option<string>,
    nombre: Option<string>,
    cantidad: Option<real>,
    diaDelMes: Option<int>,
    tipo: Option<string>,
    estado: Option<string>,
    categoria: Option<string>)

  /** `{ ...gasto, ...patch }`. */
  function MergeFixed(g: FixedExpense, p: FixedPatch): FixedExpense
  {
    FixedExpense(p.id.GetOr(g.id), p.nombre.GetOr(g.nombre), p.cantidad.GetOr(g.cantidad),
                 p.diaDelMes.GetOr(g.diaDelMes), p.tipo.GetOr(g.tipo),
                 p.estado.GetOr(g.estado), p.categoria.GetOr(g.categoria))
  }

  /** `saveGastoFijo`: appends the record under a new id. */
  function SaveFixed(l: Ledger, g: FixedExpense, id: string): (r: Ledger)
    ensures r.gastosFijos == l.gastosFijos + [g.(id := id)]
    ensures TotalFixed(r.gastosFijos) == TotalFixed(l.gastosFijos) + (if IsActive(g) then g.cantidad else 0.0)
    ensures r == l.(gastosFijos := r.gastosFijos)
  {
    TotalFixedStep(l.gastosFijos, g.(id := id));
    l.(gastosFijos := l.gastosFijos + [g.(id := id)])
  }

  /** `updateGastoFijo`: merges the patch into the first record with the id. */
  function UpdateFixed(l: Ledger, id: string, p: FixedPatch): (r: Ledger)
    ensures FindFirst(l.gastosFijos, FixedIdIs(id)).None? ==> r == l
    ensures r == l.(gastosFijos := r.gastosFijos)
    ensures |r.gastosFijos| == |l.gastosFijos|
    ensures forall i :: 0 <= i < |l.gastosFijos| ==>
      r.gastosFijos[i] == (if l.gastosFijos[i].id == id && forall j :: 0 <= j < i ==> l.gastosFijos[j].id != id
                           then MergeFixed(l.gastosFijos[i], p) else l.gastosFijos[i])
  {
    match FindFirst(l.gastosFijos, FixedIdIs(id))
    case None => l
    case Some(k) => l.(gastosFijos := l.gastosFijos[k := MergeFixed(l.gastosFijos[k], p)])
  }

  /** `deleteGastoFijo`: removes every record with the id. */
  function DeleteFixed(l: Ledger, id: string): (r: Ledger)
    ensures r == l.(gastosFijos := r.gastosFijos)
  {
    l.(gastosFijos := Filter(l.gastosFijos, FixedIdIsNot(id)))
  }

  /** After a delete no record has the id, every other record stays, and
      deleting an id nobody has changes nothing. */
  lemma {:induction false} DeleteFixedKeepsOthers(l: Ledger, id: string)
    ensures var r := DeleteFixed(l, id).gastosFijos;
      && (forall i :: 0 <= i < |r| ==> r[i].id != id && r[i] in l.gastosFijos)
      && (forall i :: 0 <= i < |l.gastosFijos| && l.gastosFijos[i].id != id ==> l.gastosFijos[i] in r)
      && ((forall i :: 0 <= i < |l.gastosFijos| ==> l.gastosFijos[i].id != id) ==> r == l.gastosFijos)
  {
    FilterMembers(l.gastosFijos, FixedIdIsNot(id));
    if forall i :: 0 <= i < |l.gastosFijos| ==> l.gastosFijos[i].id != id {
      FilterAll(l.gastosFijos, FixedIdIsNot(id));
    }
  }

  /** Deleting keeps the remaining records in their order: it acts on each part of a list separately. */
  lemma {:induction false} DeleteFixedOrder(a: seq<FixedExpense>, b: seq<FixedExpense>, id: string)
    ensures Filter(a + b, FixedIdIsNot(id)) == Filter(a, FixedIdIsNot(id)) + Filter(b, FixedIdIsNot(id))
  {
    FilterAppend(a, b, FixedIdIsNot(id));
  }

  // ---------------------------------------------------------------- variable expenses

  /** The fields `updateGastoVariable` merges; `None` leaves a field as it is, and the
      amount is always given. */
  datatype VariablePatch = VariablePatch(
    id: Option<string>,
    fecha: Option<string>,
    concepto: Option<string>,
    cantidad: real,
    categoria: Option<string>,
    deductedFromFund: Option<bool>)

  /** `{ ...gasto, ...patch }`. */
  function MergeVariable(g: VariableExpense, p: VariablePatch): VariableExpense
  {
    VariableExpense(p.id.GetOr(g.id), p.fecha.GetOr(g.fecha), p.concepto.GetOr(g.concepto),
                    p.cantidad, p.categoria.GetOr(g.categoria), p.deductedFromFund.GetOr(g.deductedFromFund))
  }

  /** `saveGastoVariable`: appends the expense flagged as deducted and lowers the
      fund by its amount, with no floor. */
  function SaveVariable(l: Ledger, g: VariableExpense, id: string, now: string): (r: Ledger)
    ensures r.gastosVariables == l.gastosVariables + [g.(id := id, deductedFromFund := true)]
    ensures StoredFund(r.config) == StoredFund(l.config) - g.cantidad
    ensures StoredHistory(r.config) == StoredHistory(l.config)
    ensures r.gastosFijos == l.gastosFijos && r.ingresos == l.ingresos && r.clasificacion == l.clasificacion
  {
    var fondo := Fund(ReadConfig(l.config, now).config);
    l.(gastosVariables := l.gastosVariables + [g.(id := id, deductedFromFund := true)],
       config := SaveFund(l.config, now, fondo - g.cantidad))
  }

  /** The fund may go negative. */
  lemma {:induction false} SaveVariableOverdraws(g: VariableExpense, now: string)
    requires g.cantidad == 10.0
    ensures StoredFund(SaveVariable(EmptyLedger, g, "1", now).config) == -10.0
  {
  }

  /** `updateGastoVariable`: merges the patch into the first expense with the id;
      if that expense was deducted, the fund moves by the old amount minus the new. */
  function UpdateVariable(l: Ledger, id: string, p: VariablePatch, now: string): (r: Ledger)
    ensures FindFirst(l.gastosVariables, VariableIdIs(id)).None? ==> r == l
    ensures FindFirst(l.gastosVariables, VariableIdIs(id)).Some? ==>
      var k := FindFirst(l.gastosVariables, VariableIdIs(id)).value;
      var old_ := l.gastosVariables[k];
      && r.gastosVariables == l.gastosVariables[k := MergeVariable(old_, p)]
      && (old_.deductedFromFund ==> StoredFund(r.config) == StoredFund(l.config) + old_.cantidad - p.cantidad)
      && (!old_.deductedFromFund ==> r.config == l.config)
    ensures StoredHistory(r.config) == StoredHistory(l.config)
    ensures r.gastosFijos == l.gastosFijos && r.ingresos == l.ingresos && r.clasificacion == l.clasificacion
  {
    match FindFirst(l.gastosVariables, VariableIdIs(id))
    case None => l
    case Some(k) =>
      var original := l.gastosVariables[k];
      var l' := l.(gastosVariables := l.gastosVariables[k := MergeVariable(original, p)]);
      if original.deductedFromFund then
        var fondo := Fund(ReadConfig(l.config, now).config);
        l'.(config := SaveFund(l.config, now, fondo + (original.cantidad - p.cantidad)))
      else l'
  }

  /** `deleteGastoVariable`: removes every expense with the id and, if the first
      of them was deducted, refunds its amount. */
  function DeleteVariable(l: Ledger, id: string, now: string): (r: Ledger)
    ensures FindFirst(l.gastosVariables, VariableIdIs(id)).None? ==> r == l
    ensures FindFirst(l.gastosVariables, VariableIdIs(id)).Some? ==>
      var g := l.gastosVariables[FindFirst(l.gastosVariables, VariableIdIs(id)).value];
      && r.gastosVariables == Filter(l.gastosVariables, VariableIdIsNot(id))
      && (g.deductedFromFund ==> StoredFund(r.config) == StoredFund(l.config) + g.cantidad)
      && (!g.deductedFromFund ==> r.config == l.config)
    ensures StoredHistory(r.config) == StoredHistory(l.config)
    ensures r.gastosFijos == l.gastosFijos && r.ingresos == l.ingresos && r.clasificacion == l.clasificacion
  {
    match FindFirst(l.gastosVariables, VariableIdIs(id))
    case None => l
    case Some(k) =>
      var g := l.gastosVariables[k];
      var l' := l.(gastosVariables := Filter(l.gastosVariables, VariableIdIsNot(id)));
      if g.deductedFromFund then
        var fondo := Fund(ReadConfig(l.config, now).config);
        l'.(config := SaveFund(l.config, now, fondo + g.cantidad))
      else l'
  }

  // ---------------------------------------------------------------- incomes and paychecks

  /** `saveIngreso`: appends the income under a new id; the fund is not touched. */
  function SaveIncome(l: Ledger, i: Income, id: string): (r: Ledger)
    ensures r.ingresos == l.ingresos + [i.(id := id)]
    ensures r == l.(ingresos := r.ingresos)
  {
    l.(ingresos := l.ingresos + [i.(id := id)])
  }

  /** A saved income counts towards its own month's total only, and not towards the fund. */
  lemma {:induction false} SaveIncomeTotals(l: Ledger, i: Income, id: string, mes: string)
    ensures TotalIncomes(SaveIncome(l, i, id).ingresos, mes)
         == TotalIncomes(l.ingresos, mes) + (if HasMonth(i.fecha, mes) then i.cantidad else 0.0)
    ensures StoredFund(SaveIncome(l, i, id).config) == StoredFund(l.config)
  {
    TotalIncomesStep(l.ingresos, i.(id := id), mes);
  }

  /** `deleteIngreso`: removes every income with the id. */
  function DeleteIncome(l: Ledger, id: string): (r: Ledger)
    ensures r == l.(ingresos := r.ingresos)
  {
    l.(ingresos := Filter(l.ingresos, IncomeIdIsNot(id)))
  }

  /** After a delete no income has the id, every other income stays, and
      deleting an id nobody has changes nothing. */
  lemma {:induction false} DeleteIncomeKeepsOthers(l: Ledger, id: string)
    ensures var r := DeleteIncome(l, id).ingresos;
      && (forall i :: 0 <= i < |r| ==> r[i].id != id && r[i] in l.ingresos)
      && (forall i :: 0 <= i < |l.ingresos| && l.ingresos[i].id != id ==> l.ingresos[i] in r)
      && ((forall i :: 0 <= i < |l.ingresos| ==> l.ingresos[i].id != id) ==> r == l.ingresos)
  {
    FilterMembers(l.ingresos, IncomeIdIsNot(id));
    if forall i :: 0 <= i < |l.ingresos| ==> l.ingresos[i].id != id {
      FilterAll(l.ingresos, IncomeIdIsNot(id));
    }
  }

  /** The history entry `registrarNomina` appends. */
  function PaycheckEntry(cantidad: Option<real>, fecha: string, now: string): Paycheck
  {
    Paycheck(OrElse(fecha, Prefix(now, 10)), cantidad.GetOr(0.0))
  }

  /** `registrarNomina`: adds the amount (0 when it is not a number) to the
      fund, records the date as `ultimaNomina` and appends one history entry. */
  function RegisterPaycheck(l: Ledger, cantidad: Option<real>, fecha: string, now: string): (r: Ledger)
    ensures r.config.Some? && r.config.value.migratedToFundModel
    ensures StoredFund(r.config) == StoredFund(l.config) + cantidad.GetOr(0.0)
    ensures StoredHistory(r.config) == StoredHistory(l.config) + [PaycheckEntry(cantidad, fecha, now)]
    ensures r.config.value.ultimaNomina == if fecha == "" then None else Some(fecha)
    ensures r.gastosFijos == l.gastosFijos && r.gastosVariables == l.gastosVariables
    ensures r.ingresos == l.ingresos && r.clasificacion == l.clasificacion
  {
    var c := ReadConfig(l.config, now).config;
    var monto := cantidad.GetOr(0.0);
    var c' := c.(fondoDisponible := Some(Fund(c) + monto),
                 ultimaNomina := if fecha == "" then None else Some(fecha),
                 historialNominas := Some(History(c) + [Paycheck(OrElse(fecha, Prefix(now, 10)), monto)]));
    l.(config := Some(c'))
  }

  /** A paycheck without a date is dated with the clock's day. */
  lemma {:induction false} PaycheckUndated(cantidad: Option<real>, now: string)
    ensures PaycheckEntry(cantidad, "", now).fecha == Prefix(now, 10)
  {
  }

  /** `getClasificacionCategorias`: the stored keyword table, `None` when absent. */
  function GetClassification(l: Ledger): (r: Option<KeywordTable>)
    ensures r.Some? <==> l.clasificacion.Some?
    ensures r.Some? ==> r.value == l.clasificacion.value
  {
    l.clasificacion
  }

  // ---------------------------------------------------------------- conservation

  function DeductedAmount(g: VariableExpense): real
  {
    if g.deductedFromFund then g.cantidad else 0.0
  }

  /** The sum of the stored expenses that were deducted from the fund. */
  function Deducted(vs: seq<VariableExpense>): real
  {
    Sum(vs, DeductedAmount)
  }

  /** The sum of the recorded paychecks. */
  function Paid(stored: Option<Config>): real
  {
    Sum(StoredHistory(stored), PaycheckAmount)
  }

  /** The fund before any recorded paycheck and any stored deducted expense;
      every fund operation keeps it fixed. */
  function Origin(l: Ledger): real
  {
    StoredFund(l.config) + Deducted(l.gastosVariables) - Paid(l.config)
  }

  lemma {:induction false} UniqueTail(vs: seq<VariableExpense>)
    requires vs != [] && UniqueIds(vs)
    ensures UniqueIds(vs[1..]) && FreshId(vs[1..], vs[0].id)
  {
    forall i, j | 0 <= i < j < |vs[1..]|
      ensures vs[1..][i].id != vs[1..][j].id
    {
      assert vs[1..][i] == vs[i + 1] && vs[1..][j] == vs[j + 1];
    }
    forall i | 0 <= i < |vs[1..]|
      ensures vs[1..][i].id != vs[0].id
    {
      assert vs[1..][i] == vs[i + 1];
    }
  }

  /** Removing expenses keeps the ids unique. */
  lemma {:induction false} UniqueAfterFilter(vs: seq<VariableExpense>, keep: VariableExpense -> bool)
    requires UniqueIds(vs)
    ensures UniqueIds(Filter(vs, keep))
  {
    if vs != [] {
      UniqueTail(vs);
      UniqueAfterFilter(vs[1..], keep);
      var rest := Filter(vs[1..], keep);
      FilterMembers(vs[1..], keep);
      if keep(vs[0]) {
        assert Filter(vs, keep) == [vs[0]] + rest;
        forall j | 0 <= j < |rest|
          ensures rest[j].id != vs[0].id
        {
          var m :| 0 <= m < |vs[1..]| && vs[1..][m] == rest[j];
        }
      }
    }
  }

  /** Saving under a fresh id keeps the ids unique. */
  lemma {:induction false} UniqueAfterAppend(vs: seq<VariableExpense>, g: VariableExpense)
    requires UniqueIds(vs) && FreshId(vs, g.id)
    ensures UniqueIds(vs + [g])
  {
  }

  /** Deleting the one expense with an id lowers the deducted sum by its share. */
  lemma {:induction false} DeleteUniqueDeducted(vs: seq<VariableExpense>, id: string, k: nat)
    requires UniqueIds(vs) && k < |vs| && vs[k].id == id
    ensures Deducted(Filter(vs, VariableIdIsNot(id))) == Deducted(vs) - DeductedAmount(vs[k])
  {
    forall i | 0 <= i < |vs| && i != k
      ensures VariableIdIsNot(id)(vs[i])
    {
      if i < k { assert vs[i].id != vs[k].id; } else { assert vs[k].id != vs[i].id; }
    }
    FilterRemovesOne(vs, k, VariableIdIsNot(id));
    SumRemoveOne(vs, k, DeductedAmount);
  }

  lemma {:induction false} SaveVariableConserves(l: Ledger, g: VariableExpense, id: string, now: string)
    ensures Origin(SaveVariable(l, g, id, now)) == Origin(l)
  {
    var g' := g.(id := id, deductedFromFund := true);
    SumAppend(l.gastosVariables, [g'], DeductedAmount);
    SumSingle(g', DeductedAmount);
  }

  /** A patch that leaves the deducted flag alone, and that either keeps the id or moves the
      expense to an id no stored expense has. */
  predicate TrackingPatch(vs: seq<VariableExpense>, id: string, p: VariablePatch)
  {
    p.deductedFromFund.None? && (p.id.None? || p.id.value == id || FreshId(vs, p.id.value))
  }

  lemma {:induction false} UpdateVariableConserves(l: Ledger, id: string, p: VariablePatch, now: string)
    requires p.deductedFromFund.None?
    ensures Origin(UpdateVariable(l, id, p, now)) == Origin(l)
  {
    match FindFirst(l.gastosVariables, VariableIdIs(id))
    case None =>
    case Some(k) =>
      SumUpdate(l.gastosVariables, k, MergeVariable(l.gastosVariables[k], p), DeductedAmount);
  }

  /** A patch that clears the deducted flag of a deducted expense loses its new amount:
      the fund moves only by the difference, while the expense stops counting as taken
      from it. With a fund of 90 and an expense of 10 patched to 10 and unflagged, the
      fund stays 90 and a later delete refunds nothing. */
  lemma {:induction false} UpdateClearingFlagLosesFund(l: Ledger, id: string, p: VariablePatch, now: string)
    requires FindFirst(l.gastosVariables, VariableIdIs(id)).Some?
    requires l.gastosVariables[FindFirst(l.gastosVariables, VariableIdIs(id)).value].deductedFromFund
    requires p.deductedFromFund == Some(false)
    ensures Origin(UpdateVariable(l, id, p, now)) == Origin(l) - p.cantidad
  {
    var k := FindFirst(l.gastosVariables, VariableIdIs(id)).value;
    SumUpdate(l.gastosVariables, k, MergeVariable(l.gastosVariables[k], p), DeductedAmount);
  }

  /** Replacing one expense keeps the ids unique when its id stays or is fresh. */
  lemma {:induction false} UniqueAfterUpdate(vs: seq<VariableExpense>, k: nat, g: VariableExpense)
    requires UniqueIds(vs) && k < |vs| && (g.id == vs[k].id || FreshId(vs, g.id))
    ensures UniqueIds(vs[k := g])
  {
  }

  lemma {:induction false} DeleteVariableConserves(l: Ledger, id: string, now: string)
    requires UniqueIds(l.gastosVariables)
    ensures Origin(DeleteVariable(l, id, now)) == Origin(l)
  {
    match FindFirst(l.gastosVariables, VariableIdIs(id))
    case None =>
    case Some(k) =>
      DeleteUniqueDeducted(l.gastosVariables, id, k);
  }

  lemma {:induction false} RegisterPaycheckConserves(l: Ledger, cantidad: Option<real>, fecha: string, now: string)
    ensures Origin(RegisterPaycheck(l, cantidad, fecha, now)) == Origin(l)
  {
    var e := PaycheckEntry(cantidad, fecha, now);
    SumAppend(StoredHistory(l.config), [e], PaycheckAmount);
    SumSingle(e, PaycheckAmount);
  }

  /** One ledger storage call, with its clock reading and its new id as arguments. `saveConfig`,
      `saveClasificacionCategorias` and `clear` are not among them. */
  datatype Op =
    | SaveFixedOp(fixed: FixedExpense, newId: string)
    | UpdateFixedOp(id: string, fixedPatch: FixedPatch)
    | DeleteFixedOp(id: string)
    | SaveVariableOp(variable: VariableExpense, newId: string, now: string)
    | UpdateVariableOp(id: string, variablePatch: VariablePatch, now: string)
    | DeleteVariableOp(id: string, now: string)
    | SaveIncomeOp(income: Income, newId: string)
    | DeleteIncomeOp(id: string)
    | RegisterPaycheckOp(amount: Option<real>, fecha: string, now: string)
    | ReadConfigOp(now: string)

  function Apply(l: Ledger, op: Op): Ledger
  {
    match op
    case SaveFixedOp(g, id) => SaveFixed(l, g, id)
    case UpdateFixedOp(id, p) => UpdateFixed(l, id, p)
    case DeleteFixedOp(id) => DeleteFixed(l, id)
    case SaveVariableOp(g, id, now) => SaveVariable(l, g, id, now)
    case UpdateVariableOp(id, p, now) => UpdateVariable(l, id, p, now)
    case DeleteVariableOp(id, now) => DeleteVariable(l, id, now)
    case SaveIncomeOp(i, id) => SaveIncome(l, i, id)
    case DeleteIncomeOp(id) => DeleteIncome(l, id)
    case RegisterPaycheckOp(c, f, now) => RegisterPaycheck(l, c, f, now)
    case ReadConfigOp(now) => l.(config := ReadConfig(l.config, now).stored)
  }

  function Run(l: Ledger, ops: seq<Op>): Ledger
    decreases |ops|
  {
    if ops == [] then l else Run(Apply(l, ops[0]), ops[1..])
  }

  /** Every variable expense is saved under an id no stored expense has. */
  predicate FreshIds(l: Ledger, ops: seq<Op>)
    decreases |ops|
  {
    ops == [] ||
    ((ops[0].SaveVariableOp? ==> FreshId(l.gastosVariables, ops[0].newId))
     && (ops[0].UpdateVariableOp? ==> TrackingPatch(l.gastosVariables, ops[0].id, ops[0].variablePatch))
     && FreshIds(Apply(l, ops[0]), ops[1..]))
  }

  lemma {:induction false} ApplyConserves(l: Ledger, op: Op)
    requires UniqueIds(l.gastosVariables)
    requires op.SaveVariableOp? ==> FreshId(l.gastosVariables, op.newId)
    requires op.UpdateVariableOp? ==> TrackingPatch(l.gastosVariables, op.id, op.variablePatch)
    ensures Origin(Apply(l, op)) == Origin(l)
    ensures UniqueIds(Apply(l, op).gastosVariables)
  {
    match op
    case SaveFixedOp(g, id) =>
    case UpdateFixedOp(id, p) =>
    case DeleteFixedOp(id) =>
    case SaveVariableOp(g, id, now) =>
      SaveVariableConserves(l, g, id, now);
      UniqueAfterAppend(l.gastosVariables, g.(id := id, deductedFromFund := true));
    case UpdateVariableOp(id, p, now) =>
      UpdateVariableConserves(l, id, p, now);
      var found := FindFirst(l.gastosVariables, VariableIdIs(id));
      if found.Some? {
        var k := found.value;
        UniqueAfterUpdate(l.gastosVariables, k, MergeVariable(l.gastosVariables[k], p));
      }
    case DeleteVariableOp(id, now) =>
      DeleteVariableConserves(l, id, now);
      UniqueAfterFilter(l.gastosVariables, VariableIdIsNot(id));
    case SaveIncomeOp(i, id) =>
    case DeleteIncomeOp(id) =>
    case RegisterPaycheckOp(c, f, now) =>
      RegisterPaycheckConserves(l, c, f, now);
    case ReadConfigOp(now) =>
  }

  /** Fund conservation over any run of `Op` calls (every storage call but `saveConfig`,
      `saveClasificacionCategorias` and `clear`) that saves variable expenses under fresh
      ids and patches them with tracking patches: the fund always equals its origin plus the
      recorded paychecks minus the stored deducted expenses. */
  lemma {:induction false} RunConserves(l: Ledger, ops: seq<Op>)
    requires UniqueIds(l.gastosVariables) && FreshIds(l, ops)
    decreases |ops|
    ensures var r := Run(l, ops);
      && UniqueIds(r.gastosVariables)
      && StoredFund(r.config) == Origin(l) + Paid(r.config) - Deducted(r.gastosVariables)
  {
    if ops != [] {
      ApplyConserves(l, ops[0]);
      RunConserves(Apply(l, ops[0]), ops[1..]);
    }
  }

  // ---------------------------------------------------------------- the store

  /** Local storage: one field per key. */
  class Store {
    var config: Option<Config>
    var gastosFijos: seq<FixedExpense>
    var gastosVariables: seq<VariableExpense>
    var ingresos: seq<Income>
    var clasificacion: Option<KeywordTable>

    function State(): Ledger
      reads this
    {
      Ledger(config, gastosFijos, gastosVariables, ingresos, clasificacion)
    }

    /** Empty storage. */
    constructor()
      ensures State() == EmptyLedger
    {
      config := None;
      gastosFijos := [];
      gastosVariables := [];
      ingresos := [];
      clasificacion := None;
    }

    /** `getConfig`. */
    method GetConfig(now: string) returns (c: Config)
      modifies this
      ensures c == ReadConfig(old(config), now).config
      ensures State() == old(State()).(config := ReadConfig(old(config), now).stored)
    {
      match config
      case None =>
        c := DefaultConfig(now);
      case Some(stored) =>
        if stored.migratedToFundModel {
          c := stored;
        } else {
          c := Migrate(stored, now);
          config := Some(c);
        }
    }

    /** `saveConfig`. */
    method SaveConfig(c: Config)
      modifies this
      ensures State() == old(State()).(config := Some(c))
    {
      config := Some(c);
    }

    method SaveGastoFijo(gasto: FixedExpense, id: string)
      modifies this
      ensures State() == SaveFixed(old(State()), gasto, id)
    {
      var gastos := gastosFijos;
      gastos := gastos + [gasto.(id := id)];
      gastosFijos := gastos;
    }

    method UpdateGastoFijo(id: string, patch: FixedPatch)
      modifies this
      ensures State() == UpdateFixed(old(State()), id, patch)
    {
      var gastos := gastosFijos;
      var index := FindFirst(gastos, FixedIdIs(id));
      if index.Some? {
        gastos := gastos[index.value := MergeFixed(gastos[index.value], patch)];
        gastosFijos := gastos;
      }
    }

    method DeleteGastoFijo(id: string)
      modifies this
      ensures State() == DeleteFixed(old(State()), id)
    {
      gastosFijos := Filter(gastosFijos, FixedIdIsNot(id));
    }

    method SaveGastoVariable(gasto: VariableExpense, id: string, now: string)
      returns (nuevo: VariableExpense, fondoRestante: real)
      modifies this
      ensures State() == SaveVariable(old(State()), gasto, id, now)
      ensures nuevo == gasto.(id := id, deductedFromFund := true) && nuevo in gastosVariables
      ensures fondoRestante == StoredFund(old(config)) - gasto.cantidad
      ensures Origin(State()) == Origin(old(State()))
      ensures UniqueIds(old(gastosVariables)) && FreshId(old(gastosVariables), id) ==> UniqueIds(gastosVariables)
    {
      var gastos := gastosVariables;
      var cfg := GetConfig(now);
      nuevo := gasto.(id := id, deductedFromFund := true);
      gastos := gastos + [nuevo];
      gastosVariables := gastos;
      fondoRestante := Fund(cfg) - gasto.cantidad;
      cfg := cfg.(fondoDisponible := Some(fondoRestante));
      SaveConfig(cfg);
      SaveVariableConserves(old(State()), gasto, id, now);
      if UniqueIds(old(gastosVariables)) && FreshId(old(gastosVariables), id) {
        UniqueAfterAppend(old(gastosVariables), nuevo);
      }
    }

    method UpdateGastoVariable(id: string, datos: VariablePatch, now: string)
      modifies this
      ensures State() == UpdateVariable(old(State()), id, datos, now)
      ensures datos.deductedFromFund.None? ==> Origin(State()) == Origin(old(State()))
      ensures UniqueIds(old(gastosVariables)) && TrackingPatch(old(gastosVariables), id, datos) ==>
        UniqueIds(gastosVariables)
    {
      var gastos := gastosVariables;
      var indice := FindFirst(gastos, VariableIdIs(id));
      if indice.None? {
        return;
      }
      var original := gastos[indice.value];
      if UniqueIds(gastos) && TrackingPatch(gastos, id, datos) {
        UniqueAfterUpdate(gastos, indice.value, MergeVariable(original, datos));
      }
      var cantidadOriginal := original.cantidad;
      var cantidadNueva := datos.cantidad;
      var fueDeducido := original.deductedFromFund;
      gastos := gastos[indice.value := MergeVariable(original, datos)];
      gastosVariables := gastos;
      if fueDeducido {
        var cfg := GetConfig(now);
        var diferencia := cantidadOriginal - cantidadNueva;
        cfg := cfg.(fondoDisponible := Some(Fund(cfg) + diferencia));
        SaveConfig(cfg);
      }
      if datos.deductedFromFund.None? {
        UpdateVariableConserves(old(State()), id, datos, now);
      }
    }

    method DeleteGastoVariable(id: string, now: string)
      modifies this
      ensures State() == DeleteVariable(old(State()), id, now)
      ensures UniqueIds(old(gastosVariables)) ==> Origin(State()) == Origin(old(State()))
      ensures UniqueIds(old(gastosVariables)) ==> UniqueIds(gastosVariables)
    {
      var gastos := gastosVariables;
      var indice := FindFirst(gastos, VariableIdIs(id));
      if indice.None? {
        return;
      }
      var aEliminar := gastos[indice.value];
      gastosVariables := Filter(gastos, VariableIdIsNot(id));
      if aEliminar.deductedFromFund {
        var cfg := GetConfig(now);
        cfg := cfg.(fondoDisponible := Some(Fund(cfg) + aEliminar.cantidad));
        SaveConfig(cfg);
      }
      if UniqueIds(old(gastosVariables)) {
        DeleteVariableConserves(old(State()), id, now);
        UniqueAfterFilter(old(gastosVariables), VariableIdIsNot(id));
      }
    }

    method SaveIngreso(ingreso: Income, id: string)
      modifies this
      ensures State() == SaveIncome(old(State()), ingreso, id)
    {
      var lista := ingresos;
      lista := lista + [ingreso.(id := id)];
      ingresos := lista;
    }

    method DeleteIngreso(id: string)
      modifies this
      ensures State() == DeleteIncome(old(State()), id)
    {
      ingresos := Filter(ingresos, IncomeIdIsNot(id));
    }

    /** `registrarNomina`; returns the saved config. */
    method RegistrarNomina(cantidad: Option<real>, fecha: string, now: string) returns (c: Config)
      modifies this
      ensures State() == RegisterPaycheck(old(State()), cantidad, fecha, now)
      ensures config == Some(c)
      ensures Origin(State()) == Origin(old(State()))
    {
      c := GetConfig(now);
      var monto := cantidad.GetOr(0.0);
      c := c.(fondoDisponible := Some(Fund(c) + monto));
      c := c.(ultimaNomina := if fecha == "" then None else Some(fecha));
      var historial := History(c);
      historial := historial + [Paycheck(OrElse(fecha, Prefix(now, 10)), monto)];
      c := c.(historialNominas := Some(historial));
      config := Some(c);
      RegisterPaycheckConserves(old(State()), cantidad, fecha, now);
    }

    method GetClasificacionCategorias() returns (r: Option<KeywordTable>)
      ensures r == GetClassification(State())
    {
      r := clasificacion;
    }

    method SaveClasificacionCategorias(t: KeywordTable)
      modifies this
      ensures State() == old(State()).(clasificacion := Some(t))
    {
      clasificacion := Some(t);
    }

    /** `localStorage.clear()`. */
    method Clear()
      modifies this
      ensures State() == EmptyLedger
    {
      config := None;
      gastosFijos := [];
      gastosVariables := [];
      ingresos := [];
      clasificacion := None;
    }
  }
}
