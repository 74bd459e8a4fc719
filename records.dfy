/** The records the application keeps in local storage. Optional text fields are
    strings, with the empty string standing for a missing (falsy) value. */
module Records {
  import opened Wrappers

  /** A fixed (recurring) expense, `gastosFijos`. */
  datatype FixedExpense = FixedExpense(
    id: string,
    nombre: string,
    cantidad: real,
    diaDelMes: int,
    tipo: string,
    estado: string,
    categoria: string)

  /** A variable (one-off) expense, `gastosVariables`. */
  datatype VariableExpense = VariableExpense(
    id: string,
    fecha: string,
    concepto: string,
    cantidad: real,
    categoria: string,
    deductedFromFund: bool)

  /** An extra income, `ingresos`. */
  datatype Income = Income(
    id: string,
    fecha: string,
    concepto: string,
    cantidad: real,
    tipo: string)

  /** One entry of `historialNominas`. */
  datatype Paycheck = Paycheck(fecha: string, cantidad: real)

  /** The `config` object. `None` stands for a key that is absent (`undefined`). */
  datatype Config = Config(
    incomeBase: Option<real>,
    mesActual: string,
    fondoDisponible: Option<real>,
    ultimaNomina: Option<string>,
    mesReferencia: string,
    historialNominas: Option<seq<Paycheck>>,
    migratedToFundModel: bool,
    migrationDate: string)

  /** `estado === 'activo'`. */
  predicate IsActive(g: FixedExpense)
  {
    g.estado == "activo"
  }

  function FixedAmount(g: FixedExpense): real { g.cantidad }
  function VariableAmount(g: VariableExpense): real { g.cantidad }
  function IncomeAmount(i: Income): real { i.cantidad }
  function PaycheckAmount(p: Paycheck): real { p.cantidad }
  function VariableDate(g: VariableExpense): string { g.fecha }
  function IncomeDate(i: Income): string { i.fecha }
  function VariableId(g: VariableExpense): string { g.id }
}
