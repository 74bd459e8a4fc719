/** The 50/30/20 distribution analyser of `src/utils/financialAnalysis.js`. */
module FinancialAnalysis {
  import opened Wrappers
  import opened Seqs
  import opened Text
  import Calculations

  /** The classification a spending label receives. */
  datatype Bucket = Necesidades | Deseos | Ahorro | SinClasificar

  // ---------------------------------------------------------------- keyword table

  /** The number of keywords `CLASIFICACION_CATEGORIAS` lists for a bucket. */
  function KeywordCount(b: Bucket): nat
  {
    match b
    case Necesidades => 20
    case Deseos => 15
    case Ahorro => 5
    case SinClasificar => 0
  }

  /** Keyword `i` of bucket `b` in `CLASIFICACION_CATEGORIAS`, in the listed order. */
  function Keyword(b: Bucket, i: nat): string
    requires i < KeywordCount(b)
  {
    match b
    case Necesidades =>
      if i == 0 then "Vivienda" else if i == 1 then "Alquiler" else if i == 2 then "Hipoteca"
      else if i == 3 then "Alimentación" else if i == 4 then "Supermercado" else if i == 5 then "Transporte"
      else if i == 6 then "Combustible" else if i == 7 then "Seguro" else if i == 8 then "Salud"
      else if i == 9 then "Medicamentos" else if i == 10 then "Servicios" else if i == 11 then "Electricidad"
      else if i == 12 then "Agua" else if i == 13 then "Gas" else if i == 14 then "Internet"
      else if i == 15 then "Teléfono" else if i == 16 then "Educación" else if i == 17 then "guarderia"
      else if i == 18 then "subscripcion" else "Impuestos"
    case Deseos =>
      if i == 0 then "Ocio" else if i == 1 then "Entretenimiento" else if i == 2 then "Restaurantes"
      else if i == 3 then "Comida fuera" else if i == 4 then "Viajes" else if i == 5 then "Ropa"
      else if i == 6 then "Tecnología" else if i == 7 then "Hobbies" else if i == 8 then "Gimnasio"
      else if i == 9 then "Belleza" else if i == 10 then "Mascotas" else if i == 11 then "Regalos"
      else if i == 12 then "Streaming" else if i == 13 then "Netflix" else "Spotify"
    case Ahorro =>
      if i == 0 then "Ahorro" else if i == 1 then "Inversión" else if i == 2 then "Fondo de emergencia"
      else if i == 3 then "Pensión" else "Criptomonedas"
  }

  /** Bucket `b`'s keyword list. */
  function Keywords(b: Bucket): (r: seq<string>)
    ensures |r| == KeywordCount(b)
    ensures forall i :: 0 <= i < |r| ==> r[i] == Keyword(b, i)
  {
    seq(KeywordCount(b), i requires 0 <= i < KeywordCount(b) => Keyword(b, i))
  }

  // ---------------------------------------------------------------- classifier

  /** `list.some(cat => label.toLowerCase().includes(cat.toLowerCase()))`, from keyword `i` on. */
  predicate MatchesFrom(categoria: string, b: Bucket, i: nat)
    decreases KeywordCount(b) - i
  {
    i < KeywordCount(b) && (IncludesIgnoringCase(categoria, Keyword(b, i)) || MatchesFrom(categoria, b, i + 1))
  }

  /** Keyword `i` of bucket `b`, lower-cased, occurs in the lower-cased label. */
  predicate KeywordIn(categoria: string, b: Bucket, i: int)
  {
    0 <= i < KeywordCount(b) && Contains(ToLower(categoria), ToLower(Keyword(b, i)))
  }

  /** The reference meaning of a bucket's `some`: one of its keywords occurs in the label. */
  ghost predicate MatchesSome(categoria: string, b: Bucket)
  {
    exists i :: KeywordIn(categoria, b, i)
  }

  lemma {:induction false} KeywordInIff(categoria: string, b: Bucket, i: nat)
    requires i < KeywordCount(b)
    ensures KeywordIn(categoria, b, i) <==> IncludesIgnoringCase(categoria, Keyword(b, i))
  {
    IncludesIgnoringCaseIff(categoria, Keyword(b, i));
  }

  lemma {:induction false} MatchesFromIff(categoria: string, b: Bucket, i: nat)
    decreases KeywordCount(b) - i
    ensures MatchesFrom(categoria, b, i) <==> exists j :: i <= j && KeywordIn(categoria, b, j)
  {
    if i < KeywordCount(b) {
      KeywordInIff(categoria, b, i);
      MatchesFromIff(categoria, b, i + 1);
      assert MatchesFrom(categoria, b, i)
         == (IncludesIgnoringCase(categoria, Keyword(b, i)) || MatchesFrom(categoria, b, i + 1));
      if j :| i <= j && KeywordIn(categoria, b, j) {
        if j > i {
          assert i + 1 <= j;
        }
      }
    } else {
      assert forall j :: i <= j ==> !KeywordIn(categoria, b, j);
    }
  }

  /** `clasificarCategoria`: an empty label is unclassified; otherwise the first
      of needs, wants and savings with a matching keyword, and wants when none matches. */
  function Classify(categoria: string): (r: Bucket)
    ensures r == SinClasificar <==> categoria == ""
    ensures r == Necesidades <==> categoria != "" && MatchesSome(categoria, Necesidades)
    ensures r == Ahorro <==> categoria != "" && !MatchesSome(categoria, Necesidades)
                              && !MatchesSome(categoria, Deseos) && MatchesSome(categoria, Ahorro)
    ensures r == Deseos <==> categoria != "" && !MatchesSome(categoria, Necesidades)
                              && (MatchesSome(categoria, Deseos) || !MatchesSome(categoria, Ahorro))
  {
    MatchesFromIff(categoria, Necesidades, 0);
    MatchesFromIff(categoria, Deseos, 0);
    MatchesFromIff(categoria, Ahorro, 0);
    if categoria == "" then SinClasificar
    else if MatchesFrom(categoria, Necesidades, 0) then Necesidades
    else if MatchesFrom(categoria, Deseos, 0) then Deseos
    else if MatchesFrom(categoria, Ahorro, 0) then Ahorro
    else Deseos
  }

  /** A label that contains a needs keyword is a need, whatever else it contains. */
  lemma {:induction false} NeedsKeywordWins(categoria: string, i: nat)
    requires i < KeywordCount(Necesidades)
    requires Contains(ToLower(categoria), ToLower(Keyword(Necesidades, i)))
    ensures Classify(categoria) == Necesidades
  {
    assert KeywordIn(categoria, Necesidades, i);
  }

  // ---------------------------------------------------------------- totals

  /** One spending entry `{categoria, monto}`; `None` is an amount that is not a number. */
  datatype Entry = Entry(categoria: string, monto: Option<real>)

  /** `parseFloat(gasto.monto) || 0`. */
  function Amount(e: Entry): real
  {
    e.monto.GetOr(0.0)
  }

  datatype Totals = Totals(necesidades: real, deseos: real, ahorro: real, sinClasificar: real)
  {
    function Of(b: Bucket): real
    {
      match b
      case Necesidades => necesidades
      case Deseos => deseos
      case Ahorro => ahorro
      case SinClasificar => sinClasificar
    }

    /** The totals with `x` added to bucket `b`. */
    function Plus(b: Bucket, x: real): Totals
    {
      match b
      case Necesidades => this.(necesidades := necesidades + x)
      case Deseos => this.(deseos := deseos + x)
      case Ahorro => this.(ahorro := ahorro + x)
      case SinClasificar => this.(sinClasificar := sinClasificar + x)
    }

    /** What the source calls the total spent: the three classified buckets. */
    function Spent(): real
    {
      necesidades + deseos + ahorro
    }
  }

  /** An entry's amount if its label falls in bucket `b`, else 0. */
  function ShareOf(b: Bucket): Entry -> real
  {
    (e: Entry) => if Classify(e.categoria) == b then Amount(e) else 0.0
  }

  /** Bucket `b`'s total over `gastos`. */
  function BucketTotal(gastos: seq<Entry>, b: Bucket): real
  {
    Sum(gastos, ShareOf(b))
  }

  /** The reference totals: each bucket sums the amounts of the entries classified into it. */
  function TotalsOf(gastos: seq<Entry>): Totals
  {
    Totals(BucketTotal(gastos, Necesidades), BucketTotal(gastos, Deseos),
           BucketTotal(gastos, Ahorro), BucketTotal(gastos, SinClasificar))
  }

  lemma {:induction false} BucketTotalSnoc(gastos: seq<Entry>, e: Entry, b: Bucket)
    ensures BucketTotal(gastos + [e], b)
         == BucketTotal(gastos, b) + if Classify(e.categoria) == b then Amount(e) else 0.0
  {
    SumAppend(gastos, [e], ShareOf(b));
    SumSingle(e, ShareOf(b));
  }

  lemma {:induction false} TotalsOfSnoc(gastos: seq<Entry>, e: Entry)
    ensures TotalsOf(gastos + [e]) == TotalsOf(gastos).Plus(Classify(e.categoria), Amount(e))
  {
    BucketTotalSnoc(gastos, e, Necesidades);
    BucketTotalSnoc(gastos, e, Deseos);
    BucketTotalSnoc(gastos, e, Ahorro);
    BucketTotalSnoc(gastos, e, SinClasificar);
  }

  /** `calcularTotalesPorClasificacion`: adds each entry's amount to the total of its bucket. */
  method TotalsByClassification(gastos: seq<Entry>) returns (totales: Totals)
    ensures totales == TotalsOf(gastos)
  {
    totales := Totals(0.0, 0.0, 0.0, 0.0);
    var i := 0;
    while i < |gastos|
      invariant 0 <= i <= |gastos|
      invariant totales == TotalsOf(gastos[..i])
    {
      var clasificacion := Classify(gastos[i].categoria);
      TotalsOfSnoc(gastos[..i], gastos[i]);
      assert gastos[..i + 1] == gastos[..i] + [gastos[i]];
      totales := totales.Plus(clasificacion, Amount(gastos[i]));
      i := i + 1;
    }
    assert gastos[..i] == gastos;
  }

  /** The four bucket totals add up to the sum of all the amounts. */
  lemma {:induction false} TotalsCover(gastos: seq<Entry>)
    ensures var t := TotalsOf(gastos);
      t.necesidades + t.deseos + t.ahorro + t.sinClasificar == Sum(gastos, Amount)
  {
    if gastos != [] {
      TotalsCover(gastos[1..]);
    }
  }

  /** With every label non-empty nothing is unclassified, so the amounts spent are all the amounts. */
  lemma {:induction false} TotalsLabelled(gastos: seq<Entry>)
    requires forall i :: 0 <= i < |gastos| ==> gastos[i].categoria != ""
    ensures TotalsOf(gastos).sinClasificar == 0.0
    ensures TotalsOf(gastos).Spent() == Sum(gastos, Amount)
  {
    if gastos != [] {
      assert forall i :: 0 <= i < |gastos[1..]| ==> gastos[1..][i] == gastos[i + 1];
      TotalsLabelled(gastos[1..]);
    }
    TotalsCover(gastos);
  }

  // ---------------------------------------------------------------- percentages and model

  datatype Percentages = Percentages(necesidades: real, deseos: real, ahorro: real, sinClasificar: real)

  /** `calcularPorcentajesReales`: each total as a percentage of income; all zero when income is 0. */
  function PercentagesOf(t: Totals, ingresos: real): (p: Percentages)
    ensures ingresos == 0.0 ==> p == Percentages(0.0, 0.0, 0.0, 0.0)
    ensures ingresos != 0.0 ==>
      && p.necesidades * ingresos == t.necesidades * 100.0
      && p.deseos * ingresos == t.deseos * 100.0
      && p.ahorro * ingresos == t.ahorro * 100.0
      && p.sinClasificar * ingresos == t.sinClasificar * 100.0
  {
    if ingresos == 0.0 then Percentages(0.0, 0.0, 0.0, 0.0)
    else Percentages(t.necesidades / ingresos * 100.0, t.deseos / ingresos * 100.0,
                     t.ahorro / ingresos * 100.0, t.sinClasificar / ingresos * 100.0)
  }

  /** Spending exactly the income on classified labels gives percentages that add up to 100. */
  lemma {:induction false} PercentagesOfFullSpend(t: Totals, ingresos: real)
    requires ingresos != 0.0 && t.sinClasificar == 0.0 && t.Spent() == ingresos
    ensures var p := PercentagesOf(t, ingresos); p.necesidades + p.deseos + p.ahorro == 100.0
  {
    var p := PercentagesOf(t, ingresos);
    assert (p.necesidades + p.deseos + p.ahorro) * ingresos == t.Spent() * 100.0;
  }

  /** The three classified percentages, each scaled back by the income. */
  lemma {:induction false} PercentagesScale(t: Totals, ingresos: real)
    requires ingresos != 0.0
    ensures var p := PercentagesOf(t, ingresos);
      && p.necesidades * ingresos == t.necesidades * 100.0
      && p.deseos * ingresos == t.deseos * 100.0
      && p.ahorro * ingresos == t.ahorro * 100.0
  {
  }

  /** A target split, in percent of income. */
  datatype Model = Model(necesidades: real, deseos: real, ahorro: real)

  /** `MODELO_RECOMENDADO`. */
  const Recommended := Model(50.0, 30.0, 20.0)

  lemma {:induction false} RecommendedIsWhole()
    ensures Recommended.necesidades + Recommended.deseos + Recommended.ahorro == 100.0
  {
  }

  datatype Line = Line(actual: real, recomendado: real, diferencia: real)
  datatype Comparison = Comparison(necesidades: Line, deseos: Line, ahorro: Line)

  /** `compararConModelo`, with the recommended model as the default. */
  function Compare(p: Percentages, modelo: Option<Model>): (c: Comparison)
    ensures var m := modelo.GetOr(Recommended);
      && c.necesidades == Line(p.necesidades, m.necesidades, p.necesidades - m.necesidades)
      && c.deseos == Line(p.deseos, m.deseos, p.deseos - m.deseos)
      && c.ahorro == Line(p.ahorro, m.ahorro, p.ahorro - m.ahorro)
  {
    var m := modelo.GetOr(Recommended);
    Comparison(Line(p.necesidades, m.necesidades, p.necesidades - m.necesidades),
               Line(p.deseos, m.deseos, p.deseos - m.deseos),
               Line(p.ahorro, m.ahorro, p.ahorro - m.ahorro))
  }

  /** A model whose three shares make up the whole income. */
  predicate IsWhole(m: Model)
  {
    m.necesidades + m.deseos + m.ahorro == 100.0
  }

  /** When the income is spent exactly on classified labels and the model used makes up the
      whole income, the three differences cancel out: an excess in one bucket is a shortfall in
      the others. Without a custom model the references are 50, 30 and 20. */
  lemma {:induction false} CompareLines(t: Totals, ingresos: real, modelo: Option<Model>)
    requires ingresos != 0.0 && t.sinClasificar == 0.0 && t.Spent() == ingresos
    requires modelo.Some? ==> IsWhole(modelo.value)
    ensures var c := Compare(PercentagesOf(t, ingresos), modelo);
      && c.necesidades.diferencia + c.deseos.diferencia + c.ahorro.diferencia == 0.0
      && (modelo.None? ==> c.necesidades.recomendado == 50.0 && c.deseos.recomendado == 30.0
                           && c.ahorro.recomendado == 20.0)
  {
    PercentagesOfFullSpend(t, ingresos);
    RecommendedIsWhole();
  }

  // ---------------------------------------------------------------- suggestions

  /** Severity of a suggestion or an overspend alert. */
  datatype Level = Critico | Advertencia | Normal | Exito

  /** A suggestion; `importe` is the amount in euros its action text quotes. */
  datatype Suggestion = Suggestion(tipo: Level, categoria: string, importe: real)

  /** `UMBRALES_ALERTA`. */
  const CriticalThreshold := 10.0
  const WarningThreshold := 5.0

  function Abs(x: real): real { if x < 0.0 then -x else x }

  function NeedsSuggestion(c: Comparison, ingresos: real): Suggestion
  {
    Suggestion(Critico, "necesidades", Abs(c.necesidades.diferencia) / 100.0 * ingresos)
  }

  function WantsSuggestion(c: Comparison, ingresos: real): Suggestion
  {
    Suggestion(Advertencia, "deseos", c.deseos.diferencia / 100.0 * ingresos)
  }

  function SavingsSuggestion(c: Comparison, ingresos: real): Suggestion
  {
    Suggestion(Critico, "ahorro", Abs(c.ahorro.diferencia) / 100.0 * ingresos)
  }

  const Balanced := Suggestion(Exito, "general", 0.0)

  predicate NeedsOver(c: Comparison) { c.necesidades.diferencia > CriticalThreshold }
  predicate WantsOver(c: Comparison) { c.deseos.diferencia > CriticalThreshold }
  predicate SavingsUnder(c: Comparison) { c.ahorro.diferencia < -WarningThreshold }

  /** How many of the three thresholds the comparison crosses. */
  function Fired(c: Comparison): nat
  {
    (if NeedsOver(c) then 1 else 0) + (if WantsOver(c) then 1 else 0) + (if SavingsUnder(c) then 1 else 0)
  }

  /** The reference list of suggestions: the triggered ones in the order needs,
      wants, savings, or the single success message when none is triggered. */
  function SuggestionsOf(c: Comparison, ingresos: real): (s: seq<Suggestion>)
    ensures 1 <= |s| <= 3
    ensures |s| == if Fired(c) == 0 then 1 else Fired(c)
    ensures s == [Balanced] <==> Fired(c) == 0
    ensures Balanced in s <==> Fired(c) == 0
    ensures NeedsSuggestion(c, ingresos) in s <==> NeedsOver(c)
    ensures WantsSuggestion(c, ingresos) in s <==> WantsOver(c)
    ensures SavingsSuggestion(c, ingresos) in s <==> SavingsUnder(c)
    ensures NeedsOver(c) ==> s[0] == NeedsSuggestion(c, ingresos)
    ensures WantsOver(c) ==> s[if NeedsOver(c) then 1 else 0] == WantsSuggestion(c, ingresos)
    ensures SavingsUnder(c) ==> s[|s| - 1] == SavingsSuggestion(c, ingresos)
  {
    var fired := (if NeedsOver(c) then [NeedsSuggestion(c, ingresos)] else [])
               + (if WantsOver(c) then [WantsSuggestion(c, ingresos)] else [])
               + (if SavingsUnder(c) then [SavingsSuggestion(c, ingresos)] else []);
    assert forall k :: 0 <= k < |fired| ==> fired[k].tipo != Exito;
    if fired == [] then [Balanced] else assert fired[0] != Balanced; fired
  }

  /** `generarSugerencias`. */
  method GenerateSuggestions(c: Comparison, ingresos: real) returns (sugerencias: seq<Suggestion>)
    ensures sugerencias == SuggestionsOf(c, ingresos)
  {
    var n := if NeedsOver(c) then [NeedsSuggestion(c, ingresos)] else [];
    var w := if WantsOver(c) then [WantsSuggestion(c, ingresos)] else [];
    var a := if SavingsUnder(c) then [SavingsSuggestion(c, ingresos)] else [];
    sugerencias := [];
    if c.necesidades.diferencia > CriticalThreshold {
      sugerencias := sugerencias + [NeedsSuggestion(c, ingresos)];
    }
    assert sugerencias == n;
    if c.deseos.diferencia > CriticalThreshold {
      var excesoDeseos := c.deseos.diferencia / 100.0 * ingresos;
      assert w == [WantsSuggestion(c, ingresos)];
      assert WantsSuggestion(c, ingresos) == Suggestion(Advertencia, "deseos", excesoDeseos);
      sugerencias := sugerencias + [Suggestion(Advertencia, "deseos", excesoDeseos)];
      assert sugerencias == n + w;
    } else {
      assert n + w == n;
    }
    if c.ahorro.diferencia < -WarningThreshold {
      var deficitAhorro := Abs(c.ahorro.diferencia) / 100.0 * ingresos;
      assert a == [SavingsSuggestion(c, ingresos)];
      assert SavingsSuggestion(c, ingresos) == Suggestion(Critico, "ahorro", deficitAhorro);
      sugerencias := sugerencias + [Suggestion(Critico, "ahorro", deficitAhorro)];
      assert sugerencias == n + w + a;
    } else {
      assert n + w + a == n + w;
    }
    if |sugerencias| == 0 {
      sugerencias := sugerencias + [Balanced];
    }
  }

  // ---------------------------------------------------------------- overspend and projection

  /** `porcentajeGastado` is `None` where the source divides by a zero income. */
  datatype Overspend = Overspend(
    haySobregasto: bool,
    totalGastado: real,
    restante: real,
    porcentajeGastado: Option<real>,
    alerta: Level)

  /** `detectarSobregasto`. */
  function DetectOverspend(t: Totals, ingresos: real): (r: Overspend)
    ensures r.totalGastado == t.necesidades + t.deseos + t.ahorro
    ensures r.haySobregasto <==> r.totalGastado > ingresos
    ensures r.restante + r.totalGastado == ingresos
    ensures r.porcentajeGastado.Some? <==> ingresos != 0.0
    ensures r.porcentajeGastado.Some? ==> r.porcentajeGastado.value * ingresos == r.totalGastado * 100.0
    ensures r.alerta == Critico <==> r.totalGastado > ingresos * 0.95
    ensures r.alerta == Advertencia <==> ingresos * 0.85 < r.totalGastado <= ingresos * 0.95
    ensures r.alerta == Normal <==> r.totalGastado <= ingresos * 0.95 && r.totalGastado <= ingresos * 0.85
  {
    var total := t.necesidades + t.deseos + t.ahorro;
    Overspend(total > ingresos, total, ingresos - total,
              if ingresos == 0.0 then None else Some(total / ingresos * 100.0),
              if total > ingresos * 0.95 then Critico
              else if total > ingresos * 0.85 then Advertencia
              else Normal)
  }

  /** With a positive income, an overspend is always critical, and a normal
      alert means at most 85% of the income was spent. */
  lemma {:induction false} OverspendIsCritical(t: Totals, ingresos: real)
    requires ingresos > 0.0
    ensures var r := DetectOverspend(t, ingresos);
      && (r.haySobregasto ==> r.alerta == Critico && r.restante < 0.0)
      && (r.alerta == Normal ==> r.porcentajeGastado.value <= 85.0)
  {
    var r := DetectOverspend(t, ingresos);
    if r.alerta == Normal {
      assert r.porcentajeGastado.value * ingresos == r.totalGastado * 100.0;
      assert r.totalGastado * 100.0 <= ingresos * 85.0;
    }
  }

  datatype Prediction = Prediction(totalActual: real, gastoProyectado: real, promedioDiario: real, diasRestantes: int)

  /** `predecirGastoMensual`: none on day 0 or past the end of the month; otherwise
      the spending so far extrapolated at its daily average. */
  function Predict(t: Totals, diaActual: int, diasEnMes: int): (r: Option<Prediction>)
    ensures r.None? <==> diaActual == 0 || diaActual > diasEnMes
    ensures r.Some? ==>
      && r.value.totalActual == t.Spent()
      && r.value.promedioDiario * diaActual as real == r.value.totalActual
      && r.value.gastoProyectado == r.value.promedioDiario * diasEnMes as real
      && r.value.diasRestantes == diasEnMes - diaActual >= 0
  {
    if diaActual == 0 || diaActual > diasEnMes then None
    else
      var totalActual := t.Spent();
      var promedio := totalActual / diaActual as real;
      Some(Prediction(totalActual, promedio * diasEnMes as real, promedio, diasEnMes - diaActual))
  }

  /** On the last day of the month the projection is the spending so far. */
  lemma {:induction false} PredictLastDay(t: Totals, dias: int)
    requires dias > 0
    ensures Predict(t, dias, dias).Some? && Predict(t, dias, dias).value.gastoProyectado == t.Spent()
    ensures Predict(t, dias, dias).value.diasRestantes == 0
  {
  }

  // ---------------------------------------------------------------- the whole analysis

  /** The optional settings; a `None` falls back to the model or the clock. */
  datatype Options = Options(modeloPersonalizado: Option<Model>, diaActual: Option<int>, diasEnMes: Option<int>)

  datatype Share = Share(total: real, porcentaje: real)

  datatype Analysis = Analysis(
    ingresosMensuales: real,
    totalGastos: real,
    restante: real,
    necesidades: Share,
    deseos: Share,
    ahorro: Share,
    comparacion: Comparison,
    sugerencias: seq<Suggestion>,
    sobregasto: Overspend,
    prediccion: Option<Prediction>,
    modeloUtilizado: Model,
    totalGastosAnalizados: nat)

  const IncomeError := "Los ingresos mensuales deben ser mayores a 0"
  const ArrayError := "Los gastos deben ser un array"

  /** The analysis of a valid income, computed from the bucket totals of `count` entries. */
  function AnalysisOf(income: real, totales: Totals, count: nat, opciones: Options, year: int, month: int, day: int): (a: Analysis)
    requires income > 0.0
    ensures a.ingresosMensuales == income
    ensures a.totalGastos + a.restante == a.ingresosMensuales
    ensures a.totalGastos == totales.Spent()
    ensures a.necesidades.total == totales.necesidades
    ensures a.deseos.total == totales.deseos
    ensures a.ahorro.total == totales.ahorro
    ensures a.necesidades.porcentaje * income == a.necesidades.total * 100.0
    ensures a.deseos.porcentaje * income == a.deseos.total * 100.0
    ensures a.ahorro.porcentaje * income == a.ahorro.total * 100.0
    ensures a.modeloUtilizado == opciones.modeloPersonalizado.GetOr(Recommended)
    ensures a.comparacion.necesidades.diferencia == a.necesidades.porcentaje - a.modeloUtilizado.necesidades
    ensures a.comparacion.deseos.diferencia == a.deseos.porcentaje - a.modeloUtilizado.deseos
    ensures a.comparacion.ahorro.diferencia == a.ahorro.porcentaje - a.modeloUtilizado.ahorro
    ensures a.sugerencias == SuggestionsOf(a.comparacion, income) && 1 <= |a.sugerencias| <= 3
    ensures a.sobregasto == DetectOverspend(totales, income)
    ensures a.sobregasto.haySobregasto <==> a.totalGastos > income
    ensures a.prediccion == Predict(totales, opciones.diaActual.GetOr(day),
                                    opciones.diasEnMes.GetOr(Calculations.LastDayOfMonth(year, month)))
    ensures a.prediccion.None? <==>
      (opciones.diaActual.GetOr(day) == 0
       || opciones.diaActual.GetOr(day) > opciones.diasEnMes.GetOr(Calculations.LastDayOfMonth(year, month)))
    ensures a.totalGastosAnalizados == count
  {
    var diaActual := opciones.diaActual.GetOr(day);
    var diasEnMes := opciones.diasEnMes.GetOr(Calculations.LastDayOfMonth(year, month));
    var modelo := opciones.modeloPersonalizado.GetOr(Recommended);
    var porcentajes := PercentagesOf(totales, income);
    var comparacion := Compare(porcentajes, Some(modelo));
    Analysis(
      income,
      totales.Spent(),
      income - totales.Spent(),
      Share(totales.necesidades, porcentajes.necesidades),
      Share(totales.deseos, porcentajes.deseos),
      Share(totales.ahorro, porcentajes.ahorro),
      comparacion,
      SuggestionsOf(comparacion, income),
      DetectOverspend(totales, income),
      Predict(totales, diaActual, diasEnMes),
      modelo,
      count)
  }

  /** `analizarDistribucionFinanciera`. `None` for the income is a missing or
      non-numeric value, `None` for the entries is a value that is not an array;
      the clock's year, month (1..12) and day supply the default day and month length. */
  function Analyze(ingresos: Option<real>, gastos: Option<seq<Entry>>, opciones: Options,
                   year: int, month: int, day: int): (r: Result<Analysis>)
    ensures r.Err? <==> ingresos.None? || ingresos.value <= 0.0 || gastos.None?
    ensures r.Err? ==> r.message == if ingresos.None? || ingresos.value <= 0.0 then IncomeError else ArrayError
    ensures r.Ok? ==> r.value == AnalysisOf(ingresos.value, TotalsOf(gastos.value), |gastos.value|, opciones, year, month, day)
    ensures r.Ok? ==> r.value.totalGastos + TotalsOf(gastos.value).sinClasificar == Sum(gastos.value, Amount)
  {
    if ingresos.None? || ingresos.value <= 0.0 then Err(IncomeError)
    else if gastos.None? then Err(ArrayError)
    else
      TotalsCover(gastos.value);
      Ok(AnalysisOf(ingresos.value, TotalsOf(gastos.value), |gastos.value|, opciones, year, month, day))
  }
}
