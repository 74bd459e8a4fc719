/** The worked examples of `src/utils/financialAnalysis.example.js`, stated on the model.
    Each example is split in two: what the example's entries add up to, and what
    `Analyze` returns for any entries with those totals. */
module FinancialAnalysisExamples {
  import opened Wrappers
  import opened Seqs
  import opened FinancialAnalysis

  /** The entries of example 1. */
  function Example1(): seq<Entry>
  {
    [Entry("Alquiler", Some(700.0)), Entry("Supermercado", Some(250.0)),
     Entry("Transporte", Some(50.0)), Entry("Restaurantes", Some(300.0)),
     Entry("Ocio", Some(200.0)), Entry("Netflix", Some(15.0)),
     Entry("Spotify", Some(10.0)), Entry("Ahorro", Some(400.0))]
  }

  /** Every entry of example 1 is labelled, so the three buckets hold all of its 1925. */
  lemma {:induction false} Example1Totals()
    ensures TotalsOf(Example1()).Spent() == 1925.0 && TotalsOf(Example1()).sinClasificar == 0.0
  {
    var g := Example1();
    var a := [Entry("Alquiler", Some(700.0)), Entry("Supermercado", Some(250.0)),
              Entry("Transporte", Some(50.0)), Entry("Restaurantes", Some(300.0))];
    var b := [Entry("Ocio", Some(200.0)), Entry("Netflix", Some(15.0)),
              Entry("Spotify", Some(10.0)), Entry("Ahorro", Some(400.0))];
    assert Sum(a, Amount) == 1300.0 by {
      assert a[1..][1..][1..][1..] == [];
    }
    assert Sum(b, Amount) == 625.0 by {
      assert b[1..][1..][1..][1..] == [];
    }
    assert g == a + b;
    SumAppend(a, b, Amount);
    TotalsLabelled(g);
  }

  /** Example 1: with 1000 on needs, 525 on wants and 400 saved out of 2000, the split is
      50 / 26.25 / 20 percent, 75 is left, and the only suggestion is the success message. */
  lemma {:induction false} Example1Balanced(g: seq<Entry>)
    requires TotalsOf(g) == Totals(1000.0, 525.0, 400.0, 0.0)
    ensures var r := Analyze(Some(2000.0), Some(g), Options(None, None, None), 2025, 1, 10);
      && r.Ok?
      && r.value.totalGastos == 1925.0 && r.value.restante == 75.0
      && r.value.necesidades == Share(1000.0, 50.0)
      && r.value.deseos == Share(525.0, 26.25)
      && r.value.ahorro == Share(400.0, 20.0)
      && r.value.sugerencias == [Balanced]
  {
    var a := AnalysisOf(2000.0, TotalsOf(g), |g|, Options(None, None, None), 2025, 1, 10);
    assert a.necesidades.porcentaje == 50.0;
    assert a.deseos.porcentaje == 26.25;
    assert a.ahorro.porcentaje == 20.0;
  }

  /** The entries of example 5. */
  function Example5(): seq<Entry>
  {
    [Entry("Alquiler", Some(900.0)), Entry("Supermercado", Some(400.0)),
     Entry("Transporte", Some(200.0)), Entry("Ocio", Some(300.0))]
  }

  /** Every entry of example 5 is labelled, so the three buckets hold all of its 1800. */
  lemma {:induction false} Example5Totals()
    ensures TotalsOf(Example5()).Spent() == 1800.0 && TotalsOf(Example5()).sinClasificar == 0.0
  {
    var g := Example5();
    assert Sum(g, Amount) == 1800.0 by {
      assert g[1..][1..][1..][1..] == [];
    }
    TotalsLabelled(g);
  }

  /** Example 5: 1800 spent on an income of 1500 is a critical overspend of 300, 120% of income. */
  lemma {:induction false} Example5Overspend(g: seq<Entry>)
    requires TotalsOf(g).Spent() == 1800.0
    ensures var r := Analyze(Some(1500.0), Some(g), Options(None, None, None), 2025, 1, 10);
      && r.Ok?
      && r.value.sobregasto == Overspend(true, 1800.0, -300.0, Some(120.0), Critico)
  {
    var t := TotalsOf(g);
    assert DetectOverspend(t, 1500.0) == Overspend(true, 1800.0, -300.0, Some(120.0), Critico);
  }

  /** The entries of example 4. */
  function Example4(): seq<Entry>
  {
    [Entry("Alquiler", Some(800.0)), Entry("Supermercado", Some(200.0)),
     Entry("Transporte", Some(50.0)), Entry("Restaurantes", Some(150.0))]
  }

  /** Every entry of example 4 is labelled, so the three buckets hold all of its 1200. */
  lemma {:induction false} Example4Totals()
    ensures TotalsOf(Example4()).Spent() == 1200.0 && TotalsOf(Example4()).sinClasificar == 0.0
  {
    var g := Example4();
    assert Sum(g, Amount) == 1200.0 by {
      assert g[1..][1..][1..][1..] == [];
    }
    TotalsLabelled(g);
  }

  /** Example 4: 1200 spent by day 15 of a 30-day month projects to 2400, at 80 a day. */
  lemma {:induction false} Example4Prediction(g: seq<Entry>)
    requires TotalsOf(g).Spent() == 1200.0
    ensures var r := Analyze(Some(2500.0), Some(g), Options(None, Some(15), Some(30)), 2025, 1, 10);
      && r.Ok?
      && r.value.prediccion == Some(Prediction(1200.0, 2400.0, 80.0, 15))
  {
    var t := TotalsOf(g);
    assert Predict(t, 15, 30) == Some(Prediction(1200.0, 2400.0, 80.0, 15)) by {
      assert t.Spent() / 15.0 == 80.0;
    }
  }
}
