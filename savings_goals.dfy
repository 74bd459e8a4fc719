/** The savings-goal panel of `src/components/SavingsGoals/SavingsGoals.jsx`: suggestions drawn
    from envelope surpluses, the order goals are listed in, and the guards of the goal and
    contribution forms. The goal store and `calcularEstadisticasMeta` are not shown; the
    statistics of a goal are a function parameter and the store calls are the requests the
    component hands it. */
module SavingsGoals {
  import opened Wrappers
  import opened Seqs
  import opened Sorting
  import EnvelopeBudgeting

  type Envelope = EnvelopeBudgeting.Envelope

  /** A saved goal as the component reads it. */
  datatype Goal = Goal(id: string, nombre: string, objetivo: real, progreso: real,
                       fechaLimite: Option<string>, icono: string, color: string)

  /** The part of `calcularEstadisticasMeta(meta)` the ordering reads. */
  datatype GoalStats = GoalStats(porcentaje: real, completada: bool)

  /** One suggestion: an envelope's name and the money still free in it. */
  datatype Suggestion = Suggestion(sobre: string, disponible: real)

  // ---------------------------------------------------------------- suggestions

  function HasSurplus(): Envelope -> bool
  {
    (s: Envelope) => s.asignado - s.gastado > 10.0 && s.tipo != "ahorro"
  }

  function ToSuggestion(s: Envelope): Suggestion
  {
    Suggestion(s.nombre, s.asignado - s.gastado)
  }

  /** The suggestions for an envelope list: one per envelope, in order, holding more than 10
      free and not itself a savings envelope. `None` stands for missing envelope data. */
  function SuggestionsFor(sobres: Option<seq<Envelope>>): seq<Suggestion>
  {
    if sobres.None? then [] else Map(Filter(sobres.value, HasSurplus()), ToSuggestion)
  }

  /** `calcularSugerencias`: walks the envelopes and pushes a suggestion for each surplus. */
  method ComputeSuggestions(sobres: Option<seq<Envelope>>) returns (sugerencias: seq<Suggestion>)
    ensures sugerencias == SuggestionsFor(sobres)
  {
    if sobres.None? {
      return [];
    }
    var s := sobres.value;
    sugerencias := [];
    for i := 0 to |s|
      invariant sugerencias == Map(Filter(s[..i], HasSurplus()), ToSuggestion)
    {
      var disponible := s[i].asignado - s[i].gastado;
      SuggestionsStep(s[..i], s[i]);
      assert s[..i + 1] == s[..i] + [s[i]];
      assert HasSurplus()(s[i]) <==> disponible > 10.0 && s[i].tipo != "ahorro";
      if disponible > 10.0 && s[i].tipo != "ahorro" {
        assert ToSuggestion(s[i]) == Suggestion(s[i].nombre, disponible);
        sugerencias := sugerencias + [Suggestion(s[i].nombre, disponible)];
      }
    }
    assert s[..|s|] == s;
  }

  lemma {:induction false} SuggestionsStep(s: seq<Envelope>, x: Envelope)
    ensures Map(Filter(s + [x], HasSurplus()), ToSuggestion)
            == Map(Filter(s, HasSurplus()), ToSuggestion) + (if HasSurplus()(x) then [ToSuggestion(x)] else [])
  {
    FilterAppend(s, [x], HasSurplus());
    FilterSingle(x, HasSurplus());
    MapAppend(Filter(s, HasSurplus()), Filter([x], HasSurplus()), ToSuggestion);
    if HasSurplus()(x) {
      assert Map([x], ToSuggestion) == [ToSuggestion(x)];
    } else {
      assert Map([], ToSuggestion) == [];
    }
  }

  /** Without envelope data there are no suggestions; with it, every suggestion comes from an
      envelope with more than 10 free that is not a savings envelope, each such envelope gives
      one, and there are never more suggestions than envelopes. */
  lemma {:induction false} SuggestionsAreSurpluses(sobres: Option<seq<Envelope>>)
    ensures sobres.None? ==> SuggestionsFor(sobres) == []
    ensures sobres.Some? ==> |SuggestionsFor(sobres)| <= |sobres.value|
    ensures sobres.Some? ==> forall k :: 0 <= k < |SuggestionsFor(sobres)| ==>
      exists e :: e in sobres.value && e.asignado - e.gastado > 10.0 && e.tipo != "ahorro"
                  && SuggestionsFor(sobres)[k] == ToSuggestion(e)
    ensures sobres.Some? ==> forall e :: e in sobres.value && e.asignado - e.gastado > 10.0 && e.tipo != "ahorro"
                                 ==> ToSuggestion(e) in SuggestionsFor(sobres)
  {
    if sobres.Some? {
      var s := sobres.value;
      var kept := Filter(s, HasSurplus());
      FilterMembers(s, HasSurplus());
      forall k | 0 <= k < |SuggestionsFor(sobres)|
        ensures exists e :: e in s && e.asignado - e.gastado > 10.0 && e.tipo != "ahorro"
                            && SuggestionsFor(sobres)[k] == ToSuggestion(e)
      {
        assert HasSurplus()(kept[k]);
      }
      forall e | e in s && e.asignado - e.gastado > 10.0 && e.tipo != "ahorro"
        ensures ToSuggestion(e) in SuggestionsFor(sobres)
      {
        var i :| 0 <= i < |s| && s[i] == e;
        assert HasSurplus()(s[i]);
        var j :| 0 <= j < |kept| && kept[j] == e;
        assert SuggestionsFor(sobres)[j] == ToSuggestion(e);
      }
    }
  }

  /** The suggestion banner: shown only with at least one suggestion and at least one goal. */
  predicate ShowsSuggestionBanner(sugerencias: seq<Suggestion>, metas: seq<Goal>)
  {
    |sugerencias| > 0 && |metas| > 0
  }

  /** The banner is shown exactly when there is a goal and some envelope that is not a savings
      envelope has more than 10 free. */
  lemma {:induction false} BannerShownIff(sobres: Option<seq<Envelope>>, metas: seq<Goal>)
    ensures ShowsSuggestionBanner(SuggestionsFor(sobres), metas) <==>
      |metas| > 0 && sobres.Some? &&
      exists e :: e in sobres.value && e.asignado - e.gastado > 10.0 && e.tipo != "ahorro"
  {
    SuggestionsAreSurpluses(sobres);
  }

  /** What the banner lists: the first two suggestions and, when there are more, how many more. */
  function BannerContent(sugerencias: seq<Suggestion>): (r: (seq<Suggestion>, Option<nat>))
    ensures |r.0| <= 2 && |r.0| <= |sugerencias| && r.0 == sugerencias[..|r.0|]
    ensures r.1.Some? <==> |sugerencias| > 2
    ensures r.1.Some? ==> |r.0| == 2 && |r.0| + r.1.value == |sugerencias|
    ensures r.1.None? ==> r.0 == sugerencias
  {
    if |sugerencias| > 2 then (sugerencias[..2], Some(|sugerencias| - 2)) else (sugerencias, None)
  }

  // ---------------------------------------------------------------- ordering

  /** The comparator of `metasOrdenadas` read as "may come first": an incomplete goal before a
      completed one, and among goals alike in that, higher percentage first. */
  function GoalFirst(stats: Goal -> GoalStats): (Goal, Goal) -> bool
  {
    (a: Goal, b: Goal) =>
      if stats(a).completada != stats(b).completada then !stats(a).completada
      else stats(a).porcentaje >= stats(b).porcentaje
  }

  lemma {:induction false} GoalFirstIsPreorder(stats: Goal -> GoalStats)
    ensures TotalPreorder(GoalFirst(stats))
  {
  }

  /** `[...metas].sort(...)`: a sorted copy of the goal list. */
  function OrderedGoals(metas: seq<Goal>, stats: Goal -> GoalStats): seq<Goal>
  {
    SortBy(metas, GoalFirst(stats))
  }

  /** The listing holds the same goals; every incomplete goal comes before every completed one,
      and goals alike in completion are in non-increasing percentage. */
  lemma {:induction false} OrderedGoalsProperties(metas: seq<Goal>, stats: Goal -> GoalStats)
    ensures multiset(OrderedGoals(metas, stats)) == multiset(metas)
    ensures forall i, j :: 0 <= i < j < |OrderedGoals(metas, stats)| ==>
      (stats(OrderedGoals(metas, stats)[i]).completada ==> stats(OrderedGoals(metas, stats)[j]).completada)
    ensures forall i, j ::
      (0 <= i < j < |OrderedGoals(metas, stats)|
       && stats(OrderedGoals(metas, stats)[i]).completada == stats(OrderedGoals(metas, stats)[j]).completada)
      ==> stats(OrderedGoals(metas, stats)[i]).porcentaje >= stats(OrderedGoals(metas, stats)[j]).porcentaje
  {
    GoalFirstIsPreorder(stats);
    SortBySorted(metas, GoalFirst(stats));
    var r := OrderedGoals(metas, stats);
    forall i, j | 0 <= i < j < |r| ensures stats(r[i]).completada ==> stats(r[j]).completada {
      assert GoalFirst(stats)(r[i], r[j]);
    }
    forall i, j | 0 <= i < j < |r| && stats(r[i]).completada == stats(r[j]).completada
      ensures stats(r[i]).porcentaje >= stats(r[j]).porcentaje
    {
      assert GoalFirst(stats)(r[i], r[j]);
    }
  }

  // ---------------------------------------------------------------- contributions

  /** The contribution box: the typed amount and the goal whose box is open. */
  datatype ContributionBox = ContributionBox(montoAporte: string, mostrarAporte: Option<string>)

  /** `handleAportar(metaId)`: `monto` is `parseFloat(montoAporte)`. An empty box or an amount
      that is not positive is ignored and leaves the box as it is; otherwise the contribution is
      handed to `aportarAMeta` and the box is emptied and closed. */
  function HandleContribution(box: ContributionBox, metaId: string, monto: real): (r: (Option<(string, real)>, ContributionBox))
    ensures r.0.Some? <==> box.montoAporte != "" && monto > 0.0
    ensures r.0.Some? ==> r.0.value == (metaId, monto) && r.1 == ContributionBox("", None)
    ensures r.0.None? ==> r.1 == box
  {
    if box.montoAporte == "" || monto <= 0.0 then (None, box)
    else (Some((metaId, monto)), ContributionBox("", None))
  }

  // ---------------------------------------------------------------- goal form

  datatype GoalForm = GoalForm(nombre: string, objetivo: string, fechaLimite: string, icono: string, color: string)

  const EmptyGoalForm := GoalForm("", "", "", "🎯", "blue")

  /** The fields a goal is saved or updated with. */
  datatype GoalFields = GoalFields(nombre: string, objetivo: real, fechaLimite: Option<string>, icono: string, color: string)

  /** What submitting the goal form asks of the store. */
  datatype GoalRequest =
    | NoRequest
    | CreateGoal(fields: GoalFields, progreso: real)
    | UpdateGoal(id: string, patch: GoalFields)

  /** The form as saved: `objetivo` is `parseFloat(formData.objetivo)` and an empty deadline is
      `null`. */
  function FieldsOf(f: GoalForm, objetivo: real): (r: GoalFields)
    ensures r.nombre == f.nombre && r.objetivo == objetivo && r.icono == f.icono && r.color == f.color
    ensures r.fechaLimite.None? <==> f.fechaLimite == ""
    ensures r.fechaLimite.Some? ==> r.fechaLimite.value == f.fechaLimite
  {
    GoalFields(f.nombre, objetivo, if f.fechaLimite == "" then None else Some(f.fechaLimite), f.icono, f.color)
  }

  /** `handleSubmit`: nothing happens without a name and a target. While editing the goal
      `metaEditando` the form becomes an update that carries no progress, so the goal's progress is
      not touched; otherwise a new goal starting at progress 0 is created. After a request the
      form is emptied and editing ends. */
  function HandleSubmit(f: GoalForm, objetivo: real, metaEditando: Option<string>): (r: (GoalRequest, GoalForm, Option<string>))
    ensures r.0.NoRequest? <==> f.nombre == "" || f.objetivo == ""
    ensures r.0.NoRequest? ==> r.1 == f && r.2 == metaEditando
    ensures r.0.CreateGoal? <==> f.nombre != "" && f.objetivo != "" && metaEditando.None?
    ensures r.0.CreateGoal? ==> r.0.progreso == 0.0 && r.0.fields == FieldsOf(f, objetivo)
    ensures r.0.UpdateGoal? ==> metaEditando == Some(r.0.id) && r.0.patch == FieldsOf(f, objetivo)
    ensures !r.0.NoRequest? ==> r.1 == EmptyGoalForm && r.2.None?
  {
    if f.nombre == "" || f.objetivo == "" then (NoRequest, f, metaEditando)
    else if metaEditando.Some? then (UpdateGoal(metaEditando.value, FieldsOf(f, objetivo)), EmptyGoalForm, None)
    else (CreateGoal(FieldsOf(f, objetivo), 0.0), EmptyGoalForm, None)
  }

  /** `handleEliminar`: a goal is deleted only once the user confirms. */
  function HandleDeleteGoal(id: string, confirmed: bool): (r: Option<string>)
    ensures r.Some? <==> confirmed
    ensures r.Some? ==> r.value == id
  {
    if !confirmed then None else Some(id)
  }
}
