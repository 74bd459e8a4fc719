/** The envelope ("sobres") budget of `src/components/EnvelopeBudgeting/EnvelopeBudgeting.jsx`:
    the automatic split of the fund, each envelope's status, and the guards in front of the
    storage calls. The storage helpers the component calls (`sincronizarSobresConFondo`,
    `transferirEntreSobres`, `crearSobre`, `eliminarSobre`, `saveSobres`) are not shown and are
    represented only by the requests the component hands them. */
module EnvelopeBudgeting {
  import opened Wrappers
  import opened Seqs
  import opened Text

  /** One envelope of `sobresData.sobres`. */
  datatype Envelope = Envelope(id: string, nombre: string, asignado: real, gastado: real, color: string, tipo: string)

  /** `sobresData`: the envelopes and the money not yet given to any of them. */
  datatype EnvelopeData = EnvelopeData(sobres: seq<Envelope>, dineroSinAsignar: real)

  function Asignado(s: Envelope): real { s.asignado }

  /** `Math.round`: the nearest integer, halves rounded up. */
  function Round(x: real): (r: real)
    ensures x - 0.5 < r <= x + 0.5
    ensures r == r.Floor as real
  {
    (x + 0.5).Floor as real
  }

  function Max0(x: real): (r: real)
    ensures r >= 0.0 && r >= x && (r == 0.0 || r == x)
  {
    if x > 0.0 then x else 0.0
  }

  // ---------------------------------------------------------------- automatic split

  /** `distribucion[id] || 0`: the share of the fund suggested for an envelope id. */
  function Share(id: string): real
  {
    if id == "necesidades" then 0.50
    else if id == "alimentacion" then 0.15
    else if id == "transporte" then 0.10
    else if id == "ocio" then 0.10
    else if id == "ahorro_emergencia" then 0.10
    else if id == "pago_extra_deudas" then 0.05
    else 0.0
  }

  /** The ids the table names with a positive share, in the table's order. */
  const TableIds := ["necesidades", "alimentacion", "transporte", "ocio", "ahorro_emergencia", "pago_extra_deudas"]

  /** The suggested split gives away the whole fund: its shares add up to 1, and `otros`
      (or any id the table does not name) gets nothing. */
  lemma {:induction false} SharesSumToOne(id: string)
    requires id !in TableIds
    ensures Share(TableIds[0]) + Share(TableIds[1]) + Share(TableIds[2]) + Share(TableIds[3])
            + Share(TableIds[4]) + Share(TableIds[5]) == 1.0
    ensures Share(id) == 0.0 && Share("otros") == 0.0
  {
    assert "otros" != "necesidades" && "otros" != "alimentacion" && "otros" != "transporte";
    assert "otros" != "ahorro_emergencia" && "otros" != "pago_extra_deudas";
    assert "otros"[1] != "ocio"[1];
    assert id != TableIds[0] && id != TableIds[1] && id != TableIds[2];
    assert id != TableIds[3] && id != TableIds[4] && id != TableIds[5];
  }

  /** `Math.round(totalDisponible * porcentaje * 100) / 100`: the share rounded to cents. */
  function Allocation(fondo: real, id: string): real
  {
    Round(fondo * Share(id) * 100.0) / 100.0
  }

  /** An allocation lies within half a cent of the exact share of the fund. */
  lemma {:induction false} AllocationNearShare(fondo: real, id: string)
    ensures fondo * Share(id) - 0.005 < Allocation(fondo, id) <= fondo * Share(id) + 0.005
  {
    var y := fondo * Share(id) * 100.0;
    assert y - 0.5 < Round(y) <= y + 0.5;
    assert y / 100.0 == fondo * Share(id);
  }

  function AllocateFn(fondo: real): Envelope -> Envelope
  {
    (s: Envelope) => s.(asignado := Allocation(fondo, s.id))
  }

  /** The envelopes after the split: each one's `asignado` replaced by its allocation. */
  function Allocate(fondo: real, sobres: seq<Envelope>): seq<Envelope>
  {
    Map(sobres, AllocateFn(fondo))
  }

  /** `sobres.reduce((sum, s) => sum + s.asignado, 0)`. */
  function TotalAssigned(sobres: seq<Envelope>): real
  {
    Sum(sobres, Asignado)
  }

  /** `autoAsignar`: every envelope, in order, gets its rounded share of the fund, and the
      money left over (never below zero) is what remains unassigned. */
  method AutoAssign(fondo: real, data: EnvelopeData) returns (r: EnvelopeData)
    ensures r.sobres == Allocate(fondo, data.sobres)
    ensures r.dineroSinAsignar == Max0(fondo - TotalAssigned(r.sobres))
  {
    var nuevos := data.sobres;
    var totalAsignado := 0.0;
    assert data.sobres[..0] == [] && data.sobres[0..] == data.sobres;
    for i := 0 to |nuevos|
      invariant |nuevos| == |data.sobres|
      invariant nuevos == Allocate(fondo, data.sobres[..i]) + data.sobres[i..]
      invariant totalAsignado == TotalAssigned(Allocate(fondo, data.sobres[..i]))
    {
      var sobre := nuevos[i];
      var asignado := Allocation(fondo, sobre.id);
      MapStep(data.sobres, i, nuevos, AllocateFn(fondo));
      assert sobre.(asignado := asignado) == AllocateFn(fondo)(data.sobres[i]);
      AssignedSnoc(Allocate(fondo, data.sobres[..i]), AllocateFn(fondo)(data.sobres[i]));
      nuevos := nuevos[i := sobre.(asignado := asignado)];
      totalAsignado := totalAsignado + asignado;
    }
    assert data.sobres[..|data.sobres|] == data.sobres;
    assert nuevos == Allocate(fondo, data.sobres) + [];
    r := data.(sobres := nuevos, dineroSinAsignar := Max0(fondo - totalAsignado));
  }

  lemma {:induction false} AssignedSnoc(s: seq<Envelope>, e: Envelope)
    ensures TotalAssigned(s + [e]) == TotalAssigned(s) + e.asignado
  {
    SumAppend(s, [e], Asignado);
    SumSingle(e, Asignado);
  }

  /** The split touches only `asignado`: ids, names, spending, colours, types and the order of
      the envelopes stay as they were. */
  lemma {:induction false} AllocateChangesOnlyAssigned(fondo: real, sobres: seq<Envelope>)
    ensures |Allocate(fondo, sobres)| == |sobres|
    ensures forall i :: 0 <= i < |sobres| ==>
      Allocate(fondo, sobres)[i].(asignado := sobres[i].asignado) == sobres[i]
      && Allocate(fondo, sobres)[i].asignado == Allocation(fondo, sobres[i].id)
  {
  }

  function ShareOf(s: Envelope): real { Share(s.id) }

  /** The sum of the suggested shares of the envelopes present. */
  function SharesOf(sobres: seq<Envelope>): real
  {
    Sum(sobres, ShareOf)
  }

  lemma {:induction false} SharesStep(s: seq<Envelope>, k: nat)
    requires k < |s|
    ensures SharesOf(s[k..]) == ShareOf(s[k]) + SharesOf(s[k + 1..])
  {
    assert s[k..][1..] == s[k + 1..];
  }

  function TargetFn(fondo: real): Envelope -> real
  {
    (s: Envelope) => fondo * Share(s.id)
  }

  /** The exact (unrounded) amount the split aims at for the envelopes present. */
  function Target(fondo: real, sobres: seq<Envelope>): real
  {
    Sum(sobres, TargetFn(fondo))
  }

  /** The amount aimed at is the fund times the sum of the envelopes' shares. */
  lemma {:induction false} TargetIsShareOfFund(fondo: real, sobres: seq<Envelope>)
    ensures Target(fondo, sobres) == fondo * SharesOf(sobres)
    decreases |sobres|
  {
    if sobres != [] {
      var rest := sobres[1..];
      TargetIsShareOfFund(fondo, rest);
      assert Target(fondo, sobres) == fondo * ShareOf(sobres[0]) + Target(fondo, rest);
      assert SharesOf(sobres) == ShareOf(sobres[0]) + SharesOf(rest);
      Distribute(fondo, ShareOf(sobres[0]), SharesOf(rest));
    }
  }

  /** The split gives out the amount aimed at, up to half a cent per envelope. */
  lemma {:induction false} AllocateTotal(fondo: real, sobres: seq<Envelope>)
    ensures Target(fondo, sobres) - 0.005 * |sobres| as real <= TotalAssigned(Allocate(fondo, sobres))
    ensures TotalAssigned(Allocate(fondo, sobres)) <= Target(fondo, sobres) + 0.005 * |sobres| as real
    decreases |sobres|
  {
    if sobres != [] {
      var rest := sobres[1..];
      var all := Allocate(fondo, sobres);
      AllocateTotal(fondo, rest);
      assert all[1..] == Allocate(fondo, rest);
      AllocationNearShare(fondo, sobres[0].id);
      assert TotalAssigned(all) == all[0].asignado + TotalAssigned(Allocate(fondo, rest));
      assert Target(fondo, sobres) == TargetFn(fondo)(sobres[0]) + Target(fondo, rest);
      ErrorStep(all[0].asignado, TargetFn(fondo)(sobres[0]), TotalAssigned(Allocate(fondo, rest)),
                Target(fondo, rest), |rest|);
    }
  }

  lemma {:induction false} Distribute(f: real, a: real, b: real)
    ensures f * (a + b) == f * a + f * b
  {
  }

  /** Half a cent of error per envelope, one envelope at a time. */
  lemma {:induction false} ErrorStep(a: real, x: real, t: real, y: real, n: nat)
    requires x - 0.005 < a <= x + 0.005
    requires y - 0.005 * n as real <= t <= y + 0.005 * n as real
    ensures (x + y) - 0.005 * (n + 1) as real <= a + t <= (x + y) + 0.005 * (n + 1) as real
  {
  }

  /** On the six envelopes of the table, in its order, the split gives out the whole fund up to
      three cents, so at most three cents are left unassigned. */
  lemma {:induction false} AutoAssignTableEnvelopes(fondo: real, sobres: seq<Envelope>)
    requires |sobres| == |TableIds| && forall i :: 0 <= i < |sobres| ==> sobres[i].id == TableIds[i]
    ensures fondo - 0.03 <= TotalAssigned(Allocate(fondo, sobres)) <= fondo + 0.03
    ensures Max0(fondo - TotalAssigned(Allocate(fondo, sobres))) <= 0.03
  {
    SharesSumToOne("otros");
    SharesStep(sobres, 5);
    SharesStep(sobres, 4);
    SharesStep(sobres, 3);
    SharesStep(sobres, 2);
    SharesStep(sobres, 1);
    SharesStep(sobres, 0);
    assert sobres[6..] == [];
    assert sobres[0..] == sobres;
    TargetIsShareOfFund(fondo, sobres);
    AllocateTotal(fondo, sobres);
  }

  /** The unassigned money of an envelope list: `Math.max(0, totalDisponible - totalAsignado)`. */
  lemma {:induction false} UnassignedNeverNegative(fondo: real, data: EnvelopeData, r: EnvelopeData)
    requires r.sobres == Allocate(fondo, data.sobres) && r.dineroSinAsignar == Max0(fondo - TotalAssigned(r.sobres))
    ensures r.dineroSinAsignar >= 0.0
    ensures r.dineroSinAsignar > 0.0 <==> TotalAssigned(r.sobres) < fondo
  {
  }

  // ---------------------------------------------------------------- status and banner

  /** What each envelope card shows. */
  datatype Status = Status(disponible: real, porcentajeUsado: real, excedido: bool)

  /** `disponible`, `porcentajeUsado` and `excedido` of one envelope. */
  function StatusOf(s: Envelope): (r: Status)
    ensures r.disponible + s.gastado == s.asignado
    ensures r.excedido <==> r.disponible < 0.0
    ensures s.asignado <= 0.0 ==> r.porcentajeUsado == 0.0
    ensures s.asignado > 0.0 ==> r.porcentajeUsado * s.asignado == s.gastado * 100.0
  {
    Status(s.asignado - s.gastado, if s.asignado > 0.0 then s.gastado / s.asignado * 100.0 else 0.0,
           s.gastado > s.asignado)
  }

  /** A funded envelope is over budget exactly when more than 100% of it is used. */
  lemma {:induction false} ExceededIffOverHundred(s: Envelope)
    requires s.asignado > 0.0
    ensures StatusOf(s).excedido <==> StatusOf(s).porcentajeUsado > 100.0
  {
    var r := StatusOf(s);
    assert r.porcentajeUsado * s.asignado == s.gastado * 100.0;
    if r.porcentajeUsado > 100.0 {
      assert r.porcentajeUsado * s.asignado > 100.0 * s.asignado;
    } else {
      assert r.porcentajeUsado * s.asignado <= 100.0 * s.asignado;
    }
  }

  /** `porcentajeAsignado`: the share of the fund given to envelopes, 0 when there is no fund. */
  function PercentAssigned(fondo: real, sobres: seq<Envelope>): (r: real)
    ensures fondo <= 0.0 ==> r == 0.0
    ensures fondo > 0.0 ==> r * fondo == TotalAssigned(sobres) * 100.0
  {
    if fondo > 0.0 then TotalAssigned(sobres) / fondo * 100.0 else 0.0
  }

  /** `hayDineroSinAsignar`: the banner asking to give every euro a job. */
  predicate ShowsUnassignedBanner(data: EnvelopeData)
  {
    data.dineroSinAsignar > 0.01
  }

  /** After an automatic split the banner shows exactly when more than a cent of the fund is
      left over. */
  lemma {:induction false} BannerAfterAutoAssign(fondo: real, data: EnvelopeData, r: EnvelopeData)
    requires r.sobres == Allocate(fondo, data.sobres) && r.dineroSinAsignar == Max0(fondo - TotalAssigned(r.sobres))
    ensures ShowsUnassignedBanner(r) <==> fondo - TotalAssigned(r.sobres) > 0.01
  {
  }

  // ---------------------------------------------------------------- transfers

  /** The transfer form: the selected source and destination ids and the typed amount. */
  datatype TransferForm = TransferForm(desde: string, hacia: string, cantidad: string)

  const EmptyTransfer := TransferForm("", "", "")

  /** `handleTransferencia`: the form is handed to `transferirEntreSobres` only when every field
      is filled and the two envelopes differ; then the form is cleared. */
  function HandleTransfer(f: TransferForm): (r: (Option<TransferForm>, TransferForm))
    ensures r.0.Some? <==> f.desde != "" && f.hacia != "" && f.cantidad != "" && f.desde != f.hacia
    ensures r.0.Some? ==> r.0.value == f && r.1 == EmptyTransfer
    ensures r.0.None? ==> r.1 == f
  {
    if f.desde == "" || f.hacia == "" || f.cantidad == "" then (None, f)
    else if f.desde == f.hacia then (None, f)
    else (Some(f), EmptyTransfer)
  }

  function HasRoom(): Envelope -> bool
  {
    (s: Envelope) => s.asignado > s.gastado
  }

  function IsNot(id: string): Envelope -> bool
  {
    (s: Envelope) => s.id != id
  }

  /** The "from" choices: the envelopes with money still available, in order. */
  function SourceOptions(sobres: seq<Envelope>): seq<Envelope>
  {
    Filter(sobres, HasRoom())
  }

  /** The "to" choices: every envelope but the selected source, in order. */
  function DestinationOptions(sobres: seq<Envelope>, desde: string): seq<Envelope>
  {
    Filter(sobres, IsNot(desde))
  }

  /** The source list holds exactly the envelopes with `asignado > gastado`, and the destination
      list exactly those that are not the source. */
  lemma {:induction false} TransferOptions(sobres: seq<Envelope>, desde: string)
    ensures forall s :: s in SourceOptions(sobres) ==> s in sobres && s.asignado > s.gastado
    ensures forall s :: s in sobres && s.asignado > s.gastado ==> s in SourceOptions(sobres)
    ensures forall s :: s in DestinationOptions(sobres, desde) ==> s in sobres && s.id != desde
    ensures forall s :: s in sobres && s.id != desde ==> s in DestinationOptions(sobres, desde)
  {
    FilterMembers(sobres, HasRoom());
    FilterMembers(sobres, IsNot(desde));
    forall s | s in sobres && s.asignado > s.gastado ensures s in SourceOptions(sobres) {
      var i :| 0 <= i < |sobres| && sobres[i] == s;
      assert HasRoom()(sobres[i]);
    }
    forall s | s in sobres && s.id != desde ensures s in DestinationOptions(sobres, desde) {
      var i :| 0 <= i < |sobres| && sobres[i] == s;
      assert IsNot(desde)(sobres[i]);
    }
    forall s | s in SourceOptions(sobres) ensures s in sobres && s.asignado > s.gastado {
      var i :| 0 <= i < |SourceOptions(sobres)| && SourceOptions(sobres)[i] == s;
    }
    forall s | s in DestinationOptions(sobres, desde) ensures s in sobres && s.id != desde {
      var i :| 0 <= i < |DestinationOptions(sobres, desde)| && DestinationOptions(sobres, desde)[i] == s;
    }
  }

  // ---------------------------------------------------------------- creating and deleting

  /** `handleCrearSobre`: a new envelope is requested only when its name is not blank. */
  function HandleCreate(nombre: string): (r: bool)
    ensures r <==> exists i :: 0 <= i < |nombre| && !IsSpace(nombre[i])
  {
    TrimBlank(nombre);
    Trim(nombre) != ""
  }

  /** A name trims to nothing exactly when it is all white space. */
  lemma {:induction false} TrimBlank(s: string)
    ensures Trim(s) != "" <==> exists i :: 0 <= i < |s| && !IsSpace(s[i])
  {
    TrimResult(s);
    var t := TrimStart(s);
    if Trim(s) != "" {
      assert Trim(s)[0] == t[0] == s[|s| - |t|];
    }
  }

  /** `handleEliminarSobre`: only a custom envelope, and only once the user confirms, is passed
      to `eliminarSobre`. `confirmed` is the answer to the confirmation dialog. */
  function HandleDelete(id: string, confirmed: bool): (r: Option<string>)
    ensures r.Some? <==> StartsWith(id, "custom_") && confirmed
    ensures r.Some? ==> r.value == id
  {
    if !StartsWith(id, "custom_") then None
    else if !confirmed then None
    else Some(id)
  }

  /** The delete button appears only on envelopes a delete request is accepted for. */
  predicate ShowsDeleteButton(s: Envelope)
  {
    StartsWith(s.id, "custom_")
  }

  /** The delete button is shown exactly on the envelopes a confirmed delete removes. */
  lemma {:induction false} DeleteButtonIffDeletable(s: Envelope)
    ensures ShowsDeleteButton(s) <==> HandleDelete(s.id, true) == Some(s.id)
    ensures !ShowsDeleteButton(s) ==> HandleDelete(s.id, true).None? && HandleDelete(s.id, false).None?
  {
  }

  lemma {:induction false} BuiltInEnvelopesStay(id: string, confirmed: bool)
    requires id in TableIds || id == "otros"
    ensures HandleDelete(id, confirmed).None?
  {
    assert !StartsWith("otros", "custom_") by { assert "otros"[0] != "custom_"[0]; }
    assert "necesidades"[0] != 'c' && "alimentacion"[0] != 'c' && "transporte"[0] != 'c';
    assert "ocio"[0] != 'c' && "ahorro_emergencia"[0] != 'c' && "pago_extra_deudas"[0] != 'c';
  }

  /** `config.fondoDisponible || 0`. */
  function FundOf(fondoDisponible: Option<real>): (r: real)
    ensures fondoDisponible.None? ==> r == 0.0
    ensures fondoDisponible.Some? ==> r == fondoDisponible.value
  {
    fondoDisponible.GetOr(0.0)
  }
}
