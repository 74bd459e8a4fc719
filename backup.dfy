/** The backup panel of `src/components/Backup/Backup.jsx`: the editable keyword lists, and the
    export and import of the stored data. `detectarMejorMes` is not shown; it is a function
    parameter. The clock is an ISO timestamp parameter and the user's answer to the overwrite
    question a boolean parameter. */
module Backup {
  import opened Wrappers
  import opened Seqs
  import opened Text
  import opened Records
  import opened Storage
  import FinancialAnalysis

  // ---------------------------------------------------------------- keyword lists

  /** One value of the keyword editor: a list, or the free text typed into its box. */
  datatype KeywordValue = KeywordList(items: seq<string>) | KeywordText(text: string)

  /** The editor's `categorias` object. */
  type Editor = map<string, KeywordValue>

  /** `CLASIFICACION_CATEGORIAS`: the classifier's built-in keyword table. */
  function BuiltInTable(): KeywordTable
  {
    map["necesidades" := FinancialAnalysis.Keywords(FinancialAnalysis.Necesidades),
        "deseos" := FinancialAnalysis.Keywords(FinancialAnalysis.Deseos),
        "ahorro" := FinancialAnalysis.Keywords(FinancialAnalysis.Ahorro)]
  }

  function AsEditor(t: KeywordTable): (r: Editor)
    ensures r.Keys == t.Keys
    ensures forall k :: k in r ==> r[k] == KeywordList(t[k])
  {
    map k | k in t :: KeywordList(t[k])
  }

  /** The editor's first contents: the stored table when there is one, else the built-in one. */
  function InitialEditor(stored: Option<KeywordTable>): (r: Editor)
    ensures stored.Some? ==> r == AsEditor(stored.value)
    ensures stored.None? ==> r == AsEditor(BuiltInTable())
  {
    AsEditor(stored.GetOr(BuiltInTable()))
  }

  /** `handleCategoriasChange(key, value)`: the box's text replaces that key's value. */
  function EditKeywords(e: Editor, key: string, value: string): (r: Editor)
    ensures r.Keys == e.Keys + {key} && r[key] == KeywordText(value)
    ensures forall k :: k in e && k != key ==> r[k] == e[k]
  {
    e[key := KeywordText(value)]
  }

  function NonEmpty(): string -> bool
  {
    s => s != ""
  }

  /** Pieces of text, each trimmed, the empty ones dropped. */
  function TrimmedWords(pieces: seq<string>): seq<string>
  {
    Filter(Map(pieces, Trim), NonEmpty())
  }

  /** A text box's words: split at commas, each piece trimmed, empty pieces dropped. */
  function Words(text: string): seq<string>
  {
    TrimmedWords(Split(text, ','))
  }

  /** The normalisation of one value: a list is kept as it is, a text becomes its words. */
  function Normalize(v: KeywordValue): (r: seq<string>)
    ensures v.KeywordList? ==> r == v.items
    ensures v.KeywordText? ==> r == Words(v.text)
  {
    match v
    case KeywordList(items) => items
    case KeywordText(text) => Words(text)
  }

  /** The table `guardarCategorias` saves: every key of the editor with its normalised value. */
  function NormalizeTable(e: Editor): (r: KeywordTable)
    ensures r.Keys == e.Keys
    ensures forall k :: k in e ==> r[k] == Normalize(e[k])
  {
    map k | k in e :: Normalize(e[k])
  }

  lemma {:induction false} TrimKeepsOut(s: string, c: char)
    requires c !in s
    ensures c !in Trim(s)
  {
    var t := TrimStart(s);
    assert t == s[|s| - |t|..];
    assert Trim(s) == t[..|Trim(s)|];
  }

  /** A saved word: non-empty, no white space at either end, no comma. */
  predicate CleanWord(w: string)
  {
    w != "" && IsTrimmed(w) && ',' !in w
  }

  /** Every saved word is non-empty, has no white space at either end and holds no comma. */
  lemma {:induction false} WordsAreClean(text: string)
    ensures forall i :: 0 <= i < |Words(text)| ==> CleanWord(Words(text)[i])
  {
    SplitPiecesHaveNoSeparator(text, ',');
    CleanPieces(Split(text, ','));
  }

  /** Trimming comma-free pieces and dropping the empty ones leaves clean words. */
  lemma {:induction false} CleanPieces(pieces: seq<string>)
    requires forall k :: 0 <= k < |pieces| ==> ',' !in pieces[k]
    ensures forall i :: 0 <= i < |TrimmedWords(pieces)| ==> CleanWord(TrimmedWords(pieces)[i])
  {
    var trimmed := Map(pieces, Trim);
    var ws := TrimmedWords(pieces);
    FilterMembers(trimmed, NonEmpty());
    forall i | 0 <= i < |ws| ensures CleanWord(ws[i]) {
      assert ws[i] in trimmed;
      var j :| 0 <= j < |trimmed| && trimmed[j] == ws[i];
      TrimmedPiece(pieces[j]);
      assert NonEmpty()(ws[i]);
    }
  }

  /** A piece without a comma trims to a word without a comma and without outer white space. */
  lemma {:induction false} TrimmedPiece(piece: string)
    requires ',' !in piece
    ensures IsTrimmed(Trim(piece)) && ',' !in Trim(piece)
  {
    TrimResult(piece);
    TrimKeepsOut(piece, ',');
  }

  lemma {:induction false} BlanksThenWord(sp: string, w: string)
    requires forall i :: 0 <= i < |sp| ==> sp[i] == ' '
    requires ',' !in w
    ensures ',' !in sp + w
  {
  }

  lemma {:induction false} JoinFirst(sp: string, ws: seq<string>)
    requires |ws| >= 2
    ensures sp + Join(ws, ", ") == (sp + ws[0]) + [','] + (" " + Join(ws[1..], ", "))
  {
    assert Join(ws, ", ") == ws[0] + ", " + Join(ws[1..], ", ");
  }

  /** Pieces of a comma list whose first piece may carry leading blanks trim back to the words. */
  lemma {:induction false} TrimJoined(sp: string, ws: seq<string>)
    requires ws != []
    requires forall i :: 0 <= i < |sp| ==> sp[i] == ' '
    requires forall k :: 0 <= k < |ws| ==> IsTrimmed(ws[k]) && ',' !in ws[k]
    ensures Map(Split(sp + Join(ws, ", "), ','), Trim) == ws
    decreases |ws|
  {
    var first := sp + ws[0];
    BlanksThenWord(sp, ws[0]);
    assert Trim(first) == ws[0] by {
      assert forall i :: 0 <= i < |sp| ==> IsSpace(sp[i]);
      TrimLeadingSpaces(sp, ws[0]);
    }
    if |ws| == 1 {
      assert sp + Join(ws, ", ") == first;
      SplitWord(first, ',');
    } else {
      var rest := Join(ws[1..], ", ");
      JoinFirst(sp, ws);
      SplitCons(first, ',', " " + rest);
      assert Split(sp + Join(ws, ", "), ',') == [first] + Split(" " + rest, ',');
      TrimJoined(" ", ws[1..]);
      MapAppend([first], Split(" " + rest, ','), Trim);
      assert Map([first], Trim) == [ws[0]];
      assert ws == [ws[0]] + ws[1..];
    }
  }

  /** The box shows a list joined with ", "; saving that text unchanged gives back the same
      list, as long as its words are non-empty, trimmed and comma-free. */
  lemma {:induction false} SaveShownList(ws: seq<string>)
    requires forall k :: 0 <= k < |ws| ==> ws[k] != "" && IsTrimmed(ws[k]) && ',' !in ws[k]
    ensures Normalize(KeywordText(Join(ws, ", "))) == ws
  {
    if ws == [] {
      assert Split("", ',') == [""];
      assert Map([""], Trim) == [""];
      assert Filter([""], NonEmpty()) == [];
    } else {
      TrimJoined("", ws);
      assert "" + Join(ws, ", ") == Join(ws, ", ");
      FilterAll(ws, NonEmpty());
    }
  }

  /** `guardarCategorias`: the normalised table is saved. */
  method SaveKeywords(store: Store, e: Editor)
    modifies store
    ensures store.State() == old(store.State()).(clasificacion := Some(NormalizeTable(e)))
  {
    var normalized := map k | k in e :: Normalize(e[k]);
    store.SaveClasificacionCategorias(normalized);
  }

  /** `resetCategorias`: the editor and the stored table both go back to the built-in table. */
  method ResetKeywords(store: Store) returns (e: Editor)
    modifies store
    ensures e == AsEditor(BuiltInTable())
    ensures store.State() == old(store.State()).(clasificacion := Some(BuiltInTable()))
  {
    e := AsEditor(BuiltInTable());
    store.SaveClasificacionCategorias(BuiltInTable());
  }

  /** After a reset the editor opens on the same lists as with nothing stored. */
  lemma {:induction false} ResetShowsBuiltIn()
    ensures InitialEditor(Some(BuiltInTable())) == InitialEditor(None)
    ensures forall k :: k in InitialEditor(None) ==> InitialEditor(None)[k].KeywordList?
  {
  }

  // ---------------------------------------------------------------- export and import

  /** A backup file as read back: a key that is absent is `None`. */
  datatype BackupFile = BackupFile(
    version: string,
    fecha: string,
    config: Option<Config>,
    gastosFijos: Option<seq<FixedExpense>>,
    gastosVariables: Option<seq<VariableExpense>>,
    ingresos: Option<seq<Income>>)

  /** `exportarDatos`: version, time and the four stored values, the config as `getConfig`
      reads it. */
  function Snapshot(l: Ledger, now: string): BackupFile
  {
    BackupFile("1.0", now, Some(ReadConfig(l.config, now).config),
               Some(l.gastosFijos), Some(l.gastosVariables), Some(l.ingresos))
  }

  method Export(store: Store, now: string) returns (datos: BackupFile)
    modifies store
    ensures datos == Snapshot(old(store.State()), now)
    ensures store.State() == old(store.State()).(config := ReadConfig(old(store.config), now).stored)
  {
    var config := store.GetConfig(now);
    datos := BackupFile("1.0", now, Some(config), Some(store.gastosFijos), Some(store.gastosVariables), Some(store.ingresos));
  }

  /** The file holds all four parts `importarDatos` needs. */
  predicate Complete(datos: BackupFile)
  {
    datos.config.Some? && datos.gastosFijos.Some? && datos.gastosVariables.Some? && datos.ingresos.Some?
  }

  /** What storage holds after a confirmed import: the three collections as in the file, the
      file's config with both months set to `mejorMes`, and nothing else. */
  function Restored(datos: BackupFile, mejorMes: string): (r: Ledger)
    requires Complete(datos)
    ensures r.gastosFijos == datos.gastosFijos.value
    ensures r.gastosVariables == datos.gastosVariables.value
    ensures r.ingresos == datos.ingresos.value
    ensures r.config.Some? && r.config.value.mesActual == mejorMes && r.config.value.mesReferencia == mejorMes
    ensures r.config.value.(mesActual := datos.config.value.mesActual, mesReferencia := datos.config.value.mesReferencia)
            == datos.config.value
    ensures r.clasificacion.None?
  {
    Ledger(Some(datos.config.value.(mesActual := mejorMes, mesReferencia := mejorMes)),
           datos.gastosFijos.value, datos.gastosVariables.value, datos.ingresos.value, None)
  }

  datatype ImportOutcome = Rejected | Cancelled | Done

  /** `importarDatos`: a file missing a part is rejected and a restore the user does not confirm
      is cancelled, both without touching storage; otherwise storage is cleared, the variable
      expenses, incomes and fixed expenses are written as they are in the file, and the config
      is saved with the month `detectarMejorMes` picks from the file's expenses and incomes. */
  method Import(store: Store, datos: BackupFile, confirmar: bool,
                detectarMejorMes: (seq<VariableExpense>, seq<Income>) -> string) returns (outcome: ImportOutcome)
    modifies store
    ensures !Complete(datos) ==> outcome == Rejected && store.State() == old(store.State())
    ensures Complete(datos) && !confirmar ==> outcome == Cancelled && store.State() == old(store.State())
    ensures Complete(datos) && confirmar ==>
      outcome == Done && store.State() == Restored(datos, detectarMejorMes(datos.gastosVariables.value, datos.ingresos.value))
  {
    if datos.config.None? || datos.gastosFijos.None? || datos.gastosVariables.None? || datos.ingresos.None? {
      return Rejected;
    }
    if !confirmar {
      return Cancelled;
    }
    store.Clear();
    store.gastosVariables := datos.gastosVariables.value;
    store.ingresos := datos.ingresos.value;
    store.gastosFijos := datos.gastosFijos.value;
    var mejorMes := detectarMejorMes(datos.gastosVariables.value, datos.ingresos.value);
    var configActualizado := datos.config.value.(mesActual := mejorMes, mesReferencia := mejorMes);
    store.SaveConfig(configActualizado);
    outcome := Done;
  }

  /** Exporting and then importing the file gives back every fixed expense, variable expense
      and income exactly, and the config as it was read, with only its two months moved to the
      detected one. */
  lemma {:induction false} ExportImportRoundTrip(l: Ledger, now: string, mejorMes: string)
    ensures Complete(Snapshot(l, now))
    ensures Restored(Snapshot(l, now), mejorMes).gastosFijos == l.gastosFijos
    ensures Restored(Snapshot(l, now), mejorMes).gastosVariables == l.gastosVariables
    ensures Restored(Snapshot(l, now), mejorMes).ingresos == l.ingresos
    ensures Restored(Snapshot(l, now), mejorMes).config
            == Some(ReadConfig(l.config, now).config.(mesActual := mejorMes, mesReferencia := mejorMes))
  {
  }
}
