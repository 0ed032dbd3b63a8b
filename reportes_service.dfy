/**
 * The three report endpoints: the JSON report, the export download and the
 * report generated from a natural-language prompt. Each one validates the
 * request, generates the report and records it in the history table
 * (`ReporteGenerado`), which `ReportHistory` models. The request to the
 * language model is not made here: its outcome is a parameter.
 */
module ReportesService {
  import opened Wrappers
  import opened Accounts
  import opened Json
  import opened DrfFields
  import opened ReportesCatalog
  import opened ReportesSerializers
  import opened ReportesData
  import opened ReportesFilters
  import opened ReportesRows
  import opened ReportesStats
  import opened ReportesEngine
  import opened ReportesExport

  /** `configuracion_usada`: the settings of a generated report, or the configuration the model produced. */
  datatype Configuracion =
    | Usada(campos: seq<string>, agrupacion: Option<string>, ordenamiento: Option<string>, limite: int)
    | DeIa(config: Json)

  /** A `ReporteGenerado` row. */
  datatype Generado = Generado(
    usuario: int,
    tipo: TipoReporte,
    configuracion: Configuracion,
    filtros: seq<(string, Json)>,
    resumen: Resumen,
    formato: string,
    prompt: Option<string>,
    respuesta: Option<string>)

  /** The formats a history row can record. */
  const Formatos: set<string> := {"json", "csv", "xlsx", "pdf"}

  /** `payload.get('limite') or 100`: a limit of 0 is recorded as 100. */
  function LimiteUsado(p: Payload): (l: int)
    ensures l != 0
    ensures p.limite != 0 ==> l == p.limite
    ensures p.limite == 0 ==> l == DefaultLimite
  {
    if p.limite != 0 then p.limite else DefaultLimite
  }

  /** The history row of a report generated from a payload, in the given format. */
  function HistoryEntry(user: User, p: Payload, rep: Reporte, formato: string): Generado {
    Generado(user.id, rep.tipo, Usada(rep.campos, rep.agrupacion, rep.ordenamiento, LimiteUsado(p)),
             rep.filtros, rep.resumen, formato, None, None)
  }

  /** The body of a download. */
  datatype Body = CsvBody(text: string) | XlsxBody(sheet: Sheet) | PdfBody(doc: PdfDoc)

  datatype Response =
    | Generated(reporte: Reporte)
    | FromPrompt(reporte: Reporte, config: Json)
    | Download(disposition: string, contentType: string, body: Body)
    | Failure(status: int)

  /** The file of a report in a format (`floatText` is Python's float `repr`, `filtrosText` the filters' JSON text). */
  function ExportBody(f: Formato, rep: Reporte, filtrosText: string, floatText: real -> string): Body {
    match f
    case Csv => CsvBody(CsvDocument(CsvRecords(GridOf(rep.campos, rep.rows), floatText)))
    case Xlsx => XlsxBody(ExcelSheet(rep.campos, rep.rows))
    case Pdf => PdfBody(PdfLayout(rep.tipo, filtrosText, rep.campos, rep.rows, floatText))
  }

  /** `attachment; filename="<name>"`. */
  function Disposition(name: string): string {
    "attachment; filename=\"" + name + "\""
  }

  /** The download of a report: the file name, the media type and the file. */
  function DownloadOf(f: Formato, rep: Reporte, stamp: string, filtrosText: string, floatText: real -> string): Response {
    Download(Disposition(Filename(rep.tipo, stamp, f)), ContentType(f), ExportBody(f, rep, filtrosText, floatText))
  }

  /** Whether the optional export libraries can be imported: openpyxl for spreadsheets, reportlab for PDF. */
  datatype Libraries = Libraries(openpyxl: bool, reportlab: bool)

  /**
   * Whether writing the file raises: a spreadsheet without openpyxl or with a cell
   * text openpyxl refuses, or a PDF without reportlab. CSV needs nothing.
   */
  predicate ExportFails(f: Formato, rep: Reporte, libs: Libraries) {
    match f
    case Csv => false
    case Xlsx => !libs.openpyxl || !SheetAccepts(GridOf(rep.campos, rep.rows))
    case Pdf => !libs.reportlab
  }

  /** Writes the file of a report in the chosen format. */
  method ExportFile(f: Formato, rep: Reporte, stamp: string, filtrosText: string, floatText: real -> string)
    returns (resp: Response)
    ensures resp == DownloadOf(f, rep, stamp, filtrosText, floatText)
  {
    var body: Body;
    match f {
      case Csv =>
        var text := ExportCsv(rep.campos, rep.rows, floatText);
        body := CsvBody(text);
      case Xlsx =>
        body := XlsxBody(ExcelSheet(rep.campos, rep.rows));
      case Pdf =>
        var doc := ExportPdf(rep.tipo, filtrosText, rep.campos, rep.rows, floatText);
        body := PdfBody(doc);
    }
    resp := Download(Disposition(Filename(rep.tipo, stamp, f)), ContentType(f), body);
  }

  lemma ExtensionRecorded(f: Formato)
    ensures Extension(f) in Formatos
  {
  }

  // ---------------------------------------------------------------- the model's reply

  /** The HTTP exchange with the language model: no answer at all, or a status and a body (`None` when it is not JSON). */
  datatype AiReply = NoAnswer | Answer(status: int, body: Option<Json>)

  /** `data['choices'][0]['message']['content']`, `None` where Python raises. */
  function ReplyContent(body: Json): (r: Option<Json>)
    ensures r.Some? ==> body.JObj? && Get(body.members, "choices").Some?
  {
    match body
    case JObj(m) =>
      (match Get(m, "choices")
       case Some(JArr(items)) =>
         if items == [] then None
         else
           (match items[0]
            case JObj(first) =>
              (match Get(first, "message")
               case Some(JObj(msg)) => Get(msg, "content")
               case _ => None)
            case _ => None)
       case _ => None)
    case _ => None
  }

  /** `os.getenv(a) or os.getenv(b)`. */
  function EnvOr(a: Option<string>, b: Option<string>): (r: Option<string>)
    ensures r.Some? && r.value != "" <==> (a.Some? && a.value != "") || (b.Some? && b.value != "")
  {
    if a.Some? && a.value != "" then a else b
  }

/**
   * The model's answer up to the parsed configuration: no answer, or an answer
   * without `choices[0].message.content`, is a 500; an error status is a 502;
   * content that is not text or that `parseJson` (`json.loads`) refuses is a 400.
   * Otherwise the content text and the configuration it holds.
   */
  function AiConfig(reply: AiReply, parseJson: string -> Option<Json>): (r: Result<(string, Json)>)
    ensures reply.NoAnswer? ==> r == Err(500)
    ensures reply.Answer? && reply.status >= 400 ==> r == Err(502)
    ensures reply.Answer? && reply.status < 400 && (reply.body.None? || ReplyContent(reply.body.value).None?) ==> r == Err(500)
    ensures r == Err(400) <==>
      reply.Answer? && reply.status < 400 && reply.body.Some? && ReplyContent(reply.body.value).Some? &&
      (!ReplyContent(reply.body.value).value.JStr? || parseJson(ReplyContent(reply.body.value).value.s).None?)
    ensures r.Ok? ==>
      reply.Answer? && reply.status < 400 && reply.body.Some? &&
      ReplyContent(reply.body.value) == Some(JStr(r.value.0)) && parseJson(r.value.0) == Some(r.value.1)
  {
    match reply
    case NoAnswer => Err(500)
    case Answer(status, body) =>
      if status >= 400 then Err(502)
      else if body.None? then Err(500)
      else
        match ReplyContent(body.value)
        case None => Err(500)
        case Some(content) =>
          if !content.JStr? then Err(400)
          else
            match parseJson(content.s)
            case None => Err(400)
            case Some(config) => Ok((content.s, config))
  }

  /** The history row of a report generated from a prompt: the cleaned configuration, the prompt and the model's text. */
  function AiEntry(user: User, rep: Reporte, config: Json, prompt: string, content: string): Generado {
    Generado(user.id, rep.tipo, DeIa(config), rep.filtros, rep.resumen, "json", Some(prompt), Some(content))
  }

    /** `config.get(k) is None`, or also `== ''` when `blankToo`: only such a present key is popped. */
  predicate Droppable(m: seq<(string, Json)>, key: string, blankToo: bool) {
    Get(m, key) == Some(JNull) || (blankToo && Get(m, key) == Some(JStr("")))
  }

  function DropIf(m: seq<(string, Json)>, key: string, blankToo: bool): seq<(string, Json)> {
    if Droppable(m, key, blankToo) then Without(m, key) else m
  }

  /**
   * The cleaning applied to the model's configuration before validation: a null
   * or empty `agrupacion`/`ordenamiento` and a null `campos_seleccionados`/`filtros`
   * are removed; anything that is not an object is left alone.
   */
  function Sanitize(config: Json): (r: Json)
    ensures config.JObj? <==> r.JObj?
    ensures !config.JObj? ==> r == config
  {
    match config
    case JObj(m) =>
      var m1 := DropIf(m, "agrupacion", true);
      var m2 := DropIf(m1, "ordenamiento", true);
      var m3 := DropIf(m2, "campos_seleccionados", false);
      JObj(DropIf(m3, "filtros", false))
    case _ => config
  }

  predicate Cleaned(key: string) {
    key == "agrupacion" || key == "ordenamiento" || key == "campos_seleccionados" || key == "filtros"
  }

  lemma GetDropIf(m: seq<(string, Json)>, key: string, blankToo: bool, other: string)
    ensures other != key ==> Get(DropIf(m, key, blankToo), other) == Get(m, other)
    ensures Get(DropIf(m, key, blankToo), key) == (if Droppable(m, key, blankToo) then None else Get(m, key))
  {
    if Droppable(m, key, blankToo) && other != key {
      GetWithout(m, key, other);
    }
  }

  /**
   * What cleaning does to each key: every key other than the four cleaned ones
   * keeps its value; a cleaned key is gone when it held null (or, for
   * `agrupacion`/`ordenamiento`, empty text) and keeps its value otherwise.
   */
  lemma SanitizeKeys(m: seq<(string, Json)>, key: string)
    ensures var s := Sanitize(JObj(m)).members;
      (!Cleaned(key) ==> Get(s, key) == Get(m, key)) &&
      (Cleaned(key) ==>
        var blankToo := key == "agrupacion" || key == "ordenamiento";
        Get(s, key) == (if Droppable(m, key, blankToo) then None else Get(m, key)))
  {
    var m1 := DropIf(m, "agrupacion", true);
    var m2 := DropIf(m1, "ordenamiento", true);
    var m3 := DropIf(m2, "campos_seleccionados", false);
    GetDropIf(m, "agrupacion", true, key);
    GetDropIf(m1, "ordenamiento", true, key);
    GetDropIf(m2, "campos_seleccionados", false, key);
    GetDropIf(m3, "filtros", false, key);
    if key == "ordenamiento" {
      GetDropIf(m, "agrupacion", true, key);
    }
    if key == "campos_seleccionados" {
      GetDropIf(m, "agrupacion", true, key);
      GetDropIf(m1, "ordenamiento", true, key);
    }
    if key == "filtros" {
      GetDropIf(m, "agrupacion", true, key);
      GetDropIf(m1, "ordenamiento", true, key);
      GetDropIf(m2, "campos_seleccionados", false, key);
    }
  }

  lemma DropIfUnchanged(m: seq<(string, Json)>, key: string, blankToo: bool)
    requires !Droppable(m, key, blankToo)
    ensures DropIf(m, key, blankToo) == m
  {
  }

  /** Cleaning twice is cleaning once. */
  lemma SanitizeIdempotent(config: Json)
    ensures Sanitize(Sanitize(config)) == Sanitize(config)
  {
    if config.JObj? {
      var s := Sanitize(config).members;
      SanitizeKeys(config.members, "agrupacion");
      SanitizeKeys(config.members, "ordenamiento");
      SanitizeKeys(config.members, "campos_seleccionados");
      SanitizeKeys(config.members, "filtros");
      DropIfUnchanged(s, "agrupacion", true);
      DropIfUnchanged(s, "ordenamiento", true);
      DropIfUnchanged(s, "campos_seleccionados", false);
      DropIfUnchanged(s, "filtros", false);
    }
  }

  /**
   * A null `campos_seleccionados` or `filtros`, which validation refuses, is read
   * as absent once cleaned; the report type and the limit are read as before.
   */
  lemma SanitizeAcceptsNullLists(m: seq<(string, Json)>)
    ensures Get(m, "campos_seleccionados") == Some(JNull) ==> CamposOf(m).None?
    ensures Get(m, "filtros") == Some(JNull) ==> FiltrosOf(m).None?
    ensures var s := Sanitize(JObj(m)).members;
      (Get(m, "campos_seleccionados") == Some(JNull) ==> CamposOf(s) == Some([])) &&
      (Get(m, "filtros") == Some(JNull) ==> FiltrosOf(s) == Some([])) &&
      TipoOf(s) == TipoOf(m) && LimiteOf(s) == LimiteOf(m)
  {
    SanitizeKeys(m, "campos_seleccionados");
    SanitizeKeys(m, "filtros");
    SanitizeKeys(m, "tipo_reporte");
    SanitizeKeys(m, "limite");
  }

  /** An empty `agrupacion` would be kept as empty text; cleaned, it is read as no grouping. */
  lemma SanitizeBlankGrouping(m: seq<(string, Json)>)
    requires Get(m, "agrupacion") == Some(JStr(""))
    ensures OptionalTextOf(m, "agrupacion") == Some(Some(""))
    ensures OptionalTextOf(Sanitize(JObj(m)).members, "agrupacion") == Some(None)
  {
    SanitizeKeys(m, "agrupacion");
    assert Blank(JStr(""));
  }

  /**
   * The export of a validated request: a failed generation is a 500; an
   * unsupported format is a 400, decided only after the report is generated;
   * otherwise the file is returned under `reporte_<tipo>_<stamp>.<ext>`, and the
   * export is recorded unless the insert fails, which does not affect the answer.
   */
  ghost predicate Exported(user: User, p: Payload, formato: Option<string>, db: Db, order: seq<string>,
                           collation: Value -> int, generadoEn: string, stamp: string, filtrosText: string,
                           floatText: real -> string, libs: Libraries, insertOk: bool,
                           before: seq<Generado>, after: seq<Generado>,
                           resp: Response, report: Result<Reporte>, filtered: Collection)
  {
    Generates(user, p, db, order, collation, generadoEn, filtered, report) &&
    Delivered(user, p, formato, stamp, filtrosText, floatText, libs, insertOk, before, after, resp, report)
  }

  /** The export's answer and history for a generation outcome `report`. */
  predicate Delivered(user: User, p: Payload, formato: Option<string>, stamp: string, filtrosText: string,
                      floatText: real -> string, libs: Libraries, insertOk: bool,
                      before: seq<Generado>, after: seq<Generado>, resp: Response, report: Result<Reporte>)
  {
    (report.Err? ==> resp == Failure(500) && after == before) &&
    (report.Ok? && FormatoOf(formato).None? ==> resp == Failure(400) && after == before) &&
    (report.Ok? && FormatoOf(formato).Some? && ExportFails(FormatoOf(formato).value, report.value, libs) ==>
      resp == Failure(500) && after == before) &&
    (report.Ok? && FormatoOf(formato).Some? && !ExportFails(FormatoOf(formato).value, report.value, libs) ==>
      var f := FormatoOf(formato).value;
      resp == DownloadOf(f, report.value, stamp, filtrosText, floatText) &&
      after == before + (if insertOk then [HistoryEntry(user, p, report.value, Extension(f))] else []))
  }

  /**
   * What becomes of a cleaned configuration the model produced: a 400 when it
   * fails validation; otherwise the report `Generates` describes, a 500 when it
   * fails or the insert fails, and else the report with the configuration,
   * recorded with the prompt and the model's text.
   */
  ghost predicate FromConfig(user: User, config: Json, prompt: string, content: string, db: Db, order: seq<string>,
                             collation: Value -> int, generadoEn: string, insertOk: bool,
                             before: seq<Generado>, after: seq<Generado>,
                             resp: Response, report: Result<Reporte>, filtered: Collection)
  {
    (ValidatePayload(config).None? ==> resp == Failure(400)) &&
    (ValidatePayload(config).Some? ==>
      Generates(user, ValidatePayload(config).value, db, order, collation, generadoEn, filtered, report) &&
      (report.Err? || !insertOk ==> resp == Failure(500)) &&
      (report.Ok? && insertOk ==>
        resp == FromPrompt(report.value, config) && after == before + [AiEntry(user, report.value, config, prompt, content)]))
  }

  // ---------------------------------------------------------------- the history table

  class ReportHistory {
    var entries: seq<Generado>

    /** Every recorded format is JSON or one of the export formats. */
    predicate Valid()
      reads this
    {
      forall e :: e in entries ==> e.formato in Formatos
    }

    constructor ()
      ensures entries == [] && Valid()
    {
      entries := [];
    }

    /**
     * `generar_reporte_dinamico`: an invalid request or a failed generation is a
     * 500 and records nothing; a failed history insert (`insertOk` false) is a
     * 500 as well, with nothing recorded; otherwise the report is returned and
     * recorded in JSON format with the limit as given, 0 read as 100.
     */
    method GenerarDinamico(user: User, data: Json, db: Db, order: seq<string>, collation: Value -> int,
                           generadoEn: string, insertOk: bool)
      returns (resp: Response, ghost report: Result<Reporte>, ghost filtered: Collection)
      requires Valid()
      modifies this
      ensures Valid()
      ensures ValidatePayload(data).None? ==> resp == Failure(500) && entries == old(entries)
      ensures ValidatePayload(data).Some? ==>
        var p := ValidatePayload(data).value;
        Generates(user, p, db, order, collation, generadoEn, filtered, report) &&
          (report.Err? || !insertOk ==> resp == Failure(500) && entries == old(entries)) &&
          (report.Ok? && insertOk ==> resp == Generated(report.value) && entries == old(entries) + [HistoryEntry(user, p, report.value, "json")])
    {
      report, filtered := Err(0), Properties([]);
      var v := ValidatePayload(data);
      if v.None? {
        resp := Failure(500);
        return;
      }
      resp, report, filtered := GenerateAndRecord(user, v.value, db, order, collation, generadoEn, insertOk);
    }

    /** Generates the report of a valid payload and records it in JSON format when it succeeds. */
    method GenerateAndRecord(user: User, p: Payload, db: Db, order: seq<string>, collation: Value -> int,
                             generadoEn: string, insertOk: bool)
      returns (resp: Response, ghost report: Result<Reporte>, ghost filtered: Collection)
      requires Valid()
      modifies this
      ensures Valid()
      ensures Generates(user, p, db, order, collation, generadoEn, filtered, report)
      ensures report.Err? || !insertOk ==> resp == Failure(500) && entries == old(entries)
      ensures report.Ok? && insertOk ==> resp == Generated(report.value) && entries == old(entries) + [HistoryEntry(user, p, report.value, "json")]
    {
      var r;
      r, filtered := GenerarReporte(user, p, db, order, collation, generadoEn);
      report := r;
      resp := Record(user, p, r, insertOk);
    }

    /** The answer of `generar_reporte_dinamico` for a generation outcome, recorded in JSON format on success. */
    method Record(user: User, p: Payload, r: Result<Reporte>, insertOk: bool) returns (resp: Response)
      requires Valid()
      modifies this
      ensures Valid()
      ensures r.Err? || !insertOk ==> resp == Failure(500) && entries == old(entries)
      ensures r.Ok? && insertOk ==> resp == Generated(r.value) && entries == old(entries) + [HistoryEntry(user, p, r.value, "json")]
    {
      if r.Err? || !insertOk {
        return Failure(500);
      }
      entries := entries + [HistoryEntry(user, p, r.value, "json")];
      resp := Generated(r.value);
    }

    /**
     * `exportar_reporte`: an invalid request is a 500; otherwise as `ExportPayload`.
     */
    method Exportar(user: User, formato: Option<string>, data: Json, db: Db, order: seq<string>, collation: Value -> int,
                    generadoEn: string, stamp: string, filtrosText: string, floatText: real -> string,
                    libs: Libraries, insertOk: bool)
      returns (resp: Response, ghost report: Result<Reporte>, ghost filtered: Collection)
      requires Valid()
      modifies this
      ensures Valid()
      ensures ValidatePayload(data).None? ==> resp == Failure(500) && entries == old(entries)
      ensures ValidatePayload(data).Some? ==>
        Exported(user, ValidatePayload(data).value, formato, db, order, collation, generadoEn, stamp, filtrosText, floatText,
                 libs, insertOk, old(entries), entries, resp, report, filtered)
    {
      report, filtered := Err(0), Properties([]);
      var v := ValidatePayload(data);
      if v.None? {
        resp := Failure(500);
        return;
      }
      resp, report, filtered := ExportPayload(user, v.value, formato, db, order, collation, generadoEn, stamp,
                                              filtrosText, floatText, libs, insertOk);
    }

    method ExportPayload(user: User, p: Payload, formato: Option<string>, db: Db, order: seq<string>, collation: Value -> int,
                         generadoEn: string, stamp: string, filtrosText: string, floatText: real -> string,
                         libs: Libraries, insertOk: bool)
      returns (resp: Response, ghost report: Result<Reporte>, ghost filtered: Collection)
      requires Valid()
      modifies this
      ensures Valid()
      ensures Exported(user, p, formato, db, order, collation, generadoEn, stamp, filtrosText, floatText,
                       libs, insertOk, old(entries), entries, resp, report, filtered)
    {
      var r;
      r, filtered := GenerarReporte(user, p, db, order, collation, generadoEn);
      report := r;
      resp := DeliverAndRecord(user, p, formato, r, stamp, filtrosText, floatText, libs, insertOk);
    }

    /**
     * The rest of `exportar_reporte` once the report is generated: a failed
     * generation is a 500 and an unknown format a 400; writing the file may raise
     * (`ExportFails`), a 500 with nothing recorded; otherwise the file is returned
     * and the export recorded unless the insert fails.
     */
    method DeliverAndRecord(user: User, p: Payload, formato: Option<string>, r: Result<Reporte>, stamp: string,
                            filtrosText: string, floatText: real -> string, libs: Libraries, insertOk: bool)
      returns (resp: Response)
      requires Valid()
      modifies this
      ensures Valid()
      ensures Delivered(user, p, formato, stamp, filtrosText, floatText, libs, insertOk, old(entries), entries, resp, r)
    {
      var f := FormatoOf(formato);
      if r.Err? {
        return Failure(500);
      }
      if f.None? {
        return Failure(400);
      }
      if ExportFails(f.value, r.value, libs) {
        return Failure(500);
      }
      resp := ExportFile(f.value, r.value, stamp, filtrosText, floatText);
      ExtensionRecorded(f.value);
      if insertOk {
        entries := entries + [HistoryEntry(user, p, r.value, Extension(f.value))];
      }
    }

    /**
     * `generar_reporte_por_ia`: an invalid request or a missing API key is a 500;
     * then the model's answer decides as `AiConfig` says; a configuration that,
     * once cleaned, fails validation is a 400; then the report is generated and
     * recorded with the prompt and the model's text, where a failed generation
     * or insert is a 500. Only a success records anything.
     */
    method GenerarPorIa(user: User, data: Json, apiKey: Option<string>, apiKeyVite: Option<string>, reply: AiReply,
                        parseJson: string -> Option<Json>, db: Db, order: seq<string>, collation: Value -> int,
                        generadoEn: string, insertOk: bool)
      returns (resp: Response, ghost report: Result<Reporte>, ghost filtered: Collection)
      requires Valid()
      modifies this
      ensures Valid()
      ensures !resp.FromPrompt? ==> entries == old(entries)
      ensures ValidateIa(data).None? || EnvOr(apiKey, apiKeyVite).GetOr("") == "" ==> resp == Failure(500)
      ensures ValidateIa(data).Some? && EnvOr(apiKey, apiKeyVite).GetOr("") != "" ==>
        var answer := AiConfig(reply, parseJson);
        (answer.Err? ==> resp == Failure(answer.status)) &&
        (answer.Ok? ==>
          FromConfig(user, Sanitize(answer.value.1), ValidateIa(data).value.prompt, answer.value.0, db, order, collation,
                     generadoEn, insertOk, old(entries), entries, resp, report, filtered))
    {
      report, filtered := Err(0), Properties([]);
      var ia := ValidateIa(data);
      var key := EnvOr(apiKey, apiKeyVite);
      if ia.None? || key.GetOr("") == "" {
        resp := Failure(500);
        return;
      }
      var answer := AiConfig(reply, parseJson);
      if answer.Err? {
        resp := Failure(answer.status);
        return;
      }
      resp, report, filtered := GenerarDesdeConfig(user, Sanitize(answer.value.1), ia.value.prompt, answer.value.0,
                                                   db, order, collation, generadoEn, insertOk);
    }

    /**
     * The second half of `generar_reporte_por_ia`, from the cleaned configuration on:
     * a configuration that fails validation is a 400; a failed generation or insert
     * is a 500; otherwise the report is returned and recorded with the prompt and
     * the model's text.
     */
    method GenerarDesdeConfig(user: User, config: Json, prompt: string, content: string, db: Db, order: seq<string>,
                              collation: Value -> int, generadoEn: string, insertOk: bool)
      returns (resp: Response, ghost report: Result<Reporte>, ghost filtered: Collection)
      requires Valid()
      modifies this
      ensures Valid()
      ensures !resp.FromPrompt? ==> entries == old(entries)
      ensures FromConfig(user, config, prompt, content, db, order, collation, generadoEn, insertOk, old(entries), entries,
                         resp, report, filtered)
    {
      report, filtered := Err(0), Properties([]);
      var v := ValidatePayload(config);
      if v.None? {
        resp := Failure(400);
        return;
      }
      resp, report, filtered := GenerateAndRecordPrompt(user, v.value, config, prompt, content, db, order, collation,
                                                        generadoEn, insertOk);
    }

    /** Generates the report of a validated model configuration and records it with the prompt when it succeeds. */
    method GenerateAndRecordPrompt(user: User, p: Payload, config: Json, prompt: string, content: string, db: Db,
                                   order: seq<string>, collation: Value -> int, generadoEn: string, insertOk: bool)
      returns (resp: Response, ghost report: Result<Reporte>, ghost filtered: Collection)
      requires Valid()
      modifies this
      ensures Valid()
      ensures Generates(user, p, db, order, collation, generadoEn, filtered, report)
      ensures report.Err? || !insertOk ==> resp == Failure(500) && entries == old(entries)
      ensures report.Ok? && insertOk ==>
        resp == FromPrompt(report.value, config) && entries == old(entries) + [AiEntry(user, report.value, config, prompt, content)]
    {
      var r;
      r, filtered := GenerarReporte(user, p, db, order, collation, generadoEn);
      report := r;
      resp := RecordPrompt(user, r, config, prompt, content, insertOk);
    }

    /** The answer of `generar_reporte_por_ia` for a generation outcome, recorded with the prompt on success. */
    method RecordPrompt(user: User, r: Result<Reporte>, config: Json, prompt: string, content: string, insertOk: bool)
      returns (resp: Response)
      requires Valid()
      modifies this
      ensures Valid()
      ensures r.Err? || !insertOk ==> resp == Failure(500) && entries == old(entries)
      ensures r.Ok? && insertOk ==>
        resp == FromPrompt(r.value, config) && entries == old(entries) + [AiEntry(user, r.value, config, prompt, content)]
    {
      if r.Err? || !insertOk {
        return Failure(500);
      }
      entries := entries + [AiEntry(user, r.value, config, prompt, content)];
      resp := FromPrompt(r.value, config);
    }
  }
}
