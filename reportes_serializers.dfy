/**
 * Validation of a dynamic report request and of an AI report request: the
 * declared fields, their defaults and which inputs each one refuses.
 */
module ReportesSerializers {
  import opened Wrappers
  import opened Json
  import opened DrfFields
  import opened ReportesCatalog

  /**
   * A validated report request. A field left out of the request and a field sent
   * as null are read the same way by every consumer (`payload.get(...)`), so both
   * are `None` for `agrupacion` and `ordenamiento`; absent lists and dicts are empty.
   */
  datatype Payload = Payload(
    tipo: TipoReporte,
    campos: seq<string>,
    filtros: seq<(string, Json)>,
    agrupacion: Option<string>,
    ordenamiento: Option<string>,
    limite: int,
    incluirEstadisticas: bool,
    incluirGraficos: bool)

  const DefaultLimite: int := 100

  /** `tipo_reporte`: required, one of the six catalog names. */
  function TipoOf(m: seq<(string, Json)>): (r: Option<TipoReporte>)
    ensures r.Some? <==> Has(m, "tipo_reporte") && ChoiceField(Get(m, "tipo_reporte").value, TipoCodes).Some?
    ensures r.Some? ==> TipoCode(r.value) == ChoiceField(Get(m, "tipo_reporte").value, TipoCodes).value
  {
    match Get(m, "tipo_reporte")
    case None => None
    case Some(v) =>
      match ChoiceField(v, TipoCodes)
      case None => None
      case Some(s) => ParseTipo(s)
  }

  /** `campos_seleccionados`: optional list of non-blank texts. */
  function CamposOf(m: seq<(string, Json)>): (r: Option<seq<string>>)
    ensures !Has(m, "campos_seleccionados") ==> r == Some([])
    ensures Has(m, "campos_seleccionados") ==> r == TextListField(Get(m, "campos_seleccionados").value)
  {
    match Get(m, "campos_seleccionados")
    case None => Some([])
    case Some(v) => TextListField(v)
  }

  /** `filtros`: optional object. */
  function FiltrosOf(m: seq<(string, Json)>): (r: Option<seq<(string, Json)>>)
    ensures !Has(m, "filtros") ==> r == Some([])
    ensures Has(m, "filtros") ==> (r.Some? <==> Get(m, "filtros").value.JObj?)
  {
    match Get(m, "filtros")
    case None => Some([])
    case Some(v) => DictField(v)
  }

  /** `agrupacion` / `ordenamiento`: optional text that may be null or blank. */
  function OptionalTextOf(m: seq<(string, Json)>, key: string): (r: Option<Option<string>>)
    ensures !Has(m, key) ==> r == Some(None)
    ensures Has(m, key) && Get(m, key).value.JNull? ==> r == Some(None)
    ensures Has(m, key) && Blank(Get(m, key).value) ==> r == Some(Some(""))
    ensures Has(m, key) ==> (r.Some? <==> CharField(Get(m, key).value, true, true).Some?)
  {
    match Get(m, key)
    case None => Some(None)
    case Some(v) => CharField(v, true, true)
  }

  /** `limite`: optional integer, 100 when absent, no bounds. */
  function LimiteOf(m: seq<(string, Json)>): (r: Option<int>)
    ensures !Has(m, "limite") ==> r == Some(DefaultLimite)
    ensures Has(m, "limite") ==> r == IntegerField(Get(m, "limite").value)
  {
    match Get(m, "limite")
    case None => Some(DefaultLimite)
    case Some(v) => IntegerField(v)
  }

  /** `incluir_estadisticas` / `incluir_graficos`: optional boolean, true when absent. */
  function FlagOf(m: seq<(string, Json)>, key: string): (r: Option<bool>)
    ensures !Has(m, key) ==> r == Some(true)
    ensures Has(m, key) ==> r == BooleanField(Get(m, key).value)
  {
    match Get(m, key)
    case None => Some(true)
    case Some(v) => BooleanField(v)
  }

  /** `GenerarReporteDinamicoSerializer(data=...).is_valid()` and its `validated_data`. */
  function ValidatePayload(data: Json): (r: Option<Payload>)
    ensures r.Some? <==>
      (data.JObj? && TipoOf(data.members).Some? && CamposOf(data.members).Some? && FiltrosOf(data.members).Some? &&
       OptionalTextOf(data.members, "agrupacion").Some? && OptionalTextOf(data.members, "ordenamiento").Some? &&
       LimiteOf(data.members).Some? &&
       FlagOf(data.members, "incluir_estadisticas").Some? && FlagOf(data.members, "incluir_graficos").Some?)
    ensures r.Some? ==> r.value.tipo == TipoOf(data.members).value && r.value.limite == LimiteOf(data.members).value
    ensures r.Some? ==> r.value.campos == CamposOf(data.members).value && r.value.filtros == FiltrosOf(data.members).value
    ensures r.Some? ==> r.value.agrupacion == OptionalTextOf(data.members, "agrupacion").value
                        && r.value.ordenamiento == OptionalTextOf(data.members, "ordenamiento").value
    ensures r.Some? ==> r.value.incluirEstadisticas == FlagOf(data.members, "incluir_estadisticas").value
                        && r.value.incluirGraficos == FlagOf(data.members, "incluir_graficos").value
    ensures r.Some? ==> (forall c :: c in r.value.campos ==> c != "")
  {
    if !data.JObj? then None
    else
      var m := data.members;
      match (TipoOf(m), CamposOf(m), FiltrosOf(m), OptionalTextOf(m, "agrupacion"), OptionalTextOf(m, "ordenamiento"),
             LimiteOf(m), FlagOf(m, "incluir_estadisticas"), FlagOf(m, "incluir_graficos"))
      case (Some(t), Some(c), Some(f), Some(a), Some(o), Some(l), Some(e), Some(g)) =>
        Some(Payload(t, c, f, a, o, l, e, g))
      case _ => None
  }

  /** A request naming only the report type gets every default. */
  lemma MinimalPayload(t: TipoReporte)
    ensures ValidatePayload(JObj([("tipo_reporte", JStr(TipoCode(t)))])) ==
      Some(Payload(t, [], [], None, None, DefaultLimite, true, true))
  {
    var m := [("tipo_reporte", JStr(TipoCode(t)))];
    assert !Has(m, "campos_seleccionados") && !Has(m, "filtros") && !Has(m, "limite");
    assert !Has(m, "agrupacion") && !Has(m, "ordenamiento");
    assert !Has(m, "incluir_estadisticas") && !Has(m, "incluir_graficos");
    assert Get(m, "tipo_reporte") == Some(JStr(TipoCode(t)));
    TipoRoundTrip(t);
  }

  /** `personalizado` (offered elsewhere in the system) is not a type this request accepts. */
  lemma PersonalizadoRejected(m: seq<(string, Json)>)
    requires Get(m, "tipo_reporte") == Some(JStr("personalizado"))
    ensures ValidatePayload(JObj(m)) == None
  {
    assert "personalizado" !in TipoCodes;
  }

  /** A request without a type is refused, whatever else it carries. */
  lemma TipoRequired(m: seq<(string, Json)>)
    requires !Has(m, "tipo_reporte")
    ensures ValidatePayload(JObj(m)) == None
  {
  }

  /** `limite` has no lower bound: a negative limit passes validation unchanged. */
  lemma NegativeLimiteAccepted(t: TipoReporte, n: int)
    requires n < 0
    ensures ValidatePayload(JObj([("tipo_reporte", JStr(TipoCode(t))), ("limite", JInt(n))])) ==
      Some(Payload(t, [], [], None, None, n, true, true))
  {
    var m := [("tipo_reporte", JStr(TipoCode(t))), ("limite", JInt(n))];
    assert Get(m, "limite") == Some(JInt(n));
    assert !Has(m, "campos_seleccionados") && !Has(m, "filtros");
    assert !Has(m, "agrupacion") && !Has(m, "ordenamiento");
    assert !Has(m, "incluir_estadisticas") && !Has(m, "incluir_graficos");
    assert Get(m, "tipo_reporte") == Some(JStr(TipoCode(t)));
    TipoRoundTrip(t);
  }

  /** `agrupacion` and `ordenamiento` accept null and the empty text alike. */
  lemma NullOrBlankOrdering(m: seq<(string, Json)>, key: string)
    requires Get(m, key) == Some(JNull) || Get(m, key) == Some(JStr(""))
    ensures OptionalTextOf(m, key) == Some(None) || OptionalTextOf(m, key) == Some(Some(""))
  {
    if Get(m, key) == Some(JStr("")) {
      assert Blank(JStr(""));
    }
  }

  /** A validated AI request: the prompt and the optional extra context. */
  datatype IaRequest = IaRequest(prompt: string, contexto: Option<string>)

  /** `ReporteIASerializer`: `prompt` required and non-blank, `contexto_adicional` optional but non-blank when sent. */
  function ValidateIa(data: Json): (r: Option<IaRequest>)
    ensures r.Some? <==>
      (data.JObj? && Has(data.members, "prompt") && RequiredText(Get(data.members, "prompt").value).Some? &&
       (Has(data.members, "contexto_adicional") ==> RequiredText(Get(data.members, "contexto_adicional").value).Some?))
    ensures r.Some? ==> r.value.prompt != "" && (r.value.contexto.Some? ==> r.value.contexto.value != "")
    ensures r.Some? ==> (r.value.contexto.Some? <==> Has(data.members, "contexto_adicional"))
  {
    if !data.JObj? then None
    else
      match (Get(data.members, "prompt"), Get(data.members, "contexto_adicional"))
      case (None, _) => None
      case (Some(p), None) =>
        (match RequiredText(p)
         case Some(t) => Some(IaRequest(t, None))
         case None => None)
      case (Some(p), Some(c)) =>
        match (RequiredText(p), RequiredText(c))
        case (Some(t), Some(u)) => Some(IaRequest(t, Some(u)))
        case _ => None
  }
}
