/**
 * The audit-log middleware: after the response is produced, an authenticated
 * request whose path belongs to one of four API areas is recorded in the
 * `bitacora` table; anything that goes wrong while recording is ignored.
 */
module BitacoraMiddleware {
  import opened Wrappers
  import opened Text
  import opened Accounts

  /** The action text and module name of a log entry. */
  datatype Accion = Accion(accion: string, modulo: string)

  const Modulos: set<string> := {"Propiedades", "Reservas", "Backup", "Reportes"}

  predicate LoggedPath(path: string) {
    Contains(path, "/api/propiedades/") || Contains(path, "/api/reservas/")
    || Contains(path, "/api/backup/") || Contains(path, "/api/reportes/")
  }

  /**
   * `determinar_accion`: the first of the four path markers found in the path decides
   * the module; the HTTP verb only refines the action text.
   */
  function DeterminarAccion(path: string, verb: string): (r: Option<Accion>)
    ensures r.Some? <==> LoggedPath(path)
    ensures r.Some? ==> r.value.modulo in Modulos
    ensures Contains(path, "/api/propiedades/") ==> r.Some? && r.value.modulo == "Propiedades"
    ensures r.Some? && r.value.modulo == "Propiedades" ==>
              (r.value.accion == "Creó propiedad" <==> verb == "POST")
              && (r.value.accion == "Actualizó propiedad" <==> verb == "PUT")
              && (verb != "POST" && verb != "PUT" <==> r.value.accion == "Eliminó propiedad")
    ensures r.Some? && r.value.modulo == "Reservas" ==>
              Contains(path, "/api/reservas/") && !Contains(path, "/api/propiedades/")
              && (r.value.accion == "Creó reserva" <==> verb == "POST")
              && (verb != "POST" <==> r.value.accion == "Actualizó reserva")
    ensures r.Some? && r.value.modulo == "Backup" ==>
              r.value.accion == "Usó sistema de backup" && Contains(path, "/api/backup/")
              && !Contains(path, "/api/propiedades/") && !Contains(path, "/api/reservas/")
    ensures r.Some? && r.value.modulo == "Reportes" ==>
              r.value.accion == "Generó reporte" && Contains(path, "/api/reportes/")
              && !Contains(path, "/api/propiedades/") && !Contains(path, "/api/reservas/")
              && !Contains(path, "/api/backup/")
  {
    if Contains(path, "/api/propiedades/") then
      Some(Accion(if verb == "POST" then "Creó propiedad"
                  else if verb == "PUT" then "Actualizó propiedad"
                  else "Eliminó propiedad", "Propiedades"))
    else if Contains(path, "/api/reservas/") then
      Some(Accion(if verb == "POST" then "Creó reserva" else "Actualizó reserva", "Reservas"))
    else if Contains(path, "/api/backup/") then
      Some(Accion("Usó sistema de backup", "Backup"))
    else if Contains(path, "/api/reportes/") then
      Some(Accion("Generó reporte", "Reportes"))
    else None
  }

  /**
   * `get_client_ip`: the text before the first comma of `X-Forwarded-For`, untrimmed,
   * when that header is present and non-empty; otherwise `REMOTE_ADDR`.
   */
  function GetClientIp(forwardedFor: Option<string>, remoteAddr: Option<string>): (ip: Option<string>)
    ensures forwardedFor.Some? && forwardedFor.value != "" ==>
              ip.Some? && ',' !in ip.value && ip.value <= forwardedFor.value
              && (|ip.value| < |forwardedFor.value| ==> forwardedFor.value[|ip.value|] == ',')
    ensures forwardedFor.None? || forwardedFor.value == "" ==> ip == remoteAddr
  {
    if forwardedFor.Some? && forwardedFor.value != "" then Some(BeforeFirst(forwardedFor.value, ','))
    else remoteAddr
  }

  /** The first hop written into `X-Forwarded-For` is the address recorded, whatever follows it. */
  lemma FirstHopRecorded(first: string, rest: string, remoteAddr: Option<string>)
    requires ',' !in first
    ensures GetClientIp(Some(first + "," + rest), remoteAddr) == Some(first)
  {
    var h := first + "," + rest;
    assert h[|first|] == ',';
    assert forall i :: 0 <= i < |first| ==> h[i] == first[i];
    assert h[..|first|] == first;
  }

  /** A request as the middleware reads it; `query` is `dict(request.GET)`, each key with its list of values. */
  datatype Request = Request(
    user: User, verb: string, path: string, query: seq<(string, seq<string>)>,
    forwardedFor: Option<string>, remoteAddr: Option<string>, userAgent: Option<string>)

  datatype Detalles = Detalles(verb: string, path: string, statusCode: int, params: seq<(string, seq<string>)>)

  /** One row of the `bitacora` table. */
  datatype Entry = Entry(usuario: int, accion: string, modulo: string, detalles: Detalles, ip: Option<string>, userAgent: string)

  /** The row `registrar_accion` writes for a request, its response status and its action. */
  function EntryFor(req: Request, statusCode: int, a: Accion): (e: Entry)
    ensures e.usuario == req.user.id && e.accion == a.accion && e.modulo == a.modulo
    ensures e.detalles.verb == req.verb && e.detalles.statusCode == statusCode && e.detalles.path == req.path
    ensures req.verb != "GET" ==> e.detalles.params == []
    ensures req.verb == "GET" ==> e.detalles.params == req.query
    ensures e.ip == GetClientIp(req.forwardedFor, req.remoteAddr)
    ensures req.userAgent.None? ==> e.userAgent == ""
    ensures req.userAgent.Some? ==> e.userAgent == req.userAgent.value
  {
    Entry(req.user.id, a.accion, a.modulo,
          Detalles(req.verb, req.path, statusCode, if req.verb == "GET" then req.query else []),
          GetClientIp(req.forwardedFor, req.remoteAddr), req.userAgent.GetOr(""))
  }

  /** The `bitacora` table the middleware appends to. */
  class AuditLog {
    var entries: seq<Entry>

    constructor ()
      ensures entries == []
    {
      entries := [];
    }

    /**
     * `registrar_accion`: records the request when its path is classified.
     * `insertFails` stands for the database refusing the row; the error is swallowed.
     */
    method RegistrarAccion(req: Request, statusCode: int, insertFails: bool)
      modifies this
      ensures DeterminarAccion(req.path, req.verb).Some? && !insertFails ==>
                entries == old(entries) + [EntryFor(req, statusCode, DeterminarAccion(req.path, req.verb).value)]
      ensures DeterminarAccion(req.path, req.verb).None? || insertFails ==> entries == old(entries)
    {
      var accion := DeterminarAccion(req.path, req.verb);
      if accion.Some? && !insertFails {
        entries := entries + [EntryFor(req, statusCode, accion.value)];
      }
    }

    /**
     * `BitacoraMiddleware.__call__`: `statusCode` is the response the rest of the stack
     * produced; it is returned unchanged, and only authenticated requests are recorded.
     */
    method Call(req: Request, statusCode: int, insertFails: bool) returns (response: int)
      modifies this
      ensures response == statusCode
      ensures req.user.isAuthenticated && LoggedPath(req.path) && !insertFails ==>
                entries == old(entries) + [EntryFor(req, statusCode, DeterminarAccion(req.path, req.verb).value)]
      ensures !req.user.isAuthenticated || !LoggedPath(req.path) || insertFails ==> entries == old(entries)
    {
      if req.user.isAuthenticated {
        RegistrarAccion(req, statusCode, insertFails);
      }
      response := statusCode;
    }
  }
}
