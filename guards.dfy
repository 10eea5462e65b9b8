/**
 * The request guards of the server: customer token, administrator token,
 * optional customer token, role check and the administrator activity log.
 */
module Guards {
  import opened Common
  import opened Http
  import opened Tokens
  import opened Principals

  /** The parts of an Express request the guards read and write. */
  class Request {
    const authorization: Option<string>   // req.header('Authorization')
    var usuario: Option<Usuario>           // req.usuario (null and undefined are None)
    var admin: Option<Admin>               // req.admin

    constructor (authorization: Option<string>)
      ensures this.authorization == authorization && usuario == None && admin == None
    {
      this.authorization := authorization;
      usuario := None;
      admin := None;
    }
  }

  /** Whether a guard called `next()` or answered itself. */
  datatype GuardResult = Next | Halt(reply: Reply)

  /** What a guard decides: its result and, when it calls `next`, the principal it attaches. */
  datatype Decision<+P> = Decision(result: GuardResult, attach: Option<P>)

  /** `req.header('Authorization')?.replace('Bearer ', '')`. */
  function BearerToken(header: Option<string>): Option<string> {
    match header
    case None => None
    case Some(h) => Some(ReplaceFirst(h, "Bearer ", ""))
  }

  /** `if (!token)` fails: no header, or one that becomes empty. */
  predicate HasToken(header: Option<string>) {
    Present(BearerToken(header))
  }

  /** A well-formed bearer header yields exactly the text after the prefix. */
  lemma BearerPrefixRemoved(t: string)
    ensures BearerToken(Some("Bearer " + t)) == Some(t)
    ensures HasToken(Some("Bearer " + t)) <==> t != ""
  {
    ReplaceFirstPrefix("Bearer ", t, "");
    assert "" + t == t;
  }

  /** A header with no `"Bearer "` in it is used as the token unchanged. */
  lemma RawHeaderIsToken(h: string)
    requires !Includes(h, "Bearer ")
    ensures BearerToken(Some(h)) == Some(h)
  {
    ReplaceFirstAbsent(h, "Bearer ", "");
  }

  // ---------------------------------------------------------------- verificarToken

  function CustomerDecision(header: Option<string>, outcome: VerifyOutcome, usuarios: map<int, Usuario>): (d: Decision<Usuario>)
    ensures d.result.Next? <==> HasToken(header) && outcome.Verified? && outcome.id in usuarios
    ensures d.attach.Some? <==> d.result.Next?
    ensures d.result.Next? ==> d.attach.value == usuarios[outcome.id]
    ensures !HasToken(header) ==> d.result == Halt(Reply(401, NoToken, "Token de acceso requerido"))
  {
    if !HasToken(header) then Decision(Halt(Reply(401, NoToken, "Token de acceso requerido")), None)
    else match outcome
      case Malformed => Decision(Halt(Reply(401, InvalidToken, "Token inválido")), None)
      case Expired => Decision(Halt(Reply(401, ExpiredToken, "Token expirado")), None)
      case OtherFailure => Decision(Halt(InternalError), None)
      case Verified(id) =>
        if id !in usuarios then Decision(Halt(Reply(401, UserNotFound, "Usuario no encontrado")), None)
        else Decision(Next, Some(usuarios[id]))
  }

  /** How each verification failure of a present token is answered by the customer guard. */
  lemma CustomerVerifyFailures(header: Option<string>, usuarios: map<int, Usuario>)
    requires HasToken(header)
    ensures CustomerDecision(header, Malformed, usuarios).result.reply.status == 401
    ensures CustomerDecision(header, Malformed, usuarios).result.reply.code == InvalidToken
    ensures CustomerDecision(header, Expired, usuarios).result.reply.status == 401
    ensures CustomerDecision(header, Expired, usuarios).result.reply.code == ExpiredToken
    ensures CustomerDecision(header, OtherFailure, usuarios).result.reply.status == 500
    ensures forall id :: id !in usuarios ==>
      CustomerDecision(header, Verified(id), usuarios).result == Halt(Reply(401, UserNotFound, "Usuario no encontrado"))
  {
  }

  /** A missing token is answered before the token is verified or the table consulted. */
  lemma CustomerNoTokenFirst(header: Option<string>, o1: VerifyOutcome, o2: VerifyOutcome,
                             u1: map<int, Usuario>, u2: map<int, Usuario>)
    requires !HasToken(header)
    ensures CustomerDecision(header, o1, u1) == CustomerDecision(header, o2, u2)
  {
  }

  /** The `verificarToken` middleware: `req.usuario` is set only when `next` runs. */
  method VerificarToken(req: Request, outcome: VerifyOutcome, usuarios: map<int, Usuario>) returns (r: GuardResult)
    modifies req`usuario
    ensures r == CustomerDecision(req.authorization, outcome, usuarios).result
    ensures req.usuario == if r.Next? then CustomerDecision(req.authorization, outcome, usuarios).attach else old(req.usuario)
  {
    var d := CustomerDecision(req.authorization, outcome, usuarios);
    if d.result.Next? {
      req.usuario := d.attach;
    }
    r := d.result;
  }

  // ---------------------------------------------------------------- verificarTokenAdmin

  function AdminDecision(header: Option<string>, outcome: VerifyOutcome, admins: map<int, Admin>): (d: Decision<Admin>)
    ensures d.result.Next? <==> HasToken(header) && outcome.Verified? && outcome.id in admins && admins[outcome.id].activo
    ensures d.attach.Some? <==> d.result.Next?
    ensures d.result.Next? ==> d.attach.value == admins[outcome.id]
    ensures !HasToken(header) ==> d.result == Halt(Reply(401, NoAdminToken, "Token de administrador requerido"))
  {
    if !HasToken(header) then Decision(Halt(Reply(401, NoAdminToken, "Token de administrador requerido")), None)
    else match outcome
      case Malformed => Decision(Halt(Reply(401, InvalidAdminToken, "Token de administrador inválido")), None)
      case Expired => Decision(Halt(Reply(401, ExpiredAdminToken, "Token de administrador expirado")), None)
      case OtherFailure => Decision(Halt(InternalError), None)
      case Verified(id) =>
        if id !in admins then Decision(Halt(Reply(401, AdminNotFound, "Administrador no encontrado")), None)
        else if !admins[id].activo then Decision(Halt(Reply(403, AdminInactive, "Cuenta de administrador desactivada")), None)
        else Decision(Next, Some(admins[id]))
  }

  /** How each verification failure of a present token is answered by the administrator guard. */
  lemma AdminVerifyFailures(header: Option<string>, admins: map<int, Admin>)
    requires HasToken(header)
    ensures AdminDecision(header, Malformed, admins).result.reply.status == 401
    ensures AdminDecision(header, Malformed, admins).result.reply.code == InvalidAdminToken
    ensures AdminDecision(header, Expired, admins).result.reply.status == 401
    ensures AdminDecision(header, Expired, admins).result.reply.code == ExpiredAdminToken
    ensures AdminDecision(header, OtherFailure, admins).result.reply.status == 500
    ensures forall id :: id !in admins ==>
      AdminDecision(header, Verified(id), admins).result == Halt(Reply(401, AdminNotFound, "Administrador no encontrado"))
  {
  }

  /** A valid token does not override deactivation: the answer is 403, distinct from every token error. */
  lemma InactiveAdminRejected(header: Option<string>, id: int, admins: map<int, Admin>)
    requires HasToken(header) && id in admins && !admins[id].activo
    ensures AdminDecision(header, Verified(id), admins).result == Halt(Reply(403, AdminInactive, "Cuenta de administrador desactivada"))
    ensures forall o: VerifyOutcome :: !o.Verified? ==>
      AdminDecision(header, o, admins).result.Halt? && AdminDecision(header, o, admins).result.reply.code != AdminInactive
  {
  }

  lemma AdminNoTokenFirst(header: Option<string>, o1: VerifyOutcome, o2: VerifyOutcome,
                          a1: map<int, Admin>, a2: map<int, Admin>)
    requires !HasToken(header)
    ensures AdminDecision(header, o1, a1) == AdminDecision(header, o2, a2)
  {
  }

  /** The `verificarTokenAdmin` middleware: `req.admin` is set only when `next` runs. */
  method VerificarTokenAdmin(req: Request, outcome: VerifyOutcome, admins: map<int, Admin>) returns (r: GuardResult)
    modifies req`admin
    ensures r == AdminDecision(req.authorization, outcome, admins).result
    ensures req.admin == if r.Next? then AdminDecision(req.authorization, outcome, admins).attach else old(req.admin)
  {
    var d := AdminDecision(req.authorization, outcome, admins);
    if d.result.Next? {
      req.admin := d.attach;
    }
    r := d.result;
  }

  // ---------------------------------------------------------------- verificarTokenOpcional

  /** The principal the optional guard attaches: the resolved customer, or `null` on any failure. */
  function OptionalAttach(header: Option<string>, outcome: VerifyOutcome, usuarios: map<int, Usuario>): (u: Option<Usuario>)
    ensures u.Some? <==> HasToken(header) && outcome.Verified? && outcome.id in usuarios
    ensures u.Some? ==> u.value == usuarios[outcome.id]
  {
    if HasToken(header) && outcome.Verified? && outcome.id in usuarios then Some(usuarios[outcome.id]) else None
  }

  /** The optional guard attaches exactly what the mandatory customer guard would. */
  lemma OptionalMatchesMandatory(header: Option<string>, outcome: VerifyOutcome, usuarios: map<int, Usuario>)
    ensures OptionalAttach(header, outcome, usuarios) == CustomerDecision(header, outcome, usuarios).attach
  {
  }

  /** The `verificarTokenOpcional` middleware: never answers, always calls `next`, always assigns `req.usuario`. */
  method VerificarTokenOpcional(req: Request, outcome: VerifyOutcome, usuarios: map<int, Usuario>) returns (r: GuardResult)
    modifies req`usuario
    ensures r == Next
    ensures req.usuario == OptionalAttach(req.authorization, outcome, usuarios)
  {
    req.usuario := OptionalAttach(req.authorization, outcome, usuarios);
    r := Next;
  }

  // ---------------------------------------------------------------- verificarRol

  /** The role checked by `verificarRol`: `(req.usuario || req.admin).rol`. */
  function PrincipalRol(usuario: Option<Usuario>, admin: Option<Admin>): (r: Option<string>)
    ensures r.None? <==> usuario.None? && admin.None?
    ensures usuario.Some? ==> r == Some(UsuarioRolName(usuario.value.rol))
    ensures usuario.None? && admin.Some? ==> r == Some(AdminRolName(admin.value.rol))
  {
    if usuario.Some? then Some(UsuarioRolName(usuario.value.rol))
    else if admin.Some? then Some(AdminRolName(admin.value.rol))
    else None
  }

  /** `verificarRol(rolesPermitidos)`: 401 without a principal, 403 for a role not listed, else `next`. */
  function VerificarRol(allowed: seq<string>, usuario: Option<Usuario>, admin: Option<Admin>): (r: GuardResult)
    ensures r.Next? <==> PrincipalRol(usuario, admin).Some? && PrincipalRol(usuario, admin).value in allowed
    ensures usuario.None? && admin.None? ==> r == Halt(Reply(401, AuthRequired, "Autenticación requerida"))
    ensures r.Halt? && (usuario.Some? || admin.Some?) ==> r.reply.status == 403 && r.reply.code == InsufficientPermissions
  {
    match PrincipalRol(usuario, admin)
    case None => Halt(Reply(401, AuthRequired, "Autenticación requerida"))
    case Some(rol) =>
      if rol in allowed then Next
      else Halt(Reply(403, InsufficientPermissions, "No tienes permisos para realizar esta acción"))
  }

  /** When both principals are attached, only the customer's role is consulted. */
  lemma RolePrefersCustomer(allowed: seq<string>, u: Usuario, a1: Option<Admin>, a2: Option<Admin>)
    ensures VerificarRol(allowed, Some(u), a1) == VerificarRol(allowed, Some(u), a2)
  {
  }

  // ---------------------------------------------------------------- logActividadAdmin

  /** One audit line: when, who, what and from where. */
  datatype ActivityLog = ActivityLog(timestamp: string, email: string, accion: string, ip: string)

  /**
   * The replaced `res.send(data)`: logs only for a 2xx status with an
   * administrator attached, and always forwards `data` unchanged.
   */
  function SendWithActivityLog<D>(statusCode: int, admin: Option<Admin>, accion: string, ip: string,
                                  timestamp: string, data: D): (out: (Option<ActivityLog>, D))
    ensures out.1 == data
    ensures out.0.Some? <==> 200 <= statusCode < 300 && admin.Some?
    ensures out.0.Some? ==> out.0.value == ActivityLog(timestamp, admin.value.email, accion, ip)
  {
    var logged := if 200 <= statusCode < 300 && admin.Some?
      then Some(ActivityLog(timestamp, admin.value.email, accion, ip)) else None;
    (logged, data)
  }
}
