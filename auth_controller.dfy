/**
 * The authentication handlers: administrator and customer login, customer
 * registration, administrator creation and the session check, over the two
 * credential tables.
 */
module AuthController {
  import opened Common
  import opened Http
  import opened Tokens
  import opened Principals

  /** `{ email, password }` of a login request. */
  datatype LoginBody = LoginBody(email: Option<string>, password: Option<string>)

  datatype RegistroBody = RegistroBody(
    nombre: Option<string>, email: Option<string>, password: Option<string>,
    telefono: Option<string>, direccion: Option<string>)

  datatype CrearAdminBody = CrearAdminBody(
    nombre: Option<string>, email: Option<string>, password: Option<string>, rol: Option<string>)

  /** The body of a successful login or registration: the token and the safe record. */
  datatype Session<+S> = Session(token: Jwt, principal: S)

  /** What the login chain needs to know about the account found by e-mail. */
  datatype Account = Account(activo: bool, password: Secret)

  const MissingCredentials := Reply(400, NoCode, "Email y contraseña son obligatorios")
  const BadCredentials := Reply(401, InvalidCredentials, "Credenciales inválidas")
  const AdminDisabledMessage := "Cuenta desactivada. Contacta al administrador."
  const UsuarioDisabledMessage := "Cuenta desactivada. Contacta al soporte."
  const MissingFields := Reply(400, NoCode, "Nombre, email y contraseña son obligatorios")

  /**
   * The login chain shared by `loginAdmin` and `login`: missing fields (400),
   * unknown e-mail (401), inactive account (403), wrong password (401).
   * `None` means every check passed.
   */
  function CheckCredentials(body: LoginBody, found: Option<Account>, disabledMessage: string): (r: Option<Reply>)
    ensures r.None? <==> Present(body.email) && Present(body.password) && found.Some?
                          && found.value.activo && VerificarPassword(found.value.password, body.password)
    ensures !Present(body.email) || !Present(body.password) ==> r == Some(MissingCredentials)
    ensures r.Some? && r.value.status == 403 ==> found.Some? && !found.value.activo
    ensures r.Some? && r.value.status == 401 ==> r.value == BadCredentials
  {
    if !Present(body.email) || !Present(body.password) then Some(MissingCredentials)
    else if found.None? then Some(BadCredentials)
    else if !found.value.activo then Some(Reply(403, AccountDisabled, disabledMessage))
    else if !VerificarPassword(found.value.password, body.password) then Some(BadCredentials)
    else None
  }

  /** No account enumeration: an unknown e-mail and a wrong password get the same status, message and code. */
  lemma UnknownEmailLikeWrongPassword(body: LoginBody, acc: Account, disabledMessage: string)
    requires Present(body.email) && Present(body.password)
    requires acc.activo && !VerificarPassword(acc.password, body.password)
    ensures CheckCredentials(body, None, disabledMessage) == CheckCredentials(body, Some(acc), disabledMessage)
    ensures CheckCredentials(body, None, disabledMessage) == Some(BadCredentials)
  {
  }

  /** An inactive account is refused before its password is looked at. */
  lemma InactiveBeforePassword(body: LoginBody, s1: Secret, s2: Secret, disabledMessage: string)
    requires Present(body.email) && Present(body.password)
    ensures CheckCredentials(body, Some(Account(false, s1)), disabledMessage)
         == CheckCredentials(body, Some(Account(false, s2)), disabledMessage)
         == Some(Reply(403, AccountDisabled, disabledMessage))
  {
  }

  /** The account behind a lower-cased e-mail, when there is one. */
  function UsuarioAccount(t: map<int, Usuario>, email: string): (a: Option<Account>)
    requires forall x, y :: x in t && y in t && t[x].email == t[y].email ==> x == y
    ensures a.Some? <==> exists k :: k in t && t[k].email == email
  {
    match FindUsuarioByEmail(t, email)
    case None => None
    case Some(k) => Some(Account(t[k].activo, t[k].password))
  }

  function AdminAccount(t: map<int, Admin>, email: string): (a: Option<Account>)
    requires forall x, y :: x in t && y in t && t[x].email == t[y].email ==> x == y
    ensures a.Some? <==> exists k :: k in t && t[k].email == email
  {
    match FindAdminByEmail(t, email)
    case None => None
    case Some(k) => Some(Account(t[k].activo, t[k].password))
  }

  /** The e-mail `findOne` is asked for: `email.toLowerCase()`, untrimmed. */
  function LookupKey(email: Option<string>): string {
    if email.Some? then ToLower(email.value) else ""
  }

  /** The e-mail stored at creation: `email.toLowerCase().trim()`. */
  function StoredEmail(email: Option<string>): string {
    Trim(LookupKey(email))
  }

  /** `field?.trim()`. */
  function TrimOpt(s: Option<string>): (r: Option<string>)
    ensures r.None? <==> s.None?
    ensures r.Some? ==> r.value == Trim(s.value)
  {
    if s.Some? then Some(Trim(s.value)) else None
  }

  /**
   * The checks of `registro` before the row is inserted: missing fields and a
   * short password (400), an e-mail taken in its lower-cased form (409), or
   * taken once trimmed too, which the unique index reports (also 409).
   */
  function RegistroCheck(body: RegistroBody, t: map<int, Usuario>): (r: Option<Reply>)
    requires forall x, y :: x in t && y in t && t[x].email == t[y].email ==> x == y
    ensures r.None? <==> Present(body.nombre) && Present(body.email) && Present(body.password)
                          && |body.password.value| >= 6
                          && FindUsuarioByEmail(t, LookupKey(body.email)).None?
                          && FindUsuarioByEmail(t, StoredEmail(body.email)).None?
    ensures !Present(body.nombre) || !Present(body.email) || !Present(body.password) ==> r == Some(MissingFields)
    ensures Present(body.nombre) && Present(body.email) && Present(body.password) && |body.password.value| < 6
            ==> r.Some? && r.value.status == 400
    ensures Present(body.nombre) && Present(body.email) && Present(body.password) && |body.password.value| >= 6
            && FindUsuarioByEmail(t, LookupKey(body.email)).Some?
            ==> r == Some(Reply(409, EmailExists, "Ya existe un usuario con este email"))
    ensures r.Some? && r.value.status == 409 ==> r.value.code == EmailExists
    ensures r.None? ==> forall k :: k in t ==> t[k].email != StoredEmail(body.email)
  {
    if !Present(body.nombre) || !Present(body.email) || !Present(body.password) then Some(MissingFields)
    else if |body.password.value| < 6 then Some(Reply(400, NoCode, "La contraseña debe tener al menos 6 caracteres"))
    else if FindUsuarioByEmail(t, LookupKey(body.email)).Some?
      then Some(Reply(409, EmailExists, "Ya existe un usuario con este email"))
    else if FindUsuarioByEmail(t, StoredEmail(body.email)).Some?
      then Some(Reply(409, EmailExists, "Ya existe un usuario con este email"))
    else None
  }

  /**
   * The row `Usuario.create` inserts for an accepted registration: trimmed
   * name, lower-cased trimmed e-mail, hashed password, trimmed optional
   * fields, and the column defaults for role and flag.
   */
  function RegisteredUsuario(id: int, body: RegistroBody): (u: Usuario)
    requires Present(body.nombre) && Present(body.email) && Present(body.password)
    ensures u.id == id && u.nombre == Trim(body.nombre.value) && u.email == StoredEmail(body.email)
    ensures u.password == Hash(Plain(body.password.value))
    ensures u.telefono == TrimOpt(body.telefono) && u.direccion == TrimOpt(body.direccion)
    ensures u.rol == Cliente && u.activo && u.ultimoAcceso == None
  {
    UsuarioBeforeCreate(NewUsuario(id, Trim(body.nombre.value), StoredEmail(body.email),
                                   body.password.value, TrimOpt(body.telefono), TrimOpt(body.direccion)))
  }

  /** A padded e-mail whose trimmed form is taken passes the `findOne` check but is still refused with 409. */
  lemma PaddedDuplicateRefused(body: RegistroBody, t: map<int, Usuario>, k: int)
    requires forall x, y :: x in t && y in t && t[x].email == t[y].email ==> x == y
    requires Present(body.nombre) && Present(body.email) && Present(body.password) && |body.password.value| >= 6
    requires k in t && t[k].email == StoredEmail(body.email)
    ensures RegistroCheck(body, t) == Some(Reply(409, EmailExists, "Ya existe un usuario con este email"))
  {
  }

  /**
   * The checks of `crearAdmin` before the row is inserted, in order: the
   * requester must be a super administrator (403), then the fields (400), the
   * password length (400), a taken lower-cased e-mail (409). An unknown role
   * and a row whose trimmed e-mail is taken are refused by the database on
   * insert, which this handler answers with 500. `Ok` carries the role to create.
   */
  function CrearAdminCheck(requester: Option<Admin>, body: CrearAdminBody, t: map<int, Admin>): (r: Result<AdminRol, Reply>)
    requires forall x, y :: x in t && y in t && t[x].email == t[y].email ==> x == y
    ensures requester.Some? && requester.value.rol != SuperAdmin ==>
      r == Err(Reply(403, InsufficientPermissions, "Solo los super administradores pueden crear administradores"))
    ensures r.Ok? ==> requester.Some? && requester.value.rol == SuperAdmin
                      && Present(body.nombre) && Present(body.email) && Present(body.password)
                      && |body.password.value| >= 8
                      && (forall k :: k in t ==> (t[k].email != StoredEmail(body.email)
                                                 && t[k].email != LookupKey(body.email)))
    ensures r.Ok? ==> AdminRolName(r.value) == if Present(body.rol) then body.rol.value else "admin"
    ensures requester.Some? && requester.value.rol == SuperAdmin
            && Present(body.nombre) && Present(body.email) && Present(body.password)
            && |body.password.value| >= 8
            && (forall k :: k in t ==> t[k].email != StoredEmail(body.email) && t[k].email != LookupKey(body.email))
            && ParseAdminRol(if Present(body.rol) then body.rol.value else "admin").Some?
            ==> r.Ok?
    ensures requester.Some? && requester.value.rol == SuperAdmin
            && (!Present(body.nombre) || !Present(body.email) || !Present(body.password) || |body.password.value| < 8)
            ==> r.Err? && r.error.status == 400
    ensures requester.Some? && requester.value.rol == SuperAdmin
            && Present(body.nombre) && Present(body.email) && Present(body.password) && |body.password.value| >= 8
            && FindAdminByEmail(t, LookupKey(body.email)).Some?
            ==> r == Err(Reply(409, EmailExists, "Ya existe un administrador con este email"))
    ensures requester.Some? && requester.value.rol == SuperAdmin
            && Present(body.nombre) && Present(body.email) && Present(body.password) && |body.password.value| >= 8
            && FindAdminByEmail(t, LookupKey(body.email)).None?
            && ParseAdminRol(if Present(body.rol) then body.rol.value else "admin").None?
            ==> r == Err(InternalError)
    ensures requester.None? ==> r == Err(InternalError)
    ensures requester.Some? && requester.value.rol == SuperAdmin
            && Present(body.nombre) && Present(body.email) && Present(body.password) && |body.password.value| >= 8
            && FindAdminByEmail(t, LookupKey(body.email)).None?
            && FindAdminByEmail(t, StoredEmail(body.email)).Some?
            ==> r == Err(InternalError)
  {
    if requester.None? then Err(InternalError)
    else if requester.value.rol != SuperAdmin
      then Err(Reply(403, InsufficientPermissions, "Solo los super administradores pueden crear administradores"))
    else if !Present(body.nombre) || !Present(body.email) || !Present(body.password) then Err(MissingFields)
    else if |body.password.value| < 8
      then Err(Reply(400, NoCode, "La contraseña de administrador debe tener al menos 8 caracteres"))
    else if FindAdminByEmail(t, LookupKey(body.email)).Some?
      then Err(Reply(409, EmailExists, "Ya existe un administrador con este email"))
    else match ParseAdminRol(if Present(body.rol) then body.rol.value else "admin")
      case None => Err(InternalError)
      case Some(rol) =>
        if FindAdminByEmail(t, StoredEmail(body.email)).Some? then Err(InternalError) else Ok(rol)
  }

  /**
   * The row `Admin.create` inserts for an accepted request: trimmed name,
   * lower-cased trimmed e-mail, hashed password, the chosen role, active.
   */
  function CreatedAdmin(id: int, body: CrearAdminBody, rol: AdminRol): (a: Admin)
    requires Present(body.nombre) && Present(body.email) && Present(body.password)
    ensures a.id == id && a.nombre == Trim(body.nombre.value) && a.email == StoredEmail(body.email)
    ensures a.password == Hash(Plain(body.password.value))
    ensures a.rol == rol && a.activo && a.ultimoAcceso == None
  {
    AdminBeforeCreate(NewAdmin(id, Trim(body.nombre.value), StoredEmail(body.email), body.password.value, rol))
  }

  /** A requester who is not a super administrator is refused whatever the body holds. */
  lemma NonSuperAdminRefusedFirst(requester: Admin, b1: CrearAdminBody, b2: CrearAdminBody, t: map<int, Admin>)
    requires forall x, y :: x in t && y in t && t[x].email == t[y].email ==> x == y
    requires requester.rol != SuperAdmin
    ensures CrearAdminCheck(Some(requester), b1, t) == CrearAdminCheck(Some(requester), b2, t)
  {
  }

  /** Without a `rol` in the body the new administrator gets the role `admin`. */
  lemma CrearAdminDefaultRole(requester: Option<Admin>, body: CrearAdminBody, t: map<int, Admin>)
    requires forall x, y :: x in t && y in t && t[x].email == t[y].email ==> x == y
    requires !Present(body.rol) && CrearAdminCheck(requester, body, t).Ok?
    ensures CrearAdminCheck(requester, body, t).value == AdminRegular
  {
  }

  /** The safe record the session check answers with, and whose it is. */
  datatype SafePrincipal = SafeCustomer(usuario: SafeUsuario) | SafeAdministrator(admin: SafeAdmin)

  datatype Verification = Verification(valido: bool, usuario: SafePrincipal, tipo: string)

  /** The `verificarToken` handler: the attached customer, else the attached administrator. */
  function VerificarSesion(usuario: Option<Usuario>, admin: Option<Admin>): (r: Response<Verification>)
    ensures r.Failure? <==> usuario.None? && admin.None?
    ensures r.Failure? ==> r.reply == Reply(401, InvalidToken, "Token inválido")
    ensures r.Success? ==> r.status == 200 && r.body.valido
    ensures r.Success? ==> (r.body.tipo == "admin" <==> admin.Some?)
    ensures r.Success? && usuario.Some? ==> r.body.usuario == SafeCustomer(UsuarioSafeJson(usuario.value))
    ensures r.Success? && usuario.None? ==> r.body.usuario == SafeAdministrator(AdminSafeJson(admin.value))
  {
    if usuario.Some? then
      Success(200, Verification(true, SafeCustomer(UsuarioSafeJson(usuario.value)), if admin.Some? then "admin" else "usuario"))
    else if admin.Some? then
      Success(200, Verification(true, SafeAdministrator(AdminSafeJson(admin.value)), "admin"))
    else Failure(Reply(401, InvalidToken, "Token inválido"))
  }

  /** With both principals attached the payload is the customer's while `tipo` says `admin`. */
  lemma BothAttachedReportsAdmin(u: Usuario, a: Admin)
    ensures VerificarSesion(Some(u), Some(a))
         == Success(200, Verification(true, SafeCustomer(UsuarioSafeJson(u)), "admin"))
  {
  }

  /** The two credential tables. */
  class AuthStore {
    var usuarios: map<int, Usuario>
    var admins: map<int, Admin>
    var nextUsuarioId: int
    var nextAdminId: int

    ghost predicate Valid()
      reads this
    {
      UsuariosValid(usuarios, nextUsuarioId) && AdminsValid(admins, nextAdminId)
    }

    constructor ()
      ensures Valid() && usuarios == map[] && admins == map[]
    {
      usuarios, admins := map[], map[];
      nextUsuarioId, nextAdminId := 1, 1;
    }

    /**
     * `loginAdmin`: the credential chain, then the last-access update (kept
     * only when the save succeeds), then a 24-hour administrator token.
     */
    method LoginAdmin(body: LoginBody, env: Env, now: int, saveOk: bool) returns (r: Response<Session<SafeAdmin>>)
      requires Valid()
      modifies this`admins
      ensures Valid()
      ensures var gate := CheckCredentials(body, AdminAccount(old(admins), LookupKey(body.email)), AdminDisabledMessage);
        && (gate.Some? ==> r == Failure(gate.value) && admins == old(admins))
        && (gate.None? ==>
              var k := FindAdminByEmail(old(admins), LookupKey(body.email)).value;
              var a := AdminActualizarAcceso(old(admins)[k], now);
              var tok := GenerarToken(Claims(k, a.email, AdminRolName(a.rol)), true, env, now);
              && admins == (if saveOk then old(admins)[k := a] else old(admins))
              && r == (if tok.Ok? then Success(200, Session(tok.value, AdminSafeJson(a))) else Failure(InternalError)))
    {
      var found := AdminAccount(admins, LookupKey(body.email));
      var gate := CheckCredentials(body, found, AdminDisabledMessage);
      if gate.Some? {
        return Failure(gate.value);
      }
      var k := FindAdminByEmail(admins, LookupKey(body.email)).value;
      var a := AdminActualizarAcceso(admins[k], now);
      if saveOk {
        admins := admins[k := a];
      }
      var tok := GenerarToken(Claims(k, a.email, AdminRolName(a.rol)), true, env, now);
      if tok.Err? {
        return Failure(InternalError);
      }
      r := Success(200, Session(tok.value, AdminSafeJson(a)));
    }

    /** `login`: the same chain over the customer table, with a 7-day customer token. */
    method Login(body: LoginBody, env: Env, now: int, saveOk: bool) returns (r: Response<Session<SafeUsuario>>)
      requires Valid()
      modifies this`usuarios
      ensures Valid()
      ensures var gate := CheckCredentials(body, UsuarioAccount(old(usuarios), LookupKey(body.email)), UsuarioDisabledMessage);
        && (gate.Some? ==> r == Failure(gate.value) && usuarios == old(usuarios))
        && (gate.None? ==>
              var k := FindUsuarioByEmail(old(usuarios), LookupKey(body.email)).value;
              var u := UsuarioActualizarAcceso(old(usuarios)[k], now);
              var tok := GenerarToken(Claims(k, u.email, UsuarioRolName(u.rol)), false, env, now);
              && usuarios == (if saveOk then old(usuarios)[k := u] else old(usuarios))
              && r == (if tok.Ok? then Success(200, Session(tok.value, UsuarioSafeJson(u))) else Failure(InternalError)))
    {
      var found := UsuarioAccount(usuarios, LookupKey(body.email));
      var gate := CheckCredentials(body, found, UsuarioDisabledMessage);
      if gate.Some? {
        return Failure(gate.value);
      }
      var k := FindUsuarioByEmail(usuarios, LookupKey(body.email)).value;
      var u := UsuarioActualizarAcceso(usuarios[k], now);
      if saveOk {
        usuarios := usuarios[k := u];
      }
      var tok := GenerarToken(Claims(k, u.email, UsuarioRolName(u.rol)), false, env, now);
      if tok.Err? {
        return Failure(InternalError);
      }
      r := Success(200, Session(tok.value, UsuarioSafeJson(u)));
    }

    /**
     * `registro`: on success exactly one customer is added (hashed password,
     * lower-cased trimmed e-mail, default role and flag) and a token is issued;
     * a signing failure after the insert answers 500 but keeps the row.
     */
    method Registro(body: RegistroBody, env: Env, now: int) returns (r: Response<Session<SafeUsuario>>)
      requires Valid()
      modifies this`usuarios, this`nextUsuarioId
      ensures Valid()
      ensures var check := RegistroCheck(body, old(usuarios));
        && (check.Some? ==> r == Failure(check.value) && usuarios == old(usuarios) && nextUsuarioId == old(nextUsuarioId))
        && (check.None? ==>
              var id := old(nextUsuarioId);
              var u := RegisteredUsuario(id, body);
              var tok := GenerarToken(Claims(id, u.email, "cliente"), false, env, now);
              && id !in old(usuarios)
              && usuarios == old(usuarios)[id := u] && nextUsuarioId == id + 1
              && r == (if tok.Ok? then Success(201, Session(tok.value, UsuarioSafeJson(u))) else Failure(InternalError)))
    {
      var check := RegistroCheck(body, usuarios);
      if check.Some? {
        return Failure(check.value);
      }
      var id := nextUsuarioId;
      var u := RegisteredUsuario(id, body);
      UsuarioInsertKeepsValid(usuarios, id, u);
      usuarios := usuarios[id := u];
      nextUsuarioId := id + 1;
      var tok := GenerarToken(Claims(id, u.email, UsuarioRolName(u.rol)), false, env, now);
      if tok.Err? {
        return Failure(InternalError);
      }
      r := Success(201, Session(tok.value, UsuarioSafeJson(u)));
    }

    /** `crearAdmin`: on success exactly one administrator is added and no token is issued. */
    method CrearAdmin(requester: Option<Admin>, body: CrearAdminBody) returns (r: Response<SafeAdmin>)
      requires Valid()
      modifies this`admins, this`nextAdminId
      ensures Valid()
      ensures var check := CrearAdminCheck(requester, body, old(admins));
        && (check.Err? ==> r == Failure(check.error) && admins == old(admins) && nextAdminId == old(nextAdminId))
        && (check.Ok? ==>
              var id := old(nextAdminId);
              var a := CreatedAdmin(id, body, check.value);
              && id !in old(admins)
              && admins == old(admins)[id := a] && nextAdminId == id + 1
              && r == Success(201, AdminSafeJson(a)))
    {
      var check := CrearAdminCheck(requester, body, admins);
      if check.Err? {
        return Failure(check.error);
      }
      var id := nextAdminId;
      var a := CreatedAdmin(id, body, check.value);
      AdminInsertKeepsValid(admins, id, a);
      admins := admins[id := a];
      nextAdminId := id + 1;
      r := Success(201, AdminSafeJson(a));
    }
  }
}
