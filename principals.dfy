/**
 * The credential records (`Usuario` customers and `Admin` administrators), their
 * password handling and their password-free serialisation.
 */
module Principals {
  import opened Common

  /** Cost factor passed to `bcrypt.hash`. */
  const BcryptRounds: nat := 12

  /**
   * The value of a `password` column: text as the caller gave it, or the bcrypt
   * digest of an earlier value (so a pre-hashed text hashed again is visible).
   */
  datatype Secret = Plain(text: string) | Hashed(input: Secret, rounds: nat)

  /** JavaScript truthiness of the `password` field (a digest is never empty). */
  predicate SecretTruthy(s: Secret) {
    s.Hashed? || s.text != ""
  }

  /** `bcrypt.hash(value, 12)`. */
  function Hash(s: Secret): (h: Secret)
    ensures h.Hashed? && h.input == s
  {
    Hashed(s, BcryptRounds)
  }

  /**
   * `verificarPassword(given)`: `bcrypt.compare(given, stored)`, where a missing
   * argument makes `compare` throw and the method answer `false` instead.
   */
  function VerificarPassword(stored: Secret, given: Option<string>): (ok: bool)
    ensures ok <==> given.Some? && stored.Hashed? && stored.input == Plain(given.value)
  {
    match given
    case None => false
    case Some(p) => stored.Hashed? && stored.input == Plain(p)
  }

  /** A password stored as given (never hashed) matches no login attempt. */
  lemma PlainPasswordNeverMatches(text: string, given: Option<string>)
    ensures !VerificarPassword(Plain(text), given)
  {
  }

  /** The text hashed by the create hook is exactly the one that later verifies. */
  lemma HashedPasswordVerifies(p: string, given: string)
    ensures VerificarPassword(Hash(Plain(p)), Some(given)) <==> given == p
  {
  }

  // ---------------------------------------------------------------- Usuario

  datatype UsuarioRol = Cliente | UsuarioRegular

  function UsuarioRolName(r: UsuarioRol): string {
    match r
    case Cliente => "cliente"
    case UsuarioRegular => "usuario"
  }

  datatype Usuario = Usuario(
    id: int,
    nombre: string,
    email: string,
    password: Secret,
    telefono: Option<string>,
    direccion: Option<string>,
    rol: UsuarioRol,
    activo: bool,
    ultimoAcceso: Option<int>)

  /** `toSafeJSON()` of a customer: the same record with no password field. */
  datatype SafeUsuario = SafeUsuario(
    id: int,
    nombre: string,
    email: string,
    telefono: Option<string>,
    direccion: Option<string>,
    rol: UsuarioRol,
    activo: bool,
    ultimoAcceso: Option<int>)

  function UsuarioSafeJson(u: Usuario): SafeUsuario {
    SafeUsuario(u.id, u.nombre, u.email, u.telefono, u.direccion, u.rol, u.activo, u.ultimoAcceso)
  }

  /** Two customers serialise alike exactly when they differ at most in their password. */
  lemma UsuarioSafeJsonDropsOnlyPassword(u: Usuario, v: Usuario)
    ensures UsuarioSafeJson(u) == UsuarioSafeJson(v) <==> u.(password := v.password) == v
  {
  }

  /** A new row before hooks run: the column defaults `rol = 'cliente'`, `activo = true`. */
  function NewUsuario(id: int, nombre: string, email: string, password: string,
                      telefono: Option<string>, direccion: Option<string>): (u: Usuario)
    ensures u.rol == Cliente && u.activo && u.ultimoAcceso == None
    ensures u.id == id && u.nombre == nombre && u.email == email && u.password == Plain(password)
    ensures u.telefono == telefono && u.direccion == direccion
  {
    Usuario(id, nombre, email, Plain(password), telefono, direccion, Cliente, true, None)
  }

  /** The `beforeCreate` hook: a truthy password is replaced by its digest. */
  function UsuarioBeforeCreate(u: Usuario): (r: Usuario)
    ensures r.password == if SecretTruthy(u.password) then Hash(u.password) else u.password
    ensures r.(password := u.password) == u
  {
    if SecretTruthy(u.password) then u.(password := Hash(u.password)) else u
  }

  /** The `beforeUpdate` hook: only a password that differs from the stored one is hashed. */
  function UsuarioBeforeUpdate(stored: Usuario, updated: Usuario): (r: Usuario)
    ensures updated.password == stored.password ==> r == updated
    ensures updated.password != stored.password ==> r == updated.(password := Hash(updated.password))
  {
    if updated.password != stored.password then updated.(password := Hash(updated.password)) else updated
  }

  /** `actualizarAcceso()` on the instance: the last-access time becomes `now`, nothing else changes. */
  function UsuarioActualizarAcceso(u: Usuario, now: int): (r: Usuario)
    ensures r.ultimoAcceso == Some(now) && r.(ultimoAcceso := u.ultimoAcceso) == u
  {
    u.(ultimoAcceso := Some(now))
  }

  // ---------------------------------------------------------------- Admin

  datatype AdminRol = SuperAdmin | AdminRegular | Moderador

  function AdminRolName(r: AdminRol): string {
    match r
    case SuperAdmin => "super_admin"
    case AdminRegular => "admin"
    case Moderador => "moderador"
  }

  /** The enum check on `rol`: the name of one of the three roles, or nothing. */
  function ParseAdminRol(s: string): (r: Option<AdminRol>)
    ensures r.Some? ==> AdminRolName(r.value) == s
    ensures r.None? ==> forall x :: AdminRolName(x) != s
  {
    if s == "super_admin" then Some(SuperAdmin)
    else if s == "admin" then Some(AdminRegular)
    else if s == "moderador" then Some(Moderador)
    else None
  }

  datatype Admin = Admin(
    id: int,
    nombre: string,
    email: string,
    password: Secret,
    rol: AdminRol,
    activo: bool,
    ultimoAcceso: Option<int>)

  /** `toSafeJSON()` of an administrator. */
  datatype SafeAdmin = SafeAdmin(
    id: int,
    nombre: string,
    email: string,
    rol: AdminRol,
    activo: bool,
    ultimoAcceso: Option<int>)

  function AdminSafeJson(a: Admin): SafeAdmin {
    SafeAdmin(a.id, a.nombre, a.email, a.rol, a.activo, a.ultimoAcceso)
  }

  /** Two administrators serialise alike exactly when they differ at most in their password. */
  lemma AdminSafeJsonDropsOnlyPassword(a: Admin, b: Admin)
    ensures AdminSafeJson(a) == AdminSafeJson(b) <==> a.(password := b.password) == b
  {
  }

  function NewAdmin(id: int, nombre: string, email: string, password: string, rol: AdminRol): (a: Admin)
    ensures a.activo && a.ultimoAcceso == None
    ensures a.id == id && a.nombre == nombre && a.email == email && a.password == Plain(password) && a.rol == rol
  {
    Admin(id, nombre, email, Plain(password), rol, true, None)
  }

  function AdminBeforeCreate(a: Admin): (r: Admin)
    ensures r.password == if SecretTruthy(a.password) then Hash(a.password) else a.password
    ensures r.(password := a.password) == a
  {
    if SecretTruthy(a.password) then a.(password := Hash(a.password)) else a
  }

  function AdminBeforeUpdate(stored: Admin, updated: Admin): (r: Admin)
    ensures updated.password == stored.password ==> r == updated
    ensures updated.password != stored.password ==> r == updated.(password := Hash(updated.password))
  {
    if updated.password != stored.password then updated.(password := Hash(updated.password)) else updated
  }

  function AdminActualizarAcceso(a: Admin, now: int): (r: Admin)
    ensures r.ultimoAcceso == Some(now) && r.(ultimoAcceso := a.ultimoAcceso) == a
  {
    a.(ultimoAcceso := Some(now))
  }

  /** A password hashed before `create` is hashed again by the hook, and the original text no longer verifies. */
  lemma PreHashedAdminPasswordIsHashedTwice(id: int, nombre: string, email: string, p: string, rounds: nat)
    ensures var a := AdminBeforeCreate(Admin(id, nombre, email, Hashed(Plain(p), rounds), SuperAdmin, true, None));
      a.password == Hashed(Hashed(Plain(p), rounds), BcryptRounds) && !VerificarPassword(a.password, Some(p))
  {
  }

  // ---------------------------------------------------------------- tables

  /** The primary key of every row is its map key, and `email` is unique. */
  ghost predicate UsuariosValid(t: map<int, Usuario>, nextId: int) {
    && nextId >= 1
    && (forall k :: k in t ==> t[k].id == k && 1 <= k < nextId)
    && (forall a, b :: a in t && b in t && t[a].email == t[b].email ==> a == b)
  }

  ghost predicate AdminsValid(t: map<int, Admin>, nextId: int) {
    && nextId >= 1
    && (forall k :: k in t ==> t[k].id == k && 1 <= k < nextId)
    && (forall a, b :: a in t && b in t && t[a].email == t[b].email ==> a == b)
  }

  /** Inserting a row under the next id with an e-mail no row has keeps the table well formed. */
  lemma UsuarioInsertKeepsValid(t: map<int, Usuario>, nextId: int, u: Usuario)
    requires UsuariosValid(t, nextId) && u.id == nextId
    requires forall k :: k in t ==> t[k].email != u.email
    ensures nextId !in t && UsuariosValid(t[nextId := u], nextId + 1)
  {
  }

  /** The administrator-table counterpart of `UsuarioInsertKeepsValid`. */
  lemma AdminInsertKeepsValid(t: map<int, Admin>, nextId: int, a: Admin)
    requires AdminsValid(t, nextId) && a.id == nextId
    requires forall k :: k in t ==> t[k].email != a.email
    ensures nextId !in t && AdminsValid(t[nextId := a], nextId + 1)
  {
  }

  /** `findOne({ where: { email } })` on the customer table. */
  function FindUsuarioByEmail(t: map<int, Usuario>, email: string): (r: Option<int>)
    requires forall a, b :: a in t && b in t && t[a].email == t[b].email ==> a == b
    ensures r.Some? ==> r.value in t && t[r.value].email == email
    ensures r.None? ==> forall k :: k in t ==> t[k].email != email
  {
    if exists k | k in t :: t[k].email == email then
      var k :| k in t && t[k].email == email; Some(k)
    else None
  }

  /** `findOne({ where: { email } })` on the administrator table. */
  function FindAdminByEmail(t: map<int, Admin>, email: string): (r: Option<int>)
    requires forall a, b :: a in t && b in t && t[a].email == t[b].email ==> a == b
    ensures r.Some? ==> r.value in t && t[r.value].email == email
    ensures r.None? ==> forall k :: k in t ==> t[k].email != email
  {
    if exists k | k in t :: t[k].email == email then
      var k :| k in t && t[k].email == email; Some(k)
    else None
  }
}
