/**
 * The client's HTTP service layer: the request interceptor that attaches a
 * token, the response-error interceptor that clears a session and redirects
 * after a 401, the sample-data fallbacks of the two list calls, and the form
 * checks and cleaning done before a product is sent.
 */
module ApiClient {
  import opened Common
  import opened Http
  import opened Json
  import opened Browser
  import Guards
  import Catalog
  import UsuarioSession
  import Principals
  import Tokens

  // ------------------------------------------------------------ request interceptor

  /** The `Authorization` header a request carries: `adminToken` if truthy, else `token`, else none. */
  function AuthorizationHeader(s: Storage): (h: Option<string>)
    ensures Present(GetItem(s, "adminToken")) ==> h == Some("Bearer " + s["adminToken"])
    ensures !Present(GetItem(s, "adminToken")) && Present(GetItem(s, "token")) ==> h == Some("Bearer " + s["token"])
    ensures !Present(GetItem(s, "adminToken")) && !Present(GetItem(s, "token")) ==> h.None?
  {
    var token := OrElse(GetItem(s, "adminToken"), GetItem(s, "token"));
    if Present(token) then Some("Bearer " + token.value) else None
  }

  /**
   * What the server's guards read back from that header is exactly the stored
   * token the client chose, and a request without one is refused before any
   * verification.
   */
  lemma {:induction false} HeaderCarriesChosenToken(s: Storage)
    ensures var chosen := OrElse(GetItem(s, "adminToken"), GetItem(s, "token"));
      && (Present(chosen) ==> Guards.HasToken(AuthorizationHeader(s))
                              && Guards.BearerToken(AuthorizationHeader(s)) == chosen)
      && (!Present(chosen) ==> !Guards.HasToken(AuthorizationHeader(s)))
  {
    var chosen := OrElse(GetItem(s, "adminToken"), GetItem(s, "token"));
    if Present(chosen) {
      Guards.BearerPrefixRemoved(chosen.value);
    }
  }

  /** A customer logging in or out does not change which token administrator requests carry. */
  lemma CustomerSessionKeepsAdminHeader(s: Storage, t: Storage)
    requires SameOutside(s, t, UsuarioKeys)
    requires Present(GetItem(s, "adminToken"))
    ensures AuthorizationHeader(t) == AuthorizationHeader(s)
  {
    SessionsDisjoint(s, t);
  }

  // ------------------------------------------------------------ response interceptor

  /** A rejected request as the interceptor sees it: axios' `code`, the HTTP status and the body's `code`. */
  datatype ApiError = ApiError(axiosCode: Option<string>, status: Option<int>, code: Option<string>)

  /** The error axios raises for an error reply of the server. */
  function FromReply(r: Reply): (e: ApiError)
    ensures e.status == Some(r.status)
    ensures e.code == (if r.code == NoCode then None else Some(Wire(r.code)))
  {
    ApiError(Some(if r.status >= 500 then "ERR_BAD_RESPONSE" else "ERR_BAD_REQUEST"), Some(r.status),
             if r.code == NoCode then None else Some(Wire(r.code)))
  }

  /** The five codes the interceptor treats as an administrator-session failure. */
  predicate IsAdminAuthCode(c: Option<string>) {
    c.Some? && c.value in {"NO_ADMIN_TOKEN", "INVALID_ADMIN_TOKEN", "EXPIRED_ADMIN_TOKEN", "ADMIN_NOT_FOUND", "ADMIN_INACTIVE"}
  }

  /**
   * The keys the interceptor removes, as written: an administrator 401 clears
   * the administrator keys, any other 401 clears `token` and `userData`.
   */
  function ClearedKeysAsWritten(e: ApiError): (keys: set<string>)
    ensures e.status != Some(401) ==> keys == {}
    ensures e.status == Some(401) && IsAdminAuthCode(e.code) ==> keys == AdminKeys
    ensures e.status == Some(401) && !IsAdminAuthCode(e.code) ==> keys == {"token", "userData"}
  {
    if e.status != Some(401) then {}
    else if IsAdminAuthCode(e.code) then AdminKeys
    else {"token", "userData"}
  }

  /** The customer profile is stored under `usuario`, which the as-written removal leaves behind. */
  lemma AsWrittenLeavesProfile(s: Storage, e: ApiError)
    requires e.status == Some(401) && !IsAdminAuthCode(e.code)
    requires "usuario" in s
    ensures "usuario" in s - ClearedKeysAsWritten(e) && (s - ClearedKeysAsWritten(e))["usuario"] == s["usuario"]
    ensures "token" !in s - ClearedKeysAsWritten(e)
    ensures exists k :: k in UsuarioKeys && k in s - ClearedKeysAsWritten(e)
  {
    assert "usuario" in UsuarioKeys;
  }

  /** The keys removed with the customer profile key corrected to `usuario`, the one the session writes. */
  function ClearedKeys(e: ApiError): (keys: set<string>)
    ensures e.status != Some(401) ==> keys == {}
    ensures e.status == Some(401) && IsAdminAuthCode(e.code) ==> keys == AdminKeys
    ensures e.status == Some(401) && !IsAdminAuthCode(e.code) ==> keys == UsuarioKeys
  {
    if e.status != Some(401) then {}
    else if IsAdminAuthCode(e.code) then AdminKeys
    else UsuarioKeys
  }

  /** With the corrected keys, a customer 401 leaves no customer key and no other key touched. */
  lemma CustomerUnauthorizedEndsSession(s: Storage, e: ApiError, parse: string -> Option<Json>)
    requires e.status == Some(401) && !IsAdminAuthCode(e.code)
    ensures forall k :: k in UsuarioKeys ==> k !in s - ClearedKeys(e)
    ensures SameOutside(s, s - ClearedKeys(e), UsuarioKeys)
    ensures UsuarioSession.UsuarioHydration(s - ClearedKeys(e), parse).NoSession?
  {
  }

  /** Where the interceptor navigates after an error at `path`, if anywhere. */
  function RedirectTarget(e: ApiError, path: string): (r: Option<string>)
    ensures r.Some? ==> e.status == Some(401)
    ensures r == Some("/admin/login") <==>
      e.status == Some(401) && IsAdminAuthCode(e.code) && StartsWith(path, "/admin") && path != "/admin/login"
    ensures r == Some("/login") <==> e.status == Some(401) && !IsAdminAuthCode(e.code) && !StartsWith(path, "/admin")
    ensures r.Some? ==> r.value in {"/admin/login", "/login"}
  {
    if e.status != Some(401) then None
    else if IsAdminAuthCode(e.code) then
      if StartsWith(path, "/admin") && path != "/admin/login" then Some("/admin/login") else None
    else if !StartsWith(path, "/admin") then Some("/login") else None
  }

  /**
   * The response-error interceptor as written: clears the keys the error
   * belongs to (`token` and `userData` for a customer 401), navigates when the
   * rule says so, and rejects with the same error. The administrator keys are
   * touched only by an administrator error, the customer keys only by another.
   */
  method ResponseErrorInterceptor(w: Window, e: ApiError) returns (rejected: ApiError)
    modifies w`storage, w`pathname
    ensures rejected == e
    ensures w.storage == old(w.storage) - ClearedKeysAsWritten(e)
    ensures w.pathname == (if RedirectTarget(e, old(w.pathname)).Some? then RedirectTarget(e, old(w.pathname)).value
                           else old(w.pathname))
    ensures IsAdminAuthCode(e.code) ==> SameOutside(old(w.storage), w.storage, AdminKeys)
    ensures !IsAdminAuthCode(e.code) ==> SameOutside(old(w.storage), w.storage, {"token", "userData"})
    ensures GetItem(w.storage, "usuario") == GetItem(old(w.storage), "usuario")
  {
    w.storage := w.storage - ClearedKeysAsWritten(e);
    var target := RedirectTarget(e, w.pathname);
    if target.Some? {
      w.pathname := target.value;
    }
    rejected := e;
  }

  /**
   * The interceptor with the customer profile key corrected to `usuario`: a
   * customer 401 ends the whole customer session, and the administrator keys
   * are again touched only by an administrator error.
   */
  method ResponseErrorInterceptorCorrected(w: Window, e: ApiError) returns (rejected: ApiError)
    modifies w`storage, w`pathname
    ensures rejected == e
    ensures w.storage == old(w.storage) - ClearedKeys(e)
    ensures w.pathname == (if RedirectTarget(e, old(w.pathname)).Some? then RedirectTarget(e, old(w.pathname)).value
                           else old(w.pathname))
    ensures IsAdminAuthCode(e.code) ==> SameOutside(old(w.storage), w.storage, AdminKeys)
    ensures !IsAdminAuthCode(e.code) ==> SameOutside(old(w.storage), w.storage, UsuarioKeys)
    ensures e.status == Some(401) && !IsAdminAuthCode(e.code)
            ==> UsuarioSession.UsuarioHydration(w.storage, w.parse).NoSession?
  {
    w.storage := w.storage - ClearedKeys(e);
    var target := RedirectTarget(e, w.pathname);
    if target.Some? {
      w.pathname := target.value;
    }
    rejected := e;
  }

  /**
   * Every 401 the customer guard sends removes `token` and `userData` as
   * written, which leaves the stored profile, and the whole customer session
   * once corrected; every 401 the administrator guard sends clears the
   * administrator session; the inactive-administrator refusal, sent as 403,
   * clears nothing.
   */
  lemma GuardRefusalsClearTheirSession(header: Option<string>, outcome: Tokens.VerifyOutcome,
                                       usuarios: map<int, Principals.Usuario>, admins: map<int, Principals.Admin>)
    ensures var d := Guards.CustomerDecision(header, outcome, usuarios).result;
      d.Halt? && d.reply.status == 401 ==>
        && ClearedKeysAsWritten(FromReply(d.reply)) == {"token", "userData"}
        && "usuario" !in ClearedKeysAsWritten(FromReply(d.reply))
        && ClearedKeys(FromReply(d.reply)) == UsuarioKeys
    ensures var d := Guards.AdminDecision(header, outcome, admins).result;
      d.Halt? && d.reply.status == 401 ==>
        ClearedKeysAsWritten(FromReply(d.reply)) == AdminKeys && ClearedKeys(FromReply(d.reply)) == AdminKeys
    ensures var d := Guards.AdminDecision(header, outcome, admins).result;
      d.Halt? && d.reply.code == AdminInactive ==>
        ClearedKeysAsWritten(FromReply(d.reply)) == {} && ClearedKeys(FromReply(d.reply)) == {}
  {
  }

  /**
   * A wrong password on the administrator login page is a 401 with a code the
   * interceptor reads as a customer failure: as written it removes the
   * customer token of the same browser (the profile stays), corrected the
   * whole customer session; either way it stays on the page.
   */
  lemma AdminBadPasswordClearsCustomerSession(path: string)
    requires StartsWith(path, "/admin")
    ensures ClearedKeysAsWritten(FromReply(Reply(401, InvalidCredentials, "Credenciales inválidas"))) == {"token", "userData"}
    ensures ClearedKeys(FromReply(Reply(401, InvalidCredentials, "Credenciales inválidas"))) == UsuarioKeys
    ensures RedirectTarget(FromReply(Reply(401, InvalidCredentials, "Credenciales inválidas")), path).None?
  {
  }

  // ------------------------------------------------------------ list fallbacks

  /** What a list call hands back: the server's data, the built-in samples, or the error rethrown. */
  datatype Fetched<+T> = Live(data: T) | Samples | Rethrown(error: ApiError)

  /** `obtenerProductos`: samples only on a network error or a 5xx status; other errors are rethrown. */
  function ObtenerProductos<T>(outcome: Result<T, ApiError>): (r: Fetched<T>)
    ensures outcome.Ok? <==> r.Live?
    ensures r.Live? ==> r.data == outcome.value
    ensures r.Samples? <==> outcome.Err? && (outcome.error.axiosCode == Some("ERR_NETWORK")
                                              || (outcome.error.status.Some? && outcome.error.status.value >= 500))
    ensures r.Rethrown? ==> r.error == outcome.error
  {
    match outcome
    case Ok(data) => Live(data)
    case Err(e) =>
      if e.axiosCode == Some("ERR_NETWORK") || (e.status.Some? && e.status.value >= 500) then Samples
      else Rethrown(e)
  }

  /** `obtenerPedidos`: samples on every error, so it never throws. */
  function ObtenerPedidos<T>(outcome: Result<T, ApiError>): (r: Fetched<T>)
    ensures !r.Rethrown?
    ensures r.Live? <==> outcome.Ok?
    ensures r.Live? ==> r.data == outcome.value
  {
    match outcome
    case Ok(data) => Live(data)
    case Err(_) => Samples
  }

  /** A server error reply to the product list is replaced by samples; a 4xx reply reaches the caller. */
  lemma ProductListFallbackOnServerReplies<T>(r: Reply)
    ensures ObtenerProductos<T>(Err(FromReply(r))).Samples? <==> r.status >= 500
  {
  }

  // ------------------------------------------------------------ product form

  /** The form fields as typed; `parseFloat(precio)` is passed separately, in cents, `None` for NaN. */
  datatype ProductForm = ProductForm(
    nombre: Option<string>,
    descripcion: Option<string>,
    precio: Option<string>,
    categoria: Option<string>,
    imagen: Option<string>,
    disponible: Option<bool>)

  /** The cleaned object sent to the server; a NaN price is sent as `null`, here `None`. */
  datatype Payload = Payload(
    nombre: string,
    descripcion: string,
    precio: Option<int>,
    categoria: string,
    imagen: string,
    disponible: bool)

  const FormMissing := "Nombre y precio son obligatorios"
  const FormNegative := "El precio no puede ser negativo"

  /** `s ? s.trim() : ''`. */
  function TrimOrEmpty(s: Option<string>): (r: string)
    ensures !Present(s) ==> r == ""
    ensures Present(s) ==> r == Trim(s.value)
  {
    if Present(s) then Trim(s.value) else ""
  }

  /**
   * The checks and cleaning `crearProducto` and `actualizarProducto` run before
   * sending: a falsy name or price text, then a negative parsed price, throw;
   * otherwise strings are trimmed, absent ones sent as '' and `disponible`
   * defaults to true.
   */
  function LimpiarProducto(form: ProductForm, parsedPrecio: Option<int>): (r: Result<Payload, string>)
    ensures r.Err? <==> !Present(form.nombre) || !Present(form.precio)
                        || (parsedPrecio.Some? && parsedPrecio.value < 0)
    ensures !Present(form.nombre) || !Present(form.precio) ==> r == Err(FormMissing)
    ensures r.Err? && r.error != FormMissing ==> r.error == FormNegative
    ensures r.Ok? ==> r.value.nombre == Trim(form.nombre.value) && r.value.precio == parsedPrecio
    ensures r.Ok? ==> r.value.descripcion == TrimOrEmpty(form.descripcion)
                      && r.value.categoria == TrimOrEmpty(form.categoria)
                      && r.value.imagen == TrimOrEmpty(form.imagen)
    ensures r.Ok? ==> r.value.disponible == (form.disponible.None? || form.disponible.value)
  {
    if !Present(form.nombre) || !Present(form.precio) then Err(FormMissing)
    else if parsedPrecio.Some? && parsedPrecio.value < 0 then Err(FormNegative)
    else Ok(Payload(Trim(form.nombre.value), TrimOrEmpty(form.descripcion), parsedPrecio,
                    TrimOrEmpty(form.categoria), TrimOrEmpty(form.imagen),
                    if form.disponible.Some? then form.disponible.value else true))
  }

  /** The payload as the server's handler reads its body: every field is present. */
  function ServerBody(p: Payload): (b: Catalog.ProductoBody)
    ensures b.nombre == Some(p.nombre) && b.precio == p.precio && b.disponible == Some(p.disponible)
    ensures b.descripcion == Some(p.descripcion) && b.categoria == Some(p.categoria) && b.imagen == Some(p.imagen)
  {
    Catalog.ProductoBody(Some(p.nombre), Some(p.descripcion), p.precio, Some(p.categoria), Some(p.imagen),
                         Some(p.disponible))
  }

  /**
   * A form makes it into the catalogue exactly when it has a name that is not
   * all spaces, a price text, and a parsed price that is positive and fits the
   * column: the client's checks are weaker than the server's.
   */
  lemma {:induction false} FormAcceptedByServer(form: ProductForm, parsedPrecio: Option<int>, dbError: Reply)
    requires dbError.status == 500
    ensures var c := LimpiarProducto(form, parsedPrecio);
      (c.Ok? && Catalog.ValidarProducto(ServerBody(c.value), dbError).None?)
        <==> Present(form.nombre) && Present(form.precio) && parsedPrecio.Some?
             && 0 < parsedPrecio.value < Catalog.PrecioLimit && Trim(form.nombre.value) != ""
  {
    if Present(form.nombre) {
      TrimIdempotent(form.nombre.value);
    }
  }

  /** The price text "0" passes the client's falsy check but is refused by the server as missing. */
  lemma ZeroPriceTextRefusedOnlyByServer(form: ProductForm, dbError: Reply)
    requires dbError.status == 500
    requires Present(form.nombre) && Trim(form.nombre.value) != "" && form.precio == Some("0")
    ensures LimpiarProducto(form, Some(0)).Ok?
    ensures Catalog.ValidarProducto(ServerBody(LimpiarProducto(form, Some(0)).value), dbError)
         == Some(Catalog.MissingFields)
  {
  }

  /** An optional text left empty in the form is sent as '' and stored as null by the server. */
  lemma EmptyTextStoredAsNull(form: ProductForm, parsedPrecio: Option<int>)
    requires LimpiarProducto(form, parsedPrecio).Ok?
    requires !Present(form.descripcion)
    ensures Catalog.TrimOrNull(ServerBody(LimpiarProducto(form, parsedPrecio).value).descripcion).None?
  {
  }
}
