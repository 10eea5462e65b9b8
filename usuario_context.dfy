/**
 * The customer session provider: the `usuario` state, its `loading` flag and
 * the two `localStorage` keys it owns, `token` and `usuario`.
 */
module UsuarioSession {
  import opened Common
  import opened Json
  import opened Browser

  /** What the mount effect finds in storage. */
  datatype Hydration = Restore(usuario: Json) | Corrupt | NoSession

  /** The mount effect's decision: both keys present and the profile parses, or a parse failure, or nothing. */
  function UsuarioHydration(s: Storage, parse: string -> Option<Json>): (h: Hydration)
    ensures h.NoSession? <==> !Present(GetItem(s, "token")) || !Present(GetItem(s, "usuario"))
    ensures h.Restore? ==> parse(s["usuario"]) == Some(h.usuario)
    ensures h.Corrupt? <==> !h.NoSession? && parse(s["usuario"]).None?
  {
    var token := GetItem(s, "token");
    var userData := GetItem(s, "usuario");
    if !Present(token) || !Present(userData) then NoSession
    else match parse(userData.value)
      case None => Corrupt
      case Some(u) => Restore(u)
  }

  /** The `{ token, user }` or `{ token, usuario }` shapes `login` accepts, `user` preferred. */
  datatype Credentials = Credentials(token: Json, user: Json)

  function LoginShape(resp: Json): (c: Option<Credentials>)
    ensures c.Some? <==> Truthy(Field(resp, "token")) && (Truthy(Field(resp, "user")) || Truthy(Field(resp, "usuario")))
    ensures c.Some? ==> c.value.token == Field(resp, "token") && Truthy(c.value.user)
    ensures c.Some? && Truthy(Field(resp, "user")) ==> c.value.user == Field(resp, "user")
    ensures c.Some? && !Truthy(Field(resp, "user")) ==> c.value.user == Field(resp, "usuario")
  {
    var token := Field(resp, "token");
    if Truthy(token) && Truthy(Field(resp, "user")) then Some(Credentials(token, Field(resp, "user")))
    else if Truthy(token) && Truthy(Field(resp, "usuario")) then Some(Credentials(token, Field(resp, "usuario")))
    else None
  }

  class UsuarioProvider {
    var usuario: Json
    var loading: bool

    constructor ()
      ensures usuario == JNull && loading
    {
      usuario := JNull;
      loading := true;
    }

    /**
     * The mount effect: restores a parsed profile, or removes both keys when the
     * profile does not parse; `loading` ends false either way. No other key changes.
     */
    method Hydrate(w: Window)
      modifies this, w`storage
      ensures !loading
      ensures SameOutside(old(w.storage), w.storage, UsuarioKeys)
      ensures match UsuarioHydration(old(w.storage), w.parse)
        case Restore(u) => usuario == u && w.storage == old(w.storage)
        case Corrupt => usuario == old(usuario) && w.storage == old(w.storage) - UsuarioKeys
        case NoSession => usuario == old(usuario) && w.storage == old(w.storage)
    {
      var token := GetItem(w.storage, "token");
      var userData := GetItem(w.storage, "usuario");
      if Present(token) && Present(userData) {
        var parsed := w.parse(userData.value);
        if parsed.Some? {
          usuario := parsed.value;
        } else {
          w.storage := w.storage - UsuarioKeys;
        }
      }
      loading := false;
    }

    /**
     * `login(responseData)`: an unknown shape throws (`ok` false) and changes
     * nothing; otherwise the token and the serialised profile are stored and the
     * profile becomes the state.
     */
    method Login(w: Window, resp: Json) returns (ok: bool)
      modifies this`usuario, w`storage
      ensures ok <==> LoginShape(resp).Some?
      ensures !ok ==> usuario == old(usuario) && w.storage == old(w.storage)
      ensures ok ==>
        var c := LoginShape(resp).value;
        && usuario == c.user
        && w.storage == old(w.storage)["token" := w.StoredText(c.token)]["usuario" := w.StoredJson(c.user)]
      ensures SameOutside(old(w.storage), w.storage, UsuarioKeys)
    {
      var c := LoginShape(resp);
      if c.None? {
        return false;
      }
      w.storage := w.storage["token" := w.StoredText(c.value.token)];
      w.storage := w.storage["usuario" := w.StoredJson(c.value.user)];
      usuario := c.value.user;
      ok := true;
    }

    /** `logout()`: both keys removed and the state nulled; a second call changes nothing more. */
    method Logout(w: Window)
      modifies this`usuario, w`storage
      ensures usuario == JNull && w.storage == old(w.storage) - UsuarioKeys
      ensures SameOutside(old(w.storage), w.storage, UsuarioKeys)
      ensures forall k :: k in UsuarioKeys ==> GetItem(w.storage, k).None?
    {
      w.storage := w.storage - UsuarioKeys;
      usuario := JNull;
    }

    /** `isAuthenticated: !!usuario`. */
    function IsAuthenticated(): (r: bool)
      reads this
      ensures !r <==> usuario in {JNull, JUndefined, JBool(false), JNum(0), JStr("")}
    {
      Truthy(usuario)
    }
  }

  /**
   * A login is restored by the next page load when the stored profile parses
   * back to itself; a logout is restored as no session.
   */
  method LoginThenReload(w: Window, resp: Json) returns (ok: bool, reloaded: UsuarioProvider)
    modifies w`storage
    ensures ok <==> LoginShape(resp).Some?
    ensures ok && w.StoredText(LoginShape(resp).value.token) != "" && w.ReadsBack(LoginShape(resp).value.user)
       ==> reloaded.IsAuthenticated() && reloaded.usuario == LoginShape(resp).value.user
    ensures !ok && UsuarioHydration(old(w.storage), w.parse).NoSession? ==> !reloaded.IsAuthenticated()
  {
    var first := new UsuarioProvider();
    ok := first.Login(w, resp);
    if ok {
      var c := LoginShape(resp).value;
      assert GetItem(w.storage, "usuario") == Some(w.StoredJson(c.user));
      assert GetItem(w.storage, "token") == Some(w.StoredText(c.token));
    }
    reloaded := new UsuarioProvider();
    reloaded.Hydrate(w);
  }

  /** Logging out, then reloading, leaves no customer session whatever was stored before. */
  method LogoutThenReload(w: Window) returns (reloaded: UsuarioProvider)
    modifies w`storage
    ensures !reloaded.IsAuthenticated() && !reloaded.loading
    ensures SameOutside(old(w.storage), w.storage, UsuarioKeys)
  {
    var first := new UsuarioProvider();
    first.Logout(w);
    reloaded := new UsuarioProvider();
    reloaded.Hydrate(w);
  }
}
