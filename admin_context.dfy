/**
 * The administrator session provider: the `admin` state, its `loading` flag
 * and the two `localStorage` keys it owns, `adminToken` and `adminData`.
 */
module AdminSession {
  import opened Common
  import opened Json
  import opened Browser

  const OutsideProvider := "useAdmin debe ser usado dentro de AdminProvider"

  /** `useAdmin()`: the provider's value, or an error when no provider encloses the caller. */
  function UseAdmin<T>(context: Option<T>): (r: Result<T, string>)
    ensures r.Ok? <==> context.Some?
    ensures r.Ok? ==> r.value == context.value
    ensures r.Err? ==> r.error == OutsideProvider
  {
    match context
    case None => Err(OutsideProvider)
    case Some(v) => Ok(v)
  }

  datatype Hydration = Restore(admin: Json) | Corrupt | NoSession

  /**
   * The mount effect's decision: with both keys present, the parsed profile
   * with the stored token added as `token`, or a parse failure; otherwise nothing.
   */
  function AdminHydration(s: Storage, parse: string -> Option<Json>): (h: Hydration)
    ensures h.NoSession? <==> !Present(GetItem(s, "adminData")) || !Present(GetItem(s, "adminToken"))
    ensures h.Corrupt? <==> !h.NoSession? && parse(s["adminData"]).None?
    ensures h.Restore? ==> parse(s["adminData"]).Some?
                           && h.admin == SpreadWith(parse(s["adminData"]).value, "token", JStr(s["adminToken"]))
  {
    var savedAdmin := GetItem(s, "adminData");
    var savedToken := GetItem(s, "adminToken");
    if !Present(savedAdmin) || !Present(savedToken) then NoSession
    else match parse(savedAdmin.value)
      case None => Corrupt
      case Some(d) => Restore(SpreadWith(d, "token", JStr(savedToken.value)))
  }

  class AdminProvider {
    var admin: Json
    var loading: bool

    constructor ()
      ensures admin == JNull && loading
    {
      admin := JNull;
      loading := true;
    }

    /** The mount effect: restore, or remove both keys on a parse failure; `loading` ends false. */
    method Hydrate(w: Window)
      modifies this, w`storage
      ensures !loading
      ensures SameOutside(old(w.storage), w.storage, AdminKeys)
      ensures match AdminHydration(old(w.storage), w.parse)
        case Restore(a) => admin == a && w.storage == old(w.storage)
        case Corrupt => admin == old(admin) && w.storage == old(w.storage) - AdminKeys
        case NoSession => admin == old(admin) && w.storage == old(w.storage)
    {
      var savedAdmin := GetItem(w.storage, "adminData");
      var savedToken := GetItem(w.storage, "adminToken");
      if Present(savedAdmin) && Present(savedToken) {
        var parsed := w.parse(savedAdmin.value);
        if parsed.Some? {
          admin := SpreadWith(parsed.value, "token", JStr(savedToken.value));
        } else {
          w.storage := w.storage - AdminKeys;
        }
      }
      loading := false;
    }

    /**
     * `loginAdmin(adminData)`: the state becomes the whole response first; a
     * `null` or `undefined` response then throws on `.admin` (`ok` false) before
     * storage is written. Otherwise `admin` is stored serialised and `token` as text.
     */
    method LoginAdmin(w: Window, resp: Json) returns (ok: bool)
      modifies this`admin, w`storage
      ensures admin == resp
      ensures ok <==> resp != JNull && resp != JUndefined
      ensures !ok ==> w.storage == old(w.storage)
      ensures ok ==> w.storage == old(w.storage)["adminData" := w.StoredJson(Field(resp, "admin"))]
                                                ["adminToken" := w.StoredText(Field(resp, "token"))]
      ensures SameOutside(old(w.storage), w.storage, AdminKeys)
    {
      admin := resp;
      if resp == JNull || resp == JUndefined {
        return false;
      }
      w.storage := w.storage["adminData" := w.StoredJson(Field(resp, "admin"))];
      w.storage := w.storage["adminToken" := w.StoredText(Field(resp, "token"))];
      ok := true;
    }

    /** `logoutAdmin()`: the state nulled and both keys removed. */
    method LogoutAdmin(w: Window)
      modifies this`admin, w`storage
      ensures admin == JNull && w.storage == old(w.storage) - AdminKeys
      ensures SameOutside(old(w.storage), w.storage, AdminKeys)
      ensures forall k :: k in AdminKeys ==> GetItem(w.storage, k).None?
    {
      admin := JNull;
      w.storage := w.storage - AdminKeys;
    }

    /** `isAdmin()`: `admin !== null`, so an `undefined` state counts as logged in. */
    function IsAdmin(): (r: bool)
      reads this
      ensures r <==> admin != JNull
      ensures admin == JUndefined ==> r
    {
      admin != JNull
    }
  }

  /**
   * After an administrator login the next page load restores the stored
   * profile with the token added; a response without `admin` stores the text
   * "undefined", which does not parse, so that load wipes both keys instead.
   */
  method LoginAdminThenReload(w: Window, resp: Json) returns (ok: bool, reloaded: AdminProvider)
    modifies w`storage
    ensures ok <==> resp != JNull && resp != JUndefined
    ensures ok && Field(resp, "token").JStr? && Field(resp, "token").s != ""
       && w.ReadsBack(Field(resp, "admin"))
       ==> reloaded.admin == SpreadWith(Field(resp, "admin"), "token", Field(resp, "token"))
    ensures ok && Field(resp, "admin") == JUndefined && w.StoredText(Field(resp, "token")) != ""
       && w.parse("undefined").None?
       ==> reloaded.admin == JNull && forall k :: k in AdminKeys ==> k !in w.storage
  {
    var first := new AdminProvider();
    ok := first.LoginAdmin(w, resp);
    if ok {
      assert GetItem(w.storage, "adminData") == Some(w.StoredJson(Field(resp, "admin")));
      assert GetItem(w.storage, "adminToken") == Some(w.StoredText(Field(resp, "token")));
    }
    reloaded := new AdminProvider();
    reloaded.Hydrate(w);
  }
}
