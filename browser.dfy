/**
 * The browser globals the client code touches: `localStorage` as a map from
 * key to text, and the current `window.location.pathname`. `JSON.parse` and
 * `JSON.stringify` are parameters of the window.
 */
module Browser {
  import opened Common
  import opened Json

  type Storage = map<string, string>

  /** The keys written by the customer session and by the administrator session. */
  const UsuarioKeys: set<string> := {"token", "usuario"}
  const AdminKeys: set<string> := {"adminToken", "adminData"}

  /** `localStorage.getItem(key)`: `null` when the key is missing. */
  function GetItem(s: Storage, key: string): (r: Option<string>)
    ensures r.Some? <==> key in s
    ensures r.Some? ==> r.value == s[key]
  {
    if key in s then Some(s[key]) else None
  }

  /** `t` differs from `s` at most under `keys`. */
  ghost predicate SameOutside(s: Storage, t: Storage, keys: set<string>) {
    forall k :: k !in keys ==> GetItem(s, k) == GetItem(t, k)
  }

  /** The two sessions use disjoint keys, so one touching only its own keys leaves the other's intact. */
  lemma SessionsDisjoint(s: Storage, t: Storage)
    requires SameOutside(s, t, UsuarioKeys)
    ensures forall k :: k in AdminKeys ==> GetItem(s, k) == GetItem(t, k)
  {
    forall k | k in AdminKeys
      ensures GetItem(s, k) == GetItem(t, k)
    {
      assert k !in UsuarioKeys;
    }
  }

  class Window {
    var storage: Storage
    var pathname: string
    /** `JSON.parse`: `None` where it throws. */
    const parse: string -> Option<Json>
    /** `JSON.stringify` of a defined value. */
    const stringify: Json -> string

    constructor (storage: Storage, pathname: string, parse: string -> Option<Json>, stringify: Json -> string)
      ensures this.storage == storage && this.pathname == pathname
      ensures this.parse == parse && this.stringify == stringify
    {
      this.storage := storage;
      this.pathname := pathname;
      this.parse := parse;
      this.stringify := stringify;
    }

    /** The text `localStorage.setItem(k, JSON.stringify(v))` stores: `undefined` becomes "undefined". */
    function StoredJson(v: Json): (t: string)
      ensures v == JUndefined ==> t == "undefined"
      ensures v != JUndefined ==> t == stringify(v)
    {
      if v == JUndefined then "undefined" else stringify(v)
    }

    /** `v`, saved through `StoredJson`, reads back as the same value on the next page load. */
    predicate ReadsBack(v: Json) {
      StoredJson(v) != "" && parse(StoredJson(v)) == Some(v)
    }

    /** The text `localStorage.setItem(k, v)` stores: `String(v)`. */
    function StoredText(v: Json): (t: string)
      ensures v.JStr? ==> t == v.s
      ensures v == JUndefined ==> t == "undefined"
      ensures v == JNull ==> t == "null"
    {
      match v
      case JStr(s) => s
      case JUndefined => "undefined"
      case JNull => "null"
      case _ => stringify(v)
    }
  }
}
