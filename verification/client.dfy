/** The browser-side session: the two Web Storage areas, the api client's
    default `Authorization` header, and the shape of a request's outcome. */
module Client {
  import opened Wrappers
  import Js

  type Store = map<string, string>

  /** `localStorage`, `sessionStorage` and
      `api.defaults.headers.common.Authorization`. */
  datatype ClientState = ClientState(local: Store, session: Store, defaultAuth: Option<string>)

  /** How a request ended: a response body (`res.data`), or a rejection with
      the optional HTTP status, the error body (`err.response.data`,
      `undefined` when no response arrived) and `err.message`. */
  datatype Response =
    | Ok(body: Js.Value)
    | Failed(status: Option<int>, body: Js.Value, message: Js.Value)

  const DefaultApiUrl: string := "http://127.0.0.1:8000"

  /** `process.env.NEXT_PUBLIC_API_URL || "http://127.0.0.1:8000"`. */
  function BaseUrl(env: Option<string>): (r: string)
    ensures env.Some? && env.value != "" ==> r == env.value
    ensures env.None? || env.value == "" ==> r == DefaultApiUrl
    ensures r != ""
  {
    if env.Some? && env.value != "" then env.value else DefaultApiUrl
  }

  /** `store.getItem(key)` read as a truthy string: `None` for a missing
      key and for the empty string. */
  function Item(store: Store, key: string): (r: Option<string>)
    ensures r.Some? <==> key in store && store[key] != ""
    ensures r.Some? ==> r.value == store[key]
  {
    if key in store && store[key] != "" then Some(store[key]) else None
  }

  /** `localStorage.getItem("token") || sessionStorage.getItem("token")`. */
  function GetToken(st: ClientState): (r: Option<string>)
    ensures Item(st.local, "token").Some? ==> r == Item(st.local, "token")
    ensures Item(st.local, "token").None? ==> r == Item(st.session, "token")
    ensures r.Some? ==> r.value != ""
  {
    if Item(st.local, "token").Some? then Item(st.local, "token") else Item(st.session, "token")
  }

  function Bearer(token: string): string {
    "Bearer " + token
  }

  /** `applyAuthHeader(token)`: sets the default header for a token and
      deletes it otherwise; storage is untouched. */
  function ApplyAuthHeader(st: ClientState, token: Option<string>): (r: ClientState)
    ensures r.local == st.local && r.session == st.session
    ensures token.Some? ==> r.defaultAuth == Some(Bearer(token.value))
    ensures token.None? ==> r.defaultAuth.None?
  {
    st.(defaultAuth := if token.Some? then Some(Bearer(token.value)) else None)
  }

  /** `a` and `b` hold the same entries except possibly under `keys`. */
  ghost predicate AgreeExcept(a: Store, b: Store, keys: set<string>) {
    forall k :: k !in keys ==> (k in a <==> k in b) && (k in a ==> a[k] == b[k])
  }

  /** The storage keys that make up a login. */
  const SessionKeys: set<string> := {"token", "user"}

  /** `clearToken()`: `token` and `user` leave both stores; every other
      entry, and the default header, stays as it was. */
  function ClearToken(st: ClientState): (r: ClientState)
    ensures forall k :: k in SessionKeys ==> k !in r.local && k !in r.session
    ensures AgreeExcept(r.local, st.local, SessionKeys)
    ensures AgreeExcept(r.session, st.session, SessionKeys)
    ensures r.defaultAuth == st.defaultAuth
    ensures GetToken(r).None?
  {
    ClientState(st.local - SessionKeys, st.session - SessionKeys, st.defaultAuth)
  }

  /** Clearing twice is the same as clearing once. */
  lemma ClearTokenIdempotent(st: ClientState)
    ensures ClearToken(ClearToken(st)) == ClearToken(st)
  {
  }
}
