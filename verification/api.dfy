/** The shared axios instance: its base URL and the request interceptor
    that attaches the stored token and chooses the content type. */
module Api {
  import opened Wrappers
  import Js
  import opened Client

  /** A request body: a `FormData` (multipart) or anything else. */
  datatype Body = NoBody | FormData(fields: seq<(string, string)>) | Json(value: Js.Value)

  /** The parts of an axios request config the model keeps. */
  datatype RequestConfig = RequestConfig(
    verb: string,
    url: string,
    baseUrl: string,
    headers: map<string, string>,
    data: Body)

  /** `axios.create({ baseURL: ... })`. */
  function ApiBaseUrl(env: Option<string>): (r: string)
    ensures env.Some? && env.value != "" ==> r == env.value
    ensures env.None? || env.value == "" ==> r == "http://127.0.0.1:8000"
  {
    BaseUrl(env)
  }

  const ManagedHeaders: set<string> := {"Authorization", "Content-Type", "Accept"}

  /** The request interceptor. Only `localStorage` is consulted for the
      token. A `FormData` body loses any preset `Content-Type` so that the
      browser can add the multipart boundary; any other body is sent as JSON.
      Nothing but those three headers changes. */
  function Intercept(config: RequestConfig, local: Store): (r: RequestConfig)
    ensures r.verb == config.verb && r.url == config.url
    ensures r.baseUrl == config.baseUrl && r.data == config.data
    ensures Item(local, "token").Some? ==>
              "Authorization" in r.headers
              && r.headers["Authorization"] == Bearer(Item(local, "token").value)
    ensures Item(local, "token").None? ==>
              ("Authorization" in r.headers <==> "Authorization" in config.headers)
              && ("Authorization" in r.headers ==>
                    r.headers["Authorization"] == config.headers["Authorization"])
    ensures config.data.FormData? ==>
              "Content-Type" !in r.headers
              && ("Accept" in r.headers <==> "Accept" in config.headers)
              && ("Accept" in r.headers ==> r.headers["Accept"] == config.headers["Accept"])
    ensures !config.data.FormData? ==>
              && "Content-Type" in r.headers && r.headers["Content-Type"] == "application/json"
              && "Accept" in r.headers && r.headers["Accept"] == "application/json"
    ensures AgreeExcept(r.headers, config.headers, ManagedHeaders)
  {
    var token := Item(local, "token");
    var h1 := if token.Some? then config.headers["Authorization" := Bearer(token.value)]
              else config.headers;
    var h2 := if config.data.FormData? then h1 - {"Content-Type"}
              else h1["Content-Type" := "application/json"]["Accept" := "application/json"];
    config.(headers := h2)
  }

  /** What leaves the browser: axios first lays the request's own headers
      over the instance defaults (here the default `Authorization`), then
      runs the interceptor. */
  function Outgoing(st: ClientState, config: RequestConfig): RequestConfig {
    var withDefaults :=
      if st.defaultAuth.Some? && "Authorization" !in config.headers
      then config.(headers := config.headers["Authorization" := st.defaultAuth.value])
      else config;
    Intercept(withDefaults, st.local)
  }

  /** A request that sets no `Authorization` itself carries the bearer
      header of the token in `localStorage` when there is one, and the
      default header otherwise. */
  lemma OutgoingAuthorization(st: ClientState, config: RequestConfig)
    requires "Authorization" !in config.headers
    ensures Item(st.local, "token").Some? ==>
              Outgoing(st, config).headers["Authorization"] == Bearer(Item(st.local, "token").value)
    ensures Item(st.local, "token").None? && st.defaultAuth.Some? ==>
              Outgoing(st, config).headers["Authorization"] == st.defaultAuth.value
    ensures Item(st.local, "token").None? && st.defaultAuth.None? ==>
              "Authorization" !in Outgoing(st, config).headers
  {
  }
}
