/** The login page (`src/app/auth/login/page.jsx`): input check, token
    and user extraction from the response, "remember me" storage placement,
    the role-based redirect and the failure messages. */
module Login {
  import opened Wrappers
  import opened Text
  import Js
  import opened Client
  import Api

  datatype LoginForm = LoginForm(identifier: string, password: string, remember: bool)

  /** The body of `POST /api/login`. */
  datatype Payload = Payload(email: string, password: string)

  /** The request sent (if any), the session afterwards, the error banner
      and the page navigated to (if any). */
  datatype Outcome = Outcome(request: Option<Payload>, state: ClientState, error: string, redirect: Option<string>)

  const Blank: string := "Email+ dan password wajib diisi."
  const NoToken: string := "Login berhasil, tetapi token tidak ditemukan dari response backend."

  /** `data.data.token || data.token || data.access_token ||
      data.data.access_token || null`. */
  function Token(body: Js.Value): Js.Value {
    Js.FirstTruthy([Js.Path(body, ["data", "token"]), Js.Get(body, "token"),
                    Js.Get(body, "access_token"), Js.Path(body, ["data", "access_token"])], Js.Null)
  }

  /** `data.data.user || data.user || null`. */
  function User(body: Js.Value): Js.Value {
    Js.FirstTruthy([Js.Path(body, ["data", "user"]), Js.Get(body, "user")], Js.Null)
  }

  /** `user.role || user.data.role || data.data.role || data.role || ""`. */
  function Role(body: Js.Value): Js.Value {
    var user := User(body);
    Js.FirstTruthy([Js.Get(user, "role"), Js.Path(user, ["data", "role"]),
                    Js.Path(body, ["data", "role"]), Js.Get(body, "role")], Js.Str(""))
  }

  /** `String(role).toLowerCase() === "admin"`. */
  predicate IsAdmin(role: Js.Value) {
    Lower(Js.ToStr(role)) == "admin"
  }

  /** The landing page for a role: the dashboard for administrators, the
      homepage for everyone else, a missing role included. */
  function Landing(role: Js.Value): (r: string)
    ensures r == "/dashboard" <==> IsAdmin(role)
    ensures r == "/homepage" <==> !IsAdmin(role)
  {
    if IsAdmin(role) then "/dashboard" else "/homepage"
  }

  /** Writes the token to the store chosen by `remember` and removes it
      from the other one. */
  function StoreToken(st: ClientState, token: string, remember: bool): ClientState {
    if remember then st.(local := st.local["token" := token], session := st.session - {"token"})
    else st.(session := st.session["token" := token], local := st.local - {"token"})
  }

  /** Writes the user record to the store chosen by `remember`. */
  function StoreUser(st: ClientState, user: string, remember: bool): ClientState {
    if remember then st.(local := st.local["user" := user]) else st.(session := st.session["user" := user])
  }

  /** The banner for a rejected login. */
  function FailureMessage(status: Option<int>, body: Js.Value, message: Js.Value): (r: string)
    ensures status == Some(401) ==> r == "Email atau password salah."
    ensures status == Some(422) ==> r == "Validasi gagal. Periksa kembali input."
    ensures status != Some(401) && status != Some(422) ==>
              r == Js.ToStr(Js.FirstTruthy([Js.Get(body, "message"), Js.Get(body, "error"), message],
                                           Js.Str("Login gagal.")))
  {
    if status == Some(401) then "Email atau password salah."
    else if status == Some(422) then "Validasi gagal. Periksa kembali input."
    else Js.ToStr(Js.FirstTruthy([Js.Get(body, "message"), Js.Get(body, "error"), message],
                                 Js.Str("Login gagal.")))
  }

  /** `handleLogin`. `response` is what the backend answers if the request
      is sent; `stringify` is `JSON.stringify`. */
  function HandleLogin(form: LoginForm, st: ClientState, response: Response, stringify: Js.Value -> string)
    : (r: Outcome)
    // No request for a blank identifier or password.
    ensures r.request.None? <==> Trim(form.identifier) == "" || Trim(form.password) == ""
    ensures r.request.None? ==> r.error == Blank
    // The identifier is sent trimmed, the password as typed.
    ensures r.request.Some? ==> r.request.value == Payload(Trim(form.identifier), form.password)
    // A session is set up exactly when the backend answered with a token.
    ensures r.redirect.Some? <==> r.request.Some? && response.Ok? && Js.Truthy(Token(response.body))
    ensures r.request.Some? && response.Ok? && !Js.Truthy(Token(response.body)) ==> r.error == NoToken
    ensures r.request.Some? && response.Failed? ==>
              r.error == FailureMessage(response.status, response.body, response.message)
    ensures r.redirect.None? ==> r.state == st
    ensures r.redirect.Some? ==>
              var token := Js.ToStr(Token(response.body));
              && r.error == ""
              // The token sits in exactly one store: local for "remember me",
              // session otherwise.
              && (form.remember ==> "token" in r.state.local && r.state.local["token"] == token
                                    && "token" !in r.state.session)
              && (!form.remember ==> "token" in r.state.session && r.state.session["token"] == token
                                     && "token" !in r.state.local)
              && r.state.defaultAuth == Some(Bearer(token))
              // The user record goes to the same store, and only when present.
              && (Js.Truthy(User(response.body)) ==>
                    var store := if form.remember then r.state.local else r.state.session;
                    "user" in store && store["user"] == stringify(User(response.body)))
              && (!Js.Truthy(User(response.body)) ==>
                    AgreeExcept(r.state.local, st.local, {"token"})
                    && AgreeExcept(r.state.session, st.session, {"token"}))
              && (form.remember ==> AgreeExcept(r.state.session, st.session, {"token"}))
              && (!form.remember ==> AgreeExcept(r.state.local, st.local, {"token"}))
              && AgreeExcept(r.state.local, st.local, SessionKeys)
              && AgreeExcept(r.state.session, st.session, SessionKeys)
              // Administrators land on the dashboard, everyone else on the homepage.
              && r.redirect.value == Landing(Role(response.body))
  {
    if Trim(form.identifier) == "" || Trim(form.password) == "" then Outcome(None, st, Blank, None)
    else
      var payload := Some(Payload(Trim(form.identifier), form.password));
      match response
      case Failed(status, body, message) =>
        Outcome(payload, st, FailureMessage(status, body, message), None)
      case Ok(body) =>
        var token := Token(body);
        if !Js.Truthy(token) then Outcome(payload, st, NoToken, None)
        else
          var t := Js.ToStr(token);
          var st1 := StoreToken(st, t, form.remember).(defaultAuth := Some(Bearer(t)));
          var user := User(body);
          var st2 := if Js.Truthy(user) then StoreUser(st1, stringify(user), form.remember) else st1;
          Outcome(payload, st2, "", Some(Landing(Role(body))))
  }

  /** After a successful login, with or without "remember me", every
      request that does not set its own `Authorization` carries the bearer
      header of the new token: through `localStorage` when remembered,
      through the default header otherwise. */
  lemma RequestsAfterLoginCarryToken(form: LoginForm, st: ClientState, response: Response,
                                     stringify: Js.Value -> string, config: Api.RequestConfig)
    requires Trim(form.identifier) != "" && Trim(form.password) != ""
    requires response.Ok? && Js.Truthy(Token(response.body))
    requires "Authorization" !in config.headers
    ensures var after := HandleLogin(form, st, response, stringify).state;
            Api.Outgoing(after, config).headers["Authorization"] == Bearer(Js.ToStr(Token(response.body)))
  {
    var after := HandleLogin(form, st, response, stringify).state;
    Api.OutgoingAuthorization(after, config);
  }

  /** The token is looked up under `data.token` first, then at the top
      level, then as `access_token` at the top level and under `data`: the
      first truthy one wins, and without any the token is `null`. */
  lemma TokenPrecedence(body: Js.Value)
    ensures var d, t := Js.Path(body, ["data", "token"]), Js.Get(body, "token");
            var a, da := Js.Get(body, "access_token"), Js.Path(body, ["data", "access_token"]);
            && (Js.Truthy(d) ==> Token(body) == d)
            && (!Js.Truthy(d) && Js.Truthy(t) ==> Token(body) == t)
            && (!Js.Truthy(d) && !Js.Truthy(t) && Js.Truthy(a) ==> Token(body) == a)
            && (!Js.Truthy(d) && !Js.Truthy(t) && !Js.Truthy(a) && Js.Truthy(da) ==> Token(body) == da)
            && (!Js.Truthy(d) && !Js.Truthy(t) && !Js.Truthy(a) && !Js.Truthy(da) ==> Token(body) == Js.Null)
  {
    var vs := [Js.Path(body, ["data", "token"]), Js.Get(body, "token"), Js.Get(body, "access_token"),
               Js.Path(body, ["data", "access_token"])];
    assert vs[0] == Js.Path(body, ["data", "token"]) && vs[1] == Js.Get(body, "token");
    assert vs[2] == Js.Get(body, "access_token") && vs[3] == Js.Path(body, ["data", "access_token"]);
  }
}
