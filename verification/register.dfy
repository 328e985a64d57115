/** The sign-up page of the `siorma_fe-main` copy
    (`siorma_fe-main/src/app/auth/register/page.jsx`): it reads the token
    from three places, logs the new user in, and digs the first validation
    message out of a failed response. */
module MainRegister {
  import opened Wrappers
  import Js
  import opened Client

  const Default: string := "Pendaftaran gagal. Silakan cek data yang diisi."
  const Landing: string := "/homepage"

  /** What a submit leaves behind: the session, the error banner, and the
      page navigated to (if any). */
  datatype Outcome = Outcome(state: ClientState, error: string, redirect: Option<string>)

  /** `body.data.token || body.token || body.access_token || null`. */
  function Token(body: Js.Value): Js.Value {
    Js.FirstTruthy([Js.Path(body, ["data", "token"]), Js.Get(body, "token"), Js.Get(body, "access_token")], Js.Null)
  }

  /** `body.data.user || body.user || null`. */
  function User(body: Js.Value): Js.Value {
    Js.FirstTruthy([Js.Path(body, ["data", "user"]), Js.Get(body, "user")], Js.Null)
  }

  /** `err.response.data.errors || err.response.data.data`. */
  function Errors(body: Js.Value): Js.Value {
    Js.Or(Js.Get(body, "errors"), Js.Get(body, "data"))
  }

  /** `errors[Object.keys(errors)[0]]` when the collection has an entry:
      the first property of an object, element 0 of an array. */
  function FirstEntry(errors: Js.Value): (r: Option<Js.Value>)
    ensures r.Some? <==> (errors.Obj? && |errors.fields| > 0) || (errors.Arr? && |errors.items| > 0)
    ensures errors.Obj? && |errors.fields| > 0 ==> r == Some(errors.fields[0].1)
    ensures errors.Arr? && |errors.items| > 0 ==> r == Some(errors.items[0])
  {
    match errors
    case Obj(fields) => if |fields| > 0 then Some(fields[0].1) else None
    case Arr(items) => if |items| > 0 then Some(items[0]) else None
    case _ => None
  }

  /** `Array.isArray(v) ? v[0] : String(v)` for the entry `v`; a missing
      entry reads as `undefined`. */
  function EntryMessage(v: Js.Value): (r: Js.Value)
    ensures v.Arr? && |v.items| > 0 ==> r == v.items[0]
    ensures v.Arr? && |v.items| == 0 ==> r == Js.Undefined
    ensures !v.Arr? ==> r == Js.Str(Js.ToStr(v))
  {
    if v.Arr? then (if |v.items| > 0 then v.items[0] else Js.Undefined) else Js.Str(Js.ToStr(v))
  }

  /** The catch block as written: an `errors` (or `data`) object or array in
      the error body wins over `message`, even when it has no entries. */
  function ErrorMessageAsWritten(body: Js.Value): (r: string)
    ensures Js.IsObjectLike(Errors(body)) && FirstEntry(Errors(body)).None? ==> r == "undefined"
    ensures Js.IsObjectLike(Errors(body)) && FirstEntry(Errors(body)).Some? ==>
              r == Js.ToStr(Js.Or(EntryMessage(FirstEntry(Errors(body)).value), Js.Str(Default)))
    ensures !Js.IsObjectLike(Errors(body)) ==> r == Js.ToStr(Js.Or(Js.Get(body, "message"), Js.Str(Default)))
  {
    var errors := Errors(body);
    if Js.Truthy(errors) && Js.IsObjectLike(errors) then
      Js.ToStr(Js.Or(EntryMessage(FirstEntry(errors).GetOr(Js.Undefined)), Js.Str(Default)))
    else Js.ToStr(Js.Or(Js.Get(body, "message"), Js.Str(Default)))
  }

  /** A 422 body whose `data` is an empty list shows the word "undefined"
      and hides the server's own message. */
  lemma EmptyDataHidesMessage(m: string)
    requires m != ""
    ensures ErrorMessageAsWritten(Js.Obj([("message", Js.Str(m)), ("data", Js.Arr([]))])) == "undefined"
    ensures ErrorMessageAsWritten(Js.Obj([("message", Js.Str(m)), ("errors", Js.Obj([]))])) == "undefined"
  {
    var b1 := Js.Obj([("message", Js.Str(m)), ("data", Js.Arr([]))]);
    assert Js.Get(b1, "errors") == Js.Undefined;
    assert "message" != "data" by { assert "message"[0] != "data"[0]; }
    assert "message" != "errors" by { assert "message"[0] != "errors"[0]; }
    assert b1.fields[1..] == [("data", Js.Arr([]))];
    assert Js.Lookup(b1.fields, "data") == Js.Lookup(b1.fields[1..], "data");
    assert Js.Get(b1, "data") == Js.Arr([]);
    var b2 := Js.Obj([("message", Js.Str(m)), ("errors", Js.Obj([]))]);
    assert b2.fields[1..] == [("errors", Js.Obj([]))];
    assert Js.Lookup(b2.fields, "errors") == Js.Lookup(b2.fields[1..], "errors");
    assert Js.Get(b2, "errors") == Js.Obj([]);
  }

  /** The evident intent: take the first validation message when there is
      one, and otherwise fall back to `message`, then the default. */
  function ErrorMessage(body: Js.Value): (r: string)
    ensures FirstEntry(Errors(body)).None? ==> r == Js.ToStr(Js.Or(Js.Get(body, "message"), Js.Str(Default)))
    ensures FirstEntry(Errors(body)).Some? ==> r == ErrorMessageAsWritten(body)
  {
    var errors := Errors(body);
    match FirstEntry(errors)
    case Some(v) => Js.ToStr(Js.Or(EntryMessage(v), Js.Str(Default)))
    case None => Js.ToStr(Js.Or(Js.Get(body, "message"), Js.Str(Default)))
  }

  /** With the corrected extraction the server's message is shown whenever
      the error collection is empty or absent. */
  lemma MessageShownWithoutEntries(m: string, rest: Js.Value)
    requires m != ""
    requires rest == Js.Arr([]) || rest == Js.Obj([]) || rest == Js.Null
    ensures ErrorMessage(Js.Obj([("message", Js.Str(m)), ("data", rest)])) == m
  {
    var b := Js.Obj([("message", Js.Str(m)), ("data", rest)]);
    assert Js.Get(b, "errors") == Js.Undefined;
    assert "message" != "data" by { assert "message"[0] != "data"[0]; }
    assert b.fields[1..] == [("data", rest)];
    assert Js.Lookup(b.fields, "data") == Js.Lookup(b.fields[1..], "data");
    assert Js.Get(b, "data") == rest;
    assert Js.Get(b, "message") == Js.Str(m);
  }

  /** A Laravel validation body yields the first message of the first
      field, in both versions. */
  lemma FirstValidationMessage(field: string, m: string, more: seq<Js.Value>, others: seq<(string, Js.Value)>)
    requires m != ""
    ensures var b := Js.Obj([("errors", Js.Obj([(field, Js.Arr([Js.Str(m)] + more))] + others))]);
            ErrorMessage(b) == m && ErrorMessageAsWritten(b) == m
  {
    var b := Js.Obj([("errors", Js.Obj([(field, Js.Arr([Js.Str(m)] + more))] + others))]);
    assert Js.Get(b, "errors") == Js.Obj([(field, Js.Arr([Js.Str(m)] + more))] + others);
  }

  /** `handleSubmit` after the request, as written: a failure shows the
      catch block's message. `stringify` is `JSON.stringify`. */
  function HandleSubmit(st: ClientState, response: Response, stringify: Js.Value -> string): (r: Outcome)
    // Every accepted sign-up goes to the homepage, token or not.
    ensures r.redirect.Some? <==> response.Ok?
    ensures r.redirect.Some? ==> r.redirect.value == Landing && r.error == ""
    ensures response.Failed? ==> r.state == st && r.error == ErrorMessageAsWritten(response.body)
    ensures r.state.session == st.session
    ensures AgreeExcept(r.state.local, st.local, {"token", "siorma_user"})
    ensures response.Ok? && !Js.Truthy(Token(response.body)) ==> r.state == st
    // A token logs the new user in: stored locally, with the user record
    // (or `{}`), and installed as the default header.
    ensures response.Ok? && Js.Truthy(Token(response.body)) ==>
              var t := Js.ToStr(Token(response.body));
              && "token" in r.state.local && r.state.local["token"] == t
              && "siorma_user" in r.state.local
              && r.state.local["siorma_user"] == stringify(Js.Or(User(response.body), Js.Obj([])))
              && r.state.defaultAuth == Some(Bearer(t))
  {
    match response
    case Failed(_, body, _) => Outcome(st, ErrorMessageAsWritten(body), None)
    case Ok(body) =>
      var token := Token(body);
      if Js.Truthy(token) then
        var t := Js.ToStr(token);
        var user := stringify(Js.Or(User(body), Js.Obj([])));
        Outcome(st.(local := st.local["token" := t]["siorma_user" := user], defaultAuth := Some(Bearer(t))), "", Some(Landing))
      else Outcome(st, "", Some(Landing))
  }

  /** `handleSubmit` with the corrected extraction: the same storage and
      navigation, and a failure whose error collection has no entry shows
      the server's `message` (or the default). */
  function HandleSubmitCorrected(st: ClientState, response: Response, stringify: Js.Value -> string): (r: Outcome)
    ensures r.state == HandleSubmit(st, response, stringify).state
    ensures r.redirect == HandleSubmit(st, response, stringify).redirect
    ensures response.Ok? ==> r.error == ""
    ensures response.Failed? ==> r.error == ErrorMessage(response.body)
    ensures response.Failed? && FirstEntry(Errors(response.body)).None? ==>
              r.error == Js.ToStr(Js.Or(Js.Get(response.body, "message"), Js.Str(Default)))
  {
    var a := HandleSubmit(st, response, stringify);
    if response.Failed? then a.(error := ErrorMessage(response.body)) else a
  }
}

/** The sign-up page of the current app (`src/app/auth/register/page.jsx`):
    the token is read only from `data.token`, the default header is not
    set, and a failure shows `message` or the default. */
module Register {
  import opened Wrappers
  import Js
  import opened Client
  import MainRegister

  datatype Outcome = Outcome(state: ClientState, error: string, redirect: Option<string>)

  /** `localStorage.setItem("siorma_user", JSON.stringify(user))`: the
      stringified `undefined` is stored as the text "undefined". */
  function StoredUser(user: Js.Value, stringify: Js.Value -> string): string {
    if user.Undefined? then "undefined" else stringify(user)
  }

  /** `handleSubmit` after the request. */
  function HandleSubmit(st: ClientState, response: Response, stringify: Js.Value -> string): (r: Outcome)
    ensures r.redirect.Some? <==> response.Ok?
    ensures r.redirect.Some? ==> r.redirect.value == MainRegister.Landing && r.error == ""
    ensures response.Failed? ==>
              r.state == st && r.error == Js.ToStr(Js.Or(Js.Get(response.body, "message"), Js.Str(MainRegister.Default)))
    // The default header and the session store are never touched.
    ensures r.state.session == st.session && r.state.defaultAuth == st.defaultAuth
    ensures AgreeExcept(r.state.local, st.local, {"token", "siorma_user"})
    ensures response.Ok? && !Js.Truthy(Js.Path(response.body, ["data", "token"])) ==> r.state == st
    ensures response.Ok? && Js.Truthy(Js.Path(response.body, ["data", "token"])) ==>
              && "token" in r.state.local && r.state.local["token"] == Js.ToStr(Js.Path(response.body, ["data", "token"]))
              && "siorma_user" in r.state.local
              && r.state.local["siorma_user"] == StoredUser(Js.Path(response.body, ["data", "user"]), stringify)
  {
    match response
    case Failed(_, body, _) => Outcome(st, Js.ToStr(Js.Or(Js.Get(body, "message"), Js.Str(MainRegister.Default))), None)
    case Ok(body) =>
      var token := Js.Path(body, ["data", "token"]);
      if Js.Truthy(token) then
        var user := StoredUser(Js.Path(body, ["data", "user"]), stringify);
        Outcome(st.(local := st.local["token" := Js.ToStr(token)]["siorma_user" := user]), "", Some(MainRegister.Landing))
      else Outcome(st, "", Some(MainRegister.Landing))
  }

  /** The two versions agree on storage and navigation whenever the token
      and the user sit under `data`; only the older one also installs the
      default header. */
  lemma VersionsAgree(st: ClientState, response: Response, stringify: Js.Value -> string)
    requires response.Ok? ==>
               Js.Truthy(Js.Path(response.body, ["data", "token"])) && Js.Truthy(Js.Path(response.body, ["data", "user"]))
    ensures var a := HandleSubmit(st, response, stringify);
            var b := MainRegister.HandleSubmit(st, response, stringify);
            a.redirect == b.redirect && a.state.local == b.state.local && a.state.session == b.state.session
    ensures response.Failed? && !Js.IsObjectLike(MainRegister.Errors(response.body)) ==>
              HandleSubmit(st, response, stringify).error == MainRegister.HandleSubmit(st, response, stringify).error
    ensures response.Failed? && MainRegister.FirstEntry(MainRegister.Errors(response.body)).None? ==>
              HandleSubmit(st, response, stringify).error == MainRegister.HandleSubmitCorrected(st, response, stringify).error
  {
    if response.Ok? {
      var body := response.body;
      assert MainRegister.Token(body) == Js.Path(body, ["data", "token"]);
      assert MainRegister.User(body) == Js.Path(body, ["data", "user"]);
    }
  }

  /** The versions part on a failure whose `data` is an empty list: the
      current page shows the server's message, the older one "undefined". */
  lemma VersionsDisagreeOnEmptyData(st: ClientState, status: Option<int>, m: string, stringify: Js.Value -> string)
    requires m != "" && m != "undefined"
    ensures var response := Failed(status, Js.Obj([("message", Js.Str(m)), ("data", Js.Arr([]))]), Js.Undefined);
            && HandleSubmit(st, response, stringify).error == m
            && MainRegister.HandleSubmit(st, response, stringify).error == "undefined"
  {
    var b := Js.Obj([("message", Js.Str(m)), ("data", Js.Arr([]))]);
    MainRegister.EmptyDataHidesMessage(m);
    assert Js.Get(b, "message") == Js.Str(m);
  }
}
