/** The organisation list of the `siorma_fe-main` copy
    (`siorma_fe-main/src/app/list-ormawa/page.jsx`): the authenticated
    fetch, the list extraction, the search and the card images. */
module OrmawaList {
  import opened Wrappers
  import opened Text
  import opened Seqs
  import Js
  import opened Client
  import Api
  import opened Entities
  import opened StorageUrls
  import Home

  /** `storageUrl(path)` as written on this page: every present path is put
      under `<base>/storage/`, whatever its form. */
  function NaiveStorageUrl(base: string, path: Option<string>): (r: Option<string>)
    ensures r.None? <==> !Present(path)
    ensures r.Some? ==> r.value == base + "/storage/" + path.value
  {
    if Present(path) then Some(base + "/storage/" + path.value) else None
  }

  /** An absolute photo URL and a `public/` path both resolve to a wrong
      address: the first gets the storage prefix in front of its scheme,
      the second keeps `public/` in the URL. The homepage's resolver gives
      the URL itself and `<base>/storage/<rest>`. */
  lemma NaiveStorageUrlMisresolves(base: string, url: string, x: string)
    requires IsAbsoluteUrl(url)
    ensures NaiveStorageUrl(base, Some(url)) != StorageUrl(base, Some(url))
    ensures NaiveStorageUrl(base, Some("public/" + x)) != StorageUrl(base, Some("public/" + x))
  {
    assert Present(Some(url));
    assert |NaiveStorageUrl(base, Some(url)).value| > |url|;
    var p := "public/" + x;
    assert StartsWith(p, "public/");
    assert !IsAbsoluteUrl(p) && !StartsWith(p, "/") by {
      FirstCharDiffers(p, "http://");
      FirstCharDiffers(p, "https://");
      FirstCharDiffers(p, "/");
    }
    assert |NaiveStorageUrl(base, Some(p)).value| == |StorageUrl(base, Some(p)).value| + 7;
  }

  /** For a plain relative path the two resolvers agree. */
  lemma NaiveAgreesOnPlainPaths(base: string, x: string)
    requires x != ""
    requires !StartsWith(x, "/") && !StartsWith(x, "public/") && !IsAbsoluteUrl(x)
    ensures NaiveStorageUrl(base, Some(x)) == StorageUrl(base, Some(x))
  {
    SpellingsAgree(base, x);
  }

  const Placeholder: string := "/placeholder.png"

  /** `storageUrl(o.photo_path) || "/placeholder.png"` as written, with
      this page's resolver: an absolute photo URL comes out as a different,
      broken address. */
  function CardImageAsWritten(base: string, o: Ormawa): (r: string)
    ensures !Present(o.photoPath) ==> r == Placeholder
    ensures Present(o.photoPath) ==> r == base + "/storage/" + o.photoPath.value
    ensures Present(o.photoPath) && IsAbsoluteUrl(o.photoPath.value) ==> r != CardImage(base, o)
  {
    var r := NaiveStorageUrl(base, o.photoPath).GetOr(Placeholder);
    if Present(o.photoPath) && IsAbsoluteUrl(o.photoPath.value) then
      NaiveStorageUrlMisresolves(base, o.photoPath.value, "");
      r
    else r
  }

  /** The card image with the corrected resolver:
      `storageUrl(o.photo_path) || "/placeholder.png"` where the path is
      resolved as the homepage does it. */
  function CardImage(base: string, o: Ormawa): (r: string)
    ensures r != ""
    ensures !Present(o.photoPath) ==> r == Placeholder
    ensures Present(o.photoPath) ==> Some(r) == StorageUrl(base, o.photoPath)
  {
    StorageUrl(base, o.photoPath).GetOr(Placeholder)
  }

  /** `filteredOrmawa`: the whole list for a blank search, otherwise the
      organisations whose name, type or category contains the key. */
  function FilteredOrmawa(ormawa: seq<Ormawa>, searchTerm: string): (r: seq<Ormawa>)
    ensures Home.SearchKey(searchTerm) == "" ==> r == ormawa
    ensures IsSubsequence(r, ormawa)
    ensures forall i :: 0 <= i < |r| ==>
              var key := Home.SearchKey(searchTerm);
              key == "" || Home.TextMatches(r[i].name, key) || Home.TextMatches(r[i].typeOrmawa, key)
              || Home.TextMatches(r[i].categoryOrmawa, key)
    ensures forall i :: 0 <= i < |ormawa| ==>
              var key := Home.SearchKey(searchTerm);
              (Home.TextMatches(ormawa[i].name, key) || Home.TextMatches(ormawa[i].typeOrmawa, key)
               || Home.TextMatches(ormawa[i].categoryOrmawa, key)) ==> ormawa[i] in r
    ensures |r| == Count(ormawa, Home.OrmawaFilter(Home.SearchKey(searchTerm), Home.AllCategories))
  {
    var key := Home.SearchKey(searchTerm);
    if key == "" then
      SubsequenceReflexive(ormawa);
      FilterKeepsAll(ormawa, Home.OrmawaFilter(key, Home.AllCategories));
      ormawa
    else Filter(ormawa, Home.OrmawaFilter(key, Home.AllCategories))
  }

  /** This page's search is the homepage's search with the "Semua"
      category selected. */
  lemma SearchMatchesHome(ormawa: seq<Ormawa>, searchTerm: string)
    ensures FilteredOrmawa(ormawa, searchTerm) == Home.FilteredOrmawa(ormawa, searchTerm, Home.AllCategories)
  {
  }

  /** `body?.data ?? body ?? []`, kept only when it is an array. */
  function DataList(body: Js.Value): (r: seq<Js.Value>)
    ensures body.Arr? ==> r == body.items
    ensures body.Obj? && Js.Get(body, "data").Arr? ==> r == Js.Get(body, "data").items
    ensures body.Obj? && !Js.Get(body, "data").Arr? ==> r == []
    ensures !body.Arr? && !body.Obj? ==> r == []
  {
    var data := Js.Coalesce(Js.Coalesce(Js.Get(body, "data"), body), Js.Arr([]));
    if data.Arr? then data.items else []
  }

  /** What `fetchOrmawa` leaves behind. */
  datatype LoadOutcome = LoadOutcome(
    fetched: bool,
    items: seq<Js.Value>,
    error: string,
    redirect: Option<string>,
    state: ClientState)

  const NotLoggedIn: string := "Sesi belum login. Silakan login terlebih dahulu."
  const SessionExpired: string := "Sesi login berakhir. Silakan login ulang."
  const LoadFailed: string := "Gagal memuat data ormawa dari server."
  const LoginPath: string := "/auth/login"

  /** `fetchOrmawa`; `response` is what `GET /api/ormawa` answers if it is
      sent. */
  function LoadOrmawa(st: ClientState, response: Response): (r: LoadOutcome)
    // Without a stored token nothing is fetched and the visitor is sent
    // to the login page.
    ensures !r.fetched <==> GetToken(st).None?
    ensures !r.fetched ==> r == LoadOutcome(false, [], NotLoggedIn, Some(LoginPath), st)
    ensures r.fetched && response.Ok? ==>
              r.items == DataList(response.body) && r.error == "" && r.redirect.None?
    ensures r.fetched && response.Failed? ==> r.items == []
    // An expired session (401) is cleared and sent to the login page;
    // every other failure only shows a message.
    ensures r.fetched && response.Failed? && response.status == Some(401) ==>
              && r.error == SessionExpired && r.redirect == Some(LoginPath)
              && GetToken(r.state).None?
              && AgreeExcept(r.state.local, st.local, SessionKeys)
              && AgreeExcept(r.state.session, st.session, SessionKeys)
    ensures r.fetched && response.Failed? && response.status != Some(401) ==>
              r.error == LoadFailed && r.redirect.None?
    // Once fetched, the default header holds the token, and clearing the
    // session on a 401 leaves that header in place.
    ensures r.fetched ==> r.state.defaultAuth == Some(Bearer(GetToken(st).value))
    ensures r.fetched && !(response.Failed? && response.status == Some(401)) ==>
              r.state.local == st.local && r.state.session == st.session
  {
    match GetToken(st)
    case None => LoadOutcome(false, [], NotLoggedIn, Some(LoginPath), st)
    case Some(t) =>
      var st1 := ApplyAuthHeader(st, Some(t));
      match response
      case Ok(body) => LoadOutcome(true, DataList(body), "", None, st1)
      case Failed(status, _, _) =>
        if status == Some(401) then LoadOutcome(true, [], SessionExpired, Some(LoginPath), ClearToken(st1))
        else LoadOutcome(true, [], LoadFailed, None, st1)
  }

  /** The list request is sent with the stored token as its bearer, whether
      the token came from `localStorage` or `sessionStorage`. */
  lemma FetchIsAuthenticated(st: ClientState, config: Api.RequestConfig)
    requires GetToken(st).Some?
    requires "Authorization" !in config.headers
    ensures Api.Outgoing(ApplyAuthHeader(st, GetToken(st)), config).headers["Authorization"]
            == Bearer(GetToken(st).value)
  {
    Api.OutgoingAuthorization(ApplyAuthHeader(st, GetToken(st)), config);
  }
}
