/** The membership registration form
    (`src/app/homepage/registration_form/page.jsx`): client-side checks,
    the payload sent to the backend, the mapping of a failure to a message,
    and prefilling from the signed-in profile. */
module RegistrationForm {
  import opened Wrappers
  import opened Text
  import Js
  import opened Client

  /** The form's fields; `studentStatus` exists only in the interface. */
  datatype Form = Form(
    fullName: string,
    nim: string,
    email: string,
    phone: string,
    organization: string,
    studentStatus: string,
    reason: string)

  /** The body of `POST /api/posts/{postID}/registrations`. */
  datatype Payload = Payload(
    fullName: string,
    nim: string,
    email: string,
    phone: string,
    organization: Option<string>,
    reason: Option<string>)

  datatype Request = Request(path: string, payload: Payload)

  /** What a submission leaves behind: the request sent, if any, and the
      error and success banners. */
  datatype Outcome = Outcome(request: Option<Request>, error: string, success: string)

  const MissingPost: string :=
    "postID tidak ditemukan. Silakan kembali dan pilih postingan dari halaman sebelumnya."
  const MissingRequired: string := "Mohon lengkapi field wajib (Nama, NIM, Email, Nomor Telepon)."
  const ReasonTooShort: string := "Alasan bergabung minimal 20 karakter (atau kosongkan)."
  const Submitted: string := "Pendaftaran berhasil dikirim. Silakan tunggu proses verifikasi."
  const FailurePrefix: string := "Gagal mengirim pendaftaran: "

  /** A stated reason must have at least this many UTF-16 code units. */
  const MinReasonLength: nat := 20

  predicate RequiredFilled(f: Form) {
    Trim(f.fullName) != "" && Trim(f.nim) != "" && Trim(f.email) != "" && Trim(f.phone) != ""
  }

  /** A reason is either left empty or at least 20 units long once trimmed. */
  predicate ReasonAcceptable(reason: string) {
    var n := Utf16Length(Trim(reason));
    n == 0 || n >= MinReasonLength
  }

  /** `organization.trim() ? organization.trim() : null`. */
  function Optional(s: string): (r: Option<string>)
    ensures r.None? <==> Trim(s) == ""
    ensures r.Some? ==> r.value == Trim(s)
  {
    if Trim(s) != "" then Some(Trim(s)) else None
  }

  /** The payload: every field trimmed, the two optional ones `null` when
      empty, the student status never included. */
  function ToPayload(f: Form): (p: Payload)
    ensures p.fullName == Trim(f.fullName) && p.nim == Trim(f.nim)
    ensures p.email == Trim(f.email) && p.phone == Trim(f.phone)
    ensures p.organization == Optional(f.organization) && p.reason == Optional(f.reason)
  {
    Payload(Trim(f.fullName), Trim(f.nim), Trim(f.email), Trim(f.phone),
            Optional(f.organization), Optional(f.reason))
  }

  /** `err.response.data.message || err.response.data.error || err.message
      || "Terjadi kesalahan."`. */
  function FailureDetail(body: Js.Value, message: Js.Value): Js.Value {
    Js.FirstTruthy([Js.Get(body, "message"), Js.Get(body, "error"), message],
                   Js.Str("Terjadi kesalahan."))
  }

  /** The banner for a rejected submission: a fixed text for 401, 404, 409
      and 422, otherwise the failure prefix and the most specific detail. */
  function FailureMessage(status: Option<int>, body: Js.Value, message: Js.Value): (r: string)
    ensures status == Some(401) ==> r == "Anda belum login / sesi habis. Silakan login terlebih dahulu."
    ensures status == Some(404) ==> r == "Event/post tidak ditemukan atau belum dipublish."
    ensures status == Some(409) ==> r == "Anda sudah terdaftar pada event ini."
    ensures status == Some(422) ==> r == "Validasi gagal. Pastikan data yang diisi sudah benar."
    ensures status.None? || status.value !in {401, 404, 409, 422} ==>
              r == FailurePrefix + Js.ToStr(FailureDetail(body, message))
    ensures r != ""
  {
    if status == Some(401) then "Anda belum login / sesi habis. Silakan login terlebih dahulu."
    else if status == Some(404) then "Event/post tidak ditemukan atau belum dipublish."
    else if status == Some(409) then "Anda sudah terdaftar pada event ini."
    else if status == Some(422) then "Validasi gagal. Pastikan data yang diisi sudah benar."
    else FailurePrefix + Js.ToStr(FailureDetail(body, message))
  }

  /** A server message, when there is one, is what an unclassified failure
      shows; without any detail the generic text is shown. */
  lemma FailureMessageDetail(status: Option<int>, body: Js.Value, message: Js.Value)
    requires status.None? || status.value !in {401, 404, 409, 422}
    ensures Js.Get(body, "message").Str? && Js.Get(body, "message").s != "" ==>
              FailureMessage(status, body, message) == FailurePrefix + Js.Get(body, "message").s
    ensures !Js.Truthy(Js.Get(body, "message")) && !Js.Truthy(Js.Get(body, "error"))
              && !Js.Truthy(message) ==>
              FailureMessage(status, body, message) == FailurePrefix + "Terjadi kesalahan."
  {
    var vs := [Js.Get(body, "message"), Js.Get(body, "error"), message];
    assert vs[0] == Js.Get(body, "message") && vs[1] == Js.Get(body, "error") && vs[2] == message;
  }

  /** `handleSubmit`. `postId` is the `postID` query parameter and
      `response` what the backend answers if the request is sent. No request
      leaves without a post id, without the four required fields, or with
      a reason of 1 to 19 units. */
  function Submit(postId: Option<string>, f: Form, response: Response): (r: Outcome)
    ensures r.request.Some? <==> postId.Some? && postId.value != "" && RequiredFilled(f)
                                 && ReasonAcceptable(f.reason)
    ensures r.request.Some? ==>
              r.request.value == Request("/api/posts/" + postId.value + "/registrations", ToPayload(f))
    ensures (postId.None? || postId.value == "") ==> r.error == MissingPost && r.success == ""
    ensures postId.Some? && postId.value != "" && !RequiredFilled(f) ==>
              r.error == MissingRequired && r.success == ""
    ensures postId.Some? && postId.value != "" && RequiredFilled(f) && !ReasonAcceptable(f.reason) ==>
              r.error == ReasonTooShort && r.success == ""
    ensures r.request.None? ==> r.success == ""
    ensures r.request.Some? && response.Ok? ==> r.success == Submitted && r.error == ""
    ensures r.request.Some? && response.Failed? ==>
              r.error == FailureMessage(response.status, response.body, response.message)
              && r.success == ""
    ensures r.error != "" <==> r.success == ""
  {
    if postId.None? || postId.value == "" then Outcome(None, MissingPost, "")
    else if !RequiredFilled(f) then Outcome(None, MissingRequired, "")
    else if !ReasonAcceptable(f.reason) then Outcome(None, ReasonTooShort, "")
    else
      var req := Some(Request("/api/posts/" + postId.value + "/registrations", ToPayload(f)));
      match response
      case Ok(_) => Outcome(req, "", Submitted)
      case Failed(status, body, message) => Outcome(req, FailureMessage(status, body, message), "")
  }

  /** The student status never influences what is validated or sent. */
  lemma SubmitIgnoresStudentStatus(postId: Option<string>, f: Form, status: string, response: Response)
    ensures Submit(postId, f.(studentStatus := status), response) == Submit(postId, f, response)
  {
  }

  /** The reason rule exactly: blank is fine, 1 to 19 units is refused,
      20 or more is fine. */
  lemma ReasonBoundary(reason: string)
    ensures ReasonAcceptable(reason) <==> !(0 < Utf16Length(Trim(reason)) < MinReasonLength)
  {
  }

  /** Every text field sent is already trimmed. */
  lemma PayloadTrimmed(f: Form)
    ensures var p := ToPayload(f);
            Trim(p.fullName) == p.fullName && Trim(p.nim) == p.nim
            && Trim(p.email) == p.email && Trim(p.phone) == p.phone
            && (p.organization.Some? ==> Trim(p.organization.value) == p.organization.value)
            && (p.reason.Some? ==> Trim(p.reason.value) == p.reason.value)
  {
    TrimIdempotent(f.fullName);
    TrimIdempotent(f.nim);
    TrimIdempotent(f.email);
    TrimIdempotent(f.phone);
    TrimIdempotent(f.organization);
    TrimIdempotent(f.reason);
  }

  /** The profile record of `GET /api/me`: `res.data.data || res.data`. */
  function Profile(body: Js.Value): Js.Value {
    Js.Or(Js.Get(body, "data"), body)
  }

  /** Prefilling as the page does it. The effect runs once, at mount, so
      the `!full_name` and `!email` it tests read the fields' values at mount
      time, which are always empty: whatever the user typed before the
      profile arrived is overwritten. */
  function PrefillAsWritten(current: Form, response: Response): (r: Form)
    ensures response.Failed? ==> r == current
    ensures r.nim == current.nim && r.phone == current.phone && r.reason == current.reason
    ensures r.organization == current.organization && r.studentStatus == current.studentStatus
    // A truthy profile value replaces the field whatever it holds; a falsy
    // one leaves the field as it is.
    ensures response.Ok? && Js.Truthy(Js.Get(Profile(response.body), "name")) ==>
              r.fullName == Js.ToStr(Js.Get(Profile(response.body), "name"))
    ensures response.Ok? && Js.Truthy(Js.Get(Profile(response.body), "email")) ==>
              r.email == Js.ToStr(Js.Get(Profile(response.body), "email"))
    ensures !(response.Ok? && Js.Truthy(Js.Get(Profile(response.body), "name"))) ==>
              r.fullName == current.fullName
    ensures !(response.Ok? && Js.Truthy(Js.Get(Profile(response.body), "email"))) ==>
              r.email == current.email
  {
    match response
    case Failed(_, _, _) => current
    case Ok(body) =>
      var u := Profile(body);
      var mounted := Form("", "", "", "", "", "", "");
      var name := Js.Get(u, "name");
      var email := Js.Get(u, "email");
      var f1 := if Js.Truthy(name) && mounted.fullName == "" then current.(fullName := Js.ToStr(name)) else current;
      if Js.Truthy(email) && mounted.email == "" then f1.(email := Js.ToStr(email)) else f1
  }

  /** A name typed before the profile arrives is replaced by the profile's. */
  lemma PrefillOverwritesTypedName()
    ensures var typed := Form("Budi", "", "", "", "", "", "");
            var body := Js.Obj([("data", Js.Obj([("name", Js.Str("Andi"))]))]);
            PrefillAsWritten(typed, Ok(body)).fullName == "Andi"
  {
    var body := Js.Obj([("data", Js.Obj([("name", Js.Str("Andi"))]))]);
    assert Js.Get(body, "data") == Js.Obj([("name", Js.Str("Andi"))]);
  }

  /** Prefilling as intended: a field is filled from the profile only while
      it is still empty and the profile has a value for it. */
  function Prefill(current: Form, response: Response): (r: Form)
    ensures response.Failed? ==> r == current
    ensures current.fullName != "" ==> r.fullName == current.fullName
    ensures current.email != "" ==> r.email == current.email
    ensures response.Ok? && current.fullName == "" && Js.Truthy(Js.Get(Profile(response.body), "name")) ==>
              r.fullName == Js.ToStr(Js.Get(Profile(response.body), "name"))
    ensures response.Ok? && current.email == "" && Js.Truthy(Js.Get(Profile(response.body), "email")) ==>
              r.email == Js.ToStr(Js.Get(Profile(response.body), "email"))
    ensures !(response.Ok? && Js.Truthy(Js.Get(Profile(response.body), "name"))) ==>
              r.fullName == current.fullName
    ensures !(response.Ok? && Js.Truthy(Js.Get(Profile(response.body), "email"))) ==>
              r.email == current.email
    ensures r.nim == current.nim && r.phone == current.phone && r.reason == current.reason
    ensures r.organization == current.organization && r.studentStatus == current.studentStatus
  {
    match response
    case Failed(_, _, _) => current
    case Ok(body) =>
      var u := Profile(body);
      var name := Js.Get(u, "name");
      var email := Js.Get(u, "email");
      var f1 := if Js.Truthy(name) && current.fullName == "" then current.(fullName := Js.ToStr(name)) else current;
      if Js.Truthy(email) && current.email == "" then f1.(email := Js.ToStr(email)) else f1
  }

  /** On a form still empty at the time the profile arrives, the page's
      prefill and the intended one agree. */
  lemma PrefillAgreesOnEmptyForm(current: Form, response: Response)
    requires current.fullName == "" && current.email == ""
    ensures PrefillAsWritten(current, response) == Prefill(current, response)
  {
  }
}
