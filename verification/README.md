# siorma_fe — a Dafny model of the page logic

siorma_fe is the Next.js front end of SIORMA, a campus platform where
students browse student organisations ("ormawa") and their recruitment
posts, sign up, log in and register for posts. Administrators get a
dashboard. Nearly all of it is JSX and network calls. This project models
the small rules embedded in the pages and proves properties of them:

- storage-path to URL resolution, in the full homepage variant and the
  naive variant of the older `siorma_fe-main` copy;
- the case-insensitive search and category filters over organisations and
  posts, including the homepage's "published only, at most four" rule;
- the mapping of a post to its card: status wording, deadline, vacancy
  count, image and registration link;
- the registration form's checks, payload and failure messages;
- login: the input check, the token and user extraction, the "remember me"
  storage placement and the role-based redirect;
- both sign-up pages, including the first-validation-message extraction;
- the axios request interceptor's header transform and base URL;
- the pagination component's page list and navigation guard;
- the dashboard sidebar's section toggles, active-route highlighting and
  logout;
- the organisation card's detail route, tag colours and avatar.

Browser storage is a pair of `map<string, string>` together with the api
client's default `Authorization` header (`Client.ClientState`). A network
answer is an input, `Client.Response`: either `Ok(body)` or
`Failed(status, body, message)`. Router navigation is a returned path.
Response bodies and loosely typed record fields are `Js.Value`, a JSON-like
value. `Js` also models the coercions the pages rely on: truthiness, `||`,
`??`, optional chaining, `String(v)` and `Number(v)`. `JSON.stringify` is a
function parameter. `encodeURIComponent` is written out as UTF-8
percent-encoding in `Uri.Encode`.

Modules follow the source files:

| module | file |
|---|---|
| `Wrappers`, `Text`, `Seqs`, `Js`, `Uri`, `Query` | shared value model (JS strings, arrays, values, URI encoding, query strings) |
| `Client`, `Api` | storage and auth-header helpers of the pages; `siorma_fe-main/src/lib/api.js` |
| `Entities`, `StorageUrls`, `Home` | `src/app/homepage/page.jsx` |
| `PostList` | `src/app/list-postingan/page.jsx` |
| `RegistrationForm` | `src/app/homepage/registration_form/page.jsx` |
| `Login` | `src/app/auth/login/page.jsx` |
| `MainRegister`, `Register` | `siorma_fe-main/src/app/auth/register/page.jsx`, `src/app/auth/register/page.jsx` |
| `OrmawaList` | `siorma_fe-main/src/app/list-ormawa/page.jsx` |
| `Pagination` | `src/components/ui/pagination.jsx` |
| `Sidebar` | `src/components/_shared/sidebar/DashboardSidebar.jsx` |
| `CardOrmawa` | `src/components/ui/CardOrmawa.jsx` |

## Model

| member | source | states |
|---|---|---|
| Client.GetToken | src/app/homepage/page.jsx:29-32 | The token is the non-empty `localStorage` entry if there is one, otherwise the non-empty `sessionStorage` entry. |
| Client.ApplyAuthHeader | src/app/homepage/page.jsx:34-40 | A token installs `Bearer <token>` as the default header and no token deletes it. Storage is untouched. |
| Client.ClearToken | src/app/homepage/page.jsx:42-48 | `token` and `user` leave both stores and no token can be read afterwards. Every other entry and the default header are kept. |
| Client.ClearTokenIdempotent | src/app/homepage/page.jsx:42-48 | Clearing twice is the same as clearing once. |
| Client.BaseUrl | siorma_fe-main/src/app/list-ormawa/page.jsx:11 | The configured URL when it is set and non-empty, otherwise `http://127.0.0.1:8000`. The result is never empty. |
| Api.ApiBaseUrl | siorma_fe-main/src/lib/api.js:3-6 | The client's base URL is the configured value if set, else `http://127.0.0.1:8000`. |
| Api.Intercept | siorma_fe-main/src/lib/api.js:8-25 | A `localStorage` token (never `sessionStorage`) sets `Authorization: Bearer <token>`, and without one `Authorization` is unchanged. A FormData body loses `Content-Type` and keeps `Accept`. Any other body gets both set to `application/json`. Verb, URL, base URL, body and all other headers are unchanged. |
| Api.OutgoingAuthorization | siorma_fe-main/src/lib/api.js:9-14 | A request that sets no `Authorization` carries the `localStorage` token's bearer if there is one, otherwise the instance default header, otherwise none. |
| StorageUrls.StripPublic | src/app/homepage/page.jsx:146 | At most one leading `public/` is removed. |
| StorageUrls.StorageUrl | src/app/homepage/page.jsx:137-148 | A falsy path gives null. An absolute URL is returned as is. A rooted path is appended to the base. A relative path loses one leading `public/` and goes under `<base>/storage/`. A present path never gives an empty URL. |
| StorageUrls.SpellingsAgree | src/app/homepage/page.jsx:143-147 | `x`, `public/x` and `/storage/x` resolve to the same URL, so the `/storage/` branch and the generic `/` branch agree. |
| StorageUrls.StripsOnePublic | src/app/homepage/page.jsx:146-147 | `public/public/x` keeps its second `public/`. |
| StorageUrls.StorageUrlIdempotent | src/app/homepage/page.jsx:137-148 | With an absolute base, resolving a resolved URL changes nothing. |
| Entities.FindOrmawaById | src/app/homepage/page.jsx:163-166 | The result is the first organisation whose `Number(id)` equals `Number(ormawaID)` and is not NaN. It is none exactly when no organisation matches. |
| Entities.FindByNumberOrString | src/app/list-postingan/page.jsx:63-66 | A numeric id and its decimal string find the same organisation. |
| Entities.FindMissingId | src/app/homepage/page.jsx:163-166 | A missing `ormawaID` (`undefined`, so NaN) finds nothing. |
| Js.NumberOfStringRoundTrip | src/app/homepage/page.jsx:164-165 | `Number(String(n))` is `n` for every integer id. |
| Home.FilteredOrmawa | src/app/homepage/page.jsx:168-184 | The result keeps the list's order. Every kept organisation contains the trimmed, lower-cased term in its name, type or category. Its category equals the chosen one case-insensitively unless "Semua" is chosen. Every organisation passing both tests is kept, and the result is as long as the number of organisations that pass, so it holds exactly those. A blank term with "Semua" keeps the whole list. |
| Home.FilteredOrmawaIgnoresCase | src/app/homepage/page.jsx:169-176 | Terms that differ only in letter case give the same result. |
| Home.SearchKeyIgnoresCase | src/app/homepage/page.jsx:169 | Terms equal up to case give the same search key. |
| Home.FilteredPosts | src/app/homepage/page.jsx:186-208 | The result keeps the posts' order and holds at most 4 posts. It holds exactly min(4, number of matching posts), and it is the first that many of all matching posts in list order. Each kept post has status `published` (case-insensitively), the term in its title or description, and its organisation's category equal to the chosen one unless "Semua" is chosen. |
| Home.ResolveAll | src/app/homepage/page.jsx:153-157 | Each fallback field is resolved through `storageUrl`, position by position. |
| Home.FirstResolved | src/app/homepage/page.jsx:151-158 | The first non-null resolved URL is the resolution of the first present path. |
| Home.PostImageUrl | src/app/homepage/page.jsx:150-161 | The image is never empty. `poster_url` wins, then the first present image path resolved, else `/Logo.png`. |
| Home.OrmawaImage | src/app/homepage/page.jsx:373 | An organisation's photo is its resolved `photo_path`, else `/Logo.png`. |
| Home.HomeCard | src/app/homepage/page.jsx:210-224 | The card has three tags. Type and category come from the post's organisation, defaulting to `Post` and `Umum`. The status is upper-cased and defaults to `DRAFT`. A missing title becomes "Judul tidak tersedia". Deadline and vacancies are always `-`. |
| Home.RegistrationHref | src/app/homepage/page.jsx:340 | The link is under `/homepage/registration_form?`. When neither id's string form holds `&`, the raw (undecoded) `postID` and `ormawaID` parameters are exactly those string forms; a missing `postID` gives the text "undefined". |
| PostList.FilteredPosts | src/app/list-postingan/page.jsx:155-167 | A blank term returns the posts unchanged. Otherwise the result keeps order, every post in it contains the term in its title, description or organisation name, every such post is in it, and its length is the number of such posts. |
| PostList.StatusTag | src/app/list-postingan/page.jsx:75-81 | `published` gives `BUKA`, `closed` gives `DITUTUP` (case-insensitively), anything else is upper-cased, and a missing status gives `DRAFT`. The tag never holds a lower-case letter. |
| PostList.StatusTagMatchesHome | src/app/list-postingan/page.jsx:75-81 | Except for published and closed posts, the list's status tag is the homepage's. |
| PostList.Deadline | src/app/list-postingan/page.jsx:83-84 | The first truthy of `deadline`, `deadline_date`, `end_date`, else `-`. |
| PostList.Vacancies | src/app/list-postingan/page.jsx:86-89 | The text is the first truthy of `quota`, `slot` and `lowongan` followed by " Lowongan", and `-` exactly when none of them is truthy. |
| PostList.ListCard | src/app/list-postingan/page.jsx:69-98 | The list card has the homepage card's type, category, title and subtitle, with its own status tag, deadline and vacancies. |
| PostList.CardImage | src/app/list-postingan/page.jsx:257-260 | `poster_url`, else the resolved `posterPath`, else `/Logo.png`, and never empty. |
| PostList.CardImageMatchesHome | src/app/list-postingan/page.jsx:257-260 | With only `poster_url` and `posterPath` set, the list and the homepage show the same image. |
| PostList.RegistrationHref | src/app/list-postingan/page.jsx:251-254 | The raw `postID` and `ormawaID` parameters of the link are the URL-encodings of `postID ?? id` and `ormawaID`, and neither value can spill into the other parameter. |
| PostList.RegistrationHrefDecodes | src/app/list-postingan/page.jsx:251-254 | Decoding each parameter of the link gives back the string form of the id, whatever characters it holds. |
| PostList.RegistrationHrefNumeric | src/app/list-postingan/page.jsx:251-254 | Numeric ids appear in plain decimal, and `id` is used only when `postID` is null or undefined. |
| PostList.HomeLinkMatches | src/app/list-postingan/page.jsx:251-254 | For numeric ids the homepage's unencoded link and the list's encoded one are the same string. |
| Uri.Encode | src/app/list-postingan/page.jsx:252-254 | The encoding is at least as long as its input and uses only unreserved characters and `%`-escapes; an unreserved character stays itself and any other becomes the `%XX` escapes of its UTF-8 bytes. Its inverse is `Uri.Decode` (see `Uri.DecodeEncode`). |
| Uri.EncodeAppend | src/app/list-postingan/page.jsx:252-254 | Encoding a concatenation is the concatenation of the encodings. |
| Uri.DecodeEncode | src/app/homepage/registration_form/page.jsx:13 | Decoding the `%XX` escapes and then the UTF-8 bytes of an encoded string gives back the original string, for every string. |
| Uri.EncodeHasNoDelimiters | src/components/ui/CardOrmawa.jsx:32 | An encoded value never holds `/`, `?`, `&`, `#`, `=` or a space. |
| Uri.EncodeUnreserved | src/app/list-postingan/page.jsx:252-254 | A string of unreserved characters, such as a decimal id, encodes to itself. |
| Query.TwoParams | src/app/homepage/registration_form/page.jsx:13 | In `path?n1=v1&n2=v2`, where no value holds `&`, looking up each name gives back its value. |
| RegistrationForm.Submit | src/app/homepage/registration_form/page.jsx:46-106 | A request is sent exactly when there is a post id, the four required fields are non-blank and the trimmed reason is empty or at least 20 units long. It goes to `/api/posts/<postID>/registrations` with the normalised payload. The checks run in order: a missing post id, then a blank required field, then a 1-19 unit reason, each with its own error and no success message. A sent request succeeds with the success message or fails with the classified failure text. Without a request there is never a success message, and success and error messages exclude each other. |
| RegistrationForm.ToPayload | src/app/homepage/registration_form/page.jsx:70-77 | Every field is trimmed, and organization and reason become null when blank. |
| RegistrationForm.Optional | src/app/homepage/registration_form/page.jsx:75-76 | A blank field becomes null and any other field is sent trimmed. |
| RegistrationForm.PayloadTrimmed | src/app/homepage/registration_form/page.jsx:70-77 | Re-trimming the payload changes nothing. |
| RegistrationForm.SubmitIgnoresStudentStatus | src/app/homepage/registration_form/page.jsx:25 | The interface-only student status never changes the request or the messages. |
| RegistrationForm.ReasonBoundary | src/app/homepage/registration_form/page.jsx:62-65 | A reason is accepted exactly when its trimmed length is not between 1 and 19 UTF-16 units. |
| RegistrationForm.FailureMessage | src/app/homepage/registration_form/page.jsx:85-102 | 401, 404, 409 and 422 each have a fixed message. Any other status, or none, gives the prefix followed by `message`, `error`, `err.message` or the default, in that order. The message is never empty. |
| RegistrationForm.FailureMessageDetail | src/app/homepage/registration_form/page.jsx:86-90 | For any other status, a non-empty `message` from the server follows the prefix. With no truthy `message`, `error` or `err.message`, the detail is "Terjadi kesalahan.". |
| RegistrationForm.PrefillAsWritten | src/app/homepage/registration_form/page.jsx:29-44 | The effect tests the fields' values captured at mount (always empty), so a truthy profile `name` or `email` replaces the field whatever it holds, and a falsy one leaves it as it is. Only name and email can change, and a failed profile request changes nothing. |
| RegistrationForm.PrefillOverwritesTypedName | src/app/homepage/registration_form/page.jsx:36 | A name typed before the profile arrives is replaced by the profile's. |
| RegistrationForm.Prefill | src/app/homepage/registration_form/page.jsx:36-37 | A name or email is filled from the profile only while the field is empty and the profile has a value. A non-empty field is never overwritten. |
| RegistrationForm.PrefillAgreesOnEmptyForm | src/app/homepage/registration_form/page.jsx:29-44 | On a form still empty when the profile arrives, the page's prefill and the intended one agree. |
| Login.HandleLogin | src/app/auth/login/page.jsx:19-95 | A blank (trimmed) identifier or password sends nothing. The email is sent trimmed and the password as typed. A session is set up exactly when the backend returns a token. The token then sits in exactly one store (local with "remember me", session otherwise) and becomes the default bearer header. The user is written to the same store, and only when present. Nothing else in storage changes. Without a token, or on failure, the session is untouched. |
| Login.Landing | src/app/auth/login/page.jsx:76-80 | `/dashboard` exactly for a role equal to `admin` case-insensitively, `/homepage` for every other role, a missing one included. |
| Login.FailureMessage | src/app/auth/login/page.jsx:82-91 | 401 and 422 have fixed messages. Anything else shows `message`, `error`, `err.message` or "Login gagal.", in that order. |
| Login.TokenPrecedence | src/app/auth/login/page.jsx:38-43 | For every body the token is the first truthy of `data.token`, `token`, `access_token` and `data.access_token`, and `null` when none is truthy. |
| Login.RequestsAfterLoginCarryToken | src/app/auth/login/page.jsx:53-62 | With or without "remember me", every later request that sets no `Authorization` carries the new token's bearer header. |
| MainRegister.FirstEntry | siorma_fe-main/src/app/auth/register/page.jsx:56-57 | `errors[Object.keys(errors)[0]]` is the first property of an object or element 0 of an array, and is absent for anything empty. |
| MainRegister.EntryMessage | siorma_fe-main/src/app/auth/register/page.jsx:57-59 | An array entry gives its element 0 (`undefined` when empty); any other entry gives its string form. |
| MainRegister.ErrorMessageAsWritten | siorma_fe-main/src/app/auth/register/page.jsx:54-66 | An object or array of errors with a first entry gives that entry's message (or the default when it is falsy). One with no entries gives the message "undefined". Without an errors object or array the message is `message` or the default. |
| MainRegister.EmptyDataHidesMessage | siorma_fe-main/src/app/auth/register/page.jsx:54-60 | A body with a message and an empty `data` list, or an empty `errors` object, shows "undefined" instead of the message. |
| MainRegister.ErrorMessage | siorma_fe-main/src/app/auth/register/page.jsx:54-66 | With no validation entry the message is `message` or the default. With an entry it is what the page shows. |
| MainRegister.MessageShownWithoutEntries | siorma_fe-main/src/app/auth/register/page.jsx:61-66 | With an empty or null `data`, the server's message is shown. |
| MainRegister.FirstValidationMessage | siorma_fe-main/src/app/auth/register/page.jsx:54-60 | For a Laravel validation body, the first message of the first field is shown. |
| MainRegister.HandleSubmit | siorma_fe-main/src/app/auth/register/page.jsx:34-66 | Every successful response leads to `/homepage`, with or without a token. A token found in `data.token`, `token` or `access_token` is stored locally together with the user (or `{}`) and installed as the default header. The session store is never touched. A failure leaves the session as it was and shows the catch block's message as written, "undefined" included. |
| MainRegister.HandleSubmitCorrected | siorma_fe-main/src/app/auth/register/page.jsx:54-66 | The same storage and navigation as the page, and a failure whose error collection has no entry shows the server's `message` or the default. |
| Register.HandleSubmit | src/app/auth/register/page.jsx:34-58 | Only `data.token` is read. When it is truthy, the token and the user (the text "undefined" when absent) are stored locally. The default header and the session store are never touched. Every successful response leads to `/homepage`, and a failure shows `message` or the default. |
| Register.VersionsAgree | src/app/auth/register/page.jsx:34-44 | When the token and user sit under `data`, both sign-up pages store the same entries and navigate alike. When the older page's `errors \|\| data` is not an object or array, both show the same error; with no validation entry the current page shows what the corrected older handler shows. |
| Register.VersionsDisagreeOnEmptyData | src/app/auth/register/page.jsx:45-55 | On a failure whose body has a message and an empty `data` list, the current page shows the message and the older one "undefined". |
| OrmawaList.NaiveStorageUrl | siorma_fe-main/src/app/list-ormawa/page.jsx:49-52 | A falsy path gives null, and every other path is put under `<base>/storage/` unchanged. |
| OrmawaList.NaiveStorageUrlMisresolves | siorma_fe-main/src/app/list-ormawa/page.jsx:49-52 | An absolute URL and a `public/` path both resolve differently from the homepage's resolver. |
| OrmawaList.NaiveAgreesOnPlainPaths | siorma_fe-main/src/app/list-ormawa/page.jsx:49-52 | For a plain relative path the two resolvers agree. |
| OrmawaList.CardImage | siorma_fe-main/src/app/list-ormawa/page.jsx:200 | The corrected card image: the `photo_path` resolved as the homepage's `storageUrl` resolves it, else `/placeholder.png`, and never empty. |
| OrmawaList.CardImageAsWritten | siorma_fe-main/src/app/list-ormawa/page.jsx:200 | As the page computes it: a present `photo_path` is put under `<base>/storage/` whatever its form, else `/placeholder.png`; for an absolute photo URL this differs from the corrected image. |
| OrmawaList.FilteredOrmawa | siorma_fe-main/src/app/list-ormawa/page.jsx:102-112 | A blank term returns the list unchanged. Otherwise the result keeps order, every organisation in it contains the term in its lower-cased name, type or category, every such organisation is in it, and its length is the number of such organisations. |
| OrmawaList.SearchMatchesHome | siorma_fe-main/src/app/list-ormawa/page.jsx:102-112 | This search equals the homepage's with "Semua" selected. |
| OrmawaList.DataList | siorma_fe-main/src/app/list-ormawa/page.jsx:73-76 | An array body is the list, and an object's `data` array is the list. Anything else gives the empty list. |
| OrmawaList.LoadOrmawa | siorma_fe-main/src/app/list-ormawa/page.jsx:57-97 | Without a stored token nothing is fetched and the visitor goes to the login page. A 401 clears `token` and `user` from both stores (keeping the rest) and goes to the login page. Any other failure only shows a message. Once fetched, the default header holds the token's bearer. |
| OrmawaList.FetchIsAuthenticated | siorma_fe-main/src/app/list-ormawa/page.jsx:63-72 | The list request carries the stored token's bearer, whichever store it came from. |
| Pagination.PageList | src/components/ui/pagination.jsx:8-11 | The page list is exactly 1, 2, …, total. |
| Pagination.GoToPage | src/components/ui/pagination.jsx:13-18 | `onPageChange` is called, once and with that page, exactly when there is a handler and the page lies in 1..total and differs from the current one. |
| Pagination.Render | src/components/ui/pagination.jsx:4-65 | Nothing is drawn for a missing total or one of at most 1. Otherwise there are total page buttons 1..total, only the current page is highlighted, Prev is disabled exactly on page 1 and Next exactly on the last page. |
| Pagination.ButtonsAgreeWithGuard | src/components/ui/pagination.jsx:13-58 | For a current page in range, a disabled Prev or Next is exactly one whose click would be ignored. |
| Pagination.OneHighlighted | src/components/ui/pagination.jsx:45-47 | Exactly one page button is highlighted when the current page is in range, and none otherwise. |
| Pagination.PageButtonRequests | src/components/ui/pagination.jsx:42 | A page button requests its page unless it is the current one. |
| Sidebar.ToggleSection | src/components/_shared/sidebar/DashboardSidebar.jsx:37-42 | Only the named section flips (a never-toggled one opens). Every other flag is unchanged. |
| Sidebar.ToggleTwice | src/components/_shared/sidebar/DashboardSidebar.jsx:37-42 | Toggling a section twice restores every section's state. |
| Sidebar.SetOpen | src/components/_shared/sidebar/DashboardSidebar.jsx:44-53 | Collapsing closes every section. Expanding keeps the sections unchanged. |
| Sidebar.ReopenKeepsSectionsClosed | src/components/_shared/sidebar/DashboardSidebar.jsx:50-53 | Collapsing then expanding the sidebar leaves Management closed. |
| Sidebar.ActiveEntriesConsistent | src/components/_shared/sidebar/DashboardSidebar.jsx:105-284 | An exactly matched entry is highlighted, and a highlighted entry highlights Management. Dashboard and Management are never active together. |
| Sidebar.Logout | src/components/_shared/sidebar/DashboardSidebar.jsx:58-100 | The logout call uses the stored token's bearer if there is one. Afterwards, whatever the backend answered, `token` and `user` are gone from both stores, every other entry is kept, the default header is deleted, and the page is `/auth/login`. |
| Sidebar.LogoutIdempotent | src/components/_shared/sidebar/DashboardSidebar.jsx:74-81 | Logging out twice leaves the same session as once. |
| CardOrmawa.HandleDetail | src/components/ui/CardOrmawa.jsx:21-33 | A given `onClick` is used instead of routing. A null, undefined or `""` id routes to `/ormawa-detail`. Any other id (`0` included) routes to `/ormawa-detail/` plus the encoded string form of the id. |
| CardOrmawa.DetailIsOneSegment | src/components/ui/CardOrmawa.jsx:32 | The detail route always stays one path segment below `/ormawa-detail`. |
| CardOrmawa.NumericDetail | src/components/ui/CardOrmawa.jsx:32 | A numeric id, zero included, routes to its plain decimal form. |
| CardOrmawa.TagStyle | src/components/ui/CardOrmawa.jsx:14-19 | A listed tag gets its own style and every other tag the grey default, and the grey default is shown exactly for unlisted tags. Lookup is case-sensitive. |
| CardOrmawa.AvatarOf | src/components/ui/CardOrmawa.jsx:39-48 | A truthy image URL gives the photo, at the URL's string form. Otherwise the avatar is the title's first character, or `?` for an empty title. |
| Seqs.Filter | src/app/homepage/page.jsx:171 | `Array.prototype.filter`: an order-preserving subsequence that holds exactly the elements passing the test, counted. |
| Text.Trim | src/app/homepage/page.jsx:169 | `String.prototype.trim`: a slice of the input with only whitespace removed from both ends and none left at either end. |
| Text.TrimLowerCommute | src/app/homepage/page.jsx:169 | Trimming and lower-casing can be done in either order. |

## Left out

- Network I/O, `Promise.all`, loading flags, React state and effects, JSX,
  CSS classes and router side effects. A response is an input and navigation
  is a returned path.
- The homepage's own data loading (`fetchHomeData`) and profile fetch. These
  have the same token guard, 401 handling and list extraction as
  `OrmawaList.LoadOrmawa`, fetching two lists at once.
- `CardPendaftaran`, `DashboardHeader`, the forgot-password page, layouts and
  the API test page, which are presentational or a bare fetch.
- The sign-up request payloads are the form fields passed through unchanged,
  so the model keeps only what happens after the answer.
- Text.Lower: `toLowerCase`/`toUpperCase` map only ASCII letters. Unicode
  case mapping is not modelled.
- Js.ToNumber: `Number(v)` is modelled for integers, `null`, booleans and
  decimal strings (with JS whitespace trimming). Fractions, exponents, hex,
  `Infinity`, and arrays or objects that coerce to numbers read as NaN.
- Js.Value: numbers are integers. Every number the pages inspect is an id, a
  status or a count.
- Entities.Post: text fields are strings or absent. A non-string truthy
  title or status, which would make `.toLowerCase()` throw, is not modelled.
- Query.Param: the value read is the raw text between `=` and the next
  `&`. `searchParams.get` also decodes `+` and `%XX` escapes and ignores a
  `#` fragment; `Uri.Decode` covers the `%XX` part for values the lists
  encode, and the homepage's unencoded link is not decoded.
- Uri.Decode: accepts exactly unreserved characters and well-formed `%XX`
  escapes of UTF-8 bytes. Overlong UTF-8 forms are accepted, and
  `decodeURIComponent`'s pass-through of other characters is not modelled.
- OrmawaList.FilteredOrmawa: the organisations are decoded records. Raw
  list entries that are not objects are not modelled.
- RegistrationForm.PrefillAsWritten: a truthy profile `name` or `email` is
  taken to be a string and stored as its string form. The page stores the
  raw value, so a non-string one (a number, say) would make the next
  submit throw at `.trim()` before any request; that error path is not
  modelled.
- RegistrationForm.Prefill: the same string reading of profile values.
- MainRegister.ErrorMessageAsWritten: a non-string first entry (or
  `message`) is shown through its string form. React renders `true` as an
  empty banner and throws on an object; that path is not modelled.
- MainRegister.ErrorMessage: the same string-form reading of a non-string
  entry or `message`.
- MainRegister.HandleSubmit: the failure banner takes the same string-form
  reading; an empty banner for `true` and React's throw on an object are
  not modelled.
- MainRegister.HandleSubmitCorrected: the same string-form reading of the
  banner.
- Register.HandleSubmit: a non-string `message` is shown through its
  string form, where React renders `true` as nothing and throws on an
  object; that path is not modelled.
- Uri.Encode: model strings are sequences of Unicode scalar values, so a
  JS string holding a lone surrogate cannot be expressed, and the
  `URIError` `encodeURIComponent` throws on one is not modelled.
- Login.FailureMessage: a non-string `message` or `error` is shown through
  its string form. React would render a number and throw on an object.
- RegistrationForm.FailureMessage: the same string-form reading of a
  non-string detail.
- Api.Intercept: header names are compared exactly. axios's
  case-insensitive header matching is not modelled.
- MainRegister.FirstEntry: `Object.keys` is taken in insertion order. The
  JS rule that integer-like keys come first is not modelled.
- CardOrmawa.AvatarOf: `charAt(0)` returns one UTF-16 unit, which for a
  character outside the Basic Multilingual Plane is half of it. The model
  returns the whole character.
- CardOrmawa.TagStyle: names inherited from `Object.prototype` (such as
  `toString`) are not looked up.
- Sidebar.Logout: the `catch` branch is reached only when storage itself
  throws. It performs the same clearing and redirect without toggling the
  mobile sidebar, and it is not modelled separately.
- Pagination.Render: a fractional `totalPages` is not modelled. Totals are
  integers.
- `JSON.stringify` is an arbitrary function parameter. Only the text stored
  for `undefined` is fixed.

## Findings

| source | as written | input that shows it | evidently intended | confidence | as-written member | corrected member |
|---|---|---|---|---|---|---|
| siorma_fe-main/src/app/auth/register/page.jsx:54-60 | `errors \|\| data` is taken as the validation collection whenever it is an object or array, even an empty one. `String(undefined)` then becomes the banner. | a failed sign-up whose body is `{"message": "Email sudah terdaftar", "data": []}` | fall back to `message` (then the default) when the collection has no entry | not executed; medium | MainRegister.HandleSubmit, MainRegister.EmptyDataHidesMessage | MainRegister.HandleSubmitCorrected, MainRegister.MessageShownWithoutEntries |
| src/app/homepage/registration_form/page.jsx:29-44 | the effect runs once with `[]` dependencies, so `!full_name` and `!email` test the mount-time empty strings | the user types "Budi" before `/api/me` answers with name "Andi"; the field becomes "Andi" | fill a field only while it is still empty | not executed; medium | RegistrationForm.PrefillAsWritten, RegistrationForm.PrefillOverwritesTypedName | RegistrationForm.Prefill, RegistrationForm.PrefillAgreesOnEmptyForm |
| siorma_fe-main/src/app/list-ormawa/page.jsx:49-52 | every present `photo_path` is put under `<base>/storage/` | `photo_path` = `https://cdn.example/a.png` gives `<base>/storage/https://cdn.example/a.png`; `public/a.png` keeps `public/` | resolve as the homepage's `storageUrl` does | not executed; low | OrmawaList.CardImageAsWritten, OrmawaList.NaiveStorageUrlMisresolves | OrmawaList.CardImage, StorageUrls.StorageUrl |
