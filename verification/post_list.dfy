/** The post list (`src/app/list-postingan/page.jsx`): search over posts
    and their organisation's name, the post card with status wording,
    deadline and vacancy count, the card image and the registration link. */
module PostList {
  import opened Wrappers
  import opened Text
  import opened Seqs
  import Js
  import Uri
  import Query
  import opened Entities
  import opened StorageUrls
  import Home

  /** The name of the organisation a post belongs to, `""` when unknown. */
  function OrmawaName(ormawa: seq<Ormawa>, post: Post): string {
    var o := FindOrmawaById(ormawa, post.ormawaId);
    if o.Some? then TextOf(o.value.name) else ""
  }

  function PostFilter(ormawa: seq<Ormawa>, key: string): Post -> bool {
    (p: Post) =>
      || Contains(Lower(TextOf(p.title)), key)
      || Contains(Lower(TextOf(p.description)), key)
      || Contains(Lower(OrmawaName(ormawa, p)), key)
  }

  /** `filteredPosts`: every post for an empty key; otherwise, in order,
      exactly the posts whose title, description or organisation name
      contains the key. */
  function FilteredPosts(posts: seq<Post>, ormawa: seq<Ormawa>, searchTerm: string): (r: seq<Post>)
    ensures Home.SearchKey(searchTerm) == "" ==> r == posts
    ensures IsSubsequence(r, posts)
    ensures forall i :: 0 <= i < |r| ==>
              var key := Home.SearchKey(searchTerm);
              || Contains(Lower(TextOf(r[i].title)), key)
              || Contains(Lower(TextOf(r[i].description)), key)
              || Contains(Lower(OrmawaName(ormawa, r[i])), key)
    ensures forall i :: 0 <= i < |posts| && PostFilter(ormawa, Home.SearchKey(searchTerm))(posts[i])
              ==> posts[i] in r
    ensures |r| == Count(posts, PostFilter(ormawa, Home.SearchKey(searchTerm)))
  {
    var key := Home.SearchKey(searchTerm);
    if key == "" then
      SubsequenceReflexive(posts);
      forall i | 0 <= i < |posts| ensures Contains(Lower(TextOf(posts[i].title)), key) {
        ContainsEmpty(Lower(TextOf(posts[i].title)));
      }
      FilterKeepsAll(posts, PostFilter(ormawa, key));
      posts
    else
      Filter(posts, PostFilter(ormawa, key))
  }

  /** The status wording on a post card: "BUKA" for published, "DITUTUP"
      for closed, otherwise the status in capitals ("DRAFT" when missing). */
  function StatusTag(status: Option<string>): (r: string)
    ensures Lower(OrDefault(status, "draft")) == "published" ==> r == "BUKA"
    ensures Lower(OrDefault(status, "draft")) == "closed" ==> r == "DITUTUP"
    ensures Lower(OrDefault(status, "draft")) !in {"published", "closed"} ==>
              Lower(r) == Lower(OrDefault(status, "draft"))
    ensures !Present(status) ==> r == "DRAFT"
    ensures NoLowerCase(r)
  {
    var raw := Lower(OrDefault(status, "draft"));
    UpperHasNoLowerCase(raw);
    CaseMapsAbsorb(raw);
    CaseMapsAbsorb(OrDefault(status, "draft"));
    if raw == "published" then "BUKA"
    else if raw == "closed" then "DITUTUP"
    else Upper(raw)
  }

  /** The post list and the homepage word the status alike except for
      published and closed posts. */
  lemma StatusTagMatchesHome(post: Post, ormawa: seq<Ormawa>)
    requires Lower(OrDefault(post.status, "draft")) !in {"published", "closed"}
    ensures StatusTag(post.status) == Home.HomeCard(post, ormawa).tags[1]
  {
    CaseMapsAbsorb(OrDefault(post.status, "draft"));
  }

  /** `post.deadline || post.deadline_date || post.end_date || "-"`. */
  function Deadline(post: Post): (r: string)
    ensures var d := FirstPresent([post.deadline, post.deadlineDate, post.endDate]);
            (d.Some? ==> r == d.value) && (d.None? ==> r == "-")
    ensures r != ""
  {
    var fs := [post.deadline, post.deadlineDate, post.endDate];
    assert fs[1..] == [post.deadlineDate, post.endDate];
    assert fs[1..][1..] == [post.endDate];
    assert fs[0] == post.deadline && fs[1] == post.deadlineDate && fs[2] == post.endDate;
    if Present(post.deadline) then post.deadline.value
    else if Present(post.deadlineDate) then post.deadlineDate.value
    else if Present(post.endDate) then post.endDate.value
    else "-"
  }

  /** The vacancy count: `"<n> Lowongan"` for the first truthy of quota,
      slot and lowongan, and "-" exactly when none is truthy. */
  function Vacancies(post: Post): (r: string)
    ensures r == "-" <==> !Js.Truthy(post.quota) && !Js.Truthy(post.slot) && !Js.Truthy(post.lowongan)
    ensures r != "-" ==>
              exists v :: v in [post.quota, post.slot, post.lowongan] && Js.Truthy(v)
                          && r == Js.ToStr(v) + " Lowongan"
    ensures Js.Truthy(post.quota) ==> r == Js.ToStr(post.quota) + " Lowongan"
    ensures var n := Js.FirstTruthy([post.quota, post.slot, post.lowongan], Js.Undefined);
            r == if Js.Truthy(n) then Js.ToStr(n) + " Lowongan" else "-"
  {
    var n := Js.Or(post.quota, Js.Or(post.slot, post.lowongan));
    if Js.Truthy(n) then Js.ToStr(n) + " Lowongan" else "-"
  }

  /** `mapPostToCard(post)` on the post list. */
  function ListCard(post: Post, ormawa: seq<Ormawa>): (r: Card)
    ensures |r.tags| == 3 && r.tags[1] == StatusTag(post.status)
    ensures r.deadline == Deadline(post) && r.lowongan == Vacancies(post)
    ensures var h := Home.HomeCard(post, ormawa);
            r.tags[0] == h.tags[0] && r.tags[2] == h.tags[2]
            && r.title == h.title && r.subtitle == h.subtitle
  {
    var o := FindOrmawaById(ormawa, post.ormawaId);
    var kind := if o.Some? then OrDefault(o.value.typeOrmawa, "Post") else "Post";
    var cat := if o.Some? then OrDefault(o.value.categoryOrmawa, "Umum") else "Umum";
    Card([kind, StatusTag(post.status), cat], OrDefault(post.title, Home.MissingTitle),
         OrDefault(post.description, ""), Deadline(post), Vacancies(post))
  }

  /** The card image: `poster_url`, else the resolved `posterPath`, else
      the logo; never empty. */
  function CardImage(base: string, post: Post): (r: string)
    ensures r != ""
    ensures Present(post.posterUrl) ==> r == post.posterUrl.value
    ensures !Present(post.posterUrl) && !Present(post.posterPath) ==> r == Home.FallbackImage
    ensures !Present(post.posterUrl) && Present(post.posterPath) ==>
              Some(r) == StorageUrl(base, post.posterPath)
  {
    if Present(post.posterUrl) then post.posterUrl.value
    else
      var u := StorageUrl(base, post.posterPath);
      if u.Some? then u.value else Home.FallbackImage
  }

  /** For a post whose only image fields are `poster_url` and
      `posterPath`, the post list and the homepage show the same image. */
  lemma CardImageMatchesHome(base: string, post: Post)
    requires !Present(post.posterPathSnake) && !Present(post.poster)
    requires !Present(post.imagePath) && !Present(post.image)
    ensures CardImage(base, post) == Home.PostImageUrl(base, post)
  {
    if !Present(post.posterUrl) && Present(post.posterPath) {
      assert FirstPresent(Home.ImagePaths(post)) == post.posterPath;
    }
  }

  /** The registration link of a post. Reading its query string back
      gives `postID ?? id` and `ormawaID`, each as its string form,
      URL-encoded; neither value can spill into the other parameter. */
  function RegistrationHref(post: Post): (r: string)
    ensures StartsWith(r, Home.RegistrationPath + "?")
    ensures Query.Param(r, "postID") == Some(Uri.Encode(Js.ToStr(Js.Coalesce(post.postId, post.id))))
    ensures Query.Param(r, "ormawaID") == Some(Uri.Encode(Js.ToStr(post.ormawaId)))
  {
    var pid := Uri.Encode(Js.ToStr(Js.Coalesce(post.postId, post.id)));
    var oid := Uri.Encode(Js.ToStr(post.ormawaId));
    Uri.EncodeHasNoDelimiters(Js.ToStr(Js.Coalesce(post.postId, post.id)));
    Uri.EncodeHasNoDelimiters(Js.ToStr(post.ormawaId));
    Query.TwoParams(Home.RegistrationPath, "postID", pid, "ormawaID", oid);
    var r := Home.RegistrationPath + "?" + (("postID" + "=" + pid) + "&" + ("ormawaID" + "=" + oid));
    assert r[..|Home.RegistrationPath + "?"|] == Home.RegistrationPath + "?";
    r
  }

  /** Decoding each parameter of the link gives back the id text itself,
      whatever characters it holds. */
  lemma RegistrationHrefDecodes(post: Post)
    ensures Query.Param(RegistrationHref(post), "postID").Some?
    ensures Uri.Decode(Query.Param(RegistrationHref(post), "postID").value)
              == Some(Js.ToStr(Js.Coalesce(post.postId, post.id)))
    ensures Query.Param(RegistrationHref(post), "ormawaID").Some?
    ensures Uri.Decode(Query.Param(RegistrationHref(post), "ormawaID").value) == Some(Js.ToStr(post.ormawaId))
  {
    Uri.DecodeEncode(Js.ToStr(Js.Coalesce(post.postId, post.id)));
    Uri.DecodeEncode(Js.ToStr(post.ormawaId));
  }

  /** With numeric ids the link carries their plain decimal forms, and
      `id` is used only when `postID` is `null` or `undefined`. */
  lemma RegistrationHrefNumeric(post: Post, n: nat, m: nat)
    requires post.ormawaId == Js.Num(m)
    requires post.postId == Js.Num(n) || (Js.IsNullish(post.postId) && post.id == Js.Num(n))
    ensures Query.Param(RegistrationHref(post), "postID") == Some(NatToString(n))
    ensures Query.Param(RegistrationHref(post), "ormawaID") == Some(NatToString(m))
  {
    Uri.EncodeUnreserved(NatToString(n));
    Uri.EncodeUnreserved(NatToString(m));
  }

  /** For numeric ids the homepage's unencoded link and this page's encoded
      one are the same string. */
  lemma HomeLinkMatches(post: Post, n: nat, m: nat)
    requires post.postId == Js.Num(n) && post.ormawaId == Js.Num(m)
    ensures Home.RegistrationHref(post) == RegistrationHref(post)
  {
    Uri.EncodeUnreserved(NatToString(n));
    Uri.EncodeUnreserved(NatToString(m));
  }
}
