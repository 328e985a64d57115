/** The homepage (`src/app/homepage/page.jsx`): organisation and post
    search with a category filter, the post cards and their images. */
module Home {
  import opened Wrappers
  import opened Text
  import opened Seqs
  import opened Entities
  import opened StorageUrls
  import Js
  import Query

  /** The category button that disables category filtering. */
  const AllCategories: string := "Semua"

  /** `searchTerm.trim().toLowerCase()`. */
  function SearchKey(searchTerm: string): string {
    Lower(Trim(searchTerm))
  }

  /** `(f || "").toLowerCase().includes(key)`. */
  predicate TextMatches(f: Option<string>, key: string) {
    Contains(Lower(TextOf(f)), key)
  }

  predicate CategoryMatches(cat: Option<string>, category: string) {
    category == AllCategories || Lower(TextOf(cat)) == Lower(category)
  }

  function OrmawaFilter(key: string, category: string): Ormawa -> bool {
    (o: Ormawa) =>
      && (key == "" || TextMatches(o.name, key) || TextMatches(o.typeOrmawa, key)
          || TextMatches(o.categoryOrmawa, key))
      && CategoryMatches(o.categoryOrmawa, category)
  }

  /** `filteredOrmawa`: the organisations, in their order, whose name, type
      or category contains the search key and whose category is the chosen
      one (case-insensitively) unless "Semua" is chosen. */
  function FilteredOrmawa(ormawa: seq<Ormawa>, searchTerm: string, category: string): (r: seq<Ormawa>)
    ensures IsSubsequence(r, ormawa)
    ensures forall i :: 0 <= i < |r| ==>
              var key := SearchKey(searchTerm);
              key == "" || TextMatches(r[i].name, key) || TextMatches(r[i].typeOrmawa, key)
              || TextMatches(r[i].categoryOrmawa, key)
    ensures forall i :: 0 <= i < |r| ==>
              category == AllCategories || Lower(TextOf(r[i].categoryOrmawa)) == Lower(category)
    ensures forall i :: 0 <= i < |ormawa| && OrmawaFilter(SearchKey(searchTerm), category)(ormawa[i])
              ==> ormawa[i] in r
    ensures SearchKey(searchTerm) == "" && category == AllCategories ==> r == ormawa
    ensures |r| == Count(ormawa, OrmawaFilter(SearchKey(searchTerm), category))
  {
    var p := OrmawaFilter(SearchKey(searchTerm), category);
    if SearchKey(searchTerm) == "" && category == AllCategories then
      FilterKeepsAll(ormawa, p);
      Filter(ormawa, p)
    else
      Filter(ormawa, p)
  }

  /** Two search terms that differ only in letter case give the same
      search key. */
  lemma SearchKeyIgnoresCase(a: string, b: string)
    requires Lower(a) == Lower(b)
    ensures SearchKey(a) == SearchKey(b)
  {
    TrimLowerCommute(a);
    TrimLowerCommute(b);
  }

  /** The organisation search is case-insensitive in the search term. */
  lemma FilteredOrmawaIgnoresCase(ormawa: seq<Ormawa>, a: string, b: string, category: string)
    requires Lower(a) == Lower(b)
    ensures FilteredOrmawa(ormawa, a, category) == FilteredOrmawa(ormawa, b, category)
  {
    SearchKeyIgnoresCase(a, b);
  }

  /** The category of the organisation a post belongs to. */
  function PostCategory(ormawa: seq<Ormawa>, post: Post): Option<string> {
    var o := FindOrmawaById(ormawa, post.ormawaId);
    if o.Some? then o.value.categoryOrmawa else None
  }

  function PostFilter(ormawa: seq<Ormawa>, key: string, category: string): Post -> bool {
    (p: Post) =>
      && Lower(TextOf(p.status)) == "published"
      && CategoryMatches(PostCategory(ormawa, p), category)
      && (key == "" || TextMatches(p.title, key) || TextMatches(p.description, key))
  }

  /** How many posts the homepage shows. */
  const MaxHomePosts: nat := 4

  /** `filteredPosts`: at most four posts, the first ones in list order that
      are published, belong to the chosen category, and carry the search key
      in their title or description (the organisation name is not
      searched here). */
  function FilteredPosts(posts: seq<Post>, ormawa: seq<Ormawa>, searchTerm: string, category: string)
    : (r: seq<Post>)
    ensures |r| <= MaxHomePosts
    ensures var n := Count(posts, PostFilter(ormawa, SearchKey(searchTerm), category));
            |r| == if n < MaxHomePosts then n else MaxHomePosts
    ensures IsSubsequence(r, posts)
    ensures r == Filter(posts, PostFilter(ormawa, SearchKey(searchTerm), category))[..|r|]
    ensures forall i :: 0 <= i < |r| ==> Lower(TextOf(r[i].status)) == "published"
    ensures forall i :: 0 <= i < |r| ==>
              var key := SearchKey(searchTerm);
              key == "" || TextMatches(r[i].title, key) || TextMatches(r[i].description, key)
    ensures forall i :: 0 <= i < |r| ==>
              category == AllCategories
              || Lower(TextOf(PostCategory(ormawa, r[i]))) == Lower(category)
  {
    var all := Filter(posts, PostFilter(ormawa, SearchKey(searchTerm), category));
    var r := Take(all, MaxHomePosts);
    PrefixOfSubsequence(all, posts, |r|);
    r
  }

  /** The image paths a post may carry, in the order they are tried. */
  function ImagePaths(post: Post): seq<Option<string>> {
    [post.posterPath, post.posterPathSnake, post.poster, post.imagePath, post.image]
  }

  function ResolveAll(base: string, paths: seq<Option<string>>): (r: seq<Option<string>>)
    ensures |r| == |paths|
    ensures forall i :: 0 <= i < |paths| ==> r[i] == StorageUrl(base, paths[i])
  {
    seq(|paths|, i requires 0 <= i < |paths| => StorageUrl(base, paths[i]))
  }

  /** Resolving every path and taking the first URL is resolving the first
      present path: `storageUrl` is non-null exactly for truthy paths. */
  lemma {:induction false} FirstResolved(base: string, paths: seq<Option<string>>)
    ensures FirstPresent(ResolveAll(base, paths)) == StorageUrl(base, FirstPresent(paths))
    decreases |paths|
  {
    if |paths| > 0 {
      assert ResolveAll(base, paths)[1..] == ResolveAll(base, paths[1..]);
      FirstResolved(base, paths[1..]);
    }
  }

  const FallbackImage: string := "/Logo.png"

  /** `postImageUrl(post)`: never empty; `poster_url` when set, otherwise
      the resolved URL of the first present image path, otherwise the logo. */
  function PostImageUrl(base: string, post: Post): (r: string)
    ensures r != ""
    ensures Present(post.posterUrl) ==> r == post.posterUrl.value
    ensures !Present(post.posterUrl) && FirstPresent(ImagePaths(post)).None? ==> r == FallbackImage
    ensures !Present(post.posterUrl) && FirstPresent(ImagePaths(post)).Some? ==>
              Some(r) == StorageUrl(base, FirstPresent(ImagePaths(post)))
  {
    FirstResolved(base, ImagePaths(post));
    var url := if Present(post.posterUrl) then post.posterUrl
               else FirstPresent(ResolveAll(base, ImagePaths(post)));
    if url.Some? then url.value else FallbackImage
  }

  /** The image of an organisation card on the homepage. */
  function OrmawaImage(base: string, o: Ormawa): (r: string)
    ensures r != ""
    ensures !Present(o.photoPath) ==> r == FallbackImage
    ensures Present(o.photoPath) ==> Some(r) == StorageUrl(base, o.photoPath)
  {
    var url := StorageUrl(base, o.photoPath);
    if url.Some? then url.value else FallbackImage
  }

  /** The title a card shows for a post without one. */
  const MissingTitle: string := "Judul tidak tersedia"

  /** `mapPostToCard(post)` on the homepage: tags are the organisation
      type, the upper-cased status and the organisation category, with the
      defaults "Post", "DRAFT" and "Umum"; deadline and vacancies are not
      shown. */
  function HomeCard(post: Post, ormawa: seq<Ormawa>): (r: Card)
    ensures |r.tags| == 3
    ensures FindOrmawaById(ormawa, post.ormawaId).None? ==> r.tags[0] == "Post" && r.tags[2] == "Umum"
    ensures var o := FindOrmawaById(ormawa, post.ormawaId);
            o.Some? ==> r.tags[0] == OrDefault(o.value.typeOrmawa, "Post")
                        && r.tags[2] == OrDefault(o.value.categoryOrmawa, "Umum")
    ensures NoLowerCase(r.tags[1]) && Lower(r.tags[1]) == Lower(OrDefault(post.status, "draft"))
    ensures !Present(post.status) ==> r.tags[1] == "DRAFT"
    ensures r.title != "" && (Present(post.title) ==> r.title == post.title.value)
    ensures !Present(post.title) ==> r.title == MissingTitle
    ensures r.subtitle == OrDefault(post.description, "")
    ensures r.deadline == "-" && r.lowongan == "-"
  {
    var o := FindOrmawaById(ormawa, post.ormawaId);
    var kind := if o.Some? then OrDefault(o.value.typeOrmawa, "Post") else "Post";
    var cat := if o.Some? then OrDefault(o.value.categoryOrmawa, "Umum") else "Umum";
    var stat := Upper(OrDefault(post.status, "draft"));
    UpperHasNoLowerCase(OrDefault(post.status, "draft"));
    CaseMapsAbsorb(OrDefault(post.status, "draft"));
    Card([kind, stat, cat], OrDefault(post.title, MissingTitle),
         OrDefault(post.description, ""), "-", "-")
  }

  const RegistrationPath: string := "/homepage/registration_form"

  /** The registration link under a homepage card: `postID` and `ormawaID`
      in their string forms, not URL-encoded. When neither id text holds a
      `&`, each parameter's raw value is exactly that text (for a missing
      `postID`, the text "undefined"). The raw value is what `Query.Param`
      reads; a browser's `searchParams.get` would further decode `%XX` and
      `+` and cut at `#`, so it may differ for id text holding those. */
  function RegistrationHref(post: Post): (r: string)
    ensures StartsWith(r, RegistrationPath + "?")
    ensures '&' !in Js.ToStr(post.postId) && '&' !in Js.ToStr(post.ormawaId) ==>
              && Query.Param(r, "postID") == Some(Js.ToStr(post.postId))
              && Query.Param(r, "ormawaID") == Some(Js.ToStr(post.ormawaId))
  {
    var pid := Js.ToStr(post.postId);
    var oid := Js.ToStr(post.ormawaId);
    var r := RegistrationPath + "?" + (("postID" + "=" + pid) + "&" + ("ormawaID" + "=" + oid));
    assert r[..|RegistrationPath + "?"|] == RegistrationPath + "?";
    if '&' !in pid && '&' !in oid then
      Query.TwoParams(RegistrationPath, "postID", pid, "ormawaID", oid);
      r
    else r
  }
}
