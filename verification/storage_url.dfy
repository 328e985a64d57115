/** Resolution of a backend storage path to an absolute URL
    (`storageUrl` of the homepage and the post list). */
module StorageUrls {
  import opened Wrappers
  import opened Text
  import opened Entities

  predicate IsAbsoluteUrl(s: string) {
    StartsWith(s, "http://") || StartsWith(s, "https://")
  }

  /** `s.replace(/^public\//, "")`: at most one leading `public/` goes. */
  function StripPublic(s: string): (r: string)
    ensures StartsWith(s, "public/") ==> s == "public/" + r
    ensures !StartsWith(s, "public/") ==> r == s
  {
    if StartsWith(s, "public/") then s[7..] else s
  }

  /** `storageUrl(path)`: `null` for a falsy path; an absolute URL as it
      is; a rooted path appended to the base (the `/storage/` branch and the
      generic `/` branch give the same URL); a bare relative path with one
      leading `public/` removed, under `<base>/storage/`. */
  function StorageUrl(base: string, path: Option<string>): (r: Option<string>)
    ensures r.None? <==> !Present(path)
    ensures Present(path) && IsAbsoluteUrl(path.value) ==> r == path
    ensures Present(path) && !IsAbsoluteUrl(path.value) && StartsWith(path.value, "/") ==>
              r == Some(base + path.value)
    ensures Present(path) && !IsAbsoluteUrl(path.value) && !StartsWith(path.value, "/") ==>
              r == Some(base + "/storage/" + StripPublic(path.value))
    ensures r.Some? ==> r.value != ""
  {
    if !Present(path) then None
    else
      var s := path.value;
      if IsAbsoluteUrl(s) then Some(s)
      else if StartsWith(s, "/storage/") then Some(base + s)
      else if StartsWith(s, "/") then Some(base + s)
      else Some(base + "/storage/" + StripPublic(s))
  }

  lemma StartsWithAppend(a: string, b: string, p: string)
    requires |p| <= |a|
    ensures StartsWith(a + b, p) <==> StartsWith(a, p)
  {
    assert (a + b)[..|p|] == a[..|p|];
  }

  lemma FirstCharDiffers(s: string, p: string)
    requires |s| > 0 && |p| > 0 && s[0] != p[0]
    ensures !StartsWith(s, p)
  {
  }

  /** The three spellings of one stored file (`x`, `public/x` and
      `/storage/x`) resolve to the same URL. */
  lemma SpellingsAgree(base: string, x: string)
    requires x != ""
    requires !StartsWith(x, "/") && !StartsWith(x, "public/") && !IsAbsoluteUrl(x)
    ensures StorageUrl(base, Some(x)) == Some(base + "/storage/" + x)
    ensures StorageUrl(base, Some("public/" + x)) == Some(base + "/storage/" + x)
    ensures StorageUrl(base, Some("/storage/" + x)) == Some(base + "/storage/" + x)
  {
    StartsWithAppend("public/", x, "public/");
    StartsWithAppend("public/", x, "/");
    FirstCharDiffers("public/" + x, "http://");
    FirstCharDiffers("public/" + x, "https://");
    StartsWithAppend("/storage/", x, "/");
    FirstCharDiffers("/storage/" + x, "http://");
    FirstCharDiffers("/storage/" + x, "https://");
    assert base + ("/storage/" + x) == base + "/storage/" + x;
    assert ("public/" + x)[7..] == x;
  }

  /** Only one `public/` prefix is removed. */
  lemma StripsOnePublic(base: string, x: string)
    ensures StorageUrl(base, Some("public/public/" + x)) == Some(base + "/storage/public/" + x)
  {
    var s := "public/public/" + x;
    StartsWithAppend("public/public/", x, "public/");
    StartsWithAppend("public/public/", x, "/");
    FirstCharDiffers(s, "http://");
    FirstCharDiffers(s, "https://");
    assert s[7..] == "public/" + x;
    assert base + "/storage/" + ("public/" + x) == base + "/storage/public/" + x;
  }

  /** With an absolute base, a resolved URL resolves to itself: the
      normalisation is idempotent. */
  lemma StorageUrlIdempotent(base: string, path: Option<string>)
    requires IsAbsoluteUrl(base)
    ensures StorageUrl(base, StorageUrl(base, path)) == StorageUrl(base, path)
  {
    var r := StorageUrl(base, path);
    if r.Some? && !IsAbsoluteUrl(path.value) {
      var tail := r.value[|base|..];
      assert r.value == base + tail;
      if StartsWith(base, "http://") {
        StartsWithAppend(base, tail, "http://");
      } else {
        StartsWithAppend(base, tail, "https://");
      }
    }
  }
}
