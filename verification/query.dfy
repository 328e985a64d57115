/** Reading a link's query string back: split at the first `?`, into
    parameters at `&`, and each parameter into name and value at its first
    `=`. The value read is the raw one: unlike `searchParams.get` on the
    registration form, nothing here decodes `%XX` escapes or `+`, or cuts
    the text at a `#`; `Uri.Decode` is the decoding step for values the
    lists encode. */
module Query {
  import opened Wrappers

  /** The position of the first `c` in `s`. */
  function IndexOf(s: string, c: char): (r: Option<nat>)
    ensures r.None? <==> c !in s
    ensures r.Some? ==> r.value < |s| && s[r.value] == c && c !in s[..r.value]
  {
    if |s| == 0 then None
    else if s[0] == c then Some(0)
    else
      var r := IndexOf(s[1..], c);
      if r.Some? then
        assert s[..r.value + 1] == [s[0]] + s[1..][..r.value];
        Some(r.value + 1)
      else None
  }

  /** `s.split(c)`. */
  function SplitOn(s: string, c: char): (r: seq<string>)
    ensures |r| >= 1
    decreases |s|
  {
    var i := IndexOf(s, c);
    if i.None? then [s] else [s[..i.value]] + SplitOn(s[i.value + 1..], c)
  }

  lemma IndexOfAppend(a: string, b: string, c: char)
    requires c !in a
    ensures IndexOf(a + [c] + b, c) == Some(|a|)
  {
    var s := a + [c] + b;
    assert s[|a|] == c;
    assert forall i :: 0 <= i < |a| ==> s[i] == a[i];
  }

  lemma SplitOnAppend(a: string, b: string, c: char)
    requires c !in a
    ensures SplitOn(a + [c] + b, c) == [a] + SplitOn(b, c)
  {
    var s := a + [c] + b;
    IndexOfAppend(a, b, c);
    assert s[..|a|] == a;
    assert s[|a| + 1..] == b;
  }

  /** A parameter's name and value. */
  function NameValue(param: string): (string, string) {
    var i := IndexOf(param, '=');
    if i.None? then (param, "") else (param[..i.value], param[i.value + 1..])
  }

  function Lookup(params: seq<string>, name: string): Option<string> {
    if |params| == 0 then None
    else if NameValue(params[0]).0 == name then Some(NameValue(params[0]).1)
    else Lookup(params[1..], name)
  }

  /** The raw (still encoded) value of parameter `name` in `href`. */
  function Param(href: string, name: string): Option<string> {
    var q := IndexOf(href, '?');
    if q.None? then None else Lookup(SplitOn(href[q.value + 1..], '&'), name)
  }

  lemma NameValueOf(name: string, value: string)
    requires '=' !in name
    ensures NameValue(name + "=" + value) == (name, value)
  {
    IndexOfAppend(name, value, '=');
    var s := name + "=" + value;
    assert s[..|name|] == name && s[|name| + 1..] == value;
  }

  /** The query string of `path + "?" + q` is `q`. */
  lemma QueryPart(path: string, q: string)
    requires '?' !in path
    ensures var href := path + "?" + q;
            IndexOf(href, '?') == Some(|path|) && href[|path| + 1..] == q
  {
    IndexOfAppend(path, q, '?');
    assert (path + "?" + q)[|path| + 1..] == q;
  }

  lemma TwoParamList(p1: string, p2: string)
    requires '&' !in p1 && '&' !in p2
    ensures SplitOn(p1 + "&" + p2, '&') == [p1, p2]
  {
    SplitOnAppend(p1, p2, '&');
    assert SplitOn(p2, '&') == [p2];
  }

  /** A two-parameter query string reads back as the values it was built
      from, provided no name or value holds a `&` and the names hold no
      `=`. */
  lemma TwoParams(path: string, n1: string, v1: string, n2: string, v2: string)
    requires '?' !in path && '=' !in n1 && '=' !in n2 && n1 != n2
    requires '&' !in n1 && '&' !in n2 && '&' !in v1 && '&' !in v2
    ensures var href := path + "?" + ((n1 + "=" + v1) + "&" + (n2 + "=" + v2));
            Param(href, n1) == Some(v1) && Param(href, n2) == Some(v2)
  {
    var p1 := n1 + "=" + v1;
    var p2 := n2 + "=" + v2;
    var href := path + "?" + (p1 + "&" + p2);
    QueryPart(path, p1 + "&" + p2);
    TwoParamList(p1, p2);
    assert Param(href, n1) == Lookup([p1, p2], n1);
    assert Param(href, n2) == Lookup([p1, p2], n2);
    NameValueOf(n1, v1);
    NameValueOf(n2, v2);
    assert [p1, p2][1..] == [p2];
  }
}
