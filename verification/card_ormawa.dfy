/** The `CardOrmawa` card (`src/components/ui/CardOrmawa.jsx`): where its
    Detail button leads, the tag colours and the avatar. */
module CardOrmawa {
  import opened Text
  import Js
  import Uri

  /** What a click on Detail does. */
  datatype Action = CallOnClick | Navigate(path: string)

  const DetailRoot: string := "/ormawa-detail"

  /** `ormawaId === null || ormawaId === undefined || ormawaId === ""`:
      strict comparisons, so `0` and `false` still get a detail page. */
  predicate MissingId(id: Js.Value) {
    id.Null? || id.Undefined? || id == Js.Str("")
  }

  /** `handleDetail`. */
  function HandleDetail(hasOnClick: bool, id: Js.Value): (r: Action)
    ensures hasOnClick <==> r.CallOnClick?
    ensures !hasOnClick && MissingId(id) ==> r == Navigate(DetailRoot)
    ensures !hasOnClick && !MissingId(id) ==>
              r == Navigate(DetailRoot + "/" + Uri.Encode(Js.ToStr(id)))
  {
    if hasOnClick then CallOnClick
    else if MissingId(id) then Navigate(DetailRoot)
    else Navigate(DetailRoot + "/" + Uri.Encode(Js.ToStr(id)))
  }

  /** Whatever the id, the detail link stays one path segment below
      `/ormawa-detail`: the encoded id holds no `/`, `?` or `#`. */
  lemma DetailIsOneSegment(id: Js.Value)
    requires !MissingId(id)
    ensures var p := HandleDetail(false, id).path;
            && |p| > |DetailRoot| && p[..|DetailRoot| + 1] == DetailRoot + "/"
            && var rest := p[|DetailRoot| + 1..];
               '/' !in rest && '?' !in rest && '#' !in rest
  {
    var e := Uri.Encode(Js.ToStr(id));
    Uri.EncodeHasNoDelimiters(Js.ToStr(id));
    assert HandleDetail(false, id).path[|DetailRoot| + 1..] == e;
  }

  /** A numeric id, zero included, leads to its own detail page. */
  lemma NumericDetail(n: nat)
    ensures HandleDetail(false, Js.Num(n)) == Navigate(DetailRoot + "/" + NatToString(n))
  {
    Uri.EncodeUnreserved(NatToString(n));
  }

  const DefaultTagStyle: string := "bg-gray-100 text-gray-700 border-gray-200"

  /** The `tagStyles` table. */
  const TagStyles: map<string, string> := map[
    "Organisasi" := "bg-red-100 text-red-700 border-red-200",
    "LAB" := "bg-red-200 text-red-800 border-red-300",
    "Teknologi" := "bg-red-600 text-white border-red-600",
    "Olahraga" := "bg-red-600 text-white border-red-600"
  ]

  /** `tagStyles[tag] || default`: only the four listed tags are coloured,
      and the lookup is case-sensitive, so a lower-case `lab` is grey. */
  function TagStyle(tag: string): (r: string)
    ensures tag in TagStyles ==> r == TagStyles[tag]
    ensures tag !in TagStyles ==> r == DefaultTagStyle
    ensures r == DefaultTagStyle <==> tag !in TagStyles
  {
    if tag in TagStyles then TagStyles[tag] else DefaultTagStyle
  }

  /** The card's profile circle. */
  datatype Avatar = Photo(url: string) | Initial(letter: string)

  /** `imageUrl ? <img> : (title || "?").charAt(0)`. */
  function AvatarOf(imageUrl: Js.Value, title: string): (r: Avatar)
    ensures r.Photo? <==> Js.Truthy(imageUrl)
    ensures r.Photo? ==> r.url == Js.ToStr(imageUrl)
    ensures r.Initial? ==> |r.letter| == 1
    ensures r.Initial? && title != "" ==> r.letter == [title[0]]
    ensures r.Initial? && title == "" ==> r.letter == "?"
  {
    if Js.Truthy(imageUrl) then Photo(Js.ToStr(imageUrl))
    else var t := if title != "" then title else "?"; Initial(t[..1])
  }
}
