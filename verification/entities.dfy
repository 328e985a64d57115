/** The records the public pages list: organisations ("ormawa") and
    recruitment posts, as the backend sends them. Text fields are optional
    strings (`None` is a missing or `null` field); ids and counts are raw
    JavaScript values because the pages coerce them. */
module Entities {
  import opened Wrappers
  import Js

  datatype Ormawa = Ormawa(
    id: Js.Value,
    name: Option<string>,
    typeOrmawa: Option<string>,
    categoryOrmawa: Option<string>,
    photoPath: Option<string>)

  datatype Post = Post(
    postId: Js.Value,
    id: Js.Value,
    ormawaId: Js.Value,
    title: Option<string>,
    description: Option<string>,
    status: Option<string>,
    posterUrl: Option<string>,
    posterPath: Option<string>,
    posterPathSnake: Option<string>,
    poster: Option<string>,
    imagePath: Option<string>,
    image: Option<string>,
    deadline: Option<string>,
    deadlineDate: Option<string>,
    endDate: Option<string>,
    quota: Js.Value,
    slot: Js.Value,
    lowongan: Js.Value)

  /** The properties a post card (`CardPendaftaran`) is given. */
  datatype Card = Card(
    tags: seq<string>,
    title: string,
    subtitle: string,
    deadline: string,
    lowongan: string)

  /** A truthy text field. */
  predicate Present(f: Option<string>) {
    f.Some? && f.value != ""
  }

  /** `(f || "")`. */
  function TextOf(f: Option<string>): string {
    if f.Some? then f.value else ""
  }

  /** `f || d`. */
  function OrDefault(f: Option<string>, d: string): string {
    if Present(f) then f.value else d
  }

  /** The first truthy field of `fs`. */
  function FirstPresent(fs: seq<Option<string>>): (r: Option<string>)
    ensures r.Some? ==> exists i :: 0 <= i < |fs| && fs[i] == r && Present(fs[i])
                          && forall j :: 0 <= j < i ==> !Present(fs[j])
    ensures r.None? <==> forall i :: 0 <= i < |fs| ==> !Present(fs[i])
  {
    if |fs| == 0 then None
    else if Present(fs[0]) then fs[0]
    else
      var r := FirstPresent(fs[1..]);
      assert forall i :: 1 <= i < |fs| ==> fs[i] == fs[1..][i - 1];
      r
  }

  /** `Number(a) === Number(b)`; NaN equals nothing, itself included. */
  predicate SameId(a: Js.Value, b: Js.Value) {
    Js.ToNumber(a).Some? && Js.ToNumber(a) == Js.ToNumber(b)
  }

  /** `findOrmawaById(ormawaID)`: the first organisation whose id equals
      `ormawaId` after `Number()` coercion, or `null`. */
  function FindOrmawaById(list: seq<Ormawa>, ormawaId: Js.Value): (r: Option<Ormawa>)
    ensures r.Some? ==> exists i :: 0 <= i < |list| && list[i] == r.value
                          && SameId(list[i].id, ormawaId)
                          && forall j :: 0 <= j < i ==> !SameId(list[j].id, ormawaId)
    ensures r.None? <==> forall i :: 0 <= i < |list| ==> !SameId(list[i].id, ormawaId)
  {
    if |list| == 0 then None
    else if SameId(list[0].id, ormawaId) then Some(list[0])
    else
      var r := FindOrmawaById(list[1..], ormawaId);
      assert forall i :: 1 <= i < |list| ==> list[i] == list[1..][i - 1];
      r
  }

  /** A post that names its organisation by a number finds the same
      organisation as one that names it by the number's decimal string. */
  lemma {:induction false} FindByNumberOrString(list: seq<Ormawa>, n: int)
    ensures FindOrmawaById(list, Js.Num(n)) == FindOrmawaById(list, Js.Str(Js.ToStr(Js.Num(n))))
    decreases |list|
  {
    Js.NumberOfStringRoundTrip(n);
    if |list| > 0 {
      FindByNumberOrString(list[1..], n);
    }
  }

  /** A missing organisation id matches nothing. */
  lemma FindMissingId(list: seq<Ormawa>)
    ensures FindOrmawaById(list, Js.Undefined).None?
  {
  }
}
