/**
 * The catalogue both batch drivers walk: `content_resources.json` as loaded,
 * a list of creators, each with a collection of videos. The flags of a video
 * are optional JSON values read with `video.get(flag, default)`.
 */
module Catalogue {
  import opened Wrappers
  import opened Json

  datatype Video = Video(
    videoId: string,
    title: string,
    publishedTime: string,
    captionEnabled: Option<Json>,           // `caption_enabled`
    downloadedViaSupadata: Option<Json>,    // `downloaded_via_supadata`
    downloaded: Option<Json>)               // `downloaded`

  datatype Creator = Creator(
    name: string,                           // `content_creator`
    nativeLang: Option<string>,             // `native_lang`, if given
    collection: seq<Video>)                 // `content_collection`

  type Catalogue = seq<Creator>

  /** `output_dir`: both drivers keep their transcripts in this directory. */
  const OutputDir: string := "transcripts"

  /** `video.get(flag, default)` read as a condition. */
  predicate Flag(flag: Option<Json>, default: bool)
  {
    match flag
    case None => default
    case Some(j) => Truthy(j)
  }

  /** The catalogue with video `j` of creator `i` replaced. */
  function WithVideo(data: Catalogue, i: nat, j: nat, v: Video): (r: Catalogue)
    requires i < |data| && j < |data[i].collection|
    ensures |r| == |data| && forall i' :: 0 <= i' < |r| && i' != i ==> r[i'] == data[i']
    ensures r[i].name == data[i].name && r[i].nativeLang == data[i].nativeLang
    ensures |r[i].collection| == |data[i].collection| && r[i].collection[j] == v
    ensures forall j' :: 0 <= j' < |r[i].collection| && j' != j ==> r[i].collection[j'] == data[i].collection[j']
  {
    data[i := data[i].(collection := data[i].collection[j := v])]
  }

  /** How many videos the creators hold altogether. */
  function VideoCount(data: Catalogue): nat
  {
    if data == [] then 0 else VideoCount(data[..|data| - 1]) + |data[|data| - 1].collection|
  }

  /** The same creators with the same numbers of videos. */
  predicate SameShape(a: Catalogue, b: Catalogue)
  {
    |a| == |b| &&
    forall i :: 0 <= i < |a| ==>
      a[i].name == b[i].name && a[i].nativeLang == b[i].nativeLang && |a[i].collection| == |b[i].collection|
  }

  lemma {:induction false} SameShapeCount(a: Catalogue, b: Catalogue)
    requires SameShape(a, b)
    ensures VideoCount(a) == VideoCount(b)
  {
    if a != [] {
      var n := |a| - 1;
      assert SameShape(a[..n], b[..n]);
      SameShapeCount(a[..n], b[..n]);
    }
  }

  lemma SameShapeTrans(a: Catalogue, b: Catalogue, c: Catalogue)
    requires SameShape(a, b) && SameShape(b, c)
    ensures SameShape(a, c)
  {
  }

  /** How many videos each creator has. */
  function Shape(data: Catalogue): (r: seq<nat>)
    ensures |r| == |data| && forall i :: 0 <= i < |data| ==> r[i] == |data[i].collection|
  {
    seq(|data|, i requires 0 <= i < |data| => |data[i].collection|)
  }

  /** The sum of a sequence of counts. */
  function Sum(s: seq<nat>): nat
  {
    if s == [] then 0 else Sum(s[..|s| - 1]) + s[|s| - 1]
  }

  lemma SumPrefix(s: seq<nat>, i: nat)
    requires 0 < i <= |s|
    ensures Sum(s[..i]) == Sum(s[..i - 1]) + s[i - 1]
  {
    assert s[..i][..i - 1] == s[..i - 1];
  }

  lemma {:induction false} ShapeCount(data: Catalogue)
    ensures Sum(Shape(data)) == VideoCount(data)
  {
    if data != [] {
      var n := |data| - 1;
      assert Shape(data)[..n] == Shape(data[..n]);
      ShapeCount(data[..n]);
    }
  }

}
