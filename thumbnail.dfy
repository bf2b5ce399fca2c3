/**
 * Thumbnail URL derivation: a video id and one of five quality tiers give the
 * address of a preview image on the platform's image host.
 */
module Thumbnails {
  import opened Basics

  const BaseUrl: string := "https://img.youtube.com/vi/"

  /** The quality tiers and the file name each one is served under. */
  const Qualities: map<string, string> := map[
    "default" := "default.jpg",
    "medium" := "mqdefault.jpg",
    "high" := "hqdefault.jpg",
    "standard" := "sddefault.jpg",
    "maximum" := "maxresdefault.jpg"
  ]

  /** The tier `get_url` uses when called without an argument. */
  const DefaultQuality: string := "default"

  /** The prefix every URL of `videoId` shares; the id is not validated. */
  function UrlPrefix(videoId: string): string {
    BaseUrl + videoId + "/"
  }

  datatype Thumbnail = Thumbnail(videoId: string) {

    /** `get_url(quality)`: a known tier gives the image URL, any other raises ValueError. */
    function GetUrl(quality: string): (r: Result<string>)
      ensures r.Ok? <==> quality in Qualities
      ensures r.Err? ==> r.message == "Unknown quality: " + quality
      ensures r.Ok? ==> r.value == UrlPrefix(videoId) + Qualities[quality]
    {
      if quality !in Qualities || Qualities[quality] == "" then
        Err("Unknown quality: " + quality)
      else
        Ok(BaseUrl + videoId + "/" + Qualities[quality])
    }

    /** `get_url()` with the default argument; it never raises. */
    function GetDefaultUrl(): (url: string)
      ensures GetUrl(DefaultQuality) == Ok(url)
      ensures url == UrlPrefix(videoId) + "default.jpg"
    {
      GetUrl(DefaultQuality).value
    }

    /** `as_dict()`: one entry per tier, each the URL `get_url` gives for it. */
    function AsDict(): (d: map<string, string>)
      ensures d.Keys == Qualities.Keys
      ensures forall q :: q in d ==> GetUrl(q) == Ok(d[q])
    {
      map q | q in Qualities :: GetUrl(q).value
    }
  }

  /** The five file names are pairwise distinct. */
  lemma FileNamesDistinct(q1: string, q2: string)
    requires q1 in Qualities && q2 in Qualities && q1 != q2
    ensures Qualities[q1] != Qualities[q2]
  {
  }

  /** For a fixed video, distinct tiers give distinct URLs. */
  lemma QualityInjective(t: Thumbnail, q1: string, q2: string)
    requires q1 in Qualities && q2 in Qualities && q1 != q2
    ensures t.GetUrl(q1).Ok? && t.GetUrl(q2).Ok?
    ensures t.GetUrl(q1).value != t.GetUrl(q2).value
  {
    var p := UrlPrefix(t.videoId);
    var u1, u2 := t.GetUrl(q1).value, t.GetUrl(q2).value;
    assert u1[|p|..] == Qualities[q1];
    assert u2[|p|..] == Qualities[q2];
    FileNamesDistinct(q1, q2);
  }

  /** For a fixed tier, the URL determines the video id. */
  lemma VideoIdInjective(a: string, b: string, q: string)
    requires q in Qualities
    requires Thumbnail(a).GetUrl(q) == Thumbnail(b).GetUrl(q)
    ensures a == b
  {
    var u := Thumbnail(a).GetUrl(q).value;
    var f := Qualities[q];
    assert u == BaseUrl + a + "/" + f;
    assert u == BaseUrl + b + "/" + f;
    assert |a| == |b|;
    assert a == u[|BaseUrl|..|BaseUrl| + |a|];
    assert b == u[|BaseUrl|..|BaseUrl| + |b|];
  }

  /** The default tier's URL ends in the default file name, and the URL of every id, the empty one included, carries the id. */
  lemma DefaultUrlShape(videoId: string)
    ensures var url := Thumbnail(videoId).GetDefaultUrl();
      && url[..|BaseUrl|] == BaseUrl
      && url[|BaseUrl|..|BaseUrl| + |videoId|] == videoId
      && url[|url| - |"/default.jpg"|..] == "/default.jpg"
  {
  }
}
