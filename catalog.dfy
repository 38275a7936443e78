/** The records the downloader reads from the catalog API, and the two
    dicts it builds from them: the show `metadata` and an episode's
    `epMeta`. A JSON key that may be missing is an `Option`. */
module Catalog {
  import opened Options

  /** An episode's `content` block. */
  datatype Content = Content(hlsUrl: Option<string>, premiumAudioUrl: Option<string>, subtitleUrl: Option<string>)

  /** One record of a page's `episodes` list. */
  datatype RawEpisode = RawEpisode(
    title: string, content: Content, index: int, seasonNo: int, publishedOn: Option<string>)

  /** `self.metadata`. `date` and `ageRating` are "" when the catalog has
      none (both are only ever checked for truthiness or printed);
      `credits` is the ordered dict from role to joined names. */
  datatype ShowMeta = ShowMeta(
    title: string, author: string, lang: string, contentType: string, date: string,
    fictional: bool, nEpisodes: int, ageRating: string, credits: seq<(string, string)>)

  /** `epMeta`, the per-episode dict handed to the download routine. */
  datatype EpMeta = EpMeta(title: string, hls: string, srt: string, epNo: int, seasonNo: int, date: string)

  /** `d.get(key, default)`. */
  function GetOr(o: Option<string>, default: string): string {
    match o
    case Some(s) => s
    case None => default
  }

  /** `str(d.get(key))`: a missing key prints as `None`. */
  function StrOfGet(o: Option<string>): (r: string)
    ensures o.None? ==> r == "None"
  {
    GetOr(o, "None")
  }

  /** `str(b)` for a Python bool. */
  function PyBool(b: bool): string {
    if b then "True" else "False"
  }
}
