/**
 * The search result the bot caches under `media:<id>`: the payload of the
 * search service, held as a record rather than as JSON text.
 */
module Media {
  import opened Wrappers
  import opened PyDict
  import opened Text

  /** `media_id` as the search service returns it. */
  datatype MediaId = IdStr(s: string) | IdInt(i: int)

  /** `if not media_id`: the empty string and 0 are falsy. */
  predicate IdTruthy(id: MediaId) {
    match id
    case IdStr(s) => s != ""
    case IdInt(i) => i != 0
  }

  /** `f"{media_id}"`. */
  function IdText(id: MediaId): string {
    match id
    case IdStr(s) => s
    case IdInt(i) => IntToString(i)
  }

  /** The record. Each display field holds the text its value prints as, or
      `None` when the key is missing; `images` maps an image kind
      (`posters`, `backdrops`) to a map from language code to image URLs. */
  datatype MediaRecord = MediaRecord(
    mediaId: Option<MediaId>,
    title: Option<string>,
    year: Option<string>,
    plot: Option<string>,
    tagline: Option<string>,
    rating: Option<string>,
    votes: Option<string>,
    runtime: Option<string>,
    genres: Option<string>,
    url: Option<string>,
    posterUrl: Option<string>,
    images: ODict<ODict<seq<string>>>)

  /** The key a record is cached under. */
  function CacheKey(id: string): string {
    "media:" + id
  }

  /** `data.get("images", {}).get(kind, {})`. */
  function ImagesOf(r: MediaRecord, kind: string): ODict<seq<string>> {
    GetOr(r.images, kind, [])
  }

  /** `data.get("images", {}).get(kind, {}).get(lang, [])`. */
  function ImagesFor(r: MediaRecord, kind: string, lang: string): seq<string> {
    GetOr(ImagesOf(r, kind), lang, [])
  }

  /** `.keys()` of the languages of one image kind. */
  function Languages(r: MediaRecord, kind: string): seq<string> {
    Keys(ImagesOf(r, kind))
  }

  /** Distinct ids give distinct cache keys. */
  lemma CacheKeyInjective(a: string, b: string)
    ensures CacheKey(a) == CacheKey(b) <==> a == b
  {
    if CacheKey(a) == CacheKey(b) {
      assert a == CacheKey(a)[6..] && b == CacheKey(b)[6..];
    }
  }
}
