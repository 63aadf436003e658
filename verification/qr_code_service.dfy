/** The QR code service: it renders the link to a pet's public page as a QR image (a data URL),
    caching each rendering for seven days under the pet and the base URL. The renderer itself is
    a parameter: a function from the text and the options to a data URL or a failure. */
module QrCode {
  import opened Js
  import opened Text
  import opened TtlCache

  const QR_CACHE_TIMEOUT := 7 * 24 * 60 * 60 * 1000
  const QR_SWEEP_THRESHOLD := 500

  /** The most characters one QR code can carry. */
  const QR_MAX_DATA_LENGTH := 2953

  const DEFAULT_OPTIONS: seq<Field> := [
    Field("errorCorrectionLevel", Str("H")),
    Field("margin", Num(1)),
    Field("width", Num(300)),
    Field("color", Obj([Field("dark", Str("#000000")), Field("light", Str("#ffffff"))]))]

  const QR_FAILURE := Failure("Error", Undefined, "Error generando código QR")
  const CUSTOM_QR_FAILURE := Failure("Error", Undefined, "Error generando código QR personalizado")

  /** The cache key of a pet's code: the public identifier, an underscore, the base URL. */
  function CacheKey(uniqueId: string, baseUrl: string): (r: string)
    ensures |r| == |uniqueId| + 1 + |baseUrl|
    ensures r[..|uniqueId|] == uniqueId && r[|uniqueId|] == '_' && r[|uniqueId| + 1..] == baseUrl
  {
    uniqueId + "_" + baseUrl
  }

  /** The link a pet's code encodes: the base URL, a slash, the public identifier. */
  function PetUrl(baseUrl: string, uniqueId: string): (r: string)
    ensures |r| == |baseUrl| + 1 + |uniqueId|
    ensures r[..|baseUrl|] == baseUrl && r[|baseUrl|] == '/' && r[|baseUrl| + 1..] == uniqueId
  {
    baseUrl + "/" + uniqueId
  }

  /** Under one base URL, different pets never share a cache key, so a cached code is always the
      code of the pet asked for. */
  lemma CacheKeysDistinct(u1: string, u2: string, baseUrl: string)
    ensures CacheKey(u1, baseUrl) == CacheKey(u2, baseUrl) <==> u1 == u2
  {
    var k1, k2 := CacheKey(u1, baseUrl), CacheKey(u2, baseUrl);
    if k1 == k2 {
      assert |u1| == |u2|;
      assert u1 == k1[..|u1|] == k2[..|u2|] == u2;
    }
  }

  /** `{...defaultOptions, ...options}`: the caller's options override the defaults key by key,
      and every default the caller does not mention is kept. */
  function RenderOptions(options: seq<Field>): (r: seq<Field>)
  {
    Spread(DEFAULT_OPTIONS, options)
  }

  lemma RenderOptionsOverride(options: seq<Field>, k: string)
    requires DistinctKeys(options)
    ensures Lookup(RenderOptions(options), k) ==
              if HasKey(options, k) then Lookup(options, k) else Lookup(DEFAULT_OPTIONS, k)
  {
    LookupSpread(DEFAULT_OPTIONS, options, k);
  }

  /** `validateQRData`: a non-empty string of at most 2953 UTF-16 code units. Every non-empty
      string of at most half that many characters passes, and none longer than 2953 does. */
  function ValidateQRData(data: Value): (r: bool)
    ensures r ==> data.Str? && 0 < |data.s| <= QR_MAX_DATA_LENGTH
    ensures data.Str? && 0 < |data.s| && 2 * |data.s| <= QR_MAX_DATA_LENGTH ==> r
    ensures data.Str? && (forall i :: 0 <= i < |data.s| ==> data.s[i] as int <= 0xFFFF) ==>
              (r <==> 0 < |data.s| <= QR_MAX_DATA_LENGTH)
  {
    data.Str? && Utf16Length(data.s) > 0 && Utf16Length(data.s) <= QR_MAX_DATA_LENGTH
  }

  /** `generateCustomQRCode`: the data rendered with the merged options; a renderer failure is
      replaced by the service's own error. Nothing is cached. */
  function GenerateCustomQRCode(data: string, options: seq<Field>,
                                render: (string, seq<Field>) -> Result<string>): (r: Result<string>)
    ensures r.Ok? <==> render(data, RenderOptions(options)).Ok?
    ensures r.Ok? ==> r == render(data, RenderOptions(options))
    ensures r.Err? ==> r.error == CUSTOM_QR_FAILURE
  {
    match render(data, RenderOptions(options))
    case Ok(url) => Ok(url)
    case Err(_) => Err(CUSTOM_QR_FAILURE)
  }

  /** Whether `generateQRCode` yields a code at `now`: the cache holds a fresh, non-empty code
      for the pet's link, or the link renders with the merged options. */
  predicate CodeAvailable(entries: map<string, Entry<string>>, timeout: int, uniqueId: string, baseUrl: string,
                          options: seq<Field>, now: int, render: (string, seq<Field>) -> Result<string>)
  {
    var hit := Read(entries, CacheKey(uniqueId, baseUrl), now, timeout);
    (hit.Some? && hit.value != "") || render(PetUrl(baseUrl, uniqueId), RenderOptions(options)).Ok?
  }

  /** Writing a key that a read has just forgotten gives the same cache as writing it directly. */
  lemma WriteAfterForget<V>(m: map<string, Entry<V>>, key: string, data: V, now: int,
                            timeout: int, threshold: int)
    ensures AfterWrite(m - {key}, key, data, now, timeout, threshold)
         == AfterWrite(m, key, data, now, timeout, threshold)
  {
    assert (m - {key})[key := Entry(data, now)] == m[key := Entry(data, now)];
  }

  class QRCodeService {
    const cache: Cache<string>
    const defaultOptions: seq<Field>

    constructor ()
      ensures fresh(cache) && cache.entries == map[]
      ensures cache.timeout == QR_CACHE_TIMEOUT && cache.threshold == QR_SWEEP_THRESHOLD
      ensures defaultOptions == DEFAULT_OPTIONS
    {
      cache := new Cache(QR_CACHE_TIMEOUT, QR_SWEEP_THRESHOLD);
      defaultOptions := DEFAULT_OPTIONS;
    }

    /** `generateQRCode(uniqueId, baseUrl, options)` at time `now`. A fresh, non-empty cached
        code is returned without rendering and the cache is left alone. Otherwise the pet's link
        is rendered with the merged options (`rendered` says what was rendered): a successful
        rendering is cached under the key and returned; a failure returns the service's error and
        caches nothing, a stale entry having been forgotten by the read. A cached empty string
        counts as no code: it is rendered again. */
    method GenerateQRCode(uniqueId: string, baseUrl: string, options: seq<Field>, now: int,
                          render: (string, seq<Field>) -> Result<string>)
      returns (r: Result<string>, rendered: Option<(string, seq<Field>)>)
      requires defaultOptions == DEFAULT_OPTIONS
      modifies cache`entries
      ensures var key := CacheKey(uniqueId, baseUrl);
              var hit := Read(old(cache.entries), key, now, cache.timeout);
              var url := PetUrl(baseUrl, uniqueId);
              var out := render(url, RenderOptions(options));
              && (hit.Some? && hit.value != "" ==>
                    r == Ok(hit.value) && rendered == None && cache.entries == old(cache.entries))
              && (hit.None? || hit.value == "" ==> rendered == Some((url, RenderOptions(options))))
              && ((hit.None? || hit.value == "") && out.Ok? ==>
                    r == out && cache.entries == AfterWrite(old(cache.entries), key, out.value, now,
                                                            cache.timeout, cache.threshold))
              && ((hit.None? || hit.value == "") && out.Err? ==>
                    r == Err(QR_FAILURE)
                    && cache.entries == if hit.None? then old(cache.entries) - {key} else old(cache.entries))
      ensures r.Ok? <==> CodeAvailable(old(cache.entries), cache.timeout, uniqueId, baseUrl, options, now, render)
    {
      var key := CacheKey(uniqueId, baseUrl);
      ghost var before := cache.entries;
      var cached := cache.Get(key, now);
      if cached.Some? && cached.value != "" {
        return Ok(cached.value), None;
      }
      var url := PetUrl(baseUrl, uniqueId);
      var qrOptions := Spread(defaultOptions, options);
      rendered := Some((url, qrOptions));
      var out := render(url, qrOptions);
      if out.Err? {
        return Err(QR_FAILURE), rendered;
      }
      WriteAfterForget(before, key, out.value, now, cache.timeout, cache.threshold);
      cache.Set(key, out.value, now);
      r := out;
    }

    /** `clearCache`. */
    method ClearCache()
      modifies cache`entries
      ensures cache.Size() == 0
    {
      cache.Clear();
    }

    /** `getCacheStats`: the current size and the seven-day timeout. */
    function GetCacheStats(): (r: (nat, int))
      reads this, cache
      ensures r.0 == |cache.entries| && r.1 == cache.timeout
    {
      (cache.Size(), cache.timeout)
    }
  }

  /** A code just generated at `now` is what the next request at the same instant gets back,
      without a rendering: the write made for it survives its own sweep. */
  lemma GeneratedCodeIsCached(m: map<string, Entry<string>>, uniqueId: string, baseUrl: string,
                              code: string, now: int)
    ensures Read(AfterWrite(m, CacheKey(uniqueId, baseUrl), code, now, QR_CACHE_TIMEOUT, QR_SWEEP_THRESHOLD),
                 CacheKey(uniqueId, baseUrl), now, QR_CACHE_TIMEOUT) == Some(code)
  {
    ReadAfterWrite(m, CacheKey(uniqueId, baseUrl), code, now, QR_CACHE_TIMEOUT, QR_SWEEP_THRESHOLD);
  }
}
