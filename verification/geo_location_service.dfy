/** The IP geolocation service: a lookup at ipwho.is, cached for a day per address, falling back
    to an all-"unknown" record whenever the lookup does not yield usable data. */
module GeoLocation {
  import opened Js
  import opened TtlCache

  const GEO_CACHE_TIMEOUT := 24 * 60 * 60 * 1000
  const GEO_SWEEP_THRESHOLD := 1000
  const IP_LOOKUP_URL := "https://ipwho.is/"

  /** The record attached to a view; the coordinates are whatever the lookup sent, or `null`. */
  datatype IpInfo = IpInfo(country: Value, city: Value, region: Value, latitude: Value,
                           longitude: Value, timezone: Value, isp: Value)

  /** What the HTTP lookup produced: no response at all (network failure or timeout), or a
      response with its `ok` flag and its body, `None` when the body is not JSON. */
  datatype Fetched = NetworkFailure | Received(ok: bool, json: Option<Value>)

  /** `getDefaultIpInfo`. */
  function DefaultIpInfo(): (r: IpInfo)
    ensures r.country == r.city == r.region == r.timezone == r.isp == Str("unknown")
    ensures r.latitude == Null && r.longitude == Null
  {
    IpInfo(Str("unknown"), Str("unknown"), Str("unknown"), Null, Null, Str("unknown"), Str("unknown"))
  }

  /** The record as the JSON object stored in a view's `location`. */
  function IpInfoValue(info: IpInfo): (r: Value)
    ensures r.Obj? && Keys(r.fields) == ["country", "city", "region", "coordinates", "timezone", "isp"]
    ensures Get(r, "country") == info.country
  {
    Obj([Field("country", info.country), Field("city", info.city), Field("region", info.region),
         Field("coordinates", Obj([Field("latitude", info.latitude), Field("longitude", info.longitude)])),
         Field("timezone", info.timezone), Field("isp", info.isp)])
  }

  /** `v?.k`: undefined on `null` and `undefined`, the property otherwise. */
  function OptionalGet(v: Value, k: string): Value {
    if v.Undefined? || v.Null? then Undefined else Get(v, k)
  }

  /** The record built from a successful lookup's data. */
  function InfoFrom(data: Value): IpInfo {
    IpInfo(
      Or(Get(data, "country"), Str("unknown")),
      Or(Get(data, "city"), Str("unknown")),
      Or(Get(data, "region"), Str("unknown")),
      Or(Get(data, "latitude"), Null),
      Or(Get(data, "longitude"), Null),
      Or(OptionalGet(Get(data, "timezone"), "id"), Str("unknown")),
      Or(OptionalGet(Get(data, "connection"), "isp"), Str("unknown")))
  }

  /** The text fields of a record are never empty or missing: each is the looked-up value when
      that is truthy and "unknown" otherwise. */
  predicate TextFieldsPresent(info: IpInfo) {
    Truthy(info.country) && Truthy(info.city) && Truthy(info.region)
    && Truthy(info.timezone) && Truthy(info.isp)
  }

  /** How a lookup turns into a record: `Some` only for an ok response whose JSON body has a
      truthy `success`; every failure, including a `null` body whose `success` cannot be read,
      is `None`. */
  function Interpret(f: Fetched): (r: Option<IpInfo>)
    ensures r.Some? <==> f.Received? && f.ok && f.json.Some? && !f.json.value.Null?
                         && Truthy(Get(f.json.value, "success"))
    ensures r.Some? ==> r.value == InfoFrom(f.json.value) && TextFieldsPresent(r.value)
  {
    match f
    case NetworkFailure => None
    case Received(ok, json) =>
      if !ok then None
      else if json.None? then None
      else if json.value.Null? then None
      else if Truthy(Get(json.value, "success")) then Some(InfoFrom(json.value))
      else None
  }

  class GeoLocationService {
    const cache: Cache<IpInfo>

    constructor ()
      ensures fresh(cache) && cache.entries == map[]
      ensures cache.timeout == GEO_CACHE_TIMEOUT && cache.threshold == GEO_SWEEP_THRESHOLD
    {
      cache := new Cache(GEO_CACHE_TIMEOUT, GEO_SWEEP_THRESHOLD);
    }

    /** `getIpInfo(ip)`: a cache hit is returned without a lookup; otherwise the address is
        looked up at `lookup`'s answer, a usable answer is cached and returned, and anything else
        returns the default record without caching. It never fails. `requested` is the URL
        fetched, if any. */
    method GetIpInfo(ip: string, now: int, lookup: Fetched) returns (info: IpInfo, requested: Option<string>)
      modifies cache`entries
      ensures var hit := Read(old(cache.entries), ip, now, cache.timeout);
        && (hit.Some? ==> info == hit.value && requested == None && cache.entries == old(cache.entries))
        && (hit.None? ==> requested == Some(IP_LOOKUP_URL + ip))
        && (hit.None? && Interpret(lookup).Some? ==>
              info == Interpret(lookup).value
              && cache.entries == AfterWrite(old(cache.entries) - {ip}, ip, info, now,
                                             cache.timeout, cache.threshold))
        && (hit.None? && Interpret(lookup).None? ==>
              info == DefaultIpInfo() && cache.entries == old(cache.entries) - {ip})
    {
      var cached := cache.Get(ip, now);
      if cached.Some? {
        return cached.value, None;
      }
      requested := Some(IP_LOOKUP_URL + ip);
      var parsed := Interpret(lookup);
      if parsed.Some? {
        info := parsed.value;
        cache.Set(ip, info, now);
      } else {
        info := DefaultIpInfo();
      }
    }

    /** `getDefaultIpInfo`. */
    function GetDefaultIpInfo(): IpInfo {
      DefaultIpInfo()
    }

    /** `clearCache`. */
    method ClearCache()
      modifies cache`entries
      ensures cache.Size() == 0
    {
      cache.Clear();
    }

    /** `getCacheStats`: the current size and the one-day timeout. */
    function GetCacheStats(): (r: (nat, int))
      reads this, cache
      ensures r.1 == cache.timeout
      ensures r.0 == |cache.entries|
    {
      (cache.Size(), cache.timeout)
    }
  }
}
