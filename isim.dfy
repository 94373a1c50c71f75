/**
 * The ISIM proxy routes of the server: the upstream address each one asks,
 * the critical-asset filter, the first-or-404 lookup of one address, and the
 * `/enrich` join of requested addresses with the asset list.
 *
 * The upstream request itself (and its abort timer) is not modelled: each
 * route receives what the upstream answered, or the error the request threw.
 */
module Isim {
  import opened Wrappers
  import opened Text

  /** An ISIM asset: its address, its `critical` field when that is a number, and the rest of its record. */
  datatype Asset = Asset(ip: string, critical: Option<int>, details: string)

  /** What the upstream request gave: a thrown error, or a status with a JSON body (`None` when it is not an array). */
  datatype Upstream = Threw(message: string) | Answered(status: int, data: Option<seq<Asset>>)

  /** `response.ok`. */
  predicate Ok(status: int) {
    200 <= status <= 299
  }

  const RequestFailed: string := "ISIM request failed"
  const InvalidRequest: string := "Invalid request"
  const IpsRequired: string := "Request body must contain \"ips\" array"
  const AssetNotFound: string := "Asset not found"
  const FetchFailed: string := "Failed to fetch from ISIM"
  const CriticalFailed: string := "Failed to fetch critical assets from ISIM"
  const AssetFailed: string := "Failed to fetch asset from ISIM"
  const EnrichFailed: string := "Failed to enrich IPs with ISIM data"

  datatype Reply =
    | BadRequest(error: string, message: string)
    | UpstreamError(status: int, error: string)
    | ServerError(error: string, reason: Option<string>)
    | AssetList(data: Option<seq<Asset>>)
    | CriticalAssets(total: nat, critical: nat, assets: seq<Asset>)
    | NotFound(error: string, ip: string)
    | OneAsset(asset: Asset)
    | Enriched(total: nat, found: nat, enriched: map<string, Option<Asset>>)

  function StatusCode(r: Reply): int {
    match r
    case BadRequest(_, _) => 400
    case UpstreamError(status, _) => status
    case ServerError(_, _) => 500
    case NotFound(_, _) => 404
    case _ => 200
  }

  /** A thrown request is a 500 naming the route's failure; a non-OK status is passed through. */
  function Failure(u: Upstream, error: string): Reply
    requires !(u.Answered? && Ok(u.status))
  {
    if u.Threw? then ServerError(error, Some(u.message)) else UpstreamError(u.status, RequestFailed)
  }

  // ---------------------------------------------------------------------------
  // encodeURIComponent

  /** The characters `encodeURIComponent` leaves as they are. */
  predicate Unreserved(c: char) {
    ('A' <= c <= 'Z') || ('a' <= c <= 'z') || ('0' <= c <= '9')
    || c == '-' || c == '_' || c == '.' || c == '!' || c == '~' || c == '*' || c == '\'' || c == '(' || c == ')'
  }

  function HexDigit(d: nat): char
    requires d < 16
  {
    if d < 10 then ('0' as int + d) as char else ('A' as int + d - 10) as char
  }

  function HexValue(c: char): nat {
    if '0' <= c <= '9' then c as int - '0' as int
    else if 'A' <= c <= 'F' then c as int - 'A' as int + 10
    else if 'a' <= c <= 'f' then c as int - 'a' as int + 10
    else 0
  }

  /** `encodeURIComponent` on ASCII text: every reserved character becomes `%` and two upper-case hex digits. */
  function Encode(s: string): string {
    if s == [] then []
    else
      var c := s[0];
      (if Unreserved(c) || c as int >= 128 then [c] else ['%', HexDigit(c as int / 16), HexDigit(c as int % 16)])
      + Encode(s[1..])
  }

  /** Percent-decoding, the server side of `encodeURIComponent`. */
  function Decode(s: string): string {
    if s == [] then []
    else if s[0] == '%' && |s| >= 3 then [(HexValue(s[1]) * 16 + HexValue(s[2])) as char] + Decode(s[3..])
    else [s[0]] + Decode(s[1..])
  }

  /** Decoding an encoded component gives it back. */
  lemma {:induction false} DecodeEncode(s: string)
    ensures Decode(Encode(s)) == s
  {
    if s != [] {
      var c := s[0];
      DecodeEncode(s[1..]);
      if Unreserved(c) || c as int >= 128 {
        assert Encode(s) == [c] + Encode(s[1..]);
      } else {
        var e := ['%', HexDigit(c as int / 16), HexDigit(c as int % 16)];
        assert Encode(s) == e + Encode(s[1..]);
        assert (e + Encode(s[1..]))[3..] == Encode(s[1..]);
      }
    }
  }

  /** A dotted address is made of unreserved characters, so encoding leaves it as it is. */
  lemma {:induction false} EncodeUnreserved(s: string)
    requires forall c :: c in s ==> Unreserved(c)
    ensures Encode(s) == s
  {
    if s != [] {
      assert s[0] in s;
      EncodeUnreserved(s[1..]);
    }
  }

  /** An encoded component holds no `&`, so it cannot start another query parameter. */
  lemma {:induction false} EncodeHasNoAmpersand(s: string)
    ensures '&' !in Encode(s)
  {
    if s != [] {
      var c := s[0];
      EncodeHasNoAmpersand(s[1..]);
      if Unreserved(c) || c as int >= 128 {
        assert Encode(s) == [c] + Encode(s[1..]);
      } else {
        assert Encode(s) == ['%', HexDigit(c as int / 16), HexDigit(c as int % 16)] + Encode(s[1..]);
      }
    }
  }

  /** The numbers the fixed `limit` texts stand for. */
  lemma LimitValues()
    ensures ParseInt(CriticalLimit) == Some(1000)
    ensures ParseInt(EnrichLimit) == Some(10000)
  {
    var e := EnrichLimit;
    assert AllDigits(e);
    assert e[..4] == CriticalLimit && e[..3] == "100" && e[..2] == "10" && e[..1] == "1";
    assert CriticalLimit[..3] == "100" && "100"[..2] == "10" && "10"[..1] == "1" && "1"[..0] == [];
    assert DigitsValue("1") == 1;
    assert DigitsValue("10") == 10;
    assert DigitsValue("100") == 100;
    assert DigitsValue(CriticalLimit) == 1000;
    assert DigitsValue(e) == 10000;
    ParseIntOfDigits(CriticalLimit, []);
    ParseIntOfDigits(e, []);
    assert CriticalLimit + [] == CriticalLimit && e + [] == e;
  }

  // ---------------------------------------------------------------------------
  // GET /asset_info

  const AssetInfo: string := "/asset_info"
  const LimitParam: string := "?limit="
  const OffsetParam: string := "&offset="
  const IpParam: string := "&ip="
  const IpOnlyParam: string := "?ip="
  const DefaultLimit: string := "50"
  const DefaultOffset: string := "0"
  const CriticalLimit: string := "1000"

  /** The upstream address of `/asset_info`: `limit` 50 and `offset` 0 unless given, `&ip=` only for a non-empty address. */
  function AssetInfoUrl(isimUrl: string, limit: Option<string>, offset: Option<string>, ip: Option<string>): (url: string)
  {
    var base := isimUrl + AssetInfo + LimitParam + limit.GetOr(DefaultLimit) + OffsetParam + offset.GetOr(DefaultOffset);
    if ip.Some? && ip.value != "" then base + IpParam + Encode(ip.value) else base
  }

  /**
   * The address filter is appended exactly when an address is given, and
   * the address can be read back from it.
   */
  lemma AssetInfoUrlIp(isimUrl: string, limit: Option<string>, offset: Option<string>, ip: Option<string>)
    ensures var url := AssetInfoUrl(isimUrl, limit, offset, ip);
      var base := isimUrl + AssetInfo + LimitParam + limit.GetOr(DefaultLimit) + OffsetParam + offset.GetOr(DefaultOffset);
      && StartsWith(url, base)
      && (ip.Some? && ip.value != "" <==> |url| > |base|)
      && (|url| > |base| ==> url[|base|..|base| + |IpParam|] == IpParam && Decode(url[|base| + |IpParam|..]) == ip.value)
  {
    var url := AssetInfoUrl(isimUrl, limit, offset, ip);
    var base := isimUrl + AssetInfo + LimitParam + limit.GetOr(DefaultLimit) + OffsetParam + offset.GetOr(DefaultOffset);
    if ip.Some? && ip.value != "" {
      assert url == base + IpParam + Encode(ip.value);
      assert url[|base| + |IpParam|..] == Encode(ip.value);
      DecodeEncode(ip.value);
    } else {
      assert url == base;
    }
  }

  /** `/asset_info`: the upstream's array is passed on, a failure reported. */
  function AssetInfoReply(u: Upstream): (r: Reply)
    ensures u.Answered? && Ok(u.status) <==> r.AssetList?
    ensures r.AssetList? ==> r.data == u.data
    ensures u.Threw? ==> StatusCode(r) == 500
    ensures u.Answered? && !Ok(u.status) ==> StatusCode(r) == u.status
  {
    if u.Answered? && Ok(u.status) then AssetList(u.data) else Failure(u, FetchFailed)
  }

  // ---------------------------------------------------------------------------
  // GET /assets/critical

  /** `/assets/critical` asks only for a `limit`: the one given, else 1000 assets. */
  function CriticalUrl(isimUrl: string, limit: Option<string>): (url: string)
    ensures StartsWith(url, isimUrl + AssetInfo + LimitParam)
    ensures limit.Some? ==> url[|isimUrl + AssetInfo + LimitParam|..] == limit.value
    ensures limit.None? ==> ParseInt(url[|isimUrl + AssetInfo + LimitParam|..]) == Some(1000)
  {
    LimitValues();
    var prefix := isimUrl + AssetInfo + LimitParam;
    assert (prefix + limit.GetOr(CriticalLimit))[|prefix|..] == limit.GetOr(CriticalLimit);
    prefix + limit.GetOr(CriticalLimit)
  }

  /** `asset.critical === 1`. */
  predicate IsCritical(a: Asset) {
    a.critical == Some(1)
  }

  /** `data.filter(asset => asset.critical === 1)`. */
  function CriticalOnly(data: seq<Asset>): (r: seq<Asset>)
    ensures |r| <= |data|
  {
    if data == [] then []
    else (if IsCritical(data[0]) then [data[0]] else []) + CriticalOnly(data[1..])
  }

  /** The filter keeps exactly the critical assets, each as often as it occurs. */
  lemma {:induction false} CriticalOnlyKeeps(data: seq<Asset>)
    ensures forall a :: a in CriticalOnly(data) <==> a in data && IsCritical(a)
    ensures forall a :: IsCritical(a) ==> multiset(CriticalOnly(data))[a] == multiset(data)[a]
    ensures forall a :: !IsCritical(a) ==> multiset(CriticalOnly(data))[a] == 0
  {
    if data != [] {
      CriticalOnlyKeeps(data[1..]);
      assert data == [data[0]] + data[1..];
    }
  }

  /**
   * `/assets/critical`: the number of assets, the number of critical ones and
   * the critical ones; a body that is not an array makes the filter throw.
   */
  function CriticalReply(u: Upstream): (r: Reply)
    ensures r.CriticalAssets? ==> r.critical == |r.assets| <= r.total
  {
    if !(u.Answered? && Ok(u.status)) then Failure(u, CriticalFailed)
    else if u.data.None? then ServerError(CriticalFailed, None)
    else
      var critical := CriticalOnly(u.data.value);
      CriticalAssets(|u.data.value|, |critical|, critical)
  }

  /** A successful answer reports every asset in its total and lists exactly the critical ones. */
  lemma CriticalReplyLists(u: Upstream)
    requires u.Answered? && Ok(u.status) && u.data.Some?
    ensures var r := CriticalReply(u);
      && r.CriticalAssets?
      && r.total == |u.data.value|
      && (forall a :: a in r.assets <==> a in u.data.value && IsCritical(a))
  {
    CriticalOnlyKeeps(u.data.value);
  }

  // ---------------------------------------------------------------------------
  // GET /assets/:ip

  /** `/assets/:ip` asks for the address alone: its query is one encoded component that decodes back to it. */
  function AssetUrl(isimUrl: string, ip: string): (url: string)
    ensures StartsWith(url, isimUrl + AssetInfo + IpOnlyParam)
    ensures Decode(url[|isimUrl + AssetInfo + IpOnlyParam|..]) == ip
    ensures '&' !in url[|isimUrl + AssetInfo + IpOnlyParam|..]
  {
    DecodeEncode(ip);
    EncodeHasNoAmpersand(ip);
    var prefix := isimUrl + AssetInfo + IpOnlyParam;
    assert (prefix + Encode(ip))[|prefix|..] == Encode(ip);
    prefix + Encode(ip)
  }

  /** `/assets/:ip`: 404 naming the address when the upstream has nothing, else its first asset. */
  function AssetReply(ip: string, u: Upstream): (r: Reply)
    ensures r.OneAsset? <==> u.Answered? && Ok(u.status) && u.data.Some? && u.data.value != []
    ensures r.OneAsset? ==> r.asset == u.data.value[0]
    ensures r.NotFound? <==> u.Answered? && Ok(u.status) && (u.data.None? || u.data.value == [])
    ensures r.NotFound? ==> r.ip == ip && StatusCode(r) == 404
  {
    if !(u.Answered? && Ok(u.status)) then Failure(u, AssetFailed)
    else if u.data.None? || |u.data.value| == 0 then NotFound(AssetNotFound, ip)
    else OneAsset(u.data.value[0])
  }

  // ---------------------------------------------------------------------------
  // POST /enrich

  const EnrichLimit: string := "10000"

  /** `/enrich` fetches one batch of up to 10000 assets. */
  function EnrichUrl(isimUrl: string): (url: string)
    ensures StartsWith(url, isimUrl + AssetInfo + LimitParam)
    ensures ParseInt(url[|isimUrl + AssetInfo + LimitParam|..]) == Some(10000)
  {
    LimitValues();
    var prefix := isimUrl + AssetInfo + LimitParam;
    assert (prefix + EnrichLimit)[|prefix|..] == EnrichLimit;
    prefix + EnrichLimit
  }

  /** The lookup object: each asset stored under its address, a later one replacing an earlier one. */
  function AssetMap(assets: seq<Asset>): (m: map<string, Asset>)
    ensures forall ip :: ip in m ==> m[ip].ip == ip
  {
    if assets == [] then map[]
    else
      var last := assets[|assets| - 1];
      AssetMap(assets[..|assets| - 1])[last.ip := last]
  }

  /** The `forEach` that builds the lookup object. */
  method BuildAssetMap(allAssets: seq<Asset>) returns (assetMap: map<string, Asset>)
    ensures assetMap == AssetMap(allAssets)
  {
    assetMap := map[];
    var i := 0;
    while i < |allAssets|
      invariant 0 <= i <= |allAssets|
      invariant assetMap == AssetMap(allAssets[..i])
    {
      assert allAssets[..i + 1][..i] == allAssets[..i];
      assetMap := assetMap[allAssets[i].ip := allAssets[i]];
      i := i + 1;
    }
    assert allAssets[..i] == allAssets;
  }

  predicate HasAsset(assets: seq<Asset>, ip: string) {
    exists i :: 0 <= i < |assets| && assets[i].ip == ip
  }

  /**
   * An address is in the lookup object exactly when some asset has it, and
   * it maps to the last asset that has it.
   */
  lemma {:induction false} AssetMapLastWins(assets: seq<Asset>)
    ensures var m := AssetMap(assets);
      && (forall ip :: ip in m <==> HasAsset(assets, ip))
      && (forall ip :: ip in m ==> exists i :: (0 <= i < |assets| && assets[i] == m[ip] && assets[i].ip == ip
            && forall j :: i < j < |assets| ==> assets[j].ip != ip))
  {
    AssetMapKeys(assets);
    AssetMapLast(assets);
  }

  lemma {:induction false} AssetMapKeys(assets: seq<Asset>)
    ensures forall ip :: ip in AssetMap(assets) <==> HasAsset(assets, ip)
  {
    if assets != [] {
      var prefix := assets[..|assets| - 1];
      AssetMapKeys(prefix);
      forall ip | HasAsset(assets, ip) ensures ip in AssetMap(assets) {
        var i :| 0 <= i < |assets| && assets[i].ip == ip;
        if i < |prefix| {
          assert prefix[i].ip == ip;
          assert HasAsset(prefix, ip);
        }
      }
      forall ip | HasAsset(prefix, ip) ensures HasAsset(assets, ip) {
        var i :| 0 <= i < |prefix| && prefix[i].ip == ip;
        assert assets[i].ip == ip;
      }
    }
  }

  lemma {:induction false} AssetMapLast(assets: seq<Asset>)
    ensures var m := AssetMap(assets);
      forall ip :: ip in m ==> exists i :: (0 <= i < |assets| && assets[i] == m[ip] && assets[i].ip == ip
        && forall j :: i < j < |assets| ==> assets[j].ip != ip)
  {
    if assets != [] {
      var prefix := assets[..|assets| - 1];
      var last := assets[|assets| - 1];
      AssetMapLast(prefix);
      var m := AssetMap(assets);
      forall ip | ip in m
        ensures exists i :: (0 <= i < |assets| && assets[i] == m[ip] && assets[i].ip == ip
          && forall j :: i < j < |assets| ==> assets[j].ip != ip)
      {
        if ip == last.ip {
          assert assets[|assets| - 1] == m[ip];
        } else {
          assert ip in AssetMap(prefix);
          var i :| 0 <= i < |prefix| && prefix[i] == AssetMap(prefix)[ip] && prefix[i].ip == ip
            && forall j :: i < j < |prefix| ==> prefix[j].ip != ip;
          assert forall j :: i < j < |prefix| ==> assets[j] == prefix[j];
          assert assets[i] == m[ip];
        }
      }
    }
  }

  /** The `enriched` object: each requested address mapped to its asset, or null. */
  function EnrichedMap(ips: seq<string>, assetMap: map<string, Asset>): map<string, Option<Asset>> {
    if ips == [] then map[]
    else
      var ip := ips[|ips| - 1];
      EnrichedMap(ips[..|ips| - 1], assetMap)[ip := if ip in assetMap then Some(assetMap[ip]) else None]
  }

  /** The `forEach` over the requested addresses. */
  method EnrichAddresses(ips: seq<string>, assetMap: map<string, Asset>) returns (enriched: map<string, Option<Asset>>)
    ensures enriched == EnrichedMap(ips, assetMap)
  {
    enriched := map[];
    var i := 0;
    while i < |ips|
      invariant 0 <= i <= |ips|
      invariant enriched == EnrichedMap(ips[..i], assetMap)
    {
      assert ips[..i + 1][..i] == ips[..i];
      enriched := enriched[ips[i] := if ips[i] in assetMap then Some(assetMap[ips[i]]) else None];
      i := i + 1;
    }
    assert ips[..i] == ips;
  }

  /** The keys of the enriched object are the requested addresses, each mapped by the lookup object. */
  lemma {:induction false} EnrichedKeys(ips: seq<string>, assetMap: map<string, Asset>)
    ensures var e := EnrichedMap(ips, assetMap);
      && e.Keys == set ip | ip in ips
      && (forall ip :: ip in e ==> e[ip] == if ip in assetMap then Some(assetMap[ip]) else None)
  {
    if ips != [] {
      EnrichedKeys(ips[..|ips| - 1], assetMap);
      assert ips == ips[..|ips| - 1] + [ips[|ips| - 1]];
    }
  }

  /** `Object.values(enriched).filter(v => v !== null).length`. */
  function Found(e: map<string, Option<Asset>>): nat {
    |set ip | ip in e && e[ip].Some?|
  }

  /**
   * `/enrich`: 400 unless the body has an `ips` array; otherwise every
   * requested address with its asset or null, `total` counting the request's
   * entries and `found` the addresses that have an asset.
   */
  function EnrichReply(ips: Option<seq<string>>, u: Upstream): Reply {
    if ips.None? then BadRequest(InvalidRequest, IpsRequired)
    else if !(u.Answered? && Ok(u.status)) then Failure(u, EnrichFailed)
    else if u.data.None? then ServerError(EnrichFailed, None)
    else
      var e := EnrichedMap(ips.value, AssetMap(u.data.value));
      Enriched(|ips.value|, Found(e), e)
  }

  /** The route as the server runs it: the two `forEach` passes, then the counts. */
  method PostEnrich(ips: Option<seq<string>>, u: Upstream) returns (r: Reply)
    ensures r == EnrichReply(ips, u)
  {
    if ips.None? {
      return BadRequest(InvalidRequest, IpsRequired);
    }
    if !(u.Answered? && Ok(u.status)) {
      return Failure(u, EnrichFailed);
    }
    if u.data.None? {
      return ServerError(EnrichFailed, None);
    }
    var assetMap := BuildAssetMap(u.data.value);
    var enriched := EnrichAddresses(ips.value, assetMap);
    r := Enriched(|ips.value|, Found(enriched), enriched);
  }

  /**
   * A missing `ips` is refused with 400 before the upstream is asked; an
   * answer maps each requested address to the last asset with that address,
   * or to null when there is none, `total` counts the request with its
   * duplicates, and `found` never exceeds the distinct addresses requested.
   */
  lemma EnrichJoins(ips: Option<seq<string>>, u: Upstream)
    ensures ips.None? ==> StatusCode(EnrichReply(ips, u)) == 400
    ensures var r := EnrichReply(ips, u);
      r.Enriched? ==>
        && r.total == |ips.value|
        && r.enriched.Keys == (set ip | ip in ips.value)
        && r.found == |set ip | ip in ips.value && HasAsset(u.data.value, ip)|
        && r.found <= |set ip | ip in ips.value|
        && (forall ip :: ip in r.enriched ==>
              (r.enriched[ip].Some? <==> HasAsset(u.data.value, ip))
              && (r.enriched[ip].Some? ==> r.enriched[ip].value.ip == ip))
  {
    var r := EnrichReply(ips, u);
    if r.Enriched? {
      var assets := u.data.value;
      var m := AssetMap(assets);
      AssetMapLastWins(assets);
      EnrichedKeys(ips.value, m);
      EnrichedCount(ips.value, assets, m, r.enriched);
    }
  }

  lemma EnrichedCount(ips: seq<string>, assets: seq<Asset>, m: map<string, Asset>, e: map<string, Option<Asset>>)
    requires forall ip :: ip in m <==> HasAsset(assets, ip)
    requires forall ip :: ip in m ==> m[ip].ip == ip
    requires e.Keys == set ip | ip in ips
    requires forall ip :: ip in e ==> e[ip] == if ip in m then Some(m[ip]) else None
    ensures Found(e) == |set ip | ip in ips && HasAsset(assets, ip)|
    ensures Found(e) <= |set ip | ip in ips|
    ensures forall ip :: ip in e ==> (e[ip].Some? <==> HasAsset(assets, ip)) && (e[ip].Some? ==> e[ip].value.ip == ip)
  {
    assert (set ip | ip in e && e[ip].Some?) == (set ip | ip in ips && HasAsset(assets, ip));
    SubsetSize(set ip | ip in ips && HasAsset(assets, ip), set ip | ip in ips);
  }

  lemma {:induction false} SubsetSize<T>(a: set<T>, b: set<T>)
    requires a <= b
    ensures |a| <= |b|
  {
    if a != {} {
      var x :| x in a;
      SubsetSize(a - {x}, b - {x});
    }
  }
}
