/**
 * API Gateway endpoints: matching REST APIs to deployables, building their
 * invoke URLs, and the health check with its public-URL fallback.
 */
module ApiGateway {
  import opened Wrappers
  import opened PyText
  import opened Seqs
  import opened Health
  import Ec2Targets

  /** A REST API as listed by the gateway, with the names of its stages. */
  datatype RestApi = RestApi(id: string, name: string, stages: seq<string>)

  /** One endpoint record; `health` is the `status`/`message` pair once checked. */
  datatype Endpoint = Endpoint(deployableName: string, url: string, api: RestApi, health: Option<ProbeResult>)

  const DefaultStage := "main"

  /** `stage_name or 'main'`. */
  function StageOrDefault(stageName: Option<string>): string
  {
    if Truthy(stageName) then stageName.value else DefaultStage
  }

  /** `'{}-{}'.format(tier_name, deployable_name)`. */
  function ApiName(tier: string, d: string): string
  {
    tier + "-" + d
  }

  function EndpointUrl(id: string, region: string, stage: string): string
  {
    "https://" + id + ".execute-api." + region + ".amazonaws.com/" + stage
  }

  /** `api_names.get(name)`: the deployable whose API name is `apiName`, if any. */
  function MatchDeployable(tier: string, names: seq<string>, apiName: string): (r: Option<string>)
    ensures forall d :: d in names ==> (ApiName(tier, d) == apiName <==> r == Some(d))
    ensures r.Some? ==> r.value in names
  {
    var prefix := tier + "-";
    if |prefix| <= |apiName| && apiName[..|prefix|] == prefix && apiName[|prefix|..] in names then
      assert apiName == prefix + apiName[|prefix|..];
      Some(apiName[|prefix|..])
    else
      None
  }

  /** An API the router wants: named after one of the deployables and carrying the stage. */
  predicate Wanted(tier: string, names: seq<string>, stage: string, api: RestApi)
  {
    stage in api.stages && exists d :: d in names && ApiName(tier, d) == api.name
  }

  function ApisOf(eps: seq<Endpoint>): (r: seq<RestApi>)
    ensures |r| == |eps| && forall i :: 0 <= i < |eps| ==> r[i] == eps[i].api
  {
    seq(|eps|, i requires 0 <= i < |eps| => eps[i].api)
  }

  /**
   * The loop of `get_api_endpoints` for a fixed stage: an endpoint for
   * exactly the wanted APIs, in listing order, each naming its deployable
   * and the stage's invoke URL.
   */
  function Endpoints(region: string, tier: string, names: seq<string>, stage: string, apis: seq<RestApi>): (r: seq<Endpoint>)
    ensures forall e :: e in r ==>
      && e.api in apis
      && e.deployableName in names
      && ApiName(tier, e.deployableName) == e.api.name
      && stage in e.api.stages
      && e.url == EndpointUrl(e.api.id, region, stage)
      && e.health.None?
    ensures forall api :: api in apis ==> (Wanted(tier, names, stage, api) <==> exists e :: e in r && e.api == api)
    ensures IsSubsequence(ApisOf(r), apis)
    decreases |apis|
  {
    if |apis| == 0 then []
    else
      var api := apis[0];
      var rest := Endpoints(region, tier, names, stage, apis[1..]);
      assert apis == [api] + apis[1..];
      match MatchDeployable(tier, names, api.name)
      case None => rest
      case Some(d) =>
        if stage in api.stages then
          var r := [Endpoint(d, EndpointUrl(api.id, region, stage), api, None)] + rest;
          assert r[1..] == rest;
          assert ApisOf(r)[1..] == ApisOf(rest);
          r
        else
          rest
  }

  /** `get_api_endpoints`; the stage defaults to 'main'. */
  function GetApiEndpoints(region: string, tier: string, names: seq<string>, stageName: Option<string>, apis: seq<RestApi>)
    : (r: seq<Endpoint>)
    ensures forall api :: api in apis ==>
      (Wanted(tier, names, StageOrDefault(stageName), api) <==> exists e :: e in r && e.api == api)
    ensures !Truthy(stageName) ==> forall e :: e in r ==> DefaultStage in e.api.stages && e.url == EndpointUrl(e.api.id, region, DefaultStage)
  {
    Endpoints(region, tier, names, StageOrDefault(stageName), apis)
  }

  /** What an HTTP GET does: a response, or an exception with its text. */
  datatype HttpOutcome = Response(code: int, text: string) | Raised(error: string)

  /** Whether a host name resolves. */
  type Resolver = string -> bool

  /** A GET of a URL, optionally with a `Host` header override. */
  type HttpGet = (string, Option<string>) -> HttpOutcome

  const DnsFailureMessage := "DNS lookup failed"

  /** The message the public-URL fallback looks for. */
  const DnsSentinel := "DNSLookupError"

  predicate IsHostDelimiter(c: char)
  {
    c == '/' || c == ':' || c == '?' || c == '#'
  }

  /** Where the network location starts: just after the first "://". */
  function AfterScheme(url: string, i: nat): Option<nat>
    decreases |url| - i
  {
    if i + 3 > |url| then None
    else if url[i..i + 3] == "://" then Some(i + 3)
    else AfterScheme(url, i + 1)
  }

  function TakeHost(s: string): (r: string)
    ensures forall i :: 0 <= i < |r| ==> !IsHostDelimiter(r[i])
    decreases |s|
  {
    if |s| == 0 || IsHostDelimiter(s[0]) then "" else [s[0]] + TakeHost(s[1..])
  }

  /** `urlparse(url).hostname`, for URLs of the shape scheme://host[:port][/path]. */
  function HostOf(url: string): string
  {
    match AfterScheme(url, 0)
    case None => ""
    case Some(start) => if start <= |url| then TakeHost(url[start..]) else ""
  }

  /**
   * `_check_url` with DNS and HTTP supplied: a host that does not resolve
   * fails at once with 'DNS lookup failed', without a request; otherwise
   * the response's code and body, or 'error' and the exception's text.
   * Nothing is raised past it.
   */
  function CheckUrl(url: string, host: Option<string>, resolves: Resolver, get: HttpGet): (r: ProbeResult)
    ensures !resolves(HostOf(url)) ==> r == ProbeResult(Error, DnsFailureMessage)
    ensures r.status.Code? ==> resolves(HostOf(url)) && get(url, host) == Response(r.status.code, r.message)
    ensures r.status == Error && resolves(HostOf(url)) ==> get(url, host) == Raised(r.message)
  {
    if !resolves(HostOf(url)) then ProbeResult(Error, DnsFailureMessage)
    else
      match get(url, host)
      case Response(code, text) => ProbeResult(Code(code), text)
      case Raised(e) => ProbeResult(Error, e)
  }

  /** `_do_api_gw_health_check` as written: the retry tests for 'DNSLookupError'. */
  function DoApiGwHealthCheck(url: string, publicUrl: Option<string>, resolves: Resolver, get: HttpGet): (r: ProbeResult)
    ensures !Truthy(publicUrl) ==> r == CheckUrl(url, None, resolves, get)
  {
    var first := CheckUrl(url, None, resolves, get);
    if first.message == DnsSentinel && Truthy(publicUrl) then
      CheckUrl(publicUrl.value, Some(HostOf(url)), resolves, get)
    else
      first
  }

  /**
   * The fallback never fires on a DNS failure: the first check then reports
   * 'DNS lookup failed', not the sentinel, so the public URL is never tried,
   * whatever it is.
   */
  lemma DnsFailureNeverRetried(url: string, publicUrl: Option<string>, resolves: Resolver, get: HttpGet)
    requires !resolves(HostOf(url))
    ensures DoApiGwHealthCheck(url, publicUrl, resolves, get) == ProbeResult(Error, DnsFailureMessage)
  {
    assert DnsFailureMessage != DnsSentinel by {
      assert DnsFailureMessage[3] != DnsSentinel[3];
    }
  }

  /** The only way the as-written retry fires: the host resolves and the GET itself produced the sentinel text. */
  lemma RetryNeedsSentinelText(url: string, publicUrl: Option<string>, resolves: Resolver, get: HttpGet)
    requires DoApiGwHealthCheck(url, publicUrl, resolves, get) != CheckUrl(url, None, resolves, get)
    ensures resolves(HostOf(url)) && Truthy(publicUrl)
    ensures match get(url, None)
      case Response(_, text) => text == DnsSentinel
      case Raised(e) => e == DnsSentinel
  {
    if !resolves(HostOf(url)) {
      DnsFailureNeverRetried(url, publicUrl, resolves, get);
    }
  }

  /**
   * The health check as intended: a DNS failure of the private URL is
   * retried once against the public URL, with the private host name in the
   * `Host` header.
   */
  function ApiGwHealthCheck(url: string, publicUrl: Option<string>, resolves: Resolver, get: HttpGet): (r: ProbeResult)
    ensures !resolves(HostOf(url)) && Truthy(publicUrl) ==>
      r == CheckUrl(publicUrl.value, Some(HostOf(url)), resolves, get)
    ensures !Truthy(publicUrl) ==> r == CheckUrl(url, None, resolves, get)
    ensures resolves(HostOf(url)) && get(url, None) != Raised(DnsFailureMessage) ==> r == CheckUrl(url, None, resolves, get)
  {
    var first := CheckUrl(url, None, resolves, get);
    if first == ProbeResult(Error, DnsFailureMessage) && Truthy(publicUrl) then
      CheckUrl(publicUrl.value, Some(HostOf(url)), resolves, get)
    else
      first
  }

  /**
   * The `check_health` loop of `get_endpoints_for_tier`, as written: every
   * endpoint is kept, unchanged but for its health, which is the result of
   * `_do_api_gw_health_check`. An endpoint whose host does not resolve is
   * recorded as the DNS failure even when a public URL is given.
   */
  function CheckEndpoints(eps: seq<Endpoint>, publicUrl: Option<string>, resolves: Resolver, get: HttpGet): (r: seq<Endpoint>)
    ensures |r| == |eps|
    ensures forall i :: 0 <= i < |eps| ==>
      r[i] == eps[i].(health := Some(DoApiGwHealthCheck(eps[i].url, publicUrl, resolves, get)))
    ensures forall i :: 0 <= i < |eps| && !resolves(HostOf(eps[i].url)) ==>
      r[i].health == Some(ProbeResult(Error, DnsFailureMessage))
    ensures forall i :: 0 <= i < |eps| && !Truthy(publicUrl) ==> r[i].health == Some(CheckUrl(eps[i].url, None, resolves, get))
  {
    var r := seq(|eps|, i requires 0 <= i < |eps| => eps[i].(health := Some(DoApiGwHealthCheck(eps[i].url, publicUrl, resolves, get))));
    assert forall i :: 0 <= i < |eps| && !resolves(HostOf(eps[i].url)) ==>
      r[i].health == Some(ProbeResult(Error, DnsFailureMessage)) by {
      forall i | 0 <= i < |eps| && !resolves(HostOf(eps[i].url))
        ensures r[i].health == Some(ProbeResult(Error, DnsFailureMessage))
      {
        DnsFailureNeverRetried(eps[i].url, publicUrl, resolves, get);
      }
    }
    r
  }

  /**
   * The same loop with the intended fallback: a DNS failure of an endpoint's
   * host is retried against the public URL.
   */
  function CheckEndpointsCorrected(eps: seq<Endpoint>, publicUrl: Option<string>, resolves: Resolver, get: HttpGet): (r: seq<Endpoint>)
    ensures |r| == |eps|
    ensures forall i :: 0 <= i < |eps| ==> r[i] == eps[i].(health := r[i].health) && r[i].health.Some?
    ensures forall i :: 0 <= i < |eps| && !resolves(HostOf(eps[i].url)) && Truthy(publicUrl) ==>
      r[i].health == Some(CheckUrl(publicUrl.value, Some(HostOf(eps[i].url)), resolves, get))
    ensures forall i :: 0 <= i < |eps| && !Truthy(publicUrl) ==> r[i].health == Some(CheckUrl(eps[i].url, None, resolves, get))
  {
    seq(|eps|, i requires 0 <= i < |eps| => eps[i].(health := Some(ApiGwHealthCheck(eps[i].url, publicUrl, resolves, get))))
  }

  /**
   * `get_endpoints_for_tier`: the endpoints of the tier's deployables (`names`,
   * active or not) in the tier's region, each with the health
   * `_do_api_gw_health_check` reports when a check is asked for, and none
   * otherwise. The region is read from the 'aws' section, so a tier without
   * one fails.
   */
  function GetEndpointsForTier(
    tier: Ec2Targets.TierConfig, names: seq<string>, apis: seq<RestApi>,
    checkHealth: bool, publicUrl: Option<string>, resolves: Resolver, get: HttpGet)
    : (r: Result<seq<Endpoint>, Ec2Targets.ConfigError>)
    ensures tier.aws.None? <==> r.Failure?
    ensures r.Success? ==>
      var eps := GetApiEndpoints(tier.aws.value.region, tier.tierName, names, None, apis);
      && |r.value| == |eps|
      && forall i :: 0 <= i < |eps| ==>
        r.value[i] == eps[i].(health := if checkHealth then Some(DoApiGwHealthCheck(eps[i].url, publicUrl, resolves, get)) else None)
    ensures r.Success? ==> ApisOf(r.value) == ApisOf(GetApiEndpoints(tier.aws.value.region, tier.tierName, names, None, apis))
  {
    if tier.aws.None? then Failure(Ec2Targets.MissingAwsSection)
    else
      var eps := GetApiEndpoints(tier.aws.value.region, tier.tierName, names, None, apis);
      var r := if checkHealth then CheckEndpoints(eps, publicUrl, resolves, get) else eps;
      assert ApisOf(r) == ApisOf(eps);
      Success(r)
  }
}
