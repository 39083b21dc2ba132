# drift-apirouter target selection and routing data, in Dafny

This project models the control-plane logic of the Drift API router: how it
decides which EC2 instances are targets of which route, how targets are
narrowed to the healthy ones, how API Gateway endpoints are matched to
deployables, and how the data the Nginx configuration is rendered from
(tenant to product map, routes with targets, custom API keys) is prepared.
The cloud inventory, the configuration store, DNS and HTTP are inputs: plain
sequences and maps of records, and abstract functions for the network probe.

Modules (one file each):

- `Wrappers` — `Option` and `Result`.
- `PyText` — the Python string semantics used: truthiness of an optional
  tag value, `startswith`, `isnumeric`, `str(None)`.
- `Seqs` — order-preserving sub-sequences.
- `Tags` — `fold_tags` (later duplicates win) and `filterize`, with its inverse.
- `Ec2Targets` — the per-instance classifier and the grouping by `api-target`,
  for both revisions of `get_api_targets_from_aws`. A `Policy` record holds what
  differs between them: `CurrentPolicy` (apirouter/awstargets.py: drains
  terminating autoscaling instances as `api-param = 'backup'`, accepts
  `online` and `online2`) and `LegacyPolicy` (apirouter/nginxconf.py: no
  draining, inactive deployables excluded, only `online`). `TargetsFor` is an
  independent reference definition (a front-to-back filter) that the
  loop-shaped `GroupTargets` is proved equal to.
- `Health` — `healthcheck_targets` over an abstract probe `url -> (status, message)`.
- `ApiGateway` — `get_api_endpoints`, `_check_url` over an abstract resolver
  and HTTP GET, the public-URL fallback of `_do_api_gw_health_check` (see
  Findings), and `get_endpoints_for_tier`.
- `RoutingInfo` — `_prepare_info`: tenant map, active deployables, routes,
  custom API keys, composed with the older target collector exactly as
  `nginxconf.get_api_targets` does.

## Model

| member | source | states |
|---|---|---|
| Tags.FoldTags | apirouter/nginxconf.py:256-258 | the folded dictionary has exactly the keys of the tag array, each with the value of its last occurrence |
| Tags.FoldTagsLastWins | apirouter/awstargets.py:57-59 | a tag whose key does not occur later in the array is the value the fold keeps |
| Tags.FilterizeRoundTrip | apirouter/nginxconf.py:248-253 | filterize yields one single-valued filter per item, and unfolding them gives back the same items in the same order |
| Ec2Targets.MakeTarget | apirouter/awstargets.py:103-118 | the target record takes `name` from the `Name` tag (None when absent), copies the instance's attributes and tags, appends 'Z' to the ISO launch time, and builds the comment "<name> [<instance type>] [<availability zone>]", with "None" for a missing name |
| Ec2Targets.Classify | apirouter/awstargets.py:61-101 | an instance is kept iff all three api tags are truthy, the port is numeric, the target is a deployable (active, in the older revision) and the status is in the accepted set; no tags at all and partial tags are the two distinct first reasons; a kept target carries the instance's tags, relabelled `api-param = 'backup'` exactly when draining |
| Ec2Targets.GroupTargetsSpec | apirouter/awstargets.py:103-122 | the grouping loop has a key exactly when some instance passed for it, and under it exactly the passing targets in discovery order |
| Ec2Targets.GetApiTargetsFromAws | apirouter/awstargets.py:23-122 | a tier without an 'aws' section fails whatever the inventory; otherwise the result is the grouping above |
| Ec2Targets.TargetsForOrigin | apirouter/awstargets.py:103-120 | every target under key `k` was produced by an instance the classifier kept for `k` |
| Ec2Targets.KeptTargetWellFormed | apirouter/awstargets.py:82-118 | a kept target's tags still carry the three api tags it was classified on, even after the 'backup' relabelling |
| Ec2Targets.GroupedTargetsWellFormed | apirouter/awstargets.py:82-120 | every target under key `k` has `api-target == k`, all three api tags, a numeric port, an accepted status, and `k` is a (active, where required) deployable |
| Ec2Targets.TargetsForUnknownRoute | apirouter/awstargets.py:94-97 | a route key that is not a deployable in rotation gets no targets |
| Ec2Targets.IneligibleInstanceAbsent | apirouter/awstargets.py:82-101 | an instance with missing or partial api tags, a bogus port, an unknown deployable or a status not online appears in no output list |
| Ec2Targets.TerminatingTargetsRelabelled | apirouter/awstargets.py:68-80 | a kept instance terminating in its autoscaling group has `api-param == 'backup'`; one not being drained keeps exactly its own tags |
| Ec2Targets.DrainingNeverExcludes | apirouter/awstargets.py:62-101 | the lifecycle state never changes whether an instance is kept, nor why it is skipped |
| Ec2Targets.StatusPolicies | apirouter/nginxconf.py:196-202 | the older revision rejects `online2` and instances of inactive deployables; the current one keeps `online2` |
| Health.HealthyList | apirouter/awstargets.py:131-146 | one route's healthy list is an order-preserving sub-list of its annotated targets, as long as the number that answered 200, each marked 'ok' |
| Health.HealthyMembership | apirouter/awstargets.py:135-146 | a target is in the healthy list iff its own probe answered 200 |
| Health.HealthcheckTargets | apirouter/awstargets.py:125-148 | the healthy map has exactly the input's keys, an empty list for a route without healthy targets, every candidate annotated with 'ok' or its probe message |
| Health.HealthcheckMembership | apirouter/awstargets.py:129-148 | an annotated candidate of route `k` is in `k`'s healthy list iff its probe answered 200, and the healthy list holds nothing but annotated candidates |
| ApiGateway.MatchDeployable | apirouter/awstargets.py:197-204 | an API name matches deployable `d` iff it equals `tier + '-' + d` |
| ApiGateway.Endpoints | apirouter/awstargets.py:201-224 | an endpoint exists for an API iff it is named after a deployable and has the stage; it names that deployable and the URL `https://{id}.execute-api.{region}.amazonaws.com/{stage}`; listing order is kept |
| ApiGateway.GetApiEndpoints | apirouter/awstargets.py:193-224 | the same with the stage defaulting to 'main' |
| ApiGateway.CheckUrl | apirouter/awstargets.py:227-242 | an unresolvable host gives ('error', 'DNS lookup failed'); otherwise the response's code and body, or 'error' with the exception text |
| ApiGateway.DoApiGwHealthCheck | apirouter/awstargets.py:245-259 | without a public URL the result is the first check's |
| ApiGateway.DnsFailureNeverRetried | apirouter/awstargets.py:245-259 | as written, a DNS failure of the private URL is returned as is: the public URL is never tried |
| ApiGateway.RetryNeedsSentinelText | apirouter/awstargets.py:245-259 | as written, the retry can only fire when the host resolves and the GET itself produced the text 'DNSLookupError' |
| ApiGateway.ApiGwHealthCheck | apirouter/awstargets.py:245-259 | corrected: a DNS failure with a public URL set is retried against the public URL with the private host in the `Host` header |
| ApiGateway.CheckEndpoints | apirouter/awstargets.py:278-282 | every endpoint is kept unchanged but for its health, the result of `_do_api_gw_health_check` as written; an endpoint whose host does not resolve is recorded as ('error', 'DNS lookup failed') even with a public URL |
| ApiGateway.CheckEndpointsCorrected | apirouter/awstargets.py:278-282 | the same loop over the corrected check: an endpoint whose host does not resolve gets the public URL's result |
| ApiGateway.GetEndpointsForTier | apirouter/awstargets.py:262-284 | a tier without 'aws' fails; otherwise the same API records as the matching endpoints of the tier's deployables at stage 'main', each with the as-written health check's result when asked and no health otherwise |
| RoutingInfo.TenantMap | apirouter/nginxconf.py:47-56 | tenant `t` is a key iff it is an active tenant of the tier whose product is active, mapped to that product; a missing product row fails |
| RoutingInfo.ActiveDeployables | apirouter/nginxconf.py:58-59 | the dictionary holds exactly the tier's active deployables |
| RoutingInfo.Routes | apirouter/nginxconf.py:63-69 | one route per deployable named by a routing row of the tier; `api` keeps an existing value and otherwise defaults to the deployable name; `targets` is the deployable's targets or `[]` |
| RoutingInfo.CustomApiKeys | apirouter/nginxconf.py:129-132 | exactly the names of the tier's keys that are in use and of type 'custom' |
| RoutingInfo.PrepareInfo | apirouter/nginxconf.py:43-147 | fails iff a tenant's product is missing or the tier lacks 'aws'; routes exist for every routing row, targetless ones included, each with the older collector's targets for its deployable, all tagged `online` |
| RoutingInfo.InactiveRouteHasNoTargets | apirouter/nginxconf.py:58-69 | a route whose deployable is not active on the tier is present with an empty target list |

## Left out

- Exclusions the code does not make: there is no "lifecycle state not InService" exclusion and no VPC-mismatch exclusion of instances.
- There is no second health-check path: a target is probed on `/healthcheck` only.
- Conflict handling between instance targets and gateway endpoints of the same route does not appear in the code, so it is not modelled.
- A port tag is accepted whenever `isnumeric()` holds, so `"0"` is a valid port.
- EC2, autoscaling and API Gateway enumeration (boto3 filters, `describe_auto_scaling_instances`, `get_rest_apis(limit=500)`, `get_stages`): their results are inputs, in listing order.
- `get_vpc_for_tier` and `get_public_api_gw_url`: cloud lookups only; the public URL is an input.
- `socket.gethostbyname` and `requests.get`: abstract `Resolver` and `HttpGet` parameters; the health probe of `healthcheck_targets` is an abstract function of the URL.
- Timeouts (`HEALTHCHECK_TIMEOUT`, the 7-second gateway timeout): wall-clock behaviour with no logical content.
- The configuration store: tenants, tenant-names, products, deployables, routing and api-key rows are plain records; the tier name used for the table queries is the tier configuration's.
- Jinja rendering, `pkg_resources`, `apply_nginx_config`, the OS-dependent `platform` dict, the `conf` and `plat` entries of the returned dict, `_dump` and the `__main__` blocks: templating, process and I/O concerns.
- Access-key rule evaluation: the code only carries rule rows; their evaluation lives in the Nginx template, which is not part of this model.
- Logging, including the truncated instance ids in messages.
- Target record fields: `placement` is reduced to its availability zone and `state` to its name; `launch_time` is taken as its ISO text (`launchIso`).
- Routing rows: only `requires_api_key` and `api` of the columns `route.copy()` carries are modelled.
- `get_api_targets` (apirouter/nginxconf.py:150-153) is a one-line delegation; `PrepareInfo` calls the older collector directly.
- `api_keys` is computed by `_prepare_info` but not placed in its returned dict; `CustomApiKeys` models the computation on its own.
- `healthcheck_targets` annotates the caller's target records in place; the model returns the annotated map next to the healthy one.
- A deployable record that is an empty dict (falsy in Python) is not modelled: deployable records always carry their name.
- Ec2Targets.GetApiTargetsFromAws: the key order of the returned dictionary is not stated, because Dafny maps are unordered; the order within each key is.
- Health.HealthcheckTargets: the key order of the healthy map is not stated, for the same reason.
- RoutingInfo.TenantMap: when several tenants lack a product row, which one is named in the error is not stated.
- PyText.IsNumeric: accepts ASCII digits only, not the other Unicode numeric characters `str.isnumeric` accepts.
- ApiGateway.HostOf: `urlparse(...).hostname` only for `scheme://host[:port][/path]` URLs; user info, IPv6 brackets and lower-casing are not modelled.

## Findings

| source | as written | input that shows it | evidently intended | confidence | as-written member | corrected member |
|---|---|---|---|---|---|---|
| apirouter/awstargets.py:253 | the fallback to the public URL fires when the first message equals 'DNSLookupError' | a private gateway host that does not resolve and a public URL set: `_check_url` returns ('error', 'DNS lookup failed'), so the public URL is never tried | retry against the public URL when the first check reported the DNS failure | not executed; high, since 'DNSLookupError' is produced nowhere in the code | ApiGateway.DnsFailureNeverRetried | ApiGateway.ApiGwHealthCheck |
