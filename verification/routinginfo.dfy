/**
 * `_prepare_info`: the data the Nginx template is rendered from — the
 * tenant to product map, the routes with their targets, and the set of
 * custom API keys.
 */
module RoutingInfo {
  import opened Wrappers
  import opened Tags
  import opened Ec2Targets

  /** A row of the 'tenants' table. */
  datatype TenantRow = TenantRow(tenantName: string, tierName: string, state: string)

  /** A row of the 'products' table. */
  datatype Product = Product(productName: string, state: string)

  /** A row of the 'deployables' table. */
  datatype DeployableRow = DeployableRow(tierName: string, deployable: Deployable)

  /** A row of the 'routing' table; `api` is absent unless the row sets it. */
  datatype RoutingRow = RoutingRow(tierName: string, deployableName: string, requiresApiKey: bool, api: Option<string>)

  /** A row of the 'api-keys' table. */
  datatype ApiKeyRow = ApiKeyRow(apiKeyName: string, tierName: string, productName: string, inUse: bool, keyType: string)

  /** A compiled route: the routing row's fields, `api` filled in, and its targets. */
  datatype Route = Route(deployableName: string, requiresApiKey: bool, api: string, targets: seq<Target>)

  /** The returned dictionary, without the configuration object and platform paths. */
  datatype Info = Info(tenants: map<string, Product>, routes: map<string, Route>, nginxUser: string)

  /** Why `_prepare_info` raises: a tier without 'aws', or a tenant whose product row is missing. */
  datatype PrepareError = MissingAws | DanglingTenant(tenantName: string)

  const Active := "active"
  const Custom := "custom"
  const NginxUser := "matti-staff"

  /** The product of tenant `t`, through its 'tenant-names' row; None when a row is missing. */
  function ProductOf(t: string, tenantProducts: map<string, string>, products: map<string, Product>): Option<Product>
  {
    if t in tenantProducts && tenantProducts[t] in products then Some(products[tenantProducts[t]]) else None
  }

  /** `tenants.find({'tier_name': tier_name, 'state': 'active'})`. */
  predicate ActiveTenantOf(tier: string, row: TenantRow)
  {
    row.tierName == tier && row.state == Active
  }

  /** `t` is the name of an active tenant of the tier. */
  predicate Listed(tier: string, rows: seq<TenantRow>, t: string)
  {
    exists row :: row in rows && ActiveTenantOf(tier, row) && row.tenantName == t
  }

  /**
   * The tenant loop: every active tenant of the tier whose product is active
   * maps to that product, and no other key exists. A tenant whose product
   * cannot be found makes the whole preparation fail.
   */
  function TenantMap(tier: string, rows: seq<TenantRow>, tenantProducts: map<string, string>, products: map<string, Product>)
    : (r: Result<map<string, Product>, PrepareError>)
    ensures r.Success? <==>
      forall row :: row in rows && ActiveTenantOf(tier, row) ==> ProductOf(row.tenantName, tenantProducts, products).Some?
    ensures r.Failure? ==>
      exists row :: row in rows && ActiveTenantOf(tier, row)
        && ProductOf(row.tenantName, tenantProducts, products).None? && r.error == DanglingTenant(row.tenantName)
    ensures r.Success? ==> forall t :: t in r.value <==>
      Listed(tier, rows, t) && ProductOf(t, tenantProducts, products).Some? && ProductOf(t, tenantProducts, products).value.state == Active
    ensures r.Success? ==> forall t :: t in r.value ==> ProductOf(t, tenantProducts, products) == Some(r.value[t])
    decreases |rows|
  {
    if |rows| == 0 then Success(map[])
    else
      var row := rows[0];
      assert rows == [row] + rows[1..];
      var rest := TenantMap(tier, rows[1..], tenantProducts, products);
      if !ActiveTenantOf(tier, row) then rest
      else
        match ProductOf(row.tenantName, tenantProducts, products)
        case None => Failure(DanglingTenant(row.tenantName))
        case Some(p) =>
          match rest
          case Failure(e) => Failure(e)
          case Success(m) => Success(if p.state == Active then m[row.tenantName := p] else m)
  }

  /** `deployables.find({'tier_name': tier_name, 'is_active': True})`, keyed by name. */
  function ActiveDeployables(tier: string, rows: seq<DeployableRow>): (r: Deployables)
    ensures forall d :: d in r <==>
      exists row :: row in rows && row.tierName == tier && row.deployable.isActive && row.deployable.name == d
    ensures forall d :: d in r ==> r[d] == Deployable(d, true)
  {
    map row | row in rows && row.tierName == tier && row.deployable.isActive :: row.deployable.name := Deployable(row.deployable.name, true)
  }

  /** The position of the last routing row of the tier for deployable `d`: the one the route dictionary keeps. */
  function LastRouteRow(tier: string, rows: seq<RoutingRow>, d: string): (r: Option<nat>)
    ensures r.None? <==> forall i :: 0 <= i < |rows| ==> !(rows[i].tierName == tier && rows[i].deployableName == d)
    ensures r.Some? ==> r.value < |rows| && rows[r.value].tierName == tier && rows[r.value].deployableName == d
    ensures r.Some? ==> forall j :: r.value < j < |rows| ==> !(rows[j].tierName == tier && rows[j].deployableName == d)
    decreases |rows|
  {
    if |rows| == 0 then None
    else if rows[|rows| - 1].tierName == tier && rows[|rows| - 1].deployableName == d then Some(|rows| - 1)
    else LastRouteRow(tier, rows[..|rows| - 1], d)
  }

  /** `route.copy()`, `setdefault('api', deployable_name)` and `['targets'] = api_targets.get(deployable_name, [])`. */
  function MakeRoute(row: RoutingRow, targets: Grouping): Route
  {
    Route(
      row.deployableName,
      row.requiresApiKey,
      if row.api.Some? then row.api.value else row.deployableName,
      if row.deployableName in targets then targets[row.deployableName] else [])
  }

  /**
   * The routing loop: one route per deployable named by a routing row of the
   * tier, built from the last such row. `api` keeps a value the row has and
   * otherwise defaults to the deployable's name; a deployable without
   * targets still has its route, with an empty target list.
   */
  function Routes(tier: string, rows: seq<RoutingRow>, targets: Grouping): (r: map<string, Route>)
    ensures forall d :: d in r <==> LastRouteRow(tier, rows, d).Some?
    ensures forall d :: d in r ==>
      var row := rows[LastRouteRow(tier, rows, d).value];
      && r[d].deployableName == d
      && r[d].requiresApiKey == row.requiresApiKey
      && r[d].api == (if row.api.Some? then row.api.value else d)
      && r[d].targets == (if d in targets then targets[d] else [])
    decreases |rows|
  {
    if |rows| == 0 then map[]
    else
      var m := Routes(tier, rows[..|rows| - 1], targets);
      var row := rows[|rows| - 1];
      if row.tierName == tier then m[row.deployableName := MakeRoute(row, targets)] else m
  }

  /** A custom key in use, of this tier. */
  predicate IsCustomKey(tier: string, row: ApiKeyRow)
  {
    row.tierName == tier && row.inUse && row.keyType == Custom
  }

  /** The api-key loop: the names of exactly the tier's keys that are in use and of type 'custom'. */
  function CustomApiKeys(tier: string, rows: seq<ApiKeyRow>): (r: set<string>)
    ensures forall n :: n in r <==> exists row :: row in rows && IsCustomKey(tier, row) && row.apiKeyName == n
    decreases |rows|
  {
    if |rows| == 0 then {}
    else
      assert rows == [rows[0]] + rows[1..];
      (if IsCustomKey(tier, rows[0]) then {rows[0].apiKeyName} else {}) + CustomApiKeys(tier, rows[1..])
  }

  /**
   * `_prepare_info` with the configuration tables and the EC2 inventory
   * supplied. Targets come from the older `get_api_targets_from_aws`
   * (no autoscaling data), restricted to the tier's active deployables.
   */
  function PrepareInfo(
    tier: TierConfig,
    tenantRows: seq<TenantRow>, tenantProducts: map<string, string>, products: map<string, Product>,
    deployableRows: seq<DeployableRow>, routingRows: seq<RoutingRow>, insts: seq<Instance>)
    : (r: Result<Info, PrepareError>)
    ensures r.Failure? <==> TenantMap(tier.tierName, tenantRows, tenantProducts, products).Failure? || tier.aws.None?
    ensures r.Success? ==> r.value.tenants == TenantMap(tier.tierName, tenantRows, tenantProducts, products).value
    ensures r.Success? ==> forall d :: d in r.value.routes <==>
      exists row :: row in routingRows && row.tierName == tier.tierName && row.deployableName == d
    ensures r.Success? ==> forall d :: d in r.value.routes ==>
      r.value.routes[d].targets == TargetsFor(LegacyPolicy, insts, map[], ActiveDeployables(tier.tierName, deployableRows), d)
    ensures r.Success? ==> forall d, t :: d in r.value.routes && t in r.value.routes[d].targets ==>
      && WellFormed(LegacyPolicy, ActiveDeployables(tier.tierName, deployableRows), d, t)
      && t.tags[StatusTag] == "online"
  {
    match TenantMap(tier.tierName, tenantRows, tenantProducts, products)
    case Failure(e) => Failure(e)
    case Success(tenants) =>
      var deployables := ActiveDeployables(tier.tierName, deployableRows);
      match GetApiTargetsFromAws(LegacyPolicy, tier, insts, map[], deployables)
      case Failure(_) => Failure(MissingAws)
      case Success(targets) =>
        var routes := Routes(tier.tierName, routingRows, targets);
        GroupedTargetsWellFormed(LegacyPolicy, tier, insts, map[], deployables);
        assert forall d :: d in routes <==>
          exists row :: row in routingRows && row.tierName == tier.tierName && row.deployableName == d by {
          forall d
            ensures d in routes <==>
              exists row :: row in routingRows && row.tierName == tier.tierName && row.deployableName == d
          {
            if d !in routes {
              assert LastRouteRow(tier.tierName, routingRows, d).None?;
            }
          }
        }
        Success(Info(tenants, routes, NginxUser))
  }

  /** A route whose deployable is not active on the tier is present but has no targets. */
  lemma InactiveRouteHasNoTargets(
    tier: TierConfig,
    tenantRows: seq<TenantRow>, tenantProducts: map<string, string>, products: map<string, Product>,
    deployableRows: seq<DeployableRow>, routingRows: seq<RoutingRow>, insts: seq<Instance>, d: string)
    requires tier.aws.Some?
    requires TenantMap(tier.tierName, tenantRows, tenantProducts, products).Success?
    requires exists row :: row in routingRows && row.tierName == tier.tierName && row.deployableName == d
    requires forall row :: row in deployableRows && row.tierName == tier.tierName ==> !(row.deployable.name == d && row.deployable.isActive)
    ensures var r := PrepareInfo(tier, tenantRows, tenantProducts, products, deployableRows, routingRows, insts);
      r.Success? && d in r.value.routes && r.value.routes[d].targets == []
  {
    TargetsForUnknownRoute(LegacyPolicy, insts, map[], ActiveDeployables(tier.tierName, deployableRows), d);
  }
}
