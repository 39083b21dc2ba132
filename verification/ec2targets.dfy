/**
 * Classification of EC2 instances as API-router targets and their grouping by
 * route, for both revisions of `get_api_targets_from_aws`: the current one
 * (awstargets) and the older one (nginxconf).
 */
module Ec2Targets {
  import opened Wrappers
  import opened PyText
  import opened Tags

  const StatusTag := "api-status"
  const TargetTag := "api-target"
  const PortTag := "api-port"
  const NameTag := "Name"
  const ParamTag := "api-param"
  const BackupParam := "backup"
  const TerminatingPrefix := "Terminating"

  /** The instance attributes a target record copies verbatim. */
  datatype Ec2Details = Ec2Details(
    imageId: string,
    instanceType: string,
    launchIso: string,           // `launch_time.isoformat()`
    availabilityZone: string,
    privateIp: string,
    publicIp: Option<string>,
    stateName: string,
    stateTransitionReason: string,
    subnetId: string,
    vpcId: string)

  /** A running EC2 instance of the tier, as the inventory returns it. */
  datatype Instance = Instance(id: string, tags: seq<Tag>, details: Ec2Details)

  /** A deployable record; only its activity flag matters here. */
  datatype Deployable = Deployable(name: string, isActive: bool)

  datatype AwsSection = AwsSection(region: string)

  /** The tier configuration; `aws` is the optional `'aws'` section. */
  datatype TierConfig = TierConfig(tierName: string, aws: Option<AwsSection>)

  /** A target record; `health` is the `health_status` key, absent until a health check. */
  datatype Target = Target(
    name: Option<string>,
    instanceId: string,
    details: Ec2Details,
    launchTime: string,
    tags: TagMap,
    comment: string,
    health: Option<string>)

  /** Why an instance is not in rotation, one per `continue` of the loop. */
  datatype SkipReason = NotConfigured | PartialTags | BogusPort | NoDeployable | InactiveDeployable | NotOnline

  datatype Verdict = Keep(route: string, target: Target) | Skip(reason: SkipReason)

  /**
   * What distinguishes the two revisions: whether terminating autoscaling
   * instances are drained as 'backup', whether an inactive deployable
   * excludes its instances, and which `api-status` values are in rotation.
   */
  datatype Policy = Policy(drainTerminating: bool, requireActive: bool, onlineStatuses: set<string>)

  /** apirouter/awstargets.py */
  const CurrentPolicy := Policy(true, false, {"online", "online2"})

  /** apirouter/nginxconf.py */
  const LegacyPolicy := Policy(false, true, {"online"})

  datatype ConfigError = MissingAwsSection

  /** Autoscaling `LifecycleState` per instance id. */
  type Lifecycles = map<string, string>

  type Deployables = map<string, Deployable>

  /** Targets per route key (`api-target`). */
  type Grouping = map<string, seq<Target>>

  /** The instance is being scaled in and the policy drains it. */
  predicate Draining(p: Policy, asg: Lifecycles, id: string)
  {
    p.drainTerminating && id in asg && StartsWith(asg[id], TerminatingPrefix)
  }

  predicate NoApiTags(tags: TagMap)
  {
    !Truthy(Get(tags, StatusTag)) && !Truthy(Get(tags, TargetTag)) && !Truthy(Get(tags, PortTag))
  }

  predicate AllApiTags(tags: TagMap)
  {
    Truthy(Get(tags, StatusTag)) && Truthy(Get(tags, TargetTag)) && Truthy(Get(tags, PortTag))
  }

  /** Everything an instance's tags must satisfy to be in rotation, as one conjunction. */
  predicate Eligible(p: Policy, tags: TagMap, deployables: Deployables)
  {
    && AllApiTags(tags)
    && IsNumeric(tags[PortTag])
    && tags[TargetTag] in deployables
    && (p.requireActive ==> deployables[tags[TargetTag]].isActive)
    && tags[StatusTag] in p.onlineStatuses
  }

  /** The tags a target carries: the folded tags, with `api-param` set to 'backup' when draining. */
  function TargetTags(p: Policy, inst: Instance, asg: Lifecycles): TagMap
  {
    var tags := FoldTags(inst.tags);
    if Draining(p, asg, inst.id) then tags[ParamTag := BackupParam] else tags
  }

  /**
   * The target record built for a kept instance: the `Name` tag (None when
   * absent), the instance's attributes, its launch time in ISO form with a
   * trailing 'Z', and the comment "<name> [<instance type>] [<availability zone>]".
   */
  function MakeTarget(inst: Instance, tags: TagMap): (t: Target)
    ensures t.name == (if NameTag in tags then Some(tags[NameTag]) else None)
    ensures t.instanceId == inst.id && t.details == inst.details && t.tags == tags
    ensures t.launchTime == inst.details.launchIso + "Z"
    ensures t.comment == Show(t.name) + " [" + inst.details.instanceType + "] [" + inst.details.availabilityZone + "]"
    ensures t.health.None?
  {
    var name := Get(tags, NameTag);
    Target(
      name, inst.id, inst.details, inst.details.launchIso + "Z", tags,
      Show(name) + " [" + inst.details.instanceType + "] [" + inst.details.availabilityZone + "]",
      None)
  }

  /**
   * The body of the per-instance loop. The three api tags are read before
   * the drain relabelling, so draining never decides the verdict.
   */
  function Classify(p: Policy, inst: Instance, asg: Lifecycles, deployables: Deployables): (v: Verdict)
    ensures v.Keep? <==> Eligible(p, FoldTags(inst.tags), deployables)
    ensures v == Skip(NotConfigured) <==> NoApiTags(FoldTags(inst.tags))
    ensures v == Skip(PartialTags) <==> !NoApiTags(FoldTags(inst.tags)) && !AllApiTags(FoldTags(inst.tags))
    ensures v.Keep? ==>
      && v.route == FoldTags(inst.tags)[TargetTag]
      && v.target.instanceId == inst.id
      && v.target.details == inst.details
      && v.target.health.None?
    ensures v.Keep? && Draining(p, asg, inst.id) ==> v.target.tags == FoldTags(inst.tags)[ParamTag := BackupParam]
    ensures v.Keep? && !Draining(p, asg, inst.id) ==> v.target.tags == FoldTags(inst.tags)
  {
    var folded := FoldTags(inst.tags);
    var status := Get(folded, StatusTag);
    var route := Get(folded, TargetTag);
    var port := Get(folded, PortTag);
    if !Truthy(status) && !Truthy(route) && !Truthy(port) then Skip(NotConfigured)
    else if !(Truthy(status) && Truthy(route) && Truthy(port)) then Skip(PartialTags)
    else if !IsNumeric(port.value) then Skip(BogusPort)
    else if route.value !in deployables then Skip(NoDeployable)
    else if p.requireActive && !deployables[route.value].isActive then Skip(InactiveDeployable)
    else if status.value !in p.onlineStatuses then Skip(NotOnline)
    else Keep(route.value, MakeTarget(inst, TargetTags(p, inst, asg)))
  }

  /** What one verdict adds to route `k`. */
  function Contribution(v: Verdict, k: string): seq<Target>
  {
    if v.Keep? && v.route == k then [v.target] else []
  }

  /**
   * Reference definition: the targets of route `k` are the kept instances
   * whose route is `k`, in discovery order.
   */
  function TargetsFor(p: Policy, insts: seq<Instance>, asg: Lifecycles, deployables: Deployables, k: string): seq<Target>
    decreases |insts|
  {
    if |insts| == 0 then []
    else Contribution(Classify(p, insts[0], asg, deployables), k) + TargetsFor(p, insts[1..], asg, deployables, k)
  }

  /** The loop: `api_targets.setdefault(api_target, []).append(target)` per kept instance. */
  function GroupTargets(p: Policy, insts: seq<Instance>, asg: Lifecycles, deployables: Deployables): Grouping
    decreases |insts|
  {
    if |insts| == 0 then map[]
    else
      var m := GroupTargets(p, insts[..|insts| - 1], asg, deployables);
      match Classify(p, insts[|insts| - 1], asg, deployables)
      case Skip(_) => m
      case Keep(k, t) => m[k := (if k in m then m[k] else []) + [t]]
  }

  lemma {:induction false} TargetsForSnoc(p: Policy, insts: seq<Instance>, x: Instance, asg: Lifecycles, deployables: Deployables, k: string)
    ensures TargetsFor(p, insts + [x], asg, deployables, k)
         == TargetsFor(p, insts, asg, deployables, k) + Contribution(Classify(p, x, asg, deployables), k)
    decreases |insts|
  {
    if |insts| == 0 {
      assert (insts + [x])[1..] == [];
    } else {
      assert (insts + [x])[1..] == insts[1..] + [x];
      TargetsForSnoc(p, insts[1..], x, asg, deployables, k);
    }
  }

  /** The loop computes the reference: a key exists iff some instance passed for it, with exactly its targets in order. */
  lemma {:induction false} GroupTargetsSpec(p: Policy, insts: seq<Instance>, asg: Lifecycles, deployables: Deployables)
    ensures forall k :: k in GroupTargets(p, insts, asg, deployables) <==> TargetsFor(p, insts, asg, deployables, k) != []
    ensures forall k :: k in GroupTargets(p, insts, asg, deployables) ==>
      GroupTargets(p, insts, asg, deployables)[k] == TargetsFor(p, insts, asg, deployables, k)
    decreases |insts|
  {
    if |insts| > 0 {
      var pre := insts[..|insts| - 1];
      var x := insts[|insts| - 1];
      GroupTargetsSpec(p, pre, asg, deployables);
      assert insts == pre + [x];
      forall k
        ensures TargetsFor(p, insts, asg, deployables, k)
             == TargetsFor(p, pre, asg, deployables, k) + Contribution(Classify(p, x, asg, deployables), k)
      {
        TargetsForSnoc(p, pre, x, asg, deployables, k);
      }
    }
  }

  /**
   * `get_api_targets_from_aws` with the inventory supplied: the instances the
   * EC2 query returned (in discovery order) and the autoscaling lifecycle
   * states. A tier without an 'aws' section fails before anything is looked at.
   */
  function GetApiTargetsFromAws(p: Policy, tier: TierConfig, insts: seq<Instance>, asg: Lifecycles, deployables: Deployables)
    : (r: Result<Grouping, ConfigError>)
    ensures tier.aws.None? <==> r == Failure(MissingAwsSection)
    ensures r.Success? ==> forall k :: k in r.value <==> TargetsFor(p, insts, asg, deployables, k) != []
    ensures r.Success? ==> forall k :: k in r.value ==> r.value[k] == TargetsFor(p, insts, asg, deployables, k)
  {
    if tier.aws.None? then Failure(MissingAwsSection)
    else
      GroupTargetsSpec(p, insts, asg, deployables);
      Success(GroupTargets(p, insts, asg, deployables))
  }

  /** Every target of route `k` was produced by some instance the classifier kept for `k`. */
  lemma {:induction false} TargetsForOrigin(p: Policy, insts: seq<Instance>, asg: Lifecycles, deployables: Deployables, k: string)
    ensures forall t :: t in TargetsFor(p, insts, asg, deployables, k) ==>
      exists i :: 0 <= i < |insts| && Classify(p, insts[i], asg, deployables) == Keep(k, t)
    decreases |insts|
  {
    if |insts| > 0 {
      TargetsForOrigin(p, insts[1..], asg, deployables, k);
      forall t | t in TargetsFor(p, insts, asg, deployables, k)
        ensures exists i :: 0 <= i < |insts| && Classify(p, insts[i], asg, deployables) == Keep(k, t)
      {
        if t in TargetsFor(p, insts[1..], asg, deployables, k) {
          var i :| 0 <= i < |insts[1..]| && Classify(p, insts[1..][i], asg, deployables) == Keep(k, t);
          assert insts[1..][i] == insts[i + 1];
        } else {
          assert Classify(p, insts[0], asg, deployables) == Keep(k, t);
        }
      }
    }
  }

  /** The route tags of a kept target are those its instance was classified on. */
  lemma KeptTargetWellFormed(p: Policy, inst: Instance, asg: Lifecycles, deployables: Deployables)
    ensures var v := Classify(p, inst, asg, deployables);
      v.Keep? ==> WellFormed(p, deployables, v.route, v.target)
  {
    var v := Classify(p, inst, asg, deployables);
    if v.Keep? {
      var folded := FoldTags(inst.tags);
      var t := v.target;
      assert Eligible(p, folded, deployables);
      if Draining(p, asg, inst.id) {
        assert t.tags == folded[ParamTag := BackupParam];
        assert Get(t.tags, StatusTag) == Get(folded, StatusTag);
        assert Get(t.tags, TargetTag) == Get(folded, TargetTag);
        assert Get(t.tags, PortTag) == Get(folded, PortTag);
      } else {
        assert t.tags == folded;
      }
    }
  }

  /** A target filed under `k` names `k` in complete api tags, and `k` is a deployable in rotation. */
  predicate WellFormed(p: Policy, deployables: Deployables, k: string, t: Target)
  {
    && AllApiTags(t.tags)
    && t.tags[TargetTag] == k
    && IsNumeric(t.tags[PortTag])
    && t.tags[StatusTag] in p.onlineStatuses
    && k in deployables
    && (p.requireActive ==> deployables[k].isActive)
  }

  /**
   * Every target stored under key `k` has `api-target == k`, carries all
   * three api tags with a numeric port and an accepted status, and belongs
   * to a known deployable.
   */
  lemma GroupedTargetsWellFormed(p: Policy, tier: TierConfig, insts: seq<Instance>, asg: Lifecycles, deployables: Deployables)
    requires tier.aws.Some?
    ensures var m := GetApiTargetsFromAws(p, tier, insts, asg, deployables).value;
      forall k, t :: k in m && t in m[k] ==> WellFormed(p, deployables, k, t)
  {
    var m := GetApiTargetsFromAws(p, tier, insts, asg, deployables).value;
    forall k: string, t: Target | k in m && t in m[k]
      ensures WellFormed(p, deployables, k, t)
    {
      TargetsForOrigin(p, insts, asg, deployables, k);
      var i :| 0 <= i < |insts| && Classify(p, insts[i], asg, deployables) == Keep(k, t);
      KeptTargetWellFormed(p, insts[i], asg, deployables);
    }
  }

  /** A route key that is not a deployable in rotation gets no targets. */
  lemma {:induction false} TargetsForUnknownRoute(p: Policy, insts: seq<Instance>, asg: Lifecycles, deployables: Deployables, k: string)
    requires k !in deployables || (p.requireActive && !deployables[k].isActive)
    ensures TargetsFor(p, insts, asg, deployables, k) == []
    decreases |insts|
  {
    if |insts| > 0 {
      TargetsForUnknownRoute(p, insts[1..], asg, deployables, k);
      KeptTargetWellFormed(p, insts[0], asg, deployables);
    }
  }

  /**
   * An instance that is not eligible (missing or partial api tags, bogus
   * port, unknown or inactive deployable, status not online) never appears
   * in any route's list. Instance ids are unique in an EC2 listing.
   */
  lemma IneligibleInstanceAbsent(p: Policy, tier: TierConfig, insts: seq<Instance>, asg: Lifecycles, deployables: Deployables, j: nat)
    requires tier.aws.Some?
    requires forall a, b :: 0 <= a < b < |insts| ==> insts[a].id != insts[b].id
    requires j < |insts|
    requires !Eligible(p, FoldTags(insts[j].tags), deployables)
    ensures var m := GetApiTargetsFromAws(p, tier, insts, asg, deployables).value;
      forall k, t :: k in m && t in m[k] ==> t.instanceId != insts[j].id
  {
    var m := GetApiTargetsFromAws(p, tier, insts, asg, deployables).value;
    forall k: string, t: Target | k in m && t in m[k]
      ensures t.instanceId != insts[j].id
    {
      TargetsForOrigin(p, insts, asg, deployables, k);
      var i :| 0 <= i < |insts| && Classify(p, insts[i], asg, deployables) == Keep(k, t);
      assert i != j;
    }
  }

  /**
   * A kept target whose instance is terminating in its autoscaling group is
   * relabelled `api-param = 'backup'`; a target whose instance is not being
   * drained keeps exactly its instance's tags.
   */
  lemma TerminatingTargetsRelabelled(p: Policy, tier: TierConfig, insts: seq<Instance>, asg: Lifecycles, deployables: Deployables)
    requires tier.aws.Some?
    ensures var m := GetApiTargetsFromAws(p, tier, insts, asg, deployables).value;
      forall k, t :: k in m && t in m[k] ==>
        && (Draining(p, asg, t.instanceId) ==> ParamTag in t.tags && t.tags[ParamTag] == BackupParam)
        && (!Draining(p, asg, t.instanceId) ==> exists i :: 0 <= i < |insts| && insts[i].id == t.instanceId && t.tags == FoldTags(insts[i].tags))
  {
    var m := GetApiTargetsFromAws(p, tier, insts, asg, deployables).value;
    forall k: string, t: Target | k in m && t in m[k]
      ensures Draining(p, asg, t.instanceId) ==> ParamTag in t.tags && t.tags[ParamTag] == BackupParam
      ensures !Draining(p, asg, t.instanceId) ==> exists i :: 0 <= i < |insts| && insts[i].id == t.instanceId && t.tags == FoldTags(insts[i].tags)
    {
      TargetsForOrigin(p, insts, asg, deployables, k);
      var i :| 0 <= i < |insts| && Classify(p, insts[i], asg, deployables) == Keep(k, t);
      var folded := FoldTags(insts[i].tags);
      assert t.instanceId == insts[i].id;
      if Draining(p, asg, t.instanceId) {
        assert t.tags == folded[ParamTag := BackupParam];
      } else {
        assert t.tags == folded;
      }
    }
  }

  /** Terminating is never a reason for exclusion: the verdict's kind ignores the lifecycle states. */
  lemma DrainingNeverExcludes(p: Policy, inst: Instance, asg: Lifecycles, deployables: Deployables)
    ensures Classify(p, inst, asg, deployables).Keep? == Classify(p, inst, map[], deployables).Keep?
    ensures Classify(p, inst, asg, deployables).Skip? ==> Classify(p, inst, asg, deployables) == Classify(p, inst, map[], deployables)
  {
  }

  /** A fully tagged instance with a numeric port whose target is a known deployable. */
  predicate RoutableTags(tags: TagMap, deployables: Deployables)
  {
    AllApiTags(tags) && IsNumeric(tags[PortTag]) && tags[TargetTag] in deployables
  }

  /** The older revision accepts only 'online' and drops instances of inactive deployables; the current one accepts 'online2'. */
  lemma StatusPolicies(inst: Instance, asg: Lifecycles, deployables: Deployables)
    ensures var tags := FoldTags(inst.tags);
      RoutableTags(tags, deployables) && tags[StatusTag] == "online2" ==>
        && Classify(LegacyPolicy, inst, asg, deployables).Skip?
        && Classify(CurrentPolicy, inst, asg, deployables).Keep?
    ensures var tags := FoldTags(inst.tags);
      RoutableTags(tags, deployables) && !deployables[tags[TargetTag]].isActive ==>
        Classify(LegacyPolicy, inst, asg, deployables) == Skip(InactiveDeployable)
  {
  }
}
