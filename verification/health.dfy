/** `healthcheck_targets`: narrowing candidate targets to the ones that answer their health check. */
module Health {
  import opened Wrappers
  import opened Seqs
  import opened Ec2Targets

  /** The first half of a probe result: an HTTP status code, or the string 'error'. */
  datatype Status = Code(code: int) | Error

  /** The `(status, message)` pair a URL check returns. */
  datatype ProbeResult = ProbeResult(status: Status, message: string)

  /** The network probe, abstracted to a function of the URL. */
  type Probe = string -> ProbeResult

  const HealthyMark := "ok"

  /** `'http://{}:{}/healthcheck'.format(private_ip_address, healthcheck_port)`. */
  function HealthcheckUrl(t: Target, port: string): string
  {
    "http://" + t.details.privateIp + ":" + port + "/healthcheck"
  }

  predicate Passes(r: ProbeResult)
  {
    r.status == Code(200)
  }

  predicate Healthy(t: Target, port: string, probe: Probe)
  {
    Passes(probe(HealthcheckUrl(t, port)))
  }

  /** `target['health_status']`: 'ok' on a 200, the probe's message otherwise. */
  function Annotate(t: Target, port: string, probe: Probe): Target
  {
    var res := probe(HealthcheckUrl(t, port));
    t.(health := Some(if Passes(res) then HealthyMark else res.message))
  }

  function AnnotateAll(ts: seq<Target>, port: string, probe: Probe): (r: seq<Target>)
    ensures |r| == |ts|
    ensures forall i :: 0 <= i < |ts| ==> r[i] == Annotate(ts[i], port, probe)
  {
    seq(|ts|, i requires 0 <= i < |ts| => Annotate(ts[i], port, probe))
  }

  /** How many of `ts` answer their health check. */
  function CountHealthy(ts: seq<Target>, port: string, probe: Probe): nat
    decreases |ts|
  {
    if |ts| == 0 then 0
    else (if Healthy(ts[0], port, probe) then 1 else 0) + CountHealthy(ts[1..], port, probe)
  }

  /**
   * The inner loop over one route: the annotated targets that answered 200,
   * as an order-preserving sub-list of all annotated targets, exactly as
   * long as the number of healthy ones.
   */
  function HealthyList(ts: seq<Target>, port: string, probe: Probe): (r: seq<Target>)
    ensures IsSubsequence(r, AnnotateAll(ts, port, probe))
    ensures |r| == CountHealthy(ts, port, probe)
    ensures forall t :: t in r ==> t.health == Some(HealthyMark) && Healthy(t, port, probe)
    decreases |ts|
  {
    if |ts| == 0 then []
    else
      var rest := HealthyList(ts[1..], port, probe);
      assert AnnotateAll(ts, port, probe)[1..] == AnnotateAll(ts[1..], port, probe);
      if Healthy(ts[0], port, probe) then
        var r := [Annotate(ts[0], port, probe)] + rest;
        assert r[1..] == rest;
        r
      else rest
  }

  /** A target is kept exactly when its own probe answered 200. */
  lemma {:induction false} HealthyMembership(ts: seq<Target>, port: string, probe: Probe)
    ensures forall i :: 0 <= i < |ts| ==>
      (Annotate(ts[i], port, probe) in HealthyList(ts, port, probe) <==> Healthy(ts[i], port, probe))
    decreases |ts|
  {
    if |ts| > 0 {
      HealthyMembership(ts[1..], port, probe);
      forall i | 0 <= i < |ts|
        ensures Annotate(ts[i], port, probe) in HealthyList(ts, port, probe) <==> Healthy(ts[i], port, probe)
      {
        if i > 0 {
          assert ts[1..][i - 1] == ts[i];
        }
      }
    }
  }

  /** What the health check leaves behind: the healthy map it returns and the annotated candidates. */
  datatype HealthReport = HealthReport(healthy: Grouping, annotated: Grouping)

  /**
   * `healthcheck_targets`: every route of the input keeps its key (an empty
   * list when no target is healthy), every candidate is annotated, and each
   * healthy list is the order-preserving sub-list of annotated candidates
   * that answered 200.
   */
  function HealthcheckTargets(targets: Grouping, port: string, probe: Probe): (r: HealthReport)
    ensures r.healthy.Keys == targets.Keys && r.annotated.Keys == targets.Keys
    ensures forall k :: k in targets ==> r.annotated[k] == AnnotateAll(targets[k], port, probe)
    ensures forall k :: k in targets ==> IsSubsequence(r.healthy[k], r.annotated[k])
    ensures forall k :: k in targets ==> |r.healthy[k]| == CountHealthy(targets[k], port, probe)
    ensures forall k, t :: k in targets && t in r.healthy[k] ==> t.health == Some(HealthyMark) && Healthy(t, port, probe)
  {
    HealthReport(
      map k | k in targets :: HealthyList(targets[k], port, probe),
      map k | k in targets :: AnnotateAll(targets[k], port, probe))
  }

  /**
   * A candidate of route `k` is in the healthy list of `k` iff its probe
   * answered 200, and nothing but annotated candidates is in that list.
   */
  lemma HealthcheckMembership(targets: Grouping, port: string, probe: Probe, k: string, i: nat)
    requires k in targets && i < |targets[k]|
    ensures var r := HealthcheckTargets(targets, port, probe);
      r.annotated[k][i] in r.healthy[k] <==> Healthy(targets[k][i], port, probe)
    ensures var r := HealthcheckTargets(targets, port, probe);
      forall t :: t in r.healthy[k] ==> t in r.annotated[k]
  {
    var r := HealthcheckTargets(targets, port, probe);
    HealthyMembership(targets[k], port, probe);
    SubsequenceMembers(r.healthy[k], r.annotated[k]);
  }
}
