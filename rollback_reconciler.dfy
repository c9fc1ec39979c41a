/**
 * The `RollbackPolicy` reconciler: for every deployment the policy selects
 * it records the deployment's key and generation, tests the policy's
 * conditions, and, when a rollback is due and a target image is named,
 * rewrites the first container's image. The status is written back only
 * when the whole pass succeeds. The client's answers are inputs.
 */
module RollbackReconciler {
  import opened Wrappers
  import opened Kube

  /** One `RollbackCondition` of the policy: a condition type and a comparison operator. */
  datatype PolicyCondition = PolicyCondition(conditionType: string, operator: string)

  datatype PolicySpec = PolicySpec(
    conditions: seq<PolicyCondition>,
    /** The image to roll back to; empty means none. */
    rollbackToRevision: string,
    /** Seconds between reconciliations; 0 means the default. */
    checkInterval: int)

  datatype PolicyStatus = PolicyStatus(
    monitoredResources: seq<string>,
    currentRevisions: map<string, int>,
    rollbackRevisions: map<string, int>,
    /** Nanoseconds; `None` before the first completed pass. */
    lastAppliedTime: Option<int>,
    lastAppliedStatus: string,
    lastAppliedMessage: string,
    appliedCount: int)

  /** The policy as stored in the cluster: its spec, and the status the last completed pass wrote. */
  class RollbackPolicy {
    const spec: PolicySpec
    var status: PolicyStatus

    constructor(spec: PolicySpec, status: PolicyStatus)
      ensures this.spec == spec && this.status == status
    {
      this.spec := spec;
      this.status := status;
    }
  }

  /** The default interval, five minutes in seconds. */
  const DefaultInterval: int := 300

  /** The message of the runtime panic that indexing an empty container list raises. */
  const IndexPanic: string := "runtime error: index out of range [0] with length 0"

  /** `fmt.Sprintf("%s/%s", namespace, name)`. */
  function ResourceKey(d: Deployment): string
  {
    d.namespace + "/" + d.name
  }

  /** A condition that holds for the deployment; other types and operators never hold. */
  predicate Triggers(c: PolicyCondition, d: Deployment)
  {
    || (c.conditionType == "AvailableReplicas" && c.operator == "LessThan" && d.availableReplicas < 1)
    || (c.conditionType == "UnavailableReplicas" && c.operator == "GreaterThan" && d.unavailableReplicas > 0)
  }

  /** `needsRollback` after the condition loop. */
  function NeedsRollback(cs: seq<PolicyCondition>, d: Deployment): bool
  {
    if |cs| == 0 then false else NeedsRollback(cs[..|cs| - 1], d) || Triggers(cs[|cs| - 1], d)
  }

  /** A rollback is needed exactly when some condition holds. */
  lemma {:induction false} NeedsRollbackIff(cs: seq<PolicyCondition>, d: Deployment)
    ensures NeedsRollback(cs, d) <==> exists i :: 0 <= i < |cs| && Triggers(cs[i], d)
  {
    if |cs| > 0 {
      var init := cs[..|cs| - 1];
      NeedsRollbackIff(init, d);
      if NeedsRollback(init, d) {
        var i :| 0 <= i < |init| && Triggers(init[i], d);
        assert cs[i] == init[i];
      }
      assert forall i :: 0 <= i < |init| ==> cs[i] == init[i];
    }
  }

  /** The condition loop. */
  method EvaluateConditions(cs: seq<PolicyCondition>, d: Deployment) returns (needsRollback: bool)
    ensures needsRollback == NeedsRollback(cs, d)
  {
    needsRollback := false;
    var i := 0;
    while i < |cs|
      invariant 0 <= i <= |cs|
      invariant needsRollback == NeedsRollback(cs[..i], d)
    {
      assert cs[..i + 1][..i] == cs[..i];
      var c := cs[i];
      if c.conditionType == "AvailableReplicas" {
        if c.operator == "LessThan" && d.availableReplicas < 1 {
          needsRollback := true;
        }
      } else if c.conditionType == "UnavailableReplicas" {
        if c.operator == "GreaterThan" && d.unavailableReplicas > 0 {
          needsRollback := true;
        }
      }
      i := i + 1;
    }
    assert cs[..i] == cs;
  }

  /** The deployment with its first container's image replaced. */
  function WithImage(d: Deployment, image: string): Deployment
    requires |d.template.containers| > 0
  {
    var cs := d.template.containers;
    d.(template := d.template.(containers := cs[0 := cs[0].(image := image)]))
  }

  /** What the deployment loop has built so far, and the error that ended it, if any. */
  datatype Pass = Pass(
    monitored: seq<string>,
    current: map<string, int>,
    rollbacks: map<string, int>,
    /** The deployments updated, in order. */
    updated: seq<Deployment>,
    failure: Option<string>)

  /** Whether the deployment is to be rewritten: it needs a rollback and a target image is named. */
  predicate RollsBack(spec: PolicySpec, d: Deployment)
  {
    NeedsRollback(spec.conditions, d) && spec.rollbackToRevision != ""
  }

  /** One turn of the deployment loop; `updateErrs` holds the error of each deployment update that fails. */
  function Step(spec: PolicySpec, updateErrs: map<string, string>, p: Pass, d: Deployment): Pass
  {
    if p.failure.Some? then p
    else
      var key := ResourceKey(d);
      var p1 := p.(monitored := p.monitored + [key], current := p.current[key := d.observedGeneration]);
      if !RollsBack(spec, d) then p1
      else if |d.template.containers| == 0 then p1.(failure := Some(IndexPanic))
      else if key in updateErrs then p1.(failure := Some(updateErrs[key]))
      else p1.(rollbacks := p1.rollbacks[key := d.observedGeneration], updated := p1.updated + [WithImage(d, spec.rollbackToRevision)])
  }

  const Start: Pass := Pass([], map[], map[], [], None)

  /** The deployment loop over the first deployments of the list. */
  function Scan(spec: PolicySpec, updateErrs: map<string, string>, ds: seq<Deployment>): Pass
  {
    if |ds| == 0 then Start else Step(spec, updateErrs, Scan(spec, updateErrs, ds[..|ds| - 1]), ds[|ds| - 1])
  }

  /** The deployments a successful pass rewrites, in list order. */
  function RolledBack(spec: PolicySpec, ds: seq<Deployment>): seq<Deployment>
  {
    if |ds| == 0 then []
    else
      var d := ds[|ds| - 1];
      RolledBack(spec, ds[..|ds| - 1]) + if RollsBack(spec, d) && |d.template.containers| > 0 then [WithImage(d, spec.rollbackToRevision)] else []
  }

  /** A pass without error came through its earlier turns without error too. */
  lemma ScanInit(spec: PolicySpec, updateErrs: map<string, string>, ds: seq<Deployment>)
    requires |ds| > 0 && Scan(spec, updateErrs, ds).failure.None?
    ensures Scan(spec, updateErrs, ds[..|ds| - 1]).failure.None?
    ensures var p := Scan(spec, updateErrs, ds[..|ds| - 1]);
      var d := ds[|ds| - 1];
      var key := ResourceKey(d);
      && Scan(spec, updateErrs, ds).monitored == p.monitored + [key]
      && Scan(spec, updateErrs, ds).current == p.current[key := d.observedGeneration]
      && Scan(spec, updateErrs, ds).rollbacks == (if RollsBack(spec, d) then p.rollbacks[key := d.observedGeneration] else p.rollbacks)
      && Scan(spec, updateErrs, ds).updated ==
           p.updated + (if RollsBack(spec, d) then [WithImage(d, spec.rollbackToRevision)] else [])
      && (RollsBack(spec, d) ==> |d.template.containers| > 0)
  {
  }

  lemma {:induction false} ScanMonitored(spec: PolicySpec, updateErrs: map<string, string>, ds: seq<Deployment>)
    requires Scan(spec, updateErrs, ds).failure.None?
    ensures var p := Scan(spec, updateErrs, ds);
      && |p.monitored| == |ds|
      && (forall i :: 0 <= i < |ds| ==> p.monitored[i] == ResourceKey(ds[i]))
  {
    if |ds| > 0 {
      ScanInit(spec, updateErrs, ds);
      ScanMonitored(spec, updateErrs, ds[..|ds| - 1]);
    }
  }

  lemma {:induction false} ScanCurrentKeys(spec: PolicySpec, updateErrs: map<string, string>, ds: seq<Deployment>)
    requires Scan(spec, updateErrs, ds).failure.None?
    ensures forall k :: k in Scan(spec, updateErrs, ds).current <==> exists i :: 0 <= i < |ds| && ResourceKey(ds[i]) == k
  {
    if |ds| > 0 {
      var init := ds[..|ds| - 1];
      ScanInit(spec, updateErrs, ds);
      ScanCurrentKeys(spec, updateErrs, init);
      assert forall i :: 0 <= i < |init| ==> ds[i] == init[i];
    }
  }

  lemma {:induction false} ScanCurrentValues(spec: PolicySpec, updateErrs: map<string, string>, ds: seq<Deployment>)
    requires Scan(spec, updateErrs, ds).failure.None?
    ensures forall i :: 0 <= i < |ds| && (forall j :: i < j < |ds| ==> ResourceKey(ds[j]) != ResourceKey(ds[i])) ==>
      ResourceKey(ds[i]) in Scan(spec, updateErrs, ds).current
      && Scan(spec, updateErrs, ds).current[ResourceKey(ds[i])] == ds[i].observedGeneration
  {
    if |ds| > 0 {
      var init := ds[..|ds| - 1];
      ScanInit(spec, updateErrs, ds);
      ScanCurrentValues(spec, updateErrs, init);
      var current := Scan(spec, updateErrs, ds).current;
      forall i | 0 <= i < |ds| - 1 && (forall j :: i < j < |ds| ==> ResourceKey(ds[j]) != ResourceKey(ds[i]))
        ensures ResourceKey(ds[i]) in current && current[ResourceKey(ds[i])] == ds[i].observedGeneration
      {
        assert ds[i] == init[i];
        assert forall j :: i < j < |init| ==> init[j] == ds[j];
        assert ResourceKey(ds[|ds| - 1]) != ResourceKey(ds[i]);
      }
    }
  }

  lemma {:induction false} ScanRollbacks(spec: PolicySpec, updateErrs: map<string, string>, ds: seq<Deployment>)
    requires Scan(spec, updateErrs, ds).failure.None?
    ensures var p := Scan(spec, updateErrs, ds);
      forall k :: k in p.rollbacks <==> exists i :: 0 <= i < |ds| && ResourceKey(ds[i]) == k && RollsBack(spec, ds[i])
  {
    if |ds| > 0 {
      var init := ds[..|ds| - 1];
      ScanInit(spec, updateErrs, ds);
      ScanRollbacks(spec, updateErrs, init);
      assert forall i :: 0 <= i < |init| ==> ds[i] == init[i];
    }
  }

  lemma {:induction false} ScanUpdated(spec: PolicySpec, updateErrs: map<string, string>, ds: seq<Deployment>)
    requires Scan(spec, updateErrs, ds).failure.None?
    ensures Scan(spec, updateErrs, ds).updated == RolledBack(spec, ds)
    ensures forall i :: 0 <= i < |ds| && RollsBack(spec, ds[i]) ==> |ds[i].template.containers| > 0
  {
    if |ds| > 0 {
      var init := ds[..|ds| - 1];
      ScanInit(spec, updateErrs, ds);
      ScanUpdated(spec, updateErrs, init);
      assert forall i :: 0 <= i < |init| ==> ds[i] == init[i];
    }
  }

  /**
   * A pass that ends without error lists every deployment's key in order,
   * records a generation for exactly the listed keys (the last listed
   * deployment's for a repeated key), records a rollback for exactly the
   * keys of deployments that roll back, and updates exactly those
   * deployments with the new image.
   */
  lemma ScanProperties(spec: PolicySpec, updateErrs: map<string, string>, ds: seq<Deployment>)
    requires Scan(spec, updateErrs, ds).failure.None?
    ensures var p := Scan(spec, updateErrs, ds);
      && |p.monitored| == |ds|
      && (forall i :: 0 <= i < |ds| ==> p.monitored[i] == ResourceKey(ds[i]))
      && (forall k :: k in p.current <==> exists i :: 0 <= i < |ds| && ResourceKey(ds[i]) == k)
      && (forall i :: 0 <= i < |ds| && (forall j :: i < j < |ds| ==> ResourceKey(ds[j]) != ResourceKey(ds[i])) ==>
            p.current[ResourceKey(ds[i])] == ds[i].observedGeneration)
      && (forall k :: k in p.rollbacks <==> exists i :: 0 <= i < |ds| && ResourceKey(ds[i]) == k && RollsBack(spec, ds[i]))
      && p.updated == RolledBack(spec, ds)
      && (forall i :: 0 <= i < |ds| && RollsBack(spec, ds[i]) ==> |ds[i].template.containers| > 0)
  {
    ScanMonitored(spec, updateErrs, ds);
    ScanCurrentKeys(spec, updateErrs, ds);
    ScanCurrentValues(spec, updateErrs, ds);
    ScanRollbacks(spec, updateErrs, ds);
    ScanUpdated(spec, updateErrs, ds);
  }

  /** Without a target image no deployment is rewritten. */
  lemma {:induction false} NoTargetNoRollback(spec: PolicySpec, ds: seq<Deployment>)
    requires spec.rollbackToRevision == ""
    ensures RolledBack(spec, ds) == []
  {
    if |ds| > 0 {
      NoTargetNoRollback(spec, ds[..|ds| - 1]);
    }
  }

  /** A rewritten deployment differs from the listed one in its first container's image only. */
  lemma WithImageProperties(d: Deployment, image: string)
    requires |d.template.containers| > 0
    ensures var r := WithImage(d, image);
      && |r.template.containers| == |d.template.containers|
      && r.template.containers[0].image == image
      && r.template.containers[0].(image := d.template.containers[0].image) == d.template.containers[0]
      && (forall i :: 1 <= i < |d.template.containers| ==> r.template.containers[i] == d.template.containers[i])
      && r.(template := d.template) == d
  {
  }

  /** The requeue interval in seconds. */
  function Interval(checkInterval: int): int
  {
    if checkInterval == 0 then DefaultInterval else checkInterval
  }

  /** The deployment loop of `Reconcile`. */
  method ScanDeployments(spec: PolicySpec, updateErrs: map<string, string>, ds: seq<Deployment>) returns (p: Pass)
    ensures p == Scan(spec, updateErrs, ds)
  {
    p := Start;
    var i := 0;
    while i < |ds|
      invariant 0 <= i <= |ds|
      invariant p == Scan(spec, updateErrs, ds[..i])
      invariant p.failure.None?
    {
      assert ds[..i + 1][..i] == ds[..i];
      var d := ds[i];
      var key := ResourceKey(d);
      p := p.(monitored := p.monitored + [key], current := p.current[key := d.observedGeneration]);
      var needsRollback := EvaluateConditions(spec.conditions, d);
      if needsRollback && spec.rollbackToRevision != "" {
        if |d.template.containers| == 0 {
          p := p.(failure := Some(IndexPanic));
          FailureSticks(spec, updateErrs, ds, i + 1);
          return;
        }
        var rewritten := WithImage(d, spec.rollbackToRevision);
        if key in updateErrs {
          p := p.(failure := Some(updateErrs[key]));
          FailureSticks(spec, updateErrs, ds, i + 1);
          return;
        }
        p := p.(rollbacks := p.rollbacks[key := d.observedGeneration], updated := p.updated + [rewritten]);
      }
      i := i + 1;
    }
    assert ds[..i] == ds;
  }

  /** Once the loop has failed, later deployments change nothing. */
  lemma {:induction false} FailureSticks(spec: PolicySpec, updateErrs: map<string, string>, ds: seq<Deployment>, n: nat)
    requires n <= |ds|
    requires Scan(spec, updateErrs, ds[..n]).failure.Some?
    ensures Scan(spec, updateErrs, ds) == Scan(spec, updateErrs, ds[..n])
  {
    if n < |ds| {
      assert ds[..|ds| - 1][..n] == ds[..n];
      FailureSticks(spec, updateErrs, ds[..|ds| - 1], n);
    } else {
      assert ds[..n] == ds;
    }
  }

  /** The answer of `Reconcile`: the requeue interval in seconds (0 for none) and the error returned. */
  datatype Outcome = Outcome(requeueAfter: int, err: Option<string>)

  /**
   * `Reconcile`. A policy that no longer exists ends the pass quietly and
   * any other failure to read it is returned. A failure to list the
   * deployments, to update one of them or to write the status is returned
   * and leaves the stored status as it was; a completed pass rebuilds the
   * three collections, stamps the time, counts one more application, and
   * asks to run again after the check interval.
   */
  method Reconcile(fetch: Fetch<RollbackPolicy>, listed: Result<seq<Deployment>>, updateErrs: map<string, string>,
                   now: int, statusErr: Option<string>) returns (o: Outcome, updated: seq<Deployment>)
    modifies if fetch.Fetched? then {fetch.obj} else {}
    ensures fetch.NotFound? ==> o == Outcome(0, None) && updated == []
    ensures fetch.Failed? ==> o == Outcome(0, Some(fetch.message)) && updated == []
    ensures fetch.Fetched? ==>
      var policy := fetch.obj;
      && (listed.Err? ==> o == Outcome(0, Some(listed.error)) && updated == [] && policy.status == old(policy.status))
      && (listed.Ok? ==>
        var p := Scan(policy.spec, updateErrs, listed.value);
        && updated == p.updated
        && (p.failure.Some? ==> o == Outcome(0, p.failure) && policy.status == old(policy.status))
        && (p.failure.None? && statusErr.Some? ==> o == Outcome(0, statusErr) && policy.status == old(policy.status))
        && (p.failure.None? && statusErr.None? ==>
              && o == Outcome(Interval(policy.spec.checkInterval), None)
              && policy.status == PolicyStatus(p.monitored, p.current, p.rollbacks, Some(now), "Succeeded",
                                               "Rollback verificado com sucesso", old(policy.status.appliedCount) + 1)))
  {
    updated := [];
    if fetch.NotFound? {
      return Outcome(0, None), [];
    }
    if fetch.Failed? {
      return Outcome(0, Some(fetch.message)), [];
    }
    var policy := fetch.obj;
    if listed.Err? {
      return Outcome(0, Some(listed.error)), [];
    }
    var p := ScanDeployments(policy.spec, updateErrs, listed.value);
    updated := p.updated;
    if p.failure.Some? {
      return Outcome(0, p.failure), updated;
    }
    var status := PolicyStatus(p.monitored, p.current, p.rollbacks, Some(now), "Succeeded",
                               "Rollback verificado com sucesso", policy.status.appliedCount + 1);
    if statusErr.Some? {
      return Outcome(0, statusErr), updated;
    }
    policy.status := status;
    o := Outcome(Interval(policy.spec.checkInterval), None);
  }
}
