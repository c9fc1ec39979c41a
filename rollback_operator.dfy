/**
 * The informer-driven rollback controller of the rollback operator: the
 * health test of a deployment, the choice of the revision and ReplicaSet to
 * roll back to, the rewrite of the deployment, and how a work-queue item is
 * synchronised, forgotten or re-queued. Everything the Kubernetes client
 * answers is an input (`Cluster`); the clock is `Cluster.now`.
 */
module RollbackOperator {
  import opened Wrappers
  import opened Text
  import opened Kube

  /** Ten minutes in nanoseconds, the resolution of Go's `time.Duration`. */
  const TenMinutes: int := 600_000_000_000

  const RevisionAnnotation: string := "deployment.kubernetes.io/revision"
  const RollbackTimestampAnnotation: string := "rollback.autocura-cognitiva.io/timestamp"
  const RollbackRevisionAnnotation: string := "rollback.autocura-cognitiva.io/revision"

  // ---------------------------------------------------------------- health

  /** A condition that makes a deployment unhealthy outright. */
  predicate Failing(c: DeploymentCondition)
  {
    || (c.conditionType == "Progressing" && c.status != "True")
    || (c.conditionType == "ReplicaFailure" && c.status == "True")
  }

  /** A Progressing=True condition last updated more than ten minutes before `now`. */
  predicate Stalled(c: DeploymentCondition, now: int)
  {
    c.conditionType == "Progressing" && c.status == "True" && now - c.lastUpdateTime > TenMinutes
  }

  /** The first loop of `isDeploymentHealthy`: false at the first failing condition. */
  function ConditionsPass(cs: seq<DeploymentCondition>): bool
  {
    if |cs| == 0 then true
    else if Failing(cs[0]) then false
    else ConditionsPass(cs[1..])
  }

  /** The second loop of `isDeploymentHealthy`: false at the first stalled condition. */
  function NotStalled(cs: seq<DeploymentCondition>, now: int): bool
  {
    if |cs| == 0 then true
    else if Stalled(cs[0], now) then false
    else NotStalled(cs[1..], now)
  }

  /** `isDeploymentHealthy`, with the clock as a parameter. */
  function IsDeploymentHealthy(d: Deployment, now: int): bool
  {
    ConditionsPass(d.conditions) && (d.availableReplicas >= d.replicas || NotStalled(d.conditions, now))
  }

  lemma {:induction false} ConditionsPassIff(cs: seq<DeploymentCondition>)
    ensures ConditionsPass(cs) <==> forall i :: 0 <= i < |cs| ==> !Failing(cs[i])
  {
    if |cs| > 0 {
      ConditionsPassIff(cs[1..]);
      assert forall i :: 1 <= i < |cs| ==> cs[i] == cs[1..][i - 1];
    }
  }

  lemma {:induction false} NotStalledIff(cs: seq<DeploymentCondition>, now: int)
    ensures NotStalled(cs, now) <==> forall i :: 0 <= i < |cs| ==> !Stalled(cs[i], now)
  {
    if |cs| > 0 {
      NotStalledIff(cs[1..], now);
      assert forall i :: 1 <= i < |cs| ==> cs[i] == cs[1..][i - 1];
    }
  }

  /**
   * A deployment is healthy exactly when no Progressing condition is other
   * than True, no ReplicaFailure condition is True, and, if fewer replicas
   * are available than desired, no Progressing=True condition is older
   * than ten minutes.
   */
  lemma IsDeploymentHealthyIff(d: Deployment, now: int)
    ensures IsDeploymentHealthy(d, now) <==>
      && (forall i :: 0 <= i < |d.conditions| ==> !Failing(d.conditions[i]))
      && (d.availableReplicas < d.replicas ==> forall i :: 0 <= i < |d.conditions| ==> !Stalled(d.conditions[i], now))
  {
    ConditionsPassIff(d.conditions);
    NotStalledIff(d.conditions, now);
  }

  /** An unhealthy deployment stays unhealthy as time passes, if nothing else changes. */
  lemma StaysUnhealthy(d: Deployment, now: int, later: int)
    requires now <= later && !IsDeploymentHealthy(d, now)
    ensures !IsDeploymentHealthy(d, later)
  {
    IsDeploymentHealthyIff(d, now);
    IsDeploymentHealthyIff(d, later);
  }

  // ------------------------------------------------------------- revisions

  /** The previous revision: the largest revision strictly between 0 and the observed generation, 0 if none. */
  function PreviousRevision(revs: seq<int>, generation: int): int
  {
    if |revs| == 0 then 0
    else
      var p := PreviousRevision(revs[..|revs| - 1], generation);
      var r := revs[|revs| - 1];
      if r > 0 && r < generation && r > p then r else p
  }

  /** A revision `rollbackDeployment` may roll back to. */
  predicate Eligible(r: int, generation: int)
  {
    0 < r < generation
  }

  /**
   * The previous revision is 0 exactly when no revision is eligible;
   * otherwise it is an eligible revision of the list and no eligible
   * revision of the list is larger.
   */
  lemma {:induction false} PreviousRevisionIsMax(revs: seq<int>, generation: int)
    ensures var p := PreviousRevision(revs, generation);
      && p >= 0
      && (p == 0 <==> forall i :: 0 <= i < |revs| ==> !Eligible(revs[i], generation))
      && (p > 0 ==> p in revs && Eligible(p, generation))
      && (forall i :: 0 <= i < |revs| && Eligible(revs[i], generation) ==> revs[i] <= p)
  {
    if |revs| > 0 {
      var init := revs[..|revs| - 1];
      PreviousRevisionIsMax(init, generation);
      assert forall i :: 0 <= i < |init| ==> revs[i] == init[i];
    }
  }

  /** The revision-selection loop. */
  method FindPreviousRevision(revs: seq<int>, generation: int) returns (previous: int)
    ensures previous == PreviousRevision(revs, generation)
  {
    previous := 0;
    var i := 0;
    while i < |revs|
      invariant 0 <= i <= |revs|
      invariant previous == PreviousRevision(revs[..i], generation)
    {
      assert revs[..i + 1][..i] == revs[..i];
      var r := revs[i];
      if r > 0 && r < generation && r > previous {
        previous := r;
      }
      i := i + 1;
    }
    assert revs[..i] == revs;
  }

  /** A ReplicaSet whose revision annotation is the decimal form of `revision`. */
  predicate HasRevision(rs: ReplicaSet, revision: int)
  {
    Lookup(rs.annotations, RevisionAnnotation) == IntText(revision)
  }

  /** The first ReplicaSet of the list carrying the revision. */
  function TargetReplicaSet(rss: seq<ReplicaSet>, revision: int): Option<ReplicaSet>
  {
    if |rss| == 0 then None
    else if HasRevision(rss[0], revision) then Some(rss[0])
    else TargetReplicaSet(rss[1..], revision)
  }

  /** The target is found exactly when some ReplicaSet carries the revision, and it is the first that does. */
  lemma {:induction false} TargetReplicaSetIsFirst(rss: seq<ReplicaSet>, revision: int)
    ensures TargetReplicaSet(rss, revision).Some? <==> exists i :: 0 <= i < |rss| && HasRevision(rss[i], revision)
    ensures TargetReplicaSet(rss, revision).Some? ==>
      exists i :: 0 <= i < |rss| && rss[i] == TargetReplicaSet(rss, revision).value && HasRevision(rss[i], revision)
        && forall j :: 0 <= j < i ==> !HasRevision(rss[j], revision)
  {
    if |rss| > 0 && !HasRevision(rss[0], revision) {
      TargetReplicaSetIsFirst(rss[1..], revision);
      assert forall i :: 1 <= i < |rss| ==> rss[i] == rss[1..][i - 1];
      if TargetReplicaSet(rss, revision).Some? {
        var i :| 0 <= i < |rss[1..]| && rss[1..][i] == TargetReplicaSet(rss, revision).value
          && HasRevision(rss[1..][i], revision) && forall j :: 0 <= j < i ==> !HasRevision(rss[1..][j], revision);
        assert rss[i + 1] == rss[1..][i];
      }
    }
  }

  /** The revision annotation of a positive revision names that revision and no other. */
  lemma HasRevisionExactly(rs: ReplicaSet, revision: int, other: int)
    requires revision > 0 && other > 0
    requires HasRevision(rs, revision) && HasRevision(rs, other)
    ensures revision == other
  {
    NatTextInjective(revision, other);
  }

  /** The ReplicaSet search loop, which stops at the first match. */
  method FindTargetReplicaSet(rss: seq<ReplicaSet>, revision: int) returns (target: Option<ReplicaSet>)
    ensures target == TargetReplicaSet(rss, revision)
  {
    target := None;
    var want := IntText(revision);
    var i := 0;
    while i < |rss|
      invariant 0 <= i <= |rss|
      invariant TargetReplicaSet(rss, revision) == TargetReplicaSet(rss[i..], revision)
    {
      if Lookup(rss[i].annotations, RevisionAnnotation) == want {
        target := Some(rss[i]);
        return;
      }
      assert rss[i..][1..] == rss[i + 1..];
      i := i + 1;
    }
  }

  // -------------------------------------------------------------- rollback

  /** The deployment as rewritten for the rollback: the target's template and the two rollback annotations. */
  function WithRollback(d: Deployment, rs: ReplicaSet, revision: int, timestamp: string): Deployment
  {
    var base := match d.annotations
      case None => map[]
      case Some(m) => m;
    d.(template := rs.template,
       annotations := Some(base[RollbackTimestampAnnotation := timestamp][RollbackRevisionAnnotation := IntText(revision)]))
  }

  /**
   * The rewrite installs the target's template, sets the two rollback
   * annotations (creating the map when it is nil), keeps every other
   * annotation, and changes nothing else.
   */
  lemma WithRollbackProperties(d: Deployment, rs: ReplicaSet, revision: int, timestamp: string)
    ensures var r := WithRollback(d, rs, revision, timestamp);
      && r.template == rs.template
      && r.annotations.Some?
      && r.annotations.value[RollbackTimestampAnnotation] == timestamp
      && r.annotations.value[RollbackRevisionAnnotation] == IntText(revision)
      && (forall k :: k != RollbackTimestampAnnotation && k != RollbackRevisionAnnotation ==>
            (k in r.annotations.value <==> d.annotations.Some? && k in d.annotations.value)
            && (k in r.annotations.value ==> r.annotations.value[k] == d.annotations.value[k]))
      && r.(template := d.template, annotations := d.annotations) == d
  {
  }

  /** What a ControllerRevision or ReplicaSet listing returns. */
  datatype Cluster = Cluster(
    /** The answer of the deployment `Get` for a namespace and a name. */
    deployments: (string, string) -> Fetch<Deployment>,
    revisions: Result<seq<int>>,
    replicaSets: Result<seq<ReplicaSet>>,
    /** The error of the deployment `Update`, if it fails. */
    updateErr: Option<string>,
    /** `time.Now()` in nanoseconds, and its RFC 3339 rendering. */
    now: int,
    timestamp: string)

  /** Everything `rollbackDeployment` decides before it sends the update: the rewritten deployment or an error. */
  function Rollback(d: Deployment, revisions: Result<seq<int>>, replicaSets: Result<seq<ReplicaSet>>, timestamp: string): Result<Deployment>
  {
    match revisions
    case Err(e) => Err("erro ao obter histórico de revisões: " + e)
    case Ok(revs) =>
      if |revs| <= 1 then Err("não há revisões anteriores disponíveis para rollback")
      else
        var previous := PreviousRevision(revs, d.observedGeneration);
        if previous == 0 then Err("não foi possível determinar a revisão anterior para rollback")
        else match replicaSets
          case Err(e) => Err("erro ao listar ReplicaSets: " + e)
          case Ok(rss) =>
            match TargetReplicaSet(rss, previous)
            case None => Err("não foi possível encontrar o ReplicaSet correspondente à revisão " + IntText(previous))
            case Some(rs) => Ok(WithRollback(d, rs, previous, timestamp))
  }

  /**
   * A rollback is prepared exactly when both listings succeed, there are
   * at least two revisions, one of them is eligible and some ReplicaSet
   * carries the largest eligible one; the deployment is then rewritten to
   * that ReplicaSet's template.
   */
  lemma RollbackProperties(d: Deployment, revisions: Result<seq<int>>, replicaSets: Result<seq<ReplicaSet>>, timestamp: string)
    ensures Rollback(d, revisions, replicaSets, timestamp).Ok? <==>
      && revisions.Ok? && |revisions.value| > 1
      && (exists i :: 0 <= i < |revisions.value| && Eligible(revisions.value[i], d.observedGeneration))
      && replicaSets.Ok?
      && (exists i :: 0 <= i < |replicaSets.value| &&
            HasRevision(replicaSets.value[i], PreviousRevision(revisions.value, d.observedGeneration)))
    ensures Rollback(d, revisions, replicaSets, timestamp).Ok? ==>
      var previous := PreviousRevision(revisions.value, d.observedGeneration);
      && Eligible(previous, d.observedGeneration)
      && TargetReplicaSet(replicaSets.value, previous).Some?
      && Rollback(d, revisions, replicaSets, timestamp).value
         == WithRollback(d, TargetReplicaSet(replicaSets.value, previous).value, previous, timestamp)
  {
    if revisions.Ok? {
      PreviousRevisionIsMax(revisions.value, d.observedGeneration);
      if replicaSets.Ok? {
        TargetReplicaSetIsFirst(replicaSets.value, PreviousRevision(revisions.value, d.observedGeneration));
      }
    }
  }

  /** The effect of handling one item: the deployment sent in an update, if any, and the error returned. */
  datatype SyncResult = SyncResult(updated: Option<Deployment>, err: Option<string>)

  const Quiet: SyncResult := SyncResult(None, None)

  function RollbackOutcome(d: Deployment, c: Cluster): SyncResult
  {
    match Rollback(d, c.revisions, c.replicaSets, c.timestamp)
    case Err(e) => SyncResult(None, Some(e))
    case Ok(r) =>
      SyncResult(Some(r), match c.updateErr
        case None => None
        case Some(e) => Some("erro ao atualizar deployment para rollback: " + e))
  }

  /** `checkDeploymentHealth`. */
  function HealthOutcome(d: Deployment, c: Cluster): SyncResult
  {
    if IsDeploymentHealthy(d, c.now) || d.observedGeneration <= 1 then Quiet else RollbackOutcome(d, c)
  }

  /**
   * A healthy deployment, or one without an earlier generation, is left
   * alone; otherwise a deployment is sent exactly when the rollback can be
   * prepared, and it is the rewritten one.
   */
  lemma HealthOutcomeProperties(d: Deployment, c: Cluster)
    ensures IsDeploymentHealthy(d, c.now) || d.observedGeneration <= 1 ==> HealthOutcome(d, c) == Quiet
    ensures HealthOutcome(d, c).updated.Some? <==>
      !IsDeploymentHealthy(d, c.now) && d.observedGeneration > 1 && Rollback(d, c.revisions, c.replicaSets, c.timestamp).Ok?
    ensures HealthOutcome(d, c).updated.Some? ==>
      HealthOutcome(d, c).updated.value == Rollback(d, c.revisions, c.replicaSets, c.timestamp).value
      && (HealthOutcome(d, c).err.None? <==> c.updateErr.None?)
  {
  }

  /** `rollbackDeployment`: both searches, the rewrite, and the update. */
  method RollbackDeployment(d: Deployment, c: Cluster) returns (r: SyncResult)
    ensures r == RollbackOutcome(d, c)
  {
    if c.revisions.Err? {
      return SyncResult(None, Some("erro ao obter histórico de revisões: " + c.revisions.error));
    }
    var revs := c.revisions.value;
    if |revs| <= 1 {
      return SyncResult(None, Some("não há revisões anteriores disponíveis para rollback"));
    }
    var previous := FindPreviousRevision(revs, d.observedGeneration);
    if previous == 0 {
      return SyncResult(None, Some("não foi possível determinar a revisão anterior para rollback"));
    }
    if c.replicaSets.Err? {
      return SyncResult(None, Some("erro ao listar ReplicaSets: " + c.replicaSets.error));
    }
    var target := FindTargetReplicaSet(c.replicaSets.value, previous);
    if target.None? {
      return SyncResult(None, Some("não foi possível encontrar o ReplicaSet correspondente à revisão " + IntText(previous)));
    }
    var updated := WithRollback(d, target.value, previous, c.timestamp);
    if c.updateErr.Some? {
      return SyncResult(Some(updated), Some("erro ao atualizar deployment para rollback: " + c.updateErr.value));
    }
    return SyncResult(Some(updated), None);
  }

  /** `checkDeploymentHealth`. */
  method CheckDeploymentHealth(d: Deployment, c: Cluster) returns (r: SyncResult)
    ensures r == HealthOutcome(d, c)
  {
    if IsDeploymentHealthy(d, c.now) {
      return Quiet;
    }
    if d.observedGeneration <= 1 {
      return Quiet;
    }
    r := RollbackDeployment(d, c);
  }

  // ------------------------------------------------------------ queue keys

  /** The position of the first `/` in `s`, if any. */
  function SlashAt(s: string): (r: Option<nat>)
    ensures r.Some? ==> r.value < |s| && s[r.value] == '/' && '/' !in s[..r.value]
    ensures r.None? ==> '/' !in s
  {
    if |s| == 0 then None
    else if s[0] == '/' then Some(0)
    else match SlashAt(s[1..])
      case None => None
      case Some(i) =>
        assert s[..i + 1] == [s[0]] + s[1..][..i];
        Some(i + 1)
  }

  /** `cache.MetaNamespaceKeyFunc`: `namespace/name`, or the bare name outside a namespace. */
  function MetaNamespaceKey(namespace: string, name: string): string
  {
    if |namespace| > 0 then namespace + "/" + name else name
  }

  /** `cache.SplitMetaNamespaceKey`: no `/` is a bare name, one `/` separates namespace and name, more is an error. */
  function SplitMetaNamespaceKey(key: string): Result<(string, string)>
  {
    match SlashAt(key)
    case None => Ok(("", key))
    case Some(i) =>
      if '/' in key[i + 1..] then Err("unexpected key format: " + key) else Ok((key[..i], key[i + 1..]))
  }

  /** Splitting a key made from a namespace and a name without `/` gives them back. */
  lemma SplitKeyRoundTrip(namespace: string, name: string)
    requires '/' !in namespace && '/' !in name
    ensures SplitMetaNamespaceKey(MetaNamespaceKey(namespace, name)) == Ok((namespace, name))
  {
    if |namespace| > 0 {
      var key := namespace + "/" + name;
      assert key[|namespace|] == '/';
      assert key[..|namespace|] == namespace;
      assert key[|namespace| + 1..] == name;
    }
  }

  /** Splitting fails exactly on keys with two or more `/`. */
  lemma SplitKeyFails(key: string)
    ensures SplitMetaNamespaceKey(key).Err? <==>
      exists i, j :: 0 <= i < j < |key| && key[i] == '/' && key[j] == '/'
  {
    match SlashAt(key)
    case None =>
    case Some(i) =>
      var rest := key[i + 1..];
      if '/' in rest {
        var k :| 0 <= k < |rest| && rest[k] == '/';
        assert key[i + 1 + k] == '/';
      } else {
        forall a, b | 0 <= a < b < |key| && key[a] == '/' && key[b] == '/' ensures false {
        }
      }
  }

  // ------------------------------------------------------------ work queue

  /** A work-queue item: a key string, or any other object. */
  datatype Item = Key(key: string) | Other(description: string)

  /** Adding an item already waiting does not queue it twice. */
  function Enqueued(pending: seq<Item>, item: Item): seq<Item>
  {
    if item in pending then pending else pending + [item]
  }

  /** The rate-limiting work queue: the waiting items and the rate limiter's failure count per item. */
  class WorkQueue {
    var pending: seq<Item>
    var failures: map<Item, nat>
    var shuttingDown: bool

    constructor()
      ensures pending == [] && failures == map[] && !shuttingDown
    {
      pending := [];
      failures := map[];
      shuttingDown := false;
    }

    method Add(item: Item)
      modifies this
      ensures pending == Enqueued(old(pending), item)
      ensures failures == old(failures) && shuttingDown == old(shuttingDown)
    {
      pending := Enqueued(pending, item);
    }

    /** Takes the next item; `None` once the queue is shut down and empty. */
    method Get() returns (item: Option<Item>)
      requires |pending| > 0 || shuttingDown
      modifies this
      ensures old(pending) == [] ==> item.None? && pending == old(pending)
      ensures old(pending) != [] ==> item == Some(old(pending)[0]) && pending == old(pending)[1..]
      ensures failures == old(failures) && shuttingDown == old(shuttingDown)
    {
      if pending == [] {
        return None;
      }
      item := Some(pending[0]);
      pending := pending[1..];
    }

    /** Clears the item's failure count. */
    method Forget(item: Item)
      modifies this
      ensures failures == old(failures) - {item}
      ensures pending == old(pending) && shuttingDown == old(shuttingDown)
    {
      failures := failures - {item};
    }

    /** Counts one more failure and queues the item again. */
    method AddRateLimited(item: Item)
      modifies this
      ensures failures == old(failures)[item := (if item in old(failures) then old(failures)[item] else 0) + 1]
      ensures pending == Enqueued(old(pending), item)
      ensures shuttingDown == old(shuttingDown)
    {
      var n := if item in failures then failures[item] else 0;
      failures := failures[item := n + 1];
      pending := Enqueued(pending, item);
    }
  }

  /** `syncHandler` on the cluster's answers. */
  function Sync(item: Item, c: Cluster): SyncResult
  {
    match item
    case Other(_) => Quiet
    case Key(key) =>
      match SplitMetaNamespaceKey(key)
      case Err(_) => Quiet
      case Ok((namespace, name)) =>
        match c.deployments(namespace, name)
        case Fetched(d) => HealthOutcome(d, c)
        case NotFound => Quiet
        case Failed(e) => SyncResult(None, Some(e))
  }

  /**
   * An item that is not a string, a key that does not parse and a
   * deployment that is not found return no error and update nothing; any
   * other failure to get the deployment is returned as the error.
   */
  lemma SyncProperties(item: Item, c: Cluster)
    ensures item.Other? ==> Sync(item, c) == Quiet
    ensures item.Key? && SplitMetaNamespaceKey(item.key).Err? ==> Sync(item, c) == Quiet
    ensures item.Key? && SplitMetaNamespaceKey(item.key).Ok? ==>
      var (namespace, name) := SplitMetaNamespaceKey(item.key).value;
      && (c.deployments(namespace, name).NotFound? ==> Sync(item, c) == Quiet)
      && (c.deployments(namespace, name).Failed? ==> Sync(item, c) == SyncResult(None, Some(c.deployments(namespace, name).message)))
      && (c.deployments(namespace, name).Fetched? ==> Sync(item, c) == HealthOutcome(c.deployments(namespace, name).obj, c))
    ensures Sync(item, c).updated.Some? ==> item.Key?
  {
  }

  class RollbackController {
    const workqueue: WorkQueue

    constructor()
      ensures fresh(workqueue) && workqueue.pending == [] && workqueue.failures == map[]
    {
      workqueue := new WorkQueue();
    }

    /** `handleObject` for an object with metadata: its key is queued. */
    method HandleObject(namespace: string, name: string)
      modifies workqueue
      ensures workqueue.pending == Enqueued(old(workqueue.pending), Key(MetaNamespaceKey(namespace, name)))
      ensures workqueue.failures == old(workqueue.failures)
    {
      workqueue.Add(Key(MetaNamespaceKey(namespace, name)));
    }

    /** `syncHandler`: a non-string item is forgotten at once. */
    method SyncHandler(item: Item, c: Cluster) returns (r: SyncResult)
      modifies workqueue
      ensures r == Sync(item, c)
      ensures workqueue.failures == if item.Other? then old(workqueue.failures) - {item} else old(workqueue.failures)
      ensures workqueue.pending == old(workqueue.pending)
    {
      if item.Other? {
        workqueue.Forget(item);
        return Quiet;
      }
      var parsed := SplitMetaNamespaceKey(item.key);
      if parsed.Err? {
        return Quiet;
      }
      var (namespace, name) := parsed.value;
      var fetched := c.deployments(namespace, name);
      if fetched.Fetched? {
        r := CheckDeploymentHealth(fetched.obj, c);
      } else if fetched.Failed? {
        r := SyncResult(None, Some(fetched.message));
      } else {
        r := Quiet;
      }
    }

    /**
     * `processNextWorkItem`: false once the queue is shut down and empty;
     * otherwise the next item is synchronised, re-queued with one more
     * failure counted when that returns an error, and forgotten when not.
     */
    method ProcessNextWorkItem(c: Cluster) returns (more: bool, r: Option<SyncResult>)
      requires |workqueue.pending| > 0 || workqueue.shuttingDown
      modifies workqueue
      ensures old(workqueue.pending) == [] ==>
        !more && r.None? && workqueue.pending == old(workqueue.pending) && workqueue.failures == old(workqueue.failures)
      ensures old(workqueue.pending) != [] ==>
        var item := old(workqueue.pending)[0];
        var rest := old(workqueue.pending)[1..];
        && more && r == Some(Sync(item, c))
        && (Sync(item, c).err.Some? ==>
              && workqueue.pending == Enqueued(rest, item)
              && workqueue.failures == old(workqueue.failures)[item := (if item in old(workqueue.failures) then old(workqueue.failures)[item] else 0) + 1])
        && (Sync(item, c).err.None? ==> workqueue.pending == rest && workqueue.failures == old(workqueue.failures) - {item})
    {
      var obj := workqueue.Get();
      if obj.None? {
        return false, None;
      }
      var s := SyncHandler(obj.value, c);
      if s.err.Some? {
        workqueue.AddRateLimited(obj.value);
        return true, Some(s);
      }
      workqueue.Forget(obj.value);
      return true, Some(s);
    }
  }
}
