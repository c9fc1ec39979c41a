/**
 * The parts of the Kubernetes `apps/v1` objects the rollback operator reads
 * and writes, and the three answers of a client `Get`.
 */
module Kube {
  import opened Wrappers

  datatype Container = Container(name: string, image: string)

  /** A pod template; only its labels and containers are modelled. */
  datatype PodTemplate = PodTemplate(labels: map<string, string>, containers: seq<Container>)

  /** A `DeploymentCondition`; `lastUpdateTime` is in nanoseconds, like Go's `time.Time`. */
  datatype DeploymentCondition = DeploymentCondition(conditionType: string, status: string, lastUpdateTime: int)

  datatype Deployment = Deployment(
    namespace: string,
    name: string,
    /** A nil annotation map is `None`. */
    annotations: Option<map<string, string>>,
    /** `*Spec.Replicas`. */
    replicas: int,
    template: PodTemplate,
    observedGeneration: int,
    availableReplicas: int,
    unavailableReplicas: int,
    conditions: seq<DeploymentCondition>)

  datatype ReplicaSet = ReplicaSet(annotations: map<string, string>, template: PodTemplate)

  /** What a client `Get` answers: the object, a not-found error, or any other error. */
  datatype Fetch<T> = Fetched(obj: T) | NotFound | Failed(message: string)

  /** Reading a Go map: a missing key reads as the empty string. */
  function Lookup(m: map<string, string>, k: string): string
  {
    if k in m then m[k] else ""
  }
}
