/**
 * The parts of the Kubernetes API objects (core/v1, apps/v1, meta/v1) that
 * the core reads or writes, as values. Fields the core never touches are
 * not represented.
 */
module Kube {
  import opened Wrappers

  /** A byte of a Go `[]byte` or `string`. */
  newtype byte = x: int | 0 <= x < 256

  /** Go `[]byte`, and also Go `string` where its bytes matter. */
  type Bytes = seq<byte>

  /** Go `int32`. */
  newtype int32 = x: int | -0x8000_0000 <= x < 0x8000_0000

  /** A Go `map[string]string` that may be nil (`None`). */
  type StringMap = Option<map<string, string>>

  /** Go's `m[k]` on a `map[string]string`: the zero value "" when `m` is nil or lacks `k`. */
  function Lookup(m: StringMap, k: string): (v: string)
    ensures m.Some? && k in m.value ==> v == m.value[k]
    ensures m.None? || k !in m.value ==> v == ""
  {
    if m.Some? && k in m.value then m.value[k] else ""
  }

  /** metav1.OwnerReference, restricted to the four identifying fields. */
  datatype OwnerReference = OwnerReference(apiVersion: string, kind: string, name: string, uid: string)

  /** metav1.ObjectMeta. */
  datatype ObjectMeta = ObjectMeta(
    name: string,
    namespace: string,
    labels: StringMap,
    annotations: StringMap,
    ownerReferences: seq<OwnerReference>)

  const EmptyMeta := ObjectMeta("", "", None, None, [])

  /** v1.Secret. `Data` is never nil in the core, so it is a plain map. */
  datatype Secret = Secret(meta: ObjectMeta, data: map<string, Bytes>, secretType: string)

  /** corev1.ServiceAccount. */
  datatype ServiceAccount = ServiceAccount(meta: ObjectMeta)

  /** corev1.EnvVar. */
  datatype EnvVar = EnvVar(name: string, value: string)

  /** corev1.Container. */
  datatype Container = Container(name: string, image: string, env: seq<EnvVar>)

  /** corev1.PodSpec. */
  datatype PodSpec = PodSpec(serviceAccountName: string, containers: seq<Container>)

  /** corev1.PodTemplateSpec: the pod's labels and annotations and its spec. */
  datatype PodTemplateSpec = PodTemplateSpec(labels: StringMap, annotations: StringMap, spec: PodSpec)

  /** The zero value of corev1.PodTemplateSpec. */
  const EmptyPodTemplate := PodTemplateSpec(None, None, PodSpec("", []))

  /** metav1.LabelSelector. */
  datatype LabelSelector = LabelSelector(matchLabels: StringMap)

  /** appsv1.DeploymentStrategy ("RollingUpdate" or "Recreate"). */
  datatype DeploymentStrategy = DeploymentStrategy(strategyType: string)

  /** appsv1.DeploymentSpec; Go pointer fields are `Option`s. */
  datatype DeploymentSpec = DeploymentSpec(
    replicas: Option<int32>,
    selector: Option<LabelSelector>,
    template: PodTemplateSpec,
    strategy: DeploymentStrategy,
    revisionHistoryLimit: Option<int32>)

  /** appsv1.Deployment. */
  datatype Deployment = Deployment(meta: ObjectMeta, spec: DeploymentSpec)
}
