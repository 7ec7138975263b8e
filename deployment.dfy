/**
 * Hash-labelled Deployments (pkg/deployment/reconcile.go): the expected
 * Deployment carries, under a label, a hash of its own content, and the
 * reconciler updates the stored Deployment only when the stored label
 * differs from the expected one.
 */
module Deployment {
  import opened Wrappers
  import opened Kube
  import Fnv
  import Decimal

  /** The label under which the template hash is stored. */
  const TemplateHashLabelName := "secrets-operator/template-hash"

  /** `defaultRevisionHistoryLimit` is declared and never assigned: Go's zero value. */
  const DefaultRevisionHistoryLimit: int32 := 0

  /** The settings a Deployment is built from. */
  datatype Params = Params(
    name: string,
    namespace: string,
    selector: StringMap,
    labels: StringMap,
    podTemplateSpec: PodTemplateSpec,
    replicas: int32,
    strategy: DeploymentStrategy)

  /** `GetTemplateHashLabel`: the label's value, "" when it (or the whole map) is absent. */
  function GetTemplateHashLabel(labels: StringMap): (v: string)
    ensures labels.Some? && TemplateHashLabelName in labels.value ==> v == labels.value[TemplateHashLabelName]
    ensures labels.None? || TemplateHashLabelName !in labels.value ==> v == ""
  {
    Lookup(labels, TemplateHashLabelName)
  }

  /**
   * `HashObject`: FNV-1 32 over the printed form of `obj`, in decimal.
   * The printer (spew, which sorts map keys and follows pointers) is the
   * parameter `render`; the result is the decimal form of a 32-bit value.
   */
  function HashObject<T>(render: T -> Bytes, obj: T): (h: string)
    ensures 1 <= |h| <= 10
    ensures forall i | 0 <= i < |h| :: Decimal.IsDigit(h[i])
    ensures Decimal.Parse(h) == Fnv.Sum32(render(obj))
  {
    var sum := Fnv.Sum32(render(obj));
    Decimal.FormatUint32Length(sum);
    Decimal.ParseFormat(sum);
    Decimal.Format(sum)
  }

  /** Two objects get the same hash exactly when their printed forms have the same FNV-1 sum. */
  lemma HashObjectEqualIff<T>(render: T -> Bytes, a: T, b: T)
    ensures HashObject(render, a) == HashObject(render, b) <==> Fnv.Sum32(render(a)) == Fnv.Sum32(render(b))
  {
    if HashObject(render, a) == HashObject(render, b) {
      Decimal.FormatInjective(Fnv.Sum32(render(a)), Fnv.Sum32(render(b)));
    }
  }

  /**
   * `setHashLabel`: the labels (a fresh map when nil) with `labelName` set
   * to the hash of `template`; every other label is kept.
   */
  function SetHashLabel<T>(render: T -> Bytes, labelName: string, labels: StringMap, template: T): (r: map<string, string>)
    ensures labelName in r && r[labelName] == HashObject(render, template)
    ensures labels.None? ==> r.Keys == {labelName}
    ensures labels.Some? ==> r.Keys == labels.value.Keys + {labelName}
    ensures labels.Some? ==> forall k | k in labels.value && k != labelName :: r[k] == labels.value[k]
  {
    var m := if labels.None? then map[] else labels.value;
    m[labelName := HashObject(render, template)]
  }

  /** `SetTemplateHashLabel`: `setHashLabel` under the template-hash label. */
  function SetTemplateHashLabel<T>(render: T -> Bytes, labels: StringMap, template: T): (r: map<string, string>)
    ensures GetTemplateHashLabel(Some(r)) == HashObject(render, template)
    ensures r.Keys == (if labels.None? then {} else labels.value.Keys) + {TemplateHashLabelName}
    ensures labels.Some? ==> forall k | k in labels.value && k != TemplateHashLabelName :: k in r && r[k] == labels.value[k]
  {
    SetHashLabel(render, TemplateHashLabelName, labels, template)
  }

  /**
   * `WithTemplateHash`: a copy of `d` whose labels carry the hash of `d`
   * (as it was before labelling); nothing else differs. Values are
   * immutable here, so the argument is untouched.
   */
  function WithTemplateHash(render: Deployment -> Bytes, d: Deployment): (r: Deployment)
    ensures r.spec == d.spec
    ensures r.meta.name == d.meta.name && r.meta.namespace == d.meta.namespace
    ensures r.meta.annotations == d.meta.annotations && r.meta.ownerReferences == d.meta.ownerReferences
    ensures GetTemplateHashLabel(r.meta.labels) == HashObject(render, d)
    ensures r.meta.labels.Some? &&
      r.meta.labels.value.Keys == (if d.meta.labels.None? then {} else d.meta.labels.value.Keys) + {TemplateHashLabelName}
    ensures d.meta.labels.Some? ==> forall k | k in d.meta.labels.value && k != TemplateHashLabelName ::
      Lookup(r.meta.labels, k) == d.meta.labels.value[k]
  {
    var dCopy := d;
    dCopy.(meta := dCopy.meta.(labels := Some(SetTemplateHashLabel(render, dCopy.meta.labels, dCopy))))
  }

  /** `New`: a Deployment built field by field from `params`. */
  function New(params: Params): (d: Deployment)
    ensures d.meta.name == params.name && d.meta.namespace == params.namespace && d.meta.labels == params.labels
    ensures d.meta.annotations == None && d.meta.ownerReferences == []
    ensures d.spec.selector == Some(LabelSelector(params.selector))
    ensures d.spec.template == params.podTemplateSpec
    ensures d.spec.replicas == Some(params.replicas)
    ensures d.spec.strategy == params.strategy
    ensures d.spec.revisionHistoryLimit == Some(0)
  {
    Deployment(
      ObjectMeta(params.name, params.namespace, params.labels, None, []),
      DeploymentSpec(
        Some(params.replicas),
        Some(LabelSelector(params.selector)),
        params.podTemplateSpec,
        params.strategy,
        Some(DefaultRevisionHistoryLimit)))
  }

  /**
   * The `NeedsUpdate` closure of `Reconcile`: the stored and expected hash
   * labels differ (a missing label reads as ""). Equal labels, and so equal
   * Deployments, never need an update.
   */
  function NeedsUpdate(reconciled: Deployment, expected: Deployment): (r: bool)
    ensures r <==> GetTemplateHashLabel(reconciled.meta.labels) != GetTemplateHashLabel(expected.meta.labels)
    ensures reconciled.meta.labels == expected.meta.labels ==> !r
  {
    GetTemplateHashLabel(reconciled.meta.labels) != GetTemplateHashLabel(expected.meta.labels)
  }

  /**
   * Change detection is by hash alone: between two hash-labelled
   * Deployments an update is needed exactly when the FNV-1 sums of their
   * printed forms differ.
   */
  lemma NeedsUpdateIffHashDiffers(render: Deployment -> Bytes, current: Deployment, expected: Deployment)
    ensures NeedsUpdate(WithTemplateHash(render, current), WithTemplateHash(render, expected)) <==>
      Fnv.Sum32(render(current)) != Fnv.Sum32(render(expected))
  {
    HashObjectEqualIff(render, current, expected);
  }

  /** A stored Deployment without the label always needs an update to a hash-labelled one. */
  lemma UnlabelledNeedsUpdate(render: Deployment -> Bytes, current: Deployment, expected: Deployment)
    requires current.meta.labels.None? || TemplateHashLabelName !in current.meta.labels.value
    ensures NeedsUpdate(current, WithTemplateHash(render, expected))
  {
  }

  /** The zero Deployment, which `Reconcile` allocates for the reconciled object. */
  const ZeroDeployment := Deployment(EmptyMeta, DeploymentSpec(None, None, EmptyPodTemplate, DeploymentStrategy(""), None))

  /** The `reconciled` Deployment that `Reconcile`'s closures share. */
  class ReconciledDeployment {
    var value: Deployment

    /** `&appsv1.Deployment{}`. */
    constructor ()
      ensures value == ZeroDeployment
    {
      value := ZeroDeployment;
    }
  }

  /**
   * The `UpdateReconciled` closure: copy the expected Deployment over the
   * reconciled one. Afterwards `NeedsUpdate` is false.
   */
  method UpdateReconciled(reconciled: ReconciledDeployment, expected: Deployment)
    modifies reconciled
    ensures reconciled.value == expected
    ensures !NeedsUpdate(reconciled.value, expected)
  {
    reconciled.value := expected;
  }
}
