/**
 * Fluent builders for the objects the operator deploys
 * (pkg/builders/pod_template.go, pkg/builders/service_account.go). Each
 * setter changes one field of the object being built and returns the same
 * builder.
 */
module Builders {
  import opened Wrappers
  import opened Kube

  /** The container every pod template starts with. */
  const DefaultContainer := Container("store-operator", "", [])

  /** A pod template being built. */
  class PodTemplateBuilder {
    var podTemplate: PodTemplateSpec

    /** `NewPodTemplateBuilder`: an empty template, then the defaults. */
    constructor ()
      ensures podTemplate == PodTemplateSpec(None, None, PodSpec("", [DefaultContainer]))
    {
      podTemplate := EmptyPodTemplate;
      new;
      var b := SetDefaults();
    }

    /** `setDefaults`: appends the default container. */
    method SetDefaults() returns (b: PodTemplateBuilder)
      modifies this
      ensures b == this
      ensures podTemplate == old(podTemplate).(spec := old(podTemplate).spec.(
        containers := old(podTemplate).spec.containers + [DefaultContainer]))
    {
      podTemplate := podTemplate.(spec := podTemplate.spec.(containers := podTemplate.spec.containers + [DefaultContainer]));
      b := this;
    }

    /** `WithServiceAccount`: sets the service account name only while it is empty. */
    method WithServiceAccount(serviceAccount: string) returns (b: PodTemplateBuilder)
      modifies this
      ensures b == this
      ensures old(podTemplate.spec.serviceAccountName) == "" ==>
        podTemplate == old(podTemplate).(spec := old(podTemplate).spec.(serviceAccountName := serviceAccount))
      ensures old(podTemplate.spec.serviceAccountName) != "" ==> podTemplate == old(podTemplate)
    {
      if podTemplate.spec.serviceAccountName == "" {
        podTemplate := podTemplate.(spec := podTemplate.spec.(serviceAccountName := serviceAccount));
      }
      b := this;
    }

    /** `WithImage`: sets the first container's image only while it is empty. */
    method WithImage(image: string) returns (b: PodTemplateBuilder)
      requires |podTemplate.spec.containers| >= 1
      modifies this
      ensures b == this
      ensures var cs := old(podTemplate.spec.containers);
        cs[0].image == "" ==>
          podTemplate == old(podTemplate).(spec := old(podTemplate).spec.(containers := cs[0 := cs[0].(image := image)]))
      ensures old(podTemplate.spec.containers[0].image) != "" ==> podTemplate == old(podTemplate)
    {
      var cs := podTemplate.spec.containers;
      if cs[0].image == "" {
        podTemplate := podTemplate.(spec := podTemplate.spec.(containers := cs[0 := cs[0].(image := image)]));
      }
      b := this;
    }

    /** `WithEnv`: replaces the first container's environment wholesale. */
    method WithEnv(vars: seq<EnvVar>) returns (b: PodTemplateBuilder)
      requires |podTemplate.spec.containers| >= 1
      modifies this
      ensures b == this
      ensures var cs := old(podTemplate.spec.containers);
        podTemplate == old(podTemplate).(spec := old(podTemplate).spec.(containers := cs[0 := cs[0].(env := vars)]))
    {
      var cs := podTemplate.spec.containers;
      podTemplate := podTemplate.(spec := podTemplate.spec.(containers := cs[0 := cs[0].(env := vars)]));
      b := this;
    }

    /** `WithLabels`: replaces the labels wholesale. */
    method WithLabels(labels: StringMap) returns (b: PodTemplateBuilder)
      modifies this
      ensures b == this
      ensures podTemplate == old(podTemplate).(labels := labels)
    {
      podTemplate := podTemplate.(labels := labels);
      b := this;
    }

    /** `WithAnnotations`: replaces the annotations wholesale. */
    method WithAnnotations(annotations: StringMap) returns (b: PodTemplateBuilder)
      modifies this
      ensures b == this
      ensures podTemplate == old(podTemplate).(annotations := annotations)
    {
      podTemplate := podTemplate.(annotations := annotations);
      b := this;
    }
  }

  /**
   * On a fresh builder the first non-empty service account name sticks: a
   * later call with another name has no effect, and the default container
   * is untouched.
   */
  method FirstServiceAccountSticks(first: string, second: string) returns (t: PodTemplateSpec)
    requires first != ""
    ensures t.spec.serviceAccountName == first
    ensures t.spec.containers == [DefaultContainer]
    ensures t.labels.None? && t.annotations.None?
  {
    var b := new PodTemplateBuilder();
    b := b.WithServiceAccount(first);
    b := b.WithServiceAccount(second);
    t := b.podTemplate;
  }

  /**
   * Labels and annotations set on a builder are the given maps exactly:
   * entries the template had before are not kept.
   */
  method LabelsReplaced(before: map<string, string>, after: map<string, string>) returns (t: PodTemplateSpec)
    ensures t.labels == Some(after) && t.annotations == Some(after)
  {
    var b := new PodTemplateBuilder();
    b := b.WithLabels(Some(before));
    b := b.WithAnnotations(Some(before));
    b := b.WithLabels(Some(after));
    b := b.WithAnnotations(Some(after));
    t := b.podTemplate;
  }

  /** A service account being built. */
  class ServiceAccountBuilder {
    var serviceAccount: ServiceAccount

    /** `NewServiceAccountBuilder`: wraps `account` unchanged. */
    constructor (account: ServiceAccount)
      ensures serviceAccount == account
    {
      serviceAccount := account;
    }

    /** `WithAnnotations`: sets the annotations only while they are nil. */
    method WithAnnotations(annotations: StringMap) returns (b: ServiceAccountBuilder)
      modifies this
      ensures b == this
      ensures old(serviceAccount.meta.annotations).None? ==>
        serviceAccount == old(serviceAccount).(meta := old(serviceAccount).meta.(annotations := annotations))
      ensures old(serviceAccount.meta.annotations).Some? ==> serviceAccount == old(serviceAccount)
    {
      if serviceAccount.meta.annotations.None? {
        serviceAccount := serviceAccount.(meta := serviceAccount.meta.(annotations := annotations));
      }
      b := this;
    }
  }

  /** An account whose annotations are an empty but non-nil map is not annotated. */
  method EmptyAnnotationsBlock(account: ServiceAccount, annotations: StringMap) returns (result: ServiceAccount)
    requires account.meta.annotations == Some(map[])
    ensures result == account
  {
    var b := new ServiceAccountBuilder(account);
    b := b.WithAnnotations(annotations);
    result := b.serviceAccount;
  }
}
