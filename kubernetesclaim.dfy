/**
 * The handler for a claim of kind KubernetesClaim
 * (pkg/claimhandlers/kubernetesclaim/kubernetesclaim.go): source every
 * declared property, base64-encode it into the Secret's data, build the
 * Secret owned by the claim, and create it, or update it when the claim
 * owns the Secret already there.
 */
module KubernetesClaim {
  import opened Wrappers
  import opened Errors
  import opened Kube
  import opened Api
  import opened Generation
  import opened Source
  import opened Cluster
  import Base64

  /** The caller's `context.Context`, as an opaque token (cancellation is not modelled). */
  datatype Context = Context(id: nat)

  /** The handler value: the caller's context and the claim it serves. */
  datatype Handler = Handler(ctx: Context, claim: SecretClaim)

  /** `NewHandler`: the handler holds the given claim and context unchanged. */
  function NewHandler(claim: SecretClaim, ctx: Context): (h: Handler)
    ensures h.claim == claim && h.ctx == ctx
  {
    Handler(ctx, claim)
  }

  // ---------------------------------------------------------------- ownership

  /** `createOwnerReference`: the claim's kind, apiVersion, name and uid. */
  function CreateOwnerReference(claim: SecretClaim): (r: OwnerReference)
    ensures r.kind == claim.kind && r.apiVersion == claim.apiVersion
    ensures r.name == claim.name && r.uid == claim.uid
  {
    OwnerReference(claim.apiVersion, claim.kind, claim.name, claim.uid)
  }

  /**
   * `checkOwnership`: the loop over the owner references returns on its
   * first iteration, so only the first entry is compared, field by field.
   */
  function CheckOwnership(claim: SecretClaim, ownerRefs: seq<OwnerReference>): (r: bool)
    ensures r <==> |ownerRefs| > 0 && ownerRefs[0] == CreateOwnerReference(claim)
  {
    if |ownerRefs| == 0 then false
    else
      var ownerRef := ownerRefs[0];
      if ownerRef.kind != claim.kind then false
      else if ownerRef.apiVersion != claim.apiVersion then false
      else if ownerRef.name != claim.name then false
      else if ownerRef.uid != claim.uid then false
      else true
  }

  /** Entries after the first are never consulted. */
  lemma OnlyFirstOwnerConsulted(claim: SecretClaim, first: OwnerReference, rest: seq<OwnerReference>)
    ensures CheckOwnership(claim, [first] + rest) == CheckOwnership(claim, [first])
  {
  }

  /**
   * The claim's own reference further down the list does not authorize it:
   * ownership is "the first owner is this claim", not "some owner is".
   */
  lemma OwnerAfterFirstDenied(claim: SecretClaim, other: OwnerReference)
    requires other != CreateOwnerReference(claim)
    // the list does hold the claim's reference, in second place
    ensures !CheckOwnership(claim, [other, CreateOwnerReference(claim)])
  {
  }

  /** A requester that matches on kind, apiVersion and name but not on uid is denied. */
  lemma OtherUidDenied(claim: SecretClaim, uid: string, rest: seq<OwnerReference>)
    requires uid != claim.uid
    ensures !CheckOwnership(claim, [CreateOwnerReference(claim).(uid := uid)] + rest)
  {
  }

  // ---------------------------------------------------------------- the Secret

  /** `createSecret`: the Secret the claim describes, holding `data`, owned by the claim alone. */
  function CreateSecret(claim: SecretClaim, data: map<string, Bytes>): (s: Secret)
    requires claim.spec.kubernetesClaim.Some?
    ensures var kc := claim.spec.kubernetesClaim.value;
      && s.meta.name == kc.name && s.meta.namespace == kc.namespace
      && s.meta.labels == kc.labels && s.meta.annotations == kc.annotations
      && s.secretType == kc.secretType && s.data == data
    ensures s.meta.ownerReferences == [CreateOwnerReference(claim)]
    ensures CheckOwnership(claim, s.meta.ownerReferences)
  {
    var kc := claim.spec.kubernetesClaim.value;
    Secret(ObjectMeta(kc.name, kc.namespace, kc.labels, kc.annotations, [CreateOwnerReference(claim)]),
           data, kc.secretType)
  }

  /** Where a Secret lives in the cluster: its namespace and name. */
  function SecretObjectKey(s: Secret): ObjectKey {
    ObjectKey(s.meta.namespace, s.meta.name)
  }

  // ---------------------------------------------------------------- sourcing the properties

  /** The property's source yields a value. */
  predicate Sourced(p: Property, gens: Generators) {
    HandleProperty(p.propertySource, gens).Success?
  }

  /** The names the claim declares. */
  function Names(props: seq<Property>): set<string> {
    set p | p in props :: p.name
  }

  /** No later property has the same name as `props[i]`. */
  predicate LastWithName(props: seq<Property>, i: int)
    requires 0 <= i < |props|
  {
    forall j | i < j < |props| :: props[j].name != props[i].name
  }

  /**
   * The data map `Handle`'s loop builds from `props`, in order: each
   * property's sourced value, base64-encoded, under its name; or the error
   * naming the first property whose sourcing fails.
   */
  function SourceProperties(props: seq<Property>, gens: Generators): (r: Result<map<string, Bytes>, Error>)
    ensures r.Failure? ==> r.error.SourcingProperty? && r.error.property in Names(props)
    decreases |props|
  {
    if props == [] then Success(map[])
    else
      var init := SourceProperties(props[..|props| - 1], gens);
      var property := props[|props| - 1];
      assert props == props[..|props| - 1] + [property];
      if init.Failure? then init
      else match HandleProperty(property.propertySource, gens)
        case Failure(_) => Failure(SourcingProperty(property.name))
        case Success(v) => Success(init.value[property.name := Base64.Encode(v)])
  }

  /** Sourcing succeeds exactly when every property's source yields a value. */
  lemma {:induction false} SourcingSucceedsIff(props: seq<Property>, gens: Generators)
    ensures SourceProperties(props, gens).Success? <==> forall k | 0 <= k < |props| :: Sourced(props[k], gens)
    decreases |props|
  {
    if props != [] {
      var init := props[..|props| - 1];
      SourcingSucceedsIff(init, gens);
      assert forall k | 0 <= k < |init| :: init[k] == props[k];
    }
  }

  /** Once a prefix fails, the whole list fails with the same error. */
  lemma {:induction false} FailureSticks(props: seq<Property>, gens: Generators, n: nat)
    requires n <= |props| && SourceProperties(props[..n], gens).Failure?
    ensures SourceProperties(props, gens) == SourceProperties(props[..n], gens)
    decreases |props| - n
  {
    if n < |props| {
      var init := props[..|props| - 1];
      assert init[..n] == props[..n];
      FailureSticks(init, gens, n);
    } else {
      assert props[..n] == props;
    }
  }

  /** The error names the first property whose sourcing fails. */
  lemma FirstFailureReported(props: seq<Property>, gens: Generators, k: nat)
    requires k < |props| && !Sourced(props[k], gens)
    requires forall j | 0 <= j < k :: Sourced(props[j], gens)
    ensures SourceProperties(props, gens) == Failure(SourcingProperty(props[k].name))
  {
    var prefix := props[..k + 1];
    assert prefix[..k] == props[..k];
    SourcingSucceedsIff(props[..k], gens);
    FailureSticks(props, gens, k + 1);
  }

  /** The data keys are exactly the declared names. */
  lemma {:induction false} SourcedKeys(props: seq<Property>, gens: Generators)
    requires SourceProperties(props, gens).Success?
    ensures SourceProperties(props, gens).value.Keys == Names(props)
    decreases |props|
  {
    if props != [] {
      var init := props[..|props| - 1];
      SourcedKeys(init, gens);
      assert props == init + [props[|props| - 1]];
      assert Names(props) == Names(init) + {props[|props| - 1].name};
    }
  }

  /**
   * Under a name, the data holds the encoding of the value sourced for the
   * LAST property of that name (a repeated name keeps the last value).
   */
  lemma {:induction false} SourcedValue(props: seq<Property>, gens: Generators, i: nat)
    requires SourceProperties(props, gens).Success? && i < |props| && LastWithName(props, i)
    ensures Sourced(props[i], gens) && props[i].name in SourceProperties(props, gens).value
    ensures SourceProperties(props, gens).value[props[i].name] ==
            Base64.Encode(HandleProperty(props[i].propertySource, gens).value)
    decreases |props|
  {
    var init := props[..|props| - 1];
    if i < |props| - 1 {
      assert init[i] == props[i];
      SourcedValue(init, gens, i);
    }
  }

  /** Every data value decodes back to the bytes its property's source yielded. */
  lemma SourcedValueDecodes(props: seq<Property>, gens: Generators, i: nat)
    requires SourceProperties(props, gens).Success? && i < |props| && LastWithName(props, i)
    ensures var v := HandleProperty(props[i].propertySource, gens);
      && v.Success?
      && props[i].name in SourceProperties(props, gens).value
      && var enc := SourceProperties(props, gens).value[props[i].name];
      && |enc| == 4 * ((|v.value| + 2) / 3)
      && Base64.Decode(enc) == Some(v.value)
  {
    SourcedValue(props, gens, i);
    Base64.DecodeEncode(HandleProperty(props[i].propertySource, gens).value);
  }

  // ---------------------------------------------------------------- applying the Secret

  /**
   * The owner references of what the get returned. On an error client-go
   * returns an empty object alongside it, so there are none.
   */
  function ReturnedOwnerRefs(got: Result<Secret, Error>): seq<OwnerReference> {
    if got.Success? then got.value.meta.ownerReferences else []
  }

  /**
   * `applySecret`: build the client set; get the Secret; on NotFound create
   * it; otherwise update it if the claim owns what the get returned, else
   * refuse. The state after the call and the error returned.
   */
  function ApplySecretSpec(st: Store<Secret>, secret: Secret, claim: SecretClaim): (r: (Store<Secret>, Option<Error>))
    // no client set: no request at all
    ensures st.faults.connect.Some? ==> r == (st, st.faults.connect)
    ensures r.0.faults == st.faults
    ensures st.faults.connect.None? ==> r.0.gets == st.gets + [SecretObjectKey(secret)]
    // at most one write, of this Secret under its own key
    ensures st.writes <= r.0.writes && |r.0.writes| <= |st.writes| + 1
    ensures |r.0.writes| > |st.writes| ==>
      r.0.writes[|st.writes|].key == SecretObjectKey(secret) && r.0.writes[|st.writes|].obj == secret
    // success stores the Secret; failure changes no object
    ensures r.1.None? ==> r.0.objects == st.objects[SecretObjectKey(secret) := secret]
    ensures r.1.Some? ==> r.0.objects == st.objects
    // the three branches
    ensures st.faults.connect.None? ==>
      var key := SecretObjectKey(secret);
      var got := GetStep(st, key).1;
      if got.Failure? && IsNotFound(got.error) then
        && r.0.writes == st.writes + [Created(key, secret)]
        && (r.1.None? <==> st.faults.create.None? && key !in st.objects)
        && (r.1.Some? ==> r.1.value.CreatingSecret? && r.1.value.secret == secret.meta.name)
      else if CheckOwnership(claim, ReturnedOwnerRefs(got)) then
        && r.0.writes == st.writes + [Updated(key, secret)]
        && (r.1.None? <==> st.faults.update.None?)
        && (r.1.Some? ==> r.1.value.UpdatingSecret? && r.1.value.secret == secret.meta.name)
      else
        && r.0.writes == st.writes
        && r.1 == Some(NotOwnedByClaim(secret.meta.name, claim.name))
  {
    if st.faults.connect.Some? then (st, st.faults.connect)
    else
      var key := SecretObjectKey(secret);
      var (st1, got) := GetStep(st, key);
      if got.Failure? && IsNotFound(got.error) then
        var (st2, err) := CreateStep(st1, key, secret);
        (st2, if err.Some? then Some(CreatingSecret(secret.meta.name, err.value)) else None)
      else if !CheckOwnership(claim, ReturnedOwnerRefs(got)) then
        (st1, Some(NotOwnedByClaim(secret.meta.name, claim.name)))
      else
        var (st2, err) := UpdateStep(st1, key, secret);
        (st2, if err.Some? then Some(UpdatingSecret(secret.meta.name, err.value)) else None)
  }

  /** `applySecret` against the cluster client. */
  method ApplySecret(client: Client<Secret>, secret: Secret, claim: SecretClaim) returns (err: Option<Error>)
    modifies client
    ensures (client.store, err) == ApplySecretSpec(old(client.store), secret, claim)
  {
    err := client.Connect();
    if err.Some? {
      return;
    }
    var key := SecretObjectKey(secret);
    var existing := client.Get(key);
    if existing.Failure? && IsNotFound(existing.error) {
      var createErr := client.Create(key, secret);
      if createErr.Some? {
        return Some(CreatingSecret(secret.meta.name, createErr.value));
      }
    } else {
      if !CheckOwnership(claim, ReturnedOwnerRefs(existing)) {
        return Some(NotOwnedByClaim(secret.meta.name, claim.name));
      }
      var updateErr := client.Update(key, secret);
      if updateErr.Some? {
        return Some(UpdatingSecret(secret.meta.name, updateErr.value));
      }
    }
    return None;
  }

  // ---------------------------------------------------------------- Handle

  /** `Handle`: source the properties, then apply the Secret, wrapping its error. */
  function HandleSpec(st: Store<Secret>, claim: SecretClaim, gens: Generators): (r: (Store<Secret>, Option<Error>))
    requires claim.spec.kubernetesClaim.Some?
    // a failed property aborts before any request
    ensures var sourced := SourceProperties(claim.spec.kubernetesClaim.value.properties, gens);
      sourced.Failure? ==> r == (st, Some(sourced.error))
    // at most one write, and it writes the Secret the claim describes
    ensures st.writes <= r.0.writes && |r.0.writes| <= |st.writes| + 1
    ensures |r.0.writes| > |st.writes| ==>
      var sourced := SourceProperties(claim.spec.kubernetesClaim.value.properties, gens);
      sourced.Success? && r.0.writes[|st.writes|].obj == CreateSecret(claim, sourced.value)
    // every failure of the apply, the client set's included, is wrapped
    ensures r.1.Some? && SourceProperties(claim.spec.kubernetesClaim.value.properties, gens).Success? ==>
      r.1.value.ApplyingSecret?
    // success leaves the claim's Secret stored under its key, and no other object changed
    ensures r.1.None? ==>
      var sourced := SourceProperties(claim.spec.kubernetesClaim.value.properties, gens);
      sourced.Success? &&
      r.0.objects == st.objects[SecretObjectKey(CreateSecret(claim, sourced.value)) := CreateSecret(claim, sourced.value)]
  {
    var sourced := SourceProperties(claim.spec.kubernetesClaim.value.properties, gens);
    if sourced.Failure? then (st, Some(sourced.error))
    else
      var (st', err) := ApplySecretSpec(st, CreateSecret(claim, sourced.value), claim);
      (st', if err.Some? then Some(ApplyingSecret(err.value)) else None)
  }

  /**
   * What a write by `Handle` stores: a Secret owned by the claim alone, whose
   * data has exactly the declared names as keys and, under each, the base64
   * encoding of the value sourced for the last property of that name.
   */
  lemma HandleWritesEncodedProperties(st: Store<Secret>, claim: SecretClaim, gens: Generators)
    requires claim.spec.kubernetesClaim.Some?
    requires |HandleSpec(st, claim, gens).0.writes| > |st.writes|
    ensures var props := claim.spec.kubernetesClaim.value.properties;
      var s := HandleSpec(st, claim, gens).0.writes[|st.writes|].obj;
      && s.meta.ownerReferences == [CreateOwnerReference(claim)]
      && CheckOwnership(claim, s.meta.ownerReferences)
      && s.data.Keys == Names(props)
      && forall i | 0 <= i < |props| && LastWithName(props, i) ::
           Sourced(props[i], gens) &&
           Base64.Decode(s.data[props[i].name]) == Some(HandleProperty(props[i].propertySource, gens).value)
  {
    var props := claim.spec.kubernetesClaim.value.properties;
    SourcedKeys(props, gens);
    forall i | 0 <= i < |props| && LastWithName(props, i)
      ensures Sourced(props[i], gens) &&
        Base64.Decode(SourceProperties(props, gens).value[props[i].name]) ==
        Some(HandleProperty(props[i].propertySource, gens).value)
    {
      SourcedValueDecodes(props, gens, i);
    }
  }

  /** `Handle` against the cluster client. */
  method Handle(h: Handler, gens: Generators, client: Client<Secret>) returns (err: Option<Error>)
    requires h.claim.spec.kubernetesClaim.Some?
    modifies client
    ensures (client.store, err) == HandleSpec(old(client.store), h.claim, gens)
  {
    var kubernetesClaim := h.claim.spec.kubernetesClaim.value;
    var props := kubernetesClaim.properties;
    var secretProperties: map<string, Bytes> := map[];
    var i := 0;
    while i < |props|
      invariant 0 <= i <= |props|
      invariant SourceProperties(props[..i], gens) == Success(secretProperties)
    {
      var property := props[i];
      var sourcedProperty := HandleProperty(property.propertySource, gens);
      assert props[..i + 1][..i] == props[..i];
      if sourcedProperty.Failure? {
        FailureSticks(props, gens, i + 1);
        return Some(SourcingProperty(property.name));
      }
      var encodedSecret := Base64.Encode(sourcedProperty.value);
      secretProperties := secretProperties[property.name := encodedSecret];
      i := i + 1;
    }
    assert props[..|props|] == props;
    var secret := CreateSecret(h.claim, secretProperties);
    var applyErr := ApplySecret(client, secret, h.claim);
    if applyErr.Some? {
      return Some(ApplyingSecret(applyErr.value));
    }
    return None;
  }
}
