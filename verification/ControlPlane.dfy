/** The ControlPlaneInterface of controllers/compassmanager_controller.go: everything the reconciler
    reads from and writes to the control-plane cluster. */
module ControlPlane {
  import opened Wrappers
  import opened StatusCode
  import opened Worlds
  import opened Protocol
  import opened Rely
  import opened Runs
  import opened Platform

  /** Go's zero value, which comes with an error. */
  const NO_MAPPING := Mapping("", MappingLabels(None, None, None, None, false, false), [], false, ZERO_STATUS)

  /** After steps of the environment, one write of the controller, and nothing else for this Kyma:
      the mapping stored under its name is `m`. */
  ghost predicate Saved(w: World, w': World, m: Mapping) {
    && SameConstants(w, w')
    && m.name in w'.mappings && SameMapping(m, w'.mappings[m.name])
    && w'.deregistered == w.deregistered && CallOf(w', m.name) == CallOf(w, m.name)
  }

  /** While a Kyma is being deleted: its mapping stays the same up to finalizers and the deletion
      timestamp, or disappears, and the Kyma does not come back before that. */
  ghost predicate Retiring(w: World, w': World, name: string) {
    && SameConstants(w, w')
    && (name in w'.mappings ==>
          && name in w.mappings && w'.mappings[name].labels == w.mappings[name].labels
          && (w.mappings[name].deleting ==> w'.mappings[name].deleting)
          && name !in w'.kymas)
    && w'.runtimes == w.runtimes && w'.deregistered == w.deregistered
  }

  /** The runtime behind the mapping, if any, is deregistered, and the Kyma is gone. */
  ghost predicate Releasable(w: World, name: string) {
    name in w.mappings ==>
      && name !in w.kymas
      && (w.mappings[name].Id() == "" || w.dry || w.mappings[name].Id() in w.deregistered)
  }

  lemma EnvIsRetiring(w: World, w': World, name: string)
    requires EnvOnly(w, w') && (name in w.mappings ==> name !in w.kymas)
    ensures Retiring(w, w', name)
    ensures name in w'.mappings ==> (w'.mappings[name].Protected() <==> w.mappings[name].Protected())
  {
    assert LeftAlone(w, w', name);
  }

  lemma SavedLater(w: World, w1: World, w2: World, m: Mapping, m1: Mapping)
    requires EnvOnly(w, w1) && SameMapping(m, m1) && Saved(w1, w2, m1)
    ensures Saved(w, w2, m)
  {
    assert LeftAlone(w, w1, m.name);
  }

  // The effects of the three writes that store an object.

  lemma StatusIsSaved(w: World, name: string, status: MappingStatus)
    requires name in w.mappings && w.mappings[name].name == name && w.mappings[name].Protected()
    ensures StatusSaved(w, Apply(w, UpdateStatus(name, status)), name, status)
  {
    StoringStep(w, UpdateStatus(name, status));
    assert w.mappings[name].finalizers != [];
  }

  ghost predicate StatusSaved(w: World, w': World, name: string, status: MappingStatus) {
    && name in w.mappings && w'.runtimes == w.runtimes
    && Saved(w, w', w.mappings[name].(status := status))
  }

  lemma StatusSavedLater(w: World, w1: World, w2: World, name: string, status: MappingStatus)
    requires EnvOnly(w, w1) && StatusSaved(w1, w2, name, status) && name in w.mappings
    requires SameMapping(w.mappings[name], w1.mappings[name])
    ensures StatusSaved(w, w2, name, status)
  {
    SavedLater(w, w1, w2, w.mappings[name].(status := status), w1.mappings[name].(status := status));
  }

  lemma NamedBefore(w: World, w': World, name: string)
    requires EnvOnly(w, w') && name in w'.mappings && w'.mappings[name].name == name
    ensures name in w.mappings && w.mappings[name].name == name
  {
    assert LeftAlone(w, w', name);
  }

  ghost predicate Created(w: World, w': World, name: string) {
    && name in w.profile
    && Saved(w, w', NewMapping(w, name)) && w'.runtimes == w.runtimes
  }

  lemma NewMappingIsSaved(w: World, name: string)
    requires name in w.profile && name !in w.mappings
    ensures Created(w, Apply(w, CreateMapping(name, LabelsFor(w.profile[name], "", w.dry))), name)
  {
    StoringStep(w, CreateMapping(name, LabelsFor(w.profile[name], "", w.dry)));
  }

  lemma CreatedLater(w: World, w1: World, w2: World, name: string)
    requires EnvOnly(w, w1) && Created(w1, w2, name)
    ensures Created(w, w2, name)
  {
    SavedLater(w, w1, w2, NewMapping(w, name), NewMapping(w1, name));
  }

  /** The runtimes once the id has become a mapping's label. */
  ghost function WithClaim(runtimes: map<string, Runtime>, id: string): map<string, Runtime> {
    if id in runtimes && runtimes[id].fate == Returned then SetFate(runtimes, id, Claimed) else runtimes
  }

  ghost predicate IdSaved(w: World, w': World, name: string, id: string) {
    && name in w.mappings && name in w.profile
    && Saved(w, w', w.mappings[name].(labels := LabelsFor(w.profile[name], id, w.dry)))
    && w'.runtimes == WithClaim(w.runtimes, id)
  }

  lemma IdIsSaved(w: World, name: string, id: string)
    requires name in w.mappings && w.mappings[name].name == name && w.mappings[name].Protected() && name in w.profile
    ensures IdSaved(w, Apply(w, UpdateMapping(name, LabelsFor(w.profile[name], id, w.dry),
            w.mappings[name].finalizers)), name, id)
  {
    UpdatingStep(w, name, LabelsFor(w.profile[name], id, w.dry), w.mappings[name].finalizers);
    assert w.mappings[name].finalizers != [];
  }

  lemma IdSavedLater(w: World, w1: World, w2: World, name: string, id: string)
    requires EnvOnly(w, w1) && IdSaved(w1, w2, name, id) && name in w.mappings
    requires SameMapping(w.mappings[name], w1.mappings[name])
    ensures IdSaved(w, w2, name, id)
  {
    var labels := LabelsFor(w.profile[name], id, w.dry);
    SavedLater(w, w1, w2, w.mappings[name].(labels := labels), w1.mappings[name].(labels := labels));
  }

  lemma RetiringTransitive(w: World, w1: World, w2: World, name: string)
    requires Retiring(w, w1, name) && Retiring(w1, w2, name)
    ensures Retiring(w, w2, name)
  {}

  /** The mapping is gone, or only waits for the finalizers of others. */
  ghost predicate Dismissed(w: World, name: string) {
    name in w.mappings ==> w.mappings[name].deleting && !w.mappings[name].Protected()
  }

  lemma AfterCut(w: World, mid: World, m: Mapping)
    requires MappingsOk(w) && LedgerOk(w) && m.name in w.mappings && w.mappings[m.name] == m && m.name !in w.kymas
    requires EnvOnly(w, mid) && m.name in mid.mappings && mid.mappings[m.name] == m
    ensures var w' := Apply(mid, UpdateMapping(m.name, m.labels, WithoutFinalizer(m.finalizers)));
            Retiring(w, w', m.name) && (m.name in w'.mappings ==> !w'.mappings[m.name].Protected())
  {
    assert LeftAlone(w, mid, m.name);
    assert MappingOk(m, m.name, w.profile[m.name], w.enabled, w.dry, false);
    CurrentIdIsNotReturned(w, m.name);
    UpdatingStep(mid, m.name, m.labels, WithoutFinalizer(m.finalizers));
    assert m.Id() in w.runtimes && !w.dry ==> w.runtimes[m.Id()].fate != Returned;
    assert w.dry ==> w.runtimes == map[];
  }

  lemma AfterDelete(w: World, name: string)
    requires Enabled(w, DeleteMapping(name)) && w.mappings[name].name == name
    ensures Retiring(w, Apply(w, DeleteMapping(name)), name) && Dismissed(Apply(w, DeleteMapping(name)), name)
  {
    StoringStep(w, DeleteMapping(name));
  }

  /** The slice cut of RemoveCMFinalizer. */
  method CutFinalizer(finalizers: seq<Finalizer>) returns (rest: seq<Finalizer>)
    ensures rest == WithoutFinalizer(finalizers)
  {
    rest := finalizers;
    for i := 0 to |finalizers|
      invariant rest == finalizers && CmProtection !in finalizers[..i]
    {
      if finalizers[i] == CmProtection {
        CutAt(finalizers, i);
        return finalizers[..i] + finalizers[i + 1..];
      }
    }
    assert finalizers[..|finalizers|] == finalizers;
    CutAbsent(finalizers);
  }

  lemma {:induction false} CutAt(finalizers: seq<Finalizer>, i: nat)
    requires i < |finalizers| && finalizers[i] == CmProtection && CmProtection !in finalizers[..i]
    ensures WithoutFinalizer(finalizers) == finalizers[..i] + finalizers[i + 1..]
  {
    if i > 0 {
      assert finalizers[..i][0] == finalizers[0];
      assert finalizers[1..][..i - 1] == finalizers[..i][1..];
      CutAt(finalizers[1..], i - 1);
    }
  }

  class ControlPlaneInterface {
    const outside: Outside
    const dry: bool

    ghost predicate Valid()
      reads outside
    {
      outside.Valid() && dry == outside.init.dry
    }

    constructor (outside: Outside, dry: bool)
      requires outside.Valid() && dry == outside.init.dry
      ensures Valid() && this.outside == outside && this.dry == dry
    {
      this.outside, this.dry := outside, dry;
    }

    // ----- Reads -----

    method GetKyma(name: string) returns (labels: Labels, err: Option<Error>)
      requires Valid()
      modifies outside`world, outside`log, outside`faults
      ensures Valid() && EnvOnly(old(outside.world), outside.world) && old(outside.log) <= outside.log
      ensures err == None ==> name in outside.world.kymas && name in outside.world.profile
      ensures err == None ==> labels == outside.world.profile[name]
      ensures err == Some(NotFound) ==> name !in outside.world.kymas
      ensures err in {None, Some(NotFound), Some(ApiError)}
      ensures outside.faults == old(outside.faults) + if err == Some(ApiError) then 1 else 0
      ensures err == Some(ApiError) ==> FailsIn(outside.log, |old(outside.log)|, {KymaRead})
    {
      hide Recorded;
      labels, err := outside.GetKyma(name);
    }

    /** The first mapping that the label selector finds is the mapping of that name, and "not found"
        means that there is none. */
    method GetCompassMapping(name: string) returns (mapping: Mapping, err: Option<Error>)
      requires Valid()
      modifies outside`world, outside`log, outside`faults
      ensures Valid() && EnvOnly(old(outside.world), outside.world) && old(outside.log) <= outside.log
      ensures err == None ==> name in outside.world.mappings && mapping == outside.world.mappings[name]
      ensures err == Some(NotFound) ==> name !in outside.world.mappings
      ensures err != None ==> mapping == NO_MAPPING
      ensures err in {None, Some(NotFound), Some(ApiError)}
      ensures outside.faults == old(outside.faults) + if err == Some(ApiError) then 1 else 0
      ensures err == Some(ApiError) ==> FailsIn(outside.log, |old(outside.log)|, {MappingRead})
    {
      hide Recorded;
      mapping := NO_MAPPING;
      var items;
      items, err := outside.ListMappings(name);
      if err != None {
        return;
      }
      if |items| == 0 {
        return mapping, Some(NotFound);
      }
      mapping := items[0];
    }

    /** No bytes come with any error, nor when there is no secret. */
    method GetKubeconfig(name: string) returns (kubeconfig: string, err: Option<Error>)
      requires Valid()
      modifies outside`world, outside`log, outside`faults
      ensures Valid() && EnvOnly(old(outside.world), outside.world) && old(outside.log) <= outside.log
      ensures err != None ==> kubeconfig == ""
      ensures err == None ==> kubeconfig == KubeconfigOf(outside.world, name).GetOr(None).GetOr("")
      ensures err == Some(NotFound) <==> err != Some(ApiError) && KubeconfigOf(outside.world, name) == Some(None)
      ensures err in {None, Some(NotFound), Some(ApiError)}
      ensures outside.faults == old(outside.faults) + if err == Some(ApiError) then 1 else 0
      ensures err == Some(ApiError) ==> FailsIn(outside.log, |old(outside.log)|, {SecretRead})
    {
      hide Recorded;
      var items;
      items, err := outside.ListSecrets(name);
      if err != None || |items| == 0 {
        return "", err;
      }
      if items[0] == None {
        return "", Some(NotFound);
      }
      return items[0].value, None;
    }

    /** The id label of the mapping; the empty string when the label is missing, without an error. */
    method GetCompassRuntimeID(name: string) returns (id: string, err: Option<Error>)
      requires Valid()
      modifies outside`world, outside`log, outside`faults
      ensures Valid() && EnvOnly(old(outside.world), outside.world) && old(outside.log) <= outside.log
      ensures err == None ==> name in outside.world.mappings && id == outside.world.mappings[name].Id()
      ensures err == Some(NotFound) ==> name !in outside.world.mappings
      ensures err != None ==> id == ""
      ensures err in {None, Some(NotFound), Some(ApiError)}
      ensures outside.faults == old(outside.faults) + if err == Some(ApiError) then 1 else 0
      ensures err == Some(ApiError) ==> FailsIn(outside.log, |old(outside.log)|, {MappingRead})
    {
      hide Recorded;
      var mapping;
      mapping, err := GetCompassMapping(name);
      if err != None {
        return "", err;
      }
      id := mapping.labels.compassId.GetOr("");
    }

    // ----- Writes -----

    /** The labels of a mapping, filled in one by one. */
    method MakeLabels(kyma: Labels, id: string) returns (labels: MappingLabels)
      ensures labels == LabelsFor(kyma, id, dry)
      ensures labels.compassId == Some(id) && labels.managed && labels.dryRun == dry
      ensures labels.kymaName == Some(if KymaName in kyma then kyma[KymaName] else "")
      ensures labels.globalAccount == Some(if GlobalAccount in kyma then kyma[GlobalAccount] else "")
      ensures labels.subaccount == Some(if Subaccount in kyma then kyma[Subaccount] else "")
    {
      labels := MappingLabels(None, None, None, None, false, false);
      labels := labels.(kymaName := Some(Lookup(kyma, KymaName)));
      labels := labels.(compassId := Some(id));
      labels := labels.(globalAccount := Some(Lookup(kyma, GlobalAccount)));
      labels := labels.(subaccount := Some(Lookup(kyma, Subaccount)));
      labels := labels.(managed := true);
      if dry {
        labels := labels.(dryRun := true);
      }
    }

    method SendNew(name: string, labels: MappingLabels) returns (err: Option<Error>)
      requires Valid() && name == outside.focus && name in outside.world.profile
      requires labels == LabelsFor(outside.world.profile[name], "", dry)
      modifies outside`world, outside`log, outside`faults
      ensures Valid() && old(outside.log) <= outside.log
      ensures EnvOnly(old(outside.world), outside.world) || Created(old(outside.world), outside.world, name)
      ensures err == None ==> Created(old(outside.world), outside.world, name)
      ensures err == Some(AlreadyExists) ==> name in old(outside.world).mappings
      ensures err in {None, Some(AlreadyExists), Some(ApiError)}
      ensures outside.faults == old(outside.faults) + if err == Some(ApiError) then 1 else 0
    {
      hide Recorded;
      outside.Constants();
      ghost var mid;
      err, mid := outside.CreateObject(name, labels);
      assert LeftAlone(old(outside.world), mid, name);
      if outside.world != mid || err == None {
        NewMappingIsSaved(mid, name);
        CreatedLater(old(outside.world), mid, outside.world, name);
      }
    }

    /** On success a protected, empty, unregistered mapping of the Kyma exists. */
    method CreateCompassMapping(name: string) returns (err: Option<Error>)
      requires Valid() && name == outside.focus
      modifies outside`world, outside`log, outside`faults
      ensures Valid() && old(outside.log) <= outside.log
      ensures EnvOnly(old(outside.world), outside.world) || Created(old(outside.world), outside.world, name)
      ensures err == None ==> Created(old(outside.world), outside.world, name)
      ensures err == Some(NotFound) ==> name !in outside.world.kymas
      ensures err == Some(AlreadyExists) ==> name in old(outside.world).mappings
      ensures err in {None, Some(NotFound), Some(AlreadyExists), Some(ApiError)}
      ensures outside.faults == old(outside.faults) + if err == Some(ApiError) then 1 else 0
    {
      hide Recorded;
      var kyma;
      kyma, err := GetKyma(name);
      if err != None {
        return;
      }
      ghost var w := outside.world;
      assert LeftAlone(old(outside.world), w, name);
      var labels := MakeLabels(kyma, "");
      err := SendNew(name, labels);
      if Created(w, outside.world, name) {
        CreatedLater(old(outside.world), w, outside.world, name);
      } else {
        EnvOnlyTransitive(old(outside.world), w, outside.world);
      }
    }

    method SendLabels(existing: Mapping, kyma: Labels, id: string) returns (err: Option<Error>)
      requires Valid() && existing.name == outside.focus && outside.focus in outside.world.profile
      requires outside.focus in outside.world.mappings && outside.world.mappings[outside.focus] == existing
      requires existing.Protected()
      requires kyma == outside.world.profile[outside.focus]
      requires AttachAllowed(outside.world, existing, LabelsFor(kyma, id, dry), existing.finalizers)
      modifies outside`world, outside`log, outside`faults
      ensures Valid() && old(outside.log) <= outside.log
      ensures EnvOnly(old(outside.world), outside.world)
              || IdSaved(old(outside.world), outside.world, existing.name, id)
      ensures err == None ==> IdSaved(old(outside.world), outside.world, existing.name, id)
      ensures err in {None, Some(ApiError)}
      ensures outside.faults == old(outside.faults) + if err == Some(ApiError) then 1 else 0
    {
      hide Recorded;
      var labels := MakeLabels(kyma, id);
      outside.Constants();
      ghost var mid;
      err, mid := outside.UpdateObject(existing, labels, existing.finalizers);
      EnvKeepsStage(old(outside.world), mid, existing.name);
      if outside.world != mid || err == None {
        IdIsSaved(mid, existing.name, id);
        IdSavedLater(old(outside.world), mid, outside.world, existing.name, id);
      }
    }

    /** On success the registered id is the mapping's label, and every other label is as created. */
    method UpsertCompassMapping(name: string, id: string) returns (err: Option<Error>)
      requires Valid() && name == outside.focus
      requires name in outside.world.mappings && outside.world.mappings[name].Protected()
      requires name in outside.world.profile
      requires var m, labels := outside.world.mappings[name], LabelsFor(outside.world.profile[name], id, dry);
               AttachAllowed(outside.world, m, labels, m.finalizers)
      modifies outside`world, outside`log, outside`faults
      ensures Valid() && old(outside.log) <= outside.log
      ensures EnvOnly(old(outside.world), outside.world) || IdSaved(old(outside.world), outside.world, name, id)
      ensures err == None ==> IdSaved(old(outside.world), outside.world, name, id)
      ensures err == Some(NotFound) ==> name !in outside.world.kymas
      ensures err in {None, Some(NotFound), Some(ApiError)}
      ensures outside.faults == old(outside.faults) + if err == Some(ApiError) then 1 else 0
    {
      hide Recorded;
      hide EnvOnly;
      hide IdSaved;
      ghost var w := outside.world;
      var kyma;
      kyma, err := GetKyma(name);
      if err != None {
        return;
      }
      ghost var w1 := outside.world;
      var existing;
      existing, err := GetCompassMapping(name);
      EnvOnlyTransitive(w, w1, outside.world);
      EnvKeepsStage(w, outside.world, name);
      outside.Named(name);
      // Not found would mean to create the mapping, but a protected mapping does not disappear.
      assert err != Some(NotFound);
      if err != None {
        return;
      }
      ghost var w2 := outside.world;
      StillAttachable(w, w2, name, LabelsFor(kyma, id, dry));
      assert outside.world.profile == w.profile && existing.name == name;
      err := SendLabels(existing, kyma, id);
      if IdSaved(w2, outside.world, name, id) {
        IdSavedLater(w, w2, outside.world, name, id);
      } else {
        EnvOnlyTransitive(w, w2, outside.world);
      }
    }

    method SendStatus(existing: Mapping, status: MappingStatus) returns (err: Option<Error>)
      requires Valid() && existing.name == outside.focus && existing.Protected()
      requires outside.focus in outside.world.mappings && outside.world.mappings[outside.focus] == existing
      requires Enabled(outside.world, UpdateStatus(outside.focus, status))
      modifies outside`world, outside`log, outside`faults
      ensures Valid() && old(outside.log) <= outside.log
      ensures EnvOnly(old(outside.world), outside.world)
              || StatusSaved(old(outside.world), outside.world, existing.name, status)
      ensures err == None ==> StatusSaved(old(outside.world), outside.world, existing.name, status)
      ensures err in {None, Some(ApiError)}
      ensures outside.faults == old(outside.faults) + if err == Some(ApiError) then 1 else 0
      ensures err != None ==> FailsIn(outside.log, |old(outside.log)|, {StatusUpdate})
    {
      hide Recorded;
      ghost var mid;
      err, mid := outside.UpdateObjectStatus(existing, status);
      EnvKeepsStage(old(outside.world), mid, existing.name);
      if outside.world != mid || err == None {
        StatusIsSaved(mid, existing.name, status);
        StatusSavedLater(old(outside.world), mid, outside.world, existing.name, status);
      }
    }

    /** On success the mapping's status is the encoding of the bit mask, and nothing else changed. */
    method SetCompassMappingStatus(name: string, status: Status) returns (err: Option<Error>)
      requires Valid() && name == outside.focus
      requires name in outside.world.mappings ==> outside.world.mappings[name].Protected()
      requires name in outside.world.mappings ==> Enabled(outside.world, UpdateStatus(name, Encode(status)))
      modifies outside`world, outside`log, outside`faults
      ensures Valid() && old(outside.log) <= outside.log
      ensures EnvOnly(old(outside.world), outside.world)
              || StatusSaved(old(outside.world), outside.world, name, Encode(status))
      ensures err == None ==> StatusSaved(old(outside.world), outside.world, name, Encode(status))
      ensures err == Some(NotFound) ==> name !in old(outside.world).mappings
      ensures err in {None, Some(NotFound), Some(ApiError)}
      ensures outside.faults == old(outside.faults) + if err == Some(ApiError) then 1 else 0
      ensures name in old(outside.world).mappings && err != None ==>
                FailsIn(outside.log, |old(outside.log)|, {MappingRead, StatusUpdate})
    {
      hide Recorded;
      hide FailsIn;
      hide EnvOnly;
      hide StatusSaved;
      hide Enabled;
      ghost var w := outside.world;
      var mapping;
      mapping, err := GetCompassMapping(name);
      EnvKeepsStage(w, outside.world, name);
      if err != None {
        if err == Some(ApiError) {
          FailsLater(outside.log, |old(outside.log)|, {MappingRead}, outside.log, |old(outside.log)|,
            {MappingRead, StatusUpdate});
        }
        return;
      }
      ghost var read := outside.log;
      outside.Named(name);
      ghost var w1 := outside.world;
      NamedBefore(w, w1, name);
      StatusStaysEnabled(w, w1, name, Encode(status));
      var registered := status & REGISTERED != 0;
      var configured := status & CONFIGURED != 0;
      var state := StateText(status);
      err := SendStatus(mapping, MappingStatus(registered, configured, state));
      if err != None {
        FailsLater(outside.log, |read|, {StatusUpdate}, outside.log, |old(outside.log)|, {MappingRead, StatusUpdate});
      }
      if StatusSaved(w1, outside.world, name, Encode(status)) {
        StatusSavedLater(w, w1, outside.world, name, Encode(status));
      } else {
        EnvOnlyTransitive(w, w1, outside.world);
      }
    }

    method SendCut(existing: Mapping) returns (err: Option<Error>)
      requires Valid() && existing.name == outside.focus && Releasable(outside.world, outside.focus)
      requires outside.focus in outside.world.mappings && outside.world.mappings[outside.focus] == existing
      modifies outside`world, outside`log, outside`faults
      ensures Valid() && old(outside.log) <= outside.log && Retiring(old(outside.world), outside.world, existing.name)
      ensures err == None && existing.name in outside.world.mappings ==>
              !outside.world.mappings[existing.name].Protected()
      ensures err == Some(NotFound) ==> existing.name !in outside.world.mappings
      ensures err in {None, Some(NotFound), Some(ApiError)}
      ensures outside.faults == old(outside.faults) + if err != None then 1 else 0
    {
      hide StageOf;
      hide Recorded;
      var finalizers := CutFinalizer(existing.finalizers);
      outside.Sound();
      ghost var mid;
      err, mid := outside.UpdateObject(existing, existing.labels, finalizers);
      EnvIsRetiring(old(outside.world), mid, existing.name);
      if outside.world != mid || err == None {
        AfterCut(old(outside.world), mid, existing);
      }
    }

    /** Releases the mapping: it keeps its labels and loses the protection, and disappears when it was
        only waiting for that. */
    method RemoveCMFinalizer(name: string) returns (err: Option<Error>)
      requires Valid() && name == outside.focus && Releasable(outside.world, name)
      modifies outside`world, outside`log, outside`faults
      ensures Valid() && old(outside.log) <= outside.log && Retiring(old(outside.world), outside.world, name)
      ensures err == None && name in outside.world.mappings ==> !outside.world.mappings[name].Protected()
      ensures err == Some(NotFound) ==> name !in outside.world.mappings
      ensures err in {None, Some(NotFound), Some(ApiError)}
      ensures outside.faults == old(outside.faults)
              || (err != None && outside.faults == old(outside.faults) + 1)
      ensures err == Some(ApiError) ==> outside.faults == old(outside.faults) + 1
    {
      hide Recorded;
      var mapping;
      mapping, err := GetCompassMapping(name);
      EnvIsRetiring(old(outside.world), outside.world, name);
      if err != None {
        return;
      }
      outside.Named(name);
      ghost var w1 := outside.world;
      err := SendCut(mapping);
      RetiringTransitive(old(outside.world), w1, outside.world, name);
    }

    method SendDelete(name: string) returns (err: Option<Error>)
      requires Valid() && name == outside.focus && Releasable(outside.world, name)
      requires name in outside.world.mappings ==> !outside.world.mappings[name].Protected()
      modifies outside`world, outside`log, outside`faults
      ensures Valid() && old(outside.log) <= outside.log && Retiring(old(outside.world), outside.world, name)
      ensures err == None ==> Dismissed(outside.world, name)
      ensures err == Some(NotFound) ==> name !in outside.world.mappings
      ensures err in {None, Some(NotFound), Some(ApiError)}
      ensures outside.faults == old(outside.faults) + if err == Some(ApiError) then 1 else 0
    {
      hide Recorded;
      ghost var mid;
      err, mid := outside.DeleteObject(name);
      EnvIsRetiring(old(outside.world), mid, name);
      if outside.world != mid || err == None {
        AfterDelete(mid, name);
        RetiringTransitive(old(outside.world), mid, outside.world, name);
      }
    }

    /** On success the mapping is gone, or it is unprotected and its deletion was accepted. */
    method DeleteCompassMapping(name: string) returns (err: Option<Error>)
      requires Valid() && name == outside.focus && Releasable(outside.world, name)
      modifies outside`world, outside`log, outside`faults
      ensures Valid() && old(outside.log) <= outside.log && Retiring(old(outside.world), outside.world, name)
      ensures err == None ==> Dismissed(outside.world, name)
      ensures err == Some(NotFound) ==> name !in outside.world.mappings
      ensures err in {None, Some(NotFound), Some(ApiError)}
      ensures outside.faults == old(outside.faults)
              || (err != None && outside.faults == old(outside.faults) + 1)
      ensures err == Some(ApiError) ==> outside.faults == old(outside.faults) + 1
    {
      hide Recorded;
      hide EnvOnly;
      var mapping;
      mapping, err := GetCompassMapping(name);
      EnvIsRetiring(old(outside.world), outside.world, name);
      if err != None {
        return;
      }
      ghost var w1 := outside.world;
      err := RemoveCMFinalizer(name);
      RetiringTransitive(old(outside.world), w1, outside.world, name);
      if err != None {
        return;
      }
      if mapping.deleting {
        return None;
      }
      ghost var w2 := outside.world;
      err := SendDelete(name);
      RetiringTransitive(old(outside.world), w2, outside.world, name);
    }
  }

  lemma StillAttachable(w: World, w': World, name: string, labels: MappingLabels)
    requires EnvOnly(w, w') && name in w.mappings && w.mappings[name].Protected()
    requires AttachAllowed(w, w.mappings[name], labels, w.mappings[name].finalizers)
    ensures name in w'.mappings && AttachAllowed(w', w'.mappings[name], labels, w'.mappings[name].finalizers)
  {
    assert LeftAlone(w, w', name);
  }
}
