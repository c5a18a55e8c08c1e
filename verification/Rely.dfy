/** What other parties may do to a Kyma's objects: the rely of a reconciliation on the environment,
    and its guarantee to every other Kyma. */
module Rely {
  import opened Wrappers
  import opened Worlds
  import opened Protocol

  ghost predicate SameConstants(w: World, w': World) {
    && w'.enabled == w.enabled && w'.dry == w.dry && w'.pattern == w.pattern
    && w'.profile == w.profile && w'.steady == w.steady
  }

  /** The same mapping as far as the controller is concerned. */
  ghost predicate SameMapping(m: Mapping, m': Mapping) {
    && m'.labels == m.labels && m'.status == m.status && m'.name == m.name
    && (m'.Protected() <==> m.Protected()) && (m.deleting ==> m'.deleting)
  }

  /** The objects of one Kyma, left to others: no mapping is created or changed, a protected mapping
      does not disappear, and a Kyma does not come back while its mapping exists. */
  ghost predicate LeftAlone(w: World, w': World, name: string) {
    && (name in w'.mappings ==> name in w.mappings && SameMapping(w.mappings[name], w'.mappings[name]))
    && (name in w.mappings && w.mappings[name].Protected() ==> name in w'.mappings)
    && (name in w'.kymas && name in w'.mappings ==> name in w.kymas)
    && (name in w.steady && name in w.kymas ==> name in w'.kymas)
    && (name in w.steady ==> KubeconfigOf(w', name) == KubeconfigOf(w, name))
    && CallOf(w', name) == CallOf(w, name)
  }

  /** The first of the Kyma's kubeconfig secrets. */
  ghost function KubeconfigOf(w: World, name: string): Option<Option<string>> {
    if name in w.kubeconfigs && w.kubeconfigs[name] != [] then Some(w.kubeconfigs[name][0]) else None
  }

  ghost function CallOf(w: World, name: string): Option<ConfigureCall> {
    if name in w.lastConfigure then Some(w.lastConfigure[name]) else None
  }

  ghost predicate Owns(w: World, id: string, name: string) {
    id in w.runtimes && w.runtimes[id].owner == name
  }

  ghost predicate SameRuntimes(w: World, w': World, name: string) {
    forall id :: Owns(w, id, name) || Owns(w', id, name) ==>
      id in w.runtimes && id in w'.runtimes && w'.runtimes[id] == w.runtimes[id]
  }

  /** The Kyma's kubeconfig is still known, though it may have changed. */
  ghost predicate StillOffered(w: World, w': World, name: string) {
    Offers(w', name, w.Kubeconfig(name))
  }

  lemma OffersLater(w: World, w': World, name: string, kubeconfig: string)
    requires EnvOnly(w, w') && Offers(w, name, kubeconfig)
    ensures Offers(w', name, kubeconfig)
  {
    assert StillOffered(w, w', name);
  }

  /** The environment's steps. */
  ghost predicate EnvOnly(w: World, w': World) {
    && SameConstants(w, w')
    && (forall name :: LeftAlone(w, w', name))
    && w.outdated <= w'.outdated && (forall name :: StillOffered(w, w', name))
    && w'.runtimes == w.runtimes && w'.deregistrations == w.deregistrations && w'.deregistered == w.deregistered
  }

  /** The guarantee of a reconciliation of `focus` to every other Kyma. */
  ghost predicate Isolated(w: World, w': World, focus: string) {
    && SameConstants(w, w')
    && (forall name :: name != focus ==> LeftAlone(w, w', name))
    && (forall name :: name != focus ==> SameRuntimes(w, w', name))
    && (focus in w.steady && focus in w.kymas ==> focus in w'.kymas)
    && (focus in w.steady ==> KubeconfigOf(w', focus) == KubeconfigOf(w, focus))
  }

  lemma LeftAloneTransitive(w: World, w1: World, w2: World, name: string)
    requires w1.steady == w.steady && LeftAlone(w, w1, name) && LeftAlone(w1, w2, name)
    ensures LeftAlone(w, w2, name)
  {}

  lemma EnvOnlyReflexive(w: World)
    ensures EnvOnly(w, w)
  {}

  lemma EnvOnlyTransitive(w: World, w1: World, w2: World)
    requires EnvOnly(w, w1) && EnvOnly(w1, w2)
    ensures EnvOnly(w, w2)
  {
    forall name ensures LeftAlone(w, w2, name) && StillOffered(w, w2, name) {
      LeftAloneTransitive(w, w1, w2, name);
      assert StillOffered(w, w1, name) && StillOffered(w1, w2, name);
    }
  }

  lemma IsolatedTransitive(w: World, w1: World, w2: World, focus: string)
    requires Isolated(w, w1, focus) && Isolated(w1, w2, focus)
    ensures Isolated(w, w2, focus)
  {
    forall name | name != focus ensures LeftAlone(w, w2, name) && SameRuntimes(w, w2, name) {
      LeftAloneTransitive(w, w1, w2, name);
      SameRuntimesTransitive(w, w1, w2, name);
    }
  }

  lemma SameRuntimesTransitive(w: World, w1: World, w2: World, name: string)
    requires SameRuntimes(w, w1, name) && SameRuntimes(w1, w2, name)
    ensures SameRuntimes(w, w2, name)
  {}

  lemma EnvIsIsolated(w: World, w': World, focus: string)
    requires EnvOnly(w, w')
    ensures Isolated(w, w', focus)
  {
    assert LeftAlone(w, w', focus);
  }

  /** A protected mapping, or none, stays what it was. */
  lemma EnvKeepsStage(w: World, w': World, name: string)
    requires EnvOnly(w, w') && (name in w.mappings ==> w.mappings[name].Protected())
    ensures name in w'.mappings <==> name in w.mappings
    ensures name in w.mappings ==> SameMapping(w.mappings[name], w'.mappings[name]) && w'.mappings[name].Protected()
    ensures w'.StageAt(name) == w.StageAt(name)
  {
    assert LeftAlone(w, w', name);
  }

  /** Every step of the environment is within the rely. */
  lemma EnvironmentStep(w: World, a: Action)
    requires MappingsOk(w) && Enabled(w, a) && a.FromEnvironment()
    ensures EnvOnly(w, Apply(w, a))
  {
    forall name ensures LeftAlone(w, Apply(w, a), name) && StillOffered(w, Apply(w, a), name) {
      EnvironmentLeavesAlone(w, a, name);
      KubeconfigsAreKept(w, a, name);
    }
  }

  lemma KubeconfigsAreKept(w: World, a: Action, name: string)
    ensures w.outdated <= Apply(w, a).outdated && StillOffered(w, Apply(w, a), name)
  {}

  /** Only the stored object's own name changes. */
  lemma OtherMappingsStay(w: World, a: Action, name: string)
    requires Stored(w, a).Some? ==> Stored(w, a).value.name != name
    ensures name in Apply(w, a).mappings <==> name in w.mappings
    ensures name in w.mappings ==> Apply(w, a).mappings[name] == w.mappings[name]
  {}

  lemma EnvironmentLeavesAlone(w: World, a: Action, name: string)
    requires MappingsOk(w) && Enabled(w, a) && a.FromEnvironment()
    ensures LeftAlone(w, Apply(w, a), name)
  {
    hide LabelsFor;
    hide Apply;
    if a.KymaAppears? || a.KymaDisappears? {
      KymaStep(w, a);
    } else if a.KubeconfigChanges? || a.AgentSecretChanges? {
      ForeignStep(w, a);
    } else {
      StoringStep(w, a);
      StoredKeepsId(w, a);
      TouchedIsSame(w, a);
      StoreLeavesAlone(w, Stored(w, a).value, name);
    }
  }

  lemma TouchedIsSame(w: World, a: Action)
    requires Enabled(w, a) && (a.DeletionRequested? || a.FinalizersChanged?)
    ensures a.name in w.mappings && Stored(w, a).Some? && SameMapping(w.mappings[a.name], Stored(w, a).value)
  {}

  lemma StoreLeavesAlone(w: World, m: Mapping, name: string)
    requires m.name in w.mappings && SameMapping(w.mappings[m.name], m)
    ensures LeftAlone(w, Store(w, m), name)
  {
    assert Vanishes(m) ==> !m.Protected();
  }

  /** Every step of the controller on behalf of `focus` is within the guarantee. */
  lemma ControllerStep(w: World, a: Action)
    requires MappingsOk(w) && LedgerOk(w) && Enabled(w, a) && !a.FromEnvironment()
    ensures Isolated(w, Apply(w, a), a.name)
  {
    hide Enabled;
    hide RuntimesAfter;
    hide WithoutFinalizer;
    forall name | name != a.name ensures LeftAlone(w, Apply(w, a), name) && SameRuntimes(w, Apply(w, a), name) {
      ControllerLeavesAlone(w, a, name);
      ControllerKeepsRuntimes(w, a, name);
    }
  }

  lemma ControllerTouchesNoKyma(w: World, a: Action)
    requires !a.FromEnvironment()
    ensures Apply(w, a).kymas == w.kymas && Apply(w, a).kubeconfigs == w.kubeconfigs
    ensures forall name :: name != a.name ==> CallOf(Apply(w, a), name) == CallOf(w, name)
  {}

  lemma ControllerLeavesAlone(w: World, a: Action, name: string)
    requires MappingsOk(w) && Enabled(w, a) && !a.FromEnvironment() && name != a.name
    ensures LeftAlone(w, Apply(w, a), name)
  {
    StoredKeepsId(w, a);
    OtherMappingsStay(w, a, name);
    ControllerTouchesNoKyma(w, a);
  }

  lemma ControllerKeepsRuntimes(w: World, a: Action, name: string)
    requires MappingsOk(w) && LedgerOk(w) && Enabled(w, a) && name != a.name
    ensures SameRuntimes(w, Apply(w, a), name)
  {
    assert Apply(w, a).runtimes == RuntimesAfter(w, a);
    if a.UpdateMapping? {
      UpdateKeepsRuntimes(w, a, name);
    }
  }

  lemma UpdateKeepsRuntimes(w: World, a: Action, name: string)
    requires MappingsOk(w) && LedgerOk(w) && Enabled(w, a) && name != a.name && a.UpdateMapping?
    ensures SameRuntimes(w, w.(runtimes := RuntimesAfter(w, a)), name)
  {
    if !AttachAllowed(w, w.mappings[a.name], a.labels, a.finalizers) {
      assert a.name in w.profile;
      CurrentIdIsNotReturned(w, a.name);
    }
  }

  /** Either way the step is within what a reconciliation of `focus` guarantees. */
  lemma StepIsIsolated(w: World, a: Action, focus: string)
    requires MappingsOk(w) && LedgerOk(w) && Enabled(w, a) && (a.FromEnvironment() || a.name == focus)
    ensures Isolated(w, Apply(w, a), focus)
  {
    if a.FromEnvironment() {
      EnvironmentStep(w, a);
      EnvIsIsolated(w, Apply(w, a), focus);
    } else {
      ControllerStep(w, a);
    }
  }
}
