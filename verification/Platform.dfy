/** The world outside the controller as an object that the controller calls. Before every call to the
    API server the environment takes any number of steps, and every call may fail, with or without
    having taken effect. Whether a call fails is settled when it is made, and a failed call is logged. The
    class keeps the log of everything that happened, which is at every moment a legal run of the protocol. */
module Platform {
  import opened Wrappers
  import opened StatusCode
  import opened Worlds
  import opened Protocol
  import opened Rely
  import opened Runs

  /** The errors that the controller tells apart. */
  datatype Error = NotFound | AlreadyExists | ApiError | DirectorError | OtherError

  /** An update that was allowed for the stored object stays allowed while the object is the same. */
  lemma UpdateStaysEnabled(w: World, w': World, name: string, labels: MappingLabels, finalizers: seq<Finalizer>)
    requires EnvOnly(w, w') && Enabled(w, UpdateMapping(name, labels, finalizers))
    requires name in w'.mappings && w'.mappings[name] == w.mappings[name] && w.mappings[name].name == name
    ensures Enabled(w', UpdateMapping(name, labels, finalizers))
  {
    assert LeftAlone(w, w', name);
  }

  lemma StatusStaysEnabled(w: World, w': World, name: string, status: MappingStatus)
    requires EnvOnly(w, w') && Enabled(w, UpdateStatus(name, status))
    requires name in w'.mappings && w.mappings[name].name == name
    ensures Enabled(w', UpdateStatus(name, status))
  {
    hide CutAllowed;
    assert LeftAlone(w, w', name);
    assert StageOf(w'.mappings[name]) == StageOf(w.mappings[name]);
    assert ConfigureEnded(w', name, true) == ConfigureEnded(w, name, true);
    assert ConfigureEnded(w', name, false) == ConfigureEnded(w, name, false);
  }

  /** The environment writes the mapping of that name. */
  predicate Touches(a: Action) {
    a.DeletionRequested? || a.FinalizersChanged?
  }

  ghost predicate Untouched(w: World, w': World, name: string) {
    && (name in w'.mappings <==> name in w.mappings)
    && (name in w.mappings ==> w'.mappings[name] == w.mappings[name])
  }

  lemma UntouchedByStep(w: World, a: Action, name: string)
    requires MappingsOk(w) && Enabled(w, a) && a.FromEnvironment()
    ensures a.name != name || !Touches(a) ==> Untouched(w, Apply(w, a), name)
  {
    StoredKeepsId(w, a);
    if a.name != name || !Touches(a) {
      OtherMappingsStay(w, a, name);
    }
  }

  lemma {:induction false} FailsStill(from: seq<Action>, log: seq<Action>, log': seq<Action>, kinds: set<CallKind>)
    requires from <= log <= log'
    ensures FailsIn(log, |from|, kinds) ==> FailsIn(log', |from|, kinds)
  {
    if FailsIn(log, |from|, kinds) {
      FailsLater(log, |from|, kinds, log', |from|, kinds);
    }
  }

  /** The API server's label selector: the objects whose kyma-name label is `name`, in any order. */
  method Select(mappings: map<string, Mapping>, name: string) returns (items: seq<Mapping>)
    requires forall n :: n in mappings ==> mappings[n].labels.kymaName == Some(n)
    ensures items == if name in mappings then [mappings[name]] else []
  {
    items := [];
    var names := mappings.Keys;
    while names != {}
      invariant names <= mappings.Keys
      invariant items == if name in mappings && name !in names then [mappings[name]] else []
      decreases names
    {
      var n :| n in names;
      if mappings[n].labels.kymaName == Some(name) {
        items := items + [mappings[n]];
      }
      names := names - {n};
    }
  }

  /** The kyma-name label of every stored mapping is its own name. */
  lemma LabelsAreNames(init: World, log: seq<Action>)
    requires Reachable(init, log)
    ensures forall n :: n in After(init, log).mappings ==> After(init, log).mappings[n].labels.kymaName == Some(n)
  {
    ReachableStatesSatisfyInv(init, log);
    var w := After(init, log);
    forall n | n in w.mappings ensures w.mappings[n].labels.kymaName == Some(n) {
      StoredObjectIsSafe(w, n);
    }
  }

  class Outside {
    /** At which moments of the run calls can fail; the controller does not see it. */
    const luck: nat -> Luck
    var world: World
    var log: seq<Action>
    /** The Kyma that is being reconciled. */
    var focus: string
    ghost const init: World
    /** The outbound steps of the log. */
    ghost var deeds: seq<Action>
    /** The world when the reconciliation of `focus` began. */
    ghost var base: World
    /** The number of failed calls in the log. */
    ghost var faults: nat

    ghost predicate Valid()
      reads this
    {
      Recorded(init, log, luck, world, deeds, faults) && Isolated(base, world, focus)
    }

    constructor (w: World, luck: nat -> Luck)
      requires Init(w)
      ensures Valid() && world == w && init == w && log == [] && base == w && faults == 0 && this.luck == luck
    {
      this.luck, world, init, log, deeds, focus, base, faults := luck, w, w, [], [], "", w, 0;
      new;
      EnvIsIsolated(w, w, "");
    }

    lemma Sound()
      requires Valid()
      ensures ProfilesOk(world) && MappingsOk(world) && LedgerOk(world) && HistoryOk(world)
    {
      ReachableStatesSatisfyInv(init, log);
    }

    lemma Named(name: string)
      requires Valid() && name in world.mappings
      ensures name in world.profile && world.mappings[name].name == name
    {
      Sound();
      assert MappingOk(world.mappings[name], name, world.profile[name], world.enabled, world.dry, name in world.kymas);
    }

    lemma SelectorsMatch()
      requires Valid()
      ensures forall n :: n in world.mappings ==> world.mappings[n].labels.kymaName == Some(n)
    {
      LabelsAreNames(init, log);
    }

    lemma Here()
      requires Valid()
      ensures Reachable(init, log) && world == After(init, log) && deeds == Deeds(log) && faults == Failures(log)
      ensures Fated(log, luck)
    {}

    lemma Constants()
      requires Valid()
      ensures SameConstants(init, world)
    {
      ConstantsStay(init, log);
    }

    /** The number of failures grows by those in the new part of the log. */
    lemma SmoothSince(before: seq<Action>)
      requires Valid() && before <= log
      ensures var more := log[|before|..];
              faults == Failures(before) + Failures(more) && (Smooth(more) <==> Failures(more) == 0)
    {
      FailuresOfSum(before, log[|before|..]);
      assert log == before + log[|before|..];
      SmoothExactly(log[|before|..]);
    }

    lemma Advance(a: Action)
      requires Valid() && Enabled(world, a) && (a.FromEnvironment() || a.name == focus) && Decreed(luck(|log|), a)
      ensures Recorded(init, log + [a], luck, Apply(world, a), if a.Outbound() then deeds + [a] else deeds,
                if a.CallFails? then faults + 1 else faults)
      ensures Isolated(base, Apply(world, a), focus)
    {
      hide Apply;
      hide Enabled;
      hide Isolated;
      Sound();
      DeedsStep(log, a);
      FailuresStep(log, a);
      LegalStep(init, log, a);
      StepIsIsolated(world, a, focus);
      IsolatedTransitive(base, world, Apply(world, a), focus);
    }

    /** One step of the environment, or of the controller in the control plane, happens. */
    method Perform(a: Action)
      requires Valid() && Enabled(world, a) && (a.FromEnvironment() || a.name == focus)
      requires !a.Outbound() && !a.CallFails?
      modifies `world, `log
      ensures Valid() && world == Apply(old(world), a) && log == old(log) + [a]
    {
      hide Apply;
      hide Enabled;
      hide Isolated;
      hide Recorded;
      Advance(a);
      world, log := Apply(world, a), log + [a];
    }

    /** One step of the controller outside the control plane happens. */
    method Act(a: Action)
      requires Valid() && Enabled(world, a) && a.Outbound() && a.name == focus
      modifies `world, `log, `deeds
      ensures Valid() && world == Apply(old(world), a) && log == old(log) + [a] && deeds == old(deeds) + [a]
    {
      hide Apply;
      hide Enabled;
      hide Isolated;
      hide Recorded;
      Advance(a);
      world, log, deeds := Apply(world, a), log + [a], deeds + [a];
    }

    /** A call fails, at a moment when it can. */
    method Fail(a: Action)
      requires Valid() && Enabled(world, a) && a.CallFails? && a.name == focus && Decreed(luck(|log|), a)
      modifies `log, `faults
      ensures Valid() && log == old(log) + [a] && faults == old(faults) + 1
    {
      hide Apply;
      hide Enabled;
      hide Isolated;
      hide Recorded;
      ForeignStep(world, a);
      Advance(a);
      log, faults := log + [a], faults + 1;
    }

    /** A call is made. Only the moment decides whether it fails; if so, that is logged. */
    method Try(kind: CallKind) returns (fails: bool)
      requires Valid()
      modifies `log, `faults
      ensures Valid() && old(log) <= log && faults == old(faults) + if fails then 1 else 0
      ensures if fails then FailsIn(log, |old(log)|, {kind}) else log == old(log)
    {
      hide Recorded;
      fails := *;
      fails := fails && luck(|log|).mishap;
      if fails {
        Fail(CallFails(focus, kind, None));
        assert log[|old(log)|] == CallFails(focus, kind, None);
      }
    }

    /** A runtime is requested. Unless the call fails, the Director has a new UUID for it. */
    method TryRegister() returns (fails: bool, id: string)
      requires Valid()
      modifies `log, `faults
      ensures Valid() && old(log) <= log && faults == old(faults) + if fails then 1 else 0
      ensures if fails then FailsIn(log, |old(log)|, {RegisterRequest}) else Usable(world, id)
    {
      hide Recorded;
      var mishap: bool := *;
      mishap, id := mishap && luck(|log|).mishap, luck(|log|).id;
      fails := mishap || !Usable(world, id);
      if fails {
        var a := CallFails(focus, RegisterRequest, if mishap then None else Some(id));
        Fail(a);
        assert log[|old(log)|] == a;
      }
    }

    /** Others change agent secrets, any number of times; a spared one they leave alone. */
    method Disturb(spared: Option<string>)
      requires Valid()
      modifies `world, `log
      ensures Valid() && world == old(world).(agents := world.agents) && old(log) <= log
      ensures spared.Some? ==> SecretAt(world, spared.value) == SecretAt(old(world), spared.value)
    {
      hide Recorded;
      var steps: int := *;
      while steps > 0
        invariant Valid() && world == old(world).(agents := world.agents) && old(log) <= log
        invariant spared.Some? ==> SecretAt(world, spared.value) == SecretAt(old(world), spared.value)
      {
        var name: string, kubeconfig: string, content: Option<AgentSecret> := *, *, *;
        if spared != Some(kubeconfig) {
          ForeignStep(world, AgentSecretChanges(name, kubeconfig, content));
          Perform(AgentSecretChanges(name, kubeconfig, content));
        }
        steps := steps - 1;
      }
    }

    /** The environment takes any number of steps; if it is spared, the focused Kyma's mapping is left alone. */
    method Interfere(spared: bool)
      requires Valid()
      modifies `world, `log
      ensures Valid() && EnvOnly(old(world), world) && old(log) <= log
      ensures spared ==> Untouched(old(world), world, focus)
    {
      hide Apply;
      hide Enabled;
      hide EnvOnly;
      hide Isolated;
      hide Recorded;
      EnvOnlyReflexive(world);
      var steps: int := *;
      while steps > 0
        invariant Valid() && EnvOnly(old(world), world) && old(log) <= log
        invariant spared ==> Untouched(old(world), world, focus)
      {
        var a: Action := *;
        if a.FromEnvironment() && Enabled(world, a) && (!spared || a.name != focus || !Touches(a)) {
          Sound();
          EnvironmentStep(world, a);
          EnvOnlyTransitive(old(world), world, Apply(world, a));
          UntouchedByStep(world, a, focus);
          Perform(a);
        }
        steps := steps - 1;
      }
    }

    /** A reconciliation of the named Kyma begins. */
    method Begin(name: string)
      requires Valid()
      modifies `focus, `base
      ensures Valid() && focus == name && base == world
    {
      hide Recorded;
      focus, base := name, world;
      EnvIsIsolated(world, world, name);
    }

    // ----- Reads -----

    method GetKyma(name: string) returns (labels: Labels, err: Option<Error>)
      requires Valid()
      modifies `world, `log, `faults
      ensures Valid() && EnvOnly(old(world), world) && old(log) <= log
      ensures err == None ==> name in world.kymas && name in world.profile && labels == world.profile[name]
      ensures err == Some(NotFound) ==> name !in world.kymas
      ensures err in {None, Some(NotFound), Some(ApiError)}
      ensures faults == old(faults) + if err == Some(ApiError) then 1 else 0
      ensures err == Some(ApiError) ==> FailsIn(log, |old(log)|, {KymaRead})
    {
      hide Recorded;
      var fails := Try(KymaRead);
      ghost var tried := log;
      Interfere(false);
      FailsStill(old(log), tried, log, {KymaRead});
      labels := map[];
      if fails {
        return labels, Some(ApiError);
      }
      Sound();
      if name in world.kymas {
        return world.profile[name], None;
      }
      return labels, Some(NotFound);
    }

    /** The mappings whose kyma-name label is `name`, in any order. */
    method ListMappings(name: string) returns (items: seq<Mapping>, err: Option<Error>)
      requires Valid()
      modifies `world, `log, `faults
      ensures Valid() && EnvOnly(old(world), world) && old(log) <= log
      ensures err in {None, Some(ApiError)}
      ensures err == None ==> items == if name in world.mappings then [world.mappings[name]] else []
      ensures faults == old(faults) + if err == Some(ApiError) then 1 else 0
      ensures err == Some(ApiError) ==> FailsIn(log, |old(log)|, {MappingRead})
    {
      hide Recorded;
      var fails := Try(MappingRead);
      ghost var tried := log;
      Interfere(false);
      FailsStill(old(log), tried, log, {MappingRead});
      items := [];
      if fails {
        return items, Some(ApiError);
      }
      SelectorsMatch();
      items := Select(world.mappings, name);
      err := None;
    }

    /** The kubeconfig secrets labelled with the Kyma's name; per secret the data under `config`. */
    method ListSecrets(name: string) returns (items: seq<Option<string>>, err: Option<Error>)
      requires Valid()
      modifies `world, `log, `faults
      ensures Valid() && EnvOnly(old(world), world) && old(log) <= log
      ensures err in {None, Some(ApiError)}
      ensures err == None ==> items == if name in world.kubeconfigs then world.kubeconfigs[name] else []
      ensures faults == old(faults) + if err == Some(ApiError) then 1 else 0
      ensures err == Some(ApiError) ==> FailsIn(log, |old(log)|, {SecretRead})
    {
      hide Recorded;
      var fails := Try(SecretRead);
      ghost var tried := log;
      Interfere(false);
      FailsStill(old(log), tried, log, {SecretRead});
      if fails {
        return [], Some(ApiError);
      }
      return if name in world.kubeconfigs then world.kubeconfigs[name] else [], None;
    }

    // ----- Writes -----

    /** A step that a call asks for, with the call's outcome: a failing call may have taken effect or not. */
    method Attempt(a: Action, fails: bool) returns (err: Option<Error>)
      requires Valid() && Enabled(world, a) && !a.Outbound() && !a.CallFails? && a.name == focus
      modifies `world, `log
      ensures Valid() && old(log) <= log
      ensures world == old(world) || world == Apply(old(world), a)
      ensures if fails then err == Some(ApiError) else err == None && world == Apply(old(world), a)
    {
      hide Recorded;
      var lost: bool := *;
      if !fails || !lost {
        Perform(a);
      }
      return if fails then Some(ApiError) else None;
    }

    /** Refused when an object of that name exists. */
    method CreateObject(name: string, labels: MappingLabels) returns (err: Option<Error>, ghost mid: World)
      requires Valid() && name == focus && name in world.profile
      requires labels == LabelsFor(world.profile[name], "", world.dry)
      modifies `world, `log, `faults
      ensures Valid() && old(log) <= log && EnvOnly(old(world), mid)
      ensures world == mid || (Enabled(mid, CreateMapping(name, labels))
              && world == Apply(mid, CreateMapping(name, labels)))
      ensures err == None ==>
              Enabled(mid, CreateMapping(name, labels)) && world == Apply(mid, CreateMapping(name, labels))
      ensures err == Some(AlreadyExists) ==> name in mid.mappings
      ensures err in {None, Some(AlreadyExists), Some(ApiError)}
      ensures faults == old(faults) + if err == Some(ApiError) then 1 else 0
    {
      hide Recorded;
      var fails := Try(MappingCreate);
      Interfere(false);
      mid := world;
      if name in world.mappings {
        return Some(if fails then ApiError else AlreadyExists), mid;
      }
      err := Attempt(CreateMapping(name, labels), fails);
    }

    /** Update of the object that was read as `read`: refused when it has changed in the meantime. A conflict
        is a failed call, so without one the environment has left the object alone. */
    method UpdateObject(read: Mapping, labels: MappingLabels, finalizers: seq<Finalizer>)
      returns (err: Option<Error>, ghost mid: World)
      requires Valid() && read.name == focus
      requires focus in world.mappings && world.mappings[focus] == read
      requires Enabled(world, UpdateMapping(focus, labels, finalizers))
      modifies `world, `log, `faults
      ensures Valid() && old(log) <= log && EnvOnly(old(world), mid)
      ensures world == mid || (Enabled(mid, UpdateMapping(focus, labels, finalizers)) && mid.mappings[focus] == read &&
                               world == Apply(mid, UpdateMapping(focus, labels, finalizers)))
      ensures err == None ==> Enabled(mid, UpdateMapping(focus, labels, finalizers)) && mid.mappings[focus] == read
      ensures err == None ==> world == Apply(mid, UpdateMapping(focus, labels, finalizers))
      ensures err == Some(NotFound) ==> world == mid && focus !in world.mappings
      ensures err in {None, Some(NotFound), Some(ApiError)}
      ensures faults == old(faults) + if err != None then 1 else 0
    {
      hide Recorded;
      var fails := Try(MappingUpdate);
      Interfere(!fails);
      mid := world;
      var name := read.name;
      if name !in world.mappings {
        return Some(NotFound), mid;
      }
      if world.mappings[name] != read {
        return Some(ApiError), mid;
      }
      UpdateStaysEnabled(old(world), world, name, labels, finalizers);
      err := Attempt(UpdateMapping(name, labels, finalizers), fails);
    }

    /** The same for the status. */
    method UpdateObjectStatus(read: Mapping, status: MappingStatus) returns (err: Option<Error>, ghost mid: World)
      requires Valid() && read.name == focus
      requires focus in world.mappings && world.mappings[focus] == read
      requires Enabled(world, UpdateStatus(focus, status))
      modifies `world, `log, `faults
      ensures Valid() && old(log) <= log && EnvOnly(old(world), mid)
      ensures world == mid || (Enabled(mid, UpdateStatus(focus, status)) && mid.mappings[focus] == read &&
                               world == Apply(mid, UpdateStatus(focus, status)))
      ensures err == None ==> Enabled(mid, UpdateStatus(focus, status)) && mid.mappings[focus] == read
      ensures err == None ==> world == Apply(mid, UpdateStatus(focus, status))
      ensures err == Some(NotFound) ==> world == mid && focus !in world.mappings
      ensures err in {None, Some(NotFound), Some(ApiError)}
      ensures faults == old(faults) + if err != None then 1 else 0
      ensures err != None ==> FailsIn(log, |old(log)|, {StatusUpdate})
    {
      hide Recorded;
      var fails := Try(StatusUpdate);
      ghost var tried := log;
      Interfere(!fails);
      mid := world;
      var name := read.name;
      FailsStill(old(log), tried, log, {StatusUpdate});
      if name !in world.mappings {
        return Some(NotFound), mid;
      }
      if world.mappings[name] != read {
        return Some(ApiError), mid;
      }
      StatusStaysEnabled(old(world), world, name, status);
      ghost var sent := log;
      err := Attempt(UpdateStatus(name, status), fails);
      FailsStill(old(log), sent, log, {StatusUpdate});
    }

    /** "Not found" is an answer and no failed call: the object is gone already. */
    method DeleteObject(name: string) returns (err: Option<Error>, ghost mid: World)
      requires Valid() && name == focus
      requires name in world.mappings ==> name !in world.kymas && !world.mappings[name].Protected()
      modifies `world, `log, `faults
      ensures Valid() && old(log) <= log && EnvOnly(old(world), mid)
      ensures world == mid || (Enabled(mid, DeleteMapping(name)) && mid.mappings[name].name == name &&
                               world == Apply(mid, DeleteMapping(name)))
      ensures err == None ==> Enabled(mid, DeleteMapping(name)) && mid.mappings[name].name == name
      ensures err == None ==> world == Apply(mid, DeleteMapping(name))
      ensures err == Some(NotFound) ==> world == mid && name !in world.mappings
      ensures err in {None, Some(NotFound), Some(ApiError)}
      ensures faults == old(faults) + if err == Some(ApiError) then 1 else 0
    {
      hide Recorded;
      var fails := Try(MappingDelete);
      Interfere(false);
      mid := world;
      assert LeftAlone(old(world), mid, name);
      if name !in world.mappings {
        return Some(if fails then ApiError else NotFound), mid;
      }
      Named(name);
      err := Attempt(DeleteMapping(name), fails);
    }
  }
}
