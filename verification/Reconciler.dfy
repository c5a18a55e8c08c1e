/** The CompassManagerReconciler of controllers/compassmanager_controller.go: one Reconcile does at most
    one phase of work for one Kyma. It is proved to be one move of the phase machine. */
module Reconciler {
  import opened Wrappers
  import opened StatusCode
  import opened Worlds
  import opened Protocol
  import opened Rely
  import opened Runs
  import opened PhaseMachine
  import opened Platform
  import opened Director
  import opened Registration
  import opened Registrator
  import opened Configurator
  import opened ControlPlane
  import opened Ledger

  const MANAGED_BY := "compass-manager"

  datatype Requeue = Never | Immediately | After(seconds: nat)

  /** The result and the error that Reconcile hands to the work queue. */
  datatype Outcome = Outcome(requeue: Requeue, err: Option<Error>) {
    /** The work queue will not run this key again by itself. */
    predicate Done() { requeue == Never && err == None }
  }

  // ----- What the steps of a reconciliation tell -----

  /** The Registrator was called and returned no id. */
  ghost predicate RegistrationFailed(deeds: seq<Action>) {
    (exists a :: a in deeds && a.CallRegister?) && forall a :: a in deeds ==> !a.ReturnRuntime?
  }

  ghost predicate ConfigureFailed(deeds: seq<Action>) {
    exists a :: a in deeds && a.FinishConfigure? && !a.ok
  }

  /** The Registrator was called and the deregistration was not confirmed. */
  ghost predicate DeregistrationFailed(deeds: seq<Action>) {
    (exists a :: a in deeds && a.CallDeregister?) && forall a :: a in deeds ==> !a.ConfirmDeregister?
  }

  /** Nothing is done in a client cluster but through this kubeconfig. */
  ghost predicate Through(deeds: seq<Action>, kubeconfig: string) {
    forall a :: a in deeds && (a.WriteAgentSecret? || a.FinishConfigure?) ==> a.kubeconfig == kubeconfig
  }

  /** A failed registration or configuration of a real run is noted in the mapping's status, unless the mapping could
      not be read or its status not be written. */
  ghost predicate Noted(w: World, name: string, deeds: seq<Action>, log: seq<Action>, from: nat) {
    && (RegistrationFailed(deeds) && !w.dry ==>
          w.StageAt(name) == Stage.Failed || FailsIn(log, from, {MappingRead, StatusUpdate}))
    && (ConfigureFailed(deeds) ==>
          w.StageAt(name) == ConfigFailed || FailsIn(log, from, {MappingRead, StatusUpdate}))
  }

  lemma {:induction false} NothingNoted(w: World, name: string, log: seq<Action>, from: nat, kubeconfig: string)
    ensures Noted(w, name, NOTHING.deeds, log, from) && Through(NOTHING.deeds, kubeconfig)
  {}

  lemma {:induction false} NotedSince(w: World, name: string, deeds: seq<Action>, log: seq<Action>, from: nat,
          from': nat)
    requires Noted(w, name, deeds, log, from) && from' <= from
    ensures Noted(w, name, deeds, log, from')
  {
    if FailsIn(log, from, {MappingRead, StatusUpdate}) {
      FailsLater(log, from, {MappingRead, StatusUpdate}, log, from', {MappingRead, StatusUpdate});
    }
  }

  /** A real registration fails exactly when it returns no runtime. */
  lemma {:induction false} RegistrationTells(owner: string, tenant: string, labels: RuntimeLabels, ds: seq<Delivery>,
          kubeconfig: string)
    ensures var deeds := RegisterDeeds(owner, tenant, labels, ds);
            && (RegistrationFailed(deeds) <==> ReturnedId(ds) == None)
            && !ConfigureFailed(deeds) && Through(deeds, kubeconfig)
  {
    OnlyCreates(owner, tenant, ds);
    var deeds := RegisterDeeds(owner, tenant, labels, ds);
    assert deeds[0] == CallRegister(owner, tenant, labels);
    if ReturnedId(ds).Some? {
      assert deeds[|deeds| - 1].ReturnRuntime?;
    }
  }

  lemma {:induction false} OnlyCreates(owner: string, tenant: string, ds: seq<Delivery>)
    ensures forall a :: a in Creates(owner, tenant, ds) ==> a.CreateRuntime?
  {
    if ds != [] {
      OnlyCreates(owner, tenant, ds[1..]);
    }
  }

  lemma {:induction false} DeregistrationTells(owner: string, id: string, tenant: string, deleted: bool,
          confirmed: bool)
    ensures DeregistrationFailed(DeregisterDeeds(owner, id, tenant, deleted, confirmed)) <==> !confirmed
  {
    var deeds := DeregisterDeeds(owner, id, tenant, deleted, confirmed);
    assert deeds[0].CallDeregister?;
    if confirmed {
      assert deeds[|deeds| - 1].ConfirmDeregister?;
    }
  }

  lemma {:induction false} ConfigurationTells(name: string, kubeconfig: string, id: string, account: string, ok: bool,
          fetched: Option<OneTimeToken>, written: bool)
    ensures var deeds := ConfigureDeeds(name, kubeconfig, id, account, ok, fetched, written);
            Through(deeds, kubeconfig) && !RegistrationFailed(deeds) && (ConfigureFailed(deeds) <==> !ok)
  {
    hide AgentData;
    var deeds := ConfigureDeeds(name, kubeconfig, id, account, ok, fetched, written);
    assert deeds[|deeds| - 1] == FinishConfigure(name, kubeconfig, id, account, ok);
  }

  /** One reconciliation of an existing Kyma, as a step between worlds. */
  ghost predicate Stepped(w: World, w': World, name: string, did: Effects, failed: bool) {
    && SameConstants(w, w')
    && Move(w.enabled, w.StageAt(name), w'.StageAt(name), did.Calls(), failed)
    && LedgerGrows(w, w', name, did, failed) && Honest(did, name)
    && (w.StageAt(name) == Pending && w'.StageAt(name) == Stage.Failed ==> w'.dry || RegistrationFailed(did.deeds))
  }

  ghost predicate Guarded(w: World, name: string) {
    name in w.mappings ==> w.mappings[name].Protected()
  }

  /** A step after some steps of the environment. */
  lemma SteppedLater(w: World, w1: World, w2: World, name: string, did: Effects, failed: bool)
    requires EnvOnly(w, w1) && Guarded(w, name) && Stepped(w1, w2, name, did, failed)
    ensures Stepped(w, w2, name, did, failed)
  {
    EnvKeepsStage(w, w1, name);
  }

  /** A reconciliation that failed before it had an effect. */
  lemma SteppedInPlace(w: World, w': World, name: string)
    requires EnvOnly(w, w') && Guarded(w, name)
    ensures Stepped(w, w', name, NOTHING, true)
  {
    EnvKeepsStage(w, w', name);
    SameRuntimesNoGrowth(w, w', name, [], true);
  }

  lemma SteppedCreating(w: World, w': World, name: string, failed: bool)
    requires name !in w.mappings
    requires (failed && EnvOnly(w, w')) || Created(w, w', name)
    ensures Stepped(w, w', name, NOTHING, failed)
  {
    hide Honest;
    hide NOTHING;
    NothingDone([], name);
    if EnvOnly(w, w') && failed {
      SteppedInPlace(w, w', name);
    } else {
      SameRuntimesNoGrowth(w, w', name, [], failed);
      assert w'.StageAt(name) == Fresh;
    }
  }

  /** Where a status write leads. */
  ghost predicate Leads(w: World, name: string, status: MappingStatus, calls: seq<Call>, failed: bool) {
    && name in w.mappings && w.mappings[name].name == name && CallsFit(w.enabled, w.StageAt(name), calls)
    && var s' := StageOf(w.mappings[name].(status := status));
    s' == Advance(w.enabled, w.StageAt(name)) || (failed && s' == Setback(w.enabled, w.StageAt(name)))
  }

  lemma LeadsAnyway(w: World, name: string, status: MappingStatus, calls: seq<Call>, failed: bool)
    requires Leads(w, name, status, calls, false)
    ensures Leads(w, name, status, calls, failed)
  {}

  /** Only a Configure call leads to Ready. */
  lemma NotReadyYet(w: World, w': World, name: string, did: Effects, failed: bool)
    requires Stepped(w, w', name, did, failed) && (did.Calls() == [] || did.Calls() == [RegisterCall])
    ensures !failed ==> w'.StageAt(name) != Ready
  {}

  lemma ConfiguredIsReady(w: World, w': World, name: string, did: Effects)
    requires Stepped(w, w', name, did, false) && w.StageAt(name) == Stage.Registered
    ensures w'.StageAt(name) == Ready
  {}

  /** Without a registration call in the log a reconciliation creates no runtime; so it is from every stage but
      Pending. */
  lemma OnlyPendingCreates(w: World, w': World, name: string, did: Effects, failed: bool)
    requires Stepped(w, w', name, did, failed) && w.StageAt(name) != Pending
    ensures w'.runtimes.Keys == w.runtimes.Keys && forall a :: a in did.deeds ==> !Registers(a)
  {
    NothingCreated(did.deeds);
  }

  lemma SavedStage(w: World, w': World, name: string, status: MappingStatus)
    requires StatusSaved(w, w', name, status) && w.mappings[name].name == name
    ensures SameConstants(w, w') && w'.StageAt(name) == StageOf(w.mappings[name].(status := status))
  {}

  /** A status write, after the given steps. */
  lemma SteppedWriting(w: World, w': World, name: string, status: MappingStatus, deeds: seq<Action>, failed: bool)
    requires Leads(w, name, status, CallsOf(deeds), failed)
    requires RegisterCall !in CallsOf(deeds)
    requires Named(deeds, name) && forall a :: a in deeds ==> !Registers(a)
    requires (failed && EnvOnly(w, w') && Guarded(w, name)) || StatusSaved(w, w', name, status)
    ensures Stepped(w, w', name, Effects(deeds, {}, None), failed)
  {
    hide SameConstants;
    SameRuntimesNoGrowth(w, w', name, deeds, failed);
    HonestWithoutRegistration(deeds, name);
    if StatusSaved(w, w', name, status) {
      SavedStage(w, w', name, status);
    } else {
      EnvKeepsStage(w, w', name);
    }
  }

  // ----- Status arithmetic -----

  /** What the bit tests of Reconcile tell about the stage. */
  lemma BitsTellStage(m: Mapping)
    requires StageOf(m) != Broken
    ensures Decode(m.status) == EMPTY <==> StageOf(m) == Fresh
    ensures Decode(m.status) & FAILED != 0 <==> StageOf(m) in {Stage.Failed, ConfigFailed}
    ensures Decode(m.status) & (REGISTERED | PROCESSING) == REGISTERED | PROCESSING <==> StageOf(m) == Stage.Registered
    ensures StageOf(m) == Stage.Failed ==> (Decode(m.status) & !FAILED) | PROCESSING == PROCESSING
    ensures StageOf(m) == ConfigFailed ==> (Decode(m.status) & !FAILED) | PROCESSING == REGISTERED | PROCESSING
  {}

  lemma WrittenStatuses()
    ensures Encode(PROCESSING) == MappingStatus(false, false, ProcessingState)
    ensures Encode(FAILED) == MappingStatus(false, false, FailedState)
    ensures Encode(REGISTERED | PROCESSING) == MappingStatus(true, false, ProcessingState)
    ensures Encode(REGISTERED | FAILED) == MappingStatus(true, false, FailedState)
    ensures Encode(REGISTERED | CONFIGURED) == MappingStatus(true, true, ReadyState)
  {}

  /** The labels under which createCompassRuntimeLabels describes the Kyma to the Director. */
  method CreateCompassRuntimeLabels(kyma: Labels) returns (labels: RuntimeLabels)
    ensures Describes(labels, kyma)
    ensures labels.Keys == {ConnectionManagedBy, BrokerInstanceId, GardenerClusterName, GlobalSubaccountId,
                            GlobalAccountId, BrokerPlanId, BrokerPlanName}
    ensures labels[GlobalAccountId] == Lookup(kyma, GlobalAccount)
            && labels[GlobalSubaccountId] == Lookup(kyma, Subaccount)
    ensures labels[BrokerInstanceId] == Lookup(kyma, InstanceId)
            && labels[GardenerClusterName] == Lookup(kyma, ShootName)
    ensures labels[BrokerPlanId] == Lookup(kyma, PlanId) && labels[BrokerPlanName] == Lookup(kyma, PlanName)
    ensures labels[ConnectionManagedBy] == "compass-manager"
  {
    labels := map[];
    labels := labels[ConnectionManagedBy := MANAGED_BY];
    labels := labels[BrokerInstanceId := Lookup(kyma, InstanceId)];
    labels := labels[GardenerClusterName := Lookup(kyma, ShootName)];
    labels := labels[GlobalSubaccountId := Lookup(kyma, Subaccount)];
    labels := labels[GlobalAccountId := Lookup(kyma, GlobalAccount)];
    labels := labels[BrokerPlanId := Lookup(kyma, PlanId)];
    labels := labels[BrokerPlanName := Lookup(kyma, PlanName)];
  }

  class CompassManagerReconciler {
    const outside: Outside
    const cluster: ControlPlaneInterface
    const client: DirectorClient
    const registrator: CompassRegistrator
    const configurator: RuntimeAgentConfigurator
    const dryRunner: DryRunner
    const enabledRegistration: bool
    const dryRun: bool
    const requeueTime: nat
    const requeueTimeForKubeconfig: nat

    ghost predicate Wired() {
      && cluster.outside == outside && client.outside == outside && dryRunner.outside == outside
      && registrator.client == client && configurator.client == client
      && configurator.connectorUrlPattern == outside.init.pattern
      && enabledRegistration == outside.init.enabled
      && dryRun == outside.init.dry && cluster.dry == outside.init.dry
    }

    ghost predicate Valid()
      reads outside, client, client.oauth
    {
      Wired() && client.Valid()
    }

    constructor (outside: Outside, client: DirectorClient, pattern: string, enabled: bool, dryRun: bool,
            requeueTime: nat, requeueTimeForKubeconfig: nat)
      requires client.Valid() && client.outside == outside
      requires pattern == outside.init.pattern && enabled == outside.init.enabled && dryRun == outside.init.dry
      ensures Valid() && this.outside == outside && this.client == client
    {
      this.outside, this.client := outside, client;
      cluster := new ControlPlaneInterface(outside, dryRun);
      registrator := new CompassRegistrator(client);
      configurator := new RuntimeAgentConfigurator(client, pattern);
      dryRunner := new DryRunner(outside);
      enabledRegistration, this.dryRun := enabled, dryRun;
      this.requeueTime, this.requeueTimeForKubeconfig := requeueTime, requeueTimeForKubeconfig;
    }

    /** A reconciliation fails only because of failed calls, or because the Kyma has gone meanwhile. */
    ghost predicate Accounted(before: nat, failed: bool)
      reads outside
    {
      before <= outside.faults && (failed ==> before < outside.faults || outside.focus !in outside.world.kymas)
    }

    lemma SteadyKymaStays()
      requires outside.Valid()
      ensures outside.focus in outside.base.steady && outside.focus in outside.base.kymas ==>
              outside.focus in outside.world.kymas
    {}

    method MakeNewCompassMappingAndRequeue(name: string) returns (outcome: Outcome)
      requires Valid() && name == outside.focus && name !in outside.world.mappings
      modifies outside`world, outside`log, outside`faults
      ensures Valid() && old(outside.log) <= outside.log
      ensures Stepped(old(outside.world), outside.world, name, NOTHING, outcome.err != None)
      ensures Accounted(old(outside.faults), outcome.err != None)
      ensures outcome == if outcome.err == None then Outcome(After(requeueTime), None)
              else Outcome(Immediately, outcome.err)
      ensures outcome.err == None ==> outside.world.StageAt(name) == Fresh
    {
      hide Recorded;
      hide EnvOnly;
      hide Created;
      var err := cluster.CreateCompassMapping(name);
      SteppedCreating(old(outside.world), outside.world, name, err != None);
      SteadyKymaStays();
      if err != None {
        return Outcome(Immediately, err);
      }
      return Outcome(After(requeueTime), None);
    }

    method SetStatusAndRequeue(name: string, status: Status) returns (outcome: Outcome)
      requires Valid() && name == outside.focus && Guarded(outside.world, name)
      requires Leads(outside.world, name, Encode(status), [], false)
      requires Enabled(outside.world, UpdateStatus(name, Encode(status)))
      modifies outside`world, outside`log, outside`faults
      ensures Valid() && old(outside.log) <= outside.log
      ensures Stepped(old(outside.world), outside.world, name, NOTHING, outcome.err != None)
      ensures Accounted(old(outside.faults), outcome.err != None)
      ensures outcome == if outcome.err == None then Outcome(After(requeueTime), None)
              else Outcome(Immediately, outcome.err)
      ensures outcome.Done() <==> outcome.err == None && outside.world.StageAt(name) == Ready
    {
      hide Recorded;
      hide EnvOnly;
      hide StatusSaved;
      hide Enabled;
      hide Leads;
      hide Stepped;
      var err := cluster.SetCompassMappingStatus(name, status);
      LeadsAnyway(old(outside.world), name, Encode(status), [], err != None);
      SteppedWriting(old(outside.world), outside.world, name, Encode(status), [], err != None);
      NotReadyYet(old(outside.world), outside.world, name, NOTHING, err != None);
      if err != None {
        return Outcome(Immediately, err);
      }
      return Outcome(After(requeueTime), None);
    }

    /** The call of the Registrator: of the real one, or of the dry run's. */
    method Register(name: string, kyma: Labels) returns (id: string, err: Option<Error>, ghost did: Effects)
      requires Valid() && name == outside.focus && outside.world.enabled
      requires name in outside.world.profile && kyma == outside.world.profile[name]
      requires outside.world.StageAt(name) == Pending
      modifies client`token, client`sent, client.oauth, outside`world, outside`log, outside`deeds, outside`faults
      ensures Valid() && old(outside.log) <= outside.log
      ensures outside.deeds == old(outside.deeds) + did.deeds
      ensures did.Calls() == [RegisterCall] && FewAndFresh(old(outside.world), did) && Honest(did, name)
      ensures did.registered == if err == None && !dryRun then Some(id) else None
      ensures err == None ==> id != ""
      ensures dryRun ==> did.lost == {}
      ensures !dryRun ==> (err != None <==> RegistrationFailed(did.deeds))
      ensures !ConfigureFailed(did.deeds) && forall kubeconfig :: Through(did.deeds, kubeconfig)
      ensures outside.world == AfterRegistration(old(outside.world), name, old(outside.world).Account(name), did.lost,
              did.registered)
      ensures old(outside.faults) <= outside.faults && (err != None ==> old(outside.faults) < outside.faults)
    {
      hide Recorded;
      hide DirectorClient.TokensOk;
      hide RegisterDeeds;
      hide AfterRegistration;
      hide FewAndFresh;
      hide Honest;
      outside.Constants();
      ghost var w := outside.world;
      var labels := CreateCompassRuntimeLabels(kyma);
      var failure;
      if dryRun {
        CallIsEnabledInDryRun(w, name, labels);
        did := Effects([CallRegister(name, w.Account(name), labels)], {}, None);
        id, failure := dryRunner.RegisterInCompass(name, labels);
        DryRegistration(w, name, labels);
        return id, None, did;
      }
      ghost var ds, replies;
      id, failure, ds, replies := registrator.RegisterInCompass(name, labels);
      did := EffectsOf(name, w.Account(name), labels, ds);
      RegistrationIsFew(w, name, w.Account(name), labels, ds, failure == None, id);
      RegistrationIsHonest(name, w.Account(name), labels, ds);
      forall kubeconfig ensures Through(did.deeds, kubeconfig) {
        RegistrationTells(name, w.Account(name), labels, ds, kubeconfig);
      }
      RegistrationTells(name, w.Account(name), labels, ds, "");
      err := if failure == None then None else Some(OtherError);
    }

    lemma DryHasNoRuntimes()
      requires outside.Valid()
      ensures outside.world.dry ==> outside.world.runtimes == map[]
    {
      outside.Sound();
    }

    method RegisterRuntimeInCompassAndRequeue(name: string, kyma: Labels) returns (outcome: Outcome, ghost did: Effects)
      requires Valid() && name == outside.focus && RegistrationReady(outside.world, name)
      requires kyma == outside.world.profile[name]
      modifies client`token, client`sent, client.oauth, outside`world, outside`log, outside`deeds, outside`faults
      ensures Valid() && old(outside.log) <= outside.log
      ensures outside.deeds == old(outside.deeds) + did.deeds
      ensures Stepped(old(outside.world), outside.world, name, did, outcome.err != None)
      ensures Accounted(old(outside.faults), outcome.err != None)
      ensures Noted(outside.world, name, did.deeds, outside.log, |old(outside.log)|)
      ensures forall kubeconfig :: Through(did.deeds, kubeconfig)
      ensures outcome == if outcome.err == None then Outcome(After(requeueTime), None)
              else Outcome(Immediately, outcome.err)
      ensures outcome.Done() <==> outcome.err == None && outside.world.StageAt(name) == Ready
    {
      hide Isolated;
      hide Recorded;
      hide DirectorClient.TokensOk;
      hide EnvOnly;
      hide StatusSaved;
      hide IdSaved;
      hide Stepped;
      hide Enabled;
      hide AttachAllowed;
      hide AfterRegistration;
      hide FewAndFresh;
      hide RegisteredAs;
      hide RegistrationFailed;
      hide ConfigureFailed;
      hide Through;
      hide FailsIn;
      ghost var w := outside.world;
      outside.Constants();
      DryHasNoRuntimes();
      var id, regError;
      id, regError, did := Register(name, kyma);
      ghost var w1, registered := outside.world, outside.log;
      AfterRegistering(w, name, did);
      if regError != None {
        var statErr := cluster.SetCompassMappingStatus(name, FAILED);
        SteppedUnregistered(w, w1, outside.world, name, did);
        FailureIsNoted(w1, outside.world, name, statErr, did.deeds, outside.log, |registered|, |old(outside.log)|);
        if statErr != None {
          return Outcome(Immediately, statErr), did;
        }
        return Outcome(Immediately, regError), did;
      }
      MayAttach(w, name, id, did);
      var err := cluster.UpsertCompassMapping(name, id);
      SteppedRegistered(w, w1, outside.world, name, id, did, err != None);
      NotReadyYet(w, outside.world, name, did, err != None);
      outside.Constants();
      SuccessIsNoted(outside.world, name, did.deeds, outside.log, |old(outside.log)|);
      if err != None {
        return Outcome(Immediately, err), did;
      }
      return Outcome(After(requeueTime), None), did;
    }

    /** The call of the Configurator: of the real one, or of the dry run's. */
    method Configure(name: string, kubeconfig: string, id: string, account: string)
      returns (err: Option<Error>, ghost fetched: Option<OneTimeToken>, ghost written: bool)
      requires Valid() && name == outside.focus && ConfigureDue(outside.world, name, id, account)
      requires Offers(outside.world, name, kubeconfig)
      modifies client`token, client`sent, client.oauth, outside`world, outside`log, outside`deeds, outside`faults
      ensures Valid() && old(outside.log) <= outside.log
      ensures Configured(old(outside.world), outside.world, name, kubeconfig, id, account, err == None, fetched,
              written)
      ensures outside.deeds ==
              old(outside.deeds) + ConfigureDeeds(name, kubeconfig, id, account, err == None, fetched, written)
      ensures err == None && !dryRun ==> written
      ensures old(outside.faults) <= outside.faults && (err != None ==> old(outside.faults) < outside.faults)
    {
      hide Recorded;
      hide DirectorClient.TokensOk;
      outside.Constants();
      if dryRun {
        err := dryRunner.ConfigureCompassRuntimeAgent(name, kubeconfig, id, account);
        return err, None, false;
      }
      err, fetched, written := configurator.ConfigureCompassRuntimeAgent(name, kubeconfig, id, account);
    }

    /** Success leads to Ready, and asks for no further run. Exactly one Configure call is made. */
    method ConfigureRuntimeAndSetMappingStatus(name: string, kubeconfig: string, id: string, account: string)
      returns (outcome: Outcome, ghost did: Effects)
      requires Valid() && name == outside.focus && ConfigureReady(outside.world, name, id, account)
      requires Offers(outside.world, name, kubeconfig)
      modifies client`token, client`sent, client.oauth, outside`world, outside`log, outside`deeds, outside`faults
      ensures Valid() && old(outside.log) <= outside.log
      ensures outside.deeds == old(outside.deeds) + did.deeds
      ensures Stepped(old(outside.world), outside.world, name, did, outcome.err != None)
      ensures did.Calls() == [ConfigureCallOf(id, account)] && did.lost == {} && did.registered == None
      ensures Accounted(old(outside.faults), outcome.err != None)
      ensures Through(did.deeds, kubeconfig)
      ensures Noted(outside.world, name, did.deeds, outside.log, |old(outside.log)|)
      ensures outcome == if outcome.err == None then Outcome(Never, None) else Outcome(Immediately, outcome.err)
      ensures outcome.Done() <==> outcome.err == None && outside.world.StageAt(name) == Ready
    {
      hide Recorded;
      hide DirectorClient.TokensOk;
      hide EnvOnly;
      hide StatusSaved;
      hide Enabled;
      hide Configured;
      hide ConfigureReady;
      hide ConfigureDue;
      hide ConfigureDeeds;
      hide CallsOf;
      hide Registers;
      hide Leads;
      hide Stepped;
      hide SameForStage;
      hide Isolated;
      hide Offers;
      hide RegistrationFailed;
      hide ConfigureFailed;
      hide Through;
      hide FailsIn;
      ghost var w := outside.world;
      ConfigureIsDue(w, name, id, account);
      var cfgError;
      ghost var fetched, written;
      cfgError, fetched, written := Configure(name, kubeconfig, id, account);
      ghost var w1, configured := outside.world, outside.log;
      did := Effects(ConfigureDeeds(name, kubeconfig, id, account, cfgError == None, fetched, written), {}, None);
      ConfigureDeedsAreOneCall(name, kubeconfig, id, account, cfgError == None, fetched, written);
      ConfigurationTells(name, kubeconfig, id, account, cfgError == None, fetched, written);
      AfterConfiguring(w, w1, name, kubeconfig, id, account, cfgError == None, fetched, written);
      if cfgError != None {
        var statErr := cluster.SetCompassMappingStatus(name, REGISTERED | FAILED);
        SteppedWriting(w1, outside.world, name, Encode(REGISTERED | FAILED), did.deeds, true);
        SteppedAfterSame(w, w1, outside.world, name, did, true);
        ConfigFailureIsNoted(w, w1, outside.world, name, id, account, statErr, did.deeds, outside.log, |configured|,
          |old(outside.log)|);
        if statErr != None {
          return Outcome(Immediately, statErr), did;
        }
        return Outcome(Immediately, cfgError), did;
      }
      var statErr := cluster.SetCompassMappingStatus(name, REGISTERED | CONFIGURED);
      LeadsAnyway(w1, name, Encode(REGISTERED | CONFIGURED), did.Calls(), statErr != None);
      SteppedWriting(w1, outside.world, name, Encode(REGISTERED | CONFIGURED), did.deeds, statErr != None);
      SteppedAfterSame(w, w1, outside.world, name, did, statErr != None);
      if statErr != None {
        return Outcome(Immediately, statErr), did;
      }
      ConfiguredIsReady(w, outside.world, name, did);
      return Outcome(Never, None), did;
    }

    // ----- Deletion -----

    /** The call of the Registrator: of the real one, or of the dry run's. */
    method Deregister(name: string, id: string, account: string)
      returns (err: Option<Error>, ghost deeds: seq<Action>, ghost deleted: bool)
      requires Valid() && name == outside.focus && DeregistrationDue(outside.world, name, id, account)
      modifies client`token, client`sent, client.oauth, outside`world, outside`log, outside`deeds, outside`faults
      ensures Valid() && old(outside.log) <= outside.log
      ensures outside.deeds == old(outside.deeds) + deeds
      ensures deeds == if dryRun then [] else DeregisterDeeds(name, id, account, deleted, err == None)
      ensures old(outside.faults) <= outside.faults && (err != None ==> old(outside.faults) < outside.faults)
      ensures KeepsLedger(old(outside.world), outside.world, name)
              && outside.world.mappings == old(outside.world).mappings
      ensures err == None ==> Releasable(outside.world, name)
      ensures err in {None, Some(DirectorError)} && (err != None <==> DeregistrationFailed(deeds))
    {
      hide Recorded;
      hide DirectorClient.TokensOk;
      hide DeregisterDeeds;
      outside.Constants();
      if dryRun {
        var never := dryRunner.DeregisterFromCompass();
        return None, [], false;
      }
      ghost var w := outside.world;
      OwnRuntime(outside, name, id, account);
      outside.Sound();
      var failure;
      ghost var gone, replies;
      failure, gone, deleted, replies := registrator.DeregisterFromCompass(name, id, account);
      DeregistrationEffect(w, name, id, account, gone, failure == None);
      err := if failure == None then None else Some(DirectorError);
      deeds := DeregisterDeeds(name, id, account, deleted, failure == None);
      DeregistrationTells(name, id, account, deleted, failure == None);
    }

    /** The part of handleKymaDeletion before the mapping is deleted. */
    method DeregisterIfRegistered(name: string, mapping: Mapping) returns (err: Option<Error>, ghost did: Effects)
      requires Valid() && name == outside.focus && name !in outside.world.kymas
      requires name in outside.world.mappings && mapping == outside.world.mappings[name]
      modifies client`token, client`sent, client.oauth, outside`world, outside`log, outside`deeds, outside`faults
      ensures Valid() && old(outside.log) <= outside.log && old(outside.faults) <= outside.faults
      ensures outside.deeds == old(outside.deeds) + did.deeds
      ensures did.lost == {} && did.registered == None && Honest(did, name)
              && KeepsLedger(old(outside.world), outside.world, name)
      ensures outside.world.mappings == old(outside.world).mappings
      ensures err != None ==> old(outside.faults) < outside.faults || mapping.labels.globalAccount == None
      ensures err == Some(DirectorError) <==> DeregistrationFailed(did.deeds)
      ensures err == None ==> Releasable(outside.world, name)
    {
      hide Recorded;
      hide DirectorClient.TokensOk;
      hide Honest;
      NothingDone(outside.deeds, name);
      did := NOTHING;
      var id := mapping.labels.compassId.GetOr("");
      if id == "" {
        return None, did;
      }
      if mapping.labels.globalAccount == None {
        return Some(OtherError), did;
      }
      var account := mapping.labels.globalAccount.value;
      ghost var deeds, deleted;
      err, deeds, deleted := Deregister(name, id, account);
      DeregisterDeedsAreHonest(name, id, account, deleted, err == None, deeds);
      did := Effects(deeds, {}, None);
    }

    lemma HasAccount(name: string)
      requires outside.Valid() && name in outside.world.mappings
      ensures outside.world.mappings[name].labels.globalAccount.Some?
    {
      outside.Sound();
      var w := outside.world;
      assert MappingOk(w.mappings[name], name, w.profile[name], w.enabled, w.dry, name in w.kymas);
    }

    /** Success means that the mapping is gone or only waits for the finalizers of others; its runtime, if
        it had one, was deregistered before it lost its protection. Only a failed call stands in the way of
        success, or a mapping that disappears in the meantime. */
    method HandleKymaDeletion(name: string) returns (err: Option<Error>, ghost did: Effects)
      requires Valid() && name == outside.focus
      requires name in outside.world.mappings ==> name !in outside.world.kymas
      modifies client`token, client`sent, client.oauth, outside`world, outside`log, outside`deeds, outside`faults
      ensures Valid() && old(outside.log) <= outside.log && old(outside.faults) <= outside.faults
      ensures outside.deeds == old(outside.deeds) + did.deeds
      ensures did.lost == {} && did.registered == None && Honest(did, name)
              && LedgerGrows(old(outside.world), outside.world, name, did, err != None)
      ensures err == Some(DirectorError) <==> DeregistrationFailed(did.deeds)
      ensures err == None ==> Dismissed(outside.world, name)
      ensures err != None ==> old(outside.faults) < outside.faults || Vanished(old(outside.world), outside.world, name)
    {
      hide Recorded;
      hide DirectorClient.TokensOk;
      hide EnvOnly;
      hide KeepsLedger;
      hide LedgerGrows;
      hide Honest;
      hide Dismissed;
      hide Releasable;
      hide Retiring;
      hide Isolated;
      hide NOTHING;
      NothingDone(outside.deeds, name);
      did := NOTHING;
      ghost var w := outside.world;
      var mapping;
      mapping, err := cluster.GetCompassMapping(name);
      ghost var w1 := outside.world;
      StillGone(w, w1, name);
      KeptLedger(w, w1, name, did, err != None && err != Some(Platform.NotFound));
      if err == Some(Platform.NotFound) {
        NothingToDismiss(w1, name);
        return None, did;
      }
      if err != None {
        return;
      }
      HasAccount(name);
      err, did := DeregisterIfRegistered(name, mapping);
      KeepsLedgerTransitive(w, w1, outside.world, name);
      if err != None {
        KeptLedger(w, outside.world, name, did, true);
        return;
      }
      ghost var w2 := outside.world;
      err := cluster.DeleteCompassMapping(name);
      RetiringKeepsLedger(w2, outside.world, name);
      KeepsLedgerTransitive(w, w2, outside.world, name);
      KeptLedger(w, outside.world, name, did, err != None);
    }

    // ----- Reconcile -----

    lemma IsTended(name: string)
      requires outside.Valid() && name in outside.world.mappings && Guarded(outside.world, name)
      ensures Tended(outside.world, name)
    {
      outside.Sound();
      var w := outside.world;
      assert MappingOk(w.mappings[name], name, w.profile[name], w.enabled, w.dry, name in w.kymas);
    }

    /** The part of Reconcile that follows the status of a mapping which was just read. */
    method FollowStatus(name: string, kyma: Labels, kubeconfig: string, id: string, account: string, status: Status)
      returns (outcome: Outcome, ghost did: Effects)
      requires Valid() && name == outside.focus && Tended(outside.world, name)
      requires id == outside.world.mappings[name].Id() && status == Decode(outside.world.mappings[name].status)
      requires kyma == outside.world.profile[name] && account == outside.world.Account(name)
      requires Offers(outside.world, name, kubeconfig)
      modifies client`token, client`sent, client.oauth, outside`world, outside`log, outside`deeds, outside`faults
      ensures Valid() && old(outside.log) <= outside.log
      ensures outside.deeds == old(outside.deeds) + did.deeds
      ensures Stepped(old(outside.world), outside.world, name, did, outcome.err != None)
      ensures Accounted(old(outside.faults), outcome.err != None)
      ensures outcome.err == None ==>
                outcome.requeue == if outside.world.StageAt(name) == Ready then Never else After(requeueTime)
      ensures Through(did.deeds, kubeconfig)
      ensures Noted(outside.world, name, did.deeds, outside.log, |old(outside.log)|)
    {
      hide Recorded;
      hide DirectorClient.TokensOk;
      hide Enabled;
      hide Leads;
      hide Stepped;
      hide NOTHING;
      hide Noted;
      hide Through;
      hide Offers;
      NothingDone(outside.deeds, name);
      did := NOTHING;
      ghost var start := outside.log;
      ghost var w := outside.world;
      outside.Constants();
      BitsTellStage(w.mappings[name]);
      if status == EMPTY {
        MayFollow(w, name, PROCESSING);
        outcome := SetStatusAndRequeue(name, PROCESSING);
        NothingNoted(outside.world, name, outside.log, |start|, kubeconfig);
        return;
      }
      if status & FAILED != 0 {
        var cleared := status & !FAILED;
        MayFollow(w, name, cleared | PROCESSING);
        outcome := SetStatusAndRequeue(name, cleared | PROCESSING);
        NothingNoted(outside.world, name, outside.log, |start|, kubeconfig);
        return;
      }
      if |id| == 0 && enabledRegistration {
        outcome, did := RegisterRuntimeInCompassAndRequeue(name, kyma);
        return;
      }
      if status & (REGISTERED | PROCESSING) != REGISTERED | PROCESSING {
        MayFollow(w, name, REGISTERED | PROCESSING);
        outcome := SetStatusAndRequeue(name, REGISTERED | PROCESSING);
        NothingNoted(outside.world, name, outside.log, |start|, kubeconfig);
        return;
      }
      outcome, did := ConfigureRuntimeAndSetMappingStatus(name, kubeconfig, id, account);
    }

    lemma TendedThen(w: World, name: string)
      requires outside.Valid() && EnvOnly(w, outside.world) && Guarded(w, name) && name in outside.world.mappings
      ensures Tended(outside.world, name) && name in w.mappings
              && w.mappings[name].Id() == outside.world.mappings[name].Id()
    {
      EnvKeepsStage(w, outside.world, name);
      IsTended(name);
    }

    /** The part of Reconcile for a mapping that exists. `id` is from an earlier read, the status from
        this one. */
    method ReconcileExisting(name: string, kyma: Labels, kubeconfig: string, id: string, account: string)
      returns (outcome: Outcome, ghost did: Effects)
      requires Valid() && name == outside.focus && Guarded(outside.world, name)
      requires name in outside.world.mappings && id == outside.world.mappings[name].Id()
      requires name in outside.world.profile && kyma == outside.world.profile[name]
      requires account == outside.world.Account(name)
      requires Offers(outside.world, name, kubeconfig)
      modifies client`token, client`sent, client.oauth, outside`world, outside`log, outside`deeds, outside`faults
      ensures Valid() && old(outside.log) <= outside.log
      ensures outside.deeds == old(outside.deeds) + did.deeds
      ensures Stepped(old(outside.world), outside.world, name, did, outcome.err != None)
      ensures Accounted(old(outside.faults), outcome.err != None)
      ensures outcome.err == None ==>
                outcome.requeue == if outside.world.StageAt(name) == Ready then Never else After(requeueTime)
      ensures Through(did.deeds, kubeconfig)
      ensures Noted(outside.world, name, did.deeds, outside.log, |old(outside.log)|)
    {
      hide Recorded;
      hide DirectorClient.TokensOk;
      hide EnvOnly;
      hide Stepped;
      hide Tended;
      hide NOTHING;
      hide Noted;
      hide Through;
      hide Offers;
      NothingDone(outside.deeds, name);
      ghost var w := outside.world;
      var mapping, err := cluster.GetCompassMapping(name);
      EnvKeepsStage(w, outside.world, name);
      SteppedInPlace(w, outside.world, name);
      OffersLater(w, outside.world, name, kubeconfig);
      ghost var read := outside.log;
      if err != None {
        NothingNoted(outside.world, name, outside.log, |old(outside.log)|, kubeconfig);
        return Outcome(Never, err), NOTHING;
      }
      TendedThen(w, name);
      ghost var w1 := outside.world;
      var status := Number(mapping.status);
      outcome, did := FollowStatus(name, kyma, kubeconfig, id, account, status);
      NotedSince(outside.world, name, did.deeds, outside.log, |read|, |old(outside.log)|);
      SteppedLater(w, w1, outside.world, name, did, outcome.err != None);
    }

    /** The part of Reconcile after the kubeconfig. `halted` tells that no phase was completed. Without a global
        account the key is done without a call outside the control plane, and no error tells of it. */
    method ReconcileMapping(name: string, kyma: Labels, kubeconfig: string)
      returns (outcome: Outcome, ghost did: Effects, ghost halted: bool)
      requires Valid() && name == outside.focus && Guarded(outside.world, name)
      requires name in outside.world.profile && kyma == outside.world.profile[name]
      requires Offers(outside.world, name, kubeconfig)
      modifies client`token, client`sent, client.oauth, outside`world, outside`log, outside`deeds, outside`faults
      ensures Valid() && old(outside.log) <= outside.log && old(outside.faults) <= outside.faults
      ensures outside.deeds == old(outside.deeds) + did.deeds
      ensures Stepped(old(outside.world), outside.world, name, did, halted)
      ensures if GlobalAccount in kyma then halted <==> outcome.err != None else halted
      ensures GlobalAccount in kyma ==> Accounted(old(outside.faults), halted)
      ensures GlobalAccount in kyma && outcome.err == None ==>
                outcome.requeue == if outside.world.StageAt(name) == Ready then Never else After(requeueTime)
      ensures GlobalAccount !in kyma ==> did == NOTHING && EnvOnly(old(outside.world), outside.world)
      ensures GlobalAccount !in kyma ==>
                outcome.requeue == Never && (outcome.err == None <==> outside.faults == old(outside.faults))
      ensures Through(did.deeds, kubeconfig)
      ensures Noted(outside.world, name, did.deeds, outside.log, |old(outside.log)|)
    {
      hide Recorded;
      hide DirectorClient.TokensOk;
      hide EnvOnly;
      hide Stepped;
      hide NOTHING;
      hide Noted;
      hide Through;
      hide Offers;
      NothingDone(outside.deeds, name);
      did, halted := NOTHING, true;
      ghost var w := outside.world;
      var id, idErr := cluster.GetCompassRuntimeID(name);
      ghost var w1 := outside.world;
      EnvKeepsStage(w, w1, name);
      SteppedInPlace(w, w1, name);
      OffersLater(w, w1, name, kubeconfig);
      NothingNoted(w1, name, outside.log, |old(outside.log)|, kubeconfig);
      ghost var read := outside.log;
      if idErr != None && idErr != Some(Platform.NotFound) {
        return Outcome(Never, idErr), did, true;
      }
      if GlobalAccount !in kyma {
        // The error that is wrapped here is nil, so the key is simply done.
        return Outcome(Never, None), did, true;
      }
      var account := kyma[GlobalAccount];
      if idErr == Some(Platform.NotFound) {
        outcome := MakeNewCompassMappingAndRequeue(name);
        NothingNoted(outside.world, name, outside.log, |read|, kubeconfig);
      } else {
        outcome, did := ReconcileExisting(name, kyma, kubeconfig, id, account);
      }
      halted := outcome.err != None;
      NotedSince(outside.world, name, did.deeds, outside.log, |read|, |old(outside.log)|);
      SteppedLater(w, w1, outside.world, name, did, halted);
    }

    /** The part of Reconcile for a Kyma that exists. `read` is the kubeconfig, unless it could not be read. */
    method ReconcileKyma(name: string, kyma: Labels)
      returns (outcome: Outcome, ghost did: Effects, ghost halted: bool, ghost read: Option<string>)
      requires Valid() && name == outside.focus && Guarded(outside.world, name)
      requires name in outside.world.profile && kyma == outside.world.profile[name]
      modifies client`token, client`sent, client.oauth, outside`world, outside`log, outside`deeds, outside`faults
      ensures Valid() && old(outside.log) <= outside.log && old(outside.faults) <= outside.faults
      ensures outside.deeds == old(outside.deeds) + did.deeds
      ensures Stepped(old(outside.world), outside.world, name, did, halted)
      ensures outcome.err != None ==> halted && Accounted(old(outside.faults), true)
      ensures read == None ==> FailsIn(outside.log, |old(outside.log)|, {SecretRead})
                               && old(outside.faults) < outside.faults
      ensures read.Some? ==> Had(outside.init, outside.log, |old(outside.log)|, name, read.value)
      ensures read.Some? && Lasting(outside.base, name) ==> read.value != ""
      ensures Through(did.deeds, read.GetOr(""))
      ensures Noted(outside.world, name, did.deeds, outside.log, |old(outside.log)|)
      ensures read.GetOr("") == "" ==>
                outcome == Outcome(After(requeueTimeForKubeconfig), None) && did == NOTHING && halted
      ensures read.GetOr("") != "" && outcome.err == None && GlobalAccount in kyma ==>
                && !halted
                && outcome.requeue == if outside.world.StageAt(name) == Ready then Never else After(requeueTime)
      ensures GlobalAccount !in kyma ==> halted && did == NOTHING && EnvOnly(old(outside.world), outside.world)
      ensures read.GetOr("") != "" && GlobalAccount !in kyma ==>
                outcome.requeue == Never && (outcome.err == None <==> outside.faults == old(outside.faults))
    {
      hide Reachable;
      hide Recorded;
      hide DirectorClient.TokensOk;
      hide EnvOnly;
      hide Stepped;
      hide NOTHING;
      hide Noted;
      hide Through;
      hide FailsIn;
      hide Had;
      hide Lasting;
      NothingDone(outside.deeds, name);
      ghost var w := outside.world;
      var kubeconfig, err := cluster.GetKubeconfig(name);
      ghost var w1, log1 := outside.world, outside.log;
      read := if err == Some(ApiError) then None else Some(kubeconfig);
      outside.Here();
      LastingKubeconfig(name);
      EnvKeepsStage(w, w1, name);
      SteppedInPlace(w, w1, name);
      HadNow(outside.init, log1, |old(outside.log)|, name);
      NothingNoted(w1, name, log1, |old(outside.log)|, "");
      if err == Some(Platform.NotFound) || |kubeconfig| == 0 {
        return Outcome(After(requeueTimeForKubeconfig), None), NOTHING, true, read;
      }
      // Every error came with no bytes, so there is none left to return here.
      assert err == None;
      outcome, did, halted := ReconcileMapping(name, kyma, kubeconfig);
      SteppedLater(w, w1, outside.world, name, did, halted);
      HadSince(outside.init, log1, |old(outside.log)|, name, kubeconfig, outside.log, |old(outside.log)|);
      NotedSince(outside.world, name, did.deeds, outside.log, |log1|, |old(outside.log)|);
      if GlobalAccount !in kyma {
        EnvOnlyTransitive(w, w1, outside.world);
      }
    }

    /** The same, since the reconciliation began at position `from` of the log. */
    method ReconcileFound(name: string, kyma: Labels, ghost from: nat)
      returns (outcome: Outcome, ghost did: Effects, ghost halted: bool)
      requires Valid() && name == outside.focus && name in outside.world.kymas && EnvOnly(outside.base, outside.world)
      requires name in outside.world.profile && kyma == outside.world.profile[name] && from <= |outside.log|
      modifies client`token, client`sent, client.oauth, outside`world, outside`log, outside`deeds, outside`faults
      ensures Valid() && old(outside.log) <= outside.log && old(outside.faults) <= outside.faults
      ensures outside.deeds == old(outside.deeds) + did.deeds
      ensures ReconciledAsFound(outside.base, outside.world, name, outcome, did, halted,
                old(outside.faults) < outside.faults)
      ensures Witnessed(outside.init, outside.log, from, outside.world, name, outcome, did.deeds, halted, requeueTime,
                requeueTimeForKubeconfig)
    {
      hide Recorded;
      hide DirectorClient.TokensOk;
      hide EnvOnly;
      hide Stepped;
      hide LedgerGrows;
      hide Isolated;
      hide Guarded;
      hide Honest;
      hide NOTHING;
      hide Noted;
      hide Through;
      hide FailsIn;
      hide Had;
      hide Witnessed;
      hide ReconciledAsFound;
      hide SteadyKyma;
      hide Lasting;
      hide MissesAccount;
      ghost var w, w1 := outside.base, outside.world;
      ghost var read;
      KymaGuards(name);
      SameProfile(name);
      outcome, did, halted, read := ReconcileKyma(name, kyma);
      SteppedThen(w, w1, outside.world, name, did, halted);
      SameProfile(name);
      AccountLabel(outside.world, name);
      if GlobalAccount !in kyma {
        EnvOnlyTransitive(w, w1, outside.world);
      }
      SteadyKymaStays();
      FoundByRead(w, outside.world, name, outcome, did, halted, old(outside.faults) < outside.faults,
        requeueTime, requeueTimeForKubeconfig, read);
      WitnessedByRead(outside.init, outside.log, |old(outside.log)|, from, outside.world, name, outcome, did.deeds,
        halted, requeueTime, requeueTimeForKubeconfig, read);
    }

    lemma LastingKubeconfig(name: string)
      requires outside.Valid() && name == outside.focus
      ensures Lasting(outside.base, name) ==> outside.world.Kubeconfig(name) != ""
      ensures outside.world.Kubeconfig(name) == KubeconfigOf(outside.world, name).GetOr(None).GetOr("")
    {}

    lemma SameProfile(name: string)
      requires outside.Valid()
      ensures outside.world.profile == outside.base.profile
    {}

    lemma KymaGuards(name: string)
      requires outside.Valid() && name in outside.world.kymas
      ensures Guarded(outside.world, name)
    {
      outside.Sound();
      var w := outside.world;
      assert name in w.mappings ==> MappingOk(w.mappings[name], name, w.profile[name], w.enabled, w.dry,
        name in w.kymas);
    }

    /** The part of Reconcile for a Kyma that does not exist. */
    method ReconcileDeleted(name: string) returns (outcome: Outcome, ghost did: Effects, ghost halted: bool)
      requires Valid() && name == outside.focus && name !in outside.world.kymas
      modifies client`token, client`sent, client.oauth, outside`world, outside`log, outside`deeds, outside`faults
      ensures Valid() && old(outside.log) <= outside.log && old(outside.faults) <= outside.faults
      ensures outside.deeds == old(outside.deeds) + did.deeds
      ensures LedgerGrows(old(outside.world), outside.world, name, did, halted) && Honest(did, name)
      ensures AnswersDeletion(outcome, did.deeds, halted, requeueTime)
      ensures halted ==> old(outside.faults) < outside.faults || Vanished(old(outside.world), outside.world, name)
      ensures outcome.Done() ==> Dismissed(outside.world, name)
    {
      hide Recorded;
      hide DirectorClient.TokensOk;
      var delErr;
      delErr, did := HandleKymaDeletion(name);
      halted := delErr != None;
      if delErr == Some(Platform.DirectorError) {
        return Outcome(After(requeueTime), None), did, halted;
      }
      if delErr != None {
        return Outcome(Never, delErr), did, halted;
      }
      return Outcome(Never, None), did, halted;
    }

    /** One reconciliation. `gone` tells what the read of the Kyma found, unless it failed: without a failed call the
        deletion is handled whenever the Kyma is absent throughout. */
    method Reconcile(name: string) returns (outcome: Outcome, ghost did: Effects, ghost halted: bool, ghost gone: bool)
      requires Valid()
      modifies client`token, client`sent, client.oauth
      modifies outside`world, outside`log, outside`deeds, outside`faults, outside`focus, outside`base
      ensures Valid() && old(outside.log) <= outside.log && old(outside.faults) <= outside.faults
      ensures outside.deeds == old(outside.deeds) + did.deeds
      ensures Isolated(old(outside.world), outside.world, name)
      ensures Reconciled(old(outside.world), outside.world, name, outcome, did, halted, gone,
                old(outside.faults) < outside.faults)
      ensures if gone then AnswersDeletion(outcome, did.deeds, halted, requeueTime)
              else Witnessed(outside.init, outside.log, |old(outside.log)|, outside.world, name, outcome, did.deeds,
                     halted, requeueTime, requeueTimeForKubeconfig)
      ensures if gone then WasGone(outside.init, outside.log, |old(outside.log)|, name)
              else || old(outside.faults) < outside.faults
                   || WasPresent(outside.init, outside.log, |old(outside.log)|, name)
    {
      hide Recorded;
      hide DirectorClient.TokensOk;
      hide EnvOnly;
      hide Stepped;
      hide LedgerGrows;
      hide Dismissed;
      hide Isolated;
      hide Guarded;
      hide SteadyKyma;
      hide Lasting;
      hide MissesAccount;
      hide Vanished;
      hide WasGone;
      hide WasPresent;
      hide Honest;
      hide NOTHING;
      hide Reconciled;
      hide ReconciledAsFound;
      hide Witnessed;
      hide AnswersDeletion;
      hide FailsIn;
      hide Protocol.After;
      hide Reachable;
      hide Deeds;
      hide Failures;
      hide Fated;
      NothingDone(outside.deeds, name);
      outside.Begin(name);
      ghost var w := outside.world;
      if name in w.kymas {
        KymaGuards(name);
      }
      var kyma, err := cluster.GetKyma(name);
      ghost var w1, seen := outside.world, outside.log;
      outside.Here();
      if err == Some(Platform.NotFound) {
        outcome, did, halted := ReconcileDeleted(name);
        DeletionIsAnswered(outcome, did.deeds, halted, requeueTime);
        ReconciledGone(w, w1, outside.world, name, outcome, did, halted, old(outside.faults) < outside.faults);
        SeenThen(outside.init, old(outside.log), seen, outside.log, name);
        return outcome, did, halted, true;
      }
      if err != None {
        ReconciledNot(w, w1, name, err);
        FailedRead(outside.init, outside.log, |old(outside.log)|, w1, name, err, requeueTime, requeueTimeForKubeconfig);
        return Outcome(Never, err), NOTHING, true, false;
      }
      outcome, did, halted := ReconcileFound(name, kyma, |old(outside.log)|);
      ReconciledFound(w, outside.world, name, outcome, did, halted, old(outside.faults) < outside.faults);
      SeenThen(outside.init, old(outside.log), seen, outside.log, name);
      gone := false;
    }
  }

  /** The answer after a deletion: none is needed after a success; a deregistration that the Director did not confirm
      is tried again after the interval, without an error; and every other failure is an error. */
  ghost predicate AnswersDeletion(outcome: Outcome, deeds: seq<Action>, halted: bool, requeueTime: nat) {
    if !halted then outcome == Outcome(Never, None) && !DeregistrationFailed(deeds)
    else if DeregistrationFailed(deeds) then outcome == Outcome(After(requeueTime), None)
    else outcome.requeue == Never && outcome.err != None
  }

  /** At some moment of the run since position `from` this was the data of the Kyma's first kubeconfig secret, or the
      empty string if there was none. */
  ghost predicate Had(init: World, log: seq<Action>, from: nat, name: string, kubeconfig: string) {
    exists i :: from <= i <= |log| && Protocol.After(init, log[..i]).Kubeconfig(name) == kubeconfig
  }

  lemma {:induction false} HadSince(init: World, log: seq<Action>, from: nat, name: string, kubeconfig: string,
          log': seq<Action>, from': nat)
    requires Had(init, log, from, name, kubeconfig) && log <= log' && from' <= from
    ensures Had(init, log', from', name, kubeconfig)
  {
    var i :| from <= i <= |log| && Protocol.After(init, log[..i]).Kubeconfig(name) == kubeconfig;
    assert log'[..i] == log[..i];
  }

  /** What a reconciliation of a Kyma that exists answers, and what the log tells of it. Only clusters whose kubeconfig
      the Kyma had meanwhile are configured, and failures are noted. After a complete phase the next run is asked for
      after the interval, or not at all for a Ready Kyma. An incomplete one without an error has no global account, or
      found no kubeconfig, and is tried again after the other interval; and that is so whenever there is none. */
  ghost predicate Witnessed(init: World, log: seq<Action>, from: nat, w: World, name: string, outcome: Outcome,
          deeds: seq<Action>, halted: bool, requeueTime: nat, requeueTimeForKubeconfig: nat)
  {
    && (forall a :: a in deeds && (a.WriteAgentSecret? || a.FinishConfigure?) ==>
          Had(init, log, from, name, a.kubeconfig))
    && Noted(w, name, deeds, log, from)
    && (outcome.err == None && !halted ==>
          outcome.requeue == if w.StageAt(name) == Ready then Never else After(requeueTime))
    && (outcome.err == None && halted ==>
          || (outcome.requeue == Never && MissesAccount(w, name))
          || (outcome.requeue == After(requeueTimeForKubeconfig) && LackedKubeconfig(init, log, from, name)))
    && ((forall kubeconfig :: Had(init, log, from, name, kubeconfig) ==> kubeconfig == "") ==>
          outcome == Outcome(After(requeueTimeForKubeconfig), None) || FailsIn(log, from, {KymaRead}))
  }

  lemma {:induction false} HadNow(init: World, log: seq<Action>, from: nat, name: string)
    requires from <= |log|
    ensures Had(init, log, from, name, Protocol.After(init, log).Kubeconfig(name))
  {
    assert log[..|log|] == log;
  }

  lemma AccountLabel(w: World, name: string)
    requires name in w.profile
    ensures MissesAccount(w, name) <==> GlobalAccount !in w.profile[name]
  {}

  lemma FoundByRead(w: World, w': World, name: string, outcome: Outcome, did: Effects, halted: bool, failed: bool,
          requeueTime: nat, requeueTimeForKubeconfig: nat, read: Option<string>)
    requires LedgerGrows(w, w', name, did, halted) && Honest(did, name)
    requires Guarded(w, name) ==> Stepped(w, w', name, did, halted)
    requires name in w.profile && w'.profile == w.profile
    requires outcome.err != None ==> halted && (failed || name !in w'.kymas)
    requires name in w.steady && name in w.kymas ==> name in w'.kymas
    requires (read == None ==> failed) && (read.Some? && Lasting(w, name) ==> read.value != "")
    requires read.GetOr("") == "" ==> outcome == Outcome(After(requeueTimeForKubeconfig), None) && halted
    requires read.GetOr("") != "" && outcome.err == None && !MissesAccount(w', name) ==>
               !halted && outcome.requeue == if w'.StageAt(name) == Ready then Never else After(requeueTime)
    requires MissesAccount(w', name) ==> halted && did == NOTHING && EnvOnly(w, w')
    requires read.GetOr("") != "" && MissesAccount(w', name) ==>
               outcome.requeue == Never && (outcome.err == None <==> !failed)
    ensures ReconciledAsFound(w, w', name, outcome, did, halted, failed)
  {
    hide LedgerGrows;
    hide Honest;
    hide Stepped;
    hide EnvOnly;
    hide Guarded;
  }

  lemma {:induction false} WitnessedByRead(init: World, log: seq<Action>, seen: nat, from: nat, w: World, name: string,
          outcome: Outcome, deeds: seq<Action>, halted: bool, requeueTime: nat, requeueTimeForKubeconfig: nat,
          read: Option<string>)
    requires from <= seen && Noted(w, name, deeds, log, seen)
    requires outcome.err != None ==> halted
    requires read == None ==> FailsIn(log, seen, {SecretRead}) && deeds == NOTHING.deeds
    requires read.Some? ==> Had(init, log, seen, name, read.value)
    requires Through(deeds, read.GetOr(""))
    requires read.GetOr("") == "" ==>
               outcome == Outcome(After(requeueTimeForKubeconfig), None) && halted
    requires read.GetOr("") != "" && outcome.err == None ==>
               if MissesAccount(w, name) then halted && outcome.requeue == Never
               else !halted && outcome.requeue == if w.StageAt(name) == Ready then Never else After(requeueTime)
    ensures Witnessed(init, log, from, w, name, outcome, deeds, halted, requeueTime, requeueTimeForKubeconfig)
  {
    hide Noted;
    NotedSince(w, name, deeds, log, seen, from);
    if read == None {
      FailsLater(log, seen, {SecretRead}, log, from, {SecretRead});
    } else {
      HadSince(init, log, seen, name, read.value, log, from);
    }
  }

  /** The Kyma had no kubeconfig, or it could not be read. */
  ghost predicate LackedKubeconfig(init: World, log: seq<Action>, from: nat, name: string) {
    Had(init, log, from, name, "") || FailsIn(log, from, {SecretRead})
  }

  /** What one reconciliation does. For a Kyma that exists it is one move of the phase machine, and if the Kyma is
      steady the move is complete unless some call failed. When nothing more is to be done the Kyma is Ready, or it
      has no global account, or it is gone and so is its mapping or its mapping's protection. */
  ghost predicate Reconciled(w: World, w': World, name: string, outcome: Outcome, did: Effects, halted: bool,
          gone: bool, failed: bool)
  {
    && LedgerGrows(w, w', name, did, halted) && Honest(did, name)
    && (outcome.err != None ==> halted)
    && (name in w.kymas && !gone ==> Stepped(w, w', name, did, halted))
    && (name in w.steady && name in w.kymas ==> !gone)
    && (!gone && outcome.err != None ==> failed || name !in w'.kymas)
    && (!gone && outcome.Done() ==> MissesAccount(w', name) || w'.StageAt(name) == Ready)
    && (SteadyKyma(w, name) ==>
          && !gone && (halted ==> failed)
          && (outcome.Done() <==> !halted && w'.StageAt(name) == Ready))
    && (Lasting(w, name) && MissesAccount(w, name) ==>
          !gone && did == NOTHING && EnvOnly(w, w') && (outcome.Done() <==> !failed))
    && (gone ==>
          && (outcome.Done() <==> !halted)
          && (halted ==> failed || Vanished(w, w', name))
          && (outcome.Done() ==> Dismissed(w', name)))
  }

  lemma DeletionIsAnswered(outcome: Outcome, deeds: seq<Action>, halted: bool, requeueTime: nat)
    requires AnswersDeletion(outcome, deeds, halted, requeueTime)
    ensures (outcome.err != None ==> halted) && (outcome.Done() <==> !halted)
  {}

  lemma {:induction false} FailedRead(init: World, log: seq<Action>, from: nat, w: World, name: string,
          err: Option<Error>, requeueTime: nat, requeueTimeForKubeconfig: nat)
    requires err != None && FailsIn(log, from, {KymaRead})
    ensures Witnessed(init, log, from, w, name, Outcome(Never, err), NOTHING.deeds, true, requeueTime,
              requeueTimeForKubeconfig)
  {
    NothingNoted(w, name, log, from, "");
  }

  /** The read of the Kyma found nothing. */
  lemma ReconciledGone(w: World, w1: World, w2: World, name: string, outcome: Outcome, did: Effects, halted: bool,
          failed: bool)
    requires EnvOnly(w, w1) && name !in w1.kymas
    requires LedgerGrows(w1, w2, name, did, halted) && Honest(did, name)
    requires (outcome.err != None ==> halted) && (outcome.Done() <==> !halted)
    requires halted ==> failed || Vanished(w1, w2, name)
    requires outcome.Done() ==> Dismissed(w2, name)
    ensures Reconciled(w, w2, name, outcome, did, halted, true, failed)
  {
    hide LedgerGrows;
    hide EnvOnly;
    LastingIsThere(w, w1, name);
    LedgerLater(w, w1, w2, name, did, halted);
    VanishedLater(w, w1, w2, name);
  }

  /** The read of the Kyma failed. */
  lemma ReconciledNot(w: World, w': World, name: string, err: Option<Error>)
    requires EnvOnly(w, w') && err != None && (name in w.kymas ==> Guarded(w, name))
    ensures Reconciled(w, w', name, Outcome(Never, err), NOTHING, true, false, true)
  {
    hide EnvOnly;
    hide LedgerGrows;
    hide Stepped;
    FailedFirst(w, w', name);
  }

  /** The read of the Kyma found it. */
  lemma ReconciledFound(w: World, w': World, name: string, outcome: Outcome, did: Effects, halted: bool, failed: bool)
    requires ReconciledAsFound(w, w', name, outcome, did, halted, failed) && (name in w.kymas ==> Guarded(w, name))
    ensures Reconciled(w, w', name, outcome, did, halted, false, failed)
  {
    hide EnvOnly;
    hide LedgerGrows;
    hide Stepped;
  }

  ghost predicate ReconciledAsFound(w: World, w': World, name: string, outcome: Outcome, did: Effects, halted: bool,
          failed: bool)
  {
    && LedgerGrows(w, w', name, did, halted) && Honest(did, name)
    && (Guarded(w, name) ==> Stepped(w, w', name, did, halted))
    && (outcome.err != None ==> halted && (failed || name !in w'.kymas))
    && (outcome.Done() ==> MissesAccount(w', name) || w'.StageAt(name) == Ready)
    && (SteadyKyma(w, name) ==> (halted ==> failed) && (outcome.Done() <==> !halted && w'.StageAt(name) == Ready))
    && (Lasting(w, name) && MissesAccount(w, name) ==>
          did == NOTHING && EnvOnly(w, w') && (outcome.Done() <==> !failed))
  }

  /** A Kyma that is to stay is still there. */
  lemma LastingIsThere(w: World, w1: World, name: string)
    requires EnvOnly(w, w1)
    ensures name in w.steady && name in w.kymas ==> name in w1.kymas
  {
    assert LeftAlone(w, w1, name);
  }

  lemma VanishedLater(w: World, w1: World, w2: World, name: string)
    requires EnvOnly(w, w1)
    ensures Vanished(w1, w2, name) ==> Vanished(w, w2, name)
  {
    assert LeftAlone(w, w1, name);
  }

  lemma {:induction false} SeenThen(init: World, before: seq<Action>, seen: seq<Action>, log: seq<Action>, name: string)
    requires before <= seen <= log
    ensures if name in Protocol.After(init, seen).kymas then WasPresent(init, log, |before|, name)
            else WasGone(init, log, |before|, name)
  {
    assert log[..|seen|] == seen;
  }

  /** Nothing but steps of the environment happened. */
  lemma FailedFirst(w: World, w': World, name: string)
    requires EnvOnly(w, w')
    ensures LedgerGrows(w, w', name, NOTHING, true) && Honest(NOTHING, name)
    ensures Guarded(w, name) ==> Stepped(w, w', name, NOTHING, true)
  {
    SameRuntimesNoGrowth(w, w', name, [], true);
    if Guarded(w, name) {
      SteppedInPlace(w, w', name);
    }
  }

  lemma SteppedThen(w: World, w1: World, w2: World, name: string, did: Effects, failed: bool)
    requires EnvOnly(w, w1) && Stepped(w1, w2, name, did, failed)
    ensures LedgerGrows(w, w2, name, did, failed) && Honest(did, name) && w1.profile == w2.profile
    ensures Guarded(w, name) ==> Stepped(w, w2, name, did, failed)
  {
    LedgerLater(w, w1, w2, name, did, failed);
    if Guarded(w, name) {
      SteppedLater(w, w1, w2, name, did, failed);
    }
  }

  lemma LedgerLater(w: World, w1: World, w2: World, name: string, did: Effects, failed: bool)
    requires EnvOnly(w, w1) && LedgerGrows(w1, w2, name, did, failed)
    ensures LedgerGrows(w, w2, name, did, failed)
  {
    assert Orphans(w, name) == Orphans(w1, name);
  }

  /** At some moment of the run since position `from` the Kyma did not exist. */
  ghost predicate WasGone(init: World, log: seq<Action>, from: nat, name: string) {
    exists i :: from <= i <= |log| && name !in Protocol.After(init, log[..i]).kymas
  }

  /** At some moment since then it did. */
  ghost predicate WasPresent(init: World, log: seq<Action>, from: nat, name: string) {
    exists i :: from <= i <= |log| && name in Protocol.After(init, log[..i]).kymas
  }

  ghost predicate MissesAccount(w: World, name: string) {
    name in w.profile && GlobalAccount !in w.profile[name]
  }

  /** The Kyma and its kubeconfig are there to stay. */
  ghost predicate Lasting(w: World, name: string) {
    && name in w.steady && name in w.kymas && name in w.profile
    && w.Kubeconfig(name) != ""
  }

  /** And it has a global account. */
  ghost predicate SteadyKyma(w: World, name: string) {
    Lasting(w, name) && GlobalAccount in w.profile[name]
  }

  /** A mapping that the controller looks after: what the invariant says about it. */
  ghost predicate Tended(w: World, name: string) {
    && name in w.mappings && name in w.profile && w.mappings[name].name == name && w.mappings[name].Protected()
    && w.StageAt(name) != Broken
    && (!w.enabled ==> w.mappings[name].Id() == "")
    && (w.enabled && w.StageAt(name).NeedsId() ==> w.mappings[name].Id() != "")
  }

  lemma MayFollow(w: World, name: string, status: Status)
    requires Tended(w, name)
    requires var s := w.StageAt(name);
             if status == PROCESSING then s in {Fresh, Stage.Failed}
             else
               && status == REGISTERED | PROCESSING
               && (s in {Stage.Attached, ConfigFailed, Ready} || (s == Pending && !w.enabled))
    ensures Guarded(w, name) && Leads(w, name, Encode(status), [], false)
            && Enabled(w, UpdateStatus(name, Encode(status)))
  {
    WrittenStatuses();
  }

  lemma {:induction false} DeregisterDeedsAreHonest(name: string, id: string, account: string, deleted: bool,
          confirmed: bool, deeds: seq<Action>)
    requires deeds == [] || deeds == DeregisterDeeds(name, id, account, deleted, confirmed)
    ensures Honest(Effects(deeds, {}, None), name)
  {
    HonestWithoutRegistration(deeds, name);
  }

  ghost predicate Vanished(w: World, w': World, name: string) {
    name in w.mappings && name !in w'.mappings
  }

  /** No runtime of the Kyma appears, and no orphan appears or disappears. */
  ghost predicate KeepsLedger(w: World, w': World, name: string) {
    w'.runtimes.Keys == w.runtimes.Keys && Orphans(w', name) == Orphans(w, name)
  }

  lemma KeepsLedgerTransitive(w: World, w1: World, w2: World, name: string)
    requires KeepsLedger(w, w1, name) && KeepsLedger(w1, w2, name)
    ensures KeepsLedger(w, w2, name)
  {}

  lemma RetiringKeepsLedger(w: World, w': World, name: string)
    requires Retiring(w, w', name)
    ensures KeepsLedger(w, w', name)
  {
    assert Orphans(w', name) == Orphans(w, name);
  }

  lemma KeptLedger(w: World, w': World, name: string, did: Effects, failed: bool)
    requires KeepsLedger(w, w', name) && did.lost == {} && did.registered == None
    ensures LedgerGrows(w, w', name, did, failed)
  {}

  /** While it has a mapping, a Kyma that is gone stays gone. */
  lemma StillGone(w: World, w': World, name: string)
    requires EnvOnly(w, w') && (name in w.mappings ==> name !in w.kymas)
    ensures KeepsLedger(w, w', name) && (name in w'.mappings ==> name in w.mappings && name !in w'.kymas)
  {
    EnvIsRetiring(w, w', name);
    RetiringKeepsLedger(w, w', name);
  }

  lemma NothingToDismiss(w: World, name: string)
    requires name !in w.mappings
    ensures Dismissed(w, name)
  {}

  ghost predicate ConfigureReady(w: World, name: string, id: string, account: string) {
    ConfigureDue(w, name, id, account) && w.mappings[name].name == name && w.mappings[name].Protected()
  }

  lemma ConfigureIsDue(w: World, name: string, id: string, account: string)
    requires ConfigureReady(w, name, id, account)
    ensures ConfigureDue(w, name, id, account) && w.StageAt(name) == Stage.Registered
  {}

  ghost predicate SameForStage(w: World, w1: World) {
    SameConstants(w, w1) && w1.mappings == w.mappings && w1.runtimes == w.runtimes
  }

  lemma ConfiguredIsSame(w: World, w1: World, name: string, kubeconfig: string, id: string, account: string, ok: bool,
          fetched: Option<OneTimeToken>, written: bool)
    requires ConfigureReady(w, name, id, account)
    requires Configured(w, w1, name, kubeconfig, id, account, ok, fetched, written)
    ensures SameForStage(w, w1) && ConfigureReady(w1, name, id, account) && ConfigureEnded(w1, name, ok)
  {}

  lemma {:induction false} FetchAndWrite(name: string, kubeconfig: string, id: string, account: string,
          fetched: Option<OneTimeToken>, secret: AgentSecret, written: bool)
    ensures forall a :: a in FetchDeeds(name, id, account, fetched) + WriteDeeds(name, kubeconfig, secret, written) ==>
              a.name == name && (a.FetchToken? || a.WriteAgentSecret?)
  {}

  /** Whatever comes before the end of the call, it is one call. */
  lemma {:induction false} OneCallAtTheEnd(before: seq<Action>, finish: Action)
    requires finish.FinishConfigure?
    requires forall a :: a in before ==> a.name == finish.name && (a.FetchToken? || a.WriteAgentSecret?)
    ensures CallsOf(before + [finish]) == [ConfigureCallOf(finish.id, finish.tenant)]
  {
    hide CallsOf;
    NoCalls(before);
    CallsOfOne(finish);
    CallsOfSum(before, [finish]);
  }

  lemma {:induction false} OneNameToTheEnd(before: seq<Action>, finish: Action)
    requires finish.FinishConfigure?
    requires forall a :: a in before ==> a.name == finish.name && (a.FetchToken? || a.WriteAgentSecret?)
    ensures Named(before + [finish], finish.name) && forall a :: a in before + [finish] ==> !Registers(a)
  {}

  lemma {:induction false} ConfigureDeedsAreOneCall(name: string, kubeconfig: string, id: string, account: string,
          ok: bool, fetched: Option<OneTimeToken>, written: bool)
    ensures var deeds := ConfigureDeeds(name, kubeconfig, id, account, ok, fetched, written);
            && CallsOf(deeds) == [ConfigureCallOf(id, account)] && Named(deeds, name)
            && forall a :: a in deeds ==> !Registers(a)
  {
    hide AgentData;
    hide FetchDeeds;
    hide WriteDeeds;
    hide CallsOf;
    hide Named;
    hide Registers;
    var secret := Fetched(id, account, fetched.GetOr(OneTimeToken("", ""))).Data();
    FetchAndWrite(name, kubeconfig, id, account, fetched, secret, written);
    var before := FetchDeeds(name, id, account, fetched) + WriteDeeds(name, kubeconfig, secret, written);
    OneCallAtTheEnd(before, FinishConfigure(name, kubeconfig, id, account, ok));
    OneNameToTheEnd(before, FinishConfigure(name, kubeconfig, id, account, ok));
  }

  /** What the status write after a failed Configure call leaves. */
  lemma {:induction false} ConfigFailureIsNoted(w: World, w1: World, w': World, name: string, id: string,
          account: string, statErr: Option<Error>, deeds: seq<Action>, log: seq<Action>, from: nat, from': nat)
    requires ConfigureReady(w, name, id, account) && SameForStage(w, w1)
    requires statErr == None ==> StatusSaved(w1, w', name, Encode(REGISTERED | FAILED))
    requires statErr != None ==> FailsIn(log, from, {MappingRead, StatusUpdate})
    requires from' <= from && !RegistrationFailed(deeds)
    ensures Noted(w', name, deeds, log, from')
  {
    WrittenStatuses();
    if statErr == None {
      SavedStage(w1, w', name, Encode(REGISTERED | FAILED));
    } else {
      FailsLater(log, from, {MappingRead, StatusUpdate}, log, from', {MappingRead, StatusUpdate});
    }
  }

  lemma ResultMayBeWritten(w: World, name: string, id: string, account: string, ok: bool)
    requires ConfigureReady(w, name, id, account) && ConfigureEnded(w, name, ok)
    ensures var status := Encode(if ok then REGISTERED | CONFIGURED else REGISTERED | FAILED);
            && Enabled(w, UpdateStatus(name, status)) && Guarded(w, name)
            && Leads(w, name, status, [ConfigureCallOf(id, account)], !ok)
  {
    WrittenStatuses();
  }

  lemma AfterConfiguring(w: World, w1: World, name: string, kubeconfig: string, id: string, account: string, ok: bool,
          fetched: Option<OneTimeToken>, written: bool)
    requires ConfigureReady(w, name, id, account)
    requires Configured(w, w1, name, kubeconfig, id, account, ok, fetched, written)
    ensures SameForStage(w, w1) && Guarded(w1, name)
    ensures var status := Encode(if ok then REGISTERED | CONFIGURED else REGISTERED | FAILED);
            Enabled(w1, UpdateStatus(name, status)) && Leads(w1, name, status, [ConfigureCallOf(id, account)], !ok)
  {
    ConfiguredIsSame(w, w1, name, kubeconfig, id, account, ok, fetched, written);
    ResultMayBeWritten(w1, name, id, account, ok);
  }

  lemma SteppedAfterSame(w: World, w1: World, w2: World, name: string, did: Effects, failed: bool)
    requires SameForStage(w, w1) && Stepped(w1, w2, name, did, failed)
    ensures Stepped(w, w2, name, did, failed)
  {
    hide Move;
    hide StageOf;
    assert Orphans(w, name) == Orphans(w1, name);
  }

  ghost predicate DeregistrationDue(w: World, name: string, id: string, account: string) {
    && name in w.mappings && name !in w.kymas
    && id == w.mappings[name].Id() && id != "" && w.mappings[name].labels.globalAccount == Some(account)
  }

  lemma DeregistrationEffect(w: World, name: string, id: string, account: string, gone: bool, confirmed: bool)
    requires DeregistrationDue(w, name, id, account)
    requires id in w.runtimes && w.runtimes[id].fate in {Claimed, Deleted}
    ensures var w' := AfterDeregistration(w, id, account, gone, confirmed);
            KeepsLedger(w, w', name) && (confirmed ==> Releasable(w', name))
  {}

  lemma CallIsEnabledInDryRun(w: World, name: string, labels: RuntimeLabels)
    requires w.enabled && name in w.profile && w.StageAt(name) == Pending && Describes(labels, w.profile[name])
    ensures GlobalAccountId in labels && labels[GlobalAccountId] == w.Account(name)
    ensures Enabled(w, CallRegister(name, labels[GlobalAccountId], labels))
  {}

  lemma DryRegistration(w: World, name: string, labels: RuntimeLabels)
    requires name in w.profile
    ensures var did := Effects([CallRegister(name, w.Account(name), labels)], {}, None);
            && did.Calls() == [RegisterCall] && Honest(did, name) && FewAndFresh(w, did)
            && AfterRegistration(w, name, w.Account(name), {}, None) == w
            && !ConfigureFailed(did.deeds) && forall kubeconfig :: Through(did.deeds, kubeconfig)
  {
    var deeds := [CallRegister(name, w.Account(name), labels)];
    CallsOfOne(deeds[0]);
    HonestWithoutRegistration(deeds, name);
    NoRegistration(w, name, w.Account(name));
  }

  ghost predicate RegistrationReady(w: World, name: string) {
    && name in w.mappings && name in w.profile && w.mappings[name].name == name && w.mappings[name].Protected()
    && w.enabled && w.StageAt(name) == Pending
  }

  lemma SuccessIsNoted(w: World, name: string, deeds: seq<Action>, log: seq<Action>, from: nat)
    requires (RegistrationFailed(deeds) ==> w.dry) && !ConfigureFailed(deeds)
    ensures Noted(w, name, deeds, log, from)
  {}

  /** What the status write after a failed registration leaves. */
  lemma {:induction false} FailureIsNoted(w: World, w': World, name: string, statErr: Option<Error>, deeds: seq<Action>,
          log: seq<Action>, from: nat, from': nat)
    requires name in w.mappings && w.mappings[name].name == name && w.mappings[name].Id() == ""
    requires statErr == None ==> StatusSaved(w, w', name, Encode(FAILED))
    requires statErr != None ==> FailsIn(log, from, {MappingRead, StatusUpdate})
    requires from' <= from && !ConfigureFailed(deeds)
    ensures Noted(w', name, deeds, log, from')
  {
    WrittenStatuses();
    if statErr == None {
      SavedStage(w, w', name, Encode(FAILED));
    } else {
      FailsLater(log, from, {MappingRead, StatusUpdate}, log, from', {MappingRead, StatusUpdate});
    }
  }

  lemma FailureMayBeWritten(w: World, name: string)
    requires RegistrationReady(w, name)
    ensures Enabled(w, UpdateStatus(name, Encode(FAILED)))
  {
    WrittenStatuses();
  }

  lemma AfterRegistering(w: World, name: string, did: Effects)
    requires RegistrationReady(w, name) && FewAndFresh(w, did)
    ensures var w1 := AfterRegistration(w, name, w.Account(name), did.lost, did.registered);
            w1 == w.(runtimes := w1.runtimes) && Enabled(w1, UpdateStatus(name, Encode(FAILED)))
  {
    hide Enabled;
    hide AfterRegistration;
    RegistrationEffect(w, name, w.Account(name), did.lost, did.registered);
    FailureMayBeWritten(AfterRegistration(w, name, w.Account(name), did.lost, did.registered), name);
  }

  /** A failed registration, then an attempt to set the status to Failed. */
  lemma SteppedUnregistered(w: World, w1: World, w2: World, name: string, did: Effects)
    requires RegistrationReady(w, name) && FewAndFresh(w, did) && did.registered == None
    requires did.Calls() == [RegisterCall] && Honest(did, name)
    requires w1 == w.(runtimes := AfterRegistration(w, name, w.Account(name), did.lost, None).runtimes)
    requires w.dry || RegistrationFailed(did.deeds)
    requires EnvOnly(w1, w2) || StatusSaved(w1, w2, name, Encode(FAILED))
    ensures Stepped(w, w2, name, did, true)
  {
    hide LedgerGrows;
    hide FewAndFresh;
    WrittenStatuses();
    if StatusSaved(w1, w2, name, Encode(FAILED)) {
      SavedStage(w1, w2, name, Encode(FAILED));
    } else {
      EnvKeepsStage(w1, w2, name);
    }
    assert w2.runtimes == w1.runtimes;
    LedgerWithoutClaim(w, w2, name, w.Account(name), did, true);
  }

  lemma IdSavedStage(w: World, w': World, name: string, id: string)
    requires RegistrationReady(w, name) && IdSaved(w, w', name, id) && id != ""
    ensures SameConstants(w, w') && w'.StageAt(name) == Stage.Attached
  {}

  ghost predicate RegisteredAs(w: World, w1: World, name: string, id: string, did: Effects) {
    && RegistrationReady(w, name) && FewAndFresh(w, did) && Honest(did, name)
    && did.Calls() == [RegisterCall] && id != ""
    && did.registered == (if w.dry then None else Some(id))
    && (w.dry ==> w.runtimes == map[] && did.lost == {})
    && w1 == w.(runtimes := AfterRegistration(w, name, w.Account(name), did.lost, did.registered).runtimes)
  }

  lemma AttachedLedger(w: World, w1: World, w2: World, name: string, id: string, did: Effects, failed: bool)
    requires RegisteredAs(w, w1, name, id, did) && w2.runtimes == WithClaim(w1.runtimes, id)
    ensures LedgerGrows(w, w2, name, did, failed)
  {
    if w.dry {
      NoRegistration(w, name, w.Account(name));
      LedgerWithoutClaim(w, w2, name, w.Account(name), did, failed);
    } else {
      LedgerWithClaim(w, w2, name, w.Account(name), did, failed);
    }
  }

  /** A successful registration, then an attempt to give the id to the mapping. */
  lemma SteppedRegistered(w: World, w1: World, w2: World, name: string, id: string, did: Effects, failed: bool)
    requires RegisteredAs(w, w1, name, id, did)
    requires (failed && EnvOnly(w1, w2)) || IdSaved(w1, w2, name, id)
    ensures Stepped(w, w2, name, did, failed)
  {
    hide FewAndFresh;
    hide AfterRegistration;
    hide LedgerGrows;
    if IdSaved(w1, w2, name, id) {
      IdSavedStage(w1, w2, name, id);
      AttachedLedger(w, w1, w2, name, id, did, failed);
    } else {
      EnvKeepsStage(w1, w2, name);
      LedgerWithoutClaim(w, w2, name, w.Account(name), did, failed);
    }
  }

  /** After a successful registration the mapping may be given the id. */
  lemma MayAttach(w: World, name: string, id: string, did: Effects)
    requires RegistrationReady(w, name) && id != "" && FewAndFresh(w, did) && Honest(did, name)
    requires did.Calls() == [RegisterCall]
    requires did.registered == if w.dry then None else Some(id)
    requires w.dry ==> w.runtimes == map[] && did.lost == {}
    ensures RegisteredAs(w, AfterRegistration(w, name, w.Account(name), did.lost, did.registered), name, id, did)
    ensures var w1 := AfterRegistration(w, name, w.Account(name), did.lost, did.registered);
            && w1 == w.(runtimes := w1.runtimes)
            && AttachAllowed(w1, w1.mappings[name], LabelsFor(w.profile[name], id, w.dry), w1.mappings[name].finalizers)
  {
    RegistrationEffect(w, name, w.Account(name), did.lost, did.registered);
  }
}
