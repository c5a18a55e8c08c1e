/** What one reconciliation may do to the Director's runtimes: how many it creates, and which of them it
    can leave orphaned. */
module Ledger {
  import opened Wrappers
  import opened Worlds
  import opened Runs
  import opened PhaseMachine
  import opened Registration
  import opened Registrator
  import opened ControlPlane

  /** What a reconciliation did outside the control plane: its outbound steps as the log has them, the
      runtimes whose creation took effect but was reported as an error, and the runtime that a registration
      returned. */
  datatype Effects = Effects(deeds: seq<Action>, lost: set<string>, registered: Option<string>) {
    function Calls(): seq<Call> { CallsOf(deeds) }
    ghost function Made(): set<string> {
      if registered.Some? then lost + {registered.value} else lost
    }
  }

  const NOTHING := Effects([], {}, None)

  /** The runtimes that the steps create. */
  function CreatedIn(acts: seq<Action>): set<string> {
    if acts == [] then {}
    else (if acts[0].CreateRuntime? then {acts[0].id} else {}) + CreatedIn(acts[1..])
  }

  lemma {:induction false} CreatedInSum(acts: seq<Action>, more: seq<Action>)
    ensures CreatedIn(acts + more) == CreatedIn(acts) + CreatedIn(more)
  {
    if acts == [] {
      assert acts + more == more;
    } else {
      assert (acts + more)[1..] == acts[1..] + more;
      CreatedInSum(acts[1..], more);
    }
  }

  lemma {:induction false} NothingCreated(acts: seq<Action>)
    requires forall a :: a in acts ==> !Registers(a)
    ensures CreatedIn(acts) == {}
  {
    if acts != [] {
      assert acts[0] in acts;
      NothingCreated(acts[1..]);
    }
  }

  ghost predicate Named(acts: seq<Action>, name: string) {
    forall a :: a in acts ==> a.name == name
  }

  /** The account agrees with the steps, which are all for this Kyma; without a registration there is none
      that creates or returns a runtime. */
  ghost predicate Honest(did: Effects, name: string) {
    && did.Made() == CreatedIn(did.deeds) && Named(did.deeds, name)
    && (RegisterCall !in did.Calls() ==> forall a :: a in did.deeds ==> !Registers(a))
  }

  lemma {:induction false} NothingDone(deeds: seq<Action>, name: string)
    ensures deeds + NOTHING.deeds == deeds && NOTHING.lost == {} && NOTHING.registered == None
    ensures Honest(NOTHING, name)
  {}

  /** The Kyma's runtimes grew by at most three. Orphaned are those that were lost, and the registered
      one only if the reconciliation then failed. */
  ghost predicate LedgerGrows(w: World, w': World, name: string, did: Effects, failed: bool) {
    && did.Made() !! w.runtimes.Keys && w'.runtimes.Keys == w.runtimes.Keys + did.Made()
    && |did.Made()| <= 3
    && (Orphans(w', name) == Orphans(w, name) + did.lost
      || (failed && Orphans(w', name) == Orphans(w, name) + did.Made()))
  }

  lemma {:induction false} SameRuntimesNoGrowth(w: World, w': World, name: string, deeds: seq<Action>, failed: bool)
    requires w'.runtimes == w.runtimes
    ensures LedgerGrows(w, w', name, Effects(deeds, {}, None), failed)
  {
    hide Ids;
  }

  /** Without registrations. */
  lemma {:induction false} HonestWithoutRegistration(deeds: seq<Action>, name: string)
    requires Named(deeds, name) && forall a :: a in deeds ==> !Registers(a)
    ensures Honest(Effects(deeds, {}, None), name)
  {
    NothingCreated(deeds);
  }

  // ----- The ledger of a registration -----

  lemma NoRegistration(w: World, name: string, tenant: string)
    ensures AfterRegistration(w, name, tenant, {}, None) == w
  {
    assert w.runtimes + map[] == w.runtimes;
  }

  lemma ClaimedIsNoOrphan(w: World, w': World, name: string, id: string)
    requires id in w.runtimes && w.runtimes[id].fate == Returned && w'.runtimes == WithClaim(w.runtimes, id)
    ensures Orphans(w', name) == Orphans(w, name) - {id} && w'.runtimes.Keys == w.runtimes.Keys
  {}

  ghost predicate FewAndFresh(w: World, did: Effects) {
    && did.lost !! w.runtimes.Keys && |did.lost| <= ATTEMPTS
    && (did.registered.Some? ==>
          did.registered.value !in w.runtimes && did.registered.value !in did.lost && |did.lost| < ATTEMPTS)
  }

  lemma MadeIsFew(w: World, did: Effects)
    requires FewAndFresh(w, did)
    ensures did.Made() == did.lost + Ids(did.registered) && did.Made() !! w.runtimes.Keys && |did.Made()| <= ATTEMPTS
    ensures did.registered == None ==> did.Made() == did.lost
    ensures did.lost !! w.runtimes.Keys && (did.registered.Some? ==> did.registered.value !in w.runtimes)
  {}

  lemma SameOrphans(w: World, w': World, name: string)
    requires w'.runtimes == w.runtimes
    ensures Orphans(w', name) == Orphans(w, name)
  {}

  /** A registration whose id did not reach the mapping, or that failed. */
  lemma LedgerWithoutClaim(w: World, w2: World, name: string, tenant: string, did: Effects, failed: bool)
    requires FewAndFresh(w, did) && (failed || did.registered == None)
    requires w2.runtimes == AfterRegistration(w, name, tenant, did.lost, did.registered).runtimes
    ensures LedgerGrows(w, w2, name, did, failed)
  {
    hide AfterRegistration;
    hide Orphans;
    hide FewAndFresh;
    hide Effects.Made;
    hide Ids;
    MadeIsFew(w, did);
    RegistrationEffect(w, name, tenant, did.lost, did.registered);
    SameOrphans(AfterRegistration(w, name, tenant, did.lost, did.registered), w2, name);
  }

  /** A registration whose id became the mapping's label. */
  lemma LedgerWithClaim(w: World, w2: World, name: string, tenant: string, did: Effects, failed: bool)
    requires FewAndFresh(w, did) && did.registered.Some?
    requires w2.runtimes == WithClaim(AfterRegistration(w, name, tenant, did.lost, did.registered).runtimes,
             did.registered.value)
    ensures LedgerGrows(w, w2, name, did, failed)
  {
    var w1, id := AfterRegistration(w, name, tenant, did.lost, did.registered), did.registered.value;
    RegistrationEffect(w, name, tenant, did.lost, did.registered);
    ClaimedIsNoOrphan(w1, w2, name, id);
    NotYetOrphan(w, name, did.lost, id);
  }

  lemma NotYetOrphan(w: World, name: string, lost: set<string>, id: string)
    requires id !in w.runtimes && id !in lost
    ensures Orphans(w, name) + (lost + {id}) - {id} == Orphans(w, name) + lost
  {}

  /** The account of a registration whose attempts went as `ds` tells. */
  function EffectsOf(owner: string, tenant: string, labels: RuntimeLabels, ds: seq<Delivery>): Effects {
    Effects(RegisterDeeds(owner, tenant, labels, ds), Lost(ds), ReturnedId(ds))
  }

  lemma {:induction false} RegistrationIsFew(w: World, owner: string, tenant: string, labels: RuntimeLabels,
          ds: seq<Delivery>, success: bool, id: string)
    requires Attempted(w, ds, success, id)
    ensures FewAndFresh(w, EffectsOf(owner, tenant, labels, ds))
  {
    CreatedAreNew(w, ds);
    FewAreLost(ds);
  }

  lemma OneCreate(owner: string, tenant: string, id: Option<string>)
    ensures var first := if id.Some? then [CreateRuntime(owner, id.value, tenant)] else [];
            CreatedIn(first) == Ids(id) && CallsOf(first) == []
  {
    if id.Some? {
      var first := [CreateRuntime(owner, id.value, tenant)];
      assert first[1..] == [] && CreatedIn(first[1..]) == {} && CallsOf(first[1..]) == [];
    }
  }

  lemma {:induction false} CreatesCreate(owner: string, tenant: string, ds: seq<Delivery>)
    requires First(ds) < |ds| ==> ds[First(ds)].arrived.Some?
    ensures CreatedIn(Creates(owner, tenant, ds)) == CreatedBy(ds) && CallsOf(Creates(owner, tenant, ds)) == []
    ensures Named(Creates(owner, tenant, ds), owner)
  {
    if ds != [] {
      var first := if ds[0].arrived.Some? then [CreateRuntime(owner, ds[0].arrived.value, tenant)] else [];
      OneCreate(owner, tenant, ds[0].arrived);
      if !ds[0].acknowledged {
        CreatesCreate(owner, tenant, ds[1..]);
        CreatedInSum(first, Creates(owner, tenant, ds[1..]));
        CallsOfSum(first, Creates(owner, tenant, ds[1..]));
        CreatedRest(ds);
      }
    }
  }

  lemma {:induction false} RegistrationIsHonest(owner: string, tenant: string, labels: RuntimeLabels,
          ds: seq<Delivery>)
    requires First(ds) < |ds| ==> ds[First(ds)].arrived.Some?
    ensures var did := EffectsOf(owner, tenant, labels, ds); Honest(did, owner) && did.Calls() == [RegisterCall]
  {
    hide Creates;
    var call, creates := [CallRegister(owner, tenant, labels)], Creates(owner, tenant, ds);
    var returned := if ReturnedId(ds).Some? then [ReturnRuntime(owner, ReturnedId(ds).value, tenant)] else [];
    CreatesCreate(owner, tenant, ds);
    assert call[1..] == [] && (returned != [] ==> returned[1..] == []);
    CreatedInSum(call + creates, returned);
    CreatedInSum(call, creates);
    CallsOfSum(call + creates, returned);
    CallsOfSum(call, creates);
  }
}
