/** What a registration does to the world, as a function of what becomes of its attempts; and why it can
    not be repeated. */
module Registration {
  import opened Wrappers
  import opened StatusCode
  import opened Worlds
  import opened Protocol
  import opened Runs

  /** What becomes of one attempt to create a runtime: the id of the runtime, if the create arrives at the
      Director, and whether the controller is told so. */
  datatype Delivery = Delivery(arrived: Option<string>, acknowledged: bool)

  /** What can become of the attempts of a call: new runtimes get new ids, and only a create that arrived is
      acknowledged, with a UUID. */
  ghost predicate Possible(w: World, ds: seq<Delivery>) {
    && (forall i :: 0 <= i < |ds| && ds[i].acknowledged ==> ds[i].arrived.Some? && IsUuid(ds[i].arrived.value))
    && (forall i :: 0 <= i < |ds| && ds[i].arrived.Some? ==> ds[i].arrived.value !in w.runtimes)
    && (forall i, j :: 0 <= i < j < |ds| && ds[i].arrived.Some? ==> ds[i].arrived != ds[j].arrived)
  }

  /** The number of attempts before the first acknowledged one, which is the last that is made. */
  function First(ds: seq<Delivery>): (n: nat)
    ensures n <= |ds| && (n < |ds| ==> ds[n].acknowledged)
    ensures forall i :: 0 <= i < n ==> !ds[i].acknowledged
  {
    if ds == [] || ds[0].acknowledged then 0 else 1 + First(ds[1..])
  }

  function Ids(id: Option<string>): set<string> {
    if id.Some? then {id.value} else {}
  }

  /** The runtimes that are created without an acknowledgement. */
  function Lost(ds: seq<Delivery>): set<string> {
    if ds == [] || ds[0].acknowledged then {} else Ids(ds[0].arrived) + Lost(ds[1..])
  }

  /** The id that the call returns, if it succeeds. */
  function ReturnedId(ds: seq<Delivery>): Option<string> {
    if First(ds) < |ds| then ds[First(ds)].arrived else None
  }

  function CreatedBy(ds: seq<Delivery>): set<string> {
    Lost(ds) + Ids(ReturnedId(ds))
  }

  /** The creates of a call, as the log records them. */
  function Creates(owner: string, tenant: string, ds: seq<Delivery>): seq<Action> {
    if ds == [] then []
    else
      var first := if ds[0].arrived.Some? then [CreateRuntime(owner, ds[0].arrived.value, tenant)] else [];
      if ds[0].acknowledged then first else first + Creates(owner, tenant, ds[1..])
  }

  /** Everything that a call does outside the control plane. */
  function RegisterDeeds(owner: string, tenant: string, labels: RuntimeLabels, ds: seq<Delivery>): seq<Action> {
    [CallRegister(owner, tenant, labels)] + Creates(owner, tenant, ds)
    + if ReturnedId(ds).Some? then [ReturnRuntime(owner, ReturnedId(ds).value, tenant)] else []
  }

  /** The world with new runtimes, created for this Kyma and not acknowledged. */
  ghost function Adding(w: World, owner: string, tenant: string, ids: set<string>): World {
    w.(runtimes := w.runtimes + map id | id in ids :: Runtime(owner, tenant, Unacknowledged))
  }

  /** The world after a registration that lost some runtimes and returned at most one. */
  ghost function AfterRegistration(w: World, owner: string, tenant: string, lost: set<string>,
          returned: Option<string>): World
  {
    if returned == None then Adding(w, owner, tenant, lost)
    else
      var grown := Adding(w, owner, tenant, lost + {returned.value});
      grown.(runtimes := SetFate(grown.runtimes, returned.value, Returned))
  }

  /** What the call does to the world, given what becomes of its attempts. */
  ghost function Registering(w: World, owner: string, tenant: string, ds: seq<Delivery>): World {
    AfterRegistration(w, owner, tenant, Lost(ds), ReturnedId(ds))
  }

  // ----- One attempt more -----

  lemma {:induction false} OneMore(ds: seq<Delivery>, d: Delivery)
    requires First(ds) == |ds|
    ensures First(ds + [d]) == if d.acknowledged then |ds| else |ds| + 1
    ensures Lost(ds + [d]) == if d.acknowledged then Lost(ds) else Lost(ds) + Ids(d.arrived)
    ensures ReturnedId(ds) == None && ReturnedId(ds + [d]) == if d.acknowledged then d.arrived else None
  {
    if ds == [] {
      assert ds + [d] == [d];
    } else {
      assert (ds + [d])[1..] == ds[1..] + [d];
      OneMore(ds[1..], d);
    }
  }

  lemma {:induction false} OneMoreCreate(owner: string, tenant: string, ds: seq<Delivery>, d: Delivery)
    requires First(ds) == |ds|
    ensures Creates(owner, tenant, ds + [d]) == Creates(owner, tenant, ds) + Creates(owner, tenant, [d])
  {
    hide First;
    if ds == [] {
      assert ds + [d] == [d];
    } else {
      assert (ds + [d])[1..] == ds[1..] + [d];
      OneMoreCreate(owner, tenant, ds[1..], d);
    }
  }

  lemma {:induction false} LostAreArrived(ds: seq<Delivery>, id: string)
    ensures id in Lost(ds) <==> exists i :: 0 <= i < First(ds) && ds[i].arrived == Some(id)
  {
    if ds != [] && !ds[0].acknowledged {
      LostAreArrived(ds[1..], id);
      if i :| 0 <= i < First(ds[1..]) && ds[1..][i].arrived == Some(id) {
        assert ds[i + 1].arrived == Some(id);
      }
      if i :| 0 < i < First(ds) && ds[i].arrived == Some(id) {
        assert ds[1..][i - 1].arrived == Some(id);
      }
    }
  }

  lemma {:induction false} FewAreLost(ds: seq<Delivery>)
    ensures |Lost(ds)| <= First(ds)
  {
    if ds != [] && !ds[0].acknowledged {
      FewAreLost(ds[1..]);
    }
  }

  /** The runtimes of a possible call are new, and the returned one is none of the lost. */
  lemma {:induction false} CreatedAreNew(w: World, ds: seq<Delivery>)
    requires Possible(w, ds)
    ensures CreatedBy(ds) !! w.runtimes.Keys
    ensures ReturnedId(ds).Some? ==> IsUuid(ReturnedId(ds).value) && ReturnedId(ds).value !in Lost(ds)
    ensures First(ds) < |ds| <==> ReturnedId(ds).Some?
  {
    forall id | id in Lost(ds) ensures id !in w.runtimes && ReturnedId(ds) != Some(id) {
      LostAreArrived(ds, id);
    }
  }

  // ----- Which calls add how many runtimes -----

  lemma AddingEffect(w: World, name: string, tenant: string, ids: set<string>)
    requires ids !! w.runtimes.Keys
    ensures var w1 := Adding(w, name, tenant, ids);
            && w1.runtimes.Keys == w.runtimes.Keys + ids
            && Live(w1, name) == Live(w, name) + ids && Orphans(w1, name) == Orphans(w, name) + ids
            && forall id :: id in ids ==> w1.runtimes[id] == Runtime(name, tenant, Unacknowledged)
  {
    var w1 := Adding(w, name, tenant, ids);
    forall id
      ensures id in Orphans(w1, name) <==> id in Orphans(w, name) + ids
      ensures id in Live(w1, name) <==> id in Live(w, name) + ids
    {
      assert id !in ids && id in w.runtimes ==> w1.runtimes[id] == w.runtimes[id];
    }
  }

  lemma ReturningEffect(w: World, w': World, name: string, id: string)
    requires id in w.runtimes && w.runtimes[id].fate == Unacknowledged
    requires w'.runtimes == SetFate(w.runtimes, id, Returned)
    ensures w'.runtimes.Keys == w.runtimes.Keys && Live(w', name) == Live(w, name)
            && Orphans(w', name) == Orphans(w, name)
  {}

  lemma RegistrationEffect(w: World, name: string, tenant: string, lost: set<string>, registered: Option<string>)
    requires lost !! w.runtimes.Keys
    requires registered.Some? ==> registered.value !in w.runtimes
    ensures var w1, made := AfterRegistration(w, name, tenant, lost, registered), lost + Ids(registered);
            && w1 == w.(runtimes := w1.runtimes)
            && w1.runtimes.Keys == w.runtimes.Keys + made
            && Live(w1, name) == Live(w, name) + made && Orphans(w1, name) == Orphans(w, name) + made
            && (registered.Some? ==> w1.runtimes[registered.value] == Runtime(name, tenant, Returned))
  {
    var made := lost + Ids(registered);
    AddingEffect(w, name, tenant, made);
    if registered.Some? {
      assert made == lost + {registered.value};
      ReturningEffect(Adding(w, name, tenant, made), AfterRegistration(w, name, tenant, lost, registered), name,
        registered.value);
    } else {
      assert made == lost;
    }
  }

  lemma {:induction false} RegisteringAdds(w: World, owner: string, tenant: string, ds: seq<Delivery>)
    requires Possible(w, ds)
    ensures var w' := Registering(w, owner, tenant, ds);
            && w' == w.(runtimes := w'.runtimes) && w'.runtimes.Keys == w.runtimes.Keys + CreatedBy(ds)
            && Live(w', owner) == Live(w, owner) + CreatedBy(ds) && Live(w, owner) !! CreatedBy(ds)
  {
    hide AfterRegistration;
    CreatedAreNew(w, ds);
    RegistrationEffect(w, owner, tenant, Lost(ds), ReturnedId(ds));
  }

  /** A successful call adds exactly one runtime if and only if no attempt before the first acknowledged
      one arrives. */
  lemma {:induction false} OneRuntimeExactly(w: World, owner: string, tenant: string, ds: seq<Delivery>)
    requires Possible(w, ds) && First(ds) < |ds|
    ensures |Live(Registering(w, owner, tenant, ds), owner)| == |Live(w, owner)| + 1 <==>
            forall i :: 0 <= i < First(ds) ==> ds[i].arrived == None
  {
    CreatedAreNew(w, ds);
    RegisteringAdds(w, owner, tenant, ds);
    assert |Live(Registering(w, owner, tenant, ds), owner)| == |Live(w, owner)| + |Lost(ds)| + 1;
    NothingLostExactly(ds);
  }

  lemma {:induction false} NothingLostExactly(ds: seq<Delivery>)
    ensures |Lost(ds)| == 0 <==> forall i :: 0 <= i < First(ds) ==> ds[i].arrived == None
  {
    if i :| 0 <= i < First(ds) && ds[i].arrived != None {
      LostAreArrived(ds, ds[i].arrived.value);
    } else if id :| id in Lost(ds) {
      LostAreArrived(ds, id);
    }
  }

  /** A repeated call does no harm if and only if none of the creates that it makes arrives; and then it
      fails. */
  lemma {:induction false} HarmlessExactly(w: World, owner: string, tenant: string, ds: seq<Delivery>)
    requires Possible(w, ds)
    ensures Live(Registering(w, owner, tenant, ds), owner) == Live(w, owner) <==>
            forall i :: 0 <= i <= First(ds) && i < |ds| ==> ds[i].arrived == None
    ensures Live(Registering(w, owner, tenant, ds), owner) == Live(w, owner) ==> ReturnedId(ds) == None
  {
    CreatedAreNew(w, ds);
    RegisteringAdds(w, owner, tenant, ds);
    NothingLostExactly(ds);
    assert Live(Registering(w, owner, tenant, ds), owner) == Live(w, owner) <==> CreatedBy(ds) == {};
  }

  /** A second successful call always leaves a further runtime, even if nothing is lost. */
  lemma {:induction false} SecondCallAddsAnother(w: World, owner: string, tenant: string, ds1: seq<Delivery>,
          ds2: seq<Delivery>)
    requires Possible(w, ds1) && First(ds1) < |ds1|
    requires var w1 := Registering(w, owner, tenant, ds1); Possible(w1, ds2) && First(ds2) < |ds2|
    ensures var w1 := Registering(w, owner, tenant, ds1); var w2 := Registering(w1, owner, tenant, ds2);
            && |Live(w2, owner)| >= |Live(w1, owner)| + 1 >= |Live(w, owner)| + 2
            && ReturnedId(ds1) != ReturnedId(ds2)
            && {ReturnedId(ds1).value, ReturnedId(ds2).value} <= Live(w2, owner) - Live(w, owner)
  {
    hide Registering;
    hide Possible;
    hide CreatedBy;
    hide Live;
    var w1 := Registering(w, owner, tenant, ds1);
    var w2 := Registering(w1, owner, tenant, ds2);
    RegisteringAdds(w, owner, tenant, ds1);
    RegisteringAdds(w1, owner, tenant, ds2);
    ReturnedIsNew(w, ds1);
    ReturnedIsNew(w1, ds2);
    GrowsByOne(Live(w, owner), CreatedBy(ds1), Live(w1, owner), ReturnedId(ds1).value);
    GrowsByOne(Live(w1, owner), CreatedBy(ds2), Live(w2, owner), ReturnedId(ds2).value);
  }

  lemma {:induction false} ReturnedIsNew(w: World, ds: seq<Delivery>)
    requires Possible(w, ds) && First(ds) < |ds|
    ensures ReturnedId(ds).Some? && ReturnedId(ds).value in CreatedBy(ds)
  {
    CreatedAreNew(w, ds);
  }

  lemma GrowsByOne(before: set<string>, more: set<string>, after: set<string>, id: string)
    requires after == before + more && before !! more && id in more
    ensures before <= after && id in after && id !in before && |after| >= |before| + 1
  {
    assert |more| >= 1 by {
      assert more != {};
    }
  }

  /** What the call returned may be acknowledged. */
  lemma {:induction false} ReturnsCreated(w: World, w1: World, owner: string, tenant: string, ds: seq<Delivery>)
    requires Possible(w, ds) && ReturnedId(ds).Some? && w1 == Adding(w, owner, tenant, CreatedBy(ds))
    ensures var returned := ReturnRuntime(owner, ReturnedId(ds).value, tenant);
            Enabled(w1, returned) && Apply(w1, returned) == Registering(w, owner, tenant, ds)
  {
    CreatedAreNew(w, ds);
    AddingEffect(w, owner, tenant, CreatedBy(ds));
    DirectorStep(w1, ReturnRuntime(owner, ReturnedId(ds).value, tenant));
  }

  // ----- Every such call is a run of the protocol -----

  /** Reconcile would register the Kyma now. */
  ghost predicate RegistrationDue(w: World, name: string) {
    name in w.profile && w.StageAt(name) == Pending && w.enabled && !w.dry
  }

  /** Whatever becomes of the attempts, the call is a run of the protocol that leads where Registering says. */
  lemma {:induction false} EveryCallIsPossible(init: World, log: seq<Action>, name: string, tenant: string,
          labels: RuntimeLabels, ds: seq<Delivery>)
    requires Reachable(init, log) && RegistrationDue(After(init, log), name) && tenant == After(init, log).Account(name)
    requires Describes(labels, After(init, log).profile[name]) && Possible(After(init, log), ds)
    ensures Reachable(init, log + RegisterDeeds(name, tenant, labels, ds))
    ensures After(init, log + RegisterDeeds(name, tenant, labels, ds)) ==
            Registering(After(init, log), name, tenant, ds)
  {
    hide After;
    hide Describes;
    hide Reachable;
    hide Possible;
    hide Adding;
    hide AfterRegistration;
    hide RegistrationDue;
    var call := CallRegister(name, tenant, labels);
    CallIsLegal(init, log, name, tenant, labels);
    var log1 := log + [call];
    CreatesAreLegal(init, log1, name, tenant, ds);
    var log2 := log1 + Creates(name, tenant, ds);
    if ReturnedId(ds).Some? {
      ReturnIsLegal(init, log1, name, tenant, ds);
      assert log + RegisterDeeds(name, tenant, labels, ds) ==
        log2 + [ReturnRuntime(name, ReturnedId(ds).value, tenant)];
    } else {
      assert log + RegisterDeeds(name, tenant, labels, ds) == log2;
      WithoutReturn(After(init, log), name, tenant, ds);
    }
  }

  lemma {:induction false} WithoutReturn(w: World, name: string, tenant: string, ds: seq<Delivery>)
    requires ReturnedId(ds) == None
    ensures Registering(w, name, tenant, ds) == Adding(w, name, tenant, CreatedBy(ds))
  {
    assert CreatedBy(ds) == Lost(ds);
  }

  lemma {:induction false} CallIsLegal(init: World, log: seq<Action>, name: string, tenant: string,
          labels: RuntimeLabels)
    requires Reachable(init, log) && RegistrationDue(After(init, log), name) && tenant == After(init, log).Account(name)
    requires Describes(labels, After(init, log).profile[name])
    ensures Reachable(init, log + [CallRegister(name, tenant, labels)])
    ensures After(init, log + [CallRegister(name, tenant, labels)]) == After(init, log)
  {
    LegalStep(init, log, CallRegister(name, tenant, labels));
    ForeignStep(After(init, log), CallRegister(name, tenant, labels));
  }

  lemma {:induction false} CreateIsLegal(init: World, log: seq<Action>, name: string, tenant: string, id: string)
    requires Reachable(init, log) && RegistrationDue(After(init, log), name) && tenant == After(init, log).Account(name)
    requires id !in After(init, log).runtimes
    ensures Reachable(init, log + [CreateRuntime(name, id, tenant)])
    ensures After(init, log + [CreateRuntime(name, id, tenant)]) == Adding(After(init, log), name, tenant, {id})
  {
    var w := After(init, log);
    hide Apply;
    LegalStep(init, log, CreateRuntime(name, id, tenant));
    DirectorStep(w, CreateRuntime(name, id, tenant));
    assert w.runtimes[id := Runtime(name, tenant, Unacknowledged)] == Adding(w, name, tenant, {id}).runtimes;
  }

  lemma AddingTwice(w: World, name: string, tenant: string, ids: set<string>, more: set<string>)
    ensures Adding(Adding(w, name, tenant, ids), name, tenant, more) == Adding(w, name, tenant, ids + more)
  {
    assert Adding(Adding(w, name, tenant, ids), name, tenant, more).runtimes ==
      Adding(w, name, tenant, ids + more).runtimes;
  }

  lemma AddingNothing(w: World, name: string, tenant: string)
    ensures Adding(w, name, tenant, {}) == w
  {
    assert Adding(w, name, tenant, {}).runtimes == w.runtimes;
  }

  lemma {:induction false} CreatesAreLegal(init: World, log: seq<Action>, name: string, tenant: string,
          ds: seq<Delivery>)
    requires Reachable(init, log) && RegistrationDue(After(init, log), name) && tenant == After(init, log).Account(name)
    requires Possible(After(init, log), ds)
    ensures Reachable(init, log + Creates(name, tenant, ds))
    ensures After(init, log + Creates(name, tenant, ds)) == Adding(After(init, log), name, tenant, CreatedBy(ds))
    decreases |ds|
  {
    hide After;
    hide Reachable;
    hide Adding;
    hide Possible;
    hide RegistrationDue;
    var w := After(init, log);
    AddingNothing(w, name, tenant);
    if ds == [] {
      assert log + Creates(name, tenant, ds) == log;
      assert CreatedBy(ds) == {};
      return;
    }
    var log1 := log;
    if ds[0].arrived.Some? {
      FirstIsNew(w, ds);
      CreateIsLegal(init, log, name, tenant, ds[0].arrived.value);
      log1 := log + [CreateRuntime(name, ds[0].arrived.value, tenant)];
    }
    assert After(init, log1) == Adding(w, name, tenant, Ids(ds[0].arrived));
    if ds[0].acknowledged {
      assert log + Creates(name, tenant, ds) == log1;
      assert CreatedBy(ds) == Ids(ds[0].arrived);
    } else {
      StillPossible(w, After(init, log1), name, tenant, ds);
      StillDue(w, name, tenant, Ids(ds[0].arrived));
      CreatesAreLegal(init, log1, name, tenant, ds[1..]);
      assert log + Creates(name, tenant, ds) == log1 + Creates(name, tenant, ds[1..]);
      AddingTwice(w, name, tenant, Ids(ds[0].arrived), CreatedBy(ds[1..]));
      CreatedRest(ds);
    }
  }

  lemma {:induction false} FirstIsNew(w: World, ds: seq<Delivery>)
    requires Possible(w, ds) && ds != [] && ds[0].arrived.Some?
    ensures ds[0].arrived.value !in w.runtimes
  {}

  lemma StillDue(w: World, name: string, tenant: string, ids: set<string>)
    requires RegistrationDue(w, name)
    ensures var w1 := Adding(w, name, tenant, ids);
            RegistrationDue(w1, name) && name in w.profile && w1.profile == w.profile
              && w1.Account(name) == w.Account(name)
  {}

  lemma {:induction false} CreatedRest(ds: seq<Delivery>)
    requires ds != [] && !ds[0].acknowledged
    ensures CreatedBy(ds) == Ids(ds[0].arrived) + CreatedBy(ds[1..])
  {
    assert ReturnedId(ds) == ReturnedId(ds[1..]);
  }

  lemma {:induction false} StillPossible(w: World, w1: World, name: string, tenant: string, ds: seq<Delivery>)
    requires Possible(w, ds) && ds != [] && w1 == Adding(w, name, tenant, Ids(ds[0].arrived))
    ensures Possible(w1, ds[1..])
  {
    forall i | 0 <= i < |ds| - 1 ensures ds[1..][i] == ds[i + 1] && ds[0].arrived.Some? ==>
      ds[i + 1].arrived != ds[0].arrived {}
  }

  lemma {:induction false} ReturnIsLegal(init: World, log: seq<Action>, name: string, tenant: string, ds: seq<Delivery>)
    requires Reachable(init, log) && Reachable(init, log + Creates(name, tenant, ds))
    requires Possible(After(init, log), ds) && ReturnedId(ds).Some?
    requires After(init, log + Creates(name, tenant, ds)) == Adding(After(init, log), name, tenant, CreatedBy(ds))
    ensures var returned := ReturnRuntime(name, ReturnedId(ds).value, tenant);
            var log' := log + Creates(name, tenant, ds) + [returned];
            Reachable(init, log') && After(init, log') == Registering(After(init, log), name, tenant, ds)
  {
    var before := log + Creates(name, tenant, ds);
    ReturnsCreated(After(init, log), After(init, before), name, tenant, ds);
    LegalStep(init, before, ReturnRuntime(name, ReturnedId(ds).value, tenant));
  }

  /** Such a moment is reachable for every Kyma. */
  lemma {:induction false} RegistrationComesDue(init: World, name: string) returns (log: seq<Action>)
    requires Init(init) && name in init.profile && init.enabled && !init.dry
    ensures Reachable(init, log) && RegistrationDue(After(init, log), name)
    ensures name in After(init, log).kymas && After(init, log).runtimes == map[]
    ensures After(init, log).profile == init.profile
  {
    log := [];
    if name !in init.kymas {
      LegalStep(init, log, KymaAppears(name));
      KymaStep(init, KymaAppears(name));
      log := log + [KymaAppears(name)];
    }
    var w := After(init, log);
    var create := CreateMapping(name, LabelsFor(w.profile[name], "", w.dry));
    LegalStep(init, log, create);
    StoringStep(w, create);
    ProcessingFollows(init, log + [create], name);
    log := log + [create] + [UpdateStatus(name, Encode(PROCESSING))];
  }

  lemma {:induction false} ProcessingFollows(init: World, log: seq<Action>, name: string)
    requires Reachable(init, log) && After(init, log).StageAt(name) == Fresh
    requires After(init, log).mappings[name].name == name && !After(init, log).mappings[name].deleting
    ensures var log', w := log + [UpdateStatus(name, Encode(PROCESSING))], After(init, log);
            Reachable(init, log') && After(init, log').StageAt(name) == Pending
            && After(init, log') == w.(mappings := After(init, log').mappings)
  {
    var w := After(init, log);
    assert Encode(PROCESSING) == MappingStatus(false, false, ProcessingState);
    StoringStep(w, UpdateStatus(name, Encode(PROCESSING)));
    hide Apply;
    LegalStep(init, log, UpdateStatus(name, Encode(PROCESSING)));
  }

  /** Two successful calls in a row, whatever else becomes of their attempts, are a run of the protocol that
      leaves at least two more live runtimes. */
  lemma {:induction false} RegistrationIsNotIdempotent(init: World, log: seq<Action>, name: string,
          labels: RuntimeLabels, ds1: seq<Delivery>, ds2: seq<Delivery>)
    requires Reachable(init, log) && RegistrationDue(After(init, log), name)
    requires Describes(labels, After(init, log).profile[name])
    requires Possible(After(init, log), ds1) && First(ds1) < |ds1|
    requires Possible(Registering(After(init, log), name, After(init, log).Account(name), ds1), ds2)
    requires First(ds2) < |ds2|
    ensures var tenant := After(init, log).Account(name);
            var twice := log + RegisterDeeds(name, tenant, labels, ds1) + RegisterDeeds(name, tenant, labels, ds2);
            Reachable(init, twice) && |Live(After(init, twice), name)| >= |Live(After(init, log), name)| + 2
  {
    hide RegisterDeeds;
    hide Possible;
    hide Describes;
    var w, tenant := After(init, log), After(init, log).Account(name);
    EveryCallIsPossible(init, log, name, tenant, labels, ds1);
    DueAfterRegistering(w, name, tenant, ds1);
    EveryCallIsPossible(init, log + RegisterDeeds(name, tenant, labels, ds1), name, tenant, labels, ds2);
    SecondCallAddsAnother(w, name, tenant, ds1, ds2);
  }

  lemma {:induction false} DueAfterRegistering(w: World, name: string, tenant: string, ds: seq<Delivery>)
    requires RegistrationDue(w, name) && tenant == w.Account(name)
    ensures var w1 := Registering(w, name, tenant, ds);
            RegistrationDue(w1, name) && w1.Account(name) == tenant && w1.profile == w.profile
  {}

  // ----- A concrete failure -----

  const EXAMPLE := World(
    true, false, "", map["kyma" := map[KymaName := "kyma", GlobalAccount := "account"]], {},
    {"kyma"}, map[], map[], map[], map[], {}, {}, {}, {}, map[], map[])
  const ID1 := "11111111-1111-4111-8111-111111111111"
  const ID2 := "22222222-2222-4222-8222-222222222222"

  /** From a concrete initial world: one call whose first answer is lost leaves two runtimes where the
      controller knows of one, and so do two calls that lose nothing. */
  lemma {:induction false} FailingDeliveries() returns (log: seq<Action>)
    ensures Init(EXAMPLE) && Reachable(EXAMPLE, log) && RegistrationDue(After(EXAMPLE, log), "kyma")
    ensures var w := After(EXAMPLE, log); var tenant := w.Account("kyma");
            var ds, ds1, ds2 := [Delivery(Some(ID1), false), Delivery(Some(ID2), true)], [Delivery(Some(ID1), true)],
              [Delivery(Some(ID2), true)];
            && Live(w, "kyma") == {} && Possible(w, ds) && ReturnedId(ds) == Some(ID2)
            && Live(Registering(w, "kyma", tenant, ds), "kyma") == {ID1, ID2}
            && Possible(w, ds1) && Possible(Registering(w, "kyma", tenant, ds1), ds2)
            && Live(Registering(Registering(w, "kyma", tenant, ds1), "kyma", tenant, ds2), "kyma") == {ID1, ID2}
  {
    log := RegistrationComesDue(EXAMPLE, "kyma");
    var w := After(EXAMPLE, log);
    var tenant := w.Account("kyma");
    AreUuids();
    OneLostOneReturned(w, tenant);
    BothReturned(w, tenant);
  }

  lemma AreUuids()
    ensures IsUuid(ID1) && IsUuid(ID2) && ID1 != ID2
  {
    assert ID1[0] == '1' && ID2[0] == '2';
  }

  lemma OneLostOneReturned(w: World, tenant: string)
    requires w.runtimes == map[] && IsUuid(ID2) && ID1 != ID2
    ensures var ds := [Delivery(Some(ID1), false), Delivery(Some(ID2), true)];
            && Possible(w, ds) && ReturnedId(ds) == Some(ID2)
            && Live(Registering(w, "kyma", tenant, ds), "kyma") == {ID1, ID2}
  {
    var ds := [Delivery(Some(ID1), false), Delivery(Some(ID2), true)];
    assert ds[1..] == [Delivery(Some(ID2), true)];
    assert Lost(ds) == Ids(Some(ID1)) + Lost(ds[1..]) && First(ds) == 1 + First(ds[1..]);
    assert CreatedBy(ds) == {ID1, ID2};
    RegisteringAdds(w, "kyma", tenant, ds);
  }

  lemma BothReturned(w: World, tenant: string)
    requires w.runtimes == map[] && IsUuid(ID1) && IsUuid(ID2) && ID1 != ID2
    ensures var ds1, ds2 := [Delivery(Some(ID1), true)], [Delivery(Some(ID2), true)];
            && Possible(w, ds1) && Possible(Registering(w, "kyma", tenant, ds1), ds2)
            && Live(Registering(Registering(w, "kyma", tenant, ds1), "kyma", tenant, ds2), "kyma") == {ID1, ID2}
  {
    var ds1, ds2 := [Delivery(Some(ID1), true)], [Delivery(Some(ID2), true)];
    RegisteringAdds(w, "kyma", tenant, ds1);
    RegisteringAdds(Registering(w, "kyma", tenant, ds1), "kyma", tenant, ds2);
  }
}
