/** The reconcile protocol as a state machine over atomic actions: an inductive invariant, and what
    follows for every state of every run, whatever the interleaving of the environment with the
    controller, whichever calls fail, and wherever the process is stopped. */
module Protocol {
  import opened StatusCode
  import opened Worlds

  // ----- Runs -----

  ghost predicate Init(w: World) {
    && (forall n :: n in w.profile ==> KymaName in w.profile[n] && w.profile[n][KymaName] == n)
    && w.kymas <= w.profile.Keys
    && w.mappings == map[] && w.runtimes == map[] && w.fetched == map[] && w.lastConfigure == map[]
    && w.outdated == {}
    && w.deregistrations == {} && w.deregistered == {} && w.removed == {}
  }

  ghost predicate Legal(init: World, log: seq<Action>) {
    log == [] || (Legal(init, log[..|log| - 1]) && Enabled(After(init, log[..|log| - 1]), log[|log| - 1]))
  }

  /** The world after a legal sequence of actions. */
  ghost function After(init: World, log: seq<Action>): World {
    if log == [] then init else Apply(After(init, log[..|log| - 1]), log[|log| - 1])
  }

  lemma LegalStep(init: World, log: seq<Action>, a: Action)
    requires Legal(init, log) && Enabled(After(init, log), a)
    ensures Legal(init, log + [a]) && After(init, log + [a]) == Apply(After(init, log), a)
  {
    assert (log + [a])[..|log|] == log;
  }

  lemma {:induction false} LegalPrefix(init: World, log: seq<Action>, i: nat)
    requires Legal(init, log) && i <= |log|
    ensures Legal(init, log[..i])
    decreases |log|
  {
    if i < |log| {
      LegalPrefix(init, log[..|log| - 1], i);
      assert log[..|log| - 1][..i] == log[..i];
    } else {
      assert log[..i] == log;
    }
  }

  /** Neighbouring states of a run are related by one enabled action. */
  lemma RunStep(init: World, log: seq<Action>, i: nat)
    requires Legal(init, log) && i < |log|
    ensures Legal(init, log[..i]) && Legal(init, log[..i + 1])
    ensures Enabled(After(init, log[..i]), log[i])
    ensures After(init, log[..i + 1]) == Apply(After(init, log[..i]), log[i])
  {
    LegalPrefix(init, log, i);
    LegalPrefix(init, log, i + 1);
    assert log[..i + 1][..i] == log[..i];
  }

  // ----- The invariant -----

  ghost predicate ProfilesOk(w: World) {
    && (forall n :: n in w.profile ==> KymaName in w.profile[n] && w.profile[n][KymaName] == n)
    && w.kymas <= w.profile.Keys
  }

  /** A single mapping: labels as the controller writes them, a status that is one of the protocol's
      stages, an id exactly in the stages that need one, and protected while its Kyma exists. */
  ghost predicate MappingOk(m: Mapping, name: string, kyma: Labels, enabled: bool, dry: bool, present: bool) {
    && m.name == name
    && m.labels == LabelsFor(kyma, m.Id(), dry)
    && StageOf(m) != Broken
    && AtMostOnce(m.finalizers)
    && (present ==> m.Protected())
    && (!enabled ==> m.Id() == "")
    && (enabled && StageOf(m).NeedsId() ==> m.Id() != "")
  }

  ghost predicate MappingsOk(w: World) {
    forall n :: n in w.mappings ==>
      n in w.profile && MappingOk(w.mappings[n], n, w.profile[n], w.enabled, w.dry, n in w.kymas)
  }

  /** The runtime behind a mapping's id: created for this Kyma and its global account, alive while
      the Kyma exists, and confirmed as deregistered before the mapping loses its protection. */
  ghost predicate RuntimeOk(w: World, name: string)
    requires name in w.mappings && name in w.profile
  {
    var id := w.mappings[name].Id();
    && id in w.runtimes
    && w.runtimes[id].owner == name && w.runtimes[id].tenant == w.Account(name)
    && (w.runtimes[id].fate == Claimed || (w.runtimes[id].fate == Deleted && name !in w.kymas))
    && (!w.mappings[name].Protected() ==> id in w.deregistered)
  }

  ghost predicate ClaimOk(w: World, id: string)
    requires id in w.runtimes
  {
    var r := w.runtimes[id];
    && (r.fate == Claimed ==> r.owner in w.mappings && w.mappings[r.owner].Id() == id)
    && (r.fate == Claimed || r.fate == Returned ==> id != "")
  }

  ghost predicate LedgerOk(w: World) {
    && (w.dry ==> w.runtimes == map[])
    && (forall n :: n in w.mappings && n in w.profile && !w.dry && w.mappings[n].Id() != "" ==> RuntimeOk(w, n))
    && (forall id :: id in w.runtimes ==> ClaimOk(w, id))
    && (forall id :: id in w.deregistered ==> id in w.runtimes && w.runtimes[id].fate == Deleted)
  }

  /** A deregistration is only ever called for a runtime of that tenant whose Kyma is gone. */
  ghost predicate DeregistrationOk(w: World, id: string, tenant: string) {
    && id in w.runtimes && w.runtimes[id].tenant == tenant
    && (w.runtimes[id].fate == Deleted ||
        (w.runtimes[id].fate == Claimed && w.runtimes[id].owner !in w.kymas))
  }

  ghost predicate HistoryOk(w: World) {
    && (forall id, tenant :: (id, tenant) in w.deregistrations ==> DeregistrationOk(w, id, tenant))
    && (forall n, id :: (n, id) in w.removed ==> id == "" || w.dry || id in w.deregistered)
  }

  /** A successful Configure call of a real run left a complete agent secret for its id and tenant. */
  ghost predicate CallOk(call: ConfigureCall, dry: bool, pattern: string) {
    call.ok && !dry ==>
      && call.secret.Some? && WellFormedSecret(call.secret.value, pattern)
      && call.secret.value[RuntimeIdKey] == call.id && call.secret.value[TenantKey] == call.tenant
  }

  /** A Ready mapping was configured: the last Configure call for the Kyma succeeded with the
      mapping's id and the Kyma's global account. */
  ghost predicate ConfigureOk(w: World) {
    && (forall n :: n in w.lastConfigure ==> CallOk(w.lastConfigure[n], w.dry, w.pattern))
    && (forall n :: n in w.mappings && StageOf(w.mappings[n]) == Ready ==> ConfigureEnded(w, n, true))
  }

  ghost predicate Inv(w: World) {
    ProfilesOk(w) && MappingsOk(w) && LedgerOk(w) && HistoryOk(w) && ConfigureOk(w)
  }

  // ----- The invariant is inductive: storing an object -----

  /** The object `m` may replace the stored one without the ledger noticing: same id, and as
      protected as before unless its runtime is known to be deregistered. */
  ghost predicate SafeToStore(w: World, m: Mapping) {
    && m.name in w.mappings && m.Id() == w.mappings[m.name].Id()
    && (m.Protected() || m.Id() == "" || w.dry || m.Id() in w.deregistered)
  }

  lemma StoreKeepsMappings(w: World, m: Mapping)
    requires MappingsOk(w) && m.name in w.profile
    requires MappingOk(m, m.name, w.profile[m.name], w.enabled, w.dry, m.name in w.kymas)
    ensures MappingsOk(Store(w, m))
  {
    var w' := Store(w, m);
    forall n | n in w'.mappings
      ensures n in w.profile && MappingOk(w'.mappings[n], n, w.profile[n], w.enabled, w.dry, n in w.kymas)
    {
      if n != m.name {
        assert w'.mappings[n] == w.mappings[n];
      }
    }
  }

  lemma StoreKeepsLedger(w: World, m: Mapping)
    requires LedgerOk(w) && SafeToStore(w, m) && m.name in w.profile
    ensures LedgerOk(Store(w, m))
  {
    var w' := Store(w, m);
    assert m.finalizers == [] ==> !m.Protected();
    forall n | n in w'.mappings && n in w'.profile && !w'.dry && w'.mappings[n].Id() != "" ensures RuntimeOk(w', n) {
      assert RuntimeOk(w, n);
    }
    forall id | id in w'.runtimes ensures ClaimOk(w', id) {
      assert ClaimOk(w, id);
    }
  }

  lemma StoreKeepsHistory(w: World, m: Mapping)
    requires HistoryOk(w) && SafeToStore(w, m)
    ensures HistoryOk(Store(w, m))
  {
    var w' := Store(w, m);
    assert m.finalizers == [] ==> !m.Protected();
    forall id, tenant | (id, tenant) in w'.deregistrations ensures DeregistrationOk(w', id, tenant) {
      assert DeregistrationOk(w, id, tenant);
    }
  }

  lemma StoreKeepsConfigure(w: World, m: Mapping)
    requires ConfigureOk(w)
    requires StageOf(m) == Ready ==> ConfigureEnded(w, m.name, true) && m.Id() == w.mappings[m.name].Id()
    ensures ConfigureOk(Store(w, m))
  {
    var w' := Store(w, m);
    forall n | n in w'.mappings && StageOf(w'.mappings[n]) == Ready ensures ConfigureEnded(w', n, true) {
      if n != m.name {
        assert w'.mappings[n] == w.mappings[n];
      }
      assert ConfigureEnded(w, n, true);
    }
  }

  lemma StoreKeepsInv(w: World, m: Mapping)
    requires Inv(w) && SafeToStore(w, m)
    requires StageOf(m) == StageOf(w.mappings[m.name]) && m.labels == w.mappings[m.name].labels
    requires AtMostOnce(m.finalizers) && (m.name in w.kymas ==> m.Protected())
    ensures Inv(Store(w, m))
  {
    StoreKeepsMappings(w, m);
    StoreKeepsLedger(w, m);
    StoreKeepsHistory(w, m);
    assert StageOf(w.mappings[m.name]) == Ready ==> ConfigureEnded(w, m.name, true);
    StoreKeepsConfigure(w, m);
  }

  // ----- Frames: what a step that leaves part of the world alone keeps -----

  /** Mappings with an id keep it and their protection; Kymas appear only where there is no mapping. */
  ghost predicate KeepsIds(w: World, w': World) {
    && w'.profile == w.profile && w'.dry == w.dry && w'.deregistered == w.deregistered
    && (forall n :: n in w'.kymas && n !in w.kymas ==> n !in w.mappings)
    && (forall n :: n in w'.mappings && w'.mappings[n].Id() != "" ==>
          && n in w.mappings && w.mappings[n].Id() == w'.mappings[n].Id()
          && (w.mappings[n].Protected() ==> w'.mappings[n].Protected()))
    && (forall n :: n in w.mappings && w.mappings[n].Id() != "" ==>
          n in w'.mappings && w'.mappings[n].Id() == w.mappings[n].Id())
  }

  lemma LedgerFrame(w: World, w': World)
    requires LedgerOk(w) && KeepsIds(w, w') && w'.runtimes == w.runtimes
    ensures LedgerOk(w')
  {
    forall n | n in w'.mappings && n in w'.profile && !w'.dry && w'.mappings[n].Id() != "" ensures RuntimeOk(w', n) {
      assert RuntimeOk(w, n);
    }
    forall id | id in w'.runtimes ensures ClaimOk(w', id) {
      assert ClaimOk(w, id);
    }
  }

  lemma HistoryFrame(w: World, w': World)
    requires HistoryOk(w) && LedgerOk(w)
    requires w'.deregistrations == w.deregistrations && w'.runtimes == w.runtimes
    requires w'.removed == w.removed && w'.dry == w.dry && w'.deregistered == w.deregistered
    requires forall n :: n in w'.kymas && n !in w.kymas ==> n !in w.mappings
    ensures HistoryOk(w')
  {
    forall id, tenant | (id, tenant) in w'.deregistrations ensures DeregistrationOk(w', id, tenant) {
      assert DeregistrationOk(w, id, tenant);
      assert ClaimOk(w, id);
    }
  }

  lemma ConfigureFrame(w: World, w': World)
    requires ConfigureOk(w)
    requires w'.lastConfigure == w.lastConfigure && w'.dry == w.dry && w'.pattern == w.pattern
    requires w'.profile == w.profile
    requires forall n :: n in w'.mappings && StageOf(w'.mappings[n]) == Ready ==>
               || (ConfigureEnded(w, n, true) && w.mappings[n].Id() == w'.mappings[n].Id())
               || (n in w.mappings && w'.mappings[n] == w.mappings[n])
    ensures ConfigureOk(w')
  {
    forall n | n in w'.mappings && StageOf(w'.mappings[n]) == Ready ensures ConfigureEnded(w', n, true) {
      assert ConfigureEnded(w, n, true);
    }
  }

  // ----- The invariant is inductive: the other steps -----

  /** A change that touches neither mappings, Kymas nor runtimes. */
  lemma ForeignChangeKeepsInv(w: World, w': World)
    requires Inv(w)
    requires w' == w.(
               kubeconfigs := w'.kubeconfigs, outdated := w'.outdated, agents := w'.agents, fetched := w'.fetched)
    ensures Inv(w')
  {
    LedgerFrame(w, w');
    HistoryFrame(w, w');
    ConfigureFrame(w, w');
  }

  lemma KymaChangeKeepsInv(w: World, w': World)
    requires Inv(w) && w' == w.(kymas := w'.kymas) && w'.kymas <= w.profile.Keys
    requires forall n :: n in w'.kymas && n !in w.kymas ==> n !in w.mappings
    ensures Inv(w')
  {
    forall n | n in w'.mappings
      ensures n in w.profile && MappingOk(w'.mappings[n], n, w.profile[n], w.enabled, w.dry, n in w'.kymas)
    {
      assert MappingOk(w.mappings[n], n, w.profile[n], w.enabled, w.dry, n in w.kymas);
    }
    LedgerFrame(w, w');
    HistoryFrame(w, w');
    ConfigureFrame(w, w');
  }

  lemma StoredObjectIsSafe(w: World, n: string)
    requires Inv(w) && n in w.mappings
    ensures n in w.profile && MappingOk(w.mappings[n], n, w.profile[n], w.enabled, w.dry, n in w.kymas)
    ensures SafeToStore(w, w.mappings[n])
  {
    assert MappingOk(w.mappings[n], n, w.profile[n], w.enabled, w.dry, n in w.kymas);
    assert !w.dry && w.mappings[n].Id() != "" ==> RuntimeOk(w, n);
  }

  /** Deletion requests and other finalizers: the object stays as protected as it was. */
  lemma TouchKeepsInv(w: World, name: string, m: Mapping)
    requires Inv(w) && name in w.mappings
    requires m == w.mappings[name].(deleting := m.deleting, finalizers := m.finalizers)
    requires AtMostOnce(m.finalizers) && (w.mappings[name].Protected() ==> m.Protected())
    ensures Inv(Store(w, m))
  {
    StoredObjectIsSafe(w, name);
    StoreKeepsInv(w, m);
  }

  /** The mapping object that CreateCompassMapping creates. */
  function NewMapping(w: World, name: string): Mapping
    requires name in w.profile
  {
    Mapping(name, LabelsFor(w.profile[name], "", w.dry), [CmProtection], false, ZERO_STATUS)
  }

  lemma CreateKeepsMappings(w: World, name: string)
    requires MappingsOk(w) && name in w.profile
    ensures MappingsOk(Store(w, NewMapping(w, name)))
  {
    StoreKeepsMappings(w, NewMapping(w, name));
  }

  lemma CreateKeepsLedger(w: World, m: Mapping)
    requires LedgerOk(w) && m.name in w.profile && m.name !in w.mappings && m.Id() == "" && !m.deleting
    ensures LedgerOk(Store(w, m))
  {
    LedgerFrame(w, Store(w, m));
  }

  lemma CreateKeepsHistory(w: World, m: Mapping)
    requires LedgerOk(w) && HistoryOk(w) && !m.deleting
    ensures HistoryOk(Store(w, m))
  {
    HistoryFrame(w, Store(w, m));
  }

  lemma CreateKeepsConfigure(w: World, m: Mapping)
    requires ConfigureOk(w) && StageOf(m) != Ready && !m.deleting
    ensures ConfigureOk(Store(w, m))
  {
    ConfigureFrame(w, Store(w, m));
  }

  lemma CreateKeepsInv(w: World, name: string)
    requires Inv(w) && name in w.profile && name !in w.mappings
    ensures Inv(Store(w, NewMapping(w, name)))
  {
    CreateKeepsMappings(w, name);
    CreateKeepsLedger(w, NewMapping(w, name));
    CreateKeepsHistory(w, NewMapping(w, name));
    CreateKeepsConfigure(w, NewMapping(w, name));
  }

  lemma StatusKeepsMapping(w: World, name: string, status: MappingStatus)
    requires MappingsOk(w) && name in w.mappings && StatusAllowed(w, w.mappings[name], status)
    ensures var m := w.mappings[name].(status := status);
            name in w.profile && MappingOk(m, name, w.profile[name], w.enabled, w.dry, name in w.kymas)
  {
    assert MappingOk(w.mappings[name], name, w.profile[name], w.enabled, w.dry, name in w.kymas);
  }

  lemma StatusKeepsInv(w: World, name: string, status: MappingStatus)
    requires Inv(w) && name in w.mappings && StatusAllowed(w, w.mappings[name], status)
    ensures Inv(Store(w, w.mappings[name].(status := status)))
  {
    var m := w.mappings[name].(status := status);
    StoredObjectIsSafe(w, name);
    StatusKeepsMapping(w, name, status);
    StoreKeepsMappings(w, m);
    StoreKeepsLedger(w, m);
    StoreKeepsHistory(w, m);
    StoreKeepsConfigure(w, m);
  }

  /** The id of a new runtime becomes the label of its Kyma's mapping. */
  function Claim(w: World, m: Mapping): World {
    Store(w, m).(runtimes := SetFate(w.runtimes, m.Id(), Claimed))
  }

  lemma AttachKeepsMappings(w: World, name: string, labels: MappingLabels)
    requires MappingsOk(w) && name in w.mappings
    requires AttachAllowed(w, w.mappings[name], labels, w.mappings[name].finalizers)
    ensures MappingsOk(Store(w, w.mappings[name].(labels := labels)))
  {
    assert MappingOk(w.mappings[name], name, w.profile[name], w.enabled, w.dry, name in w.kymas);
    StoreKeepsMappings(w, w.mappings[name].(labels := labels));
  }

  lemma AttachedObject(w: World, m: Mapping, labels: MappingLabels)
    requires AttachAllowed(w, m, labels, m.finalizers)
    ensures var m' := m.(labels := labels);
            && m'.name in w.profile && m.Id() == "" && m'.Protected() && m'.Id() != "" && StageOf(m') != Ready
            && (!w.dry ==> m'.Id() in w.runtimes && w.runtimes[m'.Id()] == Runtime(m.name, w.Account(m.name), Returned))
  {}

  lemma AttachKeepsInv(w: World, name: string, labels: MappingLabels)
    requires Inv(w) && name in w.mappings
    requires AttachAllowed(w, w.mappings[name], labels, w.mappings[name].finalizers)
    ensures Inv(Claim(w, w.mappings[name].(labels := labels)))
  {
    hide AttachAllowed;
    hide LedgerOk;
    hide HistoryOk;
    hide ConfigureOk;
    hide MappingsOk;
    hide StageOf;
    AttachKeepsMappings(w, name, labels);
    StoredObjectIsSafe(w, name);
    AttachedObject(w, w.mappings[name], labels);
    AttachKeepsRest(w, w.mappings[name].(labels := labels));
    ClaimTouches(w, w.mappings[name].(labels := labels));
  }

  lemma ClaimTouches(w: World, m: Mapping)
    requires ProfilesOk(w) && MappingsOk(Store(w, m))
    ensures ProfilesOk(Claim(w, m)) && MappingsOk(Claim(w, m))
  {}

  lemma AttachKeepsRest(w: World, m: Mapping)
    requires LedgerOk(w) && HistoryOk(w) && ConfigureOk(w)
    requires m.name in w.mappings && m.name in w.profile && w.mappings[m.name].Id() == ""
    requires m.Protected() && m.Id() != "" && StageOf(m) != Ready
    requires !w.dry ==> m.Id() in w.runtimes && w.runtimes[m.Id()] == Runtime(m.name, w.Account(m.name), Returned)
    ensures LedgerOk(Claim(w, m)) && HistoryOk(Claim(w, m)) && ConfigureOk(Claim(w, m))
  {
    AttachKeepsLedger(w, m);
    AttachKeepsHistory(w, m);
    StoreKeepsConfigure(w, m);
    ConfigureFrame(Store(w, m), Claim(w, m));
  }

  lemma AttachKeepsLedger(w: World, m: Mapping)
    requires LedgerOk(w) && m.name in w.mappings && w.mappings[m.name].Id() == ""
    requires m.name in w.profile && m.Protected() && m.Id() != ""
    requires !w.dry ==> m.Id() in w.runtimes && w.runtimes[m.Id()] == Runtime(m.name, w.Account(m.name), Returned)
    ensures LedgerOk(Claim(w, m))
  {
    var w' := Claim(w, m);
    forall n | n in w'.mappings && n in w'.profile && !w'.dry && w'.mappings[n].Id() != "" ensures RuntimeOk(w', n) {
      assert n != m.name ==> RuntimeOk(w, n);
    }
    forall id | id in w'.runtimes ensures ClaimOk(w', id) {
      assert ClaimOk(w, id);
    }
  }

  lemma AttachKeepsHistory(w: World, m: Mapping)
    requires HistoryOk(w) && m.Protected()
    requires m.Id() in w.runtimes ==> w.runtimes[m.Id()].fate == Returned
    ensures HistoryOk(Claim(w, m))
  {
    var w' := Claim(w, m);
    assert m.finalizers != [];
    forall id, tenant | (id, tenant) in w'.deregistrations ensures DeregistrationOk(w', id, tenant) {
      assert DeregistrationOk(w, id, tenant);
    }
  }

  lemma CutKeepsInv(w: World, n: string)
    requires Inv(w) && n in w.mappings
    requires CutAllowed(w, w.mappings[n], w.mappings[n].labels, WithoutFinalizer(w.mappings[n].finalizers))
    ensures Inv(Store(w, w.mappings[n].(finalizers := WithoutFinalizer(w.mappings[n].finalizers))))
  {
    StoredObjectIsSafe(w, n);
    CutTwice(w.mappings[n].finalizers);
    StoreKeepsInv(w, w.mappings[n].(finalizers := WithoutFinalizer(w.mappings[n].finalizers)));
  }

  lemma CurrentIdIsNotReturned(w: World, n: string)
    requires LedgerOk(w) && n in w.mappings && n in w.profile
    ensures !w.dry && w.mappings[n].Id() != "" ==>
            w.mappings[n].Id() in w.runtimes && w.runtimes[w.mappings[n].Id()].fate != Returned
    ensures "" in w.runtimes ==> w.runtimes[""].fate != Returned
  {
    assert !w.dry && w.mappings[n].Id() != "" ==> RuntimeOk(w, n);
    assert "" in w.runtimes ==> ClaimOk(w, "");
  }

  /** Cutting the finalizer from a list that has it at most once leaves nothing more to cut. */
  lemma {:induction false} CutTwice(finalizers: seq<Finalizer>)
    requires AtMostOnce(finalizers)
    ensures AtMostOnce(WithoutFinalizer(finalizers))
  {
    CutAbsent(WithoutFinalizer(finalizers));
  }

  lemma {:induction false} CutAbsent(finalizers: seq<Finalizer>)
    requires CmProtection !in finalizers
    ensures WithoutFinalizer(finalizers) == finalizers
  {
    if finalizers != [] {
      assert finalizers[0] != CmProtection;
      CutAbsent(finalizers[1..]);
    }
  }

  /** The runtime `id` is created, acknowledged or deleted; mappings that use it do not mind. */
  lemma FateChangeKeepsLedger(w: World, id: string, r: Runtime)
    requires LedgerOk(w) && !w.dry && r.fate != Claimed && (r.fate == Returned ==> id != "")
    requires id in w.deregistered ==> r.fate == Deleted
    requires forall n :: n in w.mappings && n in w.profile && w.mappings[n].Id() == id && id != "" ==>
               id in w.runtimes && r == w.runtimes[id].(fate := Deleted) && n !in w.kymas
    ensures LedgerOk(w.(runtimes := w.runtimes[id := r]))
  {
    var w' := w.(runtimes := w.runtimes[id := r]);
    forall n | n in w'.mappings && n in w'.profile && !w'.dry && w'.mappings[n].Id() != "" ensures RuntimeOk(w', n) {
      assert RuntimeOk(w, n);
    }
    forall i | i in w'.runtimes ensures ClaimOk(w', i) {
      assert i != id ==> ClaimOk(w, i);
    }
  }

  lemma FateChangeKeepsHistory(w: World, id: string, r: Runtime)
    requires HistoryOk(w)
    requires forall t :: (id, t) in w.deregistrations ==> r.tenant == t && r.fate == Deleted
    ensures HistoryOk(w.(runtimes := w.runtimes[id := r]))
  {
    var w' := w.(runtimes := w.runtimes[id := r]);
    forall i, t | (i, t) in w'.deregistrations ensures DeregistrationOk(w', i, t) {
      assert DeregistrationOk(w, i, t);
    }
  }

  lemma FateChangeKeepsInv(w: World, id: string, r: Runtime)
    requires Inv(w) && !w.dry && r.fate != Claimed && (r.fate == Returned ==> id != "")
    requires id in w.deregistered ==> r.fate == Deleted
    requires forall n :: n in w.mappings && n in w.profile && w.mappings[n].Id() == id && id != "" ==>
               id in w.runtimes && r == w.runtimes[id].(fate := Deleted) && n !in w.kymas
    requires forall t :: (id, t) in w.deregistrations ==> r.tenant == t && r.fate == Deleted
    ensures Inv(w.(runtimes := w.runtimes[id := r]))
  {
    FateChangeKeepsLedger(w, id, r);
    FateChangeKeepsHistory(w, id, r);
    ConfigureFrame(w, w.(runtimes := w.runtimes[id := r]));
  }

  /** Which mappings and deregistrations can refer to a runtime, by its fate. */
  lemma ReferencesTo(w: World, id: string)
    requires LedgerOk(w) && HistoryOk(w) && !w.dry
    ensures id !in w.runtimes || w.runtimes[id].fate in {Unacknowledged, Returned} ==>
              && id !in w.deregistered
              && (forall n :: n in w.mappings && n in w.profile && id != "" ==> w.mappings[n].Id() != id)
              && (forall t :: (id, t) !in w.deregistrations)
    ensures id in w.runtimes && w.runtimes[id].fate == Claimed ==>
              forall n :: n in w.mappings && n in w.profile && w.mappings[n].Id() == id ==> n == w.runtimes[id].owner
  {
    forall n | n in w.mappings && n in w.profile && w.mappings[n].Id() == id && id != "" ensures RuntimeOk(w, n) {}
    forall t | (id, t) in w.deregistrations ensures DeregistrationOk(w, id, t) {}
    assert id in w.runtimes ==> ClaimOk(w, id);
  }

  lemma DeleteRuntimeKeepsInv(w: World, id: string, tenant: string)
    requires Inv(w) && (id, tenant) in w.deregistrations && w.Live(id, tenant)
    ensures Inv(w.(runtimes := SetFate(w.runtimes, id, Deleted)))
  {
    assert DeregistrationOk(w, id, tenant);
    ReferencesTo(w, id);
    forall t | (id, t) in w.deregistrations ensures t == tenant {
      assert DeregistrationOk(w, id, t);
    }
    assert ClaimOk(w, id);
    FateChangeKeepsInv(w, id, w.runtimes[id].(fate := Deleted));
  }

  lemma CallDeregisterKeepsInv(w: World, name: string, id: string, tenant: string)
    requires Inv(w) && Enabled(w, CallDeregister(name, id, tenant))
    ensures Inv(w.(deregistrations := w.deregistrations + {(id, tenant)}))
  {
    var w' := w.(deregistrations := w.deregistrations + {(id, tenant)});
    StoredObjectIsSafe(w, name);
    assert RuntimeOk(w, name);
    CallDeregisterKeepsHistory(w, id, tenant);
    LedgerFrame(w, w');
    ConfigureFrame(w, w');
  }

  lemma CallDeregisterKeepsHistory(w: World, id: string, tenant: string)
    requires HistoryOk(w) && DeregistrationOk(w, id, tenant)
    ensures HistoryOk(w.(deregistrations := w.deregistrations + {(id, tenant)}))
  {
    var w' := w.(deregistrations := w.deregistrations + {(id, tenant)});
    forall i, t | (i, t) in w'.deregistrations ensures DeregistrationOk(w', i, t) {
      assert DeregistrationOk(w, i, t);
    }
  }

  lemma ConfirmKeepsInv(w: World, id: string, tenant: string)
    requires Inv(w) && (id, tenant) in w.deregistrations && !w.Live(id, tenant)
    ensures Inv(w.(deregistered := w.deregistered + {id}))
  {
    assert DeregistrationOk(w, id, tenant);
    ConfirmKeepsLedger(w, id);
    ConfirmKeepsHistory(w, id);
    ConfigureFrame(w, w.(deregistered := w.deregistered + {id}));
  }

  lemma ConfirmKeepsLedger(w: World, id: string)
    requires LedgerOk(w) && id in w.runtimes && w.runtimes[id].fate == Deleted
    ensures LedgerOk(w.(deregistered := w.deregistered + {id}))
  {
    var w' := w.(deregistered := w.deregistered + {id});
    forall n | n in w'.mappings && n in w'.profile && !w'.dry && w'.mappings[n].Id() != "" ensures RuntimeOk(w', n) {
      assert RuntimeOk(w, n);
    }
    forall i | i in w'.runtimes ensures ClaimOk(w', i) {
      assert ClaimOk(w, i);
    }
  }

  lemma ConfirmKeepsHistory(w: World, id: string)
    requires HistoryOk(w)
    ensures HistoryOk(w.(deregistered := w.deregistered + {id}))
  {
    var w' := w.(deregistered := w.deregistered + {id});
    forall i, t | (i, t) in w'.deregistrations ensures DeregistrationOk(w', i, t) {
      assert DeregistrationOk(w, i, t);
    }
  }

  /** A runtime that no mapping can know yet is created or acknowledged. */
  lemma NewRuntimeKeepsInv(w: World, id: string, r: Runtime)
    requires Inv(w) && !w.dry && r.fate in {Unacknowledged, Returned} && (r.fate == Returned ==> id != "")
    requires id !in w.runtimes || w.runtimes[id].fate == Unacknowledged
    ensures Inv(w.(runtimes := w.runtimes[id := r]))
  {
    ReferencesTo(w, id);
    FateChangeKeepsInv(w, id, r);
  }

  lemma FinishKeepsInv(w: World, n: string, call: ConfigureCall)
    requires Inv(w) && w.StageAt(n) != Ready && CallOk(call, w.dry, w.pattern)
    ensures Inv(w.(lastConfigure := w.lastConfigure[n := call]))
  {
    var w' := w.(lastConfigure := w.lastConfigure[n := call]);
    LedgerFrame(w, w');
    HistoryFrame(w, w');
    FinishKeepsConfigure(w, n, call);
  }

  lemma FinishKeepsConfigure(w: World, n: string, call: ConfigureCall)
    requires ConfigureOk(w) && w.StageAt(n) != Ready && CallOk(call, w.dry, w.pattern)
    ensures ConfigureOk(w.(lastConfigure := w.lastConfigure[n := call]))
  {
    var w' := w.(lastConfigure := w.lastConfigure[n := call]);
    forall k | k in w'.mappings && StageOf(w'.mappings[k]) == Ready ensures ConfigureEnded(w', k, true) {
      assert ConfigureEnded(w, k, true);
    }
  }

  // ----- Every step keeps the invariant -----

  lemma ForeignStep(w: World, a: Action)
    requires a.KubeconfigChanges? || a.AgentSecretChanges? || a.WriteAgentSecret? || a.FetchToken? || a.CallRegister?
             || a.CallFails?
    ensures Apply(w, a) == w.(kubeconfigs := KubeconfigsAfter(w, a), agents := AgentsAfter(w, a),
            fetched := FetchedAfter(w, a), outdated := OutdatedAfter(w, a))
  {}

  lemma StoringStep(w: World, a: Action)
    requires a.DeletionRequested? || a.DeleteMapping? || a.FinalizersChanged? || a.CreateMapping? || a.UpdateStatus?
    requires a.CreateMapping? || a.name in w.mappings
    ensures Stored(w, a).Some? && Apply(w, a) == Store(w, Stored(w, a).value)
  {}

  lemma UpdatingStep(w: World, n: string, labels: MappingLabels, finalizers: seq<Finalizer>)
    requires n in w.mappings
    ensures var a := UpdateMapping(n, labels, finalizers);
            Apply(w, a) == Store(w, w.mappings[n].(labels := labels,
              finalizers := finalizers)).(runtimes := RuntimesAfter(w, a))
  {}

  lemma DirectorStep(w: World, a: Action)
    requires a.ToDirector() && !a.FetchToken?
    ensures a.CallDeregister? ==> Apply(w, a) == w.(deregistrations := w.deregistrations + {(a.id, a.tenant)})
    ensures a.ConfirmDeregister? ==> Apply(w, a) == w.(deregistered := w.deregistered + {a.id})
    ensures !a.CallDeregister? && !a.ConfirmDeregister? ==> Apply(w, a) == w.(runtimes := RuntimesAfter(w, a))
  {}

  lemma FinishingStep(w: World, a: Action)
    requires a.FinishConfigure?
    ensures Apply(w, a) == w.(lastConfigure := w.lastConfigure[a.name := CallsAfter(w, a)[a.name]])
  {}

  lemma KymaStep(w: World, a: Action)
    requires a.KymaAppears? || a.KymaDisappears?
    ensures Apply(w, a) == w.(kymas := KymasAfter(w, a))
  {}

  /** What an action stores goes under the action's own name, with the id that was there if any. */
  lemma StoredKeepsId(w: World, a: Action)
    requires MappingsOk(w) && Enabled(w, a)
    ensures var stored := Stored(w, a);
            stored.Some? ==>
              && stored.value.name == a.name
              && (a.name in w.mappings && w.mappings[a.name].Id() != "" ==>
                stored.value.Id() == w.mappings[a.name].Id())
  {
    hide LabelsFor;
    hide StatusAllowed;
  }

  lemma EnvironmentKeepsInv(w: World, a: Action)
    requires Inv(w) && Enabled(w, a) && (a.FromEnvironment() || a.DeleteMapping?)
    ensures Inv(Apply(w, a))
  {
    hide LabelsFor;
    hide CutAllowed;
    hide IsUuid;
    hide Apply;
    if a.KymaAppears? || a.KymaDisappears? {
      KymaStep(w, a);
      KymaChangeKeepsInv(w, Apply(w, a));
    } else if a.KubeconfigChanges? || a.AgentSecretChanges? {
      ForeignStep(w, a);
      ForeignChangeKeepsInv(w, Apply(w, a));
    } else {
      StoredObjectIsSafe(w, a.name);
      StoringStep(w, a);
      TouchKeepsInv(w, a.name, Stored(w, a).value);
    }
  }

  lemma UpdateKeepsInv(w: World, n: string, labels: MappingLabels, finalizers: seq<Finalizer>)
    requires Inv(w) && Enabled(w, UpdateMapping(n, labels, finalizers))
    ensures Inv(Apply(w, UpdateMapping(n, labels, finalizers)))
  {
    StoredObjectIsSafe(w, n);
    UpdatingStep(w, n, labels, finalizers);
    if AttachAllowed(w, w.mappings[n], labels, finalizers) {
      AttachKeepsInv(w, n, labels);
    } else {
      CutKeepsInv(w, n);
      CurrentIdIsNotReturned(w, n);
    }
  }

  lemma RegistrationKeepsInv(w: World, a: Action)
    requires Inv(w) && Enabled(w, a) && (a.CreateRuntime? || a.ReturnRuntime?)
    ensures Inv(Apply(w, a))
  {
    DirectorStep(w, a);
    NewRuntimeKeepsInv(w, a.id, Runtime(a.name, a.tenant, if a.CreateRuntime? then Unacknowledged else Returned));
  }

  lemma DeregistrationKeepsInv(w: World, a: Action)
    requires Inv(w) && Enabled(w, a) && (a.CallDeregister? || a.DeleteRuntime? || a.ConfirmDeregister?)
    ensures Inv(Apply(w, a))
  {
    DirectorStep(w, a);
    if a.CallDeregister? {
      CallDeregisterKeepsInv(w, a.name, a.id, a.tenant);
    } else if a.DeleteRuntime? {
      DeleteRuntimeKeepsInv(w, a.id, a.tenant);
    } else {
      ConfirmKeepsInv(w, a.id, a.tenant);
    }
  }

  lemma ApiCallKeepsInv(w: World, a: Action)
    requires Inv(w) && Enabled(w, a)
    requires a.CreateMapping? || a.UpdateMapping? || a.UpdateStatus?
    ensures Inv(Apply(w, a))
  {
    match a
    case UpdateMapping(n, labels, finalizers) => UpdateKeepsInv(w, n, labels, finalizers);
    case CreateMapping(n, _) =>
      StoringStep(w, a);
      CreateKeepsInv(w, n);
    case UpdateStatus(n, status) =>
      StoringStep(w, a);
      StatusKeepsInv(w, n, status);
  }

  lemma AgentCallKeepsInv(w: World, a: Action)
    requires Inv(w) && Enabled(w, a)
    requires a.CallRegister? || a.FetchToken? || a.WriteAgentSecret? || a.CallFails? || a.FinishConfigure?
    ensures Inv(Apply(w, a))
  {
    hide Apply;
    if !a.FinishConfigure? {
      ForeignStep(w, a);
      ForeignChangeKeepsInv(w, Apply(w, a));
    } else {
      FinishingStep(w, a);
      FinishKeepsInv(w, a.name, CallsAfter(w, a)[a.name]);
    }
  }

  /** Every step that the protocol permits keeps the invariant. */
  lemma StepKeepsInv(w: World, a: Action)
    requires Inv(w) && Enabled(w, a)
    ensures Inv(Apply(w, a))
  {
    if a.CreateMapping? || a.UpdateMapping? || a.UpdateStatus? {
      ApiCallKeepsInv(w, a);
    } else if a.CreateRuntime? || a.ReturnRuntime? {
      RegistrationKeepsInv(w, a);
    } else if a.CallDeregister? || a.DeleteRuntime? || a.ConfirmDeregister? {
      DeregistrationKeepsInv(w, a);
    } else if a.CallRegister? || a.FetchToken? || a.WriteAgentSecret? || a.CallFails? || a.FinishConfigure? {
      AgentCallKeepsInv(w, a);
    } else {
      EnvironmentKeepsInv(w, a);
    }
  }

  lemma {:induction false} ReachableStatesSatisfyInv(init: World, log: seq<Action>)
    requires Init(init) && Legal(init, log)
    ensures Inv(After(init, log))
  {
    if log != [] {
      var before := log[..|log| - 1];
      ReachableStatesSatisfyInv(init, before);
      StepKeepsInv(After(init, before), log[|log| - 1]);
    }
  }
}
