/** What the invariant means for whole runs: statements about every log of actions that is legal from
    an initial world, so about every interleaving, every failure and every crash. */
module Runs {
  import opened Wrappers
  import opened StatusCode
  import opened Worlds
  import opened Protocol

  ghost predicate Reachable(init: World, log: seq<Action>) {
    Init(init) && Legal(init, log)
  }

  /** The action that ends a non-empty log, with the world before it. */
  lemma LastStep(init: World, log: seq<Action>) returns (before: seq<Action>, w: World, a: Action)
    requires Reachable(init, log) && log != []
    ensures before == log[..|log| - 1] && a == log[|log| - 1] && log == before + [a]
    ensures Reachable(init, before) && w == After(init, before)
    ensures Enabled(w, a) && After(init, log) == Apply(w, a)
  {
    before, w, a := log[..|log| - 1], After(init, log[..|log| - 1]), log[|log| - 1];
  }

  /** The step at position i of a log. */
  lemma StepAt(init: World, log: seq<Action>, i: nat) returns (w: World, a: Action)
    requires Reachable(init, log) && i < |log|
    ensures w == After(init, log[..i]) && a == log[i] && After(init, log[..i + 1]) == Apply(w, a)
    ensures Reachable(init, log[..i]) && Enabled(w, a)
    ensures MappingsOk(w) && LedgerOk(w)
  {
    RunStep(init, log, i);
    ReachableStatesSatisfyInv(init, log[..i]);
    w, a := After(init, log[..i]), log[i];
  }

  // ----- What the controller did outside the control plane -----

  /** The outbound steps of a log, in order. */
  ghost function Deeds(log: seq<Action>): seq<Action> {
    if log == [] then []
    else
      var last := log[|log| - 1];
      if last.Outbound() then Deeds(log[..|log| - 1]) + [last] else Deeds(log[..|log| - 1])
  }

  lemma DeedsStep(log: seq<Action>, a: Action)
    ensures Deeds(log + [a]) == if a.Outbound() then Deeds(log) + [a] else Deeds(log)
  {
    assert (log + [a])[..|log|] == log;
  }

  lemma {:induction false} DeedsOfSum(log: seq<Action>, more: seq<Action>)
    ensures Deeds(log + more) == Deeds(log) + Deeds(more)
    decreases |more|
  {
    if more == [] {
      assert log + more == log;
    } else {
      var front, last := more[..|more| - 1], more[|more| - 1];
      assert log + more == (log + front) + [last] && more == front + [last];
      DeedsOfSum(log, front);
      DeedsStep(log + front, last);
      DeedsStep(front, last);
    }
  }

  /** Exactly the outbound steps of the log are its deeds. */
  lemma {:induction false} DeedsAreLogged(log: seq<Action>, a: Action)
    ensures a in Deeds(log) <==> a in log && a.Outbound()
  {
    if log != [] {
      var before, last := log[..|log| - 1], log[|log| - 1];
      assert log == before + [last];
      DeedsAreLogged(before, a);
    }
  }

  /** What was added to the deeds is what the added part of the log has. */
  lemma {:induction false} SegmentDeeds(before: seq<Action>, log: seq<Action>, acts: seq<Action>)
    requires before <= log && Deeds(log) == Deeds(before) + acts
    ensures Deeds(log[|before|..]) == acts
  {
    DeedsOfSum(before, log[|before|..]);
    assert before + log[|before|..] == log;
    assert Deeds(log[|before|..]) == Deeds(log)[|Deeds(before)|..] == acts;
  }

  // ----- Failed calls -----

  /** The number of calls of the controller that failed. */
  ghost function Failures(log: seq<Action>): nat {
    if log == [] then 0
    else Failures(log[..|log| - 1]) + if log[|log| - 1].CallFails? then 1 else 0
  }

  lemma FailuresStep(log: seq<Action>, a: Action)
    ensures Failures(log + [a]) == Failures(log) + if a.CallFails? then 1 else 0
  {
    assert (log + [a])[..|log|] == log;
  }

  /** No call fails. */
  ghost predicate Smooth(log: seq<Action>) {
    forall a :: a in log ==> !a.CallFails?
  }

  lemma {:induction false} FailuresOfSum(log: seq<Action>, more: seq<Action>)
    ensures Failures(log + more) == Failures(log) + Failures(more)
    decreases |more|
  {
    if more == [] {
      assert log + more == log;
    } else {
      var front, last := more[..|more| - 1], more[|more| - 1];
      assert log + more == (log + front) + [last];
      FailuresOfSum(log, front);
      FailuresStep(log + front, last);
    }
  }

  lemma {:induction false} SmoothExactly(log: seq<Action>)
    ensures Smooth(log) <==> Failures(log) == 0
  {
    if log != [] {
      var front, last := log[..|log| - 1], log[|log| - 1];
      SmoothExactly(front);
      assert log == front + [last];
    }
  }

  /** A call of one of these kinds failed since position `from`. */
  ghost predicate FailsIn(log: seq<Action>, from: nat, kinds: set<CallKind>) {
    exists i :: from <= i < |log| && log[i].CallFails? && log[i].kind in kinds
  }

  lemma {:induction false} FailsLater(log: seq<Action>, from: nat, kinds: set<CallKind>, log': seq<Action>, from': nat,
          kinds': set<CallKind>)
    requires FailsIn(log, from, kinds) && log <= log' && from' <= from && kinds <= kinds'
    ensures FailsIn(log', from', kinds')
  {
    var i :| from <= i < |log| && log[i].CallFails? && log[i].kind in kinds;
    assert log'[i] == log[i];
  }

  /** What a moment of a run has in store, unknown to the controller: whether a call made then can fail, and
      the id that the Director would give to a new runtime. */
  datatype Luck = Luck(mishap: bool, id: string)

  ghost predicate Decreed(luck: Luck, a: Action) {
    a.CallFails? ==> if a.offered == None then luck.mishap else a.offered == Some(luck.id)
  }

  /** Calls fail only at the moments when they can. */
  ghost predicate Fated(log: seq<Action>, luck: nat -> Luck) {
    forall i :: 0 <= i < |log| ==> Decreed(luck(i), log[i])
  }

  /** The log is a legal run that leads to this world; these are its deeds, so many calls failed, and only
      where they could. */
  ghost predicate Recorded(init: World, log: seq<Action>, luck: nat -> Luck, w: World, deeds: seq<Action>,
          faults: nat)
  {
    && Reachable(init, log) && w == After(init, log)
    && deeds == Deeds(log) && faults == Failures(log) && Fated(log, luck)
  }

  // ----- Conservation of Director runtimes -----

  ghost function Live(w: World, name: string): set<string> {
    set id | id in w.runtimes && w.runtimes[id].owner == name && w.runtimes[id].fate != Deleted
  }

  /** Runtimes that no mapping refers to: their creation was never acknowledged to the controller,
      or it was and the id never reached the mapping. */
  ghost function Orphans(w: World, name: string): set<string> {
    set id | id in w.runtimes && w.runtimes[id].owner == name && w.runtimes[id].fate in {Unacknowledged, Returned}
  }

  /** The mapping's id label, while the runtime behind it is not deregistered. */
  ghost function Labelled(w: World, name: string): set<string> {
    if name in w.mappings && name in w.profile && w.Live(w.mappings[name].Id(), w.Account(name))
      && w.mappings[name].Id() != ""
    then {w.mappings[name].Id()} else {}
  }

  /** In every reachable state of a real run the live runtimes of a Kyma are its labelled one plus a
      disjoint set of orphans; so without orphans at most one is live, and none without a mapping.
      While the Kyma exists, the runtime that its mapping names is alive. */
  lemma RuntimesAreConserved(init: World, log: seq<Action>, name: string)
    requires Reachable(init, log) && !After(init, log).dry
    ensures var w := After(init, log);
            && Live(w, name) == Labelled(w, name) + Orphans(w, name)
            && Labelled(w, name) !! Orphans(w, name)
            && (Orphans(w, name) == {} ==> |Live(w, name)| <= 1)
            && (name !in w.mappings ==> Live(w, name) == Orphans(w, name))
            && (name in w.kymas && name in w.mappings && w.mappings[name].Id() != "" ==>
                  w.mappings[name].Id() in Live(w, name))
  {
    ReachableStatesSatisfyInv(init, log);
    LedgerBalances(After(init, log), name);
  }

  lemma LedgerBalances(w: World, name: string)
    requires Inv(w) && !w.dry
    ensures Live(w, name) == Labelled(w, name) + Orphans(w, name)
    ensures Labelled(w, name) !! Orphans(w, name)
    ensures name in w.kymas && name in w.mappings && w.mappings[name].Id() != "" ==>
              w.mappings[name].Id() in Live(w, name)
  {
    if name in w.mappings {
      StoredObjectIsSafe(w, name);
      assert w.mappings[name].Id() != "" ==> RuntimeOk(w, name);
    }
    forall id | id in Live(w, name) ensures id in Labelled(w, name) + Orphans(w, name) {
      assert ClaimOk(w, id);
    }
  }

  /** Does the log ever give the id to a mapping? */
  ghost predicate Attaches(log: seq<Action>, id: string) {
    exists i :: 0 <= i < |log| && log[i].UpdateMapping? && log[i].labels.compassId == Some(id)
  }

  lemma AttachesStep(before: seq<Action>, a: Action, id: string)
    ensures Attaches(before + [a], id) <==>
            Attaches(before, id) || (a.UpdateMapping? && a.labels.compassId == Some(id))
  {
    var log := before + [a];
    if a.UpdateMapping? && a.labels.compassId == Some(id) {
      assert log[|before|] == a;
    }
    if Attaches(before, id) {
      var i :| 0 <= i < |before| && before[i].UpdateMapping? && before[i].labels.compassId == Some(id);
      assert log[i] == before[i];
    }
  }

  /** Where a runtime's fate comes from: it was created for its owner and tenant; it is an orphan of
      the first kind exactly while no registration has returned it, and of the second kind only if
      no mapping was ever given its id. So a runtime is orphaned only by a create that took effect
      unacknowledged, or by a returned registration that never reached the mapping. */
  lemma {:induction false} FateIsLogged(init: World, log: seq<Action>, id: string)
    requires Reachable(init, log) && id in After(init, log).runtimes
    ensures var r := After(init, log).runtimes[id];
            && CreateRuntime(r.owner, id, r.tenant) in log
            && (r.fate == Unacknowledged <==> ReturnRuntime(r.owner, id, r.tenant) !in log)
            && (r.fate in {Unacknowledged, Returned} && id != "" ==> !Attaches(log, id))
            && (r.fate == Returned ==> id != "")
    decreases |log|
  {
    hide Apply;
    hide Enabled;
    hide Attaches;
    hide LedgerOk;
    var before, w, a := LastStep(init, log);
    AttachesStep(before, a, id);
    RuntimeOrigin(w, a, id);
    ReachableStatesSatisfyInv(init, before);
    if id in w.runtimes {
      FateIsLogged(init, before, id);
      FateStep(w, a, id);
      CurrentIdsAreSettled(w, a, id);
    } else {
      UnknownIdIsNotLogged(init, before, id);
      CurrentIdsAreSettled(w, a, id);
    }
  }

  lemma RuntimeOrigin(w: World, a: Action, id: string)
    ensures id !in w.runtimes && id in Apply(w, a).runtimes ==>
              && a == CreateRuntime(Apply(w, a).runtimes[id].owner, id, Apply(w, a).runtimes[id].tenant)
              && Apply(w, a).runtimes[id].fate == Unacknowledged
    ensures w.runtimes.Keys <= Apply(w, a).runtimes.Keys
  {}

  /** One step and one runtime that exists already. */
  lemma FateStep(w: World, a: Action, id: string)
    requires Enabled(w, a) && id in w.runtimes && id in Apply(w, a).runtimes
    requires a.DeleteRuntime? ==> DeregistrationOk(w, a.id, a.tenant)
    ensures var r, r' := w.runtimes[id], Apply(w, a).runtimes[id];
            && r' == r.(fate := r'.fate)
            && (a == ReturnRuntime(r.owner, id, r.tenant) ==>
              r.fate == Unacknowledged && r'.fate == Returned && id != "")
            && (a != ReturnRuntime(r.owner, id, r.tenant) ==>
                  (r.fate == Unacknowledged <==> r'.fate == Unacknowledged)
                    && (r'.fate == Returned ==> r.fate == Returned))
            && (r.fate == Returned && a.UpdateMapping? && a.labels.compassId == Some(id) ==> r'.fate == Claimed)
  {}

  /** An update of a mapping writes the id that it has, or one that was just returned. */
  lemma CurrentIdsAreSettled(w: World, a: Action, id: string)
    requires LedgerOk(w) && MappingsOk(w) && HistoryOk(w) && Enabled(w, a)
    ensures a.UpdateMapping? && a.labels.compassId == Some(id) && id != "" && !w.dry ==>
              id in w.runtimes && w.runtimes[id].fate != Unacknowledged
    ensures a.DeleteRuntime? ==> DeregistrationOk(w, a.id, a.tenant)
    ensures w.dry ==> w.runtimes == map[]
  {
    if a.UpdateMapping? && !w.dry && !AttachAllowed(w, w.mappings[a.name], a.labels, a.finalizers) {
      CurrentIdIsNotReturned(w, a.name);
      assert w.mappings[a.name].Id() != "" && a.name in w.profile ==> RuntimeOk(w, a.name);
    }
  }

  lemma {:induction false} UnknownIdIsNotLogged(init: World, log: seq<Action>, id: string)
    requires Reachable(init, log) && id !in After(init, log).runtimes
    ensures forall n, t :: ReturnRuntime(n, id, t) !in log
    ensures id != "" && !After(init, log).dry ==> !Attaches(log, id)
    decreases |log|
  {
    if log != [] {
      var before, w, a := LastStep(init, log);
      RuntimeOrigin(w, a, id);
      AttachesStep(before, a, id);
      UnknownIdIsNotLogged(init, before, id);
      ReachableStatesSatisfyInv(init, before);
      CurrentIdsAreSettled(w, a, id);
    }
  }

  // ----- Deregistration: what precedes it, and what it precedes -----

  /** Every DeregisterFromCompass(id, tenant) of a run comes after a registration that returned this
      id for this tenant, and the Kyma it was registered for is gone at that moment. */
  lemma DeregistrationIsPaired(init: World, log: seq<Action>, i: nat)
    requires Reachable(init, log) && i < |log| && log[i].CallDeregister?
    ensures exists j :: 0 <= j < i && log[j] == ReturnRuntime(log[i].name, log[i].id, log[i].tenant)
    ensures log[i].name !in After(init, log[..i]).kymas
  {
    var w, a := StepAt(init, log, i);
    CalledForItsOwnRuntime(w, a);
    FateIsLogged(init, log[..i], a.id);
  }

  lemma CalledForItsOwnRuntime(w: World, a: Action)
    requires MappingsOk(w) && LedgerOk(w) && Enabled(w, a) && a.CallDeregister?
    ensures a.id in w.runtimes && a.name !in w.kymas
    ensures w.runtimes[a.id].owner == a.name && w.runtimes[a.id].tenant == a.tenant
    ensures w.runtimes[a.id].fate in {Claimed, Deleted}
  {
    assert MappingOk(w.mappings[a.name], a.name, w.profile[a.name], w.enabled, w.dry, a.name in w.kymas);
    assert RuntimeOk(w, a.name);
  }

  lemma {:induction false} DeregisteredIsLogged(init: World, log: seq<Action>, id: string)
    requires Reachable(init, log) && id in After(init, log).deregistered
    ensures exists i :: 0 <= i < |log| && log[i].ConfirmDeregister? && log[i].id == id
    decreases |log|
  {
    var before, w, a := LastStep(init, log);
    if id in w.deregistered {
      DeregisteredIsLogged(init, before, id);
      var i :| 0 <= i < |before| && before[i].ConfirmDeregister? && before[i].id == id;
      assert log[i] == before[i];
    }
  }

  /** A mapping disappears only when its id label is empty or that id was successfully deregistered
      earlier in the run; and then the runtime is gone from the Director. */
  lemma RemovedOnlyAfterDeregistration(init: World, log: seq<Action>, i: nat, name: string)
    requires Reachable(init, log) && i < |log| && !After(init, log[..i]).dry
    requires name in After(init, log[..i]).mappings && name !in After(init, log[..i + 1]).mappings
    ensures var id := After(init, log[..i]).mappings[name].Id();
            || id == ""
            || (&& (exists j :: 0 <= j < i && log[j].ConfirmDeregister? && log[j].id == id)
                && id in After(init, log[..i]).runtimes && After(init, log[..i]).runtimes[id].fate == Deleted)
  {
    var id := After(init, log[..i]).mappings[name].Id();
    VanishesDeregistered(init, log, i, name);
    if id != "" {
      DeregisteredIsLogged(init, log[..i], id);
      var j :| 0 <= j < i && log[..i][j].ConfirmDeregister? && log[..i][j].id == id;
      assert log[j] == log[..i][j];
    }
  }

  lemma VanishesDeregistered(init: World, log: seq<Action>, i: nat, name: string)
    requires Reachable(init, log) && i < |log| && !After(init, log[..i]).dry
    requires name in After(init, log[..i]).mappings && name !in After(init, log[..i + 1]).mappings
    ensures Reachable(init, log[..i])
    ensures var w := After(init, log[..i]); var id := w.mappings[name].Id();
            id == "" || (id in w.deregistered && id in w.runtimes && w.runtimes[id].fate == Deleted)
  {
    var w, a := StepAt(init, log, i);
    VanishingIsUnprotected(w, a, name);
  }

  /** A step removes a mapping only if it leaves no finalizer on it; cutting the protection itself
      requires the deregistration. */
  lemma VanishingIsUnprotected(w: World, a: Action, name: string)
    requires MappingsOk(w) && LedgerOk(w) && Enabled(w, a) && name in w.mappings && name !in Apply(w, a).mappings
    ensures name in w.profile
    ensures w.mappings[name].Id() == "" || w.dry || w.mappings[name].Id() in w.deregistered
    ensures forall id :: id in w.deregistered ==> id in w.runtimes && w.runtimes[id].fate == Deleted
  {
    hide Enabled;
    hide LabelsFor;
    hide RuntimesAfter;
    StoredKeepsId(w, a);
    assert name == a.name && Stored(w, a).value.finalizers == [];
    if w.mappings[name].Id() != "" && !w.dry {
      assert RuntimeOk(w, name);
      EmptyListIsUnprotected(w, a);
    }
  }

  lemma EmptyListIsUnprotected(w: World, a: Action)
    requires MappingsOk(w) && Enabled(w, a) && a.name in w.mappings
    requires Stored(w, a).Some? && Stored(w, a).value.finalizers == []
    ensures !w.mappings[a.name].Protected() || (a.UpdateMapping?
            && CutAllowed(w, w.mappings[a.name], a.labels, a.finalizers))
            || a.UpdateStatus?
  {}

  /** When deletion has finished, or only waits for the finalizers of others, no runtime of the Kyma is
      left but orphans. */
  lemma DismissedHasOnlyOrphans(init: World, log: seq<Action>, name: string)
    requires Reachable(init, log) && !After(init, log).dry
    requires name in After(init, log).mappings ==> !After(init, log).mappings[name].Protected()
    ensures Live(After(init, log), name) == Orphans(After(init, log), name)
  {
    RuntimesAreConserved(init, log, name);
    ReachableStatesSatisfyInv(init, log);
    var w := After(init, log);
    if name in w.mappings && w.mappings[name].Id() != "" {
      StoredObjectIsSafe(w, name);
      assert RuntimeOk(w, name);
    }
  }

  // ----- The id label is written once -----

  /** The id label of a Kyma's mapping, if there is a mapping. */
  ghost function IdIn(w: World, name: string): Option<string> {
    if name in w.mappings then Some(w.mappings[name].Id()) else None
  }

  ghost function IdHistory(init: World, log: seq<Action>, name: string): (ids: seq<Option<string>>)
    ensures |ids| == |log| + 1 && forall k :: 0 <= k <= |log| ==> ids[k] == IdIn(After(init, log[..k]), name)
  {
    seq(|log| + 1, k requires 0 <= k <= |log| => IdIn(After(init, log[..k]), name))
  }

  /** While a mapping exists its id label changes at most once, and then from the empty string. */
  lemma IdIsWriteOnce(init: World, log: seq<Action>, i: nat, j: nat, name: string)
    requires Reachable(init, log) && i <= j <= |log|
    requires var ids := IdHistory(init, log, name);
             ids[i] != Some("") && forall k :: i <= k <= j ==> ids[k] != None
    ensures IdHistory(init, log, name)[j] == IdHistory(init, log, name)[i]
  {
    var ids := IdHistory(init, log, name);
    forall k | 0 <= k < |log| ensures WriteOnceStep(ids[k], ids[k + 1]) {
      IdStep(init, log, k, name);
    }
    WriteOnce(ids, i, j);
  }

  ghost predicate WriteOnceStep(before: Option<string>, after: Option<string>) {
    before == None || before == Some("") || after == None || after == before
  }

  lemma {:induction false} WriteOnce(ids: seq<Option<string>>, i: nat, j: nat)
    requires i <= j < |ids| && ids[i] != Some("")
    requires forall k :: 0 <= k < |ids| - 1 ==> WriteOnceStep(ids[k], ids[k + 1])
    requires forall k :: i <= k <= j ==> ids[k] != None
    ensures ids[j] == ids[i]
    decreases j - i
  {
    if i < j {
      WriteOnce(ids, i, j - 1);
      assert WriteOnceStep(ids[j - 1], ids[j - 1 + 1]);
    }
  }

  lemma IdStep(init: World, log: seq<Action>, i: nat, name: string)
    requires Reachable(init, log) && i < |log|
    ensures WriteOnceStep(IdIn(After(init, log[..i]), name), IdIn(After(init, log[..i + 1]), name))
  {
    var w, a := StepAt(init, log, i);
    StoredKeepsId(w, a);
  }

  /** The id that a real run writes is a UUID which a registration of this very Kyma returned. */
  lemma IdIsRegistered(init: World, log: seq<Action>, name: string)
    requires Reachable(init, log) && !After(init, log).dry
    requires name in After(init, log).mappings && After(init, log).mappings[name].Id() != ""
    ensures name in init.profile && IsUuid(After(init, log).mappings[name].Id())
    ensures ReturnRuntime(name, After(init, log).mappings[name].Id(), init.Account(name)) in log
  {
    ReachableStatesSatisfyInv(init, log);
    ConstantsStay(init, log);
    var w := After(init, log);
    var id := w.mappings[name].Id();
    assert RuntimeOk(w, name);
    FateIsLogged(init, log, id);
    var i :| 0 <= i < |log| && log[i] == ReturnRuntime(name, id, init.Account(name));
    var v, a := StepAt(init, log, i);
  }

  // ----- Ready means configured -----

  /** The last Configure call for a Kyma in a log. */
  ghost predicate LastConfigure(log: seq<Action>, k: nat, name: string) {
    && k < |log| && log[k].FinishConfigure? && log[k].name == name
    && forall j :: k < j < |log| && log[j].FinishConfigure? ==> log[j].name != name
  }

  lemma {:induction false} CallIsLogged(init: World, log: seq<Action>, name: string) returns (k: nat)
    requires Reachable(init, log) && name in After(init, log).lastConfigure
    ensures LastConfigure(log, k, name)
    ensures var call := After(init, log).lastConfigure[name];
            && log[k].ok == call.ok && log[k].id == call.id && log[k].tenant == call.tenant
            && call.secret == (var w := After(init, log[..k]);
                               if log[k].kubeconfig in w.agents then Some(w.agents[log[k].kubeconfig]) else None)
    decreases |log|
  {
    hide Enabled;
    var before, w, a := LastStep(init, log);
    if a.FinishConfigure? && a.name == name {
      k := |log| - 1;
    } else {
      k := CallIsLogged(init, before, name);
      assert before[..k] == log[..k];
    }
  }

  /** The last answer to a token request for a Kyma in a log. */
  ghost predicate LastFetch(log: seq<Action>, j: nat, name: string) {
    && j < |log| && log[j].FetchToken? && log[j].name == name
    && forall i :: j < i < |log| && log[i].FetchToken? ==> log[i].name != name
  }

  lemma {:induction false} FetchIsLogged(init: World, log: seq<Action>, name: string) returns (j: nat)
    requires Reachable(init, log) && name in After(init, log).fetched
    ensures LastFetch(log, j, name)
    ensures var f := After(init, log).fetched[name]; log[j] == FetchToken(name, f.id, f.tenant, f.token)
    decreases |log|
  {
    var before, w, a := LastStep(init, log);
    if a.FetchToken? && a.name == name {
      j := |log| - 1;
    } else {
      j := FetchIsLogged(init, before, name);
    }
  }

  ghost predicate EndsWith(s: string, suffix: string) {
    exists prefix :: s == prefix + suffix
  }

  lemma {:induction false} SuffixIsEnd(s: string, suffix: string)
    ensures HasSuffix(s, suffix) <==> EndsWith(s, suffix)
  {
    if HasSuffix(s, suffix) {
      assert s == s[..|s| - |suffix|] + suffix;
    }
    if prefix :| s == prefix + suffix {
      assert s[|s| - |suffix|..] == suffix;
    }
  }

  /** What an agent secret holds is made of the last answer of the Director for this Kyma, of the id and the
      tenant that the request was for, and of nothing else. */
  ghost predicate MadeOf(log: seq<Action>, j: nat, name: string, secret: AgentSecret, pattern: string) {
    && LastFetch(log, j, name)
    && Carries(secret, log[j].id, log[j].tenant, log[j].token)
    && EndsWith(log[j].token.connectorUrl, pattern) && |log[j].token.token| <= 100
  }

  // ----- Which cluster is configured -----

  /** A kubeconfig that a Kyma has or has had was the data of its first kubeconfig secret at some moment. */
  lemma {:induction false} OfferedWasThere(init: World, log: seq<Action>, name: string, kubeconfig: string)
    returns (m: nat)
    requires Reachable(init, log) && Offers(After(init, log), name, kubeconfig)
    ensures m <= |log| && After(init, log[..m]).Kubeconfig(name) == kubeconfig
    decreases |log|
  {
    assert log[..|log|] == log;
    m := |log|;
    if kubeconfig != After(init, log).Kubeconfig(name) {
      var before, w, a := LastStep(init, log);
      OfferedBefore(w, a, name, kubeconfig);
      m := OfferedWasThere(init, before, name, kubeconfig);
      assert before[..m] == log[..m];
    }
  }

  lemma OfferedBefore(w: World, a: Action, name: string, kubeconfig: string)
    requires (name, kubeconfig) in Apply(w, a).outdated
    ensures Offers(w, name, kubeconfig)
  {}

  /** The environment leaves the kubeconfig of a steady Kyma as it was. */
  lemma {:induction false} SteadyKubeconfigStays(init: World, log: seq<Action>, name: string)
    requires Reachable(init, log) && name in init.steady
    ensures After(init, log).Kubeconfig(name) == init.Kubeconfig(name)
    decreases |log|
  {
    if log != [] {
      var before, w, a := LastStep(init, log);
      ConstantsStay(init, before);
      SteadyKubeconfigStays(init, before, name);
      SteadyKubeconfigStep(w, a, name);
    }
  }

  lemma SteadyKubeconfigStep(w: World, a: Action, name: string)
    requires Enabled(w, a) && name in w.steady
    ensures Apply(w, a).Kubeconfig(name) == w.Kubeconfig(name)
  {}

  /** Every write of an agent secret and every Configure call goes to a cluster of its own Kyma: the kubeconfig was
      the data of the Kyma's first kubeconfig secret before, and for a steady Kyma it is that from the beginning. */
  lemma OwnClusterIsConfigured(init: World, log: seq<Action>, k: nat) returns (m: nat)
    requires Reachable(init, log) && k < |log| && (log[k].WriteAgentSecret? || log[k].FinishConfigure?)
    ensures m <= k && After(init, log[..m]).Kubeconfig(log[k].name) == log[k].kubeconfig
    ensures log[k].name in init.steady ==> log[k].kubeconfig == init.Kubeconfig(log[k].name)
  {
    hide Apply;
    hide Enabled;
    hide LedgerOk;
    var w, a := StepAt(init, log, k);
    m := OfferedWasThere(init, log[..k], a.name, a.kubeconfig);
    assert log[..k][..m] == log[..m];
    if a.name in init.steady {
      LegalPrefix(init, log, m);
      SteadyKubeconfigStays(init, log[..m], a.name);
    }
  }

  /** Whenever a mapping is Ready, the last Configure call for its Kyma succeeded with the mapping's
      current id and the Kyma's global account, in a cluster of the Kyma. In a real run the agent secret there held
      exactly these at that moment, with the connector URL and the token of the Director's last answer for that Kyma,
      which was accepted. */
  lemma ReadyMeansConfigured(init: World, log: seq<Action>, name: string) returns (k: nat, j: nat, m: nat)
    requires Reachable(init, log) && After(init, log).StageAt(name) == Ready
    ensures LastConfigure(log, k, name) && log[k].ok
    ensures m <= k && log[k].kubeconfig == After(init, log[..m]).Kubeconfig(name)
    ensures name in init.steady ==> log[k].kubeconfig == init.Kubeconfig(name)
    ensures name in After(init, log).profile
    ensures log[k].id == After(init, log).mappings[name].Id() && log[k].tenant == After(init, log).Account(name)
    ensures !init.dry ==>
              var agents := After(init, log[..k]).agents;
              && log[k].kubeconfig in agents
              && MadeOf(log[..k], j, name, agents[log[k].kubeconfig], init.pattern)
              && log[j].id == log[k].id && log[j].tenant == log[k].tenant
  {
    ReachableStatesSatisfyInv(init, log);
    assert ConfigureEnded(After(init, log), name, true);
    k := CallIsLogged(init, log, name);
    m := OwnClusterIsConfigured(init, log, k);
    j := 0;
    if !init.dry {
      j := FinishIsFetched(init, log, k);
    }
  }

  lemma FinishIsFetched(init: World, log: seq<Action>, k: nat) returns (j: nat)
    requires Reachable(init, log) && k < |log| && log[k].FinishConfigure? && log[k].ok && !init.dry
    ensures var agents := After(init, log[..k]).agents;
            && log[k].kubeconfig in agents
            && MadeOf(log[..k], j, log[k].name, agents[log[k].kubeconfig], init.pattern)
            && log[j].id == log[k].id && log[j].tenant == log[k].tenant
  {
    var w, a := StepAt(init, log, k);
    ConstantsStay(init, log[..k]);
    j := FetchIsLogged(init, log[..k], a.name);
    SuffixIsEnd(log[j].token.connectorUrl, init.pattern);
  }

  // ----- Constants, dry runs, agent secrets -----

  lemma {:induction false} ConstantsStay(init: World, log: seq<Action>)
    ensures var w := After(init, log);
            && w.dry == init.dry && w.enabled == init.enabled && w.pattern == init.pattern
            && w.profile == init.profile && w.steady == init.steady
  {
    if log != [] {
      ConstantsStay(init, log[..|log| - 1]);
    }
  }

  /** A dry run never touches the Director or a client cluster. */
  lemma {:induction false} DryRunStaysInside(init: World, log: seq<Action>)
    requires Reachable(init, log) && init.dry
    ensures forall i :: 0 <= i < |log| ==> !log[i].ToDirector() && !log[i].WriteAgentSecret?
    ensures After(init, log).runtimes == map[] && After(init, log).deregistrations == {}
    decreases |log|
  {
    if log != [] {
      var before, w, a := LastStep(init, log);
      ConstantsStay(init, before);
      DryRunStaysInside(init, before);
    }
  }

  ghost function SecretAt(w: World, kubeconfig: string): Option<AgentSecret> {
    if kubeconfig in w.agents then Some(w.agents[kubeconfig]) else None
  }

  ghost predicate LastWrite(log: seq<Action>, k: nat, kubeconfig: string) {
    && k < |log| && log[k].WriteAgentSecret? && log[k].kubeconfig == kubeconfig
    && forall i :: k < i < |log| && log[i].WriteAgentSecret? ==> log[i].kubeconfig != kubeconfig
  }

  /** Whatever fails, an agent secret that nobody else touches still has its initial contents, and was never
      written, or it is as the last write left it. */
  lemma {:induction false} SecretIsLastWritten(init: World, log: seq<Action>, kubeconfig: string) returns (k: nat)
    requires Reachable(init, log)
    requires forall a :: a in log && a.AgentSecretChanges? ==> a.kubeconfig != kubeconfig
    ensures var secret := SecretAt(After(init, log), kubeconfig);
            if k == |log| then
              && secret == SecretAt(init, kubeconfig)
              && forall i :: 0 <= i < |log| && log[i].WriteAgentSecret? ==> log[i].kubeconfig != kubeconfig
            else LastWrite(log, k, kubeconfig) && secret == Some(log[k].secret)
    decreases |log|
  {
    k := 0;
    if log != [] {
      var before, w, a := LastStep(init, log);
      k := SecretIsLastWritten(init, before, kubeconfig);
      SecretStep(w, a, kubeconfig);
      if a.WriteAgentSecret? && a.kubeconfig == kubeconfig {
        k := |before|;
      } else if k == |before| {
        k := |log|;
      }
    }
  }

  lemma SecretStep(w: World, a: Action, kubeconfig: string)
    requires a.AgentSecretChanges? ==> a.kubeconfig != kubeconfig
    ensures SecretAt(Apply(w, a), kubeconfig) ==
            if a.WriteAgentSecret? && a.kubeconfig == kubeconfig then Some(a.secret) else SecretAt(w, kubeconfig)
  {}

  /** Every write of an agent secret puts the Director's last answer for the Kyma, which was accepted, with the
      mapping's current id and the Kyma's global account. */
  lemma WriteIsFetched(init: World, log: seq<Action>, k: nat) returns (j: nat)
    requires Reachable(init, log) && k < |log| && log[k].WriteAgentSecret?
    ensures MadeOf(log[..k], j, log[k].name, log[k].secret, init.pattern)
    ensures var w := After(init, log[..k]);
            && log[k].name in w.mappings && log[k].name in w.profile
            && log[j].id == w.mappings[log[k].name].Id() && log[j].tenant == w.Account(log[k].name)
  {
    hide MappingsOk;
    hide LedgerOk;
    var w, a := StepAt(init, log, k);
    ConstantsStay(init, log[..k]);
    j := FetchIsLogged(init, log[..k], a.name);
    SuffixIsEnd(log[j].token.connectorUrl, init.pattern);
  }

  /** The two together: over any run, an agent secret that others leave alone is the initial one, or exactly
      the four keys of the last answer that was fetched for its Kyma before it was written. */
  lemma AgentSecretsStayWhole(init: World, log: seq<Action>, kubeconfig: string) returns (k: nat, j: nat)
    requires Reachable(init, log)
    requires forall a :: a in log && a.AgentSecretChanges? ==> a.kubeconfig != kubeconfig
    ensures var secret := SecretAt(After(init, log), kubeconfig);
            || secret == SecretAt(init, kubeconfig)
            || (&& LastWrite(log, k, kubeconfig) && secret == Some(log[k].secret)
                && MadeOf(log[..k], j, log[k].name, log[k].secret, init.pattern))
  {
    k := SecretIsLastWritten(init, log, kubeconfig);
    j := 0;
    if k < |log| {
      j := WriteIsFetched(init, log, k);
    }
  }

  // ----- Every stored status is one of the protocol's -----

  /** Read back as a bit mask, a mapping's status is always Empty, Processing, Registered|Processing,
      Failed, Registered|Failed or Registered|Configured. Empty and Failed have no id; with
      registration enabled every Registered status has one; Configured holds exactly in state Ready. */
  lemma StatusesAreConsistent(init: World, log: seq<Action>, name: string)
    requires Reachable(init, log) && name in After(init, log).mappings
    ensures var m := After(init, log).mappings[name]; var status := Decode(m.status);
            && status in {EMPTY, PROCESSING, REGISTERED | PROCESSING, FAILED, REGISTERED | FAILED,
              REGISTERED | CONFIGURED}
            && (status == EMPTY || status == FAILED ==> m.Id() == "")
            && (init.enabled && status & REGISTERED != 0 ==> m.Id() != "")
            && (status & CONFIGURED != 0 <==> m.status.state == ReadyState)
  {
    ReachableStatesSatisfyInv(init, log);
    ConstantsStay(init, log);
    StoredObjectIsSafe(After(init, log), name);
  }

  /** In the same stage the mappings of two runs, a dry and a real one for instance, have the same status
      and the same labels but for the id and the dry-run mark. */
  lemma SameStageSameMapping(init1: World, log1: seq<Action>, init2: World, log2: seq<Action>, name: string)
    requires Reachable(init1, log1) && Reachable(init2, log2) && init1.profile == init2.profile
    requires name in After(init1, log1).mappings && name in After(init2, log2).mappings
    requires After(init1, log1).StageAt(name) == After(init2, log2).StageAt(name)
    ensures var m1, m2 := After(init1, log1).mappings[name], After(init2, log2).mappings[name];
            && m1.status == m2.status && m1.labels.dryRun == init1.dry && m2.labels.dryRun == init2.dry
            && m1.labels == m2.labels.(compassId := m1.labels.compassId, dryRun := m1.labels.dryRun)
  {
    LabelsOf(init1, log1, name);
    LabelsOf(init2, log2, name);
    StageFixesStatus(After(init1, log1).mappings[name], After(init2, log2).mappings[name]);
  }

  lemma LabelsOf(init: World, log: seq<Action>, name: string)
    requires Reachable(init, log) && name in After(init, log).mappings
    ensures var m := After(init, log).mappings[name];
            name in init.profile && m.labels == LabelsFor(init.profile[name], m.Id(), init.dry) && StageOf(m) != Broken
  {
    ReachableStatesSatisfyInv(init, log);
    ConstantsStay(init, log);
    StoredObjectIsSafe(After(init, log), name);
  }

  /** In every reachable state the labels of a mapping are those of its Kyma, each under its own key, and empty
      where the Kyma has no such label. */
  lemma LabelsAreTheKymas(init: World, log: seq<Action>, name: string)
    requires Reachable(init, log) && name in After(init, log).mappings
    ensures name in init.profile
    ensures var labels, kyma := After(init, log).mappings[name].labels, init.profile[name];
            && labels.kymaName == Some(name) && labels.compassId.Some?
            && labels.globalAccount == Some(if GlobalAccount in kyma then kyma[GlobalAccount] else "")
            && labels.subaccount == Some(if Subaccount in kyma then kyma[Subaccount] else "")
            && labels.managed && labels.dryRun == init.dry
  {
    LabelsOf(init, log, name);
    ReachableStatesSatisfyInv(init, log);
    ConstantsStay(init, log);
  }

  lemma StageFixesStatus(m1: Mapping, m2: Mapping)
    requires StageOf(m1) == StageOf(m2) != Broken
    ensures m1.status == m2.status
  {}
}
