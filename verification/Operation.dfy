/** Whole runs of the reconciler: any number of reconciliations of any Kymas in any order, with the
    environment interfering and calls failing throughout. */
module Operation {
  import opened Wrappers
  import opened Worlds
  import opened Protocol
  import opened Rely
  import opened Runs
  import opened PhaseMachine
  import opened Platform
  import opened Director
  import Registration
  import opened Reconciler

  /** The process starts in an initial world, with any luck: what every run begins with. */
  method Launch(w: World, luck: nat -> Luck, requeueTime: nat, requeueTimeForKubeconfig: nat)
    returns (manager: CompassManagerReconciler)
    requires Init(w)
    ensures manager.Valid() && fresh(manager) && fresh(manager.outside) && fresh(manager.client)
    ensures manager.outside.init == w && manager.outside.world == w && manager.outside.log == []
    ensures manager.outside.luck == luck
  {
    var outside := new Outside(w, luck);
    var client := new DirectorClient(outside);
    manager := new CompassManagerReconciler(outside, client, w.pattern, w.enabled, w.dry, requeueTime,
      requeueTimeForKubeconfig);
  }

  /** At some moment of the run since position `from` the Kyma was in stage `s`. */
  ghost predicate Passed(init: World, log: seq<Action>, from: nat, name: string, s: Stage) {
    exists m :: from <= m <= |log| && Protocol.After(init, log[..m]).StageAt(name) == s
  }

  /** A steady Kyma stays so, and only its own reconciliation changes its stage. */
  lemma SteadyStays(w: World, w': World, focus: string, name: string)
    requires Isolated(w, w', focus) && SteadyKyma(w, name)
    ensures SteadyKyma(w', name)
    ensures focus != name && Guarded(w, name) ==> w'.StageAt(name) == w.StageAt(name)
  {
    assert focus != name ==> LeftAlone(w, w', name);
  }

  lemma SteadyUnderEnv(w: World, w': World, name: string)
    requires EnvOnly(w, w') && SteadyKyma(w, name) && Guarded(w, name)
    ensures SteadyKyma(w', name) && w'.StageAt(name) == w.StageAt(name)
  {
    assert LeftAlone(w, w', name);
  }

  lemma SteppedIsMove(w: World, w': World, name: string, did: Ledger.Effects, failed: bool)
    requires Stepped(w, w', name, did, failed)
    ensures Move(w.enabled, w.StageAt(name), w'.StageAt(name), did.Calls(), failed)
    ensures RegisterCall !in did.Calls() ==> forall a :: a in did.deeds ==> !Registers(a)
  {}

  /** What the run did outside the control plane since it had the given length. */
  ghost function Since(outside: Outside, from: nat): seq<Action>
    requires from <= |outside.log|
    reads outside
  {
    Deeds(outside.log[from..])
  }

  /** One reconciliation of some Kyma, seen from a steady one. The calls are those in the log. */
  method Turn(manager: CompassManagerReconciler, key: string, name: string)
    returns (outcome: Outcome, ghost round: Round)
    requires manager.Valid() && SteadyKyma(manager.outside.world, name)
    modifies manager.client`token, manager.client`sent, manager.client.oauth, manager.outside`world, manager.outside`log
    modifies manager.outside`deeds, manager.outside`faults, manager.outside`focus, manager.outside`base
    ensures manager.Valid() && old(manager.outside.log) <= manager.outside.log
            && SteadyKyma(manager.outside.world, name)
    ensures key != name ==> manager.outside.world.StageAt(name) == old(manager.outside.world).StageAt(name)
    ensures key == name ==>
              && Move(manager.enabledRegistration, old(manager.outside.world).StageAt(name),
                   manager.outside.world.StageAt(name), round.calls, round.faulty)
              && (outcome.Done() <==> !round.faulty && manager.outside.world.StageAt(name) == Ready)
              && (round.faulty ==> !Smooth(manager.outside.log[|old(manager.outside.log)|..]))
              && (round.faulty ==> old(manager.outside.faults) < manager.outside.faults)
    ensures round.calls == CallsOf(Since(manager.outside, |old(manager.outside.log)|))
    ensures forall a :: a in Since(manager.outside, |old(manager.outside.log)|) ==> a.name == key
    ensures key == name && RegisterCall !in round.calls ==>
              forall a :: a in Since(manager.outside, |old(manager.outside.log)|) ==> !Registers(a)
    ensures old(manager.outside.faults) <= manager.outside.faults
  {
    hide Recorded;
    hide EnvOnly;
    hide Isolated;
    hide Stepped;
    hide SteadyKyma;
    hide Move;
    hide CallsOf;
    ghost var w := manager.outside.world;
    manager.outside.Here();
    Steady(manager, name);
    manager.outside.Interfere(false);
    ghost var w1 := manager.outside.world;
    SteadyUnderEnv(w, w1, name);
    Steady(manager, name);
    ghost var did, halted, gone;
    outcome, did, halted, gone := manager.Reconcile(key);
    round := Round(did.Calls(), halted);
    manager.outside.Here();
    SegmentDeeds(old(manager.outside.log), manager.outside.log, did.deeds);
    manager.outside.SmoothSince(old(manager.outside.log));
    SteadyStays(w1, manager.outside.world, key, name);
    if key == name {
      SteppedIsMove(w1, manager.outside.world, name, did, halted);
    }
  }

  lemma Steady(manager: CompassManagerReconciler, name: string)
    requires manager.Valid() && SteadyKyma(manager.outside.world, name)
    ensures Guarded(manager.outside.world, name) && name in manager.outside.world.kymas
    ensures manager.enabledRegistration == manager.outside.world.enabled
  {
    manager.KymaGuards(name);
    manager.outside.Constants();
  }

  /** The stages of a run with the positions in its log, not before `from`, at which they were. */
  ghost predicate Tracked(init: World, log: seq<Action>, from: nat, name: string, stages: seq<Stage>,
          positions: seq<nat>)
  {
    && |positions| == |stages|
    && forall i :: 0 <= i < |positions| ==>
         from <= positions[i] <= |log| && Protocol.After(init, log[..positions[i]]).StageAt(name) == stages[i]
  }

  lemma {:induction false} TrackedLater(init: World, log: seq<Action>, log': seq<Action>, from: nat, name: string,
          stages: seq<Stage>, positions: seq<nat>)
    requires Tracked(init, log, from, name, stages, positions) && from <= |log| && log <= log'
    ensures Tracked(init, log', from, name, stages, positions)
    ensures Tracked(init, log', from, name, stages + [Protocol.After(init, log').StageAt(name)], positions + [|log'|])
  {
    assert log'[..|log'|] == log';
    forall i | 0 <= i < |positions| ensures log'[..positions[i]] == log[..positions[i]] {}
  }

  lemma {:induction false} RunStarts(enabled: bool, init: World, log: seq<Action>, name: string)
    requires Protocol.After(init, log).StageAt(name) != Broken
    ensures var s := Protocol.After(init, log).StageAt(name);
            IsRun(enabled, [s], []) && Faults([]) == 0 && Tracked(init, log, |log|, name, [s], [|log|])
  {
    assert log[..|log|] == log;
  }

  lemma {:induction false} TrackedIsPassed(init: World, log: seq<Action>, from: nat, name: string,
          stages: seq<Stage>, positions: seq<nat>, s: Stage)
    requires Tracked(init, log, from, name, stages, positions) && s in stages
    ensures Passed(init, log, from, name, s)
  {
    var i :| 0 <= i < |stages| && stages[i] == s;
    assert from <= positions[i] <= |log|;
  }

  lemma RunGrows(enabled: bool, stages: seq<Stage>, rounds: seq<Round>, s: Stage, round: Round)
    requires IsRun(enabled, stages, rounds) && Move(enabled, stages[|rounds|], s, round.calls, round.faulty)
    ensures IsRun(enabled, stages + [s], rounds + [round])
    ensures Faults(rounds + [round]) == Faults(rounds) + if round.faulty then 1 else 0
  {
    assert (rounds + [round])[..|rounds|] == rounds;
  }

  /** Amortised convergence of the code: whatever is reconciled in between, a steady Kyma has been Ready as
      soon as it was reconciled its rank plus twice as often as one of its reconciliations was spoilt, each by a
      failed call in the log. From no mapping at all the rank is 5. */
  method Operate(manager: CompassManagerReconciler, name: string)
    returns (ghost stages: seq<Stage>, ghost rounds: seq<Round>, ghost positions: seq<nat>)
    requires manager.Valid() && SteadyKyma(manager.outside.world, name)
    modifies manager.client`token, manager.client`sent, manager.client.oauth, manager.outside`world, manager.outside`log
    modifies manager.outside`deeds, manager.outside`faults, manager.outside`focus, manager.outside`base
    ensures manager.Valid() && old(manager.outside.log) <= manager.outside.log
    ensures IsRun(manager.enabledRegistration, stages, rounds)
    ensures stages[0] == old(manager.outside.world).StageAt(name)
            && stages[|rounds|] == manager.outside.world.StageAt(name)
    ensures Tracked(manager.outside.init, manager.outside.log, |old(manager.outside.log)|, name, stages, positions)
    ensures Faults(rounds) <= Failures(manager.outside.log[|old(manager.outside.log)|..])
    ensures |rounds| >= Rank(manager.enabledRegistration, stages[0]) + 2 * Faults(rounds) ==>
              Passed(manager.outside.init, manager.outside.log, |old(manager.outside.log)|, name, Ready)
  {
    hide Recorded;
    hide SteadyKyma;
    hide Move;
    hide IsRun;
    hide Faults;
    hide Tracked;
    hide CallsOf;
    hide Deeds;
    hide Rank;
    hide Passed;
    var outside := manager.outside;
    ghost var from := |outside.log|;
    stages, rounds, positions := [outside.world.StageAt(name)], [], [|outside.log|];
    NotBroken(manager, name);
    outside.Here();
    RunStarts(manager.enabledRegistration, outside.init, outside.log, name);
    var turns: int := *;
    while turns > 0
      invariant manager.Valid() && old(outside.log) <= outside.log && SteadyKyma(outside.world, name)
      invariant IsRun(manager.enabledRegistration, stages, rounds) && |stages| == |rounds| + 1 == |positions|
      invariant stages[0] == old(outside.world).StageAt(name) && stages[|rounds|] == outside.world.StageAt(name)
      invariant Tracked(outside.init, outside.log, from, name, stages, positions)
      invariant Faults(rounds) <= outside.faults - old(outside.faults)
    {
      ghost var log := outside.log;
      var key: string := *;
      var outcome;
      ghost var round;
      outcome, round := Turn(manager, key, name);
      outside.Here();
      TrackedLater(outside.init, log, outside.log, from, name, stages, positions);
      if key == name {
        RunGrows(manager.enabledRegistration, stages, rounds, outside.world.StageAt(name), round);
        stages, rounds := stages + [outside.world.StageAt(name)], rounds + [round];
        positions := positions + [|outside.log|];
      }
      turns := turns - 1;
    }
    outside.SmoothSince(old(outside.log));
    if |rounds| >= Rank(manager.enabledRegistration, stages[0]) + 2 * Faults(rounds) {
      RunReachesReady(manager.enabledRegistration, stages, rounds);
      TrackedIsPassed(outside.init, outside.log, from, name, stages, positions, Ready);
    }
  }

  lemma NotBroken(manager: CompassManagerReconciler, name: string)
    requires manager.Valid() && SteadyKyma(manager.outside.world, name)
    ensures manager.outside.world.StageAt(name) != Broken
  {
    Steady(manager, name);
    if name in manager.outside.world.mappings {
      manager.IsTended(name);
    }
  }

  /** The number of fault-free reconciliations that lead into Ready; a Ready Kyma is configured anew. */
  function TurnsToReady(enabled: bool, s: Stage): (turns: nat)
    ensures turns >= 1
  {
    if s == Ready then 2 else Rank(enabled, s)
  }

  /** A fault-free reconciliation uses up one of the turns, and the last one is Ready. */
  lemma TurnIsUsed(enabled: bool, s: Stage, s': Stage, round: Round)
    requires Move(enabled, s, s', round.calls, round.faulty) && s != Broken
    ensures s' != Broken
    ensures !round.faulty ==> if s' == Ready then TurnsToReady(enabled, s) == 1
                              else TurnsToReady(enabled, s') == TurnsToReady(enabled, s) - 1
  {
    MoveChangesRank(enabled, s, s', round.calls, round.faulty);
  }

  /** The work queue for one steady Kyma: it is run again for as long as Reconcile asks for it, at most
      `limit` times. The queue is drained only when the Kyma is Ready, and without a failed call in the log it
      is drained after exactly TurnsToReady runs. */
  method Drain(manager: CompassManagerReconciler, name: string, limit: nat) returns (drained: bool, runs: nat)
    requires manager.Valid() && SteadyKyma(manager.outside.world, name)
    modifies manager.client`token, manager.client`sent, manager.client.oauth
    modifies manager.outside`world, manager.outside`log, manager.outside`deeds, manager.outside`faults
    modifies manager.outside`focus, manager.outside`base
    ensures manager.Valid() && old(manager.outside.log) <= manager.outside.log
    ensures drained ==> manager.outside.world.StageAt(name) == Ready
    ensures drained || runs == limit
    ensures Smooth(manager.outside.log[|old(manager.outside.log)|..]) ==>
              var turns := TurnsToReady(manager.enabledRegistration, old(manager.outside.world).StageAt(name));
              runs <= turns && (drained <==> runs == turns)
  {
    hide Recorded;
    hide SteadyKyma;
    hide Move;
    hide TurnsToReady;
    var outside := manager.outside;
    drained, runs := false, 0;
    outside.Here();
    NotBroken(manager, name);
    while !drained && runs < limit
      invariant manager.Valid() && old(outside.log) <= outside.log && SteadyKyma(outside.world, name)
      invariant old(outside.faults) <= outside.faults && outside.world.StageAt(name) != Broken && runs <= limit
      invariant drained ==> outside.world.StageAt(name) == Ready
      invariant old(outside.faults) == outside.faults ==>
                  runs + (if drained then 0 else TurnsToReady(manager.enabledRegistration, outside.world.StageAt(name)))
                  == TurnsToReady(manager.enabledRegistration, old(outside.world).StageAt(name))
      decreases limit - runs
    {
      ghost var before := outside.world.StageAt(name);
      var outcome;
      ghost var round;
      outcome, round := Turn(manager, name, name);
      TurnIsUsed(manager.enabledRegistration, before, outside.world.StageAt(name), round);
      drained, runs := outcome.Done(), runs + 1;
    }
    outside.SmoothSince(old(outside.log));
  }

  // ----- A trigger on a Ready Kyma -----

  /** Where the only Configure call of a part of the log is. */
  ghost predicate OnlyConfigure(log: seq<Action>, i: nat, name: string) {
    && i < |log| && log[i].FinishConfigure? && log[i].name == name
    && forall j :: 0 <= j < |log| && j != i ==>
         !log[j].FinishConfigure? && !log[j].CallRegister? && !log[j].CallDeregister?
  }

  lemma {:induction false} NoConfigure(log: seq<Action>)
    requires CallsOf(Deeds(log)) == []
    ensures forall j :: 0 <= j < |log| ==> !log[j].FinishConfigure? && !log[j].CallRegister? && !log[j].CallDeregister?
  {
    if log != [] {
      var front, last := log[..|log| - 1], log[|log| - 1];
      LastCall(front, last);
      assert log == front + [last];
      NoConfigure(front);
    }
  }

  lemma {:induction false} LastCall(front: seq<Action>, last: Action)
    ensures CallsOf(Deeds(front + [last])) == CallsOf(Deeds(front)) + CallOfStep(last)
  {
    DeedsStep(front, last);
    if last.Outbound() {
      CallsOfSum(Deeds(front), [last]);
      CallsOfOne(last);
    }
  }

  lemma {:induction false} OnlyLast(front: seq<Action>, last: Action)
    requires CallsOf(Deeds(front)) == [] && last.FinishConfigure?
    ensures OnlyConfigure(front + [last], |front|, last.name)
  {
    NoConfigure(front);
  }

  lemma {:induction false} OnlyBefore(front: seq<Action>, last: Action, i: nat, name: string)
    requires OnlyConfigure(front, i, name) && CallOfStep(last) == []
    ensures OnlyConfigure(front + [last], i, name)
  {}

  lemma {:induction false} LastDeed(front: seq<Action>, last: Action)
    ensures forall a :: a in Deeds(front) ==> a in Deeds(front + [last])
    ensures last.FinishConfigure? ==> last in Deeds(front + [last])
  {
    DeedsStep(front, last);
  }

  /** If there is one call, and it is a Configure call, it is the last step's or an earlier one. */
  lemma {:induction false} LastIsOnly(calls: seq<Call>, last: Action)
    requires |calls + CallOfStep(last)| == 1 && (calls + CallOfStep(last))[0].ConfigureCallOf?
    ensures if last.FinishConfigure? then calls == []
            else CallOfStep(last) == [] && |calls| == 1 && calls[0].ConfigureCallOf?
  {}

  lemma {:induction false} OneConfigure(log: seq<Action>, name: string) returns (i: nat)
    requires |CallsOf(Deeds(log))| == 1 && CallsOf(Deeds(log))[0].ConfigureCallOf?
    requires forall a :: a in Deeds(log) ==> a.name == name
    ensures OnlyConfigure(log, i, name)
  {
    assert log != [];
    hide Deeds;
    hide CallsOf;
    hide OnlyConfigure;
    hide CallOfStep;
    var front, last := log[..|log| - 1], log[|log| - 1];
    assert log == front + [last];
    LastCall(front, last);
    LastDeed(front, last);
    LastIsOnly(CallsOf(Deeds(front)), last);
    if last.FinishConfigure? {
      OnlyLast(front, last);
      i := |front|;
    } else {
      i := OneConfigure(front, name);
      OnlyBefore(front, last, i, name);
    }
  }

  /** A trigger on a Ready Kyma: two reconciliations later, if no call failed, it is Ready again. In between
      the log has exactly one Configure call, for this Kyma's id and account, no registration, and no step
      that creates a runtime or returns one. */
  method Refresh(manager: CompassManagerReconciler, name: string) returns (ghost i: nat)
    requires manager.Valid() && SteadyKyma(manager.outside.world, name) && manager.outside.world.StageAt(name) == Ready
    modifies manager.client`token, manager.client`sent, manager.client.oauth, manager.outside`world, manager.outside`log
    modifies manager.outside`deeds, manager.outside`faults, manager.outside`focus, manager.outside`base
    ensures manager.Valid() && old(manager.outside.log) <= manager.outside.log
    ensures var segment := manager.outside.log[|old(manager.outside.log)|..];
            Smooth(segment) ==>
              && manager.outside.world.StageAt(name) == Ready
              && OnlyConfigure(segment, i, name)
              && forall a :: a in segment ==> !Registers(a)
  {
    hide Isolated;
    hide Recorded;
    hide SteadyKyma;
    var outside := manager.outside;
    ghost var start, log0 := outside.world.StageAt(name), outside.log;
    outside.Here();
    var outcome1, outcome2;
    ghost var round1, round2;
    outcome1, round1 := Turn(manager, name, name);
    ghost var log1 := outside.log;
    outcome2, round2 := Turn(manager, name, name);
    ghost var log2 := outside.log;
    i := 0;
    outside.SmoothSince(old(outside.log));
    if outside.faults == old(outside.faults) {
      assert round1.calls == [] && |round2.calls| == 1 && round2.calls[0].ConfigureCallOf?;
      i := TwoSegments(log0, log1, log2, name, round2.calls[0]);
    }
  }

  lemma {:induction false} TwoSegments(log0: seq<Action>, log1: seq<Action>, log2: seq<Action>, name: string,
          call: Call)
    returns (i: nat)
    requires log0 <= log1 <= log2 && call.ConfigureCallOf?
    requires CallsOf(Deeds(log1[|log0|..])) == [] && CallsOf(Deeds(log2[|log1|..])) == [call]
    requires forall a :: a in Deeds(log1[|log0|..]) ==> !Registers(a) && a.name == name
    requires forall a :: a in Deeds(log2[|log1|..]) ==> !Registers(a) && a.name == name
    ensures OnlyConfigure(log2[|log0|..], i, name) && forall a :: a in log2[|log0|..] ==> !Registers(a)
  {
    var first, second, both := log1[|log0|..], log2[|log1|..], log2[|log0|..];
    assert both == first + second;
    DeedsOfSum(first, second);
    CallsOfSum(Deeds(first), Deeds(second));
    i := OneConfigure(both, name);
    forall a | a in both && Registers(a) ensures false {
      DeedsAreLogged(both, a);
    }
  }

  // ----- A dry run and a real run -----

  /** The two runs look the same in the control plane: the mappings exist alike, with the same status and the
      same labels but for the id and the dry-run mark. */
  ghost predicate LooksAlike(dry: World, actual: World, name: string) {
    && (name in dry.mappings <==> name in actual.mappings)
    && (name in dry.mappings ==>
          var m1, m2 := dry.mappings[name], actual.mappings[name];
          && m1.status == m2.status && m1.labels.dryRun && !m2.labels.dryRun
          && m1.labels == m2.labels.(compassId := m1.labels.compassId, dryRun := true))
  }

  /** They look alike at corresponding positions of their logs. */
  ghost predicate AlikeAt(init1: World, log1: seq<Action>, positions1: seq<nat>,
          init2: World, log2: seq<Action>, positions2: seq<nat>, name: string)
  {
    forall k :: 0 <= k < |positions1| && k < |positions2| ==>
      && positions1[k] <= |log1| && positions2[k] <= |log2|
      && LooksAlike(Protocol.After(init1, log1[..positions1[k]]), Protocol.After(init2, log2[..positions2[k]]), name)
  }

  /** The dry-run simulation: a dry and a real run of the same Kyma that start in the same stage, each without
      a failed reconciliation of it, look alike after every one of its reconciliations; and the dry one never
      reaches the Director or a client cluster. */
  lemma {:induction false} DryRunMirrors(enabled: bool, name: string,
          init1: World, log1: seq<Action>, from1: nat, stages1: seq<Stage>, rounds1: seq<Round>, positions1: seq<nat>,
          init2: World, log2: seq<Action>, from2: nat, stages2: seq<Stage>, rounds2: seq<Round>, positions2: seq<nat>)
    requires Reachable(init1, log1) && Reachable(init2, log2)
    requires init1.dry && !init2.dry && init1.profile == init2.profile
    requires IsRun(enabled, stages1, rounds1) && IsRun(enabled, stages2, rounds2)
    requires Faults(rounds1) == 0 && Faults(rounds2) == 0 && stages1[0] == stages2[0]
    requires Tracked(init1, log1, from1, name, stages1, positions1)
    requires Tracked(init2, log2, from2, name, stages2, positions2)
    ensures AlikeAt(init1, log1, positions1, init2, log2, positions2, name)
    ensures forall a :: a in log1 ==> !a.ToDirector() && !a.WriteAgentSecret?
  {
    forall k | 0 <= k < |positions1| && k < |positions2|
      ensures LooksAlike(Protocol.After(init1, log1[..positions1[k]]), Protocol.After(init2, log2[..positions2[k]]),
              name)
    {
      FaultFreeRunsAgree(enabled, stages1, rounds1, stages2, rounds2, k);
      ReachablePrefix(init1, log1, positions1[k]);
      ReachablePrefix(init2, log2, positions2[k]);
      AlikeInSameStage(init1, log1[..positions1[k]], init2, log2[..positions2[k]], name);
    }
    DryRunStaysInside(init1, log1);
  }

  lemma {:induction false} ReachablePrefix(init: World, log: seq<Action>, i: nat)
    requires Reachable(init, log) && i <= |log|
    ensures Reachable(init, log[..i])
  {
    LegalPrefix(init, log, i);
  }

  lemma {:induction false} AlikeInSameStage(init1: World, log1: seq<Action>, init2: World, log2: seq<Action>,
          name: string)
    requires Reachable(init1, log1) && Reachable(init2, log2)
    requires init1.dry && !init2.dry && init1.profile == init2.profile
    requires Protocol.After(init1, log1).StageAt(name) == Protocol.After(init2, log2).StageAt(name)
    ensures LooksAlike(Protocol.After(init1, log1), Protocol.After(init2, log2), name)
  {
    if name in Protocol.After(init1, log1).mappings && name in Protocol.After(init2, log2).mappings {
      SameStageSameMapping(init1, log1, init2, log2, name);
    }
  }

  /** A dry and a real manager, operated side by side: as long as no call fails, every reconciliation of the
      dry one shows what the real one does. */
  method Rehearse(dry: CompassManagerReconciler, actual: CompassManagerReconciler, name: string)
    returns (ghost dryPositions: seq<nat>, ghost realPositions: seq<nat>)
    requires dry.Valid() && actual.Valid() && dry.dryRun && !actual.dryRun
    requires dry.outside != actual.outside && dry.client != actual.client && dry.client.oauth != actual.client.oauth
    requires dry.outside.init.profile == actual.outside.init.profile
    requires dry.enabledRegistration == actual.enabledRegistration
    requires SteadyKyma(dry.outside.world, name) && SteadyKyma(actual.outside.world, name)
    requires dry.outside.world.StageAt(name) == actual.outside.world.StageAt(name)
    modifies dry.client`token, dry.client`sent, dry.client.oauth, dry.outside`world, dry.outside`log
    modifies dry.outside`deeds, dry.outside`faults, dry.outside`focus, dry.outside`base
    modifies actual.client`token, actual.client`sent, actual.client.oauth, actual.outside`world, actual.outside`log
    modifies actual.outside`deeds, actual.outside`faults, actual.outside`focus, actual.outside`base
    ensures dry.Valid() && actual.Valid()
    ensures old(dry.outside.log) <= dry.outside.log && old(actual.outside.log) <= actual.outside.log
    ensures Smooth(dry.outside.log[|old(dry.outside.log)|..])
            && Smooth(actual.outside.log[|old(actual.outside.log)|..]) ==>
              && AlikeAt(dry.outside.init, dry.outside.log, dryPositions,
                         actual.outside.init, actual.outside.log, realPositions, name)
              && forall a :: a in dry.outside.log ==> !a.ToDirector() && !a.WriteAgentSecret?
  {
    hide Isolated;
    hide Smooth;
    hide Recorded;
    hide IsRun;
    hide Faults;
    hide SteadyKyma;
    hide Tracked;
    hide AlikeAt;
    hide Rank;
    hide Passed;
    ghost var stages1, rounds1, stages2, rounds2;
    ghost var from1, from2 := |dry.outside.log|, |actual.outside.log|;
    stages1, rounds1, dryPositions := Operate(dry, name);
    stages2, rounds2, realPositions := Operate(actual, name);
    dry.outside.SmoothSince(old(dry.outside.log));
    actual.outside.SmoothSince(old(actual.outside.log));
    if Smooth(dry.outside.log[from1..]) && Smooth(actual.outside.log[from2..]) {
      dry.outside.Here();
      actual.outside.Here();
      DryRunMirrors(dry.enabledRegistration, name,
                    dry.outside.init, dry.outside.log, from1, stages1, rounds1, dryPositions,
                    actual.outside.init, actual.outside.log, from2, stages2, rounds2, realPositions);
    }
  }

  // ----- Deletion -----

  /** Deletion converges. If no call fails, two reconciliations are enough for a Kyma that does not exist in the
      meantime: its mapping is gone, or only waits for the finalizers of others, and no runtime is left but
      orphans. */
  method Retire(manager: CompassManagerReconciler, name: string) returns (outcome: Outcome)
    requires manager.Valid()
    modifies manager.client`token, manager.client`sent, manager.client.oauth, manager.outside`world, manager.outside`log
    modifies manager.outside`deeds, manager.outside`faults, manager.outside`focus, manager.outside`base
    ensures manager.Valid() && old(manager.outside.log) <= manager.outside.log
    ensures Smooth(manager.outside.log[|old(manager.outside.log)|..]) ==>
              || WasPresent(manager.outside.init, manager.outside.log, |old(manager.outside.log)|, name)
              || (&& outcome.Done() && ControlPlane.Dismissed(manager.outside.world, name)
                  && (!manager.dryRun ==> Live(manager.outside.world, name) == Orphans(manager.outside.world, name)))
  {
    hide Ledger.LedgerGrows;
    hide Ledger.Honest;
    hide WasGone;
    hide WasPresent;
    hide SteadyKyma;
    hide Lasting;
    hide MissesAccount;
    hide Recorded;
    hide Isolated;
    hide Stepped;
    hide EnvOnly;
    var outside := manager.outside;
    outside.Here();
    ghost var did, halted, first, second;
    outcome, did, halted, first := manager.Reconcile(name);
    ghost var log1 := outside.log;
    second := first;
    if !outcome.Done() {
      ghost var w := outside.world;
      outside.Interfere(false);
      NothingAppears(w, outside.world, name);
      ghost var log2 := outside.log;
      outcome, did, halted, second := manager.Reconcile(name);
      PresentLater(outside.init, outside.log, |log2|, outside.log, |old(outside.log)|, name);
    }
    PresentLater(outside.init, log1, |old(outside.log)|, outside.log, |old(outside.log)|, name);
    outside.SmoothSince(old(outside.log));
    if first && second && outside.faults == old(outside.faults) && !manager.dryRun {
      outside.Constants();
      outside.Here();
      DismissedHasOnlyOrphans(outside.init, outside.log, name);
    }
  }

  lemma {:induction false} PresentLater(init: World, log: seq<Action>, from: nat, log': seq<Action>, from': nat,
          name: string)
    requires log <= log' && from' <= from
    ensures WasPresent(init, log, from, name) ==> WasPresent(init, log', from', name)
  {
    if WasPresent(init, log, from, name) {
      var i :| from <= i <= |log| && name in Protocol.After(init, log[..i]).kymas;
      assert log'[..i] == log[..i];
    }
  }

  lemma NothingAppears(w: World, w': World, name: string)
    requires EnvOnly(w, w')
    ensures name in w'.mappings ==> name in w.mappings
  {
    assert LeftAlone(w, w', name);
  }

  // ----- A Kyma without kubeconfig -----

  /** A Kyma that is there to stay and has no kubeconfig is looked at again after the interval, and no error is
      returned, unless the Kyma itself can not be read. */
  method AwaitsKubeconfig(manager: CompassManagerReconciler, name: string) returns (outcome: Outcome)
    requires manager.Valid() && name in manager.outside.world.steady && name in manager.outside.world.kymas
    requires manager.outside.world.Kubeconfig(name) == ""
    modifies manager.client`token, manager.client`sent, manager.client.oauth, manager.outside`world, manager.outside`log
    modifies manager.outside`deeds, manager.outside`faults, manager.outside`focus, manager.outside`base
    ensures manager.Valid() && old(manager.outside.log) <= manager.outside.log
    ensures outcome == Outcome(After(manager.requeueTimeForKubeconfig), None)
            || FailsIn(manager.outside.log, |old(manager.outside.log)|, {KymaRead})
  {
    hide Recorded;
    hide Isolated;
    hide Had;
    hide FailsIn;
    hide Ledger.LedgerGrows;
    hide Stepped;
    hide EnvOnly;
    var outside := manager.outside;
    outside.Here();
    outside.Constants();
    SteadyKubeconfigStays(outside.init, outside.log, name);
    ghost var did, halted, gone;
    outcome, did, halted, gone := manager.Reconcile(name);
    outside.Here();
    forall kubeconfig | Had(outside.init, outside.log, |old(outside.log)|, name, kubeconfig) ensures kubeconfig == "" {
      SteadyHad(outside.init, outside.log, |old(outside.log)|, name, kubeconfig);
    }
  }

  lemma {:induction false} SteadyHad(init: World, log: seq<Action>, from: nat, name: string, kubeconfig: string)
    requires Reachable(init, log) && name in init.steady && Had(init, log, from, name, kubeconfig)
    ensures kubeconfig == init.Kubeconfig(name)
  {
    var i :| from <= i <= |log| && Protocol.After(init, log[..i]).Kubeconfig(name) == kubeconfig;
    ReachablePrefix(init, log, i);
    SteadyKubeconfigStays(init, log[..i], name);
  }

  // ----- A Kyma without global account -----

  /** If no call fails, the key of a Kyma that is there to stay is dropped without anything having been done for it
      exactly when the Kyma has no global account. */
  method QuietExactly(manager: CompassManagerReconciler, name: string) returns (outcome: Outcome)
    requires manager.Valid() && Lasting(manager.outside.world, name)
    modifies manager.client`token, manager.client`sent, manager.client.oauth, manager.outside`world, manager.outside`log
    modifies manager.outside`deeds, manager.outside`faults, manager.outside`focus, manager.outside`base
    ensures manager.Valid() && old(manager.outside.log) <= manager.outside.log
    ensures Smooth(manager.outside.log[|old(manager.outside.log)|..]) ==>
              (outcome.Done() && Since(manager.outside, |old(manager.outside.log)|) == [] <==>
               MissesAccount(old(manager.outside.world), name))
  {
    hide Ledger.LedgerGrows;
    hide Ledger.Honest;
    hide WasGone;
    hide WasPresent;
    hide Recorded;
    hide Isolated;
    hide Stepped;
    hide EnvOnly;
    var outside := manager.outside;
    ghost var w := outside.world;
    outside.Here();
    ghost var did, halted, gone;
    outcome, did, halted, gone := manager.Reconcile(name);
    outside.Here();
    SegmentDeeds(old(outside.log), outside.log, did.deeds);
    outside.SmoothSince(old(outside.log));
    if !MissesAccount(w, name) && outcome.Done() {
      ReadyTakesACall(w, outside.world, name, did);
    }
  }

  lemma ReadyTakesACall(w: World, w': World, name: string, did: Ledger.Effects)
    requires Stepped(w, w', name, did, false) && w'.StageAt(name) == Ready
    ensures did.deeds != []
  {}

  /** A world whose only Kyma has no global account. */
  function Accountless(): World {
    World(true, false, "", map["kyma" := map[KymaName := "kyma"]], {"kyma"}, {"kyma"},
          map["kyma" := [Some("kubeconfig")]], map[], map[], map[], {}, {}, {}, {}, map[], map[])
  }

  /** In that world, even if no call can fail, the key is dropped without an error and without a mapping. */
  method NeverMapped() returns (manager: CompassManagerReconciler, outcome: Outcome)
    ensures manager.Valid() && manager.outside.init == Accountless()
    ensures outcome == Outcome(Never, None) && "kyma" in manager.outside.world.kymas
    ensures manager.outside.world.StageAt("kyma") == Unmapped && Smooth(manager.outside.log)
  {
    hide Accountless;
    hide Recorded;
    hide Isolated;
    hide EnvOnly;
    hide Stepped;
    hide Ledger.LedgerGrows;
    hide Ledger.Honest;
    hide Smooth;
    hide Fated;
    hide Init;
    hide Lasting;
    hide SteadyKyma;
    hide MissesAccount;
    IsAccountless();
    manager := Launch(Accountless(), i => Luck(false, Registration.ID1), 0, 0);
    var outside := manager.outside;
    ghost var did, halted, gone;
    outcome, did, halted, gone := manager.Reconcile("kyma");
    StaysUnmapped(outside.world);
    outside.Here();
    NothingFails(outside.init, outside.log, outside.luck);
    assert outside.log[0..] == outside.log;
    outside.SmoothSince([]);
  }

  lemma IsAccountless()
    ensures var w := Accountless();
            Init(w) && Lasting(w, "kyma") && MissesAccount(w, "kyma") && w.StageAt("kyma") == Unmapped
  {}

  lemma StaysUnmapped(w: World)
    requires EnvOnly(Accountless(), w)
    ensures w.StageAt("kyma") == Unmapped && "kyma" in w.kymas && w.runtimes == map[]
  {
    assert LeftAlone(Accountless(), w, "kyma");
  }

  /** Without mishaps, and with a new UUID to offer at every moment, no call fails. */
  lemma {:induction false} NothingFails(init: World, log: seq<Action>, luck: nat -> Luck)
    requires Reachable(init, log) && Fated(log, luck) && Protocol.After(init, log).runtimes == map[]
    requires forall i :: luck(i) == Luck(false, Registration.ID1)
    ensures Smooth(log)
    decreases |log|
  {
    if log != [] {
      var before, w, a := LastStep(init, log);
      assert forall id :: id in w.runtimes ==> id in Apply(w, a).runtimes by {
        forall id ensures id in w.runtimes ==> id in Apply(w, a).runtimes {
          RuntimeOrigin(w, a, id);
        }
      }
      assert w.runtimes == map[];
      NothingFails(init, before, luck);
      Registration.AreUuids();
      assert Decreed(luck(|before|), a);
    }
  }
}
