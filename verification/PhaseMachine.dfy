/** The abstract machine that Reconcile refines: one move per reconciliation of a Kyma that exists,
    has a global account and a kubeconfig. Convergence, the refresh of a Ready Kyma and the agreement
    of dry and real runs are properties of this machine. */
module PhaseMachine {
  import opened Worlds

  /** The calls that a reconciliation makes beyond the control plane. */
  datatype Call =
    | RegisterCall
    | ConfigureCallOf(id: string, tenant: string)
    | DeregisterCall(id: string, tenant: string)

  /** The call, if any, that a step belongs to. */
  function CallOfStep(a: Action): seq<Call> {
    match a
    case CallRegister(_, _, _) => [RegisterCall]
    case FinishConfigure(_, _, id, tenant, _) => [ConfigureCallOf(id, tenant)]
    case CallDeregister(_, id, tenant) => [DeregisterCall(id, tenant)]
    case _ => []
  }

  /** The calls among the outbound steps. */
  function CallsOf(acts: seq<Action>): seq<Call> {
    if acts == [] then [] else CallOfStep(acts[0]) + CallsOf(acts[1..])
  }

  lemma {:induction false} CallsOfSum(acts: seq<Action>, more: seq<Action>)
    ensures CallsOf(acts + more) == CallsOf(acts) + CallsOf(more)
  {
    hide CallOfStep;
    if acts == [] {
      assert acts + more == more;
    } else {
      assert (acts + more)[1..] == acts[1..] + more;
      CallsOfSum(acts[1..], more);
    }
  }

  lemma {:induction false} CallsOfOne(a: Action)
    ensures CallsOf([a]) == CallOfStep(a)
  {
    assert [a][1..] == [];
  }

  lemma {:induction false} NoCalls(acts: seq<Action>)
    requires forall a :: a in acts ==> !a.CallRegister? && !a.FinishConfigure? && !a.CallDeregister?
    ensures CallsOf(acts) == []
  {
    if acts != [] {
      NoCalls(acts[1..]);
    }
  }

  /** Creating a runtime or returning its id. */
  predicate Registers(a: Action) {
    a.CreateRuntime? || a.ReturnRuntime?
  }

  function Advance(enabled: bool, s: Stage): Stage {
    match s
    case Unmapped => Fresh
    case Fresh => Pending
    case Failed => Pending
    case Pending => if enabled then Attached else Registered
    case Attached => Registered
    case ConfigFailed => Registered
    case Ready => Registered
    case Registered => Ready
    case Broken => Broken
  }

  /** Where a failed registration or configuration leads. */
  function Setback(enabled: bool, s: Stage): Stage {
    match s
    case Pending => if enabled then Failed else Pending
    case Registered => ConfigFailed
    case _ => s
  }

  predicate CallsFit(enabled: bool, s: Stage, calls: seq<Call>) {
    match s
    case Pending => if enabled then calls == [RegisterCall] else calls == []
    case Registered => |calls| == 1 && calls[0].ConfigureCallOf?
    case _ => calls == []
  }

  /** One reconciliation. Without a fault it advances; with one it may also stay or be set back. */
  predicate Move(enabled: bool, s: Stage, s': Stage, calls: seq<Call>, faulty: bool) {
    if !faulty then s' == Advance(enabled, s) && CallsFit(enabled, s, calls)
    else
      && (s' == s || s' == Advance(enabled, s) || s' == Setback(enabled, s))
      && (calls == [] || CallsFit(enabled, s, calls))
  }

  /** Fault-free reconciliations until Ready. */
  function Rank(enabled: bool, s: Stage): nat {
    match s
    case Unmapped => if enabled then 5 else 4
    case Fresh => if enabled then 4 else 3
    case Failed => if enabled then 4 else 3
    case Pending => if enabled then 3 else 2
    case Attached => 2
    case ConfigFailed => 2
    case Registered => 1
    case Ready => 0
    case Broken => 6
  }

  lemma MoveChangesRank(enabled: bool, s: Stage, s': Stage, calls: seq<Call>, faulty: bool)
    requires Move(enabled, s, s', calls, faulty) && s != Broken
    ensures s' != Broken
    ensures !faulty && s != Ready ==> Rank(enabled, s') == Rank(enabled, s) - 1
    ensures faulty || s == Ready ==> Rank(enabled, s') <= Rank(enabled, s) + 1
  {}

  // ----- Runs of the machine -----

  datatype Round = Round(calls: seq<Call>, faulty: bool)

  ghost predicate IsRun(enabled: bool, stages: seq<Stage>, rounds: seq<Round>) {
    && |stages| == |rounds| + 1 && stages[0] != Broken
    && forall i :: 0 <= i < |rounds| ==> Move(enabled, stages[i], stages[i + 1], rounds[i].calls, rounds[i].faulty)
  }

  function Faults(rounds: seq<Round>): nat {
    if rounds == [] then 0 else Faults(rounds[..|rounds| - 1]) + if rounds[|rounds| - 1].faulty then 1 else 0
  }

  lemma {:induction false} RankBound(enabled: bool, stages: seq<Stage>, rounds: seq<Round>)
    requires IsRun(enabled, stages, rounds) && Ready !in stages
    ensures stages[|rounds|] != Broken && Rank(enabled, stages[|rounds|]) > 0
    ensures Rank(enabled, stages[|rounds|]) + |rounds| <= Rank(enabled, stages[0]) + 2 * Faults(rounds)
  {
    assert stages[|rounds|] in stages;
    if rounds != [] {
      var k := |rounds| - 1;
      assert IsRun(enabled, stages[..k + 1], rounds[..k]);
      RankBound(enabled, stages[..k + 1], rounds[..k]);
      MoveChangesRank(enabled, stages[k], stages[k + 1], rounds[k].calls, rounds[k].faulty);
    }
  }

  /** Amortised convergence: when the fault-free reconciliations of a run outnumber the faulty ones by
      the rank of its first stage, the run has passed through Ready. From nothing that rank is 5. */
  lemma RunReachesReady(enabled: bool, stages: seq<Stage>, rounds: seq<Round>)
    requires IsRun(enabled, stages, rounds)
    requires |rounds| - Faults(rounds) >= Faults(rounds) + Rank(enabled, stages[0])
    ensures Ready in stages
  {
    if Ready !in stages {
      RankBound(enabled, stages, rounds);
    }
  }

  /** The bound is exact: a fault-free run is not Ready before its rank is used up, and then it is. */
  lemma {:induction false} FaultFreeRunIsExact(enabled: bool, stages: seq<Stage>, rounds: seq<Round>, k: nat)
    requires IsRun(enabled, stages, rounds) && Faults(rounds) == 0
    requires k <= |rounds| && k <= Rank(enabled, stages[0])
    ensures stages[k] != Broken && Rank(enabled, stages[k]) == Rank(enabled, stages[0]) - k
    ensures stages[k] == Ready <==> k == Rank(enabled, stages[0])
  {
    if k > 0 {
      FaultFreeRunIsExact(enabled, stages, rounds, k - 1);
      NoFaults(rounds, k - 1);
      MoveChangesRank(enabled, stages[k - 1], stages[k], rounds[k - 1].calls, rounds[k - 1].faulty);
    }
  }

  lemma {:induction false} NoFaults(rounds: seq<Round>, i: nat)
    requires i < |rounds| && Faults(rounds) == 0
    ensures !rounds[i].faulty
  {
    if i < |rounds| - 1 {
      NoFaults(rounds[..|rounds| - 1], i);
    }
  }

  /** A trigger on a Ready Kyma: two fault-free reconciliations later it is Ready again, after exactly
      one Configure call and no registration. */
  lemma ReadyIsRefreshed(enabled: bool, stages: seq<Stage>, rounds: seq<Round>)
    requires IsRun(enabled, stages, rounds) && |rounds| == 2 && Faults(rounds) == 0 && stages[0] == Ready
    ensures stages == [Ready, Registered, Ready]
    ensures |rounds[0].calls + rounds[1].calls| == 1 && (rounds[0].calls + rounds[1].calls)[0].ConfigureCallOf?
  {
    NoFaults(rounds, 0);
    NoFaults(rounds, 1);
    assert Move(enabled, stages[0], stages[0 + 1], rounds[0].calls, false) && rounds[0].calls == [];
    assert Move(enabled, stages[1], stages[1 + 1], rounds[1].calls, false);
    assert rounds[0].calls + rounds[1].calls == rounds[1].calls;
  }

  /** Two fault-free runs that start alike go through the same stages. */
  lemma {:induction false} FaultFreeRunsAgree(enabled: bool, stages1: seq<Stage>, rounds1: seq<Round>,
          stages2: seq<Stage>, rounds2: seq<Round>, k: nat)
    requires IsRun(enabled, stages1, rounds1) && IsRun(enabled, stages2, rounds2)
    requires Faults(rounds1) == 0 && Faults(rounds2) == 0 && stages1[0] == stages2[0]
    requires k < |stages1| && k < |stages2|
    ensures stages1[k] == stages2[k]
  {
    if k > 0 {
      FaultFreeRunsAgree(enabled, stages1, rounds1, stages2, rounds2, k - 1);
      NoFaults(rounds1, k - 1);
      NoFaults(rounds2, k - 1);
      assert Move(enabled, stages1[k - 1], stages1[k - 1 + 1], rounds1[k - 1].calls, false);
      assert Move(enabled, stages2[k - 1], stages2[k - 1 + 1], rounds2[k - 1].calls, false);
    }
  }
}
