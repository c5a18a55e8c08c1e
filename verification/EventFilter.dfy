/** The event filters of controllers/compassmanager_controller.go: which changes of a Kyma trigger a
    reconciliation. */
module EventFilter {
  const APPLICATION_CONNECTOR := "application-connector"

  datatype ModuleStatus = ModuleStatus(name: string, state: string)

  /** The object of an event: a Kyma with the modules in its status, or something else. */
  datatype Object = Kyma(modules: seq<ModuleStatus>) | OtherKind

  /** The Kyma has the application-connector module. */
  predicate Connected(modules: seq<ModuleStatus>) {
    exists i :: 0 <= i < |modules| && modules[i].name == APPLICATION_CONNECTOR
  }

  method CreateFunc(obj: Object) returns (accepted: bool)
    ensures accepted <==> obj.Kyma? && exists m :: m in obj.modules && m.name == "application-connector"
    ensures accepted <==> obj.Kyma? && Connected(obj.modules)
  {
    if !obj.Kyma? {
      return false;
    }
    var modules := obj.modules;
    for i := 0 to |modules|
      invariant forall k :: 0 <= k < i ==> modules[k].name != APPLICATION_CONNECTOR
    {
      if modules[i].name == APPLICATION_CONNECTOR {
        return true;
      }
    }
    return false;
  }

  method GetModuleNames(modules: seq<ModuleStatus>) returns (names: seq<string>)
    ensures |names| == |modules| && forall i :: 0 <= i < |modules| ==> names[i] == modules[i].name
  {
    names := [];
    for i := 0 to |modules|
      invariant |names| == i && forall k :: 0 <= k < i ==> names[k] == modules[k].name
    {
      names := names + [modules[i].name];
    }
  }

  method UpdateFunc(before: Object, after: Object) returns (accepted: bool)
    ensures accepted <==> before.Kyma? && after.Kyma? && !Connected(before.modules) && Connected(after.modules)
  {
    if !before.Kyma? || !after.Kyma? {
      return false;
    }
    var oldModules := GetModuleNames(before.modules);
    var newModules := GetModuleNames(after.modules);
    accepted := APPLICATION_CONNECTOR !in oldModules && APPLICATION_CONNECTOR in newModules;
    assert forall i :: 0 <= i < |before.modules| ==> oldModules[i] == before.modules[i].name;
    assert forall i :: 0 <= i < |after.modules| ==> newModules[i] == after.modules[i].name;
  }

  method DeleteFunc(obj: Object) returns (accepted: bool)
    ensures accepted <==> obj.Kyma?
  {
    match obj
    case Kyma(_) => return true;
    case OtherKind => return false;
  }

  // ----- Rising edges -----

  /** The versions i, ..., j - 1 of a Kyma all have the module, and their neighbours do not. */
  predicate MaximalBlock(versions: seq<seq<ModuleStatus>>, i: nat, j: nat) {
    && i < j <= |versions|
    && (forall k :: i <= k < j ==> Connected(versions[k]))
    && (i > 0 ==> !Connected(versions[i - 1]))
    && (j < |versions| ==> !Connected(versions[j]))
  }

  ghost function MaximalBlocks(versions: seq<seq<ModuleStatus>>): set<(nat, nat)> {
    set i: nat, j: nat | i < j <= |versions| && MaximalBlock(versions, i, j) :: (i, j)
  }

  /** The events of a Kyma's life so far, one create and then updates, through the filters. */
  method CountAccepted(versions: seq<seq<ModuleStatus>>) returns (count: nat)
    ensures count == |MaximalBlocks(versions)|
  {
    count := 0;
    NoBlocks(versions);
    for n := 0 to |versions|
      invariant count == |MaximalBlocks(versions[..n])|
    {
      var accepted;
      if n == 0 {
        accepted := CreateFunc(Kyma(versions[n]));
      } else {
        accepted := UpdateFunc(Kyma(versions[n - 1]), Kyma(versions[n]));
      }
      if accepted {
        count := count + 1;
      }
      assert versions[..n + 1] == versions[..n] + [versions[n]];
      OneMoreVersion(versions[..n], versions[n]);
    }
    assert versions[..|versions|] == versions;
  }

  /** A whole life of a Kyma: it is reconciled once for every time that it gets the module, and once more
      when it is deleted, whether it has the module then or not. */
  method CountTriggers(versions: seq<seq<ModuleStatus>>) returns (count: nat)
    requires versions != []
    ensures count == |MaximalBlocks(versions)| + 1
  {
    count := CountAccepted(versions);
    var accepted := DeleteFunc(Kyma(versions[|versions| - 1]));
    if accepted {
      count := count + 1;
    }
  }

  lemma NoBlocks(versions: seq<seq<ModuleStatus>>)
    ensures |MaximalBlocks(versions[..0])| == 0
  {
    assert MaximalBlocks(versions[..0]) == {};
  }

  /** A new version begins a block exactly when the module appears. */
  lemma OneMoreVersion(before: seq<seq<ModuleStatus>>, last: seq<ModuleStatus>)
    ensures var appears := Connected(last) && (before == [] || !Connected(before[|before| - 1]));
            |MaximalBlocks(before + [last])| == |MaximalBlocks(before)| + if appears then 1 else 0
  {
    var n := |before|;
    if !Connected(last) {
      SameBlocks(before, last);
    } else if n == 0 || !Connected(before[n - 1]) {
      NewBlock(before, last);
    } else {
      LongerBlock(before, last);
    }
  }

  lemma SameBlocks(before: seq<seq<ModuleStatus>>, last: seq<ModuleStatus>)
    requires !Connected(last)
    ensures MaximalBlocks(before + [last]) == MaximalBlocks(before)
  {
    forall i: nat, j: nat ensures MaximalBlock(before + [last], i, j) <==> MaximalBlock(before, i, j) {
      BlockInside(before, last, i, j);
    }
  }

  /** A block of the longer history that does not reach its end is one of the shorter history, and a
      block of the shorter one stays if it does not reach its end or if the module is gone. */
  lemma BlockInside(before: seq<seq<ModuleStatus>>, last: seq<ModuleStatus>, i: nat, j: nat)
    ensures j <= |before| && (j < |before| || !Connected(last)) ==>
              (MaximalBlock(before + [last], i, j) <==> MaximalBlock(before, i, j))
    ensures j == |before| + 1 && !Connected(last) ==> !MaximalBlock(before + [last], i, j)
    ensures j == |before| && Connected(last) ==> !MaximalBlock(before + [last], i, j)
  {
    var longer := before + [last];
    assert longer[|before|] == last;
    assert forall k :: 0 <= k < |before| ==> longer[k] == before[k];
  }

  lemma NewBlock(before: seq<seq<ModuleStatus>>, last: seq<ModuleStatus>)
    requires Connected(last) && (before == [] || !Connected(before[|before| - 1]))
    ensures MaximalBlocks(before + [last]) == MaximalBlocks(before) + {(|before|, |before| + 1)}
    ensures (|before|, |before| + 1) !in MaximalBlocks(before)
  {
    var n := |before|;
    forall i: nat, j: nat
      ensures MaximalBlock(before + [last], i, j) <==> MaximalBlock(before, i, j) || (i == n && j == n + 1)
    {
      BlockInside(before, last, i, j);
      if i < n && j == n + 1 {
        assert (before + [last])[n - 1] == before[n - 1];
      }
    }
  }

  /** Where the block that reaches the end of the history begins. */
  lemma {:induction false} LastBlock(versions: seq<seq<ModuleStatus>>) returns (i: nat)
    requires versions != [] && Connected(versions[|versions| - 1])
    ensures MaximalBlock(versions, i, |versions|)
    decreases |versions|
  {
    var n := |versions|;
    if n == 1 || !Connected(versions[n - 2]) {
      i := n - 1;
    } else {
      i := LastBlock(versions[..n - 1]);
      assert forall k :: 0 <= k < n - 1 ==> versions[..n - 1][k] == versions[k];
    }
  }

  lemma SameStart(versions: seq<seq<ModuleStatus>>, i1: nat, i2: nat, j: nat)
    requires MaximalBlock(versions, i1, j) && MaximalBlock(versions, i2, j)
    ensures i1 == i2
  {
    assert i1 < i2 ==> i1 <= i2 - 1 < j;
    assert i2 < i1 ==> i2 <= i1 - 1 < j;
  }

  /** The block that reached the end reaches the new end, and every other one stays. */
  lemma LongerBlockAt(before: seq<seq<ModuleStatus>>, last: seq<ModuleStatus>, s: nat, i: nat, j: nat)
    requires Connected(last) && MaximalBlock(before, s, |before|)
    ensures MaximalBlock(before + [last], i, j) <==>
            (MaximalBlock(before, i, j) && j != |before|) || (i == s && j == |before| + 1)
    ensures MaximalBlock(before, i, |before|) ==> i == s
  {
    var n, longer := |before|, before + [last];
    assert forall k :: 0 <= k < n ==> longer[k] == before[k];
    assert MaximalBlock(longer, s, n + 1);
    BlockInside(before, last, i, j);
    if MaximalBlock(longer, i, n + 1) {
      SameStart(longer, s, i, n + 1);
    }
    if MaximalBlock(before, i, n) {
      SameStart(before, s, i, n);
    }
  }

  lemma LongerBlocks(before: seq<seq<ModuleStatus>>, last: seq<ModuleStatus>, s: nat)
    requires Connected(last) && MaximalBlock(before, s, |before|)
    ensures var n, blocks := |before|, MaximalBlocks(before);
            && MaximalBlocks(before + [last]) == blocks - {(s, n)} + {(s, n + 1)}
            && (s, n) in blocks && (s, n + 1) !in blocks
  {
    assert s < |before|;
    hide MaximalBlock;
    forall i: nat, j: nat
      ensures MaximalBlock(before + [last], i, j) <==>
              (MaximalBlock(before, i, j) && j != |before|) || (i == s && j == |before| + 1)
      ensures MaximalBlock(before, i, |before|) ==> i == s
    {
      LongerBlockAt(before, last, s, i, j);
    }
  }

  lemma LongerBlock(before: seq<seq<ModuleStatus>>, last: seq<ModuleStatus>)
    requires Connected(last) && before != [] && Connected(before[|before| - 1])
    ensures |MaximalBlocks(before + [last])| == |MaximalBlocks(before)|
  {
    var s := LastBlock(before);
    hide MaximalBlocks;
    LongerBlocks(before, last, s);
  }
}
