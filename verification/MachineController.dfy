/** How the machine controller merges the status of the VM resource into the machine. */
module MachineController {
  import opened Basics
  import opened ApiCommon
  import opened V1Beta2
  import opened ConditionList
  import Conversion

  /** What the controller reads of the VM resource. */
  datatype VMStatus = VMStatus(conditions: seq<Condition>, state: Option<string>)

  const VM_RUNNING := "VMRunning"
  const SUCCEEDED := "Succeeded"
  const UPDATING := "Updating"

  function MergeAll(s: seq<Condition>, vm: seq<Condition>): seq<Condition>
    decreases |vm|
  {
    if vm == [] then s else Upsert(MergeAll(s, vm[..|vm| - 1]), vm[|vm| - 1])
  }

  /** The VMRunning condition the controller sets for a VM state. */
  function RunningCondition(state: string, clock: int): Condition {
    if state == SUCCEEDED then Condition(VM_RUNNING, ConditionTrue, 0, clock, "VMRunning", "")
    else if state == UPDATING then Condition(VM_RUNNING, ConditionFalse, 0, clock, "VMUpdating", "")
    else Condition(VM_RUNNING, ConditionFalse, 0, clock, "VMProvisionFailed",
                   "AzureStackHCI VM state \"" + state + "\" is unexpected")
  }

  /** The conditions after a pass. */
  function Merge(s: seq<Condition>, vm: VMStatus, clock: int): seq<Condition> {
    var merged := MergeAll(s, vm.conditions);
    if vm.state.Some? then Upsert(merged, RunningCondition(vm.state.value, clock)) else merged
  }

  /** The status part of `reconcileNormal`, from the merge of the conditions on. */
  function Reconcile(st: MachineStatus, vm: VMStatus, clock: int): MachineStatus {
    var merged := if vm.conditions == [] && vm.state.None? then st.conditions
                  else Elems(Merge(List(st.conditions), vm, clock));
    var ready := vm.state == Some(SUCCEEDED);
    st.(conditions := merged,
        vmState := if vm.state.Some? then vm.state else st.vmState,
        ready := st.ready || ready,
        initialization := if ready then PROVISIONED else st.initialization)
  }

  // ----- what is found after a pass -----

  /** The VMRunning condition tells the VM state: true exactly when it succeeded, false with the reason of an update
      exactly while it is updating, and otherwise false with the reason of a failure and the state in the text. */
  predicate TellsState(c: Option<Condition>, state: string) {
    && c.Some? && c.value.kind == "VMRunning"
    && (c.value.status == ConditionTrue <==> state == "Succeeded")
    && (c.value.status == ConditionFalse <==> state != "Succeeded")
    && (c.value.reason == "VMRunning" <==> state == "Succeeded")
    && (c.value.reason == "VMUpdating" <==> state == "Updating")
    && (c.value.reason == "VMProvisionFailed" <==> state != "Succeeded" && state != "Updating")
    && c.value.message == (if state == "Succeeded" || state == "Updating" then ""
                           else "AzureStackHCI VM state \"" + state + "\" is unexpected")
  }

  /** For a type the VM has, the last of its conditions of that type is found; for any other, what was found before. */
  ghost predicate Merged(s: seq<Condition>, vm: seq<Condition>, kind: string, found: Option<Condition>) {
    && (forall i: nat :: IsLast(vm, kind, i) ==> found == Some(vm[i]))
    && (kind !in Kinds(vm) ==> found == Find(s, kind))
  }

  predicate IsLast(vm: seq<Condition>, kind: string, i: nat) {
    i < |vm| && vm[i].kind == kind && forall j :: i < j < |vm| ==> vm[j].kind != kind
  }

  lemma LastOfMore(vm: seq<Condition>, kind: string, i: nat)
    requires vm != []
    ensures var n := |vm| - 1;
      IsLast(vm, kind, i) <==> if vm[n].kind == kind then i == n else IsLast(vm[..n], kind, i)
  {
    var n := |vm| - 1;
    if i < n { assert vm[..n][i] == vm[i] && forall j :: i < j < n ==> vm[..n][j] == vm[j]; }
  }

  /** One more condition of the VM. */
  lemma MergedMore(s: seq<Condition>, vm: seq<Condition>, kind: string, found: Option<Condition>)
    requires vm != [] && Merged(s, vm[..|vm| - 1], kind, found)
    ensures Merged(s, vm, kind, if vm[|vm| - 1].kind == kind then Some(vm[|vm| - 1]) else found)
  {
    var n := |vm| - 1;
    forall i: nat | IsLast(vm, kind, i) ensures if vm[n].kind == kind then i == n else found == Some(vm[i]) {
      LastOfMore(vm, kind, i);
    }
    assert Kinds(vm) == Kinds(vm[..n]) + [vm[n].kind];
  }

  lemma {:induction false} MergeAllFound(s: seq<Condition>, vm: seq<Condition>, kind: string)
    ensures Merged(s, vm, kind, Find(MergeAll(s, vm), kind))
    decreases |vm|
  {
    if vm != [] {
      var front, last := vm[..|vm| - 1], vm[|vm| - 1];
      MergeAllFound(s, front, kind);
      UpsertFind(MergeAll(s, front), last, kind);
      MergedMore(s, vm, kind, Find(MergeAll(s, front), kind));
    }
  }

  /** What is found for each type after a pass. */
  lemma FoundAfter(s: seq<Condition>, vm: VMStatus, clock: int, kind: string)
    ensures var found := Find(Merge(s, vm, clock), kind);
      if vm.state.Some? && kind == "VMRunning" then TellsState(found, vm.state.value)
      else Merged(s, vm.conditions, kind, found)
  {
    MergeAllFound(s, vm.conditions, kind);
    if vm.state.Some? {
      var c := RunningCondition(vm.state.value, clock);
      UpsertFind(MergeAll(s, vm.conditions), c, kind);
      assert TellsState(Some(c), vm.state.value);
    }
  }

  /** What a pass tells of the VM: its state in VMRunning, every other type as merged, the ready flag once it has
      succeeded, and the state itself. */
  ghost predicate Tells(st: MachineStatus, vm: VMStatus, st': MachineStatus) {
    && (vm.state.Some? ==> TellsState(Find(List(st'.conditions), "VMRunning"), vm.state.value))
    && (forall kind :: vm.state.None? || kind != "VMRunning" ==>
          Merged(List(st.conditions), vm.conditions, kind, Find(List(st'.conditions), kind)))
    && st'.ready == (st.ready || vm.state == Some("Succeeded"))
    && st'.vmState == (if vm.state.Some? then vm.state else st.vmState)
    && st'.initialization == (if vm.state == Some("Succeeded") then Some(Initialization(Some(true)))
                              else st.initialization)
    && st'.addresses == st.addresses
  }

  lemma PassTells(st: MachineStatus, vm: VMStatus, clock: int)
    ensures Tells(st, vm, Reconcile(st, vm, clock))
  {
    var s, st' := List(st.conditions), Reconcile(st, vm, clock);
    assert List(st'.conditions) == Merge(s, vm, clock);
    FoundAfter(s, vm, clock, "VMRunning");
    forall kind | vm.state.None? || kind != "VMRunning"
      ensures Merged(s, vm.conditions, kind, Find(List(st'.conditions), kind))
    {
      FoundAfter(s, vm, clock, kind);
    }
  }

  /** `MachineScope`, the status fields it updates. */
  class MachineScope {
    var ready: bool
    var initialization: Option<Initialization>
    var vmState: Option<string>
    var conditions: Slice<Condition>
    const addresses: Slice<NodeAddress>

    function Status(): MachineStatus
      reads this
    {
      MachineStatus(ready, addresses, vmState, conditions, initialization)
    }

    constructor (st: MachineStatus)
      ensures Status() == st
    {
      ready, addresses, vmState, conditions, initialization :=
        st.ready, st.addresses, st.vmState, st.conditions, st.initialization;
    }

    method SetReady()
      modifies this`ready, this`initialization
      ensures ready && initialization == PROVISIONED
    {
      ready := true;
      if initialization.None? {
        initialization := Some(Initialization(None));
      }
      initialization := Some(initialization.value.(provisioned := Some(true)));
    }

    method SetCondition(c: Condition)
      modifies this`conditions
      ensures conditions == Set(old(conditions), c)
    {
      conditions := Set(conditions, c);
    }

    /** The loop over the VM's conditions. */
    method MergeConditions(vm: seq<Condition>)
      modifies this`conditions
      ensures conditions == if vm == [] then old(conditions) else Elems(MergeAll(List(old(conditions)), vm))
    {
      for i := 0 to |vm|
        invariant conditions == if i == 0 then old(conditions)
                                else Elems(MergeAll(List(old(conditions)), vm[..i]))
      {
        assert vm[..i + 1][..i] == vm[..i];
        SetCondition(vm[i]);
      }
      assert vm[..|vm|] == vm;
    }

    /** The merge and the switch over the VM state. */
    method ReconcileStatus(vm: VMStatus, clock: int)
      modifies this
      ensures Tells(old(Status()), vm, Status())
      ensures Status() == Reconcile(old(Status()), vm, clock)
    {
      MergeConditions(vm.conditions);
      if vm.state.Some? {
        vmState := vm.state;
        if vm.state.value == SUCCEEDED {
          SetReady();
        }
        SetCondition(RunningCondition(vm.state.value, clock));
      }
      PassTells(old(Status()), vm, clock);
    }
  }

  // ----- no growth -----

  /** The types a pass may leave. */
  ghost function AllowedKinds(s: seq<Condition>, vm: VMStatus): set<string> {
    (set k | k in Kinds(s)) + (set k | k in Kinds(vm.conditions)) + {VM_RUNNING}
  }

  lemma {:induction false} MergeAllKinds(s: seq<Condition>, vm: seq<Condition>)
    ensures forall k :: k in Kinds(MergeAll(s, vm)) <==> k in Kinds(s) || k in Kinds(vm)
    ensures Unique(s) ==> Unique(MergeAll(s, vm))
    decreases |vm|
  {
    if vm != [] {
      var front, last := vm[..|vm| - 1], vm[|vm| - 1];
      MergeAllKinds(s, front);
      UpsertKinds(MergeAll(s, front), last);
      assert Kinds(vm) == Kinds(front) + [last.kind];
      if Unique(s) { UpsertUnique(MergeAll(s, front), last); }
    }
  }

  /** No condition growth: a pass keeps types unique, keeps those there were, and adds none but the VM's and
      `VMRunning`. */
  lemma NoConditionGrowth(s: seq<Condition>, vm: VMStatus, clock: int)
    requires Unique(s)
    ensures var s' := Merge(s, vm, clock);
      && Unique(s')
      && (forall k :: k in Kinds(s) ==> k in Kinds(s'))
      && (forall k :: k in Kinds(s') ==> k in AllowedKinds(s, vm))
  {
    MergeAllKinds(s, vm.conditions);
    if vm.state.Some? {
      var c := RunningCondition(vm.state.value, clock);
      UpsertKinds(MergeAll(s, vm.conditions), c);
      UpsertUnique(MergeAll(s, vm.conditions), c);
    }
  }

  /** One reconcile: the VM resource it read, and what of its patch succeeded. */
  datatype Pass = Pass(vm: VMStatus, close: CloseOutcome)

  /** What the close persists: the conditions and the rest of the status, each or not. */
  function Persist(st: MachineStatus, after: MachineStatus, close: CloseOutcome): MachineStatus {
    var rest := if close.statusOk then after else st;
    rest.(conditions := if close.conditionsOk then after.conditions else st.conditions)
  }

  ghost function StatusRun(st: MachineStatus, passes: seq<Pass>, clock: int): MachineStatus
    decreases |passes|
  {
    if passes == [] then st
    else
      var front, last := passes[..|passes| - 1], passes[|passes| - 1];
      var before := StatusRun(st, front, clock);
      Persist(before, Reconcile(before, last.vm, clock + |passes|), last.close)
  }

  /** So after any number of passes there are at most as many conditions as distinct types among the
      initial ones, the VM's and `VMRunning`. */
  lemma {:induction false} RunNeverGrows(st: MachineStatus, passes: seq<Pass>, kinds: set<string>, clock: int)
    requires Unique(List(st.conditions)) && VM_RUNNING in kinds
    requires forall k :: k in Kinds(List(st.conditions)) ==> k in kinds
    requires forall p, k :: p in passes && k in Kinds(p.vm.conditions) ==> k in kinds
    ensures var s := List(StatusRun(st, passes, clock).conditions);
      Unique(s) && (forall k :: k in Kinds(s) ==> k in kinds) && |s| <= |kinds|
    decreases |passes|
  {
    if passes != [] {
      var front, last := passes[..|passes| - 1], passes[|passes| - 1];
      RunNeverGrows(st, front, kinds, clock);
      assert last in passes;
      NoConditionGrowth(List(StatusRun(st, front, clock).conditions), last.vm, clock + |passes|);
    }
    UniqueFits(List(StatusRun(st, passes, clock).conditions), kinds);
  }

  /** Over every run, a pass that persists its conditions leaves VMRunning telling the state it saw, and one that
      persists the rest of the status the ready flag and the state. */
  lemma RunTellsState(st: MachineStatus, passes: seq<Pass>, clock: int)
    requires passes != [] && passes[|passes| - 1].vm.state.Some?
    ensures var before, after := StatusRun(st, passes[..|passes| - 1], clock), StatusRun(st, passes, clock);
      var last := passes[|passes| - 1];
      && (last.close.conditionsOk ==> TellsState(Find(List(after.conditions), "VMRunning"), last.vm.state.value))
      && (last.close.statusOk ==>
            && after.vmState == last.vm.state
            && after.ready == (before.ready || last.vm.state == Some("Succeeded")))
  {
    var last := passes[|passes| - 1];
    var before := StatusRun(st, passes[..|passes| - 1], clock);
    FoundAfter(List(before.conditions), last.vm, clock + |passes|, "VMRunning");
  }

  lemma {:induction false} UniqueFits(s: seq<Condition>, kinds: set<string>)
    requires Unique(s) && forall k :: k in Kinds(s) ==> k in kinds
    ensures |s| <= |kinds|
  {
    if s != [] {
      var rest := s[1..];
      forall k | k in Kinds(rest) ensures k in kinds - {s[0].kind} {
        var i :| 0 <= i < |rest| && Kinds(rest)[i] == k;
        assert Kinds(s)[i + 1] == k && s[0].kind != s[i + 1].kind;
      }
      assert Kinds(s)[0] in Kinds(s);
      UniqueFits(rest, kinds - {s[0].kind});
    }
  }

  // ----- a repeated pass changes nothing -----

  /** The last condition of a type in the VM's list is the one that ends up in the machine. */
  lemma {:induction false} MergeAllFind(s: seq<Condition>, t: seq<Condition>, vm: seq<Condition>, kind: string)
    requires AlikeOption(Find(s, kind), Find(t, kind)) || kind in Kinds(vm)
    ensures AlikeOption(Find(MergeAll(s, vm), kind), Find(MergeAll(t, vm), kind))
    decreases |vm|
  {
    if vm != [] {
      var front, last := vm[..|vm| - 1], vm[|vm| - 1];
      assert Kinds(vm) == Kinds(front) + [last.kind];
      UpsertFind(MergeAll(s, front), last, kind);
      UpsertFind(MergeAll(t, front), last, kind);
      if kind != last.kind { MergeAllFind(s, t, front, kind); }
    }
  }

  lemma {:induction false} MergeAllKeepsOthers(s: seq<Condition>, vm: seq<Condition>, kind: string)
    requires kind !in Kinds(vm)
    ensures Find(MergeAll(s, vm), kind) == Find(s, kind)
    decreases |vm|
  {
    if vm != [] {
      var front, last := vm[..|vm| - 1], vm[|vm| - 1];
      assert Kinds(vm) == Kinds(front) + [last.kind];
      UpsertFind(MergeAll(s, front), last, kind);
      MergeAllKeepsOthers(s, front, kind);
    }
  }

  /** What is found for one type after a second pass is what was found after the first. */
  lemma MergeTwiceFind(s: seq<Condition>, vm: VMStatus, clock: int, clock': int, kind: string)
    ensures var once := Merge(s, vm, clock);
      AlikeOption(Find(Merge(once, vm, clock'), kind), Find(once, kind))
  {
    var once := Merge(s, vm, clock);
    var merged, again := MergeAll(s, vm.conditions), MergeAll(once, vm.conditions);
    if vm.state.Some? {
      UpsertFind(merged, RunningCondition(vm.state.value, clock), kind);
      UpsertFind(again, RunningCondition(vm.state.value, clock'), kind);
    }
    if vm.state.None? || kind != VM_RUNNING {
      if kind in Kinds(vm.conditions) {
        MergeAllFind(once, s, vm.conditions, kind);
      } else {
        MergeAllKeepsOthers(once, vm.conditions, kind);
        MergeAllKeepsOthers(s, vm.conditions, kind);
      }
    }
  }

  /** Against an unchanged VM, a repeated pass is a no-op apart from transition times. */
  lemma RepeatedPassIsNoOp(st: MachineStatus, vm: VMStatus, clock: int, clock': int)
    requires Unique(List(st.conditions))
    ensures var once := Reconcile(st, vm, clock);
      var twice := Reconcile(once, vm, clock');
      && twice == once.(conditions := twice.conditions)
      && AlikeLists(List(twice.conditions), List(once.conditions))
  {
    var s := List(st.conditions);
    var once := Merge(s, vm, clock);
    var twice := Merge(once, vm, clock');
    NoConditionGrowth(s, vm, clock);
    NoConditionGrowth(once, vm, clock');
    SecondPassKeepsKinds(s, vm, clock, clock');
    forall kind ensures AlikeOption(Find(twice, kind), Find(once, kind)) {
      MergeTwiceFind(s, vm, clock, clock', kind);
    }
    ListsDetermined(twice, once);
  }

  lemma SecondPassKeepsKinds(s: seq<Condition>, vm: VMStatus, clock: int, clock': int)
    requires Unique(s)
    ensures var once := Merge(s, vm, clock); Kinds(Merge(once, vm, clock')) == Kinds(once)
  {
    var once := Merge(s, vm, clock);
    MergeAllKinds(s, vm.conditions);
    if vm.state.Some? { UpsertKinds(MergeAll(s, vm.conditions), RunningCondition(vm.state.value, clock)); }
    MergeListedKeepsKinds(once, vm.conditions);
    if vm.state.Some? { UpsertKinds(MergeAll(once, vm.conditions), RunningCondition(vm.state.value, clock')); }
  }

  lemma {:induction false} MergeListedKeepsKinds(s: seq<Condition>, vm: seq<Condition>)
    requires forall k :: k in Kinds(vm) ==> k in Kinds(s)
    ensures Kinds(MergeAll(s, vm)) == Kinds(s)
    decreases |vm|
  {
    if vm != [] {
      var front, last := vm[..|vm| - 1], vm[|vm| - 1];
      assert Kinds(vm) == Kinds(front) + [last.kind];
      MergeListedKeepsKinds(s, front);
      UpsertKinds(MergeAll(s, front), last);
    }
  }

  // ----- reachable statuses survive a trip through v1beta1 -----

  /** Every status the controller produces from a new machine says provisioned exactly when it is ready,
      so its `Initialization` survives hub -> v1beta1 -> hub, whatever part of its patches succeeded; and
      provisioned is never taken back. The whole status survives exactly when its conditions do. */
  lemma {:induction false} ReachableMachineSurvivesTrip(st: MachineStatus, passes: seq<Pass>, clock: int)
    requires !st.ready && st.initialization.None?
    ensures var st' := StatusRun(st, passes, clock);
      && st'.initialization == (if st'.ready then PROVISIONED else None)
      && Conversion.UpMachineStatus(Conversion.DownMachineStatus(st')).initialization == st'.initialization
      && (Conversion.UpMachineStatus(Conversion.DownMachineStatus(st')) == st' <==>
            forall c :: c in List(st'.conditions) ==> Conversion.KeptUp(c))
    ensures passes != [] && StatusRun(st, passes[..|passes| - 1], clock).ready ==> StatusRun(st, passes, clock).ready
    decreases |passes|
  {
    if passes != [] { ReachableMachineSurvivesTrip(st, passes[..|passes| - 1], clock); }
    var st' := StatusRun(st, passes, clock);
    Conversion.MachineStatusRoundTrip(Conversion.DownMachineStatus(st'), st');
  }

  /** They do not after a pass that saw the VM running or updating: the condition set for it has no message. */
  lemma RunningMachineChangesOnTrip(st: MachineStatus, vm: VMStatus, clock: int)
    requires vm.state == Some(SUCCEEDED) || vm.state == Some(UPDATING)
    ensures var st' := Reconcile(st, vm, clock); Conversion.UpMachineStatus(Conversion.DownMachineStatus(st')) != st'
  {
    var st' := Reconcile(st, vm, clock);
    var c := RunningCondition(vm.state.value, clock);
    UpsertFind(MergeAll(List(st.conditions), vm.conditions), c, VM_RUNNING);
    FoundIsListed(st'.conditions.elems, VM_RUNNING);
    assert !Conversion.KeptUp(c);
    Conversion.MachineStatusRoundTrip(Conversion.DownMachineStatus(st'), st');
  }
}
