/**
 * The LVM reconciliation of src/kisiac/update.py (`update_lvm`): the command
 * plan that moves the observed entities to the desired ones, in a fixed phase
 * order, and its confirmed, sequential, fail-fast execution.
 */
module Update {
  import opened Wrappers
  import opened Orders
  import opened Lvm

  /** An argument vector handed to the command runner. */
  type Cmd = seq<string>

  /** An existing LV whose desired layout differs from its current one. */
  datatype LayoutConflict = LayoutConflict(lv: string, current: string, desired: string)

  function Verb(cmd: Cmd): string { if |cmd| > 0 then cmd[0] else "" }

  /** The phase a command belongs to, 1 to 7; 0 for a command no phase emits. */
  function Phase(cmd: Cmd): nat {
    var v := Verb(cmd);
    if v == "lvremove" then 1
    else if v == "vgremove" then 2
    else if v == "pvremove" then 3
    else if v == "pvcreate" then 4
    else if v == "vgcreate" then 5
    else if v == "lvcreate" then 6
    else if v == "vgextend" || v == "vgreduce" || v == "lvresize" then 7
    else 0
  }

  /** Which verb starts the commands of each phase. */
  lemma PhaseOfVerb(cmd: Cmd)
    ensures Phase(cmd) == 1 <==> Verb(cmd) == "lvremove"
    ensures Phase(cmd) == 2 <==> Verb(cmd) == "vgremove"
    ensures Phase(cmd) == 3 <==> Verb(cmd) == "pvremove"
    ensures Phase(cmd) == 4 <==> Verb(cmd) == "pvcreate"
    ensures Phase(cmd) == 5 <==> Verb(cmd) == "vgcreate"
    ensures Phase(cmd) == 6 <==> Verb(cmd) == "lvcreate"
    ensures Phase(cmd) == 7 <==> Verb(cmd) == "vgextend" || Verb(cmd) == "vgreduce" || Verb(cmd) == "lvresize"
  {
  }

  /** `vg/lv`, how the LVM tools name a logical volume. */
  function LvPath(vg: string, lv: string): string { vg + "/" + lv }

  /** The device paths of a set of PVs, each once, in lexicographic order. */
  function SortedDevices(pvs: set<PV>): (r: seq<string>)
    ensures forall d :: d in r <==> PV(d) in pvs
    ensures forall i, j :: 0 <= i < |r| && 0 <= j < |r| && i != j ==> r[i] != r[j]
  {
    var r := SortedStrings(set p | p in pvs :: p.device);
    assert forall d :: PV(d) in pvs ==> d in (set p | p in pvs :: p.device);
    r
  }

  // ---------------------------------------------------------------------------
  // Phases 1 and 6: LVs one side has and the other lacks.

  /** The other side has no LV of this name in a VG of this name. */
  predicate Missing(other: Entities, vg: VG, lv: LV) {
    vg.name !in other.vgs || lv.name !in other.vgs[vg.name].lvs
  }

  function LvStep(other: Entities, vg: VG, render: (VG, LV) -> Cmd): string -> seq<Cmd> {
    lk => if lk in vg.lvs && Missing(other, vg, vg.lvs[lk]) then [render(vg, vg.lvs[lk])] else []
  }

  function VgStep(from: Entities, other: Entities, render: (VG, LV) -> Cmd): string -> seq<Cmd> {
    vk => if vk in from.vgs
          then FlatMap(SortedStrings(from.vgs[vk].lvs.Keys), LvStep(other, from.vgs[vk], render))
          else []
  }

  /** One command per LV of `from` that `other` is missing, VG by VG. */
  function LvCmds(from: Entities, other: Entities, render: (VG, LV) -> Cmd): seq<Cmd> {
    FlatMap(SortedStrings(from.vgs.Keys), VgStep(from, other, render))
  }

  function LvRemoveCmd(vg: VG, lv: LV): Cmd { ["lvremove", "--yes", LvPath(vg.name, lv.name)] }

  function LvCreateCmd(vg: VG, lv: LV): Cmd {
    ["lvcreate", "-n", lv.name, "-L", lv.size, vg.name, "--type", lv.layout]
  }

  /** Phase 1: remove every current LV the desired state does not have. */
  function LvRemoves(desired: Entities, current: Entities): seq<Cmd> {
    LvCmds(current, desired, LvRemoveCmd)
  }

  /** Phase 6: create every desired LV the current state does not have. */
  function LvCreates(desired: Entities, current: Entities): seq<Cmd> {
    LvCmds(desired, current, LvCreateCmd)
  }

  // ---------------------------------------------------------------------------
  // Phases 2 to 5.

  function VgRemoveStep(): string -> seq<Cmd> { n => [["vgremove", "--yes", n]] }

  /** Phase 2: remove every current VG whose name is not desired. */
  function VgRemoves(desired: Entities, current: Entities): seq<Cmd> {
    FlatMap(SortedStrings(current.vgs.Keys - desired.vgs.Keys), VgRemoveStep())
  }

  /** Phase 3: one command removing every current PV that is not desired. */
  function PvRemove(desired: Entities, current: Entities): Cmd {
    ["pvremove", "--yes"] + SortedDevices(current.pvs - desired.pvs)
  }

  /** Phase 4: one command creating every desired PV that is not current. */
  function PvCreate(desired: Entities, current: Entities): Cmd {
    ["pvcreate", "--yes"] + SortedDevices(desired.pvs - current.pvs)
  }

  /** The `vgcreate` command for the desired VG under key `n`. */
  function VgCreateCmd(desired: Entities, n: string): Cmd
    requires n in desired.vgs
  {
    ["vgcreate", desired.vgs[n].name] + SortedDevices(desired.vgs[n].pvs)
  }

  function VgCreateStep(desired: Entities): string -> seq<Cmd> {
    n => if n in desired.vgs then [VgCreateCmd(desired, n)] else []
  }

  /** Phase 5: create every desired VG whose name is not current, with all its PVs. */
  function VgCreates(desired: Entities, current: Entities): seq<Cmd> {
    FlatMap(SortedStrings(desired.vgs.Keys - current.vgs.Keys), VgCreateStep(desired))
  }

  /** Phases 1 to 6 in order. */
  function Prelude(desired: Entities, current: Entities): seq<Cmd> {
    LvRemoves(desired, current) + VgRemoves(desired, current)
    + [PvRemove(desired, current), PvCreate(desired, current)]
    + VgCreates(desired, current) + LvCreates(desired, current)
  }

  // ---------------------------------------------------------------------------
  // Phase 7: converge the VGs present on both sides.

  /**
   * A loop that appends the commands `f` gives for each element of `xs` and
   * stops at the first error, which it raises.
   */
  function Collect<T, U, E>(xs: seq<T>, f: T -> Result<seq<U>, E>): Result<seq<U>, E>
    decreases |xs|
  {
    if xs == [] then Ok([])
    else match Collect(xs[..|xs| - 1], f)
      case Err(e) => Err(e)
      case Ok(prev) =>
        match f(xs[|xs| - 1])
        case Err(e) => Err(e)
        case Ok(more) => Ok(prev + more)
  }

  /** Resizes an LV to its desired size, letting LVM resize its filesystem too. */
  function ResizeCmd(vgName: string, lvd: LV): Cmd {
    ["lvresize", "--fsmode", "manage", "-L", lvd.size, LvPath(vgName, lvd.name)]
  }

  /** The resize of one desired LV, or the error that its layout cannot change. */
  function ResizeLv(vgName: string, lvd: LV, vgc: VG): Result<seq<Cmd>, LayoutConflict> {
    if lvd.name !in vgc.lvs then Ok([])
    else
      var lvc := vgc.lvs[lvd.name];
      if lvc.layout != lvd.layout then Err(LayoutConflict(lvd.name, lvc.layout, lvd.layout))
      else if lvc.size != lvd.size then Ok([ResizeCmd(vgName, lvd)])
      else Ok([])
  }

  function ResizeStep(vgd: VG, vgc: VG): string -> Result<seq<Cmd>, LayoutConflict> {
    lk => if lk in vgd.lvs then ResizeLv(vgd.name, vgd.lvs[lk], vgc) else Ok([])
  }

  /** The LV loop of one VG: the resizes of its LVs in name order, or the first layout error. */
  function Resizes(vgd: VG, vgc: VG): Result<seq<Cmd>, LayoutConflict> {
    Collect(SortedStrings(vgd.lvs.Keys), ResizeStep(vgd, vgc))
  }

  /** `vgextend` with the PVs the VG gains, if any. */
  function VgExtend(vgd: VG, vgc: VG): seq<Cmd> {
    if vgd.pvs - vgc.pvs != {} then [["vgextend", vgd.name] + SortedDevices(vgd.pvs - vgc.pvs)] else []
  }

  /** `vgreduce` with the PVs the VG loses, if any. */
  function VgReduce(vgd: VG, vgc: VG): seq<Cmd> {
    if vgc.pvs - vgd.pvs != {} then [["vgreduce", "--yes", vgd.name] + SortedDevices(vgc.pvs - vgd.pvs)] else []
  }

  /** `vgextend` then `vgreduce`. */
  function PvMembership(vgd: VG, vgc: VG): seq<Cmd> { VgExtend(vgd, vgc) + VgReduce(vgd, vgc) }

  /** The updates of one desired VG against the current VG of the same name. */
  function ConvergeVg(current: Entities, vgd: VG): Result<seq<Cmd>, LayoutConflict> {
    if vgd.name !in current.vgs then Ok([])
    else
      var vgc := current.vgs[vgd.name];
      match Resizes(vgd, vgc)
      case Err(e) => Err(e)
      case Ok(resizes) => Ok(PvMembership(vgd, vgc) + resizes)
  }

  function ConvergeStep(desired: Entities, current: Entities): string -> Result<seq<Cmd>, LayoutConflict> {
    vk => if vk in desired.vgs then ConvergeVg(current, desired.vgs[vk]) else Ok([])
  }

  /** Phase 7 for every desired VG, in name order. */
  function Converge(desired: Entities, current: Entities): Result<seq<Cmd>, LayoutConflict> {
    Collect(SortedStrings(desired.vgs.Keys), ConvergeStep(desired, current))
  }

  /** The whole plan: phases 1 to 7, or the layout error that aborts planning. */
  function Plan(desired: Entities, current: Entities): Result<seq<Cmd>, LayoutConflict> {
    match Converge(desired, current)
    case Err(e) => Err(e)
    case Ok(updates) => Ok(Prelude(desired, current) + updates)
  }

  // ---------------------------------------------------------------------------
  // Execution.

  /** The index of the first command that fails, or `|plan|` when none does. */
  function FirstFailure(plan: seq<Cmd>, succeeds: (nat, Cmd) -> bool, from: nat): (k: nat)
    requires from <= |plan|
    ensures from <= k <= |plan|
    ensures forall i :: from <= i < k ==> succeeds(i, plan[i])
    ensures k < |plan| ==> !succeeds(k, plan[k])
    decreases |plan| - from
  {
    if from == |plan| || !succeeds(from, plan[from]) then from
    else FirstFailure(plan, succeeds, from + 1)
  }

  datatype RunResult = Completed | Incomplete(failed: Cmd)

  /**
   * Runs the commands in order, stopping at the first that fails; `attempted`
   * is every command handed to the runner.
   */
  method RunSequentially(plan: seq<Cmd>, succeeds: (nat, Cmd) -> bool)
    returns (attempted: seq<Cmd>, result: RunResult)
    ensures var k := FirstFailure(plan, succeeds, 0);
      if k == |plan| then attempted == plan && result == Completed
      else attempted == plan[..k + 1] && result == Incomplete(plan[k])
  {
    attempted := [];
    for i := 0 to |plan|
      invariant attempted == plan[..i]
      invariant forall j :: 0 <= j < i ==> succeeds(j, plan[j])
    {
      attempted := attempted + [plan[i]];
      if !succeeds(i, plan[i]) {
        return attempted, Incomplete(plan[i]);
      }
    }
    return attempted, Completed;
  }

  /** How `update_lvm` ends. */
  datatype LvmOutcome =
    | Refused(conflict: LayoutConflict)   // planning raised; nothing ran
    | MessageFailed                       // building the confirmation message raised; nothing ran
    | Declined                            // the operator did not confirm; nothing ran
    | Applied                             // every command succeeded
    | IncompleteUpdate(failed: Cmd)       // "Incomplete LVM update": this command failed, later ones did not run

  /** The LV loop of one shared VG (update.py, lines 104-124): the resizes, or the first layout error. */
  method ResizeLvs(vgd: VG, vgc: VG) returns (r: Result<seq<Cmd>, LayoutConflict>)
    ensures r == Resizes(vgd, vgc)
  {
    var lnames := SortedStrings(vgd.lvs.Keys);
    var resizes: seq<Cmd> := [];
    for j := 0 to |lnames|
      invariant Collect(lnames[..j], ResizeStep(vgd, vgc)) == Ok(resizes)
    {
      CollectSnoc(lnames, ResizeStep(vgd, vgc), j);
      assert lnames[j] in lnames;
      var lvd := vgd.lvs[lnames[j]];
      assert ResizeStep(vgd, vgc)(lnames[j]) == ResizeLv(vgd.name, lvd, vgc);
      if lvd.name in vgc.lvs {
        var lvc := vgc.lvs[lvd.name];
        if lvc.layout != lvd.layout {
          CollectPrefixErr(lnames, ResizeStep(vgd, vgc), j + 1);
          return Err(LayoutConflict(lvd.name, lvc.layout, lvd.layout));
        }
        if lvc.size != lvd.size {
          resizes := resizes + [ResizeCmd(vgd.name, lvd)];
        } else {
          assert resizes + [] == resizes;
        }
      } else {
        assert resizes + [] == resizes;
      }
    }
    assert lnames[..|lnames|] == lnames;
    return Ok(resizes);
  }

  /** The loop over the desired VGs (update.py, lines 85-124): phase 7, or the first layout error. */
  method ConvergeVgs(desired: Entities, current: Entities) returns (r: Result<seq<Cmd>, LayoutConflict>)
    ensures r == Converge(desired, current)
  {
    var names := SortedStrings(desired.vgs.Keys);
    var updates: seq<Cmd> := [];
    for i := 0 to |names|
      invariant Collect(names[..i], ConvergeStep(desired, current)) == Ok(updates)
    {
      CollectSnoc(names, ConvergeStep(desired, current), i);
      assert names[i] in names;
      var vgd := desired.vgs[names[i]];
      assert ConvergeStep(desired, current)(names[i]) == ConvergeVg(current, vgd);
      if vgd.name in current.vgs {
        var vgc := current.vgs[vgd.name];
        var resizes := ResizeLvs(vgd, vgc);
        if resizes.Err? {
          CollectPrefixErr(names, ConvergeStep(desired, current), i + 1);
          return Err(resizes.error);
        }
        updates := updates + (VgExtend(vgd, vgc) + VgReduce(vgd, vgc) + resizes.value);
      } else {
        assert updates + [] == updates;
      }
    }
    assert names[..|names|] == names;
    return Ok(updates);
  }


  /** The planning half of `update_lvm` (update.py, lines 46-124): the plan, or the first layout error. */
  method BuildPlan(desired: Entities, current: Entities) returns (r: Result<seq<Cmd>, LayoutConflict>)
    ensures r == Plan(desired, current)
  {
    var updates := ConvergeVgs(desired, current);
    if updates.Err? {
      return Err(updates.error);
    }
    return Ok(Prelude(desired, current) + updates.value);
  }

  // ---------------------------------------------------------------------------
  // Facts about the loop combinator and the nested comprehensions.

  lemma {:induction false} CollectErr<T, U, E>(xs: seq<T>, f: T -> Result<seq<U>, E>)
    ensures Collect(xs, f).Err? <==> exists i :: 0 <= i < |xs| && f(xs[i]).Err?
    ensures Collect(xs, f).Err? ==>
      exists i :: 0 <= i < |xs| && f(xs[i]) == Err(Collect(xs, f).error)
    decreases |xs|
  {
    if xs != [] {
      var init := xs[..|xs| - 1];
      CollectErr(init, f);
      assert forall i :: 0 <= i < |init| ==> init[i] == xs[i];
    }
  }

  lemma {:induction false} CollectOk<T, U, E>(xs: seq<T>, f: T -> Result<seq<U>, E>, u: U)
    requires Collect(xs, f).Ok?
    ensures forall i :: 0 <= i < |xs| ==> f(xs[i]).Ok?
    ensures u in Collect(xs, f).value <==> exists i :: 0 <= i < |xs| && u in f(xs[i]).value
    decreases |xs|
  {
    if xs != [] {
      var init := xs[..|xs| - 1];
      CollectOk(init, f, u);
      assert forall i :: 0 <= i < |init| ==> init[i] == xs[i];
      if u in Collect(init, f).value {
        var i :| 0 <= i < |init| && u in f(init[i]).value;
        assert u in f(xs[i]).value;
      }
    }
  }

  lemma {:induction false} CollectAll<T, U, E>(xs: seq<T>, f: T -> Result<seq<U>, E>, p: U -> bool)
    requires Collect(xs, f).Ok?
    requires forall i, k :: 0 <= i < |xs| && f(xs[i]).Ok? && 0 <= k < |f(xs[i]).value| ==> p(f(xs[i]).value[k])
    ensures forall k :: 0 <= k < |Collect(xs, f).value| ==> p(Collect(xs, f).value[k])
    decreases |xs|
  {
    if xs != [] {
      var init := xs[..|xs| - 1];
      assert forall i :: 0 <= i < |init| ==> init[i] == xs[i];
      CollectAll(init, f, p);
    }
  }

  lemma {:induction false} CollectPrefixErr<T, U, E>(xs: seq<T>, f: T -> Result<seq<U>, E>, j: nat)
    requires j <= |xs| && Collect(xs[..j], f).Err?
    ensures Collect(xs, f) == Collect(xs[..j], f)
    decreases |xs|
  {
    if j < |xs| {
      var init := xs[..|xs| - 1];
      assert init[..j] == xs[..j];
      CollectPrefixErr(init, f, j);
    } else {
      assert xs[..j] == xs;
    }
  }

  lemma {:induction false} CollectNothing<T, U, E>(xs: seq<T>, f: T -> Result<seq<U>, E>)
    requires forall i :: 0 <= i < |xs| ==> f(xs[i]) == Ok([])
    ensures Collect(xs, f) == Ok([])
    decreases |xs|
  {
    if xs != [] {
      var init := xs[..|xs| - 1];
      assert forall i :: 0 <= i < |init| ==> init[i] == xs[i];
      CollectNothing(init, f);
      var none: seq<U> := [];
      assert f(xs[|xs| - 1]) == Ok(none) && none + none == none;
    }
  }

  /** One more iteration of the loop `Collect` describes. */
  lemma CollectSnoc<T, U, E>(xs: seq<T>, f: T -> Result<seq<U>, E>, j: nat)
    requires j < |xs| && Collect(xs[..j], f).Ok?
    ensures f(xs[j]).Ok? ==> Collect(xs[..j + 1], f) == Ok(Collect(xs[..j], f).value + f(xs[j]).value)
    ensures f(xs[j]).Err? ==> Collect(xs[..j + 1], f) == Err(f(xs[j]).error)
  {
    assert xs[..j + 1][..j] == xs[..j] && xs[..j + 1][j] == xs[j];
  }

  lemma {:induction false} FlatMapNothing<T, U>(xs: seq<T>, f: T -> seq<U>)
    requires forall i :: 0 <= i < |xs| ==> f(xs[i]) == []
    ensures FlatMap(xs, f) == []
  {
    if xs != [] {
      assert forall i :: 0 <= i < |xs[1..]| ==> xs[1..][i] == xs[i + 1];
      FlatMapNothing(xs[1..], f);
    }
  }

  /** The LV entries of `from` that `other` is missing. */
  ghost predicate MissingAt(from: Entities, other: Entities, vk: string, lk: string) {
    vk in from.vgs && lk in from.vgs[vk].lvs && Missing(other, from.vgs[vk], from.vgs[vk].lvs[lk])
  }

  lemma VgStepSound(from: Entities, other: Entities, render: (VG, LV) -> Cmd, cmd: Cmd)
    returns (vk: string)
    requires cmd in LvCmds(from, other, render)
    ensures vk in from.vgs
    ensures cmd in FlatMap(SortedStrings(from.vgs[vk].lvs.Keys), LvStep(other, from.vgs[vk], render))
  {
    var keys := SortedStrings(from.vgs.Keys);
    var step := VgStep(from, other, render);
    FlatMapMember(keys, step, cmd);
    var i :| 0 <= i < |keys| && cmd in step(keys[i]);
    vk := keys[i];
    assert vk in keys;
  }

  lemma LvStepSound(other: Entities, vg: VG, render: (VG, LV) -> Cmd, cmd: Cmd)
    returns (lk: string)
    requires cmd in FlatMap(SortedStrings(vg.lvs.Keys), LvStep(other, vg, render))
    ensures lk in vg.lvs && Missing(other, vg, vg.lvs[lk]) && cmd == render(vg, vg.lvs[lk])
  {
    var lkeys := SortedStrings(vg.lvs.Keys);
    var lstep := LvStep(other, vg, render);
    FlatMapMember(lkeys, lstep, cmd);
    var j :| 0 <= j < |lkeys| && cmd in lstep(lkeys[j]);
    lk := lkeys[j];
  }

  lemma LvCmdsSound(from: Entities, other: Entities, render: (VG, LV) -> Cmd, cmd: Cmd)
    returns (vk: string, lk: string)
    requires cmd in LvCmds(from, other, render)
    ensures MissingAt(from, other, vk, lk) && cmd == render(from.vgs[vk], from.vgs[vk].lvs[lk])
  {
    vk := VgStepSound(from, other, render, cmd);
    lk := LvStepSound(other, from.vgs[vk], render, cmd);
  }

  lemma LvCmdsComplete(from: Entities, other: Entities, render: (VG, LV) -> Cmd, vk: string, lk: string)
    requires MissingAt(from, other, vk, lk)
    ensures render(from.vgs[vk], from.vgs[vk].lvs[lk]) in LvCmds(from, other, render)
  {
    var cmd := render(from.vgs[vk], from.vgs[vk].lvs[lk]);
    var vg := from.vgs[vk];
    var lkeys := SortedStrings(vg.lvs.Keys);
    var lstep := LvStep(other, vg, render);
    assert lk in lkeys;
    var j :| 0 <= j < |lkeys| && lkeys[j] == lk;
    assert cmd in lstep(lkeys[j]);
    FlatMapMember(lkeys, lstep, cmd);
    var keys := SortedStrings(from.vgs.Keys);
    var step := VgStep(from, other, render);
    assert vk in keys;
    var i :| 0 <= i < |keys| && keys[i] == vk;
    assert cmd in step(keys[i]);
    FlatMapMember(keys, step, cmd);
  }

  /** Every command of `s` belongs to phase `n`. */
  ghost predicate AllPhase(s: seq<Cmd>, n: nat) {
    forall i :: 0 <= i < |s| ==> Phase(s[i]) == n
  }

  // ---------------------------------------------------------------------------
  // The shape of the plan.

  lemma LvCmdsPhase(from: Entities, other: Entities, render: (VG, LV) -> Cmd, n: nat)
    requires forall vg, lv :: Phase(render(vg, lv)) == n
    ensures AllPhase(LvCmds(from, other, render), n)
  {
    var s := LvCmds(from, other, render);
    forall i | 0 <= i < |s| ensures Phase(s[i]) == n {
      var vk, lk := LvCmdsSound(from, other, render, s[i]);
    }
  }

  lemma LvRemovesPhase(desired: Entities, current: Entities)
    ensures AllPhase(LvRemoves(desired, current), 1)
  {
    forall vg, lv ensures Phase(LvRemoveCmd(vg, lv)) == 1 { PhaseOfVerb(LvRemoveCmd(vg, lv)); }
    LvCmdsPhase(current, desired, LvRemoveCmd, 1);
  }

  lemma LvCreatesPhase(desired: Entities, current: Entities)
    ensures AllPhase(LvCreates(desired, current), 6)
  {
    forall vg, lv ensures Phase(LvCreateCmd(vg, lv)) == 6 { PhaseOfVerb(LvCreateCmd(vg, lv)); }
    LvCmdsPhase(desired, current, LvCreateCmd, 6);
  }

  lemma VgRemoveStepPhase(n: string)
    ensures AllPhase(VgRemoveStep()(n), 2)
  {
    PhaseOfVerb(["vgremove", "--yes", n]);
  }

  lemma VgRemovesPhase(desired: Entities, current: Entities)
    ensures AllPhase(VgRemoves(desired, current), 2)
  {
    var names := SortedStrings(current.vgs.Keys - desired.vgs.Keys);
    var p := (c: Cmd) => Phase(c) == 2;
    forall i, k | 0 <= i < |names| && 0 <= k < |VgRemoveStep()(names[i])| ensures p(VgRemoveStep()(names[i])[k]) {
      VgRemoveStepPhase(names[i]);
    }
    FlatMapAll(names, VgRemoveStep(), p);
  }

  lemma VgCreateCmdPhase(desired: Entities, n: string)
    requires n in desired.vgs
    ensures Phase(VgCreateCmd(desired, n)) == 5
  {
    assert VgCreateCmd(desired, n)[0] == "vgcreate";
    PhaseOfVerb(VgCreateCmd(desired, n));
  }

  lemma VgCreateStepsPhase(desired: Entities, names: seq<string>)
    ensures AllPhase(FlatMap(names, VgCreateStep(desired)), 5)
  {
    var step := VgCreateStep(desired);
    var p := (c: Cmd) => Phase(c) == 5;
    forall i, k | 0 <= i < |names| && 0 <= k < |step(names[i])| ensures p(step(names[i])[k]) {
      VgCreateCmdPhase(desired, names[i]);
    }
    FlatMapAll(names, step, p);
  }

  lemma VgCreatesPhase(desired: Entities, current: Entities)
    ensures AllPhase(VgCreates(desired, current), 5)
  {
    VgCreateStepsPhase(desired, SortedStrings(desired.vgs.Keys - current.vgs.Keys));
  }

  lemma ResizeLvPhase(vgName: string, lvd: LV, vgc: VG)
    requires ResizeLv(vgName, lvd, vgc).Ok?
    ensures AllPhase(ResizeLv(vgName, lvd, vgc).value, 7)
  {
    PhaseOfVerb(ResizeCmd(vgName, lvd));
  }

  lemma VgExtendPhase(vgd: VG, vgc: VG)
    ensures AllPhase(VgExtend(vgd, vgc), 7)
  {
    var ext := VgExtend(vgd, vgc);
    if ext != [] {
      var c := ["vgextend", vgd.name] + SortedDevices(vgd.pvs - vgc.pvs);
      assert c[0] == "vgextend";
      PhaseOfVerb(c);
      assert ext == [c];
    }
  }

  lemma VgReducePhase(vgd: VG, vgc: VG)
    ensures AllPhase(VgReduce(vgd, vgc), 7)
  {
    var red := VgReduce(vgd, vgc);
    if red != [] {
      var c := ["vgreduce", "--yes", vgd.name] + SortedDevices(vgc.pvs - vgd.pvs);
      assert c[0] == "vgreduce";
      PhaseOfVerb(c);
      assert red == [c];
    }
  }

  lemma PvMembershipPhase(vgd: VG, vgc: VG)
    ensures AllPhase(PvMembership(vgd, vgc), 7)
  {
    VgExtendPhase(vgd, vgc);
    VgReducePhase(vgd, vgc);
  }

  lemma ResizesPhase(vgd: VG, vgc: VG)
    requires Resizes(vgd, vgc).Ok?
    ensures AllPhase(Resizes(vgd, vgc).value, 7)
  {
    var lkeys := SortedStrings(vgd.lvs.Keys);
    var step := ResizeStep(vgd, vgc);
    var p := (c: Cmd) => Phase(c) == 7;
    forall i | 0 <= i < |lkeys| && step(lkeys[i]).Ok?
      ensures forall k :: 0 <= k < |step(lkeys[i]).value| ==> p(step(lkeys[i]).value[k])
    {
      if lkeys[i] in vgd.lvs {
        ResizeLvPhase(vgd.name, vgd.lvs[lkeys[i]], vgc);
      }
    }
    CollectAll(lkeys, step, p);
  }

  lemma ConvergeVgPhase(current: Entities, vgd: VG)
    requires ConvergeVg(current, vgd).Ok?
    ensures AllPhase(ConvergeVg(current, vgd).value, 7)
  {
    if vgd.name in current.vgs {
      var vgc := current.vgs[vgd.name];
      ResizesPhase(vgd, vgc);
      PvMembershipPhase(vgd, vgc);
    }
  }

  lemma ConvergePhase(desired: Entities, current: Entities)
    requires Converge(desired, current).Ok?
    ensures AllPhase(Converge(desired, current).value, 7)
  {
    var keys := SortedStrings(desired.vgs.Keys);
    var step := ConvergeStep(desired, current);
    var p := (c: Cmd) => Phase(c) == 7;
    forall i | 0 <= i < |keys| && step(keys[i]).Ok?
      ensures forall k :: 0 <= k < |step(keys[i]).value| ==> p(step(keys[i]).value[k])
    {
      if keys[i] in desired.vgs {
        ConvergeVgPhase(current, desired.vgs[keys[i]]);
      }
    }
    CollectAll(keys, step, p);
  }

  /** Every command has a phase, and phases never decrease along `s`. */
  ghost predicate PhaseOrdered(s: seq<Cmd>) {
    && (forall i :: 0 <= i < |s| ==> 1 <= Phase(s[i]) <= 7)
    && (forall i, j :: 0 <= i < j < |s| ==> Phase(s[i]) <= Phase(s[j]))
  }

  /** No phase of `s` exceeds `n`. */
  ghost predicate PhasesUpTo(s: seq<Cmd>, n: nat) {
    forall i :: 0 <= i < |s| ==> Phase(s[i]) <= n
  }

  lemma AppendPhase(a: seq<Cmd>, b: seq<Cmd>, n: nat)
    requires PhaseOrdered(a) && PhasesUpTo(a, n) && AllPhase(b, n) && 1 <= n <= 7
    ensures PhaseOrdered(a + b) && PhasesUpTo(a + b, n)
  {
  }

  lemma PvBatchPhases(desired: Entities, current: Entities)
    ensures AllPhase([PvRemove(desired, current)], 3)
    ensures AllPhase([PvCreate(desired, current)], 4)
  {
    assert PvRemove(desired, current)[0] == "pvremove";
    assert PvCreate(desired, current)[0] == "pvcreate";
    PhaseOfVerb(PvRemove(desired, current));
    PhaseOfVerb(PvCreate(desired, current));
  }

  lemma SixPhases(lr: seq<Cmd>, vr: seq<Cmd>, pr: Cmd, pc: Cmd, vc: seq<Cmd>, lc: seq<Cmd>)
    requires AllPhase(lr, 1) && AllPhase(vr, 2) && AllPhase([pr], 3) && AllPhase([pc], 4)
    requires AllPhase(vc, 5) && AllPhase(lc, 6)
    ensures PhaseOrdered(lr + vr + [pr, pc] + vc + lc) && PhasesUpTo(lr + vr + [pr, pc] + vc + lc, 6)
  {
    AppendPhase([], lr, 1);
    assert [] + lr == lr;
    AppendPhase(lr, vr, 2);
    AppendPhase(lr + vr, [pr], 3);
    AppendPhase(lr + vr + [pr], [pc], 4);
    assert lr + vr + [pr] + [pc] == lr + vr + [pr, pc];
    AppendPhase(lr + vr + [pr, pc], vc, 5);
    AppendPhase(lr + vr + [pr, pc] + vc, lc, 6);
  }

  lemma PreludePhaseOrder(desired: Entities, current: Entities)
    ensures PhaseOrdered(Prelude(desired, current)) && PhasesUpTo(Prelude(desired, current), 6)
  {
    LvRemovesPhase(desired, current);
    VgRemovesPhase(desired, current);
    PvBatchPhases(desired, current);
    VgCreatesPhase(desired, current);
    LvCreatesPhase(desired, current);
    SixPhases(LvRemoves(desired, current), VgRemoves(desired, current), PvRemove(desired, current),
      PvCreate(desired, current), VgCreates(desired, current), LvCreates(desired, current));
  }

  /** Phases 1 to 7 follow each other in this order in every plan. */
  lemma PlanPhaseOrder(desired: Entities, current: Entities)
    requires Plan(desired, current).Ok?
    ensures PhaseOrdered(Plan(desired, current).value)
  {
    PreludePhaseOrder(desired, current);
    ConvergePhase(desired, current);
    AppendPhase(Prelude(desired, current), Converge(desired, current).value, 7);
  }

  // ---------------------------------------------------------------------------
  // Phases 1 to 6 emit exactly what the differences call for.

  /** `render` applied to some LV of `from` that `other` is missing. */
  ghost predicate RendersMissing(from: Entities, other: Entities, render: (VG, LV) -> Cmd, cmd: Cmd) {
    exists vk, lk :: MissingAt(from, other, vk, lk) && cmd == render(from.vgs[vk], from.vgs[vk].lvs[lk])
  }

  lemma LvCmdsSoundAny(from: Entities, other: Entities, render: (VG, LV) -> Cmd, cmd: Cmd)
    requires cmd in LvCmds(from, other, render)
    ensures RendersMissing(from, other, render, cmd)
  {
    var vk, lk := LvCmdsSound(from, other, render, cmd);
  }

  lemma LvCmdsCompleteAny(from: Entities, other: Entities, render: (VG, LV) -> Cmd, cmd: Cmd)
    requires RendersMissing(from, other, render, cmd)
    ensures cmd in LvCmds(from, other, render)
  {
    var vk, lk :| MissingAt(from, other, vk, lk) && cmd == render(from.vgs[vk], from.vgs[vk].lvs[lk]);
    LvCmdsComplete(from, other, render, vk, lk);
  }

  /** The commands of `LvCmds` are exactly those for the LVs of `from` that `other` is missing. */
  lemma LvCmdsExact(from: Entities, other: Entities, render: (VG, LV) -> Cmd, cmd: Cmd)
    ensures cmd in LvCmds(from, other, render) <==>
      exists vk, lk :: MissingAt(from, other, vk, lk) && cmd == render(from.vgs[vk], from.vgs[vk].lvs[lk])
  {
    if cmd in LvCmds(from, other, render) {
      LvCmdsSoundAny(from, other, render, cmd);
    }
    if RendersMissing(from, other, render, cmd) {
      LvCmdsCompleteAny(from, other, render, cmd);
    }
  }

  lemma VgRemoveStepsExact(names: seq<string>, cmd: Cmd)
    ensures cmd in FlatMap(names, VgRemoveStep()) <==> exists n :: n in names && cmd == ["vgremove", "--yes", n]
  {
    FlatMapMember(names, VgRemoveStep(), cmd);
    if exists n :: n in names && cmd == ["vgremove", "--yes", n] {
      var n :| n in names && cmd == ["vgremove", "--yes", n];
      var i :| 0 <= i < |names| && names[i] == n;
      assert cmd in VgRemoveStep()(names[i]);
    }
  }

  /** Phase 2 removes exactly the current VG names that are not desired. */
  lemma VgRemovesExact(desired: Entities, current: Entities, cmd: Cmd)
    ensures cmd in VgRemoves(desired, current) <==>
      exists n :: n in current.vgs && n !in desired.vgs && cmd == ["vgremove", "--yes", n]
  {
    var names := SortedStrings(current.vgs.Keys - desired.vgs.Keys);
    VgRemoveStepsExact(names, cmd);
    assert forall n :: n in names <==> n in current.vgs && n !in desired.vgs;
  }

  /** The device list of `SortedDevices` is exactly the given set's devices, each once. */
  ghost predicate ListsExactly(r: seq<string>, pvs: set<PV>) {
    && (forall d :: d in r <==> PV(d) in pvs)
    && (forall i, j :: 0 <= i < |r| && 0 <= j < |r| && i != j ==> r[i] != r[j])
  }

  /** Phases 3 and 4 are single batches of exactly the PVs to remove and to create. */
  lemma PvBatchesExact(desired: Entities, current: Entities)
    ensures PvRemove(desired, current)[..2] == ["pvremove", "--yes"]
    ensures ListsExactly(PvRemove(desired, current)[2..], current.pvs - desired.pvs)
    ensures PvCreate(desired, current)[..2] == ["pvcreate", "--yes"]
    ensures ListsExactly(PvCreate(desired, current)[2..], desired.pvs - current.pvs)
  {
    assert PvRemove(desired, current)[2..] == SortedDevices(current.pvs - desired.pvs);
    assert PvCreate(desired, current)[2..] == SortedDevices(desired.pvs - current.pvs);
  }

  lemma VgCreateStepsExact(desired: Entities, names: seq<string>, cmd: Cmd)
    ensures cmd in FlatMap(names, VgCreateStep(desired)) <==>
      exists n :: n in names && n in desired.vgs && cmd == VgCreateCmd(desired, n)
  {
    var step := VgCreateStep(desired);
    FlatMapMember(names, step, cmd);
    if exists n :: n in names && n in desired.vgs && cmd == VgCreateCmd(desired, n) {
      var n :| n in names && n in desired.vgs && cmd == VgCreateCmd(desired, n);
      var i :| 0 <= i < |names| && names[i] == n;
      assert cmd in step(names[i]);
    }
  }

  /** Phase 5 creates exactly the desired VGs that are not current, each with all its PVs. */
  lemma VgCreatesExact(desired: Entities, current: Entities, cmd: Cmd)
    ensures cmd in VgCreates(desired, current) <==>
      exists n :: n in desired.vgs && n !in current.vgs && cmd == VgCreateCmd(desired, n)
  {
    var names := SortedStrings(desired.vgs.Keys - current.vgs.Keys);
    VgCreateStepsExact(desired, names, cmd);
    assert forall n :: n in names <==> n in desired.vgs && n !in current.vgs;
  }

  // ---------------------------------------------------------------------------
  // Phase 7 emits exactly what the differences call for, or the layout error.

  /** The desired LV under `lk` exists in the current VG with another size. */
  ghost predicate LvResizeAt(vgd: VG, vgc: VG, lk: string) {
    lk in vgd.lvs && vgd.lvs[lk].name in vgc.lvs && vgc.lvs[vgd.lvs[lk].name].size != vgd.lvs[lk].size
  }

  /** The desired LV under `lk` exists in the current VG with another layout. */
  ghost predicate LvConflictAt(vgd: VG, vgc: VG, lk: string) {
    lk in vgd.lvs && vgd.lvs[lk].name in vgc.lvs && vgc.lvs[vgd.lvs[lk].name].layout != vgd.lvs[lk].layout
  }

  /** The error raised for the LV under `lk`. */
  function ConflictOf(vgd: VG, vgc: VG, lk: string): LayoutConflict
    requires lk in vgd.lvs && vgd.lvs[lk].name in vgc.lvs
  {
    LayoutConflict(vgd.lvs[lk].name, vgc.lvs[vgd.lvs[lk].name].layout, vgd.lvs[lk].layout)
  }

  /** The LV loop of one VG fails exactly when one of its LVs changes layout, with that LV's error. */
  lemma ResizesErr(vgd: VG, vgc: VG)
    ensures Resizes(vgd, vgc).Err? <==> exists lk :: LvConflictAt(vgd, vgc, lk)
    ensures Resizes(vgd, vgc).Err? ==>
      exists lk :: LvConflictAt(vgd, vgc, lk) && Resizes(vgd, vgc).error == ConflictOf(vgd, vgc, lk)
  {
    var keys := SortedStrings(vgd.lvs.Keys);
    var step := ResizeStep(vgd, vgc);
    CollectErr(keys, step);
    if exists lk :: LvConflictAt(vgd, vgc, lk) {
      var lk :| LvConflictAt(vgd, vgc, lk);
      assert lk in keys;
      var i :| 0 <= i < |keys| && keys[i] == lk;
      assert step(keys[i]).Err?;
    }
    if Resizes(vgd, vgc).Err? {
      var i :| 0 <= i < |keys| && step(keys[i]) == Err(Resizes(vgd, vgc).error);
      assert LvConflictAt(vgd, vgc, keys[i]);
    }
  }

  lemma ResizeStepMember(vgd: VG, vgc: VG, lk: string, cmd: Cmd)
    requires ResizeStep(vgd, vgc)(lk).Ok?
    ensures cmd in ResizeStep(vgd, vgc)(lk).value <==> LvResizeAt(vgd, vgc, lk) && cmd == ResizeCmd(vgd.name, vgd.lvs[lk])
  {
  }

  lemma ResizesSound(vgd: VG, vgc: VG, cmd: Cmd)
    requires Resizes(vgd, vgc).Ok? && cmd in Resizes(vgd, vgc).value
    ensures exists lk :: LvResizeAt(vgd, vgc, lk) && cmd == ResizeCmd(vgd.name, vgd.lvs[lk])
  {
    var keys := SortedStrings(vgd.lvs.Keys);
    CollectOk(keys, ResizeStep(vgd, vgc), cmd);
    var i :| 0 <= i < |keys| && cmd in ResizeStep(vgd, vgc)(keys[i]).value;
    ResizeStepMember(vgd, vgc, keys[i], cmd);
  }

  lemma ResizesComplete(vgd: VG, vgc: VG, lk: string, cmd: Cmd)
    requires Resizes(vgd, vgc).Ok? && LvResizeAt(vgd, vgc, lk) && cmd == ResizeCmd(vgd.name, vgd.lvs[lk])
    ensures cmd in Resizes(vgd, vgc).value
  {
    var keys := SortedStrings(vgd.lvs.Keys);
    CollectOk(keys, ResizeStep(vgd, vgc), cmd);
    assert lk in keys;
    var i :| 0 <= i < |keys| && keys[i] == lk;
    ResizeStepMember(vgd, vgc, keys[i], cmd);
  }

  /** When the LV loop of one VG succeeds, it resizes exactly the LVs whose size changes. */
  lemma ResizesMember(vgd: VG, vgc: VG, cmd: Cmd)
    requires Resizes(vgd, vgc).Ok?
    ensures cmd in Resizes(vgd, vgc).value <==>
      exists lk :: LvResizeAt(vgd, vgc, lk) && cmd == ResizeCmd(vgd.name, vgd.lvs[lk])
  {
    if cmd in Resizes(vgd, vgc).value {
      ResizesSound(vgd, vgc, cmd);
    }
    if exists lk :: LvResizeAt(vgd, vgc, lk) && cmd == ResizeCmd(vgd.name, vgd.lvs[lk]) {
      var lk :| LvResizeAt(vgd, vgc, lk) && cmd == ResizeCmd(vgd.name, vgd.lvs[lk]);
      ResizesComplete(vgd, vgc, lk, cmd);
    }
  }

  /** `vgextend` is emitted only when the VG gains PVs, and lists exactly those. */
  lemma VgExtendExact(vgd: VG, vgc: VG)
    ensures |VgExtend(vgd, vgc)| <= 1
    ensures VgExtend(vgd, vgc) != [] <==> vgd.pvs - vgc.pvs != {}
    ensures VgExtend(vgd, vgc) != [] ==>
      && VgExtend(vgd, vgc)[0][..2] == ["vgextend", vgd.name]
      && ListsExactly(VgExtend(vgd, vgc)[0][2..], vgd.pvs - vgc.pvs)
  {
    if vgd.pvs - vgc.pvs != {} {
      assert VgExtend(vgd, vgc)[0][2..] == SortedDevices(vgd.pvs - vgc.pvs);
    }
  }

  /** `vgreduce` is emitted only when the VG loses PVs, and lists exactly those. */
  lemma VgReduceExact(vgd: VG, vgc: VG)
    ensures |VgReduce(vgd, vgc)| <= 1
    ensures VgReduce(vgd, vgc) != [] <==> vgc.pvs - vgd.pvs != {}
    ensures VgReduce(vgd, vgc) != [] ==>
      && VgReduce(vgd, vgc)[0][..3] == ["vgreduce", "--yes", vgd.name]
      && ListsExactly(VgReduce(vgd, vgc)[0][3..], vgc.pvs - vgd.pvs)
  {
    if vgc.pvs - vgd.pvs != {} {
      assert VgReduce(vgd, vgc)[0][3..] == SortedDevices(vgc.pvs - vgd.pvs);
    }
  }

  /** The desired VG under `vk` also exists currently. */
  ghost predicate Shared(desired: Entities, current: Entities, vk: string) {
    vk in desired.vgs && desired.vgs[vk].name in current.vgs
  }

  /** The current VG of the same name as the desired VG under `vk`. */
  ghost function CurrentVg(desired: Entities, current: Entities, vk: string): VG
    requires Shared(desired, current, vk)
  {
    current.vgs[desired.vgs[vk].name]
  }

  /** An LV present on both sides whose layout differs. */
  ghost predicate ConflictAt(desired: Entities, current: Entities, vk: string, lk: string) {
    Shared(desired, current, vk) && LvConflictAt(desired.vgs[vk], CurrentVg(desired, current, vk), lk)
  }

  /** An LV present on both sides whose size differs. */
  ghost predicate ResizeAt(desired: Entities, current: Entities, vk: string, lk: string) {
    Shared(desired, current, vk) && LvResizeAt(desired.vgs[vk], CurrentVg(desired, current, vk), lk)
  }

  lemma ConvergeStepErr(desired: Entities, current: Entities, vk: string)
    ensures ConvergeStep(desired, current)(vk).Err? <==> exists lk :: ConflictAt(desired, current, vk, lk)
    ensures ConvergeStep(desired, current)(vk).Err? ==>
      exists lk :: ConflictAt(desired, current, vk, lk)
        && ConvergeStep(desired, current)(vk).error == ConflictOf(desired.vgs[vk], CurrentVg(desired, current, vk), lk)
  {
    if Shared(desired, current, vk) {
      var vgd, vgc := desired.vgs[vk], CurrentVg(desired, current, vk);
      ResizesErr(vgd, vgc);
      assert ConvergeStep(desired, current)(vk).Err? <==> Resizes(vgd, vgc).Err?;
      if Resizes(vgd, vgc).Err? {
        var lk :| LvConflictAt(vgd, vgc, lk) && Resizes(vgd, vgc).error == ConflictOf(vgd, vgc, lk);
        assert ConflictAt(desired, current, vk, lk);
      }
    }
  }

  lemma ConvergeErrComplete(desired: Entities, current: Entities, vk: string, lk: string)
    requires ConflictAt(desired, current, vk, lk)
    ensures Converge(desired, current).Err?
  {
    var keys := SortedStrings(desired.vgs.Keys);
    var step := ConvergeStep(desired, current);
    CollectErr(keys, step);
    ConvergeStepErr(desired, current, vk);
    assert vk in keys;
    var i :| 0 <= i < |keys| && keys[i] == vk;
    assert step(keys[i]).Err?;
  }

  lemma ConvergeErrSound(desired: Entities, current: Entities)
    requires Converge(desired, current).Err?
    ensures exists vk, lk :: (ConflictAt(desired, current, vk, lk)
      && Converge(desired, current).error == ConflictOf(desired.vgs[vk], CurrentVg(desired, current, vk), lk))
  {
    var keys := SortedStrings(desired.vgs.Keys);
    var step := ConvergeStep(desired, current);
    CollectErr(keys, step);
    var i :| 0 <= i < |keys| && step(keys[i]) == Err(Converge(desired, current).error);
    ConvergeStepErr(desired, current, keys[i]);
  }

  /** Phase 7 fails exactly when a shared LV changes layout, and the error names such an LV. */
  lemma ConvergeErr(desired: Entities, current: Entities)
    ensures Converge(desired, current).Err? <==> exists vk, lk :: ConflictAt(desired, current, vk, lk)
    ensures Converge(desired, current).Err? ==>
      exists vk, lk :: ConflictAt(desired, current, vk, lk)
        && Converge(desired, current).error == ConflictOf(desired.vgs[vk], CurrentVg(desired, current, vk), lk)
  {
    if exists vk, lk :: ConflictAt(desired, current, vk, lk) {
      var vk, lk :| ConflictAt(desired, current, vk, lk);
      ConvergeErrComplete(desired, current, vk, lk);
    }
    if Converge(desired, current).Err? {
      ConvergeErrSound(desired, current);
    }
  }

  /** The commands phase 7 emits for the desired VG under `vk`. */
  ghost predicate UpdateAt(desired: Entities, current: Entities, vk: string, cmd: Cmd) {
    && Shared(desired, current, vk)
    && var vgd, vgc := desired.vgs[vk], CurrentVg(desired, current, vk);
    && Resizes(vgd, vgc).Ok?
    && (cmd in VgExtend(vgd, vgc) || cmd in VgReduce(vgd, vgc) || cmd in Resizes(vgd, vgc).value)
  }

  lemma ConvergeStepMember(desired: Entities, current: Entities, vk: string, cmd: Cmd)
    requires ConvergeStep(desired, current)(vk).Ok?
    ensures cmd in ConvergeStep(desired, current)(vk).value <==> UpdateAt(desired, current, vk, cmd)
  {
    if Shared(desired, current, vk) {
      var vgd, vgc := desired.vgs[vk], CurrentVg(desired, current, vk);
      assert ConvergeStep(desired, current)(vk).value == VgExtend(vgd, vgc) + VgReduce(vgd, vgc) + Resizes(vgd, vgc).value;
    }
  }

  lemma ConvergeMemberSound(desired: Entities, current: Entities, cmd: Cmd)
    requires Converge(desired, current).Ok? && cmd in Converge(desired, current).value
    ensures exists vk :: UpdateAt(desired, current, vk, cmd)
  {
    var keys := SortedStrings(desired.vgs.Keys);
    var step := ConvergeStep(desired, current);
    CollectOk(keys, step, cmd);
    var i :| 0 <= i < |keys| && cmd in step(keys[i]).value;
    ConvergeStepMember(desired, current, keys[i], cmd);
  }

  lemma ConvergeMemberComplete(desired: Entities, current: Entities, vk: string, cmd: Cmd)
    requires Converge(desired, current).Ok? && UpdateAt(desired, current, vk, cmd)
    ensures cmd in Converge(desired, current).value
  {
    var keys := SortedStrings(desired.vgs.Keys);
    var step := ConvergeStep(desired, current);
    CollectOk(keys, step, cmd);
    assert vk in keys;
    var i :| 0 <= i < |keys| && keys[i] == vk;
    ConvergeStepMember(desired, current, keys[i], cmd);
  }

  /** Phase 7 emits exactly the per-VG updates of the VGs present on both sides. */
  lemma ConvergeMember(desired: Entities, current: Entities, cmd: Cmd)
    requires Converge(desired, current).Ok?
    ensures cmd in Converge(desired, current).value <==> exists vk :: UpdateAt(desired, current, vk, cmd)
  {
    if cmd in Converge(desired, current).value {
      ConvergeMemberSound(desired, current, cmd);
    }
    if exists vk :: UpdateAt(desired, current, vk, cmd) {
      var vk :| UpdateAt(desired, current, vk, cmd);
      ConvergeMemberComplete(desired, current, vk, cmd);
    }
  }

  // ---------------------------------------------------------------------------
  // The whole plan.

  /** Planning fails exactly when an LV present on both sides changes layout, with that LV's error. */
  lemma PlanLayoutConflict(desired: Entities, current: Entities)
    ensures Plan(desired, current).Err? <==> exists vk, lk :: ConflictAt(desired, current, vk, lk)
    ensures Plan(desired, current).Err? ==>
      exists vk, lk :: ConflictAt(desired, current, vk, lk)
        && Plan(desired, current).error == ConflictOf(desired.vgs[vk], CurrentVg(desired, current, vk), lk)
  {
    ConvergeErr(desired, current);
  }

  lemma PhaseOfMember(s: seq<Cmd>, n: nat, cmd: Cmd)
    requires AllPhase(s, n) && cmd in s
    ensures Phase(cmd) == n
  {
    var i :| 0 <= i < |s| && s[i] == cmd;
  }

  /** Among the commands of `p`, those of phases 1 to 7 are exactly the members of the seven segments. */
  ghost predicate SplitByPhase(p: seq<Cmd>, lr: seq<Cmd>, vr: seq<Cmd>, pr: Cmd, pc: Cmd, vc: seq<Cmd>, lc: seq<Cmd>, up: seq<Cmd>, cmd: Cmd) {
    && (cmd in p && Phase(cmd) == 1 <==> cmd in lr)
    && (cmd in p && Phase(cmd) == 2 <==> cmd in vr)
    && (cmd in p && Phase(cmd) == 3 <==> cmd == pr)
    && (cmd in p && Phase(cmd) == 4 <==> cmd == pc)
    && (cmd in p && Phase(cmd) == 5 <==> cmd in vc)
    && (cmd in p && Phase(cmd) == 6 <==> cmd in lc)
    && (cmd in p && Phase(cmd) == 7 <==> cmd in up)
  }

  lemma SevenSegments(lr: seq<Cmd>, vr: seq<Cmd>, pr: Cmd, pc: Cmd, vc: seq<Cmd>, lc: seq<Cmd>, up: seq<Cmd>, cmd: Cmd)
    requires AllPhase(lr, 1) && AllPhase(vr, 2) && AllPhase([pr], 3) && AllPhase([pc], 4)
    requires AllPhase(vc, 5) && AllPhase(lc, 6) && AllPhase(up, 7)
    ensures SplitByPhase(lr + vr + [pr, pc] + vc + lc + up, lr, vr, pr, pc, vc, lc, up, cmd)
  {
    if cmd in lr { PhaseOfMember(lr, 1, cmd); }
    if cmd in vr { PhaseOfMember(vr, 2, cmd); }
    if cmd in [pr] { PhaseOfMember([pr], 3, cmd); }
    if cmd in [pc] { PhaseOfMember([pc], 4, cmd); }
    if cmd in vc { PhaseOfMember(vc, 5, cmd); }
    if cmd in lc { PhaseOfMember(lc, 6, cmd); }
    if cmd in up { PhaseOfMember(up, 7, cmd); }
    assert lr + vr + [pr, pc] == lr + vr + [pr] + [pc];
  }

  /** The commands of each phase in the plan are exactly those its phase function emits. */
  lemma PlanPhases(desired: Entities, current: Entities, cmd: Cmd)
    requires Plan(desired, current).Ok?
    ensures Converge(desired, current).Ok?
    ensures SplitByPhase(Plan(desired, current).value, LvRemoves(desired, current), VgRemoves(desired, current),
      PvRemove(desired, current), PvCreate(desired, current), VgCreates(desired, current), LvCreates(desired, current),
      Converge(desired, current).value, cmd)
  {
    PlanShape(desired, current);
    PlanSegmentPhases(desired, current);
    SevenSegments(LvRemoves(desired, current), VgRemoves(desired, current), PvRemove(desired, current),
      PvCreate(desired, current), VgCreates(desired, current), LvCreates(desired, current),
      Converge(desired, current).value, cmd);
  }

  /** Within a plan, the phase-`n` members are those with the phase's verb. */
  lemma VerbSegment(p: seq<Cmd>, seg: seq<Cmd>, cmd: Cmd, n: nat, verb: string)
    requires (cmd in p && Phase(cmd) == n <==> cmd in seg) && (Phase(cmd) == n <==> Verb(cmd) == verb)
    ensures cmd in p && Verb(cmd) == verb <==> cmd in seg
  {
  }

  /** Phase 1 of the plan: an `lvremove` exactly for each current LV the desired state lacks. */
  lemma PlanLvRemoves(desired: Entities, current: Entities, cmd: Cmd)
    requires Plan(desired, current).Ok?
    ensures cmd in Plan(desired, current).value && Verb(cmd) == "lvremove" <==>
      exists vk, lk :: MissingAt(current, desired, vk, lk) && cmd == LvRemoveCmd(current.vgs[vk], current.vgs[vk].lvs[lk])
  {
    assert cmd in Plan(desired, current).value && Phase(cmd) == 1 <==> cmd in LvRemoves(desired, current) by {
      PlanPhases(desired, current, cmd);
    }
    PhaseOfVerb(cmd);
    VerbSegment(Plan(desired, current).value, LvRemoves(desired, current), cmd, 1, "lvremove");
    LvCmdsExact(current, desired, LvRemoveCmd, cmd);
  }

  /** Phase 2 of the plan: a `vgremove` exactly for each current VG name that is not desired. */
  lemma PlanVgRemoves(desired: Entities, current: Entities, cmd: Cmd)
    requires Plan(desired, current).Ok?
    ensures cmd in Plan(desired, current).value && Verb(cmd) == "vgremove" <==>
      exists n :: n in current.vgs && n !in desired.vgs && cmd == ["vgremove", "--yes", n]
  {
    assert cmd in Plan(desired, current).value && Phase(cmd) == 2 <==> cmd in VgRemoves(desired, current) by {
      PlanPhases(desired, current, cmd);
    }
    PhaseOfVerb(cmd);
    VerbSegment(Plan(desired, current).value, VgRemoves(desired, current), cmd, 2, "vgremove");
    VgRemovesExact(desired, current, cmd);
  }

  lemma BatchPositions(p: seq<Cmd>, k: nat, lr: seq<Cmd>, vr: seq<Cmd>, pr: Cmd, pc: Cmd, vc: seq<Cmd>, lc: seq<Cmd>, up: seq<Cmd>)
    requires p == lr + vr + [pr, pc] + vc + lc + up && k == |lr| + |vr|
    requires AllPhase(lr, 1) && AllPhase(vr, 2) && AllPhase([pr], 3) && AllPhase([pc], 4)
    requires AllPhase(vc, 5) && AllPhase(lc, 6) && AllPhase(up, 7)
    ensures forall i :: 0 <= i < |p| ==>
      (Verb(p[i]) == "pvremove" <==> i == k) && (Verb(p[i]) == "pvcreate" <==> i == k + 1)
  {
    forall i | 0 <= i < |p| ensures (Phase(p[i]) == 3 <==> i == k) && (Phase(p[i]) == 4 <==> i == k + 1) {
      if i == k {
        assert p[i] == [pr][0];
      } else if i == k + 1 {
        assert p[i] == [pc][0];
      } else if i < |lr| {
        assert p[i] == lr[i];
      } else if i < k {
        assert p[i] == vr[i - |lr|];
      } else if k + 1 < i < k + 2 + |vc| {
        assert p[i] == vc[i - k - 2];
      } else if k + 2 + |vc| <= i < k + 2 + |vc| + |lc| {
        assert p[i] == lc[i - k - 2 - |vc|];
      } else if k + 2 + |vc| + |lc| <= i {
        assert p[i] == up[i - k - 2 - |vc| - |lc|];
      }
    }
  }

  /** Each of the seven segments of a plan carries its own phase. */
  lemma PlanSegmentPhases(desired: Entities, current: Entities)
    requires Plan(desired, current).Ok?
    ensures AllPhase(LvRemoves(desired, current), 1) && AllPhase(VgRemoves(desired, current), 2)
    ensures AllPhase([PvRemove(desired, current)], 3) && AllPhase([PvCreate(desired, current)], 4)
    ensures AllPhase(VgCreates(desired, current), 5) && AllPhase(LvCreates(desired, current), 6)
    ensures AllPhase(Converge(desired, current).value, 7)
  {
    LvRemovesPhase(desired, current);
    VgRemovesPhase(desired, current);
    PvBatchPhases(desired, current);
    VgCreatesPhase(desired, current);
    LvCreatesPhase(desired, current);
    ConvergePhase(desired, current);
  }

  /** A successful plan is its seven segments in order. */
  lemma PlanShape(desired: Entities, current: Entities)
    requires Plan(desired, current).Ok?
    ensures Converge(desired, current).Ok?
    ensures Plan(desired, current).value == LvRemoves(desired, current) + VgRemoves(desired, current)
      + [PvRemove(desired, current), PvCreate(desired, current)] + VgCreates(desired, current)
      + LvCreates(desired, current) + Converge(desired, current).value
  {
  }

  /** Phases 3 and 4 of the plan: exactly one `pvremove` and one `pvcreate`, right after phase 2. */
  lemma PlanPvVerbs(desired: Entities, current: Entities)
    requires Plan(desired, current).Ok?
    ensures var p, k := Plan(desired, current).value, |LvRemoves(desired, current)| + |VgRemoves(desired, current)|;
      forall i :: 0 <= i < |p| ==>
        (Verb(p[i]) == "pvremove" <==> i == k) && (Verb(p[i]) == "pvcreate" <==> i == k + 1)
  {
    var lr, vr, pr, pc := LvRemoves(desired, current), VgRemoves(desired, current), PvRemove(desired, current), PvCreate(desired, current);
    var vc, lc, up := VgCreates(desired, current), LvCreates(desired, current), Converge(desired, current).value;
    PlanShape(desired, current);
    PlanSegmentPhases(desired, current);
    BatchPositions(Plan(desired, current).value, |lr| + |vr|, lr, vr, pr, pc, vc, lc, up);
  }

  /** Phase 5 of the plan: a `vgcreate` exactly for each desired VG name that is not current. */
  lemma PlanVgCreates(desired: Entities, current: Entities, cmd: Cmd)
    requires Plan(desired, current).Ok?
    ensures cmd in Plan(desired, current).value && Verb(cmd) == "vgcreate" <==>
      exists n :: n in desired.vgs && n !in current.vgs && cmd == VgCreateCmd(desired, n)
  {
    assert cmd in Plan(desired, current).value && Phase(cmd) == 5 <==> cmd in VgCreates(desired, current) by {
      PlanPhases(desired, current, cmd);
    }
    PhaseOfVerb(cmd);
    VerbSegment(Plan(desired, current).value, VgCreates(desired, current), cmd, 5, "vgcreate");
    VgCreatesExact(desired, current, cmd);
  }

  /** Phase 6 of the plan: an `lvcreate` exactly for each desired LV the current state lacks. */
  lemma PlanLvCreates(desired: Entities, current: Entities, cmd: Cmd)
    requires Plan(desired, current).Ok?
    ensures cmd in Plan(desired, current).value && Verb(cmd) == "lvcreate" <==>
      exists vk, lk :: MissingAt(desired, current, vk, lk) && cmd == LvCreateCmd(desired.vgs[vk], desired.vgs[vk].lvs[lk])
  {
    assert cmd in Plan(desired, current).value && Phase(cmd) == 6 <==> cmd in LvCreates(desired, current) by {
      PlanPhases(desired, current, cmd);
    }
    PhaseOfVerb(cmd);
    VerbSegment(Plan(desired, current).value, LvCreates(desired, current), cmd, 6, "lvcreate");
    LvCmdsExact(desired, current, LvCreateCmd, cmd);
  }

  /** Which of the three per-VG updates a phase 7 command comes from. */
  lemma UpdateVerbs(vgd: VG, vgc: VG, cmd: Cmd)
    ensures cmd in VgExtend(vgd, vgc) ==> Verb(cmd) == "vgextend"
    ensures cmd in VgReduce(vgd, vgc) ==> Verb(cmd) == "vgreduce"
    ensures Resizes(vgd, vgc).Ok? && cmd in Resizes(vgd, vgc).value ==> Verb(cmd) == "lvresize"
  {
    if Resizes(vgd, vgc).Ok? {
      ResizesMember(vgd, vgc, cmd);
    }
  }

  /** Once planning succeeds, the LV loop of every VG present on both sides succeeds. */
  lemma SharedResizesOk(desired: Entities, current: Entities, vk: string)
    requires Converge(desired, current).Ok? && Shared(desired, current, vk)
    ensures Resizes(desired.vgs[vk], CurrentVg(desired, current, vk)).Ok?
  {
    ConvergeErr(desired, current);
    ResizesErr(desired.vgs[vk], CurrentVg(desired, current, vk));
    if Resizes(desired.vgs[vk], CurrentVg(desired, current, vk)).Err? {
      var lk :| LvConflictAt(desired.vgs[vk], CurrentVg(desired, current, vk), lk);
      assert ConflictAt(desired, current, vk, lk);
    }
  }

  lemma ConvergeVgExtends(desired: Entities, current: Entities, cmd: Cmd)
    requires Converge(desired, current).Ok?
    ensures cmd in Converge(desired, current).value && Verb(cmd) == "vgextend" <==>
      exists vk :: Shared(desired, current, vk) && cmd in VgExtend(desired.vgs[vk], CurrentVg(desired, current, vk))
  {
    ConvergeMember(desired, current, cmd);
    if cmd in Converge(desired, current).value {
      var vk :| UpdateAt(desired, current, vk, cmd);
      UpdateVerbs(desired.vgs[vk], CurrentVg(desired, current, vk), cmd);
    }
    if exists vk :: Shared(desired, current, vk) && cmd in VgExtend(desired.vgs[vk], CurrentVg(desired, current, vk)) {
      var vk :| Shared(desired, current, vk) && cmd in VgExtend(desired.vgs[vk], CurrentVg(desired, current, vk));
      SharedResizesOk(desired, current, vk);
      UpdateVerbs(desired.vgs[vk], CurrentVg(desired, current, vk), cmd);
      assert UpdateAt(desired, current, vk, cmd);
    }
  }

  lemma ConvergeVgReduces(desired: Entities, current: Entities, cmd: Cmd)
    requires Converge(desired, current).Ok?
    ensures cmd in Converge(desired, current).value && Verb(cmd) == "vgreduce" <==>
      exists vk :: Shared(desired, current, vk) && cmd in VgReduce(desired.vgs[vk], CurrentVg(desired, current, vk))
  {
    ConvergeMember(desired, current, cmd);
    if cmd in Converge(desired, current).value {
      var vk :| UpdateAt(desired, current, vk, cmd);
      UpdateVerbs(desired.vgs[vk], CurrentVg(desired, current, vk), cmd);
    }
    if exists vk :: Shared(desired, current, vk) && cmd in VgReduce(desired.vgs[vk], CurrentVg(desired, current, vk)) {
      var vk :| Shared(desired, current, vk) && cmd in VgReduce(desired.vgs[vk], CurrentVg(desired, current, vk));
      SharedResizesOk(desired, current, vk);
      UpdateVerbs(desired.vgs[vk], CurrentVg(desired, current, vk), cmd);
      assert UpdateAt(desired, current, vk, cmd);
    }
  }

  lemma ConvergeLvResizes(desired: Entities, current: Entities, cmd: Cmd)
    requires Converge(desired, current).Ok?
    ensures cmd in Converge(desired, current).value && Verb(cmd) == "lvresize" <==>
      exists vk, lk :: ResizeAt(desired, current, vk, lk) && cmd == ResizeCmd(desired.vgs[vk].name, desired.vgs[vk].lvs[lk])
  {
    ConvergeMember(desired, current, cmd);
    if cmd in Converge(desired, current).value {
      var vk :| UpdateAt(desired, current, vk, cmd);
      var vgd, vgc := desired.vgs[vk], CurrentVg(desired, current, vk);
      UpdateVerbs(vgd, vgc, cmd);
      ResizesMember(vgd, vgc, cmd);
      if Verb(cmd) == "lvresize" {
        var lk :| LvResizeAt(vgd, vgc, lk) && cmd == ResizeCmd(vgd.name, vgd.lvs[lk]);
        assert ResizeAt(desired, current, vk, lk);
      }
    }
    if exists vk, lk :: ResizeAt(desired, current, vk, lk) && cmd == ResizeCmd(desired.vgs[vk].name, desired.vgs[vk].lvs[lk]) {
      var vk, lk :| ResizeAt(desired, current, vk, lk) && cmd == ResizeCmd(desired.vgs[vk].name, desired.vgs[vk].lvs[lk]);
      var vgd, vgc := desired.vgs[vk], CurrentVg(desired, current, vk);
      SharedResizesOk(desired, current, vk);
      ResizesMember(vgd, vgc, cmd);
      assert UpdateAt(desired, current, vk, cmd);
    }
  }

  /** Phase 7 of the plan: the `vgextend` of each VG present on both sides that gains PVs. */
  lemma PlanVgExtends(desired: Entities, current: Entities, cmd: Cmd)
    requires Plan(desired, current).Ok?
    ensures cmd in Plan(desired, current).value && Verb(cmd) == "vgextend" <==>
      exists vk :: Shared(desired, current, vk) && cmd in VgExtend(desired.vgs[vk], CurrentVg(desired, current, vk))
  {
    assert cmd in Plan(desired, current).value && Phase(cmd) == 7 <==> cmd in Converge(desired, current).value by {
      PlanPhases(desired, current, cmd);
    }
    PhaseOfVerb(cmd);
    ConvergeVgExtends(desired, current, cmd);
  }

  /** Phase 7 of the plan: the `vgreduce` of each VG present on both sides that loses PVs. */
  lemma PlanVgReduces(desired: Entities, current: Entities, cmd: Cmd)
    requires Plan(desired, current).Ok?
    ensures cmd in Plan(desired, current).value && Verb(cmd) == "vgreduce" <==>
      exists vk :: Shared(desired, current, vk) && cmd in VgReduce(desired.vgs[vk], CurrentVg(desired, current, vk))
  {
    assert cmd in Plan(desired, current).value && Phase(cmd) == 7 <==> cmd in Converge(desired, current).value by {
      PlanPhases(desired, current, cmd);
    }
    PhaseOfVerb(cmd);
    ConvergeVgReduces(desired, current, cmd);
  }

  /** Phase 7 of the plan: an `lvresize` exactly for each LV present on both sides whose size differs. */
  lemma PlanLvResizes(desired: Entities, current: Entities, cmd: Cmd)
    requires Plan(desired, current).Ok?
    ensures cmd in Plan(desired, current).value && Verb(cmd) == "lvresize" <==>
      exists vk, lk :: ResizeAt(desired, current, vk, lk) && cmd == ResizeCmd(desired.vgs[vk].name, desired.vgs[vk].lvs[lk])
  {
    assert cmd in Plan(desired, current).value && Phase(cmd) == 7 <==> cmd in Converge(desired, current).value by {
      PlanPhases(desired, current, cmd);
    }
    PhaseOfVerb(cmd);
    ConvergeLvResizes(desired, current, cmd);
  }

  // ---------------------------------------------------------------------------
  // Reconciling a state with itself.

  lemma LvStepsSame(e: Entities, vg: VG, render: (VG, LV) -> Cmd)
    requires vg.name in e.vgs && e.vgs[vg.name] == vg
    requires forall lk :: lk in vg.lvs ==> vg.lvs[lk].name == lk
    ensures FlatMap(SortedStrings(vg.lvs.Keys), LvStep(e, vg, render)) == []
  {
    var lkeys := SortedStrings(vg.lvs.Keys);
    forall j | 0 <= j < |lkeys| ensures LvStep(e, vg, render)(lkeys[j]) == [] {
      var lk := lkeys[j];
      assert lk in lkeys;
      if lk in vg.lvs {
        assert vg.lvs[lk].name == lk;
        assert !Missing(e, vg, vg.lvs[lk]);
      }
    }
    FlatMapNothing(lkeys, LvStep(e, vg, render));
  }

  lemma LvCmdsSame(e: Entities, render: (VG, LV) -> Cmd)
    requires WellKeyed(e)
    ensures LvCmds(e, e, render) == []
  {
    var keys := SortedStrings(e.vgs.Keys);
    var step := VgStep(e, e, render);
    forall i | 0 <= i < |keys| ensures step(keys[i]) == [] {
      assert keys[i] in keys;
      LvStepsSame(e, e.vgs[keys[i]], render);
    }
    FlatMapNothing(keys, step);
  }

  lemma ResizesSame(vg: VG)
    requires forall lk :: lk in vg.lvs ==> vg.lvs[lk].name == lk
    ensures Resizes(vg, vg) == Ok([])
  {
    var keys := SortedStrings(vg.lvs.Keys);
    forall i | 0 <= i < |keys| ensures ResizeStep(vg, vg)(keys[i]) == Ok([]) {
      assert keys[i] in keys;
    }
    CollectNothing(keys, ResizeStep(vg, vg));
  }

  lemma ConvergeSame(e: Entities)
    requires WellKeyed(e)
    ensures Converge(e, e) == Ok([])
  {
    var keys := SortedStrings(e.vgs.Keys);
    forall i | 0 <= i < |keys| ensures ConvergeStep(e, e)(keys[i]) == Ok([]) {
      assert keys[i] in keys;
      var vg := e.vgs[keys[i]];
      ResizesSame(vg);
      assert VgExtend(vg, vg) == [] && VgReduce(vg, vg) == [];
    }
    CollectNothing(keys, ConvergeStep(e, e));
  }

  lemma VgCmdsSame(e: Entities)
    ensures VgRemoves(e, e) == [] && VgCreates(e, e) == []
  {
    assert SortedStrings(e.vgs.Keys - e.vgs.Keys) == [];
  }

  lemma PvBatchesSame(e: Entities)
    ensures PvRemove(e, e) == ["pvremove", "--yes"] && PvCreate(e, e) == ["pvcreate", "--yes"]
  {
    assert SortedDevices(e.pvs - e.pvs) == [];
  }

  lemma PreludeSame(e: Entities)
    requires WellKeyed(e)
    ensures Prelude(e, e) == [["pvremove", "--yes"], ["pvcreate", "--yes"]]
  {
    LvCmdsSame(e, LvRemoveCmd);
    LvCmdsSame(e, LvCreateCmd);
    VgCmdsSame(e);
    PvBatchesSame(e);
  }

  /**
   * Reconciling a state with itself plans no change: only the two PV batches,
   * which this code emits even when they are empty.
   */
  lemma PlanIdempotent(e: Entities)
    requires WellKeyed(e)
    ensures Plan(e, e) == Ok([["pvremove", "--yes"], ["pvcreate", "--yes"]])
  {
    PreludeSame(e);
    ConvergeSame(e);
    assert Prelude(e, e) + [] == Prelude(e, e);
  }

  // ---------------------------------------------------------------------------
  // Two argument vectors as the code builds them.

  /** `str` of an LV value: the generated dataclass representation. */
  function LvRepr(lv: LV): string {
    "LV(name='" + lv.name + "', layout='" + lv.layout + "', size='" + lv.size + "')"
  }

  /** Phase 1 as written: the LV path formats the LV value itself rather than its name. */
  function LvRemoveCmdAsWritten(vg: VG, lv: LV): Cmd {
    ["lvremove", "--yes", vg.name + "/" + LvRepr(lv)]
  }

  /** The written `lvremove` never names the LV it is meant to remove. */
  lemma LvRemoveAsWrittenMissesTarget(vg: VG, lv: LV)
    ensures LvRemoveCmdAsWritten(vg, lv)[2] != LvPath(vg.name, lv.name)
    ensures LvRemoveCmd(vg, lv)[2] == LvPath(vg.name, lv.name)
  {
    assert |LvRemoveCmdAsWritten(vg, lv)[2]| > |LvPath(vg.name, lv.name)|;
  }

  /** An argv element as the code builds it: a string, or a PV value put in by mistake. */
  datatype Arg = Text(s: string) | PvValue(pv: PV)

  function PvValues(devices: seq<string>): (r: seq<Arg>)
    ensures |r| == |devices|
    ensures forall i :: 0 <= i < |r| ==> r[i] == PvValue(PV(devices[i]))
  {
    if devices == [] then [] else [PvValue(PV(devices[0]))] + PvValues(devices[1..])
  }

  /** Phase 3 as written: the PV values themselves are appended to the argv. */
  function PvRemoveAsWritten(desired: Entities, current: Entities): seq<Arg> {
    [Text("pvremove"), Text("--yes")] + PvValues(SortedDevices(current.pvs - desired.pvs))
  }

  /** Phase 4 as written. */
  function PvCreateAsWritten(desired: Entities, current: Entities): seq<Arg> {
    [Text("pvcreate"), Text("--yes")] + PvValues(SortedDevices(desired.pvs - current.pvs))
  }

  /** `' '.join` accepts only strings; the runner joins every argv it gets. */
  predicate Joinable(args: seq<Arg>) {
    forall i :: 0 <= i < |args| ==> args[i].Text?
  }

  /** The strings a joinable argv stands for, each PV value read as its device path. */
  function Texts(args: seq<Arg>): (r: seq<string>)
    ensures |r| == |args|
    ensures forall i :: 0 <= i < |args| ==> r[i] == (if args[i].Text? then args[i].s else args[i].pv.device)
  {
    if args == [] then [] else [if args[0].Text? then args[0].s else args[0].pv.device] + Texts(args[1..])
  }

  lemma BatchJoinable(verb: string, pvs: set<PV>)
    ensures Joinable([Text(verb), Text("--yes")] + PvValues(SortedDevices(pvs))) <==> pvs == {}
  {
    var r := SortedDevices(pvs);
    var args := [Text(verb), Text("--yes")] + PvValues(r);
    assert r != [] ==> PV(r[0]) in pvs;
    if pvs != {} {
      var pv :| pv in pvs;
      assert PV(pv.device) == pv;
      assert pv.device in r;
      assert !args[2].Text?;
    } else {
      assert args == [Text(verb), Text("--yes")];
    }
  }

  /** The written PV batches can be run only when they have nothing to do. */
  lemma PvBatchesAsWrittenJoinable(desired: Entities, current: Entities)
    ensures Joinable(PvRemoveAsWritten(desired, current)) <==> current.pvs - desired.pvs == {}
    ensures Joinable(PvCreateAsWritten(desired, current)) <==> desired.pvs - current.pvs == {}
  {
    BatchJoinable("pvremove", current.pvs - desired.pvs);
    BatchJoinable("pvcreate", desired.pvs - current.pvs);
  }

  /** The batches the plan uses are the written ones with each PV value replaced by its device path. */
  lemma BatchTexts(verb: string, devices: seq<string>)
    ensures Texts([Text(verb), Text("--yes")] + PvValues(devices)) == [verb, "--yes"] + devices
  {
    var args := [Text(verb), Text("--yes")] + PvValues(devices);
    var cmd := [verb, "--yes"] + devices;
    forall i | 2 <= i < |args| ensures Texts(args)[i] == cmd[i] {
      assert args[i] == PvValues(devices)[i - 2];
    }
  }

  lemma PvBatchesCorrected(desired: Entities, current: Entities)
    ensures Texts(PvRemoveAsWritten(desired, current)) == PvRemove(desired, current)
    ensures Texts(PvCreateAsWritten(desired, current)) == PvCreate(desired, current)
  {
    BatchTexts("pvremove", SortedDevices(current.pvs - desired.pvs));
    BatchTexts("pvcreate", SortedDevices(desired.pvs - current.pvs));
  }

}

/** `update_lvm` itself: planning, then, if confirmed, fail-fast execution. */
module UpdateRun {
  import opened Wrappers
  import opened Lvm
  import opened Update

  /**
   * What running `cmds` leaves behind: nothing unless confirmed, otherwise
   * every command up to and including the first that fails.
   */
  predicate Ran(cmds: seq<Cmd>, confirmed: bool, succeeds: (nat, Cmd) -> bool, attempted: seq<Cmd>, outcome: LvmOutcome) {
    if !confirmed then attempted == [] && outcome == Declined
    else
      var k := FirstFailure(cmds, succeeds, 0);
      if k == |cmds| then attempted == cmds && outcome == Applied
      else attempted == cmds[..k + 1] && outcome == IncompleteUpdate(cmds[k])
  }

  /**
   * Fail-fast, stated without the index: the attempted commands are a prefix
   * of the plan, all but the last attempted one succeeded, and the update is
   * reported applied exactly when every command of the plan succeeded.
   */
  lemma RanFailFast(cmds: seq<Cmd>, succeeds: (nat, Cmd) -> bool, attempted: seq<Cmd>, outcome: LvmOutcome)
    requires Ran(cmds, true, succeeds, attempted, outcome)
    ensures attempted <= cmds
    ensures forall i :: 0 <= i < |attempted| - 1 ==> succeeds(i, cmds[i])
    ensures outcome == Applied <==> forall i :: 0 <= i < |cmds| ==> succeeds(i, cmds[i])
    ensures outcome != Applied ==> attempted != [] && !succeeds(|attempted| - 1, attempted[|attempted| - 1])
  {
    var k := FirstFailure(cmds, succeeds, 0);
    if k < |cmds| {
      assert attempted[k] == cmds[k];
    }
  }

  /** The running half of `update_lvm` (update.py, lines 125-139): nothing runs unless confirmed. */
  method Execute(cmds: seq<Cmd>, confirmed: bool, succeeds: (nat, Cmd) -> bool)
    returns (attempted: seq<Cmd>, outcome: LvmOutcome)
    ensures Ran(cmds, confirmed, succeeds, attempted, outcome)
  {
    if !confirmed {
      return [], Declined;
    }
    var result;
    attempted, result := RunSequentially(cmds, succeeds);
    outcome := if result.Completed? then Applied else IncompleteUpdate(result.failed);
  }

  /**
   * `update_lvm`: builds the plan phase by phase, raising on the first layout
   * change, then, if confirmed, runs the commands in order until one fails.
   */
  method UpdateLvm(desired: Entities, current: Entities, confirmed: bool, succeeds: (nat, Cmd) -> bool)
    returns (plan: Result<seq<Cmd>, LayoutConflict>, attempted: seq<Cmd>, outcome: LvmOutcome)
    ensures plan == Plan(desired, current)
    ensures plan.Err? ==> attempted == [] && outcome == Refused(plan.error)
    ensures plan.Ok? ==> Ran(plan.value, confirmed, succeeds, attempted, outcome)
  {
    plan := BuildPlan(desired, current);
    if plan.Err? {
      return plan, [], Refused(plan.error);
    }
    attempted, outcome := Execute(plan.value, confirmed, succeeds);
  }

  // ---------------------------------------------------------------------------
  // `cmds` as written: phases 1, 2, 5 and 6 are appended as generators, the
  // others as plain argv lists, and the message at line 125 runs through
  // every generator before anything is executed.

  /** An element of the written `cmds`: a generator of argvs, or one argv held as a plain list. */
  datatype CmdList = Generator(argvs: seq<Cmd>) | PlainArgv(words: seq<Arg>)

  function Words(cmd: Cmd): (r: seq<Arg>)
    ensures |r| == |cmd|
    ensures forall i :: 0 <= i < |cmd| ==> r[i] == Text(cmd[i])
  {
    if cmd == [] then [] else [Text(cmd[0])] + Words(cmd[1..])
  }

  function PlainArgvs(cmds: seq<Cmd>): (r: seq<CmdList>)
    ensures |r| == |cmds|
    ensures forall i :: 0 <= i < |cmds| ==> r[i] == PlainArgv(Words(cmds[i]))
  {
    if cmds == [] then [] else [PlainArgv(Words(cmds[0]))] + PlainArgvs(cmds[1..])
  }

  /** `cmds` once line 124 is reached, or the layout error the VG loop raises. */
  function CmdsAsWritten(desired: Entities, current: Entities): Result<seq<CmdList>, LayoutConflict> {
    match Converge(desired, current)
    case Err(e) => Err(e)
    case Ok(updates) =>
      Ok(Assemble(LvCmds(current, desired, LvRemoveCmdAsWritten), VgRemoves(desired, current),
                  PvRemoveAsWritten(desired, current), PvCreateAsWritten(desired, current),
                  VgCreates(desired, current), LvCreates(desired, current), updates))
  }

  /** Lines 46-124: six `append`s of phases 1 to 6, then one per phase-7 argv. */
  function Assemble(p1: seq<Cmd>, p2: seq<Cmd>, p3: seq<Arg>, p4: seq<Arg>, p5: seq<Cmd>, p6: seq<Cmd>, updates: seq<Cmd>): seq<CmdList> {
    [Generator(p1), Generator(p2), PlainArgv(p3), PlainArgv(p4), Generator(p5), Generator(p6)] + PlainArgvs(updates)
  }

  /**
   * The message (line 125) joins every `cmd` that `for cmd in cmd_list`
   * yields: an argv for a generator, a single word for a plain list. A word
   * joins as its characters; a PV value in its place raises.
   */
  predicate MessageJoins(cmds: seq<CmdList>) {
    forall i :: 0 <= i < |cmds| ==> cmds[i].PlainArgv? ==> Joinable(cmds[i].words)
  }

  /** A string handed to `run_cmd` as its argv: iterating it yields its characters. */
  function Chars(s: string): (r: Cmd)
    ensures |r| == |s|
    ensures forall i :: 0 <= i < |s| ==> r[i] == [s[i]]
  {
    if s == [] then [] else [[s[0]]] + Chars(s[1..])
  }

  /** What the loop at lines 132-135 hands to `run_cmd` for a plain argv: one call per word. */
  function WordRuns(words: seq<Arg>): (r: seq<Cmd>)
    requires Joinable(words)
    ensures |r| == |words|
    ensures forall i :: 0 <= i < |words| ==> r[i] == Chars(words[i].s)
  {
    if words == [] then [] else [Chars(words[0].s)] + WordRuns(words[1..])
  }

  /**
   * Everything the loop at lines 132-135 hands to `run_cmd`, in order, once
   * the message has used up the generators: each call gets a list of
   * one-character words.
   */
  function RunsAfterMessage(cmds: seq<CmdList>): (r: seq<Cmd>)
    requires MessageJoins(cmds)
    ensures forall i, j :: 0 <= i < |r| && 0 <= j < |r[i]| ==> |r[i][j]| == 1
  {
    if cmds == [] then []
    else
      assert MessageJoins(cmds[1..]) by {
        forall i | 0 <= i < |cmds[1..]| && cmds[1..][i].PlainArgv? ensures Joinable(cmds[1..][i].words) {
          assert cmds[1..][i] == cmds[i + 1];
        }
      }
      (if cmds[0].Generator? then [] else WordRuns(cmds[0].words)) + RunsAfterMessage(cmds[1..])
  }

  /** `update_lvm` as written: the layout error, then the message, then the nested run loop. */
  predicate RanAsWritten(desired: Entities, current: Entities, confirmed: bool, succeeds: (nat, Cmd) -> bool,
                         attempted: seq<Cmd>, outcome: LvmOutcome) {
    match CmdsAsWritten(desired, current)
    case Err(e) => attempted == [] && outcome == Refused(e)
    case Ok(cmds) =>
      if !MessageJoins(cmds) then attempted == [] && outcome == MessageFailed
      else Ran(RunsAfterMessage(cmds), confirmed, succeeds, attempted, outcome)
  }

  method UpdateLvmAsWritten(desired: Entities, current: Entities, confirmed: bool, succeeds: (nat, Cmd) -> bool)
    returns (attempted: seq<Cmd>, outcome: LvmOutcome)
    ensures RanAsWritten(desired, current, confirmed, succeeds, attempted, outcome)
  {
    var cmds := CmdsAsWritten(desired, current);
    if cmds.Err? {
      return [], Refused(cmds.error);
    }
    if !MessageJoins(cmds.value) {
      return [], MessageFailed;
    }
    attempted, outcome := Execute(RunsAfterMessage(cmds.value), confirmed, succeeds);
  }

  /** Planning succeeds and the message can be built, so the operator is asked. */
  predicate Displayable(desired: Entities, current: Entities) {
    CmdsAsWritten(desired, current).Ok? && MessageJoins(CmdsAsWritten(desired, current).value)
  }

  lemma AssembleJoins(p1: seq<Cmd>, p2: seq<Cmd>, p3: seq<Arg>, p4: seq<Arg>, p5: seq<Cmd>, p6: seq<Cmd>, updates: seq<Cmd>)
    ensures MessageJoins(Assemble(p1, p2, p3, p4, p5, p6, updates)) <==> Joinable(p3) && Joinable(p4)
  {
    var cmds := Assemble(p1, p2, p3, p4, p5, p6, updates);
    assert cmds[2] == PlainArgv(p3) && cmds[3] == PlainArgv(p4);
    if Joinable(p3) && Joinable(p4) {
      forall i | 0 <= i < |cmds| && cmds[i].PlainArgv? ensures Joinable(cmds[i].words) {
        if i >= 6 {
          assert cmds[i] == PlainArgvs(updates)[i - 6];
        }
      }
    }
  }

  /** As written, the operator is asked exactly when planning succeeds and there is no PV to remove or create. */
  lemma DisplayableExactly(desired: Entities, current: Entities)
    ensures Displayable(desired, current) <==>
      Converge(desired, current).Ok? && current.pvs - desired.pvs == {} && desired.pvs - current.pvs == {}
  {
    if Converge(desired, current).Ok? {
      AssembleJoins(LvCmds(current, desired, LvRemoveCmdAsWritten), VgRemoves(desired, current),
                    PvRemoveAsWritten(desired, current), PvCreateAsWritten(desired, current),
                    VgCreates(desired, current), LvCreates(desired, current), Converge(desired, current).value);
      PvBatchesAsWrittenJoinable(desired, current);
    }
  }

  /** The first word of the written `pvremove` list, as the runner receives it. */
  const PvremoveChars: Cmd := Chars("pvremove")

  lemma FirstRun(cmds: seq<CmdList>)
    requires MessageJoins(cmds)
    requires |cmds| >= 3 && cmds[0].Generator? && cmds[1].Generator?
    requires cmds[2].PlainArgv? && cmds[2].words != [] && cmds[2].words[0] == Text("pvremove")
    ensures RunsAfterMessage(cmds) != [] && RunsAfterMessage(cmds)[0] == PvremoveChars
  {
    assert RunsAfterMessage(cmds) == RunsAfterMessage(cmds[1..]);
    assert cmds[1..][0] == cmds[1] && cmds[1..][1..] == cmds[2..];
    assert RunsAfterMessage(cmds[1..]) == RunsAfterMessage(cmds[2..]);
    assert cmds[2..][0] == cmds[2];
    assert RunsAfterMessage(cmds[2..]) == WordRuns(cmds[2].words) + RunsAfterMessage(cmds[3..]);
  }

  /** An argv of one-character words belongs to no phase. */
  lemma OneCharWordsNoPhase(cmd: Cmd)
    requires forall j :: 0 <= j < |cmd| ==> |cmd[j]| == 1
    ensures Phase(cmd) == 0
  {
    assert |Verb(cmd)| <= 1;
  }

  /** No call of the run loop gets an LVM command. */
  lemma RunsNoPhase(cmds: seq<CmdList>, confirmed: bool, succeeds: (nat, Cmd) -> bool, attempted: seq<Cmd>, outcome: LvmOutcome)
    requires MessageJoins(cmds)
    requires Ran(RunsAfterMessage(cmds), confirmed, succeeds, attempted, outcome)
    ensures forall i :: 0 <= i < |attempted| ==> Phase(attempted[i]) == 0
  {
    var runs := RunsAfterMessage(cmds);
    if confirmed {
      RanFailFast(runs, succeeds, attempted, outcome);
    }
    assert attempted <= runs;
    forall i | 0 <= i < |attempted| ensures Phase(attempted[i]) == 0 {
      OneCharWordsNoPhase(runs[i]);
    }
  }

  /** A confirmed run attempts the first command, and stops there when it fails. */
  lemma RanFirst(cmds: seq<Cmd>, succeeds: (nat, Cmd) -> bool, attempted: seq<Cmd>, outcome: LvmOutcome)
    requires cmds != [] && Ran(cmds, true, succeeds, attempted, outcome)
    ensures attempted != [] && attempted[0] == cmds[0]
    ensures !succeeds(0, cmds[0]) ==> attempted == [cmds[0]] && outcome == IncompleteUpdate(cmds[0])
  {
    assert FirstFailure(cmds, succeeds, 0) == 0 || attempted[0] == cmds[0];
  }

  /** When the third element is the `pvremove` list, the first call gets its first word. */
  lemma RunsFirst(cmds: seq<CmdList>, succeeds: (nat, Cmd) -> bool, attempted: seq<Cmd>, outcome: LvmOutcome)
    requires MessageJoins(cmds)
    requires Ran(RunsAfterMessage(cmds), true, succeeds, attempted, outcome)
    requires |cmds| >= 3 && cmds[0].Generator? && cmds[1].Generator?
    requires cmds[2].PlainArgv? && cmds[2].words != [] && cmds[2].words[0] == Text("pvremove")
    ensures attempted != [] && attempted[0] == PvremoveChars
    ensures !succeeds(0, PvremoveChars) ==> attempted == [PvremoveChars] && outcome == IncompleteUpdate(PvremoveChars)
  {
    FirstRun(cmds);
    RanFirst(RunsAfterMessage(cmds), succeeds, attempted, outcome);
  }

  /** The first three elements of an assembled `cmds`. */
  lemma AssembleShape(p1: seq<Cmd>, p2: seq<Cmd>, p3: seq<Arg>, p4: seq<Arg>, p5: seq<Cmd>, p6: seq<Cmd>, updates: seq<Cmd>)
    ensures var cmds := Assemble(p1, p2, p3, p4, p5, p6, updates);
      |cmds| >= 3 && cmds[0].Generator? && cmds[1].Generator? && cmds[2] == PlainArgv(p3)
  {
  }

  /**
   * As written, no LVM command ever runs: every call of `run_cmd` gets a
   * list of one-character words (so it belongs to no phase), and once the
   * plan is accepted, displayable and confirmed, the first call gets the
   * characters of `pvremove`; when that fails, nothing else runs.
   */
  lemma AsWrittenRunsNoLvmCommand(desired: Entities, current: Entities, confirmed: bool, succeeds: (nat, Cmd) -> bool,
                                  attempted: seq<Cmd>, outcome: LvmOutcome)
    requires RanAsWritten(desired, current, confirmed, succeeds, attempted, outcome)
    ensures forall i :: 0 <= i < |attempted| ==> Phase(attempted[i]) == 0
    ensures Displayable(desired, current) && confirmed ==> attempted != [] && attempted[0] == PvremoveChars
    ensures Displayable(desired, current) && confirmed && !succeeds(0, PvremoveChars) ==>
      attempted == [PvremoveChars] && outcome == IncompleteUpdate(PvremoveChars)
  {
    var plan := CmdsAsWritten(desired, current);
    if plan.Ok? && MessageJoins(plan.value) {
      AssembleShape(LvCmds(current, desired, LvRemoveCmdAsWritten), VgRemoves(desired, current),
                    PvRemoveAsWritten(desired, current), PvCreateAsWritten(desired, current),
                    VgCreates(desired, current), LvCreates(desired, current), Converge(desired, current).value);
      RunsNoPhase(plan.value, confirmed, succeeds, attempted, outcome);
      if confirmed {
        RunsFirst(plan.value, succeeds, attempted, outcome);
      }
    }
  }
}
