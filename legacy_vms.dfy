/**
 * The earlier lifecycle controller of the `vms` package, written against the
 * VIX library: a `VM` record with its VIX provider, its network adapters and
 * the timeout for the guest tools, whose operations open the machine through
 * a VIX session and issue the library calls in a fixed order.
 *
 * Each operation is a method on the record that drives the `Govix.Vix` mock,
 * proved to log exactly the run of a plan (`Govix.Run`) and to leave the
 * record in a stated state; the ordering properties are lemmas about the plans.
 */
module LegacyVms {
  import opened Wrappers
  import opened GoStrings
  import opened Govix
  import Vms

  // ---------------------------------------------------------------------------
  // The power-state label

  /** The seven power-state flags in the order the label checks them. */
  const StateOrder: seq<PowerFlag> := [PoweringOff, PoweredOff, PoweringOn, PoweredOn, Suspending, Suspended, Resetting]

  function Label(f: PowerFlag): string
  {
    match f
    case PoweringOff => "powering-off"
    case PoweredOff => "powered-off"
    case PoweringOn => "powering-on"
    case PoweredOn => "powered-on"
    case Suspending => "suspending"
    case Suspended => "suspended"
    case Resetting => "resetting"
    case ToolsRunning => "tools-running"
    case BlockedOnMsg => "blocked"
  }

  /** The first part of `Status`: each state flag that is set overwrites the label in turn. */
  function StateLabel(s: set<PowerFlag>): string
  {
    var status := "unknown";
    var status := if PoweringOff in s then "powering-off" else status;
    var status := if PoweredOff in s then "powered-off" else status;
    var status := if PoweringOn in s then "powering-on" else status;
    var status := if PoweredOn in s then "powered-on" else status;
    var status := if Suspending in s then "suspending" else status;
    var status := if Suspended in s then "suspended" else status;
    var status := if Resetting in s then "resetting" else status;
    status
  }

  /** `Status`: the state label, then the two suffixes. */
  function Status(s: set<PowerFlag>): string
  {
    var status := StateLabel(s);
    var status := if ToolsRunning in s then status + ",tools-running" else status;
    var status := if BlockedOnMsg in s then status + ",blocked" else status;
    status
  }

  /** The label of the last flag of `order` that is set, or `unknown`. */
  function LastLabel(s: set<PowerFlag>, order: seq<PowerFlag>): string
  {
    if |order| == 0 then "unknown"
    else if order[|order| - 1] in s then Label(order[|order| - 1])
    else LastLabel(s, order[..|order| - 1])
  }

  /** The label is that of the last state flag set in check order, `unknown` when none is, then `,tools-running`, then `,blocked`. */
  lemma StatusByLastFlag(s: set<PowerFlag>)
    ensures Status(s) == LastLabel(s, StateOrder)
                         + (if ToolsRunning in s then ",tools-running" else "")
                         + (if BlockedOnMsg in s then ",blocked" else "")
  {
    StateLabelIsLast(s);
  }

  /** The overwriting chain keeps the label of the last state flag that is set. */
  lemma StateLabelIsLast(s: set<PowerFlag>)
    ensures StateLabel(s) == LastLabel(s, StateOrder)
  {
    assert LastLabel(s, [PoweringOff]) == if PoweringOff in s then "powering-off" else "unknown" by {
      assert [PoweringOff][..0] == [];
    }
    assert LastLabel(s, [PoweringOff, PoweredOff]) == if PoweredOff in s then "powered-off" else LastLabel(s, [PoweringOff]) by {
      assert [PoweringOff, PoweredOff][..1] == [PoweringOff];
    }
    assert LastLabel(s, [PoweringOff, PoweredOff, PoweringOn]) == if PoweringOn in s then "powering-on" else LastLabel(s, [PoweringOff, PoweredOff]) by {
      assert [PoweringOff, PoweredOff, PoweringOn][..2] == [PoweringOff, PoweredOff];
    }
    assert LastLabel(s, [PoweringOff, PoweredOff, PoweringOn, PoweredOn]) == if PoweredOn in s then "powered-on" else LastLabel(s, [PoweringOff, PoweredOff, PoweringOn]) by {
      assert [PoweringOff, PoweredOff, PoweringOn, PoweredOn][..3] == [PoweringOff, PoweredOff, PoweringOn];
    }
    assert LastLabel(s, [PoweringOff, PoweredOff, PoweringOn, PoweredOn, Suspending]) == if Suspending in s then "suspending" else LastLabel(s, [PoweringOff, PoweredOff, PoweringOn, PoweredOn]) by {
      assert [PoweringOff, PoweredOff, PoweringOn, PoweredOn, Suspending][..4] == [PoweringOff, PoweredOff, PoweringOn, PoweredOn];
    }
    assert LastLabel(s, [PoweringOff, PoweredOff, PoweringOn, PoweredOn, Suspending, Suspended]) == if Suspended in s then "suspended" else LastLabel(s, [PoweringOff, PoweredOff, PoweringOn, PoweredOn, Suspending]) by {
      assert [PoweringOff, PoweredOff, PoweringOn, PoweredOn, Suspending, Suspended][..5] == [PoweringOff, PoweredOff, PoweringOn, PoweredOn, Suspending];
    }
    assert LastLabel(s, [PoweringOff, PoweredOff, PoweringOn, PoweredOn, Suspending, Suspended, Resetting]) == if Resetting in s then "resetting" else LastLabel(s, [PoweringOff, PoweredOff, PoweringOn, PoweredOn, Suspending, Suspended]) by {
      assert [PoweringOff, PoweredOff, PoweringOn, PoweredOn, Suspending, Suspended, Resetting][..6] == [PoweringOff, PoweredOff, PoweringOn, PoweredOn, Suspending, Suspended];
    }
  }

  /** No state flag set: the label is `unknown`, whatever the two suffix flags say. */
  lemma StatusUnknown(s: set<PowerFlag>)
    requires forall f :: f in StateOrder ==> f !in s
    ensures Status(s) == "unknown" + (if ToolsRunning in s then ",tools-running" else "")
                                   + (if BlockedOnMsg in s then ",blocked" else "")
  {
    assert PoweringOff in StateOrder && PoweredOff in StateOrder && PoweringOn in StateOrder;
    assert PoweredOn in StateOrder && Suspending in StateOrder && Suspended in StateOrder && Resetting in StateOrder;
  }

  // ---------------------------------------------------------------------------
  // The record and its defaults

  const Second := 1_000_000_000

  /** `humanize`: parsing a byte size (None when it does not parse) and formatting one. */
  datatype Units = Units(parseBytes: string -> Option<nat>, iBytes: nat -> string)

  /** The fields of a `VM`; the timeout is in nanoseconds. */
  datatype Machine = Machine(
    vmxFile: string,
    provider: Provider,
    verifySSL: bool,
    id: string,
    image: Vms.Image,
    cpus: nat,
    memory: string,
    upgradeVHardware: bool,
    toolsInitTimeout: int,
    launchGUI: bool,
    adapters: seq<NetworkAdapter>,
    ipAddress: string,
    status: string,
    guestOS: string)

  /** `SetDefaults`: two CPUs, `512mib` and thirty seconds where unset; every other field as it was. */
  function Defaults(m: Machine): (d: Machine)
  {
    m.(cpus := if m.cpus == 0 then 2 else m.cpus,
       memory := if m.memory == "" then "512mib" else m.memory,
       toolsInitTimeout := if m.toolsInitTimeout <= 0 then 30 * Second else m.toolsInitTimeout)
  }

  /** The defaults fill exactly the unset fields, so applying them again changes nothing. */
  lemma DefaultsFillUnset(m: Machine)
    ensures var d := Defaults(m);
            d.cpus > 0 && d.memory != "" && d.toolsInitTimeout > 0
            && (m.cpus > 0 ==> d.cpus == m.cpus) && (m.cpus == 0 ==> d.cpus == 2)
            && (m.memory != "" ==> d.memory == m.memory) && (m.memory == "" ==> d.memory == "512mib")
            && (m.toolsInitTimeout > 0 ==> d.toolsInitTimeout == m.toolsInitTimeout)
            && (m.toolsInitTimeout <= 0 ==> d.toolsInitTimeout == 30_000_000_000)
            && d.(cpus := m.cpus, memory := m.memory, toolsInitTimeout := m.toolsInitTimeout) == m
            && Defaults(d) == d
  {
  }

  /** The inventory providers, which register and unregister machines. */
  predicate InInventory(p: Provider)
  {
    p == Server || p == ViServer
  }

  // ---------------------------------------------------------------------------
  // The option and value choices of `Update` and `powerOff`

  /** `powerOff`: from the guest when the guest tools run, a hard power-off otherwise. */
  function PowerOffOptions(tools: set<ToolsFlag>): (o: set<PowerOption>)
    ensures o == {FromGuest} || o == {PowerNormal}
    ensures FromGuest in o <==> ToolsRunningState in tools
  {
    if ToolsRunningState in tools then {FromGuest} else {PowerNormal}
  }

  /** The power-on options: always normal, with the GUI exactly when asked for. */
  function PowerOnOptions(launchGUI: bool): (o: set<PowerOption>)
    ensures PowerNormal in o && FromGuest !in o
    ensures LaunchGui in o <==> launchGUI
  {
    if launchGUI then {LaunchGui, PowerNormal} else {PowerNormal}
  }

  /** The memory in megabytes: 512 when the size does not parse, else whole mebibytes of the bytes. */
  function MemoryMb(units: Units, memory: string): (mb: nat)
    ensures units.parseBytes(memory).None? ==> mb == 512
    ensures units.parseBytes(memory).Some? ==>
              mb * 1048576 <= units.parseBytes(memory).value < (mb + 1) * 1048576
  {
    match units.parseBytes(memory)
    case None => 512
    case Some(bytes) => (bytes / 1024) / 1024
  }

  /** An adapter as attached: connected at start, and propagating the link state when bridged. */
  function Prepared(a: NetworkAdapter): (r: NetworkAdapter)
    ensures r.startConnected
    ensures a.connType == ConnBridged ==> r.linkStatePropagation
    ensures a.connType != ConnBridged ==> r.linkStatePropagation == a.linkStatePropagation
    ensures r.(startConnected := a.startConnected, linkStatePropagation := a.linkStatePropagation) == a
  {
    a.(startConnected := true,
       linkStatePropagation := if a.connType == ConnBridged then true else a.linkStatePropagation)
  }

  /** The adapters after the loop has reached `n` of them: the first `n` prepared in place. */
  function PrepareFirst(ads: seq<NetworkAdapter>, n: nat): (r: seq<NetworkAdapter>)
    ensures |r| == |ads|
    ensures forall i :: 0 <= i < |ads| ==> r[i] == if i < n then Prepared(ads[i]) else ads[i]
  {
    seq(|ads|, i requires 0 <= i < |ads| => if i < n then Prepared(ads[i]) else ads[i])
  }

  /** One more adapter prepared. */
  lemma PrepareNext(ads: seq<NetworkAdapter>, i: nat)
    requires i < |ads|
    ensures PrepareFirst(ads, i)[i := Prepared(ads[i])] == PrepareFirst(ads, i + 1)
  {
  }

  /** How many adapters the loop reaches: up to and including the first one whose attach fails. */
  function Reach(w: World, ads: seq<NetworkAdapter>): (n: nat)
    ensures n <= |ads|
  {
    if |ads| == 0 then 0
    else if w.failure(AddNetworkAdapter(Prepared(ads[0]))).Some? then 1
    else 1 + Reach(w, ads[1..])
  }

  lemma {:induction false} ReachFailing(w: World, ads: seq<NetworkAdapter>, i: nat)
    requires i < |ads|
    requires forall j :: 0 <= j < i ==> w.failure(AddNetworkAdapter(Prepared(ads[j]))).None?
    requires w.failure(AddNetworkAdapter(Prepared(ads[i]))).Some?
    ensures Reach(w, ads) == i + 1
    decreases i
  {
    if i > 0 {
      assert w.failure(AddNetworkAdapter(Prepared(ads[0]))).None?;
      forall j | 0 <= j < i - 1
        ensures w.failure(AddNetworkAdapter(Prepared(ads[1..][j]))).None?
      {
        assert ads[1..][j] == ads[j + 1];
      }
      ReachFailing(w, ads[1..], i - 1);
    }
  }

  lemma {:induction false} ReachAll(w: World, ads: seq<NetworkAdapter>)
    requires forall j :: 0 <= j < |ads| ==> w.failure(AddNetworkAdapter(Prepared(ads[j]))).None?
    ensures Reach(w, ads) == |ads|
    decreases |ads|
  {
    if |ads| > 0 {
      forall j | 0 <= j < |ads| - 1
        ensures w.failure(AddNetworkAdapter(Prepared(ads[1..][j]))).None?
      {
        assert ads[1..][j] == ads[j + 1];
      }
      ReachAll(w, ads[1..]);
    }
  }

  // ---------------------------------------------------------------------------
  // The plans

  /** The step after the `i`-th of a plan segment followed by the rest. */
  lemma DropNext(a: seq<Step>, rest: seq<Step>, i: nat)
    requires i < |a|
    ensures (a[i..] + rest)[0] == a[i]
    ensures (a[i..] + rest)[1..] == a[i + 1..] + rest
  {
  }

  /** Where a machine's clone lives: `<machines>/<id>/<id>.vmx`. */
  function CloneVmx(config: Vms.Config, id: string): (p: string)
    ensures config.vmsPath != "" && id != "" ==> p == config.vmsPath + "/" + id + "/" + id + ".vmx"
    ensures config.vmsPath == "" && id != "" ==> p == id + "/" + id + ".vmx"
  {
    Vms.PathJoin(Vms.PathJoin(config.vmsPath, id), id + ".vmx")
  }

  /** The pattern the gold image's vmx file is looked up with. */
  function GoldPattern(config: Vms.Config, checksum: string): string
  {
    Vms.PathJoin(Vms.PathJoin(config.goldImgsPath, checksum), "**.vmx")
  }

  /** Without a clone, its folder is cleared, then the gold machine is cloned in full; "snapshot already exists" is no failure. */
  function CloneSteps(config: Vms.Config, id: string, cloneExists: bool): seq<Step>
  {
    if cloneExists then []
    else [Remove(Vms.PathJoin(config.vmsPath, id)),
          Invoke(Clone(CloneFull, CloneVmx(config, id)), Tolerating(SnapshotAlreadyExists))]
  }

  /** `Create` after connecting, up to the nested `Update`: open the gold machine, then clone it if needed. */
  function CreatePlan(m: Machine, config: Vms.Config, gold: string, cloneExists: bool): seq<Step>
  {
    [Invoke(OpenVM(gold, m.image.password), Checked)] + CloneSteps(config, m.id, cloneExists)
  }

  /**
   * `Create`, given the matches of the gold pattern and whether the clone's vmx
   * exists: the record after, the events, the error and the clone path returned.
   * The nested `Update` runs its own session inside this one.
   */
  function CreateSpec(w: World, m: Machine, config: Vms.Config, matches: seq<string>, cloneExists: bool,
                      units: Units, codec: Vms.Codec): (Machine, seq<Event>, Option<Error>, string)
  {
    if |matches| == 0 then (m, [], Some(Failed("[ERROR] vmx file was not found: " + GoldPattern(config, m.image.checksum))), "")
    else
      var connect := Connect(m.provider, m.verifySSL);
      if w.failure(connect).Some? then (m, [Called(connect)], w.failure(connect), "")
      else
        var (m', events, err, vmxFile) := CreateBody(w, m, config, matches[0], cloneExists, units, codec);
        (m', [Called(connect)] + events + [Called(Disconnect)], err, vmxFile)
  }

  /** `Create` once connected: open and clone, then the nested `Update` of the clone. */
  function CreateBody(w: World, m: Machine, config: Vms.Config, gold: string, cloneExists: bool,
                      units: Units, codec: Vms.Codec): (Machine, seq<Event>, Option<Error>, string)
  {
    var (openLog, openErr) := Run(w, CreatePlan(m, config, gold, cloneExists));
    if openErr.Some? then (m, openLog, openErr, "")
    else
      var vmxFile := CloneVmx(config, m.id);
      var (m', updated, err) := UpdateSpec(w, m, vmxFile, units, codec);
      (m', openLog + updated, err, if err.None? then vmxFile else "")
  }

  /** Unregister where the provider keeps an inventory, delete keeping the files (forced), then remove the machine's folder when it has an id. */
  function DeleteSteps(m: Machine, vmxFile: string, config: Vms.Config): seq<Step>
  {
    (if InInventory(m.provider) then [Invoke(UnregisterVM(vmxFile), Checked)] else [])
    + ([Invoke(Delete({KeepFiles, Force}), Checked)]
       + (if m.id != "" then [Remove(Vms.PathJoin(config.vmsPath, m.id))] else []))
  }

  /** `Destroy` after connecting. */
  function DestroyPlan(w: World, m: Machine, vmxFile: string, config: Vms.Config): seq<Step>
  {
    OpenCheckSteps(vmxFile, m.image.password) + (PowerOffIf(w) + DeleteSteps(m, vmxFile, config))
  }

  /** `Destroy`: the events logged and the error returned; the record does not change. */
  function DestroySpec(w: World, m: Machine, vmxFile: string, config: Vms.Config): (seq<Event>, Option<Error>)
  {
    Session(w, m.provider, m.verifySSL, Run(w, DestroyPlan(w, m, vmxFile, config)))
  }

  /** `powerOff`: read the tools state, then power off with the options it selects. */
  function PowerOffSteps(w: World): seq<Step>
  {
    [Invoke(ToolsState, Checked), Invoke(PowerOff(PowerOffOptions(w.tools)), Checked)]
  }

  /** The image goes into the annotation; failing to marshal it ends the update. */
  function AnnotationSteps(encoded: Result<string>): seq<Step>
  {
    match encoded
    case Err(e) => [Check(Some(Failed(e)))]
    case Ok(text) => [Invoke(SetAnnotation(text), Ignored)]
  }

  /** Open the machine, then ask whether it runs. */
  function OpenCheckSteps(vmxFile: string, password: string): seq<Step>
  {
    [Invoke(OpenVM(vmxFile, password), Checked), Invoke(IsRunning, Checked)]
  }

  /** Register with the inventory where the provider keeps one, then open the machine and ask whether it runs. */
  function OpenSteps(d: Machine, vmxFile: string): seq<Step>
  {
    (if InInventory(d.provider) then [Invoke(RegisterVM(vmxFile), Checked)] else [])
    + OpenCheckSteps(vmxFile, d.image.password)
  }

  /** A running machine is powered off before it is changed. */
  function PowerOffIf(w: World): seq<Step>
  {
    if w.running then PowerOffSteps(w) else []
  }

  /** Memory, CPUs, name and the image in the annotation; only marshalling the image can fail. */
  function SettingSteps(d: Machine, units: Units, codec: Vms.Codec): seq<Step>
  {
    [Invoke(SetMemorySize(MemoryMb(units, d.memory)), Ignored),
     Invoke(SetNumberVcpus(d.cpus), Ignored),
     Invoke(SetDisplayName(d.id), Ignored)]
    + AnnotationSteps(codec.encode(d.image))
  }

  /** The virtual hardware upgrade (never on the player), then every network adapter removed. */
  function HardwareSteps(d: Machine): seq<Step>
  {
    (if d.upgradeVHardware && d.provider != Player then [Invoke(UpgradeVHardware, Checked)] else [])
    + [Invoke(RemoveAllNetworkAdapters, Checked)]
  }

  /** `Update` up to the adapter loop, on a record whose defaults are set. */
  function UpdatePre(w: World, d: Machine, vmxFile: string, units: Units, codec: Vms.Codec): seq<Step>
  {
    OpenSteps(d, vmxFile) + (PowerOffIf(w) + (SettingSteps(d, units, codec) + HardwareSteps(d)))
  }

  /** One attach per adapter, in order, each prepared first. */
  function AdapterSteps(ads: seq<NetworkAdapter>): (p: seq<Step>)
    ensures |p| == |ads|
    ensures forall i :: 0 <= i < |ads| ==> p[i] == Invoke(AddNetworkAdapter(Prepared(ads[i])), Checked)
  {
    seq(|ads|, i requires 0 <= i < |ads| => Invoke(AddNetworkAdapter(Prepared(ads[i])), Checked))
  }

  /** Power on, then wait for the tools, whose failure is only reported in the log. */
  function UpdatePost(d: Machine): seq<Step>
  {
    [Invoke(PowerOn(PowerOnOptions(d.launchGUI)), Checked), Invoke(WaitForToolsInGuest(d.toolsInitTimeout), Ignored)]
  }

  function UpdatePlan(w: World, d: Machine, vmxFile: string, units: Units, codec: Vms.Codec): seq<Step>
  {
    UpdatePre(w, d, vmxFile, units, codec) + (AdapterSteps(d.adapters) + UpdatePost(d))
  }

  /** How many adapters `Update` prepares: none unless it reaches the loop. */
  function UpdateReach(w: World, d: Machine, vmxFile: string, units: Units, codec: Vms.Codec): nat
  {
    if w.failure(Connect(d.provider, d.verifySSL)).Some? || Run(w, UpdatePre(w, d, vmxFile, units, codec)).1.Some? then 0
    else Reach(w, d.adapters)
  }

  /** `Update`: the record after, the events logged, and the error returned. */
  function UpdateSpec(w: World, m: Machine, vmxFile: string, units: Units, codec: Vms.Codec): (Machine, seq<Event>, Option<Error>)
  {
    var d := Defaults(m);
    var (events, err) := Session(w, d.provider, d.verifySSL, Run(w, UpdatePlan(w, d, vmxFile, units, codec)));
    (d.(adapters := PrepareFirst(d.adapters, UpdateReach(w, d, vmxFile, units, codec))), events, err)
  }

  // ---------------------------------------------------------------------------
  // Properties of the plans

  /** A step that attaches an adapter attaches a prepared one. */
  predicate AttachesPrepared(st: Step)
  {
    st.Invoke? && st.call.AddNetworkAdapter? ==>
      st.call.adapter.startConnected
      && (st.call.adapter.connType == ConnBridged ==> st.call.adapter.linkStatePropagation)
  }

  /** `Update` attaches only prepared adapters: connected at start, and propagating the link state when bridged. */
  lemma UpdateAttachesPrepared(w: World, m: Machine, vmxFile: string, units: Units, codec: Vms.Codec)
    ensures forall a :: Called(AddNetworkAdapter(a)) in UpdateSpec(w, m, vmxFile, units, codec).1 ==>
              a.startConnected && (a.connType == ConnBridged ==> a.linkStatePropagation)
  {
    var d := Defaults(m);
    PlanAttachesPrepared(w, UpdatePlan(w, d, vmxFile, units, codec), d.adapters);
  }

  /** A plan whose adapter steps are those of `AdapterSteps` attaches only prepared adapters. */
  lemma PlanAttachesPrepared(w: World, plan: seq<Step>, ads: seq<NetworkAdapter>)
    requires forall st :: st in plan && st.Invoke? && st.call.AddNetworkAdapter? ==> st in AdapterSteps(ads)
    ensures forall a :: Called(AddNetworkAdapter(a)) in Run(w, plan).0 ==>
              a.startConnected && (a.connType == ConnBridged ==> a.linkStatePropagation)
  {
    RunLogsPlanned(w, plan);
    forall st | st in plan
      ensures AttachesPrepared(st)
    {
      if st in AdapterSteps(ads) {
        var i :| 0 <= i < |AdapterSteps(ads)| && AdapterSteps(ads)[i] == st;
      }
    }
    forall a | Called(AddNetworkAdapter(a)) in Run(w, plan).0
      ensures a.startConnected && (a.connType == ConnBridged ==> a.linkStatePropagation)
    {
      var st :| st in plan && Called(AddNetworkAdapter(a)) in Trace(st);
      assert AttachesPrepared(st);
    }
  }


  /** After the adapters, only the power-on can fail: a failed wait for the tools is logged but not returned. */
  lemma PowerOnOnlyFailure(w: World, d: Machine)
    ensures var on := PowerOn(PowerOnOptions(d.launchGUI));
            Run(w, UpdatePost(d))
              == if w.failure(on).Some? then ([Called(on)], w.failure(on))
                 else ([Called(on), Called(WaitForToolsInGuest(d.toolsInitTimeout))], None)
  {
    var post := UpdatePost(d);
    var wait := Invoke(WaitForToolsInGuest(d.toolsInitTimeout), Ignored);
    assert post[1..] == [wait];
    assert [wait][1..] == [];
    assert !Stops(w, wait);
    assert Run(w, [wait][1..]) == ([], None);
    assert [wait][0] == wait;
    assert Run(w, [wait]) == (Trace(wait) + Run(w, [wait][1..]).0, Run(w, [wait][1..]).1);
    assert Trace(wait) == [Called(wait.call)];
    assert Trace(wait) + [] == Trace(wait);
    var on := PowerOn(PowerOnOptions(d.launchGUI));
    assert [Called(on)] + [Called(wait.call)] == [Called(on), Called(wait.call)];
    assert Run(w, [wait]) == ([Called(wait.call)], None);
  }

  /** No attach of the plan fails exactly when its run returns no error, and then every adapter is reached. */
  lemma {:induction false} AdapterRunSucceeds(w: World, ads: seq<NetworkAdapter>)
    ensures Run(w, AdapterSteps(ads)).1.None? <==>
              forall i :: 0 <= i < |ads| ==> w.failure(AddNetworkAdapter(Prepared(ads[i]))).None?
    ensures Run(w, AdapterSteps(ads)).1.None? ==> Reach(w, ads) == |ads|
  {
    var plan := AdapterSteps(ads);
    var n := RunStopsAtFirst(w, plan);
    if n == |plan| {
      forall i | 0 <= i < |ads|
        ensures w.failure(AddNetworkAdapter(Prepared(ads[i]))).None?
      {
        assert !Stops(w, plan[i]);
      }
      ReachAll(w, ads);
    } else {
      assert Stops(w, plan[n]);
    }
  }

  /** A successful `Update` has prepared every adapter of the record. */
  lemma UpdatePreparesAll(w: World, m: Machine, vmxFile: string, units: Units, codec: Vms.Codec)
    requires UpdateSpec(w, m, vmxFile, units, codec).2.None?
    ensures var d := Defaults(m);
            var m' := UpdateSpec(w, m, vmxFile, units, codec).0;
            |m'.adapters| == |d.adapters| && forall i :: 0 <= i < |d.adapters| ==> m'.adapters[i] == Prepared(d.adapters[i])
  {
    var d := Defaults(m);
    var pre := UpdatePre(w, d, vmxFile, units, codec);
    RunAppend(w, pre, AdapterSteps(d.adapters) + UpdatePost(d));
    RunAppend(w, AdapterSteps(d.adapters), UpdatePost(d));
    AdapterRunSucceeds(w, d.adapters);
  }

  /** The trace of `powerOff`'s steps: the tools state, then the power-off. */
  lemma PowerOffTrace(w: World)
    ensures Traces(PowerOffSteps(w)) == [Called(ToolsState), Called(PowerOff(PowerOffOptions(w.tools)))]
  {
    var steps := PowerOffSteps(w);
    assert steps[1..][1..] == [];
    assert Traces(steps[1..]) == [Called(PowerOff(PowerOffOptions(w.tools)))] + [];
  }

  /**
   * A running machine is powered off before anything is changed: the first
   * change, the memory size, is made only after the machine was opened and
   * the power-off succeeded, and the run then goes on with the settings.
   */
  lemma UpdatePowersOffFirst(w: World, d: Machine, vmxFile: string, units: Units, codec: Vms.Codec)
    requires w.running
    ensures var open := OpenSteps(d, vmxFile);
            var tail := SettingSteps(d, units, codec) + HardwareSteps(d);
            var pre := UpdatePre(w, d, vmxFile, units, codec);
            Called(SetMemorySize(MemoryMb(units, d.memory))) in Run(w, pre).0 ==>
              Run(w, open) == (Traces(open), None)
              && Run(w, PowerOffSteps(w)) == ([Called(ToolsState), Called(PowerOff(PowerOffOptions(w.tools)))], None)
              && Run(w, pre).0 == Traces(open) + [Called(ToolsState), Called(PowerOff(PowerOffOptions(w.tools)))] + Run(w, tail).0
  {
    var open := OpenSteps(d, vmxFile);
    var head := open + PowerOffSteps(w);
    var tail := SettingSteps(d, units, codec) + HardwareSteps(d);
    var pre := UpdatePre(w, d, vmxFile, units, codec);
    assert pre == head + tail;
    var e := Called(SetMemorySize(MemoryMb(units, d.memory)));
    if e in Run(w, pre).0 {
      forall st | st in head
        ensures e !in Trace(st)
      {
      }
      ReachedAfter(w, head, tail, e);
      RunSplit(w, open, PowerOffSteps(w));
      TracesAppend(open, PowerOffSteps(w));
      PowerOffTrace(w);
    }
  }

  /** A running machine is powered off before it is deleted: the delete is reached only after the open, the check and the power-off succeeded. */
  lemma DestroyPowersOffFirst(w: World, m: Machine, vmxFile: string, config: Vms.Config)
    requires w.running
    ensures var open := OpenCheckSteps(vmxFile, m.image.password);
            var plan := DestroyPlan(w, m, vmxFile, config);
            Called(Delete({KeepFiles, Force})) in Run(w, plan).0 ==>
              Run(w, open) == ([Called(OpenVM(vmxFile, m.image.password)), Called(IsRunning)], None)
              && Run(w, PowerOffSteps(w)) == ([Called(ToolsState), Called(PowerOff(PowerOffOptions(w.tools)))], None)
              && Run(w, plan).0 == [Called(OpenVM(vmxFile, m.image.password)), Called(IsRunning),
                                    Called(ToolsState), Called(PowerOff(PowerOffOptions(w.tools)))]
                                   + Run(w, DeleteSteps(m, vmxFile, config)).0
  {
    var open := OpenCheckSteps(vmxFile, m.image.password);
    var head := open + PowerOffSteps(w);
    var plan := DestroyPlan(w, m, vmxFile, config);
    assert plan == head + DeleteSteps(m, vmxFile, config);
    var e := Called(Delete({KeepFiles, Force}));
    if e in Run(w, plan).0 {
      forall st | st in head
        ensures e !in Trace(st)
      {
      }
      ReachedAfter(w, head, DeleteSteps(m, vmxFile, config), e);
      RunSplit(w, open, PowerOffSteps(w));
      TracesAppend(open, PowerOffSteps(w));
      PowerOffTrace(w);
      assert open[1..][1..] == [];
      assert Traces(open[1..]) == [Called(IsRunning)] + [];
      var checkLog := [Called(OpenVM(vmxFile, m.image.password)), Called(IsRunning)];
      var stopped := [Called(ToolsState), Called(PowerOff(PowerOffOptions(w.tools)))];
      assert Traces(open) == checkLog;
      assert Traces(head) == checkLog + stopped;
      assert checkLog + stopped == [Called(OpenVM(vmxFile, m.image.password)), Called(IsRunning),
                                  Called(ToolsState), Called(PowerOff(PowerOffOptions(w.tools)))];
    }
  }

  /** After connecting, the machine's folder is removed exactly when the plan succeeds on a machine with an id; the delete then succeeded. */
  lemma DestroyPlanRemoves(w: World, m: Machine, vmxFile: string, config: Vms.Config)
    ensures var (events, err) := Run(w, DestroyPlan(w, m, vmxFile, config));
            (RemovedAll(Vms.PathJoin(config.vmsPath, m.id)) in events <==> err.None? && m.id != "")
            && (err.None? ==> Called(Delete({KeepFiles, Force})) in events && w.failure(Delete({KeepFiles, Force})).None?)
  {
    var plan := DestroyPlan(w, m, vmxFile, config);
    var dir := Vms.PathJoin(config.vmsPath, m.id);
    var del := Invoke(Delete({KeepFiles, Force}), Checked);
    var unregister := if InInventory(m.provider) then [Invoke(UnregisterVM(vmxFile), Checked)] else [];
    var prefix := OpenCheckSteps(vmxFile, m.image.password) + (PowerOffIf(w) + unregister);
    var removal := if m.id != "" then [Remove(dir)] else [];
    assert plan == (prefix + [del]) + removal;
    var e := RemovedAll(dir);
    if e in Run(w, plan).0 {
      forall st | st in prefix + [del]
        ensures e !in Trace(st)
      {
      }
      ReachedAfter(w, prefix + [del], removal, e);
      assert removal == [Remove(dir)] && removal[1..] == [];
    }
    if Run(w, plan).1.None? {
      RunSplit(w, prefix + [del], removal);
      RunAppend(w, prefix + [del], removal);
      RunSplit(w, prefix, [del]);
      assert [del][1..] == [];
      assert !Stops(w, del);
      TracesAppend(prefix, [del]);
      assert Traces([del]) == [Called(del.call)] + [];
      if m.id != "" {
        assert removal[1..] == [];
        assert Traces(removal) == [e] + [];
      }
    }
  }

  /** `Destroy` removes the machine's folder exactly when it succeeds on a machine with an id; the delete then succeeded. */
  lemma DestroyRemovesAfterDelete(w: World, m: Machine, vmxFile: string, config: Vms.Config)
    ensures var (events, err) := DestroySpec(w, m, vmxFile, config);
            (RemovedAll(Vms.PathJoin(config.vmsPath, m.id)) in events <==> err.None? && m.id != "")
            && (err.None? ==> Called(Delete({KeepFiles, Force})) in events && w.failure(Delete({KeepFiles, Force})).None?)
  {
    DestroyPlanRemoves(w, m, vmxFile, config);
  }

  /** Without a clone the folder is cleared before cloning, and a "snapshot already exists" failure of the clone is none. */
  lemma CloneStep(w: World, m: Machine, config: Vms.Config, gold: string, cloneExists: bool)
    ensures var open := OpenVM(gold, m.image.password);
            var clone := Clone(CloneFull, CloneVmx(config, m.id));
            Run(w, CreatePlan(m, config, gold, cloneExists))
              == if w.failure(open).Some? then ([Called(open)], w.failure(open))
                 else if cloneExists then ([Called(open)], None)
                 else ([Called(open), RemovedAll(Vms.PathJoin(config.vmsPath, m.id)), Called(clone)],
                       if w.failure(clone).Some? && w.failure(clone) != Some(VixError(SnapshotAlreadyExists))
                       then w.failure(clone) else None)
  {
    var plan := CreatePlan(m, config, gold, cloneExists);
    var clone := Invoke(Clone(CloneFull, CloneVmx(config, m.id)), Tolerating(SnapshotAlreadyExists));
    var remove := Remove(Vms.PathJoin(config.vmsPath, m.id));
    assert plan[1..] == CloneSteps(config, m.id, cloneExists);
    if !cloneExists {
      assert [remove, clone][1..] == [clone];
      assert [clone][1..] == [];
      assert Run(w, [clone][1..]) == ([], None);
      assert Trace(clone) + [] == [Called(clone.call)];
      assert Run(w, [clone]) == ([Called(clone.call)], if Stops(w, clone) then Some(Failure(w, clone)) else None);
      assert Run(w, [remove, clone]) == ([RemovedAll(remove.dir)] + Run(w, [clone]).0, Run(w, [clone]).1);
      var open := Called(OpenVM(gold, m.image.password));
      assert [open] + ([RemovedAll(remove.dir)] + [Called(clone.call)]) == [open, RemovedAll(remove.dir), Called(clone.call)];
    } else {
      assert plan[1..] == [];
      assert Run(w, plan[1..]) == ([], None);
      assert [Called(OpenVM(gold, m.image.password))] + [] == [Called(OpenVM(gold, m.image.password))];
    }
  }

  /** `Create` returns the clone's path exactly when it succeeds; without a gold vmx file it does nothing else. */
  lemma CreateResult(w: World, m: Machine, config: Vms.Config, matches: seq<string>, cloneExists: bool,
                     units: Units, codec: Vms.Codec)
    ensures var (m', events, err, vmxFile) := CreateSpec(w, m, config, matches, cloneExists, units, codec);
            (err.None? ==> vmxFile == CloneVmx(config, m.id)) && (err.Some? ==> vmxFile == "")
            && (|matches| == 0 ==> m' == m && events == [] && err == Some(Failed("[ERROR] vmx file was not found: " + GoldPattern(config, m.image.checksum))))
  {
  }

  /** A machine that is not running ends `Refresh` without an error and with only the connection fields set. */
  lemma RefreshNotRunning(w: World, m: Machine, vmxFile: string, units: Units, codec: Vms.Codec)
    requires w.failure(Connect(Workstation, false)).None? && w.failure(OpenVM(vmxFile, m.image.password)).None?
    requires w.failure(IsRunning).None? && !w.running
    ensures RefreshSpec(w, m, vmxFile, units, codec)
              == (m.(provider := Workstation, verifySSL := false, vmxFile := vmxFile),
                  [Called(Connect(Workstation, false)), Called(OpenVM(vmxFile, m.image.password)), Called(IsRunning), Called(Disconnect)],
                  None)
  {
    var m0 := m.(provider := Workstation, verifySSL := false, vmxFile := vmxFile);
    assert SyncRunning(w, m0, units, codec) == (m0, [Called(OpenVM(vmxFile, m.image.password)), Called(IsRunning)], None);
    assert [Called(Connect(Workstation, false))] + [Called(OpenVM(vmxFile, m.image.password)), Called(IsRunning)] + [Called(Disconnect)]
             == [Called(Connect(Workstation, false)), Called(OpenVM(vmxFile, m.image.password)), Called(IsRunning), Called(Disconnect)];
  }

  /** A `Refresh` in which nothing fails reads every field back from the machine. */
  lemma RefreshReadsBack(w: World, m: Machine, vmxFile: string, units: Units, codec: Vms.Codec, image: Vms.Image)
    requires w.running && codec.decode(w.annotation) == Ok(image)
    requires forall c :: (c in {Connect(Workstation, false), OpenVM(vmxFile, m.image.password), IsRunning, Vcpus, MemorySize,
                                DisplayName, Annotation, NetworkAdapters, IPAddress, PowerState, GuestOS}) ==> w.failure(c).None?
    ensures var (m', events, err) := RefreshSpec(w, m, vmxFile, units, codec);
            err.None?
            && events == [Called(Connect(Workstation, false)), Called(OpenVM(vmxFile, m.image.password)), Called(IsRunning),
                          Called(Vcpus), Called(MemorySize), Called(DisplayName), Called(Annotation),
                          Called(NetworkAdapters), Called(IPAddress), Called(PowerState), Called(GuestOS), Called(Disconnect)]
            && m' == Machine(vmxFile, Workstation, false, w.displayName, image, w.vcpus, MemoryText(units, w.memory),
                             m.upgradeVHardware, m.toolsInitTimeout, m.launchGUI, w.adapters, w.ip, Status(w.power), w.guestOS)
  {
    var m0 := m.(provider := Workstation, verifySSL := false, vmxFile := vmxFile);
    var m1 := m0.(memory := MemoryText(units, w.memory), cpus := w.vcpus);
    var m2 := m1.(id := w.displayName).(image := image);
    var m3 := m2.(adapters := w.adapters).(ipAddress := w.ip);
    var m4 := m3.(status := Status(w.power), guestOS := w.guestOS);
    assert SyncPower(w, m3) == (m4, [Called(PowerState), Called(GuestOS)], None);
    assert SyncDevices(w, m2) == (m4, [Called(NetworkAdapters), Called(IPAddress)] + [Called(PowerState), Called(GuestOS)], None);
    var devices := [Called(NetworkAdapters), Called(IPAddress)] + [Called(PowerState), Called(GuestOS)];
    assert SyncImage(w, m1.(id := w.displayName), codec) == (m4, [Called(Annotation)] + devices, None);
    assert SyncIdentity(w, m1, codec) == (m4, [Called(DisplayName)] + ([Called(Annotation)] + devices), None);
    assert [Called(DisplayName)] + ([Called(Annotation)] + devices) == [Called(DisplayName), Called(Annotation)] + devices;
    var identity := [Called(DisplayName), Called(Annotation)] + devices;
    assert SyncSizes(w, m0, units, codec) == (m4, [Called(Vcpus), Called(MemorySize)] + identity, None);
    var sizes := [Called(Vcpus), Called(MemorySize)] + identity;
    assert SyncRunning(w, m0, units, codec) == (m4, [Called(OpenVM(vmxFile, m.image.password)), Called(IsRunning)] + sizes, None);
    var running := [Called(OpenVM(vmxFile, m.image.password)), Called(IsRunning)] + sizes;
    assert RefreshSpec(w, m, vmxFile, units, codec) == (m4, [Called(Connect(Workstation, false))] + running + [Called(Disconnect)], None);
    assert [Called(Connect(Workstation, false))] + running + [Called(Disconnect)]
             == [Called(Connect(Workstation, false)), Called(OpenVM(vmxFile, m.image.password)), Called(IsRunning),
                 Called(Vcpus), Called(MemorySize), Called(DisplayName), Called(Annotation),
                 Called(NetworkAdapters), Called(IPAddress), Called(PowerState), Called(GuestOS), Called(Disconnect)];
  }

  /** An annotation that does not decode ends `Refresh` with the decoding error, after the id was already read back. */
  lemma RefreshBadImage(w: World, m: Machine, vmxFile: string, units: Units, codec: Vms.Codec)
    requires w.running && codec.decode(w.annotation).Err?
    requires forall c :: (c in {Connect(Workstation, false), OpenVM(vmxFile, m.image.password), IsRunning, Vcpus, MemorySize,
                                DisplayName, Annotation}) ==> w.failure(c).None?
    ensures var (m', events, err) := RefreshSpec(w, m, vmxFile, units, codec);
            err == Some(Failed(codec.decode(w.annotation).error)) && m'.id == w.displayName && m'.image == m.image
            && events[|events| - 2] == Called(Annotation) && events[|events| - 1] == Called(Disconnect)
  {
  }

  /** Opens the machine and asks whether it runs, as the next steps of a plan. */
  method OpenAndCheck(vix: Vix, vmxFile: string, password: string, ghost plan: seq<Step>, ghost log0: seq<Event>,
                      ghost todo: seq<Step>, ghost rest: seq<Step>)
    returns (running: bool, err: Option<Error>)
    requires Between(vix.world, plan, log0, vix.log, todo) && todo == OpenCheckSteps(vmxFile, password) + rest
    modifies vix
    ensures err.None? ==> Between(vix.world, plan, log0, vix.log, rest) && running == vix.world.running
    ensures err.Some? ==> Ended(vix.world, plan, log0, vix.log, err)
  {
    ghost var w := vix.world;
    running := false;
    Advance(w, plan, log0, vix.log, todo, Invoke(OpenVM(vmxFile, password), Checked));
    err := vix.Do(OpenVM(vmxFile, password));
    if err.Some? {
      return;
    }
    Advance(w, plan, log0, vix.log, todo[1..], Invoke(IsRunning, Checked));
    running, err := vix.IsRunning();
    assert todo[1..][1..] == rest;
  }

  // ---------------------------------------------------------------------------
  // `Refresh`

  /** `uint` arithmetic: results wrap modulo 2^64. */
  const Uint64Modulus := 0x1_0000_0000_0000_0000

  /** The memory field as `Refresh` writes it: megabytes scaled to bytes in `uint` arithmetic, formatted, lower-cased. */
  function MemoryText(units: Units, mb: nat): string
  {
    ToLower(units.iBytes((mb * 1024 * 1024) % Uint64Modulus))
  }

  /**
   * `Refresh`: always Workstation without SSL verification on `vmxFile`;
   * then the session. A machine that is not running ends it with the error
   * of the running check, which is none when the check succeeded.
   */
  function RefreshSpec(w: World, m: Machine, vmxFile: string, units: Units, codec: Vms.Codec): (Machine, seq<Event>, Option<Error>)
  {
    var m0 := m.(provider := Workstation, verifySSL := false, vmxFile := vmxFile);
    var connect := Connect(Workstation, false);
    if w.failure(connect).Some? then (m0, [Called(connect)], w.failure(connect))
    else
      var (m', events, err) := SyncRunning(w, m0, units, codec);
      (m', [Called(connect)] + events + [Called(Disconnect)], err)
  }

  /** Open, then check that it runs. */
  function SyncRunning(w: World, m: Machine, units: Units, codec: Vms.Codec): (Machine, seq<Event>, Option<Error>)
  {
    var open := OpenVM(m.vmxFile, m.image.password);
    if w.failure(open).Some? then (m, [Called(open)], w.failure(open))
    else if !(w.failure(IsRunning).None? && w.running) then (m, [Called(open), Called(IsRunning)], w.failure(IsRunning))
    else
      var (m', events, err) := SyncSizes(w, m, units, codec);
      (m', [Called(open), Called(IsRunning)] + events, err)
  }

  /** The CPUs and the memory, both written only once both are read. */
  function SyncSizes(w: World, m: Machine, units: Units, codec: Vms.Codec): (Machine, seq<Event>, Option<Error>)
  {
    if w.failure(Vcpus).Some? then (m, [Called(Vcpus)], w.failure(Vcpus))
    else if w.failure(MemorySize).Some? then (m, [Called(Vcpus), Called(MemorySize)], w.failure(MemorySize))
    else
      var (m', events, err) := SyncIdentity(w, m.(memory := MemoryText(units, w.memory), cpus := w.vcpus), codec);
      (m', [Called(Vcpus), Called(MemorySize)] + events, err)
  }

  /** The id from the display name (empty when it cannot be read), then the image. */
  function SyncIdentity(w: World, m: Machine, codec: Vms.Codec): (Machine, seq<Event>, Option<Error>)
  {
    var m1 := m.(id := if w.failure(DisplayName).None? then w.displayName else "");
    if w.failure(DisplayName).Some? then (m1, [Called(DisplayName)], w.failure(DisplayName))
    else
      var (m', events, err) := SyncImage(w, m1, codec);
      (m', [Called(DisplayName)] + events, err)
  }

  /** The image, decoded from the annotation; it is written only when it decodes. */
  function SyncImage(w: World, m: Machine, codec: Vms.Codec): (Machine, seq<Event>, Option<Error>)
  {
    if w.failure(Annotation).Some? then (m, [Called(Annotation)], w.failure(Annotation))
    else
      match codec.decode(w.annotation)
      case Err(e) => (m, [Called(Annotation)], Some(Failed(e)))
      case Ok(image) =>
        var (m', events, err) := SyncDevices(w, m.(image := image));
        (m', [Called(Annotation)] + events, err)
  }

  /** The adapters and the address; each field is written even when its read fails. */
  function SyncDevices(w: World, m: Machine): (Machine, seq<Event>, Option<Error>)
  {
    var m1 := m.(adapters := if w.failure(NetworkAdapters).None? then w.adapters else []);
    if w.failure(NetworkAdapters).Some? then (m1, [Called(NetworkAdapters)], w.failure(NetworkAdapters))
    else
      var m2 := m1.(ipAddress := if w.failure(IPAddress).None? then w.ip else "");
      if w.failure(IPAddress).Some? then (m2, [Called(NetworkAdapters), Called(IPAddress)], w.failure(IPAddress))
      else
        var (m', events, err) := SyncPower(w, m2);
        (m', [Called(NetworkAdapters), Called(IPAddress)] + events, err)
  }

  /** The status label of the power state, then the guest OS, written even when its read fails. */
  function SyncPower(w: World, m: Machine): (Machine, seq<Event>, Option<Error>)
  {
    if w.failure(PowerState).Some? then (m, [Called(PowerState)], w.failure(PowerState))
    else
      var m1 := m.(status := Status(w.power), guestOS := if w.failure(GuestOS).None? then w.guestOS else "");
      (m1, [Called(PowerState), Called(GuestOS)], w.failure(GuestOS))
  }

  /** `powerOff`, as the next steps of a plan. */
  method PowerOffGracefully(vix: Vix, ghost plan: seq<Step>, ghost log0: seq<Event>, ghost todo: seq<Step>, ghost rest: seq<Step>)
    returns (err: Option<Error>)
    requires Between(vix.world, plan, log0, vix.log, todo) && todo == PowerOffSteps(vix.world) + rest
    modifies vix
    ensures err.None? ==> Between(vix.world, plan, log0, vix.log, rest)
    ensures err.Some? ==> Ended(vix.world, plan, log0, vix.log, err)
  {
    ghost var w := vix.world;
    Advance(w, plan, log0, vix.log, todo, Invoke(ToolsState, Checked));
    var tools;
    tools, err := vix.ToolsState();
    if err.Some? {
      return;
    }
    var options := if ToolsRunningState in tools then {FromGuest} else {PowerNormal};
    Advance(w, plan, log0, vix.log, todo[1..], Invoke(PowerOff(PowerOffOptions(w.tools)), Checked));
    err := vix.Do(Call.PowerOff(options));
    assert todo[1..][1..] == rest;
  }

  /** The adapter loop: each adapter is prepared in place, then attached; the first failed attach ends it. */
  method AttachAdapters(vix: Vix, ads: seq<NetworkAdapter>, ghost plan: seq<Step>, ghost log0: seq<Event>, ghost rest: seq<Step>)
    returns (adapters: seq<NetworkAdapter>, err: Option<Error>)
    requires Between(vix.world, plan, log0, vix.log, AdapterSteps(ads) + rest)
    modifies vix
    ensures adapters == PrepareFirst(ads, Reach(vix.world, ads))
    ensures err.None? ==> Between(vix.world, plan, log0, vix.log, rest) && Reach(vix.world, ads) == |ads|
    ensures err.Some? ==> Ended(vix.world, plan, log0, vix.log, err)
  {
    ghost var w := vix.world;
    assert AdapterSteps(ads)[0..] == AdapterSteps(ads);
    adapters := ads;
    assert adapters == PrepareFirst(ads, 0);
    var i := 0;
    while i < |adapters|
      invariant 0 <= i <= |ads| == |adapters|
      invariant adapters == PrepareFirst(ads, i)
      invariant forall j :: 0 <= j < i ==> w.failure(AddNetworkAdapter(Prepared(ads[j]))).None?
      invariant Between(w, plan, log0, vix.log, AdapterSteps(ads)[i..] + rest)
    {
      var adapter := adapters[i].(startConnected := true);
      if adapter.connType == ConnBridged {
        adapter := adapter.(linkStatePropagation := true);
      }
      assert adapter == Prepared(ads[i]);
      PrepareNext(ads, i);
      adapters := adapters[i := adapter];
      ghost var t := AdapterSteps(ads)[i..] + rest;
      DropNext(AdapterSteps(ads), rest, i);
      Advance(w, plan, log0, vix.log, t, Invoke(AddNetworkAdapter(Prepared(ads[i])), Checked));
      err := vix.Do(AddNetworkAdapter(adapter));
      if err.Some? {
        ReachFailing(w, ads, i);
        return;
      }
      i := i + 1;
    }
    ReachAll(w, ads);
    assert AdapterSteps(ads)[i..] + rest == rest;
    err := None;
  }

  // ---------------------------------------------------------------------------
  // The record

  class VM {
    var vmxFile: string
    var provider: Provider
    var verifySSL: bool
    var id: string
    var image: Vms.Image
    var cpus: nat
    var memory: string
    var upgradeVHardware: bool
    var toolsInitTimeout: int
    var launchGUI: bool
    var adapters: seq<NetworkAdapter>
    var ipAddress: string
    var status: string
    var guestOS: string

    constructor(m: Machine)
      ensures Snapshot() == m
    {
      vmxFile, provider, verifySSL, id, image := m.vmxFile, m.provider, m.verifySSL, m.id, m.image;
      cpus, memory, upgradeVHardware, toolsInitTimeout := m.cpus, m.memory, m.upgradeVHardware, m.toolsInitTimeout;
      launchGUI, adapters, ipAddress, status, guestOS := m.launchGUI, m.adapters, m.ipAddress, m.status, m.guestOS;
    }

    function Snapshot(): Machine
      reads this
    {
      Machine(vmxFile, provider, verifySSL, id, image, cpus, memory, upgradeVHardware, toolsInitTimeout,
              launchGUI, adapters, ipAddress, status, guestOS)
    }

    method SetDefaults()
      modifies this
      ensures Snapshot() == Defaults(old(Snapshot()))
    {
      if cpus <= 0 {
        cpus := 2;
      }
      if memory == "" {
        memory := "512mib";
      }
      if toolsInitTimeout <= 0 {
        toolsInitTimeout := 30 * Second;
      }
    }

    method OpenForUpdate(vix: Vix, vmxFile: string, ghost plan: seq<Step>, ghost log0: seq<Event>,
                         ghost todo: seq<Step>, ghost rest: seq<Step>)
      returns (running: bool, err: Option<Error>)
      requires Between(vix.world, plan, log0, vix.log, todo) && todo == OpenSteps(Snapshot(), vmxFile) + rest
      modifies vix
      ensures err.None? ==> Between(vix.world, plan, log0, vix.log, rest) && running == vix.world.running
      ensures err.Some? ==> Ended(vix.world, plan, log0, vix.log, err)
    {
      ghost var w := vix.world;
      ghost var t := todo;
      running := false;
      if provider == Server || provider == ViServer {
        Advance(w, plan, log0, vix.log, t, Invoke(RegisterVM(vmxFile), Checked));
        err := vix.Do(RegisterVM(vmxFile));
        if err.Some? {
          return;
        }
        t := t[1..];
      }
      running, err := OpenAndCheck(vix, vmxFile, image.password, plan, log0, t, rest);
    }

    method ApplySettings(vix: Vix, units: Units, codec: Vms.Codec, ghost plan: seq<Step>, ghost log0: seq<Event>,
                         ghost todo: seq<Step>, ghost rest: seq<Step>)
      returns (err: Option<Error>)
      requires Between(vix.world, plan, log0, vix.log, todo) && todo == SettingSteps(Snapshot(), units, codec) + rest
      modifies vix
      ensures err.None? ==> Between(vix.world, plan, log0, vix.log, rest)
      ensures err.Some? ==> Ended(vix.world, plan, log0, vix.log, err)
    {
      ghost var w := vix.world;
      var memoryInMb: nat;
      match units.parseBytes(memory) {
        case None => memoryInMb := 512;
        case Some(bytes) => memoryInMb := (bytes / 1024) / 1024;
      }
      ghost var t := todo;
      Advance(w, plan, log0, vix.log, t, Invoke(SetMemorySize(memoryInMb), Ignored));
      var ignored := vix.Do(SetMemorySize(memoryInMb));
      t := t[1..];
      Advance(w, plan, log0, vix.log, t, Invoke(SetNumberVcpus(cpus), Ignored));
      ignored := vix.Do(SetNumberVcpus(cpus));
      t := t[1..];
      Advance(w, plan, log0, vix.log, t, Invoke(SetDisplayName(id), Ignored));
      ignored := vix.Do(SetDisplayName(id));
      t := t[1..];
      assert t == AnnotationSteps(codec.encode(image)) + rest;
      var imageText := codec.encode(image);
      if imageText.Err? {
        Advance(w, plan, log0, vix.log, t, Check(Some(Failed(imageText.error))));
        return Some(Failed(imageText.error));
      }
      Advance(w, plan, log0, vix.log, t, Invoke(SetAnnotation(imageText.value), Ignored));
      ignored := vix.Do(SetAnnotation(imageText.value));
      err := None;
      assert t[1..] == rest;
    }

    method ReplaceHardware(vix: Vix, ghost plan: seq<Step>, ghost log0: seq<Event>,
                           ghost todo: seq<Step>, ghost rest: seq<Step>)
      returns (err: Option<Error>)
      requires Between(vix.world, plan, log0, vix.log, todo) && todo == HardwareSteps(Snapshot()) + rest
      modifies vix
      ensures err.None? ==> Between(vix.world, plan, log0, vix.log, rest)
      ensures err.Some? ==> Ended(vix.world, plan, log0, vix.log, err)
    {
      ghost var w := vix.world;
      ghost var t := todo;
      if upgradeVHardware && provider != Player {
        Advance(w, plan, log0, vix.log, t, Invoke(UpgradeVHardware, Checked));
        err := vix.Do(UpgradeVHardware);
        if err.Some? {
          return;
        }
        t := t[1..];
      }
      assert t == [Invoke(RemoveAllNetworkAdapters, Checked)] + rest;
      Advance(w, plan, log0, vix.log, t, Invoke(RemoveAllNetworkAdapters, Checked));
      err := vix.Do(RemoveAllNetworkAdapters);
      assert t[1..] == rest;
    }

    /** The part of `Update` after connecting, up to the adapter loop. */
    method UpdatePrefix(vix: Vix, vmxFile: string, units: Units, codec: Vms.Codec) returns (err: Option<Error>)
      modifies vix
      ensures Ended(vix.world, UpdatePre(vix.world, Snapshot(), vmxFile, units, codec), old(vix.log), vix.log, err)
    {
      ghost var w := vix.world;
      ghost var d := Snapshot();
      ghost var r3 := HardwareSteps(d);
      ghost var r2 := SettingSteps(d, units, codec) + r3;
      ghost var r1 := PowerOffIf(w) + r2;
      ghost var plan := OpenSteps(d, vmxFile) + r1;
      ghost var log0 := vix.log;
      Begin(w, plan, log0);
      var running;
      running, err := OpenForUpdate(vix, vmxFile, plan, log0, plan, r1);
      if err.Some? {
        return;
      }
      if running {
        err := PowerOffGracefully(vix, plan, log0, r1, r2);
        if err.Some? {
          return;
        }
      } else {
        assert r1 == r2;
      }
      err := ApplySettings(vix, units, codec, plan, log0, r2, r3);
      if err.Some? {
        return;
      }
      err := ReplaceHardware(vix, plan, log0, r3, []);
      if err.Some? {
        return;
      }
      Finished(w, plan, log0, vix.log, []);
    }

    /** Power on with the options asked for, then wait for the tools without failing on them. */
    method PowerUp(vix: Vix, ghost plan: seq<Step>, ghost log0: seq<Event>, ghost todo: seq<Step>)
      returns (err: Option<Error>)
      requires Between(vix.world, plan, log0, vix.log, todo) && todo == UpdatePost(Snapshot())
      modifies vix
      ensures Ended(vix.world, plan, log0, vix.log, err)
    {
      ghost var w := vix.world;
      var options: set<PowerOption> := {};
      if launchGUI {
        options := options + {LaunchGui};
      }
      options := options + {PowerNormal};
      assert options == PowerOnOptions(launchGUI);
      Advance(w, plan, log0, vix.log, todo, Invoke(PowerOn(PowerOnOptions(launchGUI)), Checked));
      err := vix.Do(PowerOn(options));
      if err.Some? {
        return;
      }
      Advance(w, plan, log0, vix.log, todo[1..], Invoke(WaitForToolsInGuest(toolsInitTimeout), Ignored));
      var ignored := vix.Do(WaitForToolsInGuest(toolsInitTimeout));
      Finished(w, plan, log0, vix.log, todo[1..][1..]);
      err := None;
    }

    /** `Update` once connected: the plan run, and the adapters it reaches prepared. */
    method UpdateConnected(vix: Vix, vmxFile: string, units: Units, codec: Vms.Codec) returns (err: Option<Error>)
      modifies this, vix
      ensures var d := old(Snapshot());
              var pre := UpdatePre(vix.world, d, vmxFile, units, codec);
              Snapshot() == d.(adapters := PrepareFirst(d.adapters, if Run(vix.world, pre).1.Some? then 0 else Reach(vix.world, d.adapters)))
      ensures Ended(vix.world, UpdatePlan(vix.world, old(Snapshot()), vmxFile, units, codec), old(vix.log), vix.log, err)
    {
      ghost var w := vix.world;
      ghost var d := Snapshot();
      ghost var pre := UpdatePre(w, d, vmxFile, units, codec);
      ghost var post := AdapterSteps(d.adapters) + UpdatePost(d);
      ghost var log1 := vix.log;
      err := UpdatePrefix(vix, vmxFile, units, codec);
      RunAppend(w, pre, post);
      if err.None? {
        err := UpdateDevices(vix, vix.log);
      } else {
        assert adapters == PrepareFirst(d.adapters, 0);
      }
    }

    /** `Update` from the adapter loop on: the adapters, then the power-on; the adapters reached are prepared. */
    method UpdateDevices(vix: Vix, ghost log0: seq<Event>) returns (err: Option<Error>)
      requires vix.log == log0
      modifies this, vix
      ensures var d := old(Snapshot());
              Snapshot() == d.(adapters := PrepareFirst(d.adapters, Reach(vix.world, d.adapters)))
      ensures Ended(vix.world, AdapterSteps(old(adapters)) + UpdatePost(old(Snapshot())), log0, vix.log, err)
    {
      ghost var w := vix.world;
      ghost var d := Snapshot();
      ghost var post := UpdatePost(d);
      ghost var plan := AdapterSteps(d.adapters) + post;
      Begin(w, plan, log0);
      var prepared;
      prepared, err := AttachAdapters(vix, adapters, plan, log0, post);
      adapters := prepared;
      if err.None? {
        err := PowerUp(vix, plan, log0, post);
      }
    }

    /** `Update`: defaults, then a session that runs the update plan. */
    method Update(vix: Vix, vmxFile: string, units: Units, codec: Vms.Codec) returns (err: Option<Error>)
      modifies this, vix
      ensures var (m, events, e) := UpdateSpec(vix.world, old(Snapshot()), vmxFile, units, codec);
              Snapshot() == m && vix.log == old(vix.log) + events && err == e
    {
      SetDefaults();
      ghost var d := Snapshot();
      err := vix.Do(Connect(provider, verifySSL));
      if err.None? {
        err := UpdateConnected(vix, vmxFile, units, codec);
        vix.Disconnect();
      } else {
        assert adapters == PrepareFirst(d.adapters, 0);
      }
    }

    /** Unregister, delete, and remove the folder, as the last steps of `Destroy`. */
    method DeleteMachine(vix: Vix, vmxFile: string, config: Vms.Config, ghost plan: seq<Step>, ghost log0: seq<Event>,
                         ghost todo: seq<Step>)
      returns (err: Option<Error>)
      requires Between(vix.world, plan, log0, vix.log, todo) && todo == DeleteSteps(Snapshot(), vmxFile, config)
      modifies vix
      ensures Ended(vix.world, plan, log0, vix.log, err)
    {
      ghost var w := vix.world;
      ghost var t := todo;
      if provider == ViServer || provider == Server {
        Advance(w, plan, log0, vix.log, t, Invoke(UnregisterVM(vmxFile), Checked));
        err := vix.Do(UnregisterVM(vmxFile));
        if err.Some? {
          return;
        }
        t := t[1..];
      }
      assert t == [Invoke(Delete({KeepFiles, Force}), Checked)]
                  + (if id != "" then [Remove(Vms.PathJoin(config.vmsPath, id))] else []);
      Advance(w, plan, log0, vix.log, t, Invoke(Delete({KeepFiles, Force}), Checked));
      err := vix.Do(Delete({KeepFiles, Force}));
      if err.Some? {
        return;
      }
      t := t[1..];
      if id != "" {
        Advance(w, plan, log0, vix.log, t, Remove(Vms.PathJoin(config.vmsPath, id)));
        vix.RemoveAll(Vms.PathJoin(config.vmsPath, id));
        t := t[1..];
      }
      Finished(w, plan, log0, vix.log, t);
    }

    /** `Destroy`: a session that stops a running machine, then unregisters, deletes and removes it. */
    method Destroy(vix: Vix, vmxFile: string, config: Vms.Config) returns (err: Option<Error>)
      modifies vix
      ensures vix.log == old(vix.log) + DestroySpec(vix.world, Snapshot(), vmxFile, config).0
      ensures err == DestroySpec(vix.world, Snapshot(), vmxFile, config).1
    {
      err := vix.Do(Connect(provider, verifySSL));
      if err.None? {
        err := DestroyConnected(vix, vmxFile, config);
        vix.Disconnect();
      }
    }

    /** The connected part of `Destroy`: open, power off if running, unregister for the inventory providers, delete. */
    method DestroyConnected(vix: Vix, vmxFile: string, config: Vms.Config) returns (err: Option<Error>)
      modifies vix
      ensures Ended(vix.world, DestroyPlan(vix.world, Snapshot(), vmxFile, config), old(vix.log), vix.log, err)
    {
      ghost var w := vix.world;
      ghost var m := Snapshot();
      ghost var r2 := DeleteSteps(m, vmxFile, config);
      ghost var r1 := PowerOffIf(w) + r2;
      ghost var plan := DestroyPlan(w, m, vmxFile, config);
      ghost var log1 := vix.log;
      Begin(w, plan, log1);
      var running;
      running, err := OpenAndCheck(vix, vmxFile, image.password, plan, log1, plan, r1);
      if err.None? && running {
        err := PowerOffGracefully(vix, plan, log1, r1, r2);
      } else if err.None? {
        assert r1 == r2;
      }
      if err.None? {
        err := DeleteMachine(vix, vmxFile, config, plan, log1, r2);
      }
    }

    /** Opens the gold machine, then clones it unless the clone exists. */
    method OpenAndClone(vix: Vix, config: Vms.Config, gold: string, cloneExists: bool) returns (newVmx: string, err: Option<Error>)
      modifies vix
      ensures Ended(vix.world, CreatePlan(Snapshot(), config, gold, cloneExists), old(vix.log), vix.log, err)
      ensures newVmx == CloneVmx(config, id)
    {
      ghost var w := vix.world;
      ghost var plan := CreatePlan(Snapshot(), config, gold, cloneExists);
      ghost var log0 := vix.log;
      newVmx := Vms.PathJoin(Vms.PathJoin(config.vmsPath, id), id + ".vmx");
      Begin(w, plan, log0);
      Advance(w, plan, log0, vix.log, plan, Invoke(OpenVM(gold, image.password), Checked));
      err := vix.Do(OpenVM(gold, image.password));
      if err.Some? {
        return;
      }
      var vmFolder := Vms.PathJoin(config.vmsPath, id);
      ghost var t := plan[1..];
      if !cloneExists {
        Advance(w, plan, log0, vix.log, t, Remove(vmFolder));
        vix.RemoveAll(vmFolder);
        t := t[1..];
        Advance(w, plan, log0, vix.log, t, Invoke(Clone(CloneFull, newVmx), Tolerating(SnapshotAlreadyExists)));
        err := vix.Do(Clone(CloneFull, newVmx));
        if err.Some? && err.value != VixError(SnapshotAlreadyExists) {
          return;
        }
        t := t[1..];
      }
      Finished(w, plan, log0, vix.log, t);
      err := None;
    }

    /** `Create` once connected. */
    method CreateConnected(vix: Vix, config: Vms.Config, gold: string, cloneExists: bool, units: Units, codec: Vms.Codec)
      returns (vmxFile: string, err: Option<Error>)
      modifies this, vix
      ensures var (m, events, e, path) := CreateBody(vix.world, old(Snapshot()), config, gold, cloneExists, units, codec);
              Snapshot() == m && vix.log == old(vix.log) + events && err == e && vmxFile == path
    {
      ghost var w := vix.world;
      ghost var m0 := Snapshot();
      ghost var openRun := Run(w, CreatePlan(m0, config, gold, cloneExists));
      var newVmx;
      vmxFile := "";
      newVmx, err := OpenAndClone(vix, config, gold, cloneExists);
      if err.None? {
        ghost var u := UpdateSpec(w, m0, newVmx, units, codec);
        err := Update(vix, newVmx, units, codec);
        if err.None? {
          vmxFile := newVmx;
        }
        assert CreateBody(w, m0, config, gold, cloneExists, units, codec) == (u.0, openRun.0 + u.1, u.2, vmxFile);
      }
    }

    /** `Create` from the gold image's vmx matches on: open it, clone it unless the clone exists, update the clone. */
    method Create(vix: Vix, config: Vms.Config, matches: seq<string>, cloneExists: bool, units: Units, codec: Vms.Codec)
      returns (vmxFile: string, err: Option<Error>)
      modifies this, vix
      ensures var (m, events, e, path) := CreateSpec(vix.world, old(Snapshot()), config, matches, cloneExists, units, codec);
              Snapshot() == m && vix.log == old(vix.log) + events && err == e && vmxFile == path
    {
      var pattern := Vms.PathJoin(Vms.PathJoin(config.goldImgsPath, image.checksum), "**.vmx");
      vmxFile := "";
      if |matches| == 0 {
        err := Some(Failed("[ERROR] vmx file was not found: " + pattern));
      } else {
        var gold := matches[0];
        err := vix.Do(Connect(provider, verifySSL));
        if err.None? {
          vmxFile, err := CreateConnected(vix, config, gold, cloneExists, units, codec);
          vix.Disconnect();
        }
      }
    }

    /** `Refresh`: reads the machine's state back from the running machine. */
    method Refresh(vix: Vix, vmxFile: string, units: Units, codec: Vms.Codec) returns (err: Option<Error>)
      modifies this, vix
      ensures Snapshot() == RefreshSpec(vix.world, old(Snapshot()), vmxFile, units, codec).0
      ensures vix.log == old(vix.log) + RefreshSpec(vix.world, old(Snapshot()), vmxFile, units, codec).1
      ensures err == RefreshSpec(vix.world, old(Snapshot()), vmxFile, units, codec).2
    {
      ghost var w := vix.world;
      ghost var log0 := vix.log;
      provider := Workstation;
      verifySSL := false;
      this.vmxFile := vmxFile;
      assert Snapshot() == old(Snapshot()).(provider := Workstation, verifySSL := false, vmxFile := vmxFile);
      err := vix.Do(Connect(provider, verifySSL));
      if err.None? {
        ghost var r := SyncRunning(w, Snapshot(), units, codec);
        assert RefreshSpec(w, old(Snapshot()), vmxFile, units, codec) == (r.0, [Called(Connect(Workstation, false))] + r.1 + [Called(Disconnect)], r.2);
        err := ReadRunning(vix, units, codec);
        vix.Disconnect();
        assert vix.log == log0 + [Called(Connect(Workstation, false))] + r.1 + [Called(Disconnect)];
      }
    }

    method ReadRunning(vix: Vix, units: Units, codec: Vms.Codec) returns (err: Option<Error>)
      modifies this, vix
      ensures Snapshot() == SyncRunning(vix.world, old(Snapshot()), units, codec).0
      ensures vix.log == old(vix.log) + SyncRunning(vix.world, old(Snapshot()), units, codec).1
      ensures err == SyncRunning(vix.world, old(Snapshot()), units, codec).2
    {
      err := vix.Do(OpenVM(vmxFile, image.password));
      if err.Some? {
        return;
      }
      var running;
      running, err := vix.IsRunning();
      if !running {
        return;
      }
      assert Snapshot() == old(Snapshot());
      err := ReadSizes(vix, units, codec);
    }

    method ReadSizes(vix: Vix, units: Units, codec: Vms.Codec) returns (err: Option<Error>)
      modifies this, vix
      ensures Snapshot() == SyncSizes(vix.world, old(Snapshot()), units, codec).0
      ensures vix.log == old(vix.log) + SyncSizes(vix.world, old(Snapshot()), units, codec).1
      ensures err == SyncSizes(vix.world, old(Snapshot()), units, codec).2
    {
      var vcpus;
      vcpus, err := vix.Vcpus();
      if err.Some? {
        return;
      }
      var mb;
      mb, err := vix.MemorySize();
      if err.Some? {
        return;
      }
      assert mb == vix.world.memory && vcpus == vix.world.vcpus;
      var bytes := (mb * 1024 * 1024) % Uint64Modulus;
      memory := ToLower(units.iBytes(bytes));
      cpus := vcpus;
      assert Snapshot() == old(Snapshot()).(memory := MemoryText(units, vix.world.memory), cpus := vix.world.vcpus);
      err := ReadIdentity(vix, codec);
    }

    method ReadIdentity(vix: Vix, codec: Vms.Codec) returns (err: Option<Error>)
      modifies this, vix
      ensures Snapshot() == SyncIdentity(vix.world, old(Snapshot()), codec).0
      ensures vix.log == old(vix.log) + SyncIdentity(vix.world, old(Snapshot()), codec).1
      ensures err == SyncIdentity(vix.world, old(Snapshot()), codec).2
    {
      id, err := vix.DisplayName();
      if err.None? {
        err := ReadImage(vix, codec);
      }
    }

    method ReadImage(vix: Vix, codec: Vms.Codec) returns (err: Option<Error>)
      modifies this, vix
      ensures Snapshot() == SyncImage(vix.world, old(Snapshot()), codec).0
      ensures vix.log == old(vix.log) + SyncImage(vix.world, old(Snapshot()), codec).1
      ensures err == SyncImage(vix.world, old(Snapshot()), codec).2
    {
      var text;
      text, err := vix.Annotation();
      if err.None? {
        assert text == vix.world.annotation;
        var decoded := codec.decode(text);
        if decoded.Err? {
          err := Some(Failed(decoded.error));
        } else {
          image := decoded.value;
          assert Snapshot() == old(Snapshot()).(image := decoded.value);
          err := ReadDevices(vix);
        }
      }
    }

    method ReadDevices(vix: Vix) returns (err: Option<Error>)
      modifies this, vix
      ensures Snapshot() == SyncDevices(vix.world, old(Snapshot())).0
      ensures vix.log == old(vix.log) + SyncDevices(vix.world, old(Snapshot())).1
      ensures err == SyncDevices(vix.world, old(Snapshot())).2
    {
      adapters, err := vix.NetworkAdapters();
      if err.Some? {
        return;
      }
      ipAddress, err := vix.IPAddress();
      if err.Some? {
        return;
      }
      err := ReadPower(vix);
    }

    method ReadPower(vix: Vix) returns (err: Option<Error>)
      modifies this, vix
      ensures Snapshot() == SyncPower(vix.world, old(Snapshot())).0
      ensures vix.log == old(vix.log) + SyncPower(vix.world, old(Snapshot())).1
      ensures err == SyncPower(vix.world, old(Snapshot())).2
    {
      var power;
      power, err := vix.PowerState();
      if err.Some? {
        return;
      }
      assert power == vix.world.power;
      status := Status(power);
      guestOS, err := vix.GuestOS();
    }
  }
}
