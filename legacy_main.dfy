/**
 * The oldest controller, `vm.go` of the service's main package, against the
 * `Govix.Vix` mock: the same call sequences as `vms/model.go`, with the
 * provider given by name, a description for the annotation, CD/DVD drives,
 * shared folders, and a `Destroy` that leaves the machine's files alone.
 *
 * As in `LegacyVms`, each operation is a method on the record proved to log
 * the run of a plan and to return the plan's error; the call-order
 * properties are lemmas about the plans.
 */
module LegacyMain {
  import opened Wrappers
  import opened GoStrings
  import opened Govix
  import LegacyVms
  import Vms

  // ---------------------------------------------------------------------------
  // The provider

  /** `client`'s switch on the lower-cased provider name; every other name means Workstation. */
  function ProviderOf(name: string): Provider
  {
    var n := ToLower(name);
    if n == "fusion" || n == "workstation" then Workstation
    else if n == "serverv1" then Server
    else if n == "serverv2" then ViServer
    else if n == "player" then Player
    else if n == "workstation_shared" then WorkstationShared
    else Workstation
  }

  /** The inventory providers are named `serverv1` and `serverv2`, in any case; the player and the shared workstation have one name each. */
  lemma ProviderNames(name: string)
    ensures LegacyVms.InInventory(ProviderOf(name)) <==> ToLower(name) == "serverv1" || ToLower(name) == "serverv2"
    ensures ProviderOf(name) == Player <==> ToLower(name) == "player"
    ensures ProviderOf(name) == WorkstationShared <==> ToLower(name) == "workstation_shared"
  {
  }

  /** Names that differ only in the case of their letters select the same provider. */
  lemma ProviderIgnoresCase(a: string, b: string)
    requires ToLower(a) == ToLower(b)
    ensures ProviderOf(a) == ProviderOf(b)
  {
  }

  /** `ServerV2` selects the VI server. */
  lemma ProviderServerV2()
    ensures ProviderOf("ServerV2") == ViServer
  {
    assert ToLower("ServerV2") == "serverv2";
  }

  /** `Fusion` selects the workstation. */
  lemma ProviderFusion()
    ensures ProviderOf("Fusion") == Workstation
  {
    assert ToLower("Fusion") == "fusion";
  }

  /** A name the switch does not know, such as `ESXi`, selects the workstation too. */
  lemma ProviderUnknown()
    ensures ProviderOf("ESXi") == Workstation
  {
    assert ToLower("ESXi") == "esxi";
  }

  // ---------------------------------------------------------------------------
  // The record and its defaults

  /** The fields of a `VM` the operations use; the timeout is in nanoseconds. */
  datatype Machine = Machine(
    provider: string,
    verifySSL: bool,
    name: string,
    description: string,
    image: Vms.Image,
    cpus: nat,
    memory: string,
    upgradeVHardware: bool,
    toolsInitTimeout: int,
    launchGUI: bool,
    sharedFolders: bool,
    adapters: seq<NetworkAdapter>,
    drives: seq<CDDVDDrive>)

  const DefaultDescription := "Go's OSX Builder machine"

  /** `SetDefaults`: two CPUs, `512mib`, the builder's description and thirty seconds where unset; no other field changes. */
  function Defaults(m: Machine): (d: Machine)
    ensures d.provider == m.provider && d.verifySSL == m.verifySSL && d.name == m.name && d.image == m.image
    ensures d.upgradeVHardware == m.upgradeVHardware && d.launchGUI == m.launchGUI && d.sharedFolders == m.sharedFolders
    ensures d.adapters == m.adapters && d.drives == m.drives
  {
    m.(cpus := if m.cpus == 0 then 2 else m.cpus,
       memory := if m.memory == "" then "512mib" else m.memory,
       description := if m.description == "" then DefaultDescription else m.description,
       toolsInitTimeout := if m.toolsInitTimeout <= 0 then 30 * LegacyVms.Second else m.toolsInitTimeout)
  }

  /** The defaults fill exactly the unset fields, so applying them again changes nothing. */
  lemma DefaultsFillUnset(m: Machine)
    ensures var d := Defaults(m);
            d.cpus > 0 && d.memory != "" && d.description != "" && d.toolsInitTimeout > 0
            && (m.cpus > 0 ==> d.cpus == m.cpus) && (m.memory != "" ==> d.memory == m.memory)
            && (m.description != "" ==> d.description == m.description)
            && (m.description == "" ==> d.description == "Go's OSX Builder machine")
            && (m.toolsInitTimeout > 0 ==> d.toolsInitTimeout == m.toolsInitTimeout)
            && d.(cpus := m.cpus, memory := m.memory, description := m.description,
                  toolsInitTimeout := m.toolsInitTimeout) == m
            && Defaults(d) == d
  {
  }

  // ---------------------------------------------------------------------------
  // The paths

  /** Where the gold image of a checksum is unpacked. */
  function GoldPath(home: string, checksum: string): string
  {
    Vms.PathJoin(home, Vms.PathJoin(".go-osx-builder/vix/gold", checksum))
  }

  /** The pattern the gold image's vmx file is looked up with. */
  function GoldPattern(home: string, checksum: string): string
  {
    Vms.PathJoin(GoldPath(home, checksum), "**.vmx")
  }

  /** `filepath.Join` of any number of elements: each joined onto the join of those before it. */
  function JoinAll(parts: seq<string>): string
    decreases |parts|
  {
    if |parts| == 0 then "" else Vms.PathJoin(JoinAll(parts[..|parts| - 1]), parts[|parts| - 1])
  }

  /** Non-empty elements are joined with one separator each; an empty element adds nothing. */
  lemma JoinAllStep(parts: seq<string>, last: string)
    ensures JoinAll(parts + [last])
              == if JoinAll(parts) == "" then last else if last == "" then JoinAll(parts) else JoinAll(parts) + "/" + last
  {
    assert (parts + [last])[..|parts|] == parts;
  }

  /** The clone's folder: `<home>/.go-osx-builder/vix/vms/<checksum>/<name>`. */
  function CloneDir(home: string, checksum: string, name: string): string
  {
    JoinAll([home, ".go-osx-builder", "vix", "vms", checksum, name])
  }

  /** The clone's vmx file, named after the machine inside its folder. */
  function ClonePath(home: string, checksum: string, name: string): string
  {
    Vms.PathJoin(CloneDir(home, checksum, name), name + ".vmx")
  }

  /** With a home, a checksum and a name, the clone lives at `<home>/.go-osx-builder/vix/vms/<checksum>/<name>/<name>.vmx`. */
  lemma ClonePathLayout(home: string, checksum: string, name: string)
    requires home != "" && checksum != "" && name != ""
    ensures CloneDir(home, checksum, name) == home + "/" + ".go-osx-builder" + "/" + "vix" + "/" + "vms" + "/" + checksum + "/" + name
    ensures ClonePath(home, checksum, name) == CloneDir(home, checksum, name) + "/" + (name + ".vmx")
  {
    var p1: seq<string> := [home];
    assert [] + [home] == p1 && JoinAll(p1) == home by {
      JoinAllStep([], home);
    }
    var j2 := home + "/" + ".go-osx-builder";
    var p2 := p1 + [".go-osx-builder"];
    assert JoinAll(p2) == j2 by {
      JoinAllStep(p1, ".go-osx-builder");
    }
    var j3 := j2 + "/" + "vix";
    var p3 := p2 + ["vix"];
    assert JoinAll(p3) == j3 by {
      JoinAllStep(p2, "vix");
    }
    var j4 := j3 + "/" + "vms";
    var p4 := p3 + ["vms"];
    assert JoinAll(p4) == j4 by {
      JoinAllStep(p3, "vms");
    }
    var j5 := j4 + "/" + checksum;
    var p5 := p4 + [checksum];
    assert JoinAll(p5) == j5 by {
      JoinAllStep(p4, checksum);
      assert j4 != "" by { assert |j4| > 0; }
    }
    var p6 := p5 + [name];
    assert JoinAll(p6) == j5 + "/" + name by {
      JoinAllStep(p5, name);
      assert j5 != "" by { assert |j5| > 0; }
    }
    assert p6 == [home, ".go-osx-builder", "vix", "vms", checksum, name];
  }

  // ---------------------------------------------------------------------------
  // The plans

  /** Register with the inventory where the provider keeps one, then open the machine and ask whether it runs. */
  function OpenSteps(d: Machine, vmxFile: string): seq<Step>
  {
    (if LegacyVms.InInventory(ProviderOf(d.provider)) then [Invoke(RegisterVM(vmxFile), Checked)] else [])
    + LegacyVms.OpenCheckSteps(vmxFile, d.image.password)
  }

  /** Memory, CPUs, name and description; none of them can fail the update. */
  function SettingSteps(d: Machine, units: LegacyVms.Units): seq<Step>
  {
    [Invoke(SetMemorySize(LegacyVms.MemoryMb(units, d.memory)), Ignored),
     Invoke(SetNumberVcpus(d.cpus), Ignored),
     Invoke(SetDisplayName(d.name), Ignored),
     Invoke(SetAnnotation(d.description), Ignored)]
  }

  /** The virtual hardware upgrade (never on the player), then every network adapter removed. */
  function HardwareSteps(d: Machine): seq<Step>
  {
    (if d.upgradeVHardware && ProviderOf(d.provider) != Player then [Invoke(UpgradeVHardware, Checked)] else [])
    + [Invoke(RemoveAllNetworkAdapters, Checked)]
  }

  /** `Update` up to the adapter loop, on a record whose defaults are set. */
  function UpdatePre(w: World, d: Machine, vmxFile: string, units: LegacyVms.Units): seq<Step>
  {
    OpenSteps(d, vmxFile) + (LegacyVms.PowerOffIf(w) + (SettingSteps(d, units) + HardwareSteps(d)))
  }

  /** One attach per drive, in order. */
  function AttachSteps(drives: seq<CDDVDDrive>): (p: seq<Step>)
    ensures |p| == |drives|
    ensures forall i :: 0 <= i < |drives| ==> p[i] == Invoke(AttachCDDVD(drives[i]), Checked)
  {
    seq(|drives|, i requires 0 <= i < |drives| => Invoke(AttachCDDVD(drives[i]), Checked))
  }

  /** Every CD/DVD drive removed, then the configured ones attached. */
  function DriveSteps(drives: seq<CDDVDDrive>): seq<Step>
  {
    [Invoke(RemoveAllCDDVDDrives, Checked)] + AttachSteps(drives)
  }

  /** Shared folders are enabled only when asked for and the tools came up in time. */
  function SharedSteps(w: World, d: Machine): seq<Step>
  {
    if d.sharedFolders && w.failure(WaitForToolsInGuest(d.toolsInitTimeout)).None?
    then [Invoke(EnableSharedFolders(true), Checked)]
    else []
  }

  /** Power on, wait for the tools without failing on them, then the shared folders. */
  function PowerSteps(w: World, d: Machine): seq<Step>
  {
    [Invoke(PowerOn(LegacyVms.PowerOnOptions(d.launchGUI)), Checked),
     Invoke(WaitForToolsInGuest(d.toolsInitTimeout), Ignored)]
    + SharedSteps(w, d)
  }

  /** `Update` after the adapter loop. */
  function UpdatePost(w: World, d: Machine): seq<Step>
  {
    DriveSteps(d.drives) + PowerSteps(w, d)
  }

  function UpdatePlan(w: World, d: Machine, vmxFile: string, units: LegacyVms.Units): seq<Step>
  {
    UpdatePre(w, d, vmxFile, units) + (LegacyVms.AdapterSteps(d.adapters) + UpdatePost(w, d))
  }

  /** How many adapters `Update` prepares: none unless it reaches the loop. */
  function UpdateReach(w: World, d: Machine, vmxFile: string, units: LegacyVms.Units): nat
  {
    if w.failure(Connect(ProviderOf(d.provider), d.verifySSL)).Some? || Run(w, UpdatePre(w, d, vmxFile, units)).1.Some? then 0
    else LegacyVms.Reach(w, d.adapters)
  }

  /** `Update`'s session: the events logged and the error returned. */
  function UpdateRun(w: World, m: Machine, vmxFile: string, units: LegacyVms.Units): (seq<Event>, Option<Error>)
  {
    var d := Defaults(m);
    Session(w, ProviderOf(d.provider), d.verifySSL, Run(w, UpdatePlan(w, d, vmxFile, units)))
  }

  /** `Update`: the record after, the events logged, and the error returned. */
  function UpdateSpec(w: World, m: Machine, vmxFile: string, units: LegacyVms.Units): (Machine, seq<Event>, Option<Error>)
  {
    var d := Defaults(m);
    var (events, err) := UpdateRun(w, m, vmxFile, units);
    (d.(adapters := LegacyVms.PrepareFirst(d.adapters, UpdateReach(w, d, vmxFile, units))), events, err)
  }

  /** Unregister where the provider keeps an inventory, then delete keeping the files (forced). */
  function DeleteSteps(m: Machine, vmxFile: string): seq<Step>
  {
    (if LegacyVms.InInventory(ProviderOf(m.provider)) then [Invoke(UnregisterVM(vmxFile), Checked)] else [])
    + [Invoke(Delete({KeepFiles, Force}), Checked)]
  }

  /** `Destroy` after connecting. */
  function DestroyPlan(w: World, m: Machine, vmxFile: string): seq<Step>
  {
    LegacyVms.OpenCheckSteps(vmxFile, m.image.password) + (LegacyVms.PowerOffIf(w) + DeleteSteps(m, vmxFile))
  }

  /** `Destroy`: the events logged and the error returned; the record does not change. */
  function DestroySpec(w: World, m: Machine, vmxFile: string): (seq<Event>, Option<Error>)
  {
    Session(w, ProviderOf(m.provider), m.verifySSL, Run(w, DestroyPlan(w, m, vmxFile)))
  }

  /** Without a clone, its folder is cleared, then the gold machine is cloned in full; "snapshot already exists" is no failure. */
  function CloneSteps(dir: string, vmx: string, cloneExists: bool): seq<Step>
  {
    if cloneExists then []
    else [Remove(dir), Invoke(Clone(CloneFull, vmx), Tolerating(SnapshotAlreadyExists))]
  }

  /** `Create` after connecting, up to the nested `Update`: open the gold machine, then clone it to `vmx` in `dir` if needed. */
  function CreatePlan(m: Machine, gold: string, cloneExists: bool, dir: string, vmx: string): seq<Step>
  {
    [Invoke(OpenVM(gold, m.image.password), Checked)] + CloneSteps(dir, vmx, cloneExists)
  }

  /**
   * `Create`, given the home directory, the matches of the gold pattern and
   * whether the clone's vmx exists: the record after, the events, the error
   * and the clone path returned.
   */
  function CreateSpec(w: World, home: string, m: Machine, matches: seq<string>, cloneExists: bool, units: LegacyVms.Units)
    : (Machine, seq<Event>, Option<Error>, string)
  {
    if |matches| == 0 then (m, [], Some(Failed("[ERROR] vmx file was not found: " + GoldPattern(home, m.image.checksum))), "")
    else CreateSession(w, m, matches[0], cloneExists, CloneDir(home, m.image.checksum, m.name),
                       ClonePath(home, m.image.checksum, m.name), units)
  }

  /** `Create` from the connection to the disconnection, with the gold vmx and the clone's paths given. */
  function CreateSession(w: World, m: Machine, gold: string, cloneExists: bool, dir: string, vmx: string, units: LegacyVms.Units)
    : (Machine, seq<Event>, Option<Error>, string)
  {
    var connect := Connect(ProviderOf(m.provider), m.verifySSL);
    if w.failure(connect).Some? then (m, [Called(connect)], w.failure(connect), "")
    else
      var (m', events, err, vmxFile) := CreateBody(w, m, gold, cloneExists, dir, vmx, units);
      (m', [Called(connect)] + events + [Called(Disconnect)], err, vmxFile)
  }

  function CreateBody(w: World, m: Machine, gold: string, cloneExists: bool, dir: string, vmx: string, units: LegacyVms.Units)
    : (Machine, seq<Event>, Option<Error>, string)
  {
    var (openLog, openErr) := Run(w, CreatePlan(m, gold, cloneExists, dir, vmx));
    if openErr.Some? then (m, openLog, openErr, "")
    else
      var (m', updated, err) := UpdateSpec(w, m, vmx, units);
      (m', openLog + updated, err, if err.None? then vmx else "")
  }

  // ---------------------------------------------------------------------------
  // What the plans log when nothing fails

  /** Register where the provider keeps an inventory, then open and ask whether it runs. */
  function OpenCalls(d: Machine, vmxFile: string): seq<Event>
  {
    (if LegacyVms.InInventory(ProviderOf(d.provider)) then [Called(RegisterVM(vmxFile))] else [])
    + [Called(OpenVM(vmxFile, d.image.password)), Called(IsRunning)]
  }

  /** Ask for the tools' state and power off, on a running machine. */
  function StopCalls(w: World): seq<Event>
  {
    if w.running then [Called(ToolsState), Called(PowerOff(LegacyVms.PowerOffOptions(w.tools)))] else []
  }

  function SettingCalls(d: Machine, units: LegacyVms.Units): seq<Event>
  {
    [Called(SetMemorySize(LegacyVms.MemoryMb(units, d.memory))), Called(SetNumberVcpus(d.cpus)),
     Called(SetDisplayName(d.name)), Called(SetAnnotation(d.description))]
  }

  function HardwareCalls(d: Machine): seq<Event>
  {
    (if d.upgradeVHardware && ProviderOf(d.provider) != Player then [Called(UpgradeVHardware)] else [])
    + [Called(RemoveAllNetworkAdapters)]
  }

  /** One adapter attach per adapter, each prepared. */
  function AdapterCalls(ads: seq<NetworkAdapter>): (r: seq<Event>)
    ensures |r| == |ads|
    ensures forall i :: 0 <= i < |ads| ==> r[i] == Called(AddNetworkAdapter(LegacyVms.Prepared(ads[i])))
  {
    seq(|ads|, i requires 0 <= i < |ads| => Called(AddNetworkAdapter(LegacyVms.Prepared(ads[i]))))
  }

  /** One drive attach per drive. */
  function AttachCalls(drives: seq<CDDVDDrive>): (r: seq<Event>)
    ensures |r| == |drives|
    ensures forall i :: 0 <= i < |drives| ==> r[i] == Called(AttachCDDVD(drives[i]))
  {
    seq(|drives|, i requires 0 <= i < |drives| => Called(AttachCDDVD(drives[i])))
  }

  function DriveCalls(drives: seq<CDDVDDrive>): seq<Event>
  {
    [Called(RemoveAllCDDVDDrives)] + AttachCalls(drives)
  }

  /** Power on and wait; the shared folders follow when asked for and the tools came up. */
  function PowerCalls(w: World, d: Machine): seq<Event>
  {
    [Called(PowerOn(LegacyVms.PowerOnOptions(d.launchGUI))), Called(WaitForToolsInGuest(d.toolsInitTimeout))]
    + (if d.sharedFolders && w.failure(WaitForToolsInGuest(d.toolsInitTimeout)).None?
       then [Called(EnableSharedFolders(true))] else [])
  }

  /** Every call `Update` makes after connecting, in order, when none fails. */
  function UpdateCalls(w: World, d: Machine, vmxFile: string, units: LegacyVms.Units): seq<Event>
  {
    (OpenCalls(d, vmxFile) + (StopCalls(w) + (SettingCalls(d, units) + HardwareCalls(d))))
    + (AdapterCalls(d.adapters) + (DriveCalls(d.drives) + PowerCalls(w, d)))
  }

  /** Every call `Destroy` makes after connecting, in order, when none fails. */
  function DestroyCalls(w: World, m: Machine, vmxFile: string): seq<Event>
  {
    [Called(OpenVM(vmxFile, m.image.password)), Called(IsRunning)]
    + (StopCalls(w)
       + ((if LegacyVms.InInventory(ProviderOf(m.provider)) then [Called(UnregisterVM(vmxFile))] else [])
          + [Called(Delete({KeepFiles, Force}))]))
  }

  lemma OpenTraces(d: Machine, vmxFile: string)
    ensures Traces(OpenSteps(d, vmxFile)) == OpenCalls(d, vmxFile)
  {
    var reg := if LegacyVms.InInventory(ProviderOf(d.provider)) then [Invoke(RegisterVM(vmxFile), Checked)] else [];
    var open := LegacyVms.OpenCheckSteps(vmxFile, d.image.password);
    TracesAppend(reg, open);
    TracesOfInvokes(reg);
    TracesOfInvokes(open);
    assert Traces(open) == [Called(OpenVM(vmxFile, d.image.password)), Called(IsRunning)];
  }

  lemma StopTraces(w: World)
    ensures Traces(LegacyVms.PowerOffIf(w)) == StopCalls(w)
  {
    LegacyVms.PowerOffTrace(w);
  }

  lemma SettingTraces(d: Machine, units: LegacyVms.Units)
    ensures Traces(SettingSteps(d, units)) == SettingCalls(d, units)
  {
    TracesOfInvokes(SettingSteps(d, units));
  }

  lemma HardwareTraces(d: Machine)
    ensures Traces(HardwareSteps(d)) == HardwareCalls(d)
  {
    var upgrade := if d.upgradeVHardware && ProviderOf(d.provider) != Player then [Invoke(UpgradeVHardware, Checked)] else [];
    var remove := [Invoke(RemoveAllNetworkAdapters, Checked)];
    TracesAppend(upgrade, remove);
    TracesOfInvokes(upgrade);
    TracesOfInvokes(remove);
    assert Traces(remove) == [Called(RemoveAllNetworkAdapters)];
  }

  lemma AdapterTraces(ads: seq<NetworkAdapter>)
    ensures Traces(LegacyVms.AdapterSteps(ads)) == AdapterCalls(ads)
  {
    TracesOfInvokes(LegacyVms.AdapterSteps(ads));
  }

  lemma DriveTraces(drives: seq<CDDVDDrive>)
    ensures Traces(DriveSteps(drives)) == DriveCalls(drives)
  {
    TracesOfInvokes(DriveSteps(drives));
  }

  lemma PowerTraces(w: World, d: Machine)
    ensures Traces(PowerSteps(w, d)) == PowerCalls(w, d)
  {
    TracesOfInvokes(PowerSteps(w, d));
  }

  /** The update plan traces exactly the calls of `Update`. */
  lemma UpdateTraces(w: World, d: Machine, vmxFile: string, units: LegacyVms.Units)
    ensures Traces(UpdatePlan(w, d, vmxFile, units)) == UpdateCalls(w, d, vmxFile, units)
  {
    var settings := SettingSteps(d, units) + HardwareSteps(d);
    var stop := LegacyVms.PowerOffIf(w) + settings;
    var post := UpdatePost(w, d);
    TracesAppend(UpdatePre(w, d, vmxFile, units), LegacyVms.AdapterSteps(d.adapters) + post);
    TracesAppend(OpenSteps(d, vmxFile), stop);
    TracesAppend(LegacyVms.PowerOffIf(w), settings);
    TracesAppend(SettingSteps(d, units), HardwareSteps(d));
    TracesAppend(LegacyVms.AdapterSteps(d.adapters), post);
    TracesAppend(DriveSteps(d.drives), PowerSteps(w, d));
    OpenTraces(d, vmxFile);
    StopTraces(w);
    SettingTraces(d, units);
    HardwareTraces(d);
    AdapterTraces(d.adapters);
    DriveTraces(d.drives);
    PowerTraces(w, d);
  }

  /**
   * `Update` logs the connect, then calls of `UpdateCalls` only, then the
   * disconnect; when it succeeds, it made every one of them in order.
   */
  lemma UpdateLogsCalls(w: World, m: Machine, vmxFile: string, units: LegacyVms.Units)
    ensures var d := Defaults(m);
            var (events, err) := UpdateRun(w, m, vmxFile, units);
            var connect := Called(Connect(ProviderOf(d.provider), d.verifySSL));
            (forall e :: e in events ==> e == connect || e == Called(Disconnect) || e in UpdateCalls(w, d, vmxFile, units))
            && (err.None? ==> events == [connect] + UpdateCalls(w, d, vmxFile, units) + [Called(Disconnect)])
  {
    var d := Defaults(m);
    var plan := UpdatePlan(w, d, vmxFile, units);
    RunLogsTraced(w, plan);
    RunLogsPrefix(w, plan);
    UpdateTraces(w, d, vmxFile, units);
  }

  /** The destroy plan traces exactly the calls of `Destroy`. */
  lemma DestroyTraces(w: World, m: Machine, vmxFile: string)
    ensures Traces(DestroyPlan(w, m, vmxFile)) == DestroyCalls(w, m, vmxFile)
  {
    var open := LegacyVms.OpenCheckSteps(vmxFile, m.image.password);
    var off := LegacyVms.PowerOffIf(w);
    var delete := DeleteSteps(m, vmxFile);
    TracesAppend(open, off + delete);
    TracesAppend(off, delete);
    TracesOfInvokes(open);
    StopTraces(w);
    TracesOfInvokes(delete);
    assert Traces(open) == [Called(OpenVM(vmxFile, m.image.password)), Called(IsRunning)];
    assert Traces(delete) == (if LegacyVms.InInventory(ProviderOf(m.provider)) then [Called(UnregisterVM(vmxFile))] else [])
                             + [Called(Delete({KeepFiles, Force}))];
  }

  /**
   * `Destroy` logs the connect, then calls of `DestroyCalls` only, then the
   * disconnect; when it succeeds, it made every one of them in order.
   */
  lemma DestroyLogsCalls(w: World, m: Machine, vmxFile: string)
    ensures var (events, err) := DestroySpec(w, m, vmxFile);
            var connect := Called(Connect(ProviderOf(m.provider), m.verifySSL));
            (forall e :: e in events ==> e == connect || e == Called(Disconnect) || e in DestroyCalls(w, m, vmxFile))
            && (err.None? ==> events == [connect] + DestroyCalls(w, m, vmxFile) + [Called(Disconnect)])
  {
    var plan := DestroyPlan(w, m, vmxFile);
    RunLogsTraced(w, plan);
    RunLogsPrefix(w, plan);
    DestroyTraces(w, m, vmxFile);
  }

  // ---------------------------------------------------------------------------
  // Properties of the plans

  /**
   * What every call of `Update` respects: only an inventory provider
   * registers, and only the clone's vmx; nothing unregisters; shared folders
   * only when asked for and after the tools came up; only prepared adapters.
   */
  ghost predicate UpdateCallOk(w: World, d: Machine, vmxFile: string, e: Event)
  {
    e.Called?
    && (e.call.RegisterVM? ==> e.call.path == vmxFile && LegacyVms.InInventory(ProviderOf(d.provider)))
    && !e.call.UnregisterVM?
    && (e.call.EnableSharedFolders? ==> d.sharedFolders && w.failure(WaitForToolsInGuest(d.toolsInitTimeout)).None?)
    && (e.call.AddNetworkAdapter? ==>
          e.call.adapter.startConnected && (e.call.adapter.connType == ConnBridged ==> e.call.adapter.linkStatePropagation))
  }

  lemma UpdateCallsOk(w: World, d: Machine, vmxFile: string, units: LegacyVms.Units)
    ensures forall e :: e in UpdateCalls(w, d, vmxFile, units) ==> UpdateCallOk(w, d, vmxFile, e)
  {
    forall e | e in AdapterCalls(d.adapters)
      ensures UpdateCallOk(w, d, vmxFile, e)
    {
      var i :| 0 <= i < |d.adapters| && AdapterCalls(d.adapters)[i] == e;
    }
    forall e | e in AttachCalls(d.drives)
      ensures UpdateCallOk(w, d, vmxFile, e)
    {
      var i :| 0 <= i < |d.drives| && AttachCalls(d.drives)[i] == e;
    }
  }

  /** Every event of `Update` is the connect, the disconnect, or a call that respects `UpdateCallOk`. */
  lemma UpdateLogsOk(w: World, m: Machine, vmxFile: string, units: LegacyVms.Units)
    ensures var d := Defaults(m);
            forall e :: e in UpdateRun(w, m, vmxFile, units).0 ==>
              e == Called(Connect(ProviderOf(d.provider), d.verifySSL)) || e == Called(Disconnect) || UpdateCallOk(w, d, vmxFile, e)
  {
    UpdateLogsCalls(w, m, vmxFile, units);
    UpdateCallsOk(w, Defaults(m), vmxFile, units);
  }

  /** `Update` registers the machine only with an inventory provider, and never unregisters it. */
  lemma UpdateRegistersOnlyInventory(w: World, m: Machine, vmxFile: string, units: LegacyVms.Units)
    ensures var d := Defaults(m);
            forall path :: Called(RegisterVM(path)) in UpdateRun(w, m, vmxFile, units).0 ==>
              path == vmxFile && LegacyVms.InInventory(ProviderOf(d.provider))
    ensures forall path :: Called(UnregisterVM(path)) !in UpdateRun(w, m, vmxFile, units).0
  {
    UpdateLogsOk(w, m, vmxFile, units);
  }

  /** `Destroy` unregisters the machine only from an inventory provider, and never registers it. */
  lemma DestroyUnregistersOnlyInventory(w: World, m: Machine, vmxFile: string)
    ensures forall path :: Called(UnregisterVM(path)) in DestroySpec(w, m, vmxFile).0 ==>
              path == vmxFile && LegacyVms.InInventory(ProviderOf(m.provider))
    ensures forall path :: Called(RegisterVM(path)) !in DestroySpec(w, m, vmxFile).0
  {
    DestroyLogsCalls(w, m, vmxFile);
  }

  /** Shared folders are enabled only for a machine that asks for them, and only after the tools came up. */
  lemma SharedFoldersGated(w: World, m: Machine, vmxFile: string, units: LegacyVms.Units)
    ensures var d := Defaults(m);
            Called(EnableSharedFolders(true)) in UpdateRun(w, m, vmxFile, units).0 ==>
              d.sharedFolders && w.failure(WaitForToolsInGuest(d.toolsInitTimeout)).None?
  {
    UpdateLogsOk(w, m, vmxFile, units);
  }

  /** `Update` attaches only prepared adapters: connected at start, and propagating the link state when bridged. */
  lemma UpdateAttachesPrepared(w: World, m: Machine, vmxFile: string, units: LegacyVms.Units)
    ensures forall a :: Called(AddNetworkAdapter(a)) in UpdateRun(w, m, vmxFile, units).0 ==>
              a.startConnected && (a.connType == ConnBridged ==> a.linkStatePropagation)
  {
    UpdateLogsOk(w, m, vmxFile, units);
  }

  /** The drive loop attaches the drives in order up to the first that fails, whose error it returns. */
  lemma AttachRun(w: World, drives: seq<CDDVDDrive>)
    ensures var (events, err) := Run(w, AttachSteps(drives));
            exists n :: 0 <= n <= |drives| && events == AttachCalls(drives[..n])
                        && (err.None? ==> n == |drives|)
                        && (err.Some? ==> 0 < n && err == w.failure(AttachCDDVD(drives[n - 1])))
  {
    var plan := AttachSteps(drives);
    var n := RunStopsAtFirst(w, plan);
    var k := if n == |plan| then n else n + 1;
    assert plan[..k] == AttachSteps(drives[..k]);
    TracesOfInvokes(plan[..k]);
    assert Traces(plan[..k]) == AttachCalls(drives[..k]);
    if n == |plan| {
      assert plan[..k] == plan;
    }
  }

  /** The drive steps: all drives are removed first; a failed removal ends them, otherwise the attach loop follows. */
  lemma DrivesRemovedFirst(w: World, drives: seq<CDDVDDrive>)
    ensures var remove := RemoveAllCDDVDDrives;
            Run(w, DriveSteps(drives))
              == if w.failure(remove).Some? then ([Called(remove)], w.failure(remove))
                 else ([Called(remove)] + Run(w, AttachSteps(drives)).0, Run(w, AttachSteps(drives)).1)
  {
    assert DriveSteps(drives)[1..] == AttachSteps(drives);
  }

  /**
   * After the drives: a failed power-on ends the update; a failed wait for
   * the tools still returns success, without shared folders; otherwise the
   * shared folders are enabled exactly when asked for.
   */
  lemma PowerRun(w: World, d: Machine)
    ensures var on := PowerOn(LegacyVms.PowerOnOptions(d.launchGUI));
            var wait := WaitForToolsInGuest(d.toolsInitTimeout);
            var share := EnableSharedFolders(true);
            Run(w, PowerSteps(w, d))
              == if w.failure(on).Some? then ([Called(on)], w.failure(on))
                 else if w.failure(wait).Some? || !d.sharedFolders then ([Called(on), Called(wait)], None)
                 else ([Called(on), Called(wait), Called(share)], w.failure(share))
  {
    var steps := PowerSteps(w, d);
    var waitStep := Invoke(WaitForToolsInGuest(d.toolsInitTimeout), Ignored);
    var shared := SharedSteps(w, d);
    assert steps[1..] == [waitStep] + shared;
    assert ([waitStep] + shared)[1..] == shared;
    assert !Stops(w, waitStep);
    var on := Called(PowerOn(LegacyVms.PowerOnOptions(d.launchGUI)));
    if shared == [] {
      assert Run(w, shared) == ([], None);
      assert [on] + ([Called(waitStep.call)] + []) == [on, Called(waitStep.call)];
    } else {
      var share := Invoke(EnableSharedFolders(true), Checked);
      assert shared[1..] == [];
      assert Run(w, shared[1..]) == ([], None);
      assert Run(w, shared).0 == [Called(share.call)];
      assert [on] + ([Called(waitStep.call)] + [Called(share.call)]) == [on, Called(waitStep.call), Called(share.call)];
    }
  }

  /** `Destroy` removes no directory: the machine's files stay where they are. */
  lemma DestroyRemovesNoDirectory(w: World, m: Machine, vmxFile: string)
    ensures forall e :: e in DestroySpec(w, m, vmxFile).0 ==> !e.RemovedAll?
  {
    DestroyLogsCalls(w, m, vmxFile);
  }

  /** `Destroy` returns what the delete returns once it is reached, and reaches it whenever it succeeds. */
  lemma DestroyReturnsDelete(w: World, m: Machine, vmxFile: string)
    ensures var (events, err) := DestroySpec(w, m, vmxFile);
            (Called(Delete({KeepFiles, Force})) in events ==> err == w.failure(Delete({KeepFiles, Force})))
            && (err.None? ==> Called(Delete({KeepFiles, Force})) in events)
  {
    DestroyLogsCalls(w, m, vmxFile);
    var plan := DestroyPlan(w, m, vmxFile);
    var del := Invoke(Delete({KeepFiles, Force}), Checked);
    var unregister := if LegacyVms.InInventory(ProviderOf(m.provider)) then [Invoke(UnregisterVM(vmxFile), Checked)] else [];
    var prefix := LegacyVms.OpenCheckSteps(vmxFile, m.image.password) + (LegacyVms.PowerOffIf(w) + unregister);
    assert plan == prefix + [del];
    if Called(del.call) in Run(w, plan).0 {
      forall st | st in prefix
        ensures Called(del.call) !in Trace(st)
      {
      }
      ReachedAfter(w, prefix, [del], Called(del.call));
      assert [del][1..] == [];
      assert Run(w, [del][1..]) == ([], None);
    }
  }

  /** A running machine is powered off before it is deleted: the delete is reached only after the open, the check and the power-off succeeded. */
  lemma DestroyPowersOffFirst(w: World, m: Machine, vmxFile: string)
    requires w.running
    ensures var plan := DestroyPlan(w, m, vmxFile);
            Called(Delete({KeepFiles, Force})) in Run(w, plan).0 ==>
              Run(w, LegacyVms.OpenCheckSteps(vmxFile, m.image.password))
                == ([Called(OpenVM(vmxFile, m.image.password)), Called(IsRunning)], None)
              && Run(w, LegacyVms.PowerOffSteps(w))
                == ([Called(ToolsState), Called(PowerOff(LegacyVms.PowerOffOptions(w.tools)))], None)
              && Run(w, plan).0 == [Called(OpenVM(vmxFile, m.image.password)), Called(IsRunning),
                                    Called(ToolsState), Called(PowerOff(LegacyVms.PowerOffOptions(w.tools)))]
                                   + Run(w, DeleteSteps(m, vmxFile)).0
  {
    var open := LegacyVms.OpenCheckSteps(vmxFile, m.image.password);
    var off := LegacyVms.PowerOffSteps(w);
    var head := open + off;
    var plan := DestroyPlan(w, m, vmxFile);
    assert plan == head + DeleteSteps(m, vmxFile);
    var e := Called(Delete({KeepFiles, Force}));
    if e in Run(w, plan).0 {
      forall st | st in head
        ensures e !in Trace(st)
      {
      }
      ReachedAfter(w, head, DeleteSteps(m, vmxFile), e);
      OpenAndPowerOff(w, vmxFile, m.image.password);
    }
  }

  /** When opening, checking and powering off all pass, they log their four calls in order. */
  lemma OpenAndPowerOff(w: World, vmxFile: string, password: string)
    requires Run(w, LegacyVms.OpenCheckSteps(vmxFile, password) + LegacyVms.PowerOffSteps(w)).1.None?
    ensures Run(w, LegacyVms.OpenCheckSteps(vmxFile, password)) == ([Called(OpenVM(vmxFile, password)), Called(IsRunning)], None)
    ensures Run(w, LegacyVms.PowerOffSteps(w)) == ([Called(ToolsState), Called(PowerOff(LegacyVms.PowerOffOptions(w.tools)))], None)
    ensures Traces(LegacyVms.OpenCheckSteps(vmxFile, password) + LegacyVms.PowerOffSteps(w))
              == [Called(OpenVM(vmxFile, password)), Called(IsRunning),
                  Called(ToolsState), Called(PowerOff(LegacyVms.PowerOffOptions(w.tools)))]
  {
    var open := LegacyVms.OpenCheckSteps(vmxFile, password);
    var off := LegacyVms.PowerOffSteps(w);
    RunSplit(w, open, off);
    TracesAppend(open, off);
    TracesOfInvokes(open);
    TracesOfInvokes(off);
    var checkLog := [Called(OpenVM(vmxFile, password)), Called(IsRunning)];
    var stopped := [Called(ToolsState), Called(PowerOff(LegacyVms.PowerOffOptions(w.tools)))];
    assert Traces(open) == checkLog;
    assert Traces(off) == stopped;
    assert checkLog + stopped == [Called(OpenVM(vmxFile, password)), Called(IsRunning),
                                  Called(ToolsState), Called(PowerOff(LegacyVms.PowerOffOptions(w.tools)))];
  }


  /** A running machine is powered off before anything is changed. */
  lemma UpdatePowersOffFirst(w: World, d: Machine, vmxFile: string, units: LegacyVms.Units)
    requires w.running
    ensures var open := OpenSteps(d, vmxFile);
            var tail := SettingSteps(d, units) + HardwareSteps(d);
            var pre := UpdatePre(w, d, vmxFile, units);
            Called(SetMemorySize(LegacyVms.MemoryMb(units, d.memory))) in Run(w, pre).0 ==>
              Run(w, open) == (Traces(open), None)
              && Run(w, LegacyVms.PowerOffSteps(w)) == ([Called(ToolsState), Called(PowerOff(LegacyVms.PowerOffOptions(w.tools)))], None)
              && Run(w, pre).0 == Traces(open) + [Called(ToolsState), Called(PowerOff(LegacyVms.PowerOffOptions(w.tools)))] + Run(w, tail).0
  {
    var open := OpenSteps(d, vmxFile);
    var head := open + LegacyVms.PowerOffSteps(w);
    var tail := SettingSteps(d, units) + HardwareSteps(d);
    var pre := UpdatePre(w, d, vmxFile, units);
    assert pre == head + tail;
    var e := Called(SetMemorySize(LegacyVms.MemoryMb(units, d.memory)));
    if e in Run(w, pre).0 {
      forall st | st in head
        ensures e !in Trace(st)
      {
      }
      ReachedAfter(w, head, tail, e);
      RunSplit(w, open, LegacyVms.PowerOffSteps(w));
      TracesAppend(open, LegacyVms.PowerOffSteps(w));
      LegacyVms.PowerOffTrace(w);
    }
  }

  /** Without a clone the folder is cleared before cloning, and a "snapshot already exists" failure of the clone is none. */
  lemma CloneStep(w: World, m: Machine, gold: string, cloneExists: bool, dir: string, vmx: string)
    ensures var open := OpenVM(gold, m.image.password);
            var clone := Clone(CloneFull, vmx);
            Run(w, CreatePlan(m, gold, cloneExists, dir, vmx))
              == if w.failure(open).Some? then ([Called(open)], w.failure(open))
                 else if cloneExists then ([Called(open)], None)
                 else ([Called(open), RemovedAll(dir), Called(clone)],
                       if w.failure(clone).Some? && w.failure(clone) != Some(VixError(SnapshotAlreadyExists))
                       then w.failure(clone) else None)
  {
    var plan := CreatePlan(m, gold, cloneExists, dir, vmx);
    var clone := Invoke(Clone(CloneFull, vmx), Tolerating(SnapshotAlreadyExists));
    var remove := Remove(dir);
    assert plan[1..] == CloneSteps(dir, vmx, cloneExists);
    if !cloneExists {
      assert [remove, clone][1..] == [clone];
      assert [clone][1..] == [];
      assert Run(w, [clone][1..]) == ([], None);
      assert Trace(clone) + [] == [Called(clone.call)];
      assert Run(w, [clone]) == ([Called(clone.call)], if Stops(w, clone) then Some(Failure(w, clone)) else None);
      assert Run(w, [remove, clone]) == ([RemovedAll(remove.dir)] + Run(w, [clone]).0, Run(w, [clone]).1);
      var open := Called(OpenVM(gold, m.image.password));
      assert [open] + ([RemovedAll(remove.dir)] + [Called(clone.call)]) == [open, RemovedAll(remove.dir), Called(clone.call)];
    } else {
      assert plan[1..] == [];
      assert Run(w, plan[1..]) == ([], None);
      assert [Called(OpenVM(gold, m.image.password))] + [] == [Called(OpenVM(gold, m.image.password))];
    }
  }

  /** `Create` returns the clone's path exactly when it succeeds; without a gold vmx file it does nothing else. */
  lemma CreateResult(w: World, home: string, m: Machine, matches: seq<string>, cloneExists: bool, units: LegacyVms.Units)
    ensures var (m', events, err, vmxFile) := CreateSpec(w, home, m, matches, cloneExists, units);
            (err.None? ==> vmxFile == ClonePath(home, m.image.checksum, m.name)) && (err.Some? ==> vmxFile == "")
            && (|matches| == 0 ==>
                  m' == m && events == []
                  && err == Some(Failed("[ERROR] vmx file was not found: " + GoldPattern(home, m.image.checksum))))
  {
  }

  // ---------------------------------------------------------------------------
  // The steps as methods

  /** The drive loop's plan: remove every drive, then attach each in order; the first failure ends it. */
  method ReplaceDrives(vix: Vix, drives: seq<CDDVDDrive>, ghost plan: seq<Step>, ghost log0: seq<Event>,
                       ghost todo: seq<Step>, ghost rest: seq<Step>)
    returns (err: Option<Error>)
    requires Between(vix.world, plan, log0, vix.log, todo) && todo == DriveSteps(drives) + rest
    modifies vix
    ensures err.None? ==> Between(vix.world, plan, log0, vix.log, rest)
    ensures err.Some? ==> Ended(vix.world, plan, log0, vix.log, err)
  {
    ghost var w := vix.world;
    Advance(w, plan, log0, vix.log, todo, Invoke(RemoveAllCDDVDDrives, Checked));
    err := vix.Do(RemoveAllCDDVDDrives);
    if err.Some? {
      return;
    }
    assert todo[1..] == AttachSteps(drives)[0..] + rest;
    var i := 0;
    while i < |drives|
      invariant 0 <= i <= |drives|
      invariant Between(w, plan, log0, vix.log, AttachSteps(drives)[i..] + rest)
    {
      ghost var t := AttachSteps(drives)[i..] + rest;
      LegacyVms.DropNext(AttachSteps(drives), rest, i);
      Advance(w, plan, log0, vix.log, t, Invoke(AttachCDDVD(drives[i]), Checked));
      err := vix.Do(AttachCDDVD(drives[i]));
      if err.Some? {
        return;
      }
      i := i + 1;
    }
    assert AttachSteps(drives)[i..] + rest == rest;
    err := None;
  }

  // ---------------------------------------------------------------------------
  // The record

  class VM {
    var provider: string
    var verifySSL: bool
    var name: string
    var description: string
    var image: Vms.Image
    var cpus: nat
    var memory: string
    var upgradeVHardware: bool
    var toolsInitTimeout: int
    var launchGUI: bool
    var sharedFolders: bool
    var adapters: seq<NetworkAdapter>
    var drives: seq<CDDVDDrive>

    constructor(m: Machine)
      ensures Snapshot() == m
    {
      provider, verifySSL, name, description, image := m.provider, m.verifySSL, m.name, m.description, m.image;
      cpus, memory, upgradeVHardware, toolsInitTimeout := m.cpus, m.memory, m.upgradeVHardware, m.toolsInitTimeout;
      launchGUI, sharedFolders, adapters, drives := m.launchGUI, m.sharedFolders, m.adapters, m.drives;
    }

    function Snapshot(): Machine
      reads this
    {
      Machine(provider, verifySSL, name, description, image, cpus, memory, upgradeVHardware, toolsInitTimeout,
              launchGUI, sharedFolders, adapters, drives)
    }

    method SetDefaults()
      modifies this
      ensures Snapshot() == Defaults(old(Snapshot()))
    {
      if cpus <= 0 {
        cpus := 2;
      }
      if memory == "" {
        memory := "512mib";
      }
      if description == "" {
        description := DefaultDescription;
      }
      if toolsInitTimeout <= 0 {
        toolsInitTimeout := 30 * LegacyVms.Second;
      }
    }

    method OpenForUpdate(vix: Vix, vmxFile: string, ghost plan: seq<Step>, ghost log0: seq<Event>,
                         ghost todo: seq<Step>, ghost rest: seq<Step>)
      returns (running: bool, err: Option<Error>)
      requires Between(vix.world, plan, log0, vix.log, todo) && todo == OpenSteps(Snapshot(), vmxFile) + rest
      modifies vix
      ensures err.None? ==> Between(vix.world, plan, log0, vix.log, rest) && running == vix.world.running
      ensures err.Some? ==> Ended(vix.world, plan, log0, vix.log, err)
    {
      ghost var w := vix.world;
      ghost var t := todo;
      running := false;
      var p := ProviderOf(provider);
      if p == ViServer || p == Server {
        Advance(w, plan, log0, vix.log, t, Invoke(RegisterVM(vmxFile), Checked));
        err := vix.Do(RegisterVM(vmxFile));
        if err.Some? {
          return;
        }
        t := t[1..];
      }
      running, err := LegacyVms.OpenAndCheck(vix, vmxFile, image.password, plan, log0, t, rest);
    }

    method ApplySettings(vix: Vix, units: LegacyVms.Units, ghost plan: seq<Step>, ghost log0: seq<Event>,
                         ghost todo: seq<Step>, ghost rest: seq<Step>)
      requires Between(vix.world, plan, log0, vix.log, todo) && todo == SettingSteps(Snapshot(), units) + rest
      modifies vix
      ensures Between(vix.world, plan, log0, vix.log, rest)
    {
      ghost var w := vix.world;
      var memoryInMb: nat;
      match units.parseBytes(memory) {
        case None => memoryInMb := 512;
        case Some(bytes) => memoryInMb := (bytes / 1024) / 1024;
      }
      ghost var t := todo;
      Advance(w, plan, log0, vix.log, t, Invoke(SetMemorySize(memoryInMb), Ignored));
      var ignored := vix.Do(SetMemorySize(memoryInMb));
      t := t[1..];
      Advance(w, plan, log0, vix.log, t, Invoke(SetNumberVcpus(cpus), Ignored));
      ignored := vix.Do(SetNumberVcpus(cpus));
      t := t[1..];
      Advance(w, plan, log0, vix.log, t, Invoke(SetDisplayName(name), Ignored));
      ignored := vix.Do(SetDisplayName(name));
      t := t[1..];
      Advance(w, plan, log0, vix.log, t, Invoke(SetAnnotation(description), Ignored));
      ignored := vix.Do(SetAnnotation(description));
      assert t[1..] == rest;
    }

    method ReplaceHardware(vix: Vix, ghost plan: seq<Step>, ghost log0: seq<Event>,
                           ghost todo: seq<Step>, ghost rest: seq<Step>)
      returns (err: Option<Error>)
      requires Between(vix.world, plan, log0, vix.log, todo) && todo == HardwareSteps(Snapshot()) + rest
      modifies vix
      ensures err.None? ==> Between(vix.world, plan, log0, vix.log, rest)
      ensures err.Some? ==> Ended(vix.world, plan, log0, vix.log, err)
    {
      ghost var w := vix.world;
      ghost var t := todo;
      if upgradeVHardware && ProviderOf(provider) != Player {
        Advance(w, plan, log0, vix.log, t, Invoke(UpgradeVHardware, Checked));
        err := vix.Do(UpgradeVHardware);
        if err.Some? {
          return;
        }
        t := t[1..];
      }
      assert t == [Invoke(RemoveAllNetworkAdapters, Checked)] + rest;
      Advance(w, plan, log0, vix.log, t, Invoke(RemoveAllNetworkAdapters, Checked));
      err := vix.Do(RemoveAllNetworkAdapters);
      assert t[1..] == rest;
    }

    /** The part of `Update` after connecting, up to the adapter loop. */
    method UpdatePrefix(vix: Vix, vmxFile: string, units: LegacyVms.Units) returns (err: Option<Error>)
      modifies vix
      ensures Ended(vix.world, UpdatePre(vix.world, Snapshot(), vmxFile, units), old(vix.log), vix.log, err)
    {
      ghost var w := vix.world;
      ghost var d := Snapshot();
      ghost var r3 := HardwareSteps(d);
      ghost var r2 := SettingSteps(d, units) + r3;
      ghost var r1 := LegacyVms.PowerOffIf(w) + r2;
      ghost var plan := OpenSteps(d, vmxFile) + r1;
      ghost var log0 := vix.log;
      Begin(w, plan, log0);
      var running;
      running, err := OpenForUpdate(vix, vmxFile, plan, log0, plan, r1);
      if err.Some? {
        return;
      }
      if running {
        err := LegacyVms.PowerOffGracefully(vix, plan, log0, r1, r2);
        if err.Some? {
          return;
        }
      } else {
        assert r1 == r2;
      }
      ApplySettings(vix, units, plan, log0, r2, r3);
      err := ReplaceHardware(vix, plan, log0, r3, []);
      if err.Some? {
        return;
      }
      Finished(w, plan, log0, vix.log, []);
    }

    /** Power on with the options asked for, wait for the tools, and enable shared folders once they are up. */
    method PowerUp(vix: Vix, ghost plan: seq<Step>, ghost log0: seq<Event>, ghost todo: seq<Step>)
      returns (err: Option<Error>)
      requires Between(vix.world, plan, log0, vix.log, todo) && todo == PowerSteps(vix.world, Snapshot())
      modifies vix
      ensures Ended(vix.world, plan, log0, vix.log, err)
    {
      ghost var w := vix.world;
      var options: set<PowerOption> := {};
      if launchGUI {
        options := options + {LaunchGui};
      }
      options := options + {PowerNormal};
      assert options == LegacyVms.PowerOnOptions(launchGUI);
      Advance(w, plan, log0, vix.log, todo, Invoke(PowerOn(LegacyVms.PowerOnOptions(launchGUI)), Checked));
      err := vix.Do(PowerOn(options));
      if err.Some? {
        return;
      }
      ghost var t := todo[1..];
      Advance(w, plan, log0, vix.log, t, Invoke(WaitForToolsInGuest(toolsInitTimeout), Ignored));
      err := vix.Do(WaitForToolsInGuest(toolsInitTimeout));
      t := t[1..];
      if err.Some? {
        Finished(w, plan, log0, vix.log, t);
        return None;
      }
      if sharedFolders {
        Advance(w, plan, log0, vix.log, t, Invoke(EnableSharedFolders(true), Checked));
        err := vix.Do(EnableSharedFolders(sharedFolders));
        if err.Some? {
          return;
        }
        t := t[1..];
      }
      Finished(w, plan, log0, vix.log, t);
    }

    /** `Update` after the adapter loop: the drives, then the power-on and what follows it. */
    method FinishUpdate(vix: Vix, ghost plan: seq<Step>, ghost log0: seq<Event>, ghost todo: seq<Step>)
      returns (err: Option<Error>)
      requires Between(vix.world, plan, log0, vix.log, todo) && todo == UpdatePost(vix.world, Snapshot())
      modifies vix
      ensures Ended(vix.world, plan, log0, vix.log, err)
    {
      ghost var rest := PowerSteps(vix.world, Snapshot());
      err := ReplaceDrives(vix, drives, plan, log0, todo, rest);
      if err.Some? {
        return;
      }
      err := PowerUp(vix, plan, log0, rest);
    }

    /** `Update` from the adapter loop on: the adapters, the drives and the power-on; the adapters reached are prepared. */
    method UpdateDevices(vix: Vix, ghost log0: seq<Event>) returns (err: Option<Error>)
      requires vix.log == log0
      modifies this, vix
      ensures var d := old(Snapshot());
              Snapshot() == d.(adapters := LegacyVms.PrepareFirst(d.adapters, LegacyVms.Reach(vix.world, d.adapters)))
      ensures Ended(vix.world, LegacyVms.AdapterSteps(old(adapters)) + UpdatePost(vix.world, old(Snapshot())), log0, vix.log, err)
    {
      ghost var w := vix.world;
      ghost var d := Snapshot();
      ghost var post := UpdatePost(w, d);
      ghost var plan := LegacyVms.AdapterSteps(d.adapters) + post;
      Begin(w, plan, log0);
      var prepared;
      prepared, err := LegacyVms.AttachAdapters(vix, adapters, plan, log0, post);
      adapters := prepared;
      if err.None? {
        assert UpdatePost(w, Snapshot()) == post;
        err := FinishUpdate(vix, plan, log0, post);
      }
    }

    /** `Update` once connected: the plan run, and the adapters it reaches prepared. */
    method UpdateConnected(vix: Vix, vmxFile: string, units: LegacyVms.Units) returns (err: Option<Error>)
      modifies this, vix
      ensures var d := old(Snapshot());
              var pre := UpdatePre(vix.world, d, vmxFile, units);
              Snapshot() == d.(adapters := LegacyVms.PrepareFirst(d.adapters, if Run(vix.world, pre).1.Some? then 0 else LegacyVms.Reach(vix.world, d.adapters)))
      ensures Ended(vix.world, UpdatePlan(vix.world, old(Snapshot()), vmxFile, units), old(vix.log), vix.log, err)
    {
      ghost var w := vix.world;
      ghost var d := Snapshot();
      ghost var pre := UpdatePre(w, d, vmxFile, units);
      ghost var post := LegacyVms.AdapterSteps(d.adapters) + UpdatePost(w, d);
      err := UpdatePrefix(vix, vmxFile, units);
      RunAppend(w, pre, post);
      if err.None? {
        err := UpdateDevices(vix, vix.log);
      } else {
        assert adapters == LegacyVms.PrepareFirst(d.adapters, 0);
      }
    }

    /** `Update`: defaults, then a session that runs the update plan. */
    method Update(vix: Vix, vmxFile: string, units: LegacyVms.Units) returns (err: Option<Error>)
      modifies this, vix
      ensures var (m, events, e) := UpdateSpec(vix.world, old(Snapshot()), vmxFile, units);
              Snapshot() == m && vix.log == old(vix.log) + events && err == e
    {
      SetDefaults();
      ghost var d := Snapshot();
      err := vix.Do(Connect(ProviderOf(provider), verifySSL));
      if err.None? {
        err := UpdateConnected(vix, vmxFile, units);
        vix.Disconnect();
      } else {
        assert adapters == LegacyVms.PrepareFirst(d.adapters, 0);
      }
    }

    /** Unregister, then delete, as the last steps of `Destroy`; the delete's error is the result. */
    method DeleteMachine(vix: Vix, vmxFile: string, ghost plan: seq<Step>, ghost log0: seq<Event>, ghost todo: seq<Step>)
      returns (err: Option<Error>)
      requires Between(vix.world, plan, log0, vix.log, todo) && todo == DeleteSteps(Snapshot(), vmxFile)
      modifies vix
      ensures Ended(vix.world, plan, log0, vix.log, err)
    {
      ghost var w := vix.world;
      ghost var t := todo;
      var p := ProviderOf(provider);
      if p == ViServer || p == Server {
        Advance(w, plan, log0, vix.log, t, Invoke(UnregisterVM(vmxFile), Checked));
        err := vix.Do(UnregisterVM(vmxFile));
        if err.Some? {
          return;
        }
        t := t[1..];
      }
      Advance(w, plan, log0, vix.log, t, Invoke(Delete({KeepFiles, Force}), Checked));
      err := vix.Do(Delete({KeepFiles, Force}));
      if err.Some? {
        return;
      }
      Finished(w, plan, log0, vix.log, t[1..]);
    }

    /** `Destroy`: a session that stops a running machine, then unregisters and deletes it. */
    method Destroy(vix: Vix, vmxFile: string) returns (err: Option<Error>)
      modifies vix
      ensures vix.log == old(vix.log) + DestroySpec(vix.world, Snapshot(), vmxFile).0
      ensures err == DestroySpec(vix.world, Snapshot(), vmxFile).1
    {
      err := vix.Do(Connect(ProviderOf(provider), verifySSL));
      if err.None? {
        err := DestroyConnected(vix, vmxFile);
        vix.Disconnect();
      }
    }

    /** The connected part of `Destroy`: open, power off if running, unregister for the inventory providers, delete. */
    method DestroyConnected(vix: Vix, vmxFile: string) returns (err: Option<Error>)
      modifies vix
      ensures Ended(vix.world, DestroyPlan(vix.world, Snapshot(), vmxFile), old(vix.log), vix.log, err)
    {
      ghost var w := vix.world;
      ghost var m := Snapshot();
      ghost var r2 := DeleteSteps(m, vmxFile);
      ghost var r1 := LegacyVms.PowerOffIf(w) + r2;
      ghost var plan := DestroyPlan(w, m, vmxFile);
      ghost var log1 := vix.log;
      Begin(w, plan, log1);
      var running;
      running, err := LegacyVms.OpenAndCheck(vix, vmxFile, image.password, plan, log1, plan, r1);
      if err.None? && running {
        err := LegacyVms.PowerOffGracefully(vix, plan, log1, r1, r2);
      } else if err.None? {
        assert r1 == r2;
      }
      if err.None? {
        err := DeleteMachine(vix, vmxFile, plan, log1, r2);
      }
    }

    /** Opens the gold machine, then clones it to `newVmx`, after clearing `baseVMDir`, unless the clone exists. */
    method OpenAndClone(vix: Vix, gold: string, cloneExists: bool, baseVMDir: string, newVmx: string) returns (err: Option<Error>)
      modifies vix
      ensures Ended(vix.world, CreatePlan(Snapshot(), gold, cloneExists, baseVMDir, newVmx), old(vix.log), vix.log, err)
    {
      ghost var w := vix.world;
      ghost var plan := CreatePlan(Snapshot(), gold, cloneExists, baseVMDir, newVmx);
      ghost var log0 := vix.log;
      Begin(w, plan, log0);
      Advance(w, plan, log0, vix.log, plan, Invoke(OpenVM(gold, image.password), Checked));
      err := vix.Do(OpenVM(gold, image.password));
      if err.Some? {
        return;
      }
      ghost var t := plan[1..];
      if !cloneExists {
        Advance(w, plan, log0, vix.log, t, Remove(baseVMDir));
        vix.RemoveAll(baseVMDir);
        t := t[1..];
        Advance(w, plan, log0, vix.log, t, Invoke(Clone(CloneFull, newVmx), Tolerating(SnapshotAlreadyExists)));
        err := vix.Do(Clone(CloneFull, newVmx));
        if err.Some? && err.value != VixError(SnapshotAlreadyExists) {
          return;
        }
        t := t[1..];
      }
      Finished(w, plan, log0, vix.log, t);
      err := None;
    }

    /** `Create` once connected and the clone's paths are known. */
    method CreateConnected(vix: Vix, gold: string, cloneExists: bool, baseVMDir: string, newVmx: string, units: LegacyVms.Units)
      returns (vmxFile: string, err: Option<Error>)
      modifies this, vix
      ensures var (m, events, e, path) := CreateBody(vix.world, old(Snapshot()), gold, cloneExists, baseVMDir, newVmx, units);
              Snapshot() == m && vix.log == old(vix.log) + events && err == e && vmxFile == path
    {
      ghost var w := vix.world;
      ghost var m0 := Snapshot();
      ghost var openRun := Run(w, CreatePlan(m0, gold, cloneExists, baseVMDir, newVmx));
      vmxFile := "";
      err := OpenAndClone(vix, gold, cloneExists, baseVMDir, newVmx);
      if err.None? {
        ghost var u := UpdateSpec(w, m0, newVmx, units);
        err := Update(vix, newVmx, units);
        if err.None? {
          vmxFile := newVmx;
        }
        assert CreateBody(w, m0, gold, cloneExists, baseVMDir, newVmx, units) == (u.0, openRun.0 + u.1, u.2, vmxFile);
      }
    }

    /** `Create` from the connection to the disconnection. */
    method CreateInSession(vix: Vix, gold: string, cloneExists: bool, baseVMDir: string, newVmx: string, units: LegacyVms.Units)
      returns (vmxFile: string, err: Option<Error>)
      modifies this, vix
      ensures var (m, events, e, path) := CreateSession(vix.world, old(Snapshot()), gold, cloneExists, baseVMDir, newVmx, units);
              Snapshot() == m && vix.log == old(vix.log) + events && err == e && vmxFile == path
    {
      vmxFile := "";
      err := vix.Do(Connect(ProviderOf(provider), verifySSL));
      if err.None? {
        vmxFile, err := CreateConnected(vix, gold, cloneExists, baseVMDir, newVmx, units);
        vix.Disconnect();
      }
    }

    /** `Create` from the gold image's vmx matches on: open it, clone it unless the clone exists, update the clone. */
    method Create(vix: Vix, home: string, matches: seq<string>, cloneExists: bool, units: LegacyVms.Units)
      returns (vmxFile: string, err: Option<Error>)
      modifies this, vix
      ensures var (m, events, e, path) := CreateSpec(vix.world, home, old(Snapshot()), matches, cloneExists, units);
              Snapshot() == m && vix.log == old(vix.log) + events && err == e && vmxFile == path
    {
      var goldPath := Vms.PathJoin(home, Vms.PathJoin(".go-osx-builder/vix/gold", image.checksum));
      var pattern := Vms.PathJoin(goldPath, "**.vmx");
      vmxFile := "";
      if |matches| == 0 {
        err := Some(Failed("[ERROR] vmx file was not found: " + pattern));
      } else {
        var baseVMDir := JoinAll([home, ".go-osx-builder", "vix", "vms", image.checksum, name]);
        var newVmx := Vms.PathJoin(baseVMDir, name + ".vmx");
        vmxFile, err := CreateInSession(vix, matches[0], cloneExists, baseVMDir, newVmx, units);
      }
    }
  }
}
