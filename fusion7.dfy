/**
 * The VMware Fusion 7 adapter: every operation on one machine goes through
 * the `vmrun` program or through the machine's `.vmx` file. What a `vmrun`
 * invocation prints and how it exits is an input here (`exec` maps the
 * argument vector to its outcome), as are the results of `os.Stat` and of
 * reading or writing the `.vmx` file.
 */
module Fusion7 {
  import opened Wrappers
  import opened GoStrings
  import opened GoStrconv
  import opened Vmx
  import opened VMware

  const DefaultVMRunPath: string := "/Applications/VMware Fusion.app/Contents/Library/vmrun"
  const EmptyPathError: string := "[Fusion7] Empty VMX file path. Nothing to operate on."

  function VMRunNotFound(path: string): string
  {
    "[Fusion7] VMWare vmrun program not found at path: " + path
  }

  /** What `os.Stat` says about a path. */
  datatype StatOutcome = Found | NotExist | StatError(message: string)

  /** The `vmrun` location: `VMWARE_VMRUN_PATH` when set, the Fusion default otherwise. */
  function VMRunPath(env: string): (path: string)
    ensures env != "" ==> path == env
    ensures env == "" ==> path == DefaultVMRunPath
  {
    if env == "" then DefaultVMRunPath else env
  }

  /** Only a path that does not exist is an error; any other stat failure is ignored. */
  function LookupError(env: string, stat: string -> StatOutcome): (err: Option<string>)
    ensures err.Some? <==> stat(VMRunPath(env)) == NotExist
  {
    if stat(VMRunPath(env)) == NotExist then Some(VMRunNotFound(VMRunPath(env))) else None
  }

  /** The text `strconv.ParseInt` reports for a literal it rejects with `e`. */
  function ParseIntError(s: string, e: NumError): string
  {
    "strconv.ParseInt: parsing " + Quote(s) + ": " + NumErrorText(e)
  }

  /** The value Go reads from a map for a missing key: the empty string. */
  function Lookup(vmx: VmxMap, k: string): (v: string)
    ensures k in vmx ==> v == vmx[k]
    ensures k !in vmx ==> v == ""
  {
    if k in vmx then vmx[k] else ""
  }

  /** `Info` once the file is parsed: both numbers must be integer literals that fit in int64. */
  function InfoFromVmx(vmx: VmxMap): (r: Result<VMInfo>)
    ensures r.Ok? <==> ParseInt(Lookup(vmx, "numvcpus")).Some? && ParseInt(Lookup(vmx, "memsize")).Some?
    ensures var cpus := ParseIntParsed(Lookup(vmx, "numvcpus"));
            cpus.Failed? ==> r == Err(ParseIntError(Lookup(vmx, "numvcpus"), cpus.err))
    ensures var mem := ParseIntParsed(Lookup(vmx, "memsize"));
            ParseInt(Lookup(vmx, "numvcpus")).Some? && mem.Failed? ==>
              r == Err(ParseIntError(Lookup(vmx, "memsize"), mem.err))
    ensures r.Ok? ==> r.value.name == Lookup(vmx, "displayname")
                      && r.value.annotation == Lookup(vmx, "annotation")
                      && r.value.cpus == ParseInt(Lookup(vmx, "numvcpus")).value
                      && r.value.memorySize == ParseInt(Lookup(vmx, "memsize")).value
                      && r.value.guestOS == Lookup(vmx, "guestos")
                      && r.value.networkType == Lookup(vmx, "ethernet0.connectiontype")
    ensures r.Ok? ==> InInt64(r.value.cpus) && InInt64(r.value.memorySize)
  {
    ParseIntAgrees(Lookup(vmx, "numvcpus"));
    ParseIntAgrees(Lookup(vmx, "memsize"));
    match ParseIntParsed(Lookup(vmx, "numvcpus"))
    case Failed(e) => Err(ParseIntError(Lookup(vmx, "numvcpus"), e))
    case Value(numcpus) =>
      match ParseIntParsed(Lookup(vmx, "memsize"))
      case Failed(e) => Err(ParseIntError(Lookup(vmx, "memsize"), e))
      case Value(memsize) =>
        Ok(VMInfo(
          name := Lookup(vmx, "displayname"),
          annotation := Lookup(vmx, "annotation"),
          memorySize := memsize,
          cpus := numcpus,
          guestOS := Lookup(vmx, "guestos"),
          networkType := Lookup(vmx, "ethernet0.connectiontype")))
  }

  /**
   * A memory size beyond int64 is rejected with strconv's range error, the
   * literal quoted in the message.
   */
  lemma InfoMemsizeOutOfRange(vmx: VmxMap, n: nat)
    requires ParseInt(Lookup(vmx, "numvcpus")).Some? && Lookup(vmx, "memsize") == Decimal(n) && n > MaxInt64
    ensures InfoFromVmx(vmx) == Err("strconv.ParseInt: parsing " + Quote(Decimal(n)) + ": value out of range")
    ensures Quote(Decimal(n)) == "\"" + Decimal(n) + "\""
  {
    var d := Lookup(vmx, "memsize");
    assert ParseIntParsed(d) == Failed(ErrRange) by { OutOfRangeDecimal(n); }
    assert InfoFromVmx(vmx) == Err(ParseIntError(d, ErrRange));
    RangeErrorText(d);
    QuoteDecimal(n);
  }

  lemma RangeErrorText(s: string)
    ensures ParseIntError(s, ErrRange) == "strconv.ParseInt: parsing " + Quote(s) + ": value out of range"
  {
    var a := "strconv.ParseInt: parsing " + Quote(s);
    assert ": " + NumErrorText(ErrRange) == ": value out of range";
    assert ParseIntError(s, ErrRange) == a + (": " + NumErrorText(ErrRange));
  }

  // ---------------------------------------------------------------------------
  // SetInfo as a map transformation

  /** The keys SetInfo assigns from the machine summary, plus the auto-answer switch. */
  predicate IsConfiguredKey(k: string)
  {
    k == "displayname" || k == "annotation" || k == "numvcpus" || k == "memsize" || k == "msg.autoanswer"
  }

  /** The keys of the one network adapter SetInfo leaves. */
  predicate IsAdapterKey(k: string)
  {
    k == "ethernet0.present" || k == "ethernet0.startconnected"
    || k == "ethernet0.virtualdev" || k == "ethernet0.connectiontype"
  }

  predicate IsEthernetKey(k: string)
  {
    HasPrefix(k, "ethernet")
  }

  function Configured(vmx: VmxMap, info: VMInfo): (r: VmxMap)
    ensures forall k :: k in r <==> IsConfiguredKey(k) || k in vmx
  {
    vmx["displayname" := info.name]["annotation" := info.annotation]
       ["numvcpus" := Itoa(info.cpus)]["memsize" := Itoa(info.memorySize)]
       ["msg.autoanswer" := "true"]
  }

  function WithoutAdapters(vmx: VmxMap): (r: VmxMap)
    ensures forall k :: k in r <==> k in vmx && !IsEthernetKey(k)
    ensures forall k :: k in r ==> r[k] == vmx[k]
  {
    map k | k in vmx && !IsEthernetKey(k) :: vmx[k]
  }

  function WithAdapter(vmx: VmxMap, network: NetworkType): (r: VmxMap)
    ensures forall k :: k in r <==> IsAdapterKey(k) || k in vmx
  {
    vmx["ethernet0.present" := "true"]["ethernet0.startconnected" := "true"]
       ["ethernet0.virtualdev" := "e1000"]["ethernet0.connectiontype" := network]
  }

  /** The map SetInfo writes back for a map it read: which keys it has. */
  function Applied(vmx: VmxMap, info: VMInfo): (r: VmxMap)
    ensures forall k :: k in r <==> IsConfiguredKey(k) || IsAdapterKey(k) || (k in vmx && !IsEthernetKey(k))
    ensures forall k :: k in r && IsEthernetKey(k) ==> IsAdapterKey(k)
  {
    ConfiguredKeysNotEthernet();
    AdapterKeysEthernet();
    WithAdapter(WithoutAdapters(Configured(vmx, info)), info.networkType)
  }

  /** SetInfo stores the summary's name, annotation and numbers, and the auto-answer switch. */
  lemma AppliedConfigured(vmx: VmxMap, info: VMInfo)
    ensures Applied(vmx, info)["displayname"] == info.name
    ensures Applied(vmx, info)["annotation"] == info.annotation
    ensures Applied(vmx, info)["numvcpus"] == Itoa(info.cpus)
    ensures Applied(vmx, info)["memsize"] == Itoa(info.memorySize)
    ensures Applied(vmx, info)["msg.autoanswer"] == "true"
  {
    KeyFacts();
    AppliedAtConfigured(vmx, info, "displayname");
    AppliedAtConfigured(vmx, info, "annotation");
    AppliedAtConfigured(vmx, info, "numvcpus");
    AppliedAtConfigured(vmx, info, "memsize");
    AppliedAtConfigured(vmx, info, "msg.autoanswer");
  }

  /** A configured key survives the adapter rewrite with the value the first updates gave it. */
  lemma AppliedAtConfigured(vmx: VmxMap, info: VMInfo, k: string)
    requires IsConfiguredKey(k)
    ensures k in Applied(vmx, info) && Applied(vmx, info)[k] == Configured(vmx, info)[k]
  {
    ConfiguredKeysNotEthernet();
    AdapterKeysEthernet();
    var c := Configured(vmx, info);
    assert k in c;
    WithAdapterKeeps(WithoutAdapters(c), info.networkType, k);
  }

  /** SetInfo leaves one adapter, of the summary's network type. */
  lemma AppliedAdapter(vmx: VmxMap, info: VMInfo)
    ensures Applied(vmx, info)["ethernet0.present"] == "true"
    ensures Applied(vmx, info)["ethernet0.startconnected"] == "true"
    ensures Applied(vmx, info)["ethernet0.virtualdev"] == "e1000"
    ensures Applied(vmx, info)["ethernet0.connectiontype"] == info.networkType
  {
    KeyFacts();
  }

  /** Every other key that is not an adapter key keeps its value; `guestos`, for one. */
  lemma AppliedKeepsOthers(vmx: VmxMap, info: VMInfo, k: string)
    requires k in vmx && !IsConfiguredKey(k) && !IsEthernetKey(k)
    ensures k in Applied(vmx, info) && Applied(vmx, info)[k] == vmx[k]
  {
    AdapterKeysEthernet();
    var c := Configured(vmx, info);
    assert k in c && c[k] == vmx[k];
    WithAdapterKeeps(WithoutAdapters(c), info.networkType, k);
  }

  // ---------------------------------------------------------------------------
  // Proof helpers: facts about the key literals (their lengths, which of them
  // start with `ethernet`) that the lemmas above rely on. They state nothing
  // about SetInfo itself.

  lemma KeyFacts()
    ensures !IsEthernetKey("displayname") && !IsEthernetKey("annotation") && !IsEthernetKey("numvcpus")
    ensures !IsEthernetKey("memsize") && !IsEthernetKey("msg.autoanswer")
    ensures |"displayname"| == 11 && |"annotation"| == 10 && |"numvcpus"| == 8 && |"memsize"| == 7
    ensures |"msg.autoanswer"| == 14 && |"ethernet0.present"| == 17 && |"ethernet0.startconnected"| == 24
    ensures |"ethernet0.virtualdev"| == 20 && |"ethernet0.connectiontype"| == 24
    ensures "ethernet0.startconnected" != "ethernet0.connectiontype"
  {
    assert "ethernet0.startconnected"[10] != "ethernet0.connectiontype"[10];
    assert "displayname"[..8][0] != "ethernet"[0];
    assert "annotation"[..8][0] != "ethernet"[0];
    assert "numvcpus"[..8][0] != "ethernet"[0];
    assert "msg.autoanswer"[..8][0] != "ethernet"[0];
  }

  lemma ConfiguredKeysNotEthernet()
    ensures forall k :: IsConfiguredKey(k) ==> !IsEthernetKey(k)
  {
    KeyFacts();
  }

  lemma AdapterKeysEthernet()
    ensures forall k :: IsAdapterKey(k) ==> IsEthernetKey(k)
  {
    assert "ethernet0.present"[..8] == "ethernet";
    assert "ethernet0.startconnected"[..8] == "ethernet";
    assert "ethernet0.virtualdev"[..8] == "ethernet";
    assert "ethernet0.connectiontype"[..8] == "ethernet";
  }

  lemma WithAdapterKeeps(vmx: VmxMap, network: NetworkType, k: string)
    requires k in vmx && !IsAdapterKey(k)
    ensures k in WithAdapter(vmx, network) && WithAdapter(vmx, network)[k] == vmx[k]
  {
  }

  // ---------------------------------------------------------------------------
  // SetInfo's in-place edits

  /** The map updates of `SetInfo`, including its delete-while-ranging loop. */
  method ApplyInfo(vmx0: VmxMap, info: VMInfo) returns (vmx: VmxMap)
    ensures vmx == Applied(vmx0, info)
  {
    vmx := vmx0;
    vmx := vmx["displayname" := info.name];
    vmx := vmx["annotation" := info.annotation];
    vmx := vmx["numvcpus" := Itoa(info.cpus)];
    vmx := vmx["memsize" := Itoa(info.memorySize)];
    vmx := vmx["msg.autoanswer" := "true"];
    ghost var configured := vmx;
    var pending := vmx.Keys;
    while pending != {}
      invariant pending <= configured.Keys
      invariant forall k :: k in vmx <==> k in configured && (k in pending || !IsEthernetKey(k))
      invariant forall k :: k in vmx ==> vmx[k] == configured[k]
      decreases |pending|
    {
      var k :| k in pending;
      if HasPrefix(k, "ethernet") {
        vmx := vmx - {k};
      }
      pending := pending - {k};
    }
    assert vmx == WithoutAdapters(configured);
    vmx := vmx["ethernet0.present" := "true"];
    vmx := vmx["ethernet0.startconnected" := "true"];
    vmx := vmx["ethernet0.virtualdev" := "e1000"];
    vmx := vmx["ethernet0.connectiontype" := info.networkType];
  }

  /** The text SetInfo writes for a file whose text was `text`. */
  ghost function SetInfoText(text: string, info: VMInfo): string
  {
    Render(Applied(Parse(text), info))
  }

  // ---------------------------------------------------------------------------
  // The adapter object

  class Fusion7VM {
    const vmxPath: string
    var vmRunPath: string

    constructor(vmxPath: string)
      ensures this.vmxPath == vmxPath && vmRunPath == ""
    {
      this.vmxPath := vmxPath;
      vmRunPath := "";
    }

    /** `lookupVMRunPath`: `env` is `VMWARE_VMRUN_PATH`, `stat` is `os.Stat`. */
    method LookupVMRunPath(env: string, stat: string -> StatOutcome) returns (err: Option<string>)
      modifies this
      ensures err == LookupError(env, stat)
      ensures err.None? ==> vmRunPath == VMRunPath(env)
      ensures err.Some? ==> vmRunPath == old(vmRunPath)
    {
      var path := env;
      if path == "" {
        path := DefaultVMRunPath;
      }
      if stat(path) == NotExist {
        return Some(VMRunNotFound(path));
      }
      vmRunPath := path;
      err := None;
    }

    function VerifyVMXPath(): (err: Option<string>)
      ensures err.None? <==> vmxPath != ""
      ensures err.Some? ==> err.value == EmptyPathError
    {
      if vmxPath == "" then Some(EmptyPathError) else None
    }

    /** Runs `vmrun args...` after the path check; an error ends the operation. */
    function Command(args: seq<string>, exec: seq<string> -> Run): (out: Result<RunOutput>)
      reads this
      ensures vmxPath == "" ==> out == Err(EmptyPathError)
      ensures vmxPath != "" ==> (out.Ok? <==> exec([vmRunPath] + args).status.Exited?)
      ensures vmxPath != "" && out.Ok? ==> out.value == RunAndLog(exec([vmRunPath] + args))
      ensures vmxPath != "" && out.Err? ==> out.error == RunAndLog(exec([vmRunPath] + args)).err.value
    {
      if vmxPath == "" then Err(EmptyPathError)
      else
        var o := RunAndLog(exec([vmRunPath] + args));
        if o.err.Some? then Err(o.err.value) else Ok(o)
    }

    function CloneFrom(src: string, ctype: CloneType, exec: seq<string> -> Run): (err: Option<string>)
      reads this
      ensures vmxPath == "" ==> err == Some(EmptyPathError)
      ensures err.None? <==> vmxPath != "" && exec([vmRunPath, "clone", src, vmxPath, ctype.Name()]).status.Exited?
    {
      var r := Command(["clone", src, vmxPath, ctype.Name()], exec);
      assert [vmRunPath] + ["clone", src, vmxPath, ctype.Name()] == [vmRunPath, "clone", src, vmxPath, ctype.Name()];
      if r.Err? then Some(r.error) else None
    }

    /** `Start`: headless machines get `nogui`, others `gui`. */
    function Start(headless: bool, exec: seq<string> -> Run): (err: Option<string>)
      reads this
      ensures vmxPath == "" ==> err == Some(EmptyPathError)
      ensures err.None? <==> vmxPath != "" && exec([vmRunPath, "start", vmxPath, if headless then "nogui" else "gui"]).status.Exited?
    {
      var guiParam := if headless then "nogui" else "gui";
      var r := Command(["start", vmxPath, guiParam], exec);
      assert [vmRunPath] + ["start", vmxPath, guiParam] == [vmRunPath, "start", vmxPath, guiParam];
      if r.Err? then Some(r.error) else None
    }

    function Stop(exec: seq<string> -> Run): (err: Option<string>)
      reads this
      ensures vmxPath == "" ==> err == Some(EmptyPathError)
      ensures err.None? <==> vmxPath != "" && exec([vmRunPath, "stop", vmxPath]).status.Exited?
    {
      var r := Command(["stop", vmxPath], exec);
      assert [vmRunPath] + ["stop", vmxPath] == [vmRunPath, "stop", vmxPath];
      if r.Err? then Some(r.error) else None
    }

    function Delete(exec: seq<string> -> Run): (err: Option<string>)
      reads this
      ensures vmxPath == "" ==> err == Some(EmptyPathError)
      ensures err.None? <==> vmxPath != "" && exec([vmRunPath, "deleteVM", vmxPath]).status.Exited?
    {
      var r := Command(["deleteVM", vmxPath], exec);
      assert [vmRunPath] + ["deleteVM", vmxPath] == [vmRunPath, "deleteVM", vmxPath];
      if r.Err? then Some(r.error) else None
    }

    /** Running means: some line `vmrun list` prints is exactly this machine's path. */
    function IsRunning(exec: seq<string> -> Run): (r: Result<bool>)
      reads this
      ensures vmxPath == "" ==> r == Err(EmptyPathError)
      ensures r.Err? <==> vmxPath == "" || !exec([vmRunPath, "list"]).status.Exited?
      ensures r.Ok? ==> (r.value <==> vmxPath in Split(ReplaceCRLF(exec([vmRunPath, "list"]).stdout), '\n'))
    {
      assert [vmRunPath] + ["list"] == [vmRunPath, "list"];
      match Command(["list"], exec)
      case Err(e) => Err(e)
      case Ok(o) => Ok(AnyLine(Split(o.stdout, '\n'), vmxPath))
    }

    /** Tools are installed when some line `vmrun checkToolsState` prints is exactly `installed`. */
    function HasToolsInstalled(exec: seq<string> -> Run): (r: Result<bool>)
      reads this
      ensures vmxPath == "" ==> r == Err(EmptyPathError)
      ensures r.Err? <==> vmxPath == "" || !exec([vmRunPath, "checkToolsState", vmxPath]).status.Exited?
      ensures r.Ok? ==> (r.value <==> "installed" in Split(ReplaceCRLF(exec([vmRunPath, "checkToolsState", vmxPath]).stdout), '\n'))
    {
      assert [vmRunPath] + ["checkToolsState", vmxPath] == [vmRunPath, "checkToolsState", vmxPath];
      match Command(["checkToolsState", vmxPath], exec)
      case Err(e) => Err(e)
      case Ok(o) => Ok(AnyLine(Split(o.stdout, '\n'), "installed"))
    }

    /** The address is the output up to its first line break, possibly empty. */
    function IPAddress(exec: seq<string> -> Run): (r: Result<string>)
      reads this
      ensures vmxPath == "" ==> r == Err(EmptyPathError)
      ensures r.Err? <==> vmxPath == "" || !exec([vmRunPath, "getGuestIPAddress", vmxPath]).status.Exited?
      ensures r.Ok? ==>
        var out := ReplaceCRLF(exec([vmRunPath, "getGuestIPAddress", vmxPath]).stdout);
        '\n' !in r.value && |r.value| <= |out| && out[..|r.value|] == r.value
        && (|r.value| < |out| ==> out[|r.value|] == '\n')
    {
      assert [vmRunPath] + ["getGuestIPAddress", vmxPath] == [vmRunPath, "getGuestIPAddress", vmxPath];
      match Command(["getGuestIPAddress", vmxPath], exec)
      case Err(e) => Err(e)
      case Ok(o) =>
        SplitHead(o.stdout, '\n');
        Ok(Split(o.stdout, '\n')[0])
    }

    /** `stat` is `os.Stat`; a missing file is "does not exist", another stat failure is an error. */
    function Exists(stat: string -> StatOutcome): (r: Result<bool>)
      ensures vmxPath == "" ==> r == Err(EmptyPathError)
      ensures r == Ok(true) <==> vmxPath != "" && stat(vmxPath) == Found
      ensures r == Ok(false) <==> vmxPath != "" && stat(vmxPath) == NotExist
      ensures vmxPath != "" && stat(vmxPath).StatError? ==> r == Err(stat(vmxPath).message)
    {
      if vmxPath == "" then Err(EmptyPathError)
      else match stat(vmxPath)
        case NotExist => Ok(false)
        case StatError(m) => Err(m)
        case Found => Ok(true)
    }

    /** `Info`: `file` is the outcome of reading the `.vmx` file. */
    method Info(file: Result<string>) returns (r: Result<VMInfo>)
      ensures vmxPath == "" ==> r == Err(EmptyPathError)
      ensures vmxPath != "" && file.Err? ==> r == Err(file.error)
      ensures vmxPath != "" && file.Ok? ==> r == InfoFromVmx(Parse(file.value))
    {
      if vmxPath == "" {
        return Err(EmptyPathError);
      }
      if file.Err? {
        return Err(file.error);
      }
      var vmx := ReadVmx(file.value);
      r := InfoFromVmx(vmx);
    }

    /**
     * `SetInfo`: `file` is the outcome of reading the `.vmx` file, `writeErr`
     * that of writing it. `written` is the text handed to the write.
     */
    method SetInfo(file: Result<string>, info: VMInfo, writeErr: Option<string>)
      returns (err: Option<string>, written: Option<string>)
      ensures vmxPath == "" ==> err == Some(EmptyPathError) && written == None
      ensures vmxPath != "" && file.Err? ==> err == Some(file.error) && written == None
      ensures vmxPath != "" && file.Ok? ==> written == Some(SetInfoText(file.value, info)) && err == writeErr
    {
      if vmxPath == "" {
        return Some(EmptyPathError), None;
      }
      if file.Err? {
        return Some(file.error), None;
      }
      var vmx := ReadVmx(file.value);
      vmx := ApplyInfo(vmx, info);
      var text := WriteVmx(vmx);
      return writeErr, Some(text);
    }

    /** With an empty path no operation depends on what `vmrun` or the file system would say. */
    lemma EmptyPathRunsNothing(exec1: seq<string> -> Run, exec2: seq<string> -> Run,
                               stat1: string -> StatOutcome, stat2: string -> StatOutcome,
                               src: string, ctype: CloneType, headless: bool)
      requires vmxPath == ""
      ensures CloneFrom(src, ctype, exec1) == CloneFrom(src, ctype, exec2) == Some(EmptyPathError)
      ensures Start(headless, exec1) == Start(headless, exec2) == Some(EmptyPathError)
      ensures Stop(exec1) == Stop(exec2) == Delete(exec1) == Delete(exec2) == Some(EmptyPathError)
      ensures IsRunning(exec1) == IsRunning(exec2) == HasToolsInstalled(exec1) == Err(EmptyPathError)
      ensures IPAddress(exec1) == IPAddress(exec2) == Err(EmptyPathError)
      ensures Exists(stat1) == Exists(stat2) == Err(EmptyPathError)
    {
    }
  }

  /** `NewFusion7VM`: None stands for the process exiting on a failed `vmrun` lookup. */
  method NewFusion7VM(vmxPath: string, env: string, stat: string -> StatOutcome) returns (vm: Option<Fusion7VM>)
    ensures vm.Some? <==> LookupError(env, stat).None?
    ensures vm.Some? ==> fresh(vm.value) && vm.value.vmxPath == vmxPath && vm.value.vmRunPath == VMRunPath(env)
  {
    var fusion7 := new Fusion7VM(vmxPath);
    var err := fusion7.LookupVMRunPath(env, stat);
    if err.Some? {
      return None;
    }
    vm := Some(fusion7);
  }

  /** The line search of `IsRunning` and `HasToolsInstalled`. */
  function AnyLine(lines: seq<string>, target: string): (found: bool)
    ensures found <==> target in lines
  {
    if |lines| == 0 then false
    else lines[0] == target || AnyLine(lines[1..], target)
  }

  // ---------------------------------------------------------------------------
  // Info after SetInfo

  /** Lower-case letters, digits and dots make a good key. */
  lemma PlainKeyGood(k: string)
    requires forall i :: 0 <= i < |k| ==> 'a' <= k[i] <= 'z' || '0' <= k[i] <= '9' || k[i] == '.'
    ensures GoodKey(k)
  {
    if |k| > 0 {
      assert !IsSpace(k[0]) && !IsSpace(k[|k| - 1]);
    }
  }

  lemma ConstantKeysGood()
    ensures forall k :: IsConfiguredKey(k) || IsAdapterKey(k) ==> GoodKey(k)
  {
    ConfiguredKeysGood();
    AdapterKeysGood();
  }

  lemma ConfiguredKeysGood()
    ensures GoodKey("displayname") && GoodKey("annotation") && GoodKey("numvcpus")
    ensures GoodKey("memsize") && GoodKey("msg.autoanswer")
  {
    PlainKeyGood("displayname");
    PlainKeyGood("annotation");
    PlainKeyGood("numvcpus");
    PlainKeyGood("memsize");
    PlainKeyGood("msg.autoanswer");
  }

  lemma AdapterKeysGood()
    ensures GoodKey("ethernet0.present") && GoodKey("ethernet0.startconnected")
    ensures GoodKey("ethernet0.virtualdev") && GoodKey("ethernet0.connectiontype")
  {
    PlainKeyGood("ethernet0.present");
    PlainKeyGood("ethernet0.virtualdev");
    LongAdapterKeysGood();
  }

  lemma LongAdapterKeysGood()
    ensures GoodKey("ethernet0.startconnected") && GoodKey("ethernet0.connectiontype")
  {
    PlainKeyGood("ethernet0.startconnected");
    PlainKeyGood("ethernet0.connectiontype");
  }

  lemma ItoaGood(n: int)
    ensures GoodValue(Itoa(n))
  {
    var s := Itoa(n);
    assert forall i :: 0 <= i < |s| ==> s[i] == '-' || '0' <= s[i] <= '9';
  }

  /** SetInfo keeps a well-formed map well-formed when the values it stores are. */
  lemma AppliedGood(vmx: VmxMap, info: VMInfo)
    requires Good(vmx)
    requires GoodValue(info.name) && GoodValue(info.annotation) && GoodValue(info.networkType)
    ensures Good(Applied(vmx, info))
  {
    AppliedGoodExceptAnnotation(vmx, info);
    ConfiguredKeysGood();
    AppliedConfigured(vmx, info);
  }

  /** Every entry SetInfo leaves, the annotation aside, is well formed. */
  lemma AppliedGoodExceptAnnotation(vmx: VmxMap, info: VMInfo)
    requires Good(vmx)
    requires GoodValue(info.name) && GoodValue(info.networkType)
    ensures forall k :: k in Applied(vmx, info) && k != "annotation" ==>
                        GoodKey(k) && GoodValue(Applied(vmx, info)[k])
  {
    ConstantKeysGood();
    ConstantValuesGood();
    ItoaGood(info.cpus);
    ItoaGood(info.memorySize);
    var r := Applied(vmx, info);
    forall k | k in r && k != "annotation" ensures GoodKey(k) && GoodValue(r[k]) {
      if IsConfiguredKey(k) {
        AppliedAtConfigured(vmx, info, k);
        ConfiguredValue(vmx, info, k);
      } else if IsAdapterKey(k) {
        AdapterValue(vmx, info, k);
      } else {
        AppliedKeepsOthers(vmx, info, k);
      }
    }
  }

  lemma ConfiguredValue(vmx: VmxMap, info: VMInfo, k: string)
    requires IsConfiguredKey(k)
    ensures var v := Configured(vmx, info)[k];
            k != "annotation" ==> v == info.name || v == Itoa(info.cpus) || v == Itoa(info.memorySize) || v == "true"
  {
  }

  lemma AdapterValue(vmx: VmxMap, info: VMInfo, k: string)
    requires IsAdapterKey(k)
    ensures var v := Applied(vmx, info)[k];
            v == "true" || v == "e1000" || v == info.networkType
  {
    AppliedAdapter(vmx, info);
  }

  lemma ConstantValuesGood()
    ensures GoodValue("true") && GoodValue("e1000")
  {
    assert "true"[0] != '"' && "true"[3] != '"';
    assert "e1000"[0] != '"' && "e1000"[4] != '"';
  }

  /**
   * Reading back what SetInfo wrote gives the summary it was given, with the
   * guest OS the file already had.
   */
  lemma InfoAfterSetInfo(text: string, info: VMInfo)
    requires GoodValue(info.name) && GoodValue(info.annotation) && GoodValue(info.networkType)
    requires InInt64(info.cpus) && InInt64(info.memorySize)
    ensures InfoFromVmx(Parse(SetInfoText(text, info))) == Ok(info.(guestOS := Lookup(Parse(text), "guestos")))
  {
    ParseSetInfo(text, info);
    InfoOfApplied(Parse(text), info);
  }

  /** The file SetInfo writes reads back as the map it built. */
  lemma ParseSetInfo(text: string, info: VMInfo)
    requires GoodValue(info.name) && GoodValue(info.annotation) && GoodValue(info.networkType)
    ensures Parse(SetInfoText(text, info)) == Applied(Parse(text), info)
  {
    ParseGood(text);
    AppliedGood(Parse(text), info);
    RoundTrip(Applied(Parse(text), info));
  }

  /** The map SetInfo built holds the summary's fields, and the guest OS the map had. */
  lemma AppliedFields(vmx: VmxMap, info: VMInfo)
    ensures var a := Applied(vmx, info);
            Lookup(a, "displayname") == info.name && Lookup(a, "annotation") == info.annotation
            && Lookup(a, "numvcpus") == Itoa(info.cpus) && Lookup(a, "memsize") == Itoa(info.memorySize)
            && Lookup(a, "ethernet0.connectiontype") == info.networkType
            && Lookup(a, "guestos") == Lookup(vmx, "guestos")
  {
    AppliedConfigured(vmx, info);
    AppliedAdapter(vmx, info);
    GuestOSKept(vmx, info);
  }

  /** `Info` of the map SetInfo built is the summary it stored. */
  lemma InfoOfApplied(vmx: VmxMap, info: VMInfo)
    requires InInt64(info.cpus) && InInt64(info.memorySize)
    ensures InfoFromVmx(Applied(vmx, info)) == Ok(info.(guestOS := Lookup(vmx, "guestos")))
  {
    AppliedFields(vmx, info);
    ItoaRoundTrip(info.cpus);
    ItoaRoundTrip(info.memorySize);
    InfoFromFields(Applied(vmx, info), info.(guestOS := Lookup(vmx, "guestos")));
  }

  /** `Info` returns exactly the summary whose fields the map holds. */
  lemma InfoFromFields(vmx: VmxMap, info: VMInfo)
    requires Lookup(vmx, "displayname") == info.name && Lookup(vmx, "annotation") == info.annotation
    requires ParseInt(Lookup(vmx, "numvcpus")) == Some(info.cpus)
    requires ParseInt(Lookup(vmx, "memsize")) == Some(info.memorySize)
    requires Lookup(vmx, "guestos") == info.guestOS
    requires Lookup(vmx, "ethernet0.connectiontype") == info.networkType
    ensures InfoFromVmx(vmx) == Ok(info)
  {
  }

  lemma GuestOSKept(vmx: VmxMap, info: VMInfo)
    ensures Lookup(Applied(vmx, info), "guestos") == Lookup(vmx, "guestos")
  {
    assert "guestos"[0] != "ethernet"[0];
    assert !IsEthernetKey("guestos");
    if "guestos" in vmx {
      AppliedKeepsOthers(vmx, info, "guestos");
    }
  }

  /**
   * An annotation holding `=` is written by SetInfo but its line is skipped on
   * reading: the file reads back without it, and `Info` reports it empty.
   */
  lemma AnnotationWithEqualsLost(text: string, info: VMInfo)
    requires GoodValue(info.name) && GoodValue(info.networkType)
    requires '\n' !in info.annotation && '=' in info.annotation
    requires InInt64(info.cpus) && InInt64(info.memorySize)
    ensures Parse(SetInfoText(text, info)) == Applied(Parse(text), info) - {"annotation"}
    ensures InfoFromVmx(Parse(SetInfoText(text, info))) ==
            Ok(info.(annotation := "", guestOS := Lookup(Parse(text), "guestos")))
  {
    ParseDropsAnnotation(text, info);
    InfoWithoutAnnotation(Parse(text), info);
  }

  lemma ParseDropsAnnotation(text: string, info: VMInfo)
    requires GoodValue(info.name) && GoodValue(info.networkType)
    requires '\n' !in info.annotation && '=' in info.annotation
    ensures Parse(SetInfoText(text, info)) == Applied(Parse(text), info) - {"annotation"}
  {
    var a := Applied(Parse(text), info);
    assert "annotation" in a && a["annotation"] == info.annotation by {
      AppliedConfigured(Parse(text), info);
    }
    assert Good(a - {"annotation"}) && GoodKey("annotation") by {
      ParseGood(text);
      AppliedGoodExceptAnnotation(Parse(text), info);
      ConfiguredKeysGood();
    }
    LossyEntryDropped(a, "annotation");
  }

  /** `Info` of the map SetInfo built, with its annotation removed. */
  lemma InfoWithoutAnnotation(vmx: VmxMap, info: VMInfo)
    requires InInt64(info.cpus) && InInt64(info.memorySize)
    ensures InfoFromVmx(Applied(vmx, info) - {"annotation"}) ==
            Ok(info.(annotation := "", guestOS := Lookup(vmx, "guestos")))
  {
    var a := Applied(vmx, info);
    var b := a - {"annotation"};
    AppliedFields(vmx, info);
    LookupWithout(a, "annotation", "displayname");
    LookupWithout(a, "annotation", "numvcpus");
    LookupWithout(a, "annotation", "memsize");
    LookupWithout(a, "annotation", "guestos");
    LookupWithout(a, "annotation", "ethernet0.connectiontype");
    ItoaRoundTrip(info.cpus);
    ItoaRoundTrip(info.memorySize);
    InfoFromFields(b, info.(annotation := "", guestOS := Lookup(vmx, "guestos")));
  }

  lemma LookupWithout(vmx: VmxMap, k: string, j: string)
    requires j != k
    ensures Lookup(vmx - {k}, j) == Lookup(vmx, j) && Lookup(vmx - {k}, k) == ""
  {
  }
}
