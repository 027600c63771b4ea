/**
 * The machine the service runs on, as far as the lifecycle controller can
 * observe it: the files it reads and writes (the `.vmx` files, the unpacked
 * gold images), the set of running virtual machines, the populated gold-image
 * directories, and one ordered log of everything that happened.
 *
 * `MockVM` is the hypervisor adapter the controller talks to (the operation
 * set of the `VirtualMachine` interface). Each operation behaves like the
 * Fusion 7 adapter on this state: the empty-path guard comes first, `Info`
 * and `SetInfo` read and write the `.vmx` text through the same parser and
 * writer, and `vmrun` failures come from `Env.failure`.
 */
module MockVMware {
  import opened Wrappers
  import opened GoStrings
  import opened Vmx
  import opened VMware
  import opened Fusion7

  /** One call of the adapter interface. */
  datatype Call =
    | CloneFromCall(src: string, ctype: CloneType)
    | StartCall(headless: bool)
    | StopCall
    | DeleteCall
    | IsRunningCall
    | HasToolsInstalledCall
    | IPAddressCall
    | ExistsCall
    | InfoCall
    | SetInfoCall(info: VMInfo)

  /** Everything the log records, in the order it happened. */
  datatype Event =
    | Invoked(path: string, call: Call)
    | Downloaded(image: string)
    | Unpacked(dir: string)
    | RemovedAll(dir: string)

  /**
   * What the simulated hypervisor answers: `failure(path, call)` is the error
   * a call reports (None when it succeeds), `ip` and `tools` what the guest
   * reports.
   */
  datatype Env = Env(
    failure: (string, Call) -> Option<string>,
    ip: string -> string,
    tools: string -> bool)

  /** A snapshot of the host. */
  datatype Sys = Sys(
    files: map<string, string>,
    running: set<string>,
    gold: set<string>,
    log: seq<Event>)

  /** The error `os.Open` reports for a missing file. */
  function NoSuchFile(path: string): string
  {
    "open " + path + ": no such file or directory"
  }

  /** The empty-path check of every adapter operation, then the hypervisor's own answer. */
  function Guard(env: Env, path: string, c: Call): (err: Option<string>)
    ensures path == "" ==> err == Some(EmptyPathError)
  {
    if path == "" then Some(EmptyPathError) else env.failure(path, c)
  }

  function Record(s: Sys, path: string, c: Call): (s': Sys)
    ensures s'.log == s.log + [Invoked(path, c)]
    ensures s'.files == s.files && s'.running == s.running && s'.gold == s.gold
  {
    s.(log := s.log + [Invoked(path, c)])
  }

  // ---------------------------------------------------------------------------
  // The adapter operations as state transformers

  function ExistsStep(env: Env, s: Sys, path: string): (Sys, Result<bool>)
  {
    var c := ExistsCall;
    (Record(s, path, c),
     match Guard(env, path, c) case Some(m) => Err(m) case None => Ok(path in s.files))
  }

  /** A clone copies the source `.vmx` text to `path`. */
  function CloneStep(env: Env, s: Sys, path: string, src: string, ctype: CloneType): (Sys, Option<string>)
  {
    var s1 := Record(s, path, CloneFromCall(src, ctype));
    match Guard(env, path, CloneFromCall(src, ctype))
    case Some(m) => (s1, Some(m))
    case None =>
      if src !in s.files then (s1, Some(NoSuchFile(src)))
      else (s1.(files := s.files[path := s.files[src]]), None)
  }

  function StartStep(env: Env, s: Sys, path: string, headless: bool): (Sys, Option<string>)
  {
    var s1 := Record(s, path, StartCall(headless));
    match Guard(env, path, StartCall(headless))
    case Some(m) => (s1, Some(m))
    case None => (s1.(running := s.running + {path}), None)
  }

  function StopStep(env: Env, s: Sys, path: string): (Sys, Option<string>)
  {
    var s1 := Record(s, path, StopCall);
    match Guard(env, path, StopCall)
    case Some(m) => (s1, Some(m))
    case None => (s1.(running := s.running - {path}), None)
  }

  function DeleteStep(env: Env, s: Sys, path: string): (Sys, Option<string>)
  {
    var s1 := Record(s, path, DeleteCall);
    match Guard(env, path, DeleteCall)
    case Some(m) => (s1, Some(m))
    case None => (s1.(files := s.files - {path}, running := s.running - {path}), None)
  }

  function IsRunningStep(env: Env, s: Sys, path: string): (Sys, Result<bool>)
  {
    (Record(s, path, IsRunningCall),
     match Guard(env, path, IsRunningCall) case Some(m) => Err(m) case None => Ok(path in s.running))
  }

  function HasToolsStep(env: Env, s: Sys, path: string): (Sys, Result<bool>)
  {
    (Record(s, path, HasToolsInstalledCall),
     match Guard(env, path, HasToolsInstalledCall) case Some(m) => Err(m) case None => Ok(env.tools(path)))
  }

  function IPAddressStep(env: Env, s: Sys, path: string): (Sys, Result<string>)
  {
    (Record(s, path, IPAddressCall),
     match Guard(env, path, IPAddressCall) case Some(m) => Err(m) case None => Ok(env.ip(path)))
  }

  /** `Info` reads the machine's `.vmx` file. */
  function InfoStep(env: Env, s: Sys, path: string): (Sys, Result<VMInfo>)
  {
    (Record(s, path, InfoCall),
     match Guard(env, path, InfoCall)
     case Some(m) => Err(m)
     case None => if path !in s.files then Err(NoSuchFile(path)) else InfoFromVmx(Parse(s.files[path])))
  }

  /** `SetInfo` rewrites the machine's `.vmx` file. */
  ghost function SetInfoStep(env: Env, s: Sys, path: string, info: VMInfo): (Sys, Option<string>)
  {
    var s1 := Record(s, path, SetInfoCall(info));
    match Guard(env, path, SetInfoCall(info))
    case Some(m) => (s1, Some(m))
    case None =>
      if path !in s.files then (s1, Some(NoSuchFile(path)))
      else (s1.(files := s.files[path := SetInfoText(s.files[path], info)]), None)
  }

  // ---------------------------------------------------------------------------
  // Properties of the steps

  /** No operation on a machine changes the file or the power state of another path. */
  lemma StepsAreLocal(env: Env, s: Sys, path: string, other: string, src: string, ctype: CloneType,
                      headless: bool, info: VMInfo)
    requires other != path
    ensures var s' := CloneStep(env, s, path, src, ctype).0;
            (other in s'.files <==> other in s.files) && (other in s.files ==> s'.files[other] == s.files[other])
            && (other in s'.running <==> other in s.running)
    ensures var s' := StartStep(env, s, path, headless).0;
            s'.files == s.files && (other in s'.running <==> other in s.running)
    ensures var s' := StopStep(env, s, path).0;
            s'.files == s.files && (other in s'.running <==> other in s.running)
    ensures var s' := DeleteStep(env, s, path).0;
            (other in s'.files <==> other in s.files) && (other in s.files ==> s'.files[other] == s.files[other])
            && (other in s'.running <==> other in s.running)
    ensures var s' := SetInfoStep(env, s, path, info).0;
            (other in s'.files <==> other in s.files) && (other in s.files ==> s'.files[other] == s.files[other])
            && s'.running == s.running
  {
  }

  /** With an empty path every operation fails with the guard's error and changes nothing but the log. */
  lemma EmptyPathChangesNothing(env: Env, s: Sys, src: string, ctype: CloneType, headless: bool, info: VMInfo)
    ensures CloneStep(env, s, "", src, ctype) == (Record(s, "", CloneFromCall(src, ctype)), Some(EmptyPathError))
    ensures StartStep(env, s, "", headless) == (Record(s, "", StartCall(headless)), Some(EmptyPathError))
    ensures StopStep(env, s, "") == (Record(s, "", StopCall), Some(EmptyPathError))
    ensures DeleteStep(env, s, "") == (Record(s, "", DeleteCall), Some(EmptyPathError))
    ensures SetInfoStep(env, s, "", info) == (Record(s, "", SetInfoCall(info)), Some(EmptyPathError))
    ensures ExistsStep(env, s, "").1 == Err(EmptyPathError)
    ensures InfoStep(env, s, "").1 == Err(EmptyPathError)
    ensures IsRunningStep(env, s, "").1 == Err(EmptyPathError)
  {
  }

  /** Start, then IsRunning, reports the machine running; Stop, then IsRunning, reports it stopped. */
  lemma PowerStateObserved(env: Env, s: Sys, path: string, headless: bool)
    requires Guard(env, path, IsRunningCall).None?
    ensures StartStep(env, s, path, headless).1.None? ==>
            IsRunningStep(env, StartStep(env, s, path, headless).0, path).1 == Ok(true)
    ensures StopStep(env, s, path).1.None? ==>
            IsRunningStep(env, StopStep(env, s, path).0, path).1 == Ok(false)
  {
  }

  /** After a successful Delete the machine no longer exists. */
  lemma DeleteThenGone(env: Env, s: Sys, path: string)
    requires DeleteStep(env, s, path).1.None?
    requires Guard(env, path, ExistsCall).None?
    ensures ExistsStep(env, DeleteStep(env, s, path).0, path).1 == Ok(false)
  {
  }

  // ---------------------------------------------------------------------------
  // The host and the adapter objects

  class Host {
    var files: map<string, string>
    var running: set<string>
    var gold: set<string>
    var log: seq<Event>
    const env: Env

    constructor(files: map<string, string>, running: set<string>, gold: set<string>, env: Env)
      ensures State() == Sys(files, running, gold, []) && this.env == env
    {
      this.files := files;
      this.running := running;
      this.gold := gold;
      log := [];
      this.env := env;
    }

    ghost function State(): Sys
      reads this
    {
      Sys(files, running, gold, log)
    }

    method Set(s: Sys)
      modifies this
      ensures State() == s
    {
      files, running, gold, log := s.files, s.running, s.gold, s.log;
    }
  }

  /** The adapter of one machine, fixed to its `.vmx` path. */
  class MockVM {
    const vmxPath: string
    const host: Host

    constructor(vmxPath: string, host: Host)
      ensures this.vmxPath == vmxPath && this.host == host
    {
      this.vmxPath := vmxPath;
      this.host := host;
    }

    method Invoke(c: Call) returns (err: Option<string>)
      modifies host
      ensures err == Guard(host.env, vmxPath, c)
      ensures host.State() == Record(old(host.State()), vmxPath, c)
    {
      host.log := host.log + [Invoked(vmxPath, c)];
      if vmxPath == "" {
        return Some(EmptyPathError);
      }
      err := host.env.failure(vmxPath, c);
    }

    method Exists() returns (r: Result<bool>)
      modifies host
      ensures (host.State(), r) == ExistsStep(host.env, old(host.State()), vmxPath)
    {
      var found := vmxPath in host.files;
      var err := Invoke(ExistsCall);
      r := if err.Some? then Err(err.value) else Ok(found);
    }

    method CloneFrom(src: string, ctype: CloneType) returns (err: Option<string>)
      modifies host
      ensures (host.State(), err) == CloneStep(host.env, old(host.State()), vmxPath, src, ctype)
    {
      err := Invoke(CloneFromCall(src, ctype));
      if err.None? {
        if src !in host.files {
          err := Some(NoSuchFile(src));
        } else {
          host.files := host.files[vmxPath := host.files[src]];
        }
      }
    }

    method Start(headless: bool) returns (err: Option<string>)
      modifies host
      ensures (host.State(), err) == StartStep(host.env, old(host.State()), vmxPath, headless)
    {
      err := Invoke(StartCall(headless));
      if err.None? {
        host.running := host.running + {vmxPath};
      }
    }

    method Stop() returns (err: Option<string>)
      modifies host
      ensures (host.State(), err) == StopStep(host.env, old(host.State()), vmxPath)
    {
      err := Invoke(StopCall);
      if err.None? {
        host.running := host.running - {vmxPath};
      }
    }

    method Delete() returns (err: Option<string>)
      modifies host
      ensures (host.State(), err) == DeleteStep(host.env, old(host.State()), vmxPath)
    {
      err := Invoke(DeleteCall);
      if err.None? {
        host.files := host.files - {vmxPath};
        host.running := host.running - {vmxPath};
      }
    }

    method IsRunning() returns (r: Result<bool>)
      modifies host
      ensures (host.State(), r) == IsRunningStep(host.env, old(host.State()), vmxPath)
    {
      var on := vmxPath in host.running;
      var err := Invoke(IsRunningCall);
      r := if err.Some? then Err(err.value) else Ok(on);
    }

    method HasToolsInstalled() returns (r: Result<bool>)
      modifies host
      ensures (host.State(), r) == HasToolsStep(host.env, old(host.State()), vmxPath)
    {
      var err := Invoke(HasToolsInstalledCall);
      r := if err.Some? then Err(err.value) else Ok(host.env.tools(vmxPath));
    }

    method IPAddress() returns (r: Result<string>)
      modifies host
      ensures (host.State(), r) == IPAddressStep(host.env, old(host.State()), vmxPath)
    {
      var err := Invoke(IPAddressCall);
      r := if err.Some? then Err(err.value) else Ok(host.env.ip(vmxPath));
    }

    method Info() returns (r: Result<VMInfo>)
      modifies host
      ensures (host.State(), r) == InfoStep(host.env, old(host.State()), vmxPath)
    {
      var err := Invoke(InfoCall);
      if err.Some? {
        return Err(err.value);
      }
      if vmxPath !in host.files {
        return Err(NoSuchFile(vmxPath));
      }
      var vmx := ReadVmx(host.files[vmxPath]);
      r := InfoFromVmx(vmx);
    }

    method SetInfo(info: VMInfo) returns (err: Option<string>)
      modifies host
      ensures (host.State(), err) == SetInfoStep(host.env, old(host.State()), vmxPath, info)
    {
      err := Invoke(SetInfoCall(info));
      if err.Some? {
        return;
      }
      if vmxPath !in host.files {
        return Some(NoSuchFile(vmxPath));
      }
      var vmx := ReadVmx(host.files[vmxPath]);
      vmx := ApplyInfo(vmx, info);
      var text := WriteVmx(vmx);
      host.files := host.files[vmxPath := text];
    }
  }
}
