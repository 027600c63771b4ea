/**
 * The VIX library the older controllers drive (`govix`), as a mock: the
 * hypervisor's answers come from a fixed `World`, and the only thing a call
 * changes is the log of calls made.
 *
 * A controller operation is specified by a plan, the sequence of steps it
 * takes; `Run` executes a plan the way the controllers' early returns do: a
 * checked call that fails ends the plan with its error, an ignored one does
 * not, and the clone step tolerates one error code.
 */
module Govix {
  import opened Wrappers

  datatype Provider = Workstation | Server | ViServer | Player | WorkstationShared

  /** The bits of `VMPowerState`, named. */
  datatype PowerFlag =
    | PoweringOff | PoweredOff | PoweringOn | PoweredOn | Suspending | Suspended
    | ToolsRunning | Resetting | BlockedOnMsg

  /** The bits of `GuestToolsState`, named. */
  datatype ToolsFlag = ToolsUnknown | ToolsRunningState | ToolsNotInstalled

  /** The bits of `VMPowerOption` the controllers use. */
  datatype PowerOption = PowerNormal | FromGuest | LaunchGui

  /** The bits of `VmDeleteOption` the controllers use. */
  datatype DeleteOption = KeepFiles | Force

  datatype CloneType = CloneFull | CloneLinked

  datatype ConnType = ConnCustom | ConnBridged | ConnNat | ConnHostOnly

  datatype NetworkAdapter = NetworkAdapter(
    connType: ConnType,
    vSwitch: string,
    macAddress: string,
    startConnected: bool,
    linkStatePropagation: bool)

  datatype CDDVDDrive = CDDVDDrive(bus: string, filename: string)

  /** A VIX error carries a numeric code; other failures (decoding, say) carry a message. */
  datatype Error = VixError(code: int) | Failed(message: string)

  /** "The snapshot already exists", which the clone step tolerates. */
  const SnapshotAlreadyExists := 13004

  /** One call into the library. */
  datatype Call =
    | Connect(provider: Provider, verifySSL: bool)
    | Disconnect
    | RegisterVM(path: string)
    | UnregisterVM(path: string)
    | OpenVM(path: string, password: string)
    | IsRunning
    | ToolsState
    | PowerOff(options: set<PowerOption>)
    | PowerOn(options: set<PowerOption>)
    | WaitForToolsInGuest(timeout: int)
    | SetMemorySize(mb: nat)
    | SetNumberVcpus(vcpus: nat)
    | SetDisplayName(name: string)
    | SetAnnotation(text: string)
    | UpgradeVHardware
    | RemoveAllNetworkAdapters
    | AddNetworkAdapter(adapter: NetworkAdapter)
    | RemoveAllCDDVDDrives
    | AttachCDDVD(drive: CDDVDDrive)
    | EnableSharedFolders(enabled: bool)
    | Clone(ctype: CloneType, path: string)
    | Delete(deleteOptions: set<DeleteOption>)
    | Vcpus
    | MemorySize
    | DisplayName
    | Annotation
    | NetworkAdapters
    | IPAddress
    | PowerState
    | GuestOS

  /** What the log records: library calls and directory removals. */
  datatype Event = Called(call: Call) | RemovedAll(dir: string)

  /**
   * What the hypervisor answers: `failure(c)` is the error call `c` reports
   * (None when it succeeds), the other fields what the queries return.
   */
  datatype World = World(
    failure: Call -> Option<Error>,
    running: bool,
    tools: set<ToolsFlag>,
    power: set<PowerFlag>,
    vcpus: nat,
    memory: nat,
    displayName: string,
    annotation: string,
    adapters: seq<NetworkAdapter>,
    ip: string,
    guestOS: string)

  // ---------------------------------------------------------------------------
  // Plans

  /** How a call's error is treated: it ends the operation, it is ignored, or one code is tolerated. */
  datatype Mode = Checked | Ignored | Tolerating(code: int)

  datatype Step =
    | Invoke(call: Call, mode: Mode)
    | Remove(dir: string)
    | Check(result: Option<Error>)

  /** Whether a step ends the operation with an error. */
  predicate Stops(w: World, st: Step)
  {
    match st
    case Invoke(c, m) =>
      w.failure(c).Some? && (m.Checked? || (m.Tolerating? && w.failure(c).value != VixError(m.code)))
    case Remove(_) => false
    case Check(e) => e.Some?
  }

  function Failure(w: World, st: Step): Error
    requires Stops(w, st)
  {
    match st
    case Invoke(c, _) => w.failure(c).value
    case Check(e) => e.value
  }

  /** What a step leaves in the log. */
  function Trace(st: Step): (ev: seq<Event>)
    ensures st.Invoke? ==> ev == [Called(st.call)]
    ensures st.Remove? ==> ev == [RemovedAll(st.dir)]
    ensures st.Check? ==> ev == []
  {
    match st
    case Invoke(c, _) => [Called(c)]
    case Remove(d) => [RemovedAll(d)]
    case Check(_) => []
  }

  /** Everything a plan would log when nothing stops it. */
  function Traces(plan: seq<Step>): seq<Event>
  {
    if |plan| == 0 then [] else Trace(plan[0]) + Traces(plan[1..])
  }

  /** Executes a plan: the events logged and the error the operation returns. */
  function Run(w: World, plan: seq<Step>): (seq<Event>, Option<Error>)
  {
    if |plan| == 0 then ([], None)
    else if Stops(w, plan[0]) then (Trace(plan[0]), Some(Failure(w, plan[0])))
    else
      var (events, err) := Run(w, plan[1..]);
      (Trace(plan[0]) + events, err)
  }

  /** Connects, runs the body, and disconnects (the deferred `Disconnect`) once connected. */
  function Session(w: World, provider: Provider, verifySSL: bool, body: (seq<Event>, Option<Error>)): (seq<Event>, Option<Error>)
  {
    var connect := Connect(provider, verifySSL);
    if w.failure(connect).Some? then ([Called(connect)], w.failure(connect))
    else ([Called(connect)] + body.0 + [Called(Disconnect)], body.1)
  }

  /** The first `n` steps of a plan pass, and step `n` (if any) is the one that stops. */
  ghost predicate StopsAt(w: World, plan: seq<Step>, n: nat)
  {
    n <= |plan|
    && (forall i :: 0 <= i < n ==> !Stops(w, plan[i]))
    && (n < |plan| ==> Stops(w, plan[n]))
  }

  /**
   * A run stops at the first step that stops, or runs the whole plan: the
   * log is the trace of the steps up to and including that one, and the
   * error is that step's.
   */
  lemma {:induction false} RunStopsAtFirst(w: World, plan: seq<Step>) returns (n: nat)
    ensures StopsAt(w, plan, n)
    ensures n == |plan| ==> Run(w, plan) == (Traces(plan), None)
    ensures n < |plan| ==> Run(w, plan) == (Traces(plan[..n + 1]), Some(Failure(w, plan[n])))
    decreases |plan|
  {
    if |plan| == 0 {
      n := 0;
    } else if Stops(w, plan[0]) {
      n := 0;
      assert plan[..1][0] == plan[0];
      assert plan[..1][1..] == [];
      assert Traces(plan[..1]) == Trace(plan[0]) + Traces(plan[..1][1..]);
      assert Traces(plan[..1]) == Trace(plan[0]);
    } else {
      var m := RunStopsAtFirst(w, plan[1..]);
      n := m + 1;
      forall i | 0 <= i < n
        ensures !Stops(w, plan[i])
      {
        if i > 0 {
          assert plan[i] == plan[1..][i - 1];
        }
      }
      if n < |plan| {
        assert plan[1..][m] == plan[n];
        assert plan[..n + 1][0] == plan[0];
        assert plan[..n + 1][1..] == plan[1..][..m + 1];
        assert Traces(plan[..n + 1]) == Trace(plan[0]) + Traces(plan[1..][..m + 1]);
      }
    }
  }

  /** A run logs a prefix of the plan's trace, and all of it exactly when it returns no error. */
  lemma RunLogsPrefix(w: World, plan: seq<Step>)
    ensures Run(w, plan).1.None? ==> Run(w, plan).0 == Traces(plan)
    ensures exists n :: 0 <= n <= |plan| && Run(w, plan).0 == Traces(plan[..n])
  {
    var n := RunStopsAtFirst(w, plan);
    if n == |plan| {
      assert plan[..n] == plan;
    } else {
      assert Run(w, plan).0 == Traces(plan[..n + 1]);
    }
  }

  /** Every event of a plan's trace comes from one of its steps. */
  lemma {:induction false} TracesPlanned(plan: seq<Step>)
    ensures forall e :: e in Traces(plan) ==> exists st :: st in plan && e in Trace(st)
    decreases |plan|
  {
    if |plan| > 0 {
      TracesPlanned(plan[1..]);
      forall e | e in Traces(plan)
        ensures exists st :: st in plan && e in Trace(st)
      {
        if e !in Trace(plan[0]) {
          assert e in Traces(plan[1..]);
          var st :| st in plan[1..] && e in Trace(st);
          assert st in plan;
        }
      }
    }
  }

  /** The trace of two plans is the trace of the first, then of the second. */
  lemma {:induction false} TracesAppend(a: seq<Step>, b: seq<Step>)
    ensures Traces(a + b) == Traces(a) + Traces(b)
    decreases |a|
  {
    if |a| == 0 {
      assert a + b == b;
    } else {
      assert (a + b)[0] == a[0];
      assert (a + b)[1..] == a[1..] + b;
      TracesAppend(a[1..], b);
    }
  }

  /** Every event a run logs is in the plan's trace. */
  lemma RunLogsTraced(w: World, plan: seq<Step>)
    ensures forall e :: e in Run(w, plan).0 ==> e in Traces(plan)
  {
    var n := RunStopsAtFirst(w, plan);
    if n < |plan| {
      assert plan == plan[..n + 1] + plan[n + 1..];
      TracesAppend(plan[..n + 1], plan[n + 1..]);
    }
  }

  /** A plan made of calls only traces each call, in order. */
  lemma {:induction false} TracesOfInvokes(plan: seq<Step>)
    requires forall i :: 0 <= i < |plan| ==> plan[i].Invoke?
    ensures |Traces(plan)| == |plan|
    ensures forall i :: 0 <= i < |plan| ==> Traces(plan)[i] == Called(plan[i].call)
    decreases |plan|
  {
    if |plan| > 0 {
      forall i | 0 <= i < |plan[1..]|
        ensures plan[1..][i].Invoke?
      {
        assert plan[1..][i] == plan[i + 1];
      }
      TracesOfInvokes(plan[1..]);
      forall i | 0 < i < |plan|
        ensures Traces(plan)[i] == Called(plan[i].call)
      {
        assert Traces(plan)[i] == Traces(plan[1..])[i - 1];
        assert plan[1..][i - 1] == plan[i];
      }
    }
  }

  /** Every event a run logs comes from one of the plan's steps. */
  lemma RunLogsPlanned(w: World, plan: seq<Step>)
    ensures forall e :: e in Run(w, plan).0 ==> exists st :: st in plan && e in Trace(st)
  {
    var n := RunStopsAtFirst(w, plan);
    if n == |plan| {
      TracesPlanned(plan);
    } else {
      TracesPlanned(plan[..n + 1]);
      forall e | e in Run(w, plan).0
        ensures exists st :: st in plan && e in Trace(st)
      {
        var st :| st in plan[..n + 1] && e in Trace(st);
        assert st in plan;
      }
    }
  }

  /** Running `a` then `b`: `b` runs only when `a` returned no error. */
  lemma {:induction false} RunAppend(w: World, a: seq<Step>, b: seq<Step>)
    ensures Run(w, a + b)
              == if Run(w, a).1.Some? then Run(w, a)
                 else (Run(w, a).0 + Run(w, b).0, Run(w, b).1)
    decreases |a|
  {
    if |a| == 0 {
      assert a + b == b;
      assert Run(w, a) == ([], None);
      assert [] + Run(w, b).0 == Run(w, b).0;
    } else {
      assert (a + b)[0] == a[0];
      assert (a + b)[1..] == a[1..] + b;
      if !Stops(w, a[0]) {
        RunAppend(w, a[1..], b);
        if Run(w, a[1..]).1.None? {
          var t := Trace(a[0]);
          assert t + (Run(w, a[1..]).0 + Run(w, b).0) == (t + Run(w, a[1..]).0) + Run(w, b).0;
        }
      }
    }
  }

  /** When two plans run through without error, so does each of them. */
  lemma RunSplit(w: World, a: seq<Step>, b: seq<Step>)
    requires Run(w, a + b).1.None?
    ensures Run(w, a) == (Traces(a), None) && Run(w, b) == (Traces(b), None)
  {
    RunAppend(w, a, b);
    RunLogsPrefix(w, a);
    RunLogsPrefix(w, b);
  }

  /** An event that only `b` can log shows that `a` ran to its end without error. */
  lemma ReachedAfter(w: World, a: seq<Step>, b: seq<Step>, e: Event)
    requires e in Run(w, a + b).0
    requires forall st :: st in a ==> e !in Trace(st)
    ensures Run(w, a) == (Traces(a), None)
    ensures Run(w, a + b) == (Traces(a) + Run(w, b).0, Run(w, b).1)
    ensures e in Run(w, b).0
  {
    RunAppend(w, a, b);
    RunLogsPrefix(w, a);
    if Run(w, a).1.Some? {
      RunLogsPlanned(w, a);
      assert false;
    }
    TracesPlanned(a);
  }

  /** A plan in which nothing is checked never fails. */
  lemma {:induction false} IgnoredNeverFails(w: World, plan: seq<Step>)
    requires forall i :: 0 <= i < |plan| ==> plan[i].Invoke? && plan[i].mode.Ignored?
    ensures Run(w, plan) == (Traces(plan), None)
    decreases |plan|
  {
    if |plan| > 0 {
      forall i | 0 <= i < |plan[1..]|
        ensures plan[1..][i].Invoke? && plan[1..][i].mode.Ignored?
      {
        assert plan[1..][i] == plan[i + 1];
      }
      IgnoredNeverFails(w, plan[1..]);
    }
  }

  /** The clone step fails only with an error other than the tolerated one. */
  lemma ToleratedStep(w: World, c: Call, code: int)
    ensures Stops(w, Invoke(c, Tolerating(code))) <==> w.failure(c).Some? && w.failure(c) != Some(VixError(code))
  {
  }

  /** A session that connects always disconnects last; one that does not connect logs only the attempt. */
  lemma SessionBrackets(w: World, provider: Provider, verifySSL: bool, body: (seq<Event>, Option<Error>))
    ensures var (events, err) := Session(w, provider, verifySSL, body);
            events[0] == Called(Connect(provider, verifySSL))
            && (w.failure(Connect(provider, verifySSL)).None? ==>
                  events[|events| - 1] == Called(Disconnect) && events[1..|events| - 1] == body.0 && err == body.1)
            && (w.failure(Connect(provider, verifySSL)).Some? ==>
                  |events| == 1 && err == w.failure(Connect(provider, verifySSL)))
  {
  }

  /**
   * Part of `plan` has been performed: the log grew from `log0` to `log`, and
   * running the steps still to do from there gives what running the whole
   * plan gives.
   */
  ghost predicate Between(w: World, plan: seq<Step>, log0: seq<Event>, log: seq<Event>, todo: seq<Step>)
  {
    log0 + Run(w, plan).0 == log + Run(w, todo).0 && Run(w, plan).1 == Run(w, todo).1
  }

  /** The plan ended: the log holds its whole run, and the operation returns its error. */
  ghost predicate Ended(w: World, plan: seq<Step>, log0: seq<Event>, log: seq<Event>, err: Option<Error>)
  {
    log == log0 + Run(w, plan).0 && err == Run(w, plan).1
  }

  /** Nothing is performed yet. */
  lemma Begin(w: World, plan: seq<Step>, log0: seq<Event>)
    ensures Between(w, plan, log0, log0, plan)
  {
  }

  /** Performing the next step: either the plan goes on, or it ends with that step's error. */
  lemma Advance(w: World, plan: seq<Step>, log0: seq<Event>, log: seq<Event>, todo: seq<Step>, st: Step)
    requires Between(w, plan, log0, log, todo) && |todo| > 0 && todo[0] == st
    ensures !Stops(w, st) ==> Between(w, plan, log0, log + Trace(st), todo[1..])
    ensures Stops(w, st) ==> Ended(w, plan, log0, log + Trace(st), Some(Failure(w, st)))
  {
    if !Stops(w, st) {
      assert log + (Trace(st) + Run(w, todo[1..]).0) == (log + Trace(st)) + Run(w, todo[1..]).0;
    }
  }

  /** All steps performed: the log holds the plan's whole run, and it returned no error. */
  lemma Finished(w: World, plan: seq<Step>, log0: seq<Event>, log: seq<Event>, todo: seq<Step>)
    requires Between(w, plan, log0, log, todo) && |todo| == 0
    ensures Ended(w, plan, log0, log, None)
  {
    assert log + [] == log;
  }

  // ---------------------------------------------------------------------------
  // The library objects

  /** The connection to the hypervisor and everything done through it. */
  class Vix {
    const world: World
    var log: seq<Event>

    constructor(world: World)
      ensures this.world == world && log == []
    {
      this.world := world;
      log := [];
    }

    /** Performs a call whose only result is its error. */
    method Do(c: Call) returns (err: Option<Error>)
      modifies this
      ensures log == old(log) + [Called(c)] && err == world.failure(c)
    {
      log := log + [Called(c)];
      err := world.failure(c);
    }

    /** The deferred end of a session; it reports nothing. */
    method Disconnect()
      modifies this
      ensures log == old(log) + [Called(Call.Disconnect)]
    {
      log := log + [Called(Call.Disconnect)];
    }

    // Each query answers the world's value, or the zero value when it fails.

    method IsRunning() returns (running: bool, err: Option<Error>)
      modifies this
      ensures log == old(log) + [Called(Call.IsRunning)] && err == world.failure(Call.IsRunning)
      ensures running == (err.None? && world.running)
    {
      log := log + [Called(Call.IsRunning)];
      err := world.failure(Call.IsRunning);
      running := err.None? && world.running;
    }

    method ToolsState() returns (tools: set<ToolsFlag>, err: Option<Error>)
      modifies this
      ensures log == old(log) + [Called(Call.ToolsState)] && err == world.failure(Call.ToolsState)
      ensures tools == if err.None? then world.tools else {}
    {
      log := log + [Called(Call.ToolsState)];
      err := world.failure(Call.ToolsState);
      tools := if err.None? then world.tools else {};
    }

    method Vcpus() returns (n: nat, err: Option<Error>)
      modifies this
      ensures log == old(log) + [Called(Call.Vcpus)] && err == world.failure(Call.Vcpus)
      ensures n == if err.None? then world.vcpus else 0
    {
      log := log + [Called(Call.Vcpus)];
      err := world.failure(Call.Vcpus);
      n := if err.None? then world.vcpus else 0;
    }

    method MemorySize() returns (mb: nat, err: Option<Error>)
      modifies this
      ensures log == old(log) + [Called(Call.MemorySize)] && err == world.failure(Call.MemorySize)
      ensures mb == if err.None? then world.memory else 0
    {
      log := log + [Called(Call.MemorySize)];
      err := world.failure(Call.MemorySize);
      mb := if err.None? then world.memory else 0;
    }

    method DisplayName() returns (name: string, err: Option<Error>)
      modifies this
      ensures log == old(log) + [Called(Call.DisplayName)] && err == world.failure(Call.DisplayName)
      ensures name == if err.None? then world.displayName else ""
    {
      log := log + [Called(Call.DisplayName)];
      err := world.failure(Call.DisplayName);
      name := if err.None? then world.displayName else "";
    }

    method Annotation() returns (text: string, err: Option<Error>)
      modifies this
      ensures log == old(log) + [Called(Call.Annotation)] && err == world.failure(Call.Annotation)
      ensures text == if err.None? then world.annotation else ""
    {
      log := log + [Called(Call.Annotation)];
      err := world.failure(Call.Annotation);
      text := if err.None? then world.annotation else "";
    }

    method NetworkAdapters() returns (adapters: seq<NetworkAdapter>, err: Option<Error>)
      modifies this
      ensures log == old(log) + [Called(Call.NetworkAdapters)] && err == world.failure(Call.NetworkAdapters)
      ensures adapters == if err.None? then world.adapters else []
    {
      log := log + [Called(Call.NetworkAdapters)];
      err := world.failure(Call.NetworkAdapters);
      adapters := if err.None? then world.adapters else [];
    }

    method IPAddress() returns (ip: string, err: Option<Error>)
      modifies this
      ensures log == old(log) + [Called(Call.IPAddress)] && err == world.failure(Call.IPAddress)
      ensures ip == if err.None? then world.ip else ""
    {
      log := log + [Called(Call.IPAddress)];
      err := world.failure(Call.IPAddress);
      ip := if err.None? then world.ip else "";
    }

    method PowerState() returns (power: set<PowerFlag>, err: Option<Error>)
      modifies this
      ensures log == old(log) + [Called(Call.PowerState)] && err == world.failure(Call.PowerState)
      ensures power == if err.None? then world.power else {}
    {
      log := log + [Called(Call.PowerState)];
      err := world.failure(Call.PowerState);
      power := if err.None? then world.power else {};
    }

    method GuestOS() returns (os: string, err: Option<Error>)
      modifies this
      ensures log == old(log) + [Called(Call.GuestOS)] && err == world.failure(Call.GuestOS)
      ensures os == if err.None? then world.guestOS else ""
    {
      log := log + [Called(Call.GuestOS)];
      err := world.failure(Call.GuestOS);
      os := if err.None? then world.guestOS else "";
    }

    /** `os.RemoveAll`, whose error the controllers ignore. */
    method RemoveAll(dir: string)
      modifies this
      ensures log == old(log) + [RemovedAll(dir)]
    {
      log := log + [RemovedAll(dir)];
    }
  }
}
