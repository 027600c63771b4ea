/**
 * The lifecycle controller of the `vms` package: a `VM` record bound at
 * construction to the hypervisor adapter of its `.vmx` file, and the gold
 * image cache it clones from.
 *
 * Each operation is a method on the objects (the record, the adapter's host)
 * and is proved equal to a function on the host snapshot `Sys`; the ordering
 * and "nothing else happens" properties are lemmas about those functions.
 */
module Vms {
  import opened Wrappers
  import opened GoStrings
  import opened GoStrconv
  import opened Vmx
  import opened VMware
  import opened Fusion7
  import opened MockVMware

  /** `filepath.Join` of two elements; an empty element is skipped. */
  function PathJoin(a: string, b: string): (p: string)
    ensures a == "" ==> p == b
    ensures b == "" ==> p == a
    ensures a != "" && b != "" ==> p == a + "/" + b
  {
    if a == "" then b else if b == "" then a else a + "/" + b
  }

  /** Where machines, gold images and downloaded images live. */
  datatype Config = Config(vmsPath: string, goldImgsPath: string, imagesPath: string)

  /** The three directories under `~/.osx-builder`. */
  function HomeConfig(home: string): (c: Config)
    ensures home != "" ==> c.vmsPath == home + "/.osx-builder/vms"
    ensures home != "" ==> c.goldImgsPath == home + "/.osx-builder/gold"
    ensures home != "" ==> c.imagesPath == home + "/.osx-builder/images"
    ensures home == "" ==> c == Config(".osx-builder/vms", ".osx-builder/gold", ".osx-builder/images")
  {
    var base := PathJoin(home, ".osx-builder");
    Config(PathJoin(base, "vms"), PathJoin(base, "gold"), PathJoin(base, "images"))
  }

  /** The OS image a machine is created from. */
  datatype Image = Image(url: string, checksum: string, checksumType: string, password: string)

  const NoImage := Image("", "", "", "")

  /** JSON-then-base64 of an image, and back. */
  datatype Codec = Codec(encode: Image -> Result<string>, decode: string -> Result<Image>)

  datatype VMConfig = VMConfig(
    id: string,
    osImage: Image,
    cpus: int,
    memory: int,
    network: NetworkType,
    headless: bool)

  /** The public state of a `VM`: its configuration, address and power status. */
  datatype VMRecord = VMRecord(cfg: VMConfig, ipAddress: string, status: string)

  /** What fetching an image does: the download error, or the files unpacking creates. */
  datatype Fetch = Fetch(download: string -> Option<string>, unpack: string -> Result<map<string, string>>)

  /** The backing file of a machine: `VMSPath/ID/ID.vmx`. */
  function VMXFile(config: Config, id: string): (path: string)
    ensures config.vmsPath != "" && id != "" ==> path == config.vmsPath + "/" + id + "/" + id + ".vmx"
  {
    PathJoin(PathJoin(config.vmsPath, id), id + ".vmx")
  }

  // ---------------------------------------------------------------------------
  // setDefaults and the memory granularity

  /** At least one CPU (two when unset) and at least 512 MB; nothing else changes. */
  function WithDefaults(c: VMConfig): (r: VMConfig)
    ensures r.cpus > 0 && r.memory >= 512
    ensures c.cpus > 0 ==> r.cpus == c.cpus
    ensures c.cpus <= 0 ==> r.cpus == 2
    ensures c.memory >= 512 ==> r.memory == c.memory
    ensures c.memory < 512 ==> r.memory == 512
    ensures r.(cpus := c.cpus, memory := c.memory) == c
  {
    c.(cpus := if c.cpus <= 0 then 2 else c.cpus, memory := if c.memory < 512 then 512 else c.memory)
  }

  lemma WithDefaultsIdempotent(c: VMConfig)
    ensures WithDefaults(WithDefaults(c)) == WithDefaults(c)
  {
  }

  /** Two's complement wrap-around of a 64-bit signed integer. */
  function Wrap64(x: int): (r: int)
    ensures InInt64(r)
    ensures InInt64(x) ==> r == x
  {
    (x - MinInt64) % 0x1_0000_0000_0000_0000 + MinInt64
  }

  /** `(m + 3) &^ 3` on an int64: add three, then clear the two low bits. */
  function RoundUp4(m: int): (r: int)
    ensures InInt64(r)
  {
    var s := Wrap64(m + 3);
    s - s % 4
  }

  /** Without overflow the result is the least multiple of four that is not below `m`. */
  lemma RoundUp4Least(m: int)
    requires MinInt64 <= m <= MaxInt64 - 3
    ensures RoundUp4(m) % 4 == 0
    ensures m <= RoundUp4(m) < m + 4
  {
  }

  lemma RoundUp4Examples()
    ensures RoundUp4(512) == 512 && RoundUp4(513) == 516 && RoundUp4(515) == 516 && RoundUp4(516) == 516
  {
    assert InInt64(515) && InInt64(516) && InInt64(518) && InInt64(519);
    assert Wrap64(515) == 515 && Wrap64(516) == 516 && Wrap64(518) == 518 && Wrap64(519) == 519;
  }

  /** A multiple of four is its own rounding. */
  lemma RoundUp4Aligned(m: int)
    requires InInt64(m) && m % 4 == 0
    ensures RoundUp4(m) == m
  {
    RoundUp4Least(m);
  }

  /** The three largest int64 values wrap to the most negative one. */
  lemma RoundUp4Overflow(m: int)
    requires MaxInt64 - 2 <= m <= MaxInt64
    ensures RoundUp4(m) == MinInt64
  {
    assert Wrap64(m + 3) == m + 3 - 0x1_0000_0000_0000_0000;
  }

  // ---------------------------------------------------------------------------
  // The operations on the host snapshot

  /** The summary `Update` pushes: the ID as name, the memory rounded, guest OS left empty. */
  function UpdateInfo(c: VMConfig, annotation: string): (info: VMInfo)
    ensures info.name == c.id && info.annotation == annotation && info.cpus == c.cpus
    ensures info.memorySize == RoundUp4(c.memory) && info.networkType == c.network && info.guestOS == ""
  {
    VMInfo(name := c.id, annotation := annotation, memorySize := RoundUp4(c.memory),
           cpus := c.cpus, guestOS := "", networkType := c.network)
  }

  /** The first half of `Update` and of `Destroy`: ask whether it runs, stop it if so. */
  function PowerOff(env: Env, s: Sys, path: string): (Sys, Option<string>)
  {
    var (s1, running) := IsRunningStep(env, s, path);
    if running.Err? then (s1, Some(running.error))
    else if running.value then StopStep(env, s1, path)
    else (s1, None)
  }

  /** The second half of `Update`: encode the image, push the summary, power on. */
  ghost function PushAndStart(env: Env, s: Sys, path: string, c: VMConfig, codec: Codec): (Sys, Option<string>)
  {
    match codec.encode(c.osImage)
    case Err(e) => (s, Some(e))
    case Ok(annotation) =>
      var (s1, setErr) := SetInfoStep(env, s, path, UpdateInfo(c, annotation));
      if setErr.Some? then (s1, setErr)
      else StartStep(env, s1, path, c.headless)
  }

  /** `Update` after the defaults. */
  ghost function UpdateSpec(env: Env, s: Sys, path: string, c: VMConfig, codec: Codec): (Sys, Option<string>)
  {
    var (s1, err) := PowerOff(env, s, path);
    if err.Some? then (s1, err) else PushAndStart(env, s1, path, c, codec)
  }

  /** `unpackGoldImage`: download and unpack only when the gold directory is missing or empty. */
  function UnpackSpec(fetch: Fetch, config: Config, s: Sys, image: Image): (Sys, Result<string>)
  {
    var goldPath := PathJoin(config.goldImgsPath, image.checksum);
    if goldPath in s.gold then (s, Ok(goldPath))
    else
      var imgPath := PathJoin(config.imagesPath, image.checksum);
      match fetch.download(imgPath)
      case Some(e) => (s, Err(e))
      case None =>
        var s1 := s.(log := s.log + [Downloaded(imgPath)]);
        match fetch.unpack(goldPath)
        case Err(e) => (s1, Err(e))
        case Ok(unpacked) =>
          (s1.(files := s.files + unpacked,
               gold := if unpacked == map[] then s.gold else s.gold + {goldPath},
               log := s1.log + [Unpacked(goldPath)]),
           Ok(goldPath))
  }

  function GoldNotFound(pattern: string): string
  {
    "[ERROR] Gold vmx file was not found: " + pattern
  }

  /**
   * `Create`: ensure the gold image, take the first `.vmx` match, clone only
   * when the target is absent, then `Update` with the defaults applied.
   * The configuration returned is the record's after the call.
   */
  ghost function CreateSpec(env: Env, fetch: Fetch, config: Config, s: Sys, path: string, c: VMConfig,
                            matches: seq<string>, codec: Codec): (Sys, VMConfig, Option<string>)
  {
    var (s1, gold) := UnpackSpec(fetch, config, s, c.osImage);
    if gold.Err? then (s1, c, Some(gold.error))
    else if |matches| == 0 then (s1, c, Some(GoldNotFound(PathJoin(gold.value, "**.vmx"))))
    else
      var (s2, cloneErr) := EnsureClone(env, s1, path, matches[0]);
      if cloneErr.Some? then (s2, c, cloneErr)
      else
        var (s3, err) := UpdateSpec(env, s2, path, WithDefaults(c), codec);
        (s3, WithDefaults(c), err)
  }

  /** The middle of `Create`: clone the gold `.vmx` as a linked clone unless the machine's file exists. */
  function EnsureClone(env: Env, s: Sys, path: string, src: string): (Sys, Option<string>)
  {
    var (s1, found) := ExistsStep(env, s, path);
    if found.Err? then (s1, Some(found.error))
    else if found.value then (s1, None)
    else CloneStep(env, s1, path, src, CloneLinked)
  }

  /** `os.RemoveAll(dir)` on the file map. */
  function RemoveAll(s: Sys, dir: string): (s': Sys)
    ensures forall k :: k in s'.files <==> k in s.files && k != dir && !HasPrefix(k, dir + "/")
    ensures forall k :: k in s'.files ==> s'.files[k] == s.files[k]
    ensures s'.log == s.log + [RemovedAll(dir)] && s'.running == s.running && s'.gold == s.gold
  {
    s.(files := map k | k in s.files && k != dir && !HasPrefix(k, dir + "/") :: s.files[k],
       log := s.log + [RemovedAll(dir)])
  }

  /** `Destroy`: stop if running, delete ignoring its error, remove the machine's directory. */
  function DestroySpec(env: Env, config: Config, s: Sys, path: string, id: string): (Sys, Option<string>)
  {
    var (s1, err) := PowerOff(env, s, path);
    if err.Some? then (s1, err)
    else
      var s2 := DeleteStep(env, s1, path).0;
      if id != "" then (RemoveAll(s2, PathJoin(config.vmsPath, id)), None) else (s2, None)
  }

  /**
   * `Refresh`: the record as it stands when the operation ends, including the
   * fields already assigned when a later step fails.
   */
  function RefreshSpec(env: Env, s: Sys, path: string, r: VMRecord, codec: Codec): (Sys, VMRecord, Option<string>)
  {
    var (s1, info) := InfoStep(env, s, path);
    if info.Err? then (s1, r, Some(info.error))
    else
      var i := info.value;
      var r1 := r.(cfg := r.cfg.(cpus := i.cpus, memory := i.memorySize, id := i.name));
      var (s2, ip) := IPAddressStep(env, s1, path);
      var r2 := r1.(ipAddress := if ip.Ok? then ip.value else "");
      match codec.decode(i.annotation)
      case Err(e) => (s2, r2, Some(e))
      case Ok(image) =>
        var r3 := r2.(cfg := r2.cfg.(osImage := image, network := i.networkType));
        var (s3, running) := IsRunningStep(env, s2, path);
        if running.Err? then (s3, r3, Some(running.error))
        else (s3, r3.(status := if running.value then "running" else "stopped"), None)
  }

  /** The record `FindVM` starts from: only the ID is known. */
  function Blank(id: string): VMRecord
  {
    VMRecord(VMConfig(id, NoImage, 0, 0, "", false), "", "")
  }

  /** `FindVM`: no machine and no error when its file does not exist. */
  function FindSpec(env: Env, config: Config, s: Sys, id: string, codec: Codec): (Sys, Option<VMRecord>, Option<string>)
  {
    var path := VMXFile(config, id);
    var (s1, found) := ExistsStep(env, s, path);
    if found.Err? then (s1, None, Some(found.error))
    else if !found.value then (s1, None, None)
    else
      var (s2, r, err) := RefreshSpec(env, s1, path, Blank(id), codec);
      if err.Some? then (s2, None, err) else (s2, Some(r), None)
  }

  // ---------------------------------------------------------------------------
  // The VM object

  class VM {
    var cfg: VMConfig
    var ipAddress: string
    var status: string
    const config: Config
    const backend: MockVM

    /** `NewVM`: the adapter is bound to `VMSPath/ID/ID.vmx` once and for all. */
    constructor(config: Config, c: VMConfig, host: Host)
      ensures cfg == c && ipAddress == "" && status == ""
      ensures this.config == config && backend.vmxPath == VMXFile(config, c.id) && backend.host == host
    {
      cfg := c;
      ipAddress := "";
      status := "";
      this.config := config;
      backend := new MockVM(VMXFile(config, c.id), host);
    }

    ghost function Record(): VMRecord
      reads this
    {
      VMRecord(cfg, ipAddress, status)
    }

    method SetDefaults()
      modifies this
      ensures cfg == WithDefaults(old(cfg)) && ipAddress == old(ipAddress) && status == old(status)
    {
      if cfg.cpus <= 0 {
        cfg := cfg.(cpus := 2);
      }
      if cfg.memory < 512 {
        cfg := cfg.(memory := 512);
      }
    }

    method Update(codec: Codec) returns (err: Option<string>)
      modifies this, backend.host
      ensures cfg == WithDefaults(old(cfg)) && ipAddress == old(ipAddress) && status == old(status)
      ensures (backend.host.State(), err) == UpdateSpec(backend.host.env, old(backend.host.State()), backend.vmxPath, cfg, codec)
    {
      SetDefaults();
      var running := backend.IsRunning();
      if running.Err? {
        return Some(running.error);
      }
      if running.value {
        err := backend.Stop();
        if err.Some? {
          return;
        }
      }
      var annotation := codec.encode(cfg.osImage);
      if annotation.Err? {
        return Some(annotation.error);
      }
      var info := UpdateInfo(cfg, annotation.value);
      err := backend.SetInfo(info);
      if err.Some? {
        return;
      }
      err := backend.Start(cfg.headless);
    }

    /** `unpackGoldImage`. */
    method UnpackGoldImage(fetch: Fetch) returns (r: Result<string>)
      modifies backend.host
      ensures (backend.host.State(), r) == UnpackSpec(fetch, config, old(backend.host.State()), cfg.osImage)
    {
      var host := backend.host;
      var goldPath := PathJoin(config.goldImgsPath, cfg.osImage.checksum);
      if goldPath !in host.gold {
        var imgPath := PathJoin(config.imagesPath, cfg.osImage.checksum);
        var downloadErr := fetch.download(imgPath);
        if downloadErr.Some? {
          return Err(downloadErr.value);
        }
        host.log := host.log + [Downloaded(imgPath)];
        var unpacked := fetch.unpack(goldPath);
        if unpacked.Err? {
          return Err(unpacked.error);
        }
        host.files := host.files + unpacked.value;
        if unpacked.value != map[] {
          host.gold := host.gold + {goldPath};
        }
        host.log := host.log + [Unpacked(goldPath)];
      }
      r := Ok(goldPath);
    }

    /** `Create`; `matches` is what globbing the gold directory for `.vmx` files finds. */
    method Create(fetch: Fetch, matches: seq<string>, codec: Codec) returns (err: Option<string>)
      modifies this, backend.host
      ensures ipAddress == old(ipAddress) && status == old(status)
      ensures (backend.host.State(), cfg, err) ==
              CreateSpec(backend.host.env, fetch, config, old(backend.host.State()), backend.vmxPath, old(cfg), matches, codec)
    {
      var goldPath := UnpackGoldImage(fetch);
      if goldPath.Err? {
        return Some(goldPath.error);
      }
      if |matches| == 0 {
        return Some(GoldNotFound(PathJoin(goldPath.value, "**.vmx")));
      }
      var goldvmx := matches[0];
      var found := backend.Exists();
      if found.Err? {
        return Some(found.error);
      }
      if !found.value {
        err := backend.CloneFrom(goldvmx, CloneLinked);
        if err.Some? {
          return;
        }
      }
      err := Update(codec);
    }

    method Destroy() returns (err: Option<string>)
      modifies backend.host
      ensures (backend.host.State(), err) == DestroySpec(backend.host.env, config, old(backend.host.State()), backend.vmxPath, cfg.id)
    {
      var running := backend.IsRunning();
      if running.Err? {
        return Some(running.error);
      }
      if running.value {
        err := backend.Stop();
        if err.Some? {
          return;
        }
      }
      var _ := backend.Delete();
      if cfg.id != "" {
        var host := backend.host;
        var dir := PathJoin(config.vmsPath, cfg.id);
        host.files := map k | k in host.files && k != dir && !HasPrefix(k, dir + "/") :: host.files[k];
        host.log := host.log + [RemovedAll(dir)];
      }
      err := None;
    }

    method Refresh(codec: Codec) returns (err: Option<string>)
      modifies this, backend.host
      ensures (backend.host.State(), Record(), err) ==
              RefreshSpec(backend.host.env, old(backend.host.State()), backend.vmxPath, old(Record()), codec)
    {
      var info := backend.Info();
      if info.Err? {
        return Some(info.error);
      }
      cfg := cfg.(cpus := info.value.cpus, memory := info.value.memorySize, id := info.value.name);
      var ip := backend.IPAddress();
      ipAddress := if ip.Ok? then ip.value else "";
      var image := codec.decode(info.value.annotation);
      if image.Err? {
        return Some(image.error);
      }
      cfg := cfg.(osImage := image.value, network := info.value.networkType);
      var running := backend.IsRunning();
      if running.Err? {
        return Some(running.error);
      }
      status := if running.value then "running" else "stopped";
      err := None;
    }
  }

  /** `FindVM`. */
  method FindVM(config: Config, id: string, host: Host, codec: Codec) returns (vm: Option<VM>, err: Option<string>)
    modifies host
    ensures vm.Some? ==> vm.value.config == config && vm.value.backend.host == host
                         && vm.value.backend.vmxPath == VMXFile(config, id)
    ensures var (s, r, e) := FindSpec(host.env, config, old(host.State()), id, codec);
            host.State() == s && err == e && (vm.Some? <==> r.Some?) && (vm.Some? ==> vm.value.Record() == r.value)
  {
    var v := new VM(config, Blank(id).cfg, host);
    var found := v.backend.Exists();
    if found.Err? {
      return None, Some(found.error);
    }
    if !found.value {
      return None, None;
    }
    err := v.Refresh(codec);
    if err.Some? {
      return None, err;
    }
    vm := Some(v);
  }

  // ---------------------------------------------------------------------------
  // Properties of Update

  /** The log entries of a sequence of adapter calls on one path. */
  function Invocations(path: string, calls: seq<Call>): (r: seq<Event>)
    ensures |r| == |calls| && forall i :: 0 <= i < |calls| ==> r[i] == Invoked(path, calls[i])
  {
    seq(|calls|, i requires 0 <= i < |calls| => Invoked(path, calls[i]))
  }

  /** The calls `PowerOff` makes when nothing fails. */
  function PowerOffPlan(running: bool): seq<Call>
  {
    [IsRunningCall] + (if running then [StopCall] else [])
  }

  /** The calls `PushAndStart` makes when nothing fails. */
  function PushPlan(c: VMConfig, annotation: Result<string>): seq<Call>
  {
    if annotation.Ok? then [SetInfoCall(UpdateInfo(c, annotation.value)), StartCall(c.headless)] else []
  }

  /**
   * The calls `Update` makes when nothing fails: the power query, a stop only
   * when running, then (once the image is encoded) the summary and the power-on.
   */
  function UpdatePlan(running: bool, c: VMConfig, annotation: Result<string>): seq<Call>
  {
    PowerOffPlan(running) + PushPlan(c, annotation)
  }

  lemma InvocationsAppend(path: string, a: seq<Call>, b: seq<Call>)
    ensures Invocations(path, a + b) == Invocations(path, a) + Invocations(path, b)
  {
  }

  /**
   * `PowerOff` makes a non-empty prefix of its plan's calls and all of them on
   * success; it changes no file, and on success the machine is off.
   */
  lemma PowerOffCalls(env: Env, s: Sys, path: string) returns (n: nat)
    ensures var (s', err) := PowerOff(env, s, path);
            var plan := PowerOffPlan(path in s.running);
            0 < n <= |plan| && s'.log == s.log + Invocations(path, plan[..n]) && (err.None? ==> n == |plan|)
            && s'.files == s.files && s'.gold == s.gold
            && s'.running == (if err.None? then s.running - {path} else s.running)
  {
    var plan := PowerOffPlan(path in s.running);
    assert plan[..1] == [IsRunningCall];
    if Guard(env, path, IsRunningCall).Some? || path !in s.running {
      n := 1;
    } else {
      n := 2;
      assert plan[..2] == plan;
    }
  }

  /**
   * `PushAndStart` makes a prefix of its plan's calls (none when the image
   * cannot be encoded) and all of them on success.
   */
  lemma PushCalls(env: Env, s: Sys, path: string, c: VMConfig, codec: Codec) returns (n: nat)
    ensures var (s', err) := PushAndStart(env, s, path, c, codec);
            var plan := PushPlan(c, codec.encode(c.osImage));
            n <= |plan| && s'.log == s.log + Invocations(path, plan[..n]) && (err.None? ==> n == |plan|)
  {
    var plan := PushPlan(c, codec.encode(c.osImage));
    if codec.encode(c.osImage).Err? {
      n := 0;
    } else if SetInfoStep(env, s, path, UpdateInfo(c, codec.encode(c.osImage).value)).1.Some? {
      n := 1;
      assert plan[..1] == [plan[0]];
    } else {
      n := 2;
      assert plan[..2] == plan;
    }
  }

  /**
   * `Update` makes a prefix of its plan's calls, in order, and nothing else;
   * on success it made all of them.
   */
  lemma UpdateFollowsPlan(env: Env, s: Sys, path: string, c: VMConfig, codec: Codec)
    ensures var (s', err) := UpdateSpec(env, s, path, c, codec);
            var plan := UpdatePlan(path in s.running, c, codec.encode(c.osImage));
            (exists n :: 0 < n <= |plan| && s'.log == s.log + Invocations(path, plan[..n]))
            && (err.None? ==> s'.log == s.log + Invocations(path, plan))
  {
    var (s', err) := UpdateSpec(env, s, path, c, codec);
    var p1 := PowerOffPlan(path in s.running);
    var p2 := PushPlan(c, codec.encode(c.osImage));
    var plan := UpdatePlan(path in s.running, c, codec.encode(c.osImage));
    var (s1, err1) := PowerOff(env, s, path);
    var n1 := PowerOffCalls(env, s, path);
    if err1.Some? {
      assert plan[..n1] == p1[..n1];
      assert 0 < n1 <= |plan| && s'.log == s.log + Invocations(path, plan[..n1]);
    } else {
      var n2 := PushCalls(env, s1, path, c, codec);
      assert plan[..n1 + n2] == p1 + p2[..n2];
      InvocationsAppend(path, p1, p2[..n2]);
      assert 0 < n1 + n2 <= |plan| && s'.log == s.log + Invocations(path, plan[..n1 + n2]);
      if err.None? {
        assert p2[..n2] == p2;
      }
    }
  }

  /** A successful `Update` found the machine's file and an encoding of its image, and left it running. */
  lemma UpdateSucceeded(env: Env, s: Sys, path: string, c: VMConfig, codec: Codec)
    requires UpdateSpec(env, s, path, c, codec).1.None?
    ensures codec.encode(c.osImage).Ok? && path in s.files
    ensures var s' := UpdateSpec(env, s, path, c, codec).0;
            path in s'.files && s'.running == s.running + {path} && s'.gold == s.gold
  {
    var (s1, err1) := PowerOff(env, s, path);
    var _ := PowerOffCalls(env, s, path);
    assert s1.files == s.files && s1.running == s.running - {path};
  }

  /** A successful `Update` rewrote the machine's file, `base`, with the summary; no other file changed. */
  lemma UpdateRewrites(env: Env, s: Sys, path: string, c: VMConfig, codec: Codec, base: string)
    requires UpdateSpec(env, s, path, c, codec).1.None?
    requires path in s.files && s.files[path] == base
    ensures codec.encode(c.osImage).Ok?
    ensures UpdateSpec(env, s, path, c, codec).0.files ==
            s.files[path := SetInfoText(base, UpdateInfo(c, codec.encode(c.osImage).value))]
  {
    var (s1, err1) := PowerOff(env, s, path);
    var _ := PowerOffCalls(env, s, path);
    assert s1.files == s.files;
  }


  /** `s'` differs from `s` at most in the file and power state of `path`, and in the log. */
  predicate SameElsewhere(s: Sys, s': Sys, path: string)
  {
    s'.files - {path} == s.files - {path} && s'.running - {path} == s.running - {path} && s'.gold == s.gold
  }

  /** `Update` changes neither the file nor the power state of any other path, nor the gold images. */
  lemma UpdateLocal(env: Env, s: Sys, path: string, c: VMConfig, codec: Codec)
    ensures SameElsewhere(s, UpdateSpec(env, s, path, c, codec).0, path)
  {
    var (s1, err1) := PowerOff(env, s, path);
    var _ := PowerOffCalls(env, s, path);
    assert SameElsewhere(s, s1, path);
    if err1.None? {
      PushLocal(env, s1, path, c, codec);
    }
  }

  lemma PushLocal(env: Env, s: Sys, path: string, c: VMConfig, codec: Codec)
    ensures SameElsewhere(s, PushAndStart(env, s, path, c, codec).0, path)
  {
    if codec.encode(c.osImage).Ok? {
      var s1 := SetInfoStep(env, s, path, UpdateInfo(c, codec.encode(c.osImage).value)).0;
      assert SameElsewhere(s, s1, path);
      assert SameElsewhere(s1, StartStep(env, s1, path, c.headless).0, path);
    }
  }

  /** Without a file to rewrite (or an image to encode) the push fails before any power-on. */
  lemma PushFailsEarly(env: Env, s: Sys, path: string, c: VMConfig, codec: Codec)
    requires path !in s.files || codec.encode(c.osImage).Err?
    ensures var (s', err) := PushAndStart(env, s, path, c, codec);
            err.Some? && s'.files == s.files && s'.running == s.running && s'.gold == s.gold
            && (s'.log == s.log || s'.log == s.log + [Invoked(path, SetInfoCall(UpdateInfo(c, codec.encode(c.osImage).value)))])
  {
  }

  /** Only a successful SetInfo is followed by a power-on: a file that was never rewritten is never started. */
  lemma UpdateStartsOnlyAfterSetInfo(env: Env, s: Sys, path: string, c: VMConfig, codec: Codec)
    requires path !in s.files || codec.encode(c.osImage).Err?
    ensures var (s', err) := UpdateSpec(env, s, path, c, codec);
            err.Some? && s'.files == s.files && s'.running <= s.running
            && forall h :: Invoked(path, StartCall(h)) !in s'.log[|s.log|..]
  {
    var (s', err) := UpdateSpec(env, s, path, c, codec);
    var (s1, err1) := PowerOff(env, s, path);
    var n1 := PowerOffCalls(env, s, path);
    var p1 := PowerOffPlan(path in s.running);
    var head := Invocations(path, p1[..n1]);
    assert forall h :: Invoked(path, StartCall(h)) !in head;
    if err1.None? {
      PushFailsEarly(env, s1, path, c, codec);
      assert s'.log[|s.log|..] == head || s'.log[|s.log|..] == head + [s'.log[|s'.log| - 1]];
    } else {
      assert s'.log[|s.log|..] == head;
    }
  }

  /**
   * A SetInfo the hypervisor refuses (or that finds no file) ends `Update`
   * with its error: the file is not rewritten, the machine stays off, and the
   * power-on is never attempted.
   */
  lemma UpdateStopsAtFailedSetInfo(env: Env, s: Sys, path: string, c: VMConfig, codec: Codec)
    requires codec.encode(c.osImage).Ok? && PowerOff(env, s, path).1.None?
    requires SetInfoStep(env, PowerOff(env, s, path).0, path,
                         UpdateInfo(c, codec.encode(c.osImage).value)).1.Some?
    ensures var info := UpdateInfo(c, codec.encode(c.osImage).value);
            var (s', err) := UpdateSpec(env, s, path, c, codec);
            err == SetInfoStep(env, PowerOff(env, s, path).0, path, info).1
            && s'.files == s.files && s'.running == s.running - {path} && s'.gold == s.gold
            && s'.log == s.log + Invocations(path, PowerOffPlan(path in s.running) + [SetInfoCall(info)])
            && forall h :: Invoked(path, StartCall(h)) !in s'.log[|s.log|..]
  {
    var info := UpdateInfo(c, codec.encode(c.osImage).value);
    var (s', err) := UpdateSpec(env, s, path, c, codec);
    var n := PowerOffCalls(env, s, path);
    var plan := PowerOffPlan(path in s.running);
    assert plan[..n] == plan;
    InvocationsAppend(path, plan, [SetInfoCall(info)]);
    assert s'.log[|s.log|..] == Invocations(path, plan + [SetInfoCall(info)]);
  }

  // ---------------------------------------------------------------------------
  // Properties of Refresh

  /**
   * `Refresh` only queries: the host changes in its log alone. On success the
   * status reports the power state and the address is the guest's, or empty
   * when the address query failed.
   */
  lemma RefreshObserves(env: Env, s: Sys, path: string, r: VMRecord, codec: Codec)
    ensures var (s', r', err) := RefreshSpec(env, s, path, r, codec);
            s'.files == s.files && s'.running == s.running && s'.gold == s.gold
            && (err.None? ==> r'.status == (if path in s.running then "running" else "stopped"))
            && (err.None? ==> r'.ipAddress == (if Guard(env, path, IPAddressCall).None? then env.ip(path) else ""))
            && (err.Some? ==> r'.status == r.status)
  {
  }

  /** What `Refresh` makes of a `.vmx` file whose `Info` is `info`. */
  lemma RefreshOfInfo(env: Env, s: Sys, path: string, r: VMRecord, codec: Codec, info: VMInfo)
    requires InfoStep(env, s, path).1 == Ok(info)
    requires Guard(env, path, IsRunningCall).None?
    ensures var (s', r', err) := RefreshSpec(env, s, path, r, codec);
            var image := codec.decode(info.annotation);
            r'.cfg.id == info.name && r'.cfg.cpus == info.cpus && r'.cfg.memory == info.memorySize
            && r'.cfg.headless == r.cfg.headless
            && (image.Err? ==> err == Some(image.error) && r'.cfg.osImage == r.cfg.osImage
                               && r'.cfg.network == r.cfg.network && r'.status == r.status)
            && (image.Ok? ==> err.None? && r'.cfg.osImage == image.value && r'.cfg.network == info.networkType
                              && r'.status == (if path in s.running then "running" else "stopped"))
  {
  }

  /**
   * `Refresh` after a successful `Update` gives back the configuration that
   * was pushed, with the memory rounded up to a multiple of four, and reports
   * the machine running: provided the summary's text fields survive the
   * `.vmx` format and the codec decodes what it encoded.
   */
  lemma RefreshAfterUpdate(env: Env, s: Sys, path: string, c: VMConfig, codec: Codec, r: VMRecord)
    requires UpdateSpec(env, s, path, c, codec).1.None?
    requires codec.encode(c.osImage).Ok? ==> GoodValue(codec.encode(c.osImage).value)
    requires GoodValue(c.id) && GoodValue(c.network) && InInt64(c.cpus)
    requires codec.encode(c.osImage).Ok? ==> codec.decode(codec.encode(c.osImage).value) == Ok(c.osImage)
    requires Guard(env, path, InfoCall).None? && Guard(env, path, IsRunningCall).None?
    ensures var (s', r', err) := RefreshSpec(env, UpdateSpec(env, s, path, c, codec).0, path, r, codec);
            err.None? && r'.cfg == c.(memory := RoundUp4(c.memory), headless := r.cfg.headless)
            && r'.status == "running"
    ensures var (s', r', err) := RefreshSpec(env, UpdateSpec(env, s, path, c, codec).0, path, r, codec);
            r.cfg == c && c.memory % 4 == 0 && InInt64(c.memory) ==> r'.cfg == c
  {
    UpdateSucceeded(env, s, path, c, codec);
    UpdateRewrites(env, s, path, c, codec, s.files[path]);
    var s1 := UpdateSpec(env, s, path, c, codec).0;
    var info := UpdateInfo(c, codec.encode(c.osImage).value);
    var got := info.(guestOS := Lookup(Parse(s.files[path]), "guestos"));
    assert InfoStep(env, s1, path).1 == Ok(got) by {
      InfoAfterSetInfo(s.files[path], info);
    }
    RefreshOfInfo(env, s1, path, r, codec, got);
    if c.memory % 4 == 0 && InInt64(c.memory) {
      RoundUp4Aligned(c.memory);
    }
  }

  /**
   * An annotation holding `=` (base64 padding, say) does not survive: after
   * `Update`, `Refresh` decodes the empty string instead of the image.
   */
  lemma RefreshAfterUpdateLosesAnnotation(env: Env, s: Sys, path: string, c: VMConfig, codec: Codec, r: VMRecord)
    requires UpdateSpec(env, s, path, c, codec).1.None?
    requires codec.encode(c.osImage).Ok? ==> '=' in codec.encode(c.osImage).value && '\n' !in codec.encode(c.osImage).value
    requires GoodValue(c.id) && GoodValue(c.network) && InInt64(c.cpus)
    requires Guard(env, path, InfoCall).None? && Guard(env, path, IsRunningCall).None?
    ensures var (s', r', err) := RefreshSpec(env, UpdateSpec(env, s, path, c, codec).0, path, r, codec);
            var image := codec.decode("");
            r'.cfg.id == c.id && r'.cfg.cpus == c.cpus && r'.cfg.memory == RoundUp4(c.memory)
            && (image.Err? ==> err == Some(image.error))
            && (image.Ok? ==> err.None? && r'.cfg.osImage == image.value)
  {
    UpdateSucceeded(env, s, path, c, codec);
    UpdateRewrites(env, s, path, c, codec, s.files[path]);
    var s1 := UpdateSpec(env, s, path, c, codec).0;
    var info := UpdateInfo(c, codec.encode(c.osImage).value);
    AnnotationWithEqualsLost(s.files[path], info);
    var got := info.(annotation := "", guestOS := Lookup(Parse(s.files[path]), "guestos"));
    assert InfoStep(env, s1, path).1 == Ok(got);
    RefreshOfInfo(env, s1, path, r, codec, got);
  }

  // ---------------------------------------------------------------------------
  // Properties of unpackGoldImage and Create

  /** A populated gold directory is used as it is: nothing is downloaded or unpacked. */
  lemma UnpackCached(fetch: Fetch, config: Config, s: Sys, image: Image)
    requires PathJoin(config.goldImgsPath, image.checksum) in s.gold
    ensures UnpackSpec(fetch, config, s, image) == (s, Ok(PathJoin(config.goldImgsPath, image.checksum)))
  {
  }

  /**
   * A missing gold directory is downloaded, then unpacked; it counts as
   * populated afterwards only when unpacking produced files.
   */
  lemma UnpackFetches(fetch: Fetch, config: Config, s: Sys, image: Image)
    requires PathJoin(config.goldImgsPath, image.checksum) !in s.gold
    ensures var goldPath := PathJoin(config.goldImgsPath, image.checksum);
            var imgPath := PathJoin(config.imagesPath, image.checksum);
            var (s', r) := UnpackSpec(fetch, config, s, image);
            s'.running == s.running
            && (r.Ok? ==> r.value == goldPath && fetch.download(imgPath).None? && fetch.unpack(goldPath).Ok?
                          && s'.log == s.log + [Downloaded(imgPath), Unpacked(goldPath)]
                          && s'.files == s.files + fetch.unpack(goldPath).value
                          && (goldPath in s'.gold <==> fetch.unpack(goldPath).value != map[])
                          && s'.gold - {goldPath} == s.gold - {goldPath})
            && (r.Err? ==> s'.files == s.files && s'.gold == s.gold
                           && (s'.log == s.log || s'.log == s.log + [Downloaded(imgPath)]))
  {
  }

  /** Once unpacking produced files, the next unpack of the same image is a cache hit. */
  lemma UnpackOnce(fetch: Fetch, config: Config, s: Sys, image: Image)
    requires UnpackSpec(fetch, config, s, image).1.Ok?
    requires fetch.unpack(PathJoin(config.goldImgsPath, image.checksum)) != Ok(map[])
    ensures var s' := UnpackSpec(fetch, config, s, image).0;
            UnpackSpec(fetch, config, s', image) == (s', UnpackSpec(fetch, config, s, image).1)
  {
    var goldPath := PathJoin(config.goldImgsPath, image.checksum);
    if goldPath !in s.gold {
      UnpackFetches(fetch, config, s, image);
    }
    UnpackCached(fetch, config, UnpackSpec(fetch, config, s, image).0, image);
  }

  /** Without a gold `.vmx` file `Create` fails before it calls the hypervisor. */
  lemma CreateNoGoldVmx(env: Env, fetch: Fetch, config: Config, s: Sys, path: string, c: VMConfig, codec: Codec)
    requires UnpackSpec(fetch, config, s, c.osImage).1.Ok?
    ensures var (s1, gold) := UnpackSpec(fetch, config, s, c.osImage);
            CreateSpec(env, fetch, config, s, path, c, [], codec) ==
            (s1, c, Some(GoldNotFound(PathJoin(gold.value, "**.vmx"))))
  {
  }

  /**
   * A successful `Create` of a new machine: it checks for the file, clones the
   * first gold `.vmx` as a linked clone, and runs its `Update` plan on the
   * clone; the configuration has the defaults applied.
   */
  lemma CreateClones(env: Env, fetch: Fetch, config: Config, s: Sys, s1: Sys, gold: string, path: string, c: VMConfig,
                     matches: seq<string>, codec: Codec)
    requires |matches| > 0
    requires UnpackSpec(fetch, config, s, c.osImage) == (s1, Ok(gold)) && path !in s1.files
    requires CreateSpec(env, fetch, config, s, path, c, matches, codec).2.None?
    ensures var (s', c', err) := CreateSpec(env, fetch, config, s, path, c, matches, codec);
            var d := WithDefaults(c);
            c' == d && matches[0] in s1.files && codec.encode(d.osImage).Ok? && path in s'.running
  {
    EnsureCloneEffect(env, s1, path, matches[0]);
    CreateRunsUpdate(env, fetch, config, s, s1, gold, path, c, matches, codec);
    UpdateSucceeded(env, EnsureClone(env, s1, path, matches[0]).0, path, WithDefaults(c), codec);
  }

  /** The new machine's file is the gold `.vmx` with the summary of the defaulted configuration pushed. */
  lemma CreateClonesFile(env: Env, fetch: Fetch, config: Config, s: Sys, s1: Sys, gold: string, path: string,
                         c: VMConfig, matches: seq<string>, codec: Codec)
    requires |matches| > 0
    requires UnpackSpec(fetch, config, s, c.osImage) == (s1, Ok(gold)) && path !in s1.files
    requires CreateSpec(env, fetch, config, s, path, c, matches, codec).2.None?
    ensures var s' := CreateSpec(env, fetch, config, s, path, c, matches, codec).0;
            var d := WithDefaults(c);
            matches[0] in s1.files && codec.encode(d.osImage).Ok?
            && s'.files == s1.files[path := SetInfoText(s1.files[matches[0]], UpdateInfo(d, codec.encode(d.osImage).value))]
  {
    EnsureCloneEffect(env, s1, path, matches[0]);
    var s2 := EnsureClone(env, s1, path, matches[0]).0;
    var d := WithDefaults(c);
    CreateRunsUpdate(env, fetch, config, s, s1, gold, path, c, matches, codec);
    UpdateRewrites(env, s2, path, d, codec, s1.files[matches[0]]);
    OverwriteTwice(s1.files, path, s1.files[matches[0]],
                   SetInfoText(s1.files[matches[0]], UpdateInfo(d, codec.encode(d.osImage).value)));
  }

  lemma OverwriteTwice(m: map<string, string>, k: string, v: string, w: string)
    ensures m[k := v][k := w] == m[k := w]
  {
  }


  /** A successful `Create` got past its clone step, and then was the `Update` of the configuration with defaults. */
  lemma CreateRunsUpdate(env: Env, fetch: Fetch, config: Config, s: Sys, s1: Sys, gold: string, path: string,
                         c: VMConfig, matches: seq<string>, codec: Codec)
    requires |matches| > 0 && UnpackSpec(fetch, config, s, c.osImage) == (s1, Ok(gold))
    requires CreateSpec(env, fetch, config, s, path, c, matches, codec).2.None?
    ensures EnsureClone(env, s1, path, matches[0]).1.None?
    ensures var (s3, err) := UpdateSpec(env, EnsureClone(env, s1, path, matches[0]).0, path, WithDefaults(c), codec);
            CreateSpec(env, fetch, config, s, path, c, matches, codec) == (s3, WithDefaults(c), err)
  {
  }


  /** The calls a successful `Create` of a new machine makes, in order. */
  lemma CreateClonesTrace(env: Env, fetch: Fetch, config: Config, s: Sys, s1: Sys, gold: string, path: string, c: VMConfig,
                          matches: seq<string>, codec: Codec)
    requires |matches| > 0
    requires UnpackSpec(fetch, config, s, c.osImage) == (s1, Ok(gold)) && path !in s1.files
    requires CreateSpec(env, fetch, config, s, path, c, matches, codec).2.None?
    ensures var s' := CreateSpec(env, fetch, config, s, path, c, matches, codec).0;
            var d := WithDefaults(c);
            s'.log == s1.log + [Invoked(path, ExistsCall), Invoked(path, CloneFromCall(matches[0], CloneLinked))]
                      + Invocations(path, UpdatePlan(path in s1.running, d, codec.encode(d.osImage)))
  {
    EnsureCloneEffect(env, s1, path, matches[0]);
    var s2 := EnsureClone(env, s1, path, matches[0]).0;
    CreateRunsUpdate(env, fetch, config, s, s1, gold, path, c, matches, codec);
    UpdateFollowsPlan(env, s2, path, WithDefaults(c), codec);
  }

  /**
   * A successful `EnsureClone` only checked an existing file, or checked and
   * copied the gold `.vmx` to a missing one.
   */
  lemma EnsureCloneEffect(env: Env, s: Sys, path: string, src: string)
    ensures var (s', err) := EnsureClone(env, s, path, src);
            err.None? ==>
              s'.running == s.running && s'.gold == s.gold
              && (path in s.files ==> s'.files == s.files && s'.log == s.log + [Invoked(path, ExistsCall)])
              && (path !in s.files ==> src in s.files && s'.files == s.files[path := s.files[src]]
                                       && s'.log == s.log + [Invoked(path, ExistsCall), Invoked(path, CloneFromCall(src, CloneLinked))])
  {
  }

  /** `Create` of a machine whose file exists does not clone: it runs the `Update` plan on that file. */
  lemma CreateKeepsExisting(env: Env, fetch: Fetch, config: Config, s: Sys, s1: Sys, gold: string, path: string, c: VMConfig,
                            matches: seq<string>, codec: Codec)
    requires |matches| > 0
    requires UnpackSpec(fetch, config, s, c.osImage) == (s1, Ok(gold)) && path in s1.files
    requires CreateSpec(env, fetch, config, s, path, c, matches, codec).2.None?
    ensures var (s', c', err) := CreateSpec(env, fetch, config, s, path, c, matches, codec);
            var d := WithDefaults(c);
            c' == d && codec.encode(d.osImage).Ok?
            && s'.files == s1.files[path := SetInfoText(s1.files[path], UpdateInfo(d, codec.encode(d.osImage).value))]
            && path in s'.running
            && s'.log == s1.log + [Invoked(path, ExistsCall)]
                         + Invocations(path, UpdatePlan(path in s1.running, d, codec.encode(d.osImage)))
  {
    EnsureCloneEffect(env, s1, path, matches[0]);
    var s2 := EnsureClone(env, s1, path, matches[0]).0;
    CreateRunsUpdate(env, fetch, config, s, s1, gold, path, c, matches, codec);
    UpdateSucceeded(env, s2, path, WithDefaults(c), codec);
    UpdateRewrites(env, s2, path, WithDefaults(c), codec, s1.files[path]);
    UpdateFollowsPlan(env, s2, path, WithDefaults(c), codec);
  }

  // ---------------------------------------------------------------------------
  // Properties of Destroy

  /**
   * `Destroy` fails only when the power query or the stop fails; once the
   * machine is off, its Delete is tried and the directory is removed whatever
   * Delete reports. The stop always comes before the Delete.
   */
  lemma DestroyTrace(env: Env, config: Config, s: Sys, path: string, id: string)
    ensures var (s', err) := DestroySpec(env, config, s, path, id);
            (err.None? <==> PowerOff(env, s, path).1.None?)
            && (err.None? ==> s'.log == s.log + Invocations(path, PowerOffPlan(path in s.running) + [DeleteCall])
                                        + (if id != "" then [RemovedAll(PathJoin(config.vmsPath, id))] else []))
  {
    var (s1, err1) := PowerOff(env, s, path);
    var n := PowerOffCalls(env, s, path);
    var plan := PowerOffPlan(path in s.running);
    if err1.None? {
      assert plan[..n] == plan;
      InvocationsAppend(path, plan, [DeleteCall]);
    }
  }

  /**
   * A failed power query or stop returns from `Destroy` before the Delete:
   * no Delete is invoked, no directory is removed, and no file changes.
   */
  lemma DestroyFailsBeforeDelete(env: Env, config: Config, s: Sys, path: string, id: string)
    requires DestroySpec(env, config, s, path, id).1.Some?
    ensures var (s', err) := DestroySpec(env, config, s, path, id);
            err == PowerOff(env, s, path).1 && s'.files == s.files && s'.running == s.running
            && (exists n :: 0 < n <= |PowerOffPlan(path in s.running)| &&
                  s'.log == s.log + Invocations(path, PowerOffPlan(path in s.running)[..n]))
            && Invoked(path, DeleteCall) !in s'.log[|s.log|..]
            && forall d :: RemovedAll(d) !in s'.log[|s.log|..]
  {
    var (s', err) := DestroySpec(env, config, s, path, id);
    var n := PowerOffCalls(env, s, path);
    assert s'.log[|s.log|..] == Invocations(path, PowerOffPlan(path in s.running)[..n]);
  }

  /**
   * After a successful `Destroy` of a machine with an ID, nothing is left in
   * its directory, it is not running, and every file outside that directory
   * is as it was.
   */
  lemma DestroyRemoves(env: Env, config: Config, s: Sys, id: string)
    requires config.vmsPath != "" && id != ""
    requires DestroySpec(env, config, s, VMXFile(config, id), id).1.None?
    ensures var dir := config.vmsPath + "/" + id;
            var s' := DestroySpec(env, config, s, VMXFile(config, id), id).0;
            VMXFile(config, id) !in s'.files && VMXFile(config, id) !in s'.running
            && (forall k :: k in s'.files ==> k != dir && !HasPrefix(k, dir + "/"))
            && (forall k :: k != dir && !HasPrefix(k, dir + "/") ==>
                  (k in s'.files <==> k in s.files) && (k in s.files ==> s'.files[k] == s.files[k]))
  {
    var path := VMXFile(config, id);
    var dir := config.vmsPath + "/" + id;
    assert path == dir + "/" + id + ".vmx";
    assert HasPrefix(path, dir + "/") by {
      assert path[..|dir + "/"|] == dir + "/";
    }
    var (s1, err1) := PowerOff(env, s, path);
    var _ := PowerOffCalls(env, s, path);
  }

  // ---------------------------------------------------------------------------
  // Properties of FindVM

  /** A machine without a `.vmx` file is not found, and that is not an error. */
  lemma FindMissing(env: Env, config: Config, s: Sys, id: string, codec: Codec)
    requires Guard(env, VMXFile(config, id), ExistsCall).None? && VMXFile(config, id) !in s.files
    ensures FindSpec(env, config, s, id, codec) == (Record(s, VMXFile(config, id), ExistsCall), None, None)
  {
  }

  /**
   * A machine that `Update` configured is found with that configuration (the
   * memory rounded, not headless since that is not stored), running.
   */
  lemma FindAfterUpdate(env: Env, config: Config, s: Sys, c: VMConfig, codec: Codec)
    requires UpdateSpec(env, s, VMXFile(config, c.id), c, codec).1.None?
    requires codec.encode(c.osImage).Ok? ==> GoodValue(codec.encode(c.osImage).value)
    requires GoodValue(c.id) && GoodValue(c.network) && InInt64(c.cpus)
    requires codec.encode(c.osImage).Ok? ==> codec.decode(codec.encode(c.osImage).value) == Ok(c.osImage)
    requires var path := VMXFile(config, c.id);
             Guard(env, path, ExistsCall).None? && Guard(env, path, InfoCall).None? && Guard(env, path, IsRunningCall).None?
    ensures var (s', r, err) := FindSpec(env, config, UpdateSpec(env, s, VMXFile(config, c.id), c, codec).0, c.id, codec);
            var path := VMXFile(config, c.id);
            var ip := if Guard(env, path, IPAddressCall).None? then env.ip(path) else "";
            err.None? && r == Some(VMRecord(c.(memory := RoundUp4(c.memory), headless := false), ip, "running"))
  {
    var path := VMXFile(config, c.id);
    UpdateSucceeded(env, s, path, c, codec);
    UpdateRewrites(env, s, path, c, codec, s.files[path]);
    var s1 := UpdateSpec(env, s, path, c, codec).0;
    var s2 := Record(s1, path, ExistsCall);
    var info := UpdateInfo(c, codec.encode(c.osImage).value);
    var got := info.(guestOS := Lookup(Parse(s.files[path]), "guestos"));
    assert InfoStep(env, s2, path).1 == Ok(got) by {
      InfoAfterSetInfo(s.files[path], info);
    }
    RefreshOfInfo(env, s2, path, Blank(c.id), codec, got);
  }
}
