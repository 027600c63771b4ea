/**
 * The HTTP handlers of the `vms` package, as decisions: which error or
 * status a request gets, how a new machine ID is made, what the callback of a
 * creation posts, and the background completion of a creation (run here
 * after the response, one step after the other).
 */
module VmsWeb {
  import opened Wrappers
  import opened GoStrings
  import opened Vms
  import opened MockVMware
  import opened VmsErrors
  import opened Vmx
  import opened GoStrconv

  newtype byte = x: int | 0 <= x < 256

  // ---------------------------------------------------------------------------
  // The machine ID: `fmt.Sprintf("%x", b)` of the random bytes

  const HexDigits := "0123456789abcdef"

  predicate IsHexDigit(c: char)
  {
    '0' <= c <= '9' || 'a' <= c <= 'f'
  }

  /** Two lower-case hex digits per byte, high nibble first. */
  function Hex(b: seq<byte>): (s: string)
    ensures |s| == 2 * |b|
    ensures forall i :: 0 <= i < |s| ==> IsHexDigit(s[i])
  {
    if |b| == 0 then ""
    else
      var first := [HexDigits[b[0] as int / 16], HexDigits[b[0] as int % 16]];
      first + Hex(b[1..])
  }

  function DigitValue(c: char): (n: int)
    requires IsHexDigit(c)
    ensures 0 <= n < 16 && HexDigits[n] == c
  {
    if c <= '9' then c as int - '0' as int else c as int - 'a' as int + 10
  }

  /** The inverse of `Hex`: bytes from pairs of hex digits. */
  function Unhex(s: string): (r: Option<seq<byte>>)
    decreases |s|
  {
    if |s| == 0 then Some([])
    else if |s| == 1 || !IsHexDigit(s[0]) || !IsHexDigit(s[1]) then None
    else
      match Unhex(s[2..])
      case None => None
      case Some(rest) => Some([(DigitValue(s[0]) * 16 + DigitValue(s[1])) as byte] + rest)
  }

  lemma DigitOfHexDigit(n: int)
    requires 0 <= n < 16
    ensures DigitValue(HexDigits[n]) == n
  {
  }

  /** Reading the hex text back gives the bytes: the ID loses nothing. */
  lemma {:induction false} UnhexHex(b: seq<byte>)
    ensures Unhex(Hex(b)) == Some(b)
  {
    if |b| > 0 {
      var s := Hex(b);
      var hi := b[0] as int / 16;
      var lo := b[0] as int % 16;
      assert s[0] == HexDigits[hi] && s[1] == HexDigits[lo] && s[2..] == Hex(b[1..]);
      DigitOfHexDigit(hi);
      DigitOfHexDigit(lo);
      UnhexHex(b[1..]);
      assert [b[0]] + b[1..] == b;
    }
  }

  /** Different random bytes give different IDs. */
  lemma HexInjective(a: seq<byte>, b: seq<byte>)
    requires Hex(a) == Hex(b)
    ensures a == b
  {
    UnhexHex(a);
    UnhexHex(b);
  }

  /** The ten random bytes make an ID of exactly twenty lower-case hex digits. */
  lemma NewIDShape(b: seq<byte>)
    requires |b| == 10
    ensures |Hex(b)| == 20 && forall i :: 0 <= i < 20 ==> IsHexDigit(Hex(b)[i])
  {
  }

  // ---------------------------------------------------------------------------
  // Responses

  /** What a response carries: an error, a machine record, or nothing. */
  datatype Body = ErrorBody(err: AppError) | RecordBody(rec: VMRecord) | NoBody

  datatype Response = Response(status: int, body: Body)

  function ErrorResponse(e: AppError): (r: Response)
    ensures r.status == e.httpStatus && r.body == ErrorBody(e)
  {
    Response(e.httpStatus, ErrorBody(e))
  }

  /** `CreateVMParams`: the configuration, a bootstrap script and the callback URL. */
  datatype CreateParams = CreateParams(cfg: VMConfig, bootstrapScript: string, callbackURL: string)

  /**
   * `CreateVM` before the background work: the body read, the JSON decoded,
   * ten random bytes drawn. The accepted parameters carry the fresh ID.
   */
  function CreateDecision(body: Result<string>, unmarshal: string -> Result<CreateParams>,
                          random: Result<seq<byte>>): (r: (Response, Option<CreateParams>))
    ensures body.Err? ==> r == (ErrorResponse(ErrReadingReqBody), None)
    ensures body.Ok? && unmarshal(body.value).Err? ==> r == (ErrorResponse(ErrParsingJSON), None)
    ensures body.Ok? && unmarshal(body.value).Ok? && random.Err? ==> r == (ErrorResponse(ErrInternal), None)
    ensures r.1.Some? <==> body.Ok? && unmarshal(body.value).Ok? && random.Ok?
    ensures r.1.Some? ==>
              var p := unmarshal(body.value).value;
              r.1.value == p.(cfg := p.cfg.(id := Hex(random.value)))
              && r.0 == Response(StatusAccepted, RecordBody(VMRecord(r.1.value.cfg, "", "")))
  {
    match body
    case Err(_) => (ErrorResponse(ErrReadingReqBody), None)
    case Ok(text) =>
      match unmarshal(text)
      case Err(_) => (ErrorResponse(ErrParsingJSON), None)
      case Ok(params) =>
        match random
        case Err(_) => (ErrorResponse(ErrInternal), None)
        case Ok(b) =>
          var p := params.(cfg := params.cfg.(id := Hex(b)));
          (Response(StatusAccepted, RecordBody(VMRecord(p.cfg, "", ""))), Some(p))
  }

  /** Whatever ID the body named, an accepted request runs under the one drawn from the random bytes. */
  lemma CreateOverridesID(body: Result<string>, unmarshal: string -> Result<CreateParams>, random: Result<seq<byte>>)
    requires CreateDecision(body, unmarshal, random).1.Some? && |random.value| == 10
    ensures var p := CreateDecision(body, unmarshal, random).1.value;
            p.cfg.id == Hex(random.value) && |p.cfg.id| == 20 && Unhex(p.cfg.id) == Some(random.value)
  {
    UnhexHex(random.value);
  }

  /** `path.Base`: the last slash-separated element, ignoring trailing slashes. */
  function PathBase(p: string): (r: string)
    ensures r != ""
    ensures r == "/" || '/' !in r
  {
    if p == "" then "."
    else
      var q := TrimTrailingSlashes(p);
      if q == "" then "/" else AfterLastSlash(q)
  }

  function TrimTrailingSlashes(p: string): (q: string)
    ensures |q| <= |p| && q == p[..|q|]
    ensures q == "" || q[|q| - 1] != '/'
    ensures forall i :: |q| <= i < |p| ==> p[i] == '/'
  {
    if p == "" || p[|p| - 1] != '/' then p else TrimTrailingSlashes(p[..|p| - 1])
  }

  /** The text after the last `/`; `p` ends in something other than `/`. */
  function AfterLastSlash(p: string): (r: string)
    requires p != "" && p[|p| - 1] != '/'
    ensures r != "" && '/' !in r
    ensures |r| <= |p| && r == p[|p| - |r|..]
    ensures |r| < |p| ==> p[|p| - |r| - 1] == '/'
  {
    if |p| == 1 then p
    else if p[|p| - 2] == '/' then [p[|p| - 1]]
    else AfterLastSlash(p[..|p| - 1]) + [p[|p| - 1]]
  }

  /** The ID handlers read from `/vms/<id>` is `<id>`. */
  lemma {:induction false} PathBaseOfSegment(prefix: string, id: string)
    requires id != "" && '/' !in id
    ensures PathBase(prefix + "/" + id) == id
  {
    var p := prefix + "/" + id;
    assert p[|p| - 1] == id[|id| - 1];
    AfterLastSlashOf(prefix + "/", id);
  }

  lemma {:induction false} AfterLastSlashOf(head: string, id: string)
    requires head != "" && head[|head| - 1] == '/'
    requires id != "" && '/' !in id
    ensures AfterLastSlash(head + id) == id
  {
    var p := head + id;
    assert p[|p| - 1] == id[|id| - 1];
    if |id| == 1 {
      assert p[|p| - 2] == '/';
    } else {
      assert p[|p| - 2] == id[|id| - 2];
      assert p[..|p| - 1] == head + id[..|id| - 1];
      AfterLastSlashOf(head, id[..|id| - 1]);
      assert id[..|id| - 1] + [id[|id| - 1]] == id;
    }
  }

  /** The ID is the last segment whatever slashes follow it. */
  lemma PathBaseIgnoresTrailingSlash(p: string)
    requires p != "" && p != "/"
    ensures PathBase(p + "/") == PathBase(p)
  {
    var q := p + "/";
    assert q[..|q| - 1] == p;
  }

  /** `GetVM` after `FindVM`. */
  function GetResponse(found: Option<VMRecord>, err: Option<string>): (r: Response)
    ensures err.Some? ==> r == ErrorResponse(ErrOpeningVM)
    ensures err.None? && found.None? ==> r == ErrorResponse(ErrVMNotFound)
    ensures err.None? && found.Some? ==> r == Response(StatusOK, RecordBody(found.value))
  {
    if err.Some? then ErrorResponse(ErrOpeningVM)
    else if found.None? then ErrorResponse(ErrVMNotFound)
    else Response(StatusOK, RecordBody(found.value))
  }

  /** `DestroyVM` after `FindVM` and, for a found machine, `Destroy`. */
  function DestroyResponse(found: Option<VMRecord>, err: Option<string>, destroyErr: Option<string>): (r: Response)
    ensures err.Some? ==> r == ErrorResponse(ErrOpeningVM)
    ensures err.None? && found.None? ==> r == ErrorResponse(ErrVMNotFound)
    ensures err.None? && found.Some? && destroyErr.Some? ==> r == ErrorResponse(ErrInternal)
    ensures err.None? && found.Some? && destroyErr.None? ==> r == Response(StatusNoContent, NoBody)
  {
    if err.Some? then ErrorResponse(ErrOpeningVM)
    else if found.None? then ErrorResponse(ErrVMNotFound)
    else if destroyErr.Some? then ErrorResponse(ErrInternal)
    else Response(StatusNoContent, NoBody)
  }

  // ---------------------------------------------------------------------------
  // The callback

  /** What a callback can carry. */
  datatype Payload = ErrorPayload(err: AppError) | VMPayload(rec: VMRecord)

  /** One POST of JSON data to a URL. */
  datatype Post = Post(url: string, data: string)

  /**
   * `sendResult`: nothing without a URL; otherwise one post of the value's
   * JSON, or of the marshalling error's when the value does not marshal.
   */
  function SendResult(url: string, value: Payload, marshal: Payload -> Result<string>): (r: Option<Post>)
    ensures url == "" ==> r.None?
    ensures r.Some? ==> r.value.url == url
    ensures url != "" && marshal(value).Ok? ==> r == Some(Post(url, marshal(value).value))
    ensures url != "" && marshal(value).Err? && marshal(ErrorPayload(ErrCbURL)).Ok? ==>
              r == Some(Post(url, marshal(ErrorPayload(ErrCbURL)).value))
    ensures r.None? ==> url == "" || (marshal(value).Err? && marshal(ErrorPayload(ErrCbURL)).Err?)
  {
    if url == "" then None
    else
      match marshal(value)
      case Ok(data) => Some(Post(url, data))
      case Err(_) =>
        match marshal(ErrorPayload(ErrCbURL))
        case Ok(data) => Some(Post(url, data))
        case Err(_) => None
  }

  /**
   * The background completion of a creation: `Create`; on failure the
   * creation error is posted; on success, one `Refresh` when the address is
   * still unknown, then the machine is posted.
   */
  ghost function CompletionSpec(env: Env, fetch: Fetch, config: Config, s: Sys, path: string, r: VMRecord,
                                matches: seq<string>, codec: Codec, url: string,
                                marshal: Payload -> Result<string>): (Sys, VMRecord, Option<Post>)
  {
    var (s1, c1, err) := CreateSpec(env, fetch, config, s, path, r.cfg, matches, codec);
    var r1 := r.(cfg := c1);
    if err.Some? then (s1, r1, SendResult(url, ErrorPayload(ErrCreatingVM), marshal))
    else if r1.ipAddress == "" then
      var (s2, r2, _) := RefreshSpec(env, s1, path, r1, codec);
      (s2, r2, SendResult(url, VMPayload(r2), marshal))
    else (s1, r1, SendResult(url, VMPayload(r1), marshal))
  }

  /** A failed creation posts the creation error and refreshes nothing. */
  lemma CompletionReportsFailure(env: Env, fetch: Fetch, config: Config, s: Sys, path: string, r: VMRecord,
                                 matches: seq<string>, codec: Codec, url: string, marshal: Payload -> Result<string>)
    requires CreateSpec(env, fetch, config, s, path, r.cfg, matches, codec).2.Some?
    ensures var (s', r', post) := CompletionSpec(env, fetch, config, s, path, r, matches, codec, url, marshal);
            s' == CreateSpec(env, fetch, config, s, path, r.cfg, matches, codec).0
            && post == SendResult(url, ErrorPayload(ErrCreatingVM), marshal)
  {
  }

  /**
   * A successful creation of a machine with no address yet is refreshed once:
   * what is posted is the record `Refresh` produced, whatever `Refresh` reported.
   */
  lemma CompletionRefreshesOnce(env: Env, fetch: Fetch, config: Config, s: Sys, path: string, r: VMRecord,
                                matches: seq<string>, codec: Codec, url: string, marshal: Payload -> Result<string>)
    requires CreateSpec(env, fetch, config, s, path, r.cfg, matches, codec).2.None?
    ensures var (s1, c1, _) := CreateSpec(env, fetch, config, s, path, r.cfg, matches, codec);
            var (s', r', post) := CompletionSpec(env, fetch, config, s, path, r, matches, codec, url, marshal);
            var (s2, r2, _) := RefreshSpec(env, s1, path, r.(cfg := c1), codec);
            (r.ipAddress == "" ==> s' == s2 && r' == r2 && post == SendResult(url, VMPayload(r2), marshal))
            && (r.ipAddress != "" ==> s' == s1 && r' == r.(cfg := c1) && post == SendResult(url, VMPayload(r'), marshal))
  {
  }

  /**
   * A successful creation of a new machine posts the record read back from
   * its `.vmx` file: the defaulted configuration (memory rounded to a multiple
   * of four), running.
   */
  lemma CompletionPostsCreatedMachine(env: Env, fetch: Fetch, config: Config, s: Sys, path: string, r: VMRecord,
                                      matches: seq<string>, codec: Codec, url: string,
                                      marshal: Payload -> Result<string>)
    requires CreateSpec(env, fetch, config, s, path, r.cfg, matches, codec).2.None?
    requires r.ipAddress == ""
    requires GoodValue(r.cfg.id) && GoodValue(r.cfg.network) && InInt64(r.cfg.cpus)
    requires codec.encode(r.cfg.osImage).Ok? ==>
               GoodValue(codec.encode(r.cfg.osImage).value)
               && codec.decode(codec.encode(r.cfg.osImage).value) == Ok(r.cfg.osImage)
    requires Guard(env, path, InfoCall).None? && Guard(env, path, IsRunningCall).None?
    ensures var (s', r', post) := CompletionSpec(env, fetch, config, s, path, r, matches, codec, url, marshal);
            var d := WithDefaults(r.cfg);
            r'.cfg == d.(memory := RoundUp4(d.memory)) && r'.status == "running"
            && post == SendResult(url, VMPayload(r'), marshal)
  {
    var (s1, gold) := UnpackSpec(fetch, config, s, r.cfg.osImage);
    assert gold.Ok? && |matches| > 0;
    CreateRunsUpdate(env, fetch, config, s, s1, gold.value, path, r.cfg, matches, codec);
    var d := WithDefaults(r.cfg);
    var s2 := EnsureClone(env, s1, path, matches[0]).0;
    RefreshAfterUpdate(env, s2, path, d, codec, r.(cfg := d));
  }

  // ---------------------------------------------------------------------------
  // The handlers on the objects

  /** `CreateVM`: the response, and the new machine and parameters when accepted. */
  method CreateVM(config: Config, host: Host, body: Result<string>, unmarshal: string -> Result<CreateParams>,
                  random: Result<seq<byte>>) returns (resp: Response, job: Option<(VM, CreateParams)>)
    ensures var (d, p) := CreateDecision(body, unmarshal, random);
            resp == d && (job.Some? <==> p.Some?)
            && (job.Some? ==> job.value.1 == p.value && fresh(job.value.0)
                              && job.value.0.Record() == VMRecord(p.value.cfg, "", "")
                              && job.value.0.config == config && job.value.0.backend.host == host
                              && job.value.0.backend.vmxPath == VMXFile(config, p.value.cfg.id))
  {
    var decision := CreateDecision(body, unmarshal, random);
    resp := decision.0;
    if decision.1.None? {
      return resp, None;
    }
    var params := decision.1.value;
    var vm := new VM(config, params.cfg, host);
    job := Some((vm, params));
  }

  /** The goroutine of `CreateVM`, run to its end. */
  method Complete(vm: VM, fetch: Fetch, matches: seq<string>, codec: Codec, url: string,
                  marshal: Payload -> Result<string>) returns (post: Option<Post>)
    modifies vm, vm.backend.host
    ensures (vm.backend.host.State(), vm.Record(), post) ==
            CompletionSpec(vm.backend.host.env, fetch, vm.config, old(vm.backend.host.State()), vm.backend.vmxPath,
                           old(vm.Record()), matches, codec, url, marshal)
  {
    var err := vm.Create(fetch, matches, codec);
    if err.Some? {
      post := SendResult(url, ErrorPayload(ErrCreatingVM), marshal);
      return;
    }
    if vm.ipAddress == "" {
      var _ := vm.Refresh(codec);
    }
    post := SendResult(url, VMPayload(VMRecord(vm.cfg, vm.ipAddress, vm.status)), marshal);
  }

  /** `GetVM`: the record of the machine named by the last path segment. */
  method GetVM(config: Config, host: Host, urlPath: string, codec: Codec) returns (resp: Response)
    modifies host
    ensures var (s, r, e) := FindSpec(host.env, config, old(host.State()), PathBase(urlPath), codec);
            host.State() == s && resp == GetResponse(r, e)
  {
    var vm, err := FindVM(config, PathBase(urlPath), host, codec);
    resp := GetResponse(if vm.Some? then Some(VMRecord(vm.value.cfg, vm.value.ipAddress, vm.value.status)) else None, err);
  }

  /** `DestroyVM`: find the machine named by the last path segment, then destroy it. */
  method DestroyVM(config: Config, host: Host, urlPath: string, codec: Codec) returns (resp: Response)
    modifies host
    ensures var (s1, r, e) := FindSpec(host.env, config, old(host.State()), PathBase(urlPath), codec);
            if e.Some? || r.None? then host.State() == s1 && resp == DestroyResponse(r, e, None)
            else
              var (s2, de) := DestroySpec(host.env, config, s1, VMXFile(config, PathBase(urlPath)), r.value.cfg.id);
              host.State() == s2 && resp == DestroyResponse(r, e, de)
  {
    ghost var found := FindSpec(host.env, config, old(host.State()), PathBase(urlPath), codec);
    var vm, err := FindVM(config, PathBase(urlPath), host, codec);
    if err.Some? || vm.None? {
      resp := DestroyResponse(if vm.Some? then Some(VMRecord(vm.value.cfg, vm.value.ipAddress, vm.value.status)) else None, err, None);
      return;
    }
    var v := vm.value;
    var rec := VMRecord(v.cfg, v.ipAddress, v.status);
    assert found.1 == Some(rec) && found.2 == err && host.State() == found.0;
    ghost var s1 := host.State();
    var destroyErr := v.Destroy();
    assert (host.State(), destroyErr) == DestroySpec(host.env, config, s1, VMXFile(config, PathBase(urlPath)), rec.cfg.id);
    assert v.cfg == rec.cfg && v.ipAddress == rec.ipAddress && v.status == rec.status;
    resp := DestroyResponse(Some(rec), err, destroyErr);
  }

  /** Destroying a machine whose file is missing answers 404 and calls nothing but the existence check. */
  lemma DestroyMissing(env: Env, config: Config, s: Sys, urlPath: string, codec: Codec)
    requires Guard(env, VMXFile(config, PathBase(urlPath)), ExistsCall).None?
    requires VMXFile(config, PathBase(urlPath)) !in s.files
    ensures var (s1, r, e) := FindSpec(env, config, s, PathBase(urlPath), codec);
            DestroyResponse(r, e, None) == ErrorResponse(ErrVMNotFound)
            && s1 == Record(s, VMXFile(config, PathBase(urlPath)), ExistsCall)
  {
    FindMissing(env, config, s, PathBase(urlPath), codec);
  }
}
