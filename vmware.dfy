/**
 * Types shared by the hypervisor adapters (network and clone kinds, the
 * machine summary `VMInfo`) and the pure part of `runAndLog`: how a finished
 * `vmrun` process becomes its returned output and error.
 */
module VMware {
  import opened Wrappers
  import opened GoStrings

  /** A network mode; the three the code names are below, any other text is passed through. */
  type NetworkType = string

  const NetworkHostOnly: NetworkType := "hostonly"
  const NetworkNAT: NetworkType := "nat"
  const NetworkBridged: NetworkType := "bridged"

  datatype CloneType = CloneFull | CloneLinked
  {
    /** The argument `vmrun clone` receives. */
    function Name(): (s: string)
      ensures s == "full" || s == "linked"
    {
      match this
      case CloneFull => "full"
      case CloneLinked => "linked"
    }
  }

  /** The properties of a machine that are configured and read back. */
  datatype VMInfo = VMInfo(
    name: string,
    annotation: string,
    memorySize: int,
    cpus: int,
    guestOS: string,
    networkType: NetworkType)

  // ---------------------------------------------------------------------------
  // The outcome of one vmrun process

  /** How the process ended: exit status zero, a non-zero exit, or a failure to run at all. */
  datatype ExitStatus = Exited | ExitError | RunFailure(message: string)

  /** What the process wrote and how it ended. */
  datatype Run = Run(stdout: string, stderr: string, status: ExitStatus)

  /** What `runAndLog` returns. */
  datatype RunOutput = RunOutput(stdout: string, stderr: string, err: Option<string>)

  const ErrorPrefix: string := "[VMWare] error: "

  /** The message of a non-zero exit: trimmed stderr, or trimmed stdout when stderr is blank. */
  function ExitErrorMessage(stdout: string, stderr: string): (m: string)
    ensures HasPrefix(m, ErrorPrefix)
    ensures TrimSpace(stderr) != "" ==> m == ErrorPrefix + TrimSpace(stderr)
    ensures TrimSpace(stderr) == "" ==> m == ErrorPrefix + TrimSpace(stdout)
  {
    var message := TrimSpace(stderr);
    var message' := if message == "" then TrimSpace(stdout) else message;
    assert (ErrorPrefix + message')[..|ErrorPrefix|] == ErrorPrefix;
    ErrorPrefix + message'
  }

  /** `runAndLog` after the process has finished. */
  function RunAndLog(run: Run): (out: RunOutput)
    ensures out.err.None? <==> run.status.Exited?
    ensures run.status.RunFailure? ==> out.err == Some(run.status.message)
    ensures run.status.ExitError? ==> out.err == Some(ExitErrorMessage(run.stdout, run.stderr))
    ensures out.stdout == ReplaceCRLF(run.stdout) && out.stderr == ReplaceCRLF(run.stderr)
  {
    var err := match run.status
      case Exited => None
      case ExitError => Some(ExitErrorMessage(run.stdout, run.stderr))
      case RunFailure(m) => Some(m);
    RunOutput(ReplaceCRLF(run.stdout), ReplaceCRLF(run.stderr), err)
  }

  /** A blank exit-error message is the prefix alone. */
  lemma BlankExitMessage(stdout: string, stderr: string)
    requires TrimSpace(stdout) == "" && TrimSpace(stderr) == ""
    ensures RunAndLog(Run(stdout, stderr, ExitError)).err == Some("[VMWare] error: ")
  {
    assert ErrorPrefix + "" == ErrorPrefix;
  }

  // ---------------------------------------------------------------------------
  // strings.Replace(s, "\r\n", "\n", -1)

  /** Left-to-right replacement of every non-overlapping `\r\n` by `\n`. */
  function ReplaceCRLF(s: string): string
  {
    if |s| >= 2 && s[0] == '\r' && s[1] == '\n' then "\n" + ReplaceCRLF(s[2..])
    else if |s| == 0 then ""
    else [s[0]] + ReplaceCRLF(s[1..])
  }

  predicate CRLFAt(s: string, i: int)
  {
    0 <= i && i + 1 < |s| && s[i] == '\r' && s[i + 1] == '\n'
  }

  /** An independent reading of the rewrite: drop each `\r` that a `\n` follows, keep everything else. */
  function DropCRBeforeLF(s: string): string
  {
    if |s| == 0 then ""
    else (if CRLFAt(s, 0) then "" else [s[0]]) + DropCRBeforeLF(s[1..])
  }

  lemma {:induction false} ReplaceIsDrop(s: string)
    ensures ReplaceCRLF(s) == DropCRBeforeLF(s)
    decreases |s|
  {
    if |s| >= 2 && s[0] == '\r' && s[1] == '\n' {
      ReplaceIsDrop(s[2..]);
      assert s[1..][1..] == s[2..];
      assert !CRLFAt(s[1..], 0);
    } else if |s| > 0 {
      ReplaceIsDrop(s[1..]);
    }
  }

  function CountLF(s: string): nat
  {
    if |s| == 0 then 0 else (if s[0] == '\n' then 1 else 0) + CountLF(s[1..])
  }

  /** The rewrite keeps every line break. */
  lemma {:induction false} ReplaceKeepsLineBreaks(s: string)
    ensures CountLF(ReplaceCRLF(s)) == CountLF(s)
    decreases |s|
  {
    if |s| >= 2 && s[0] == '\r' && s[1] == '\n' {
      ReplaceKeepsLineBreaks(s[2..]);
      assert ("\n" + ReplaceCRLF(s[2..]))[1..] == ReplaceCRLF(s[2..]);
      assert s[1..][1..] == s[2..];
    } else if |s| > 0 {
      ReplaceKeepsLineBreaks(s[1..]);
      assert ([s[0]] + ReplaceCRLF(s[1..]))[1..] == ReplaceCRLF(s[1..]);
    }
  }

  /** Text is left alone exactly when it holds no `\r\n`. */
  lemma {:induction false} ReplaceUnchangedIff(s: string)
    ensures ReplaceCRLF(s) == s <==> forall i :: 0 <= i < |s| ==> !CRLFAt(s, i)
    decreases |s|
  {
    if |s| >= 2 && s[0] == '\r' && s[1] == '\n' {
      ReplaceShorter(s[2..]);
      assert |ReplaceCRLF(s)| < |s|;
      assert CRLFAt(s, 0);
    } else if |s| > 0 {
      ReplaceUnchangedIff(s[1..]);
      var t := s[1..];
      assert s == [s[0]] + t;
      assert ReplaceCRLF(s) == s <==> ReplaceCRLF(t) == t;
      assert !CRLFAt(s, 0);
      if forall j :: 0 <= j < |t| ==> !CRLFAt(t, j) {
        forall i | 0 <= i < |s| ensures !CRLFAt(s, i) {
          if i > 0 { assert !CRLFAt(t, i - 1); }
        }
      }
      if forall i :: 0 <= i < |s| ==> !CRLFAt(s, i) {
        forall j | 0 <= j < |t| ensures !CRLFAt(t, j) {
          assert !CRLFAt(s, j + 1);
        }
      }
    }
  }

  lemma {:induction false} ReplaceShorter(s: string)
    ensures |ReplaceCRLF(s)| <= |s|
    decreases |s|
  {
    if |s| >= 2 && s[0] == '\r' && s[1] == '\n' {
      ReplaceShorter(s[2..]);
    } else if |s| > 0 {
      ReplaceShorter(s[1..]);
    }
  }

  /** The rewrite is not idempotent: `\r\r\n` becomes `\r\n`, which a second pass would change. */
  lemma ReplaceNotIdempotent()
    ensures ReplaceCRLF("\r\r\n") == "\r\n"
    ensures ReplaceCRLF(ReplaceCRLF("\r\r\n")) == "\n"
  {
    assert "\r\r\n"[1..] == "\r\n";
    assert "\r\n"[2..] == "";
  }
}
