# osx-builder, modelled in Dafny

osx-builder is a small HTTP service that creates, inspects and destroys macOS
virtual machines on a VMware host. A client POSTs a machine configuration to
`/vms`. The service answers at once with a fresh 20-digit hex ID. In the
background it fetches and unpacks the gold image once per checksum, clones it,
writes the machine's settings into its `.vmx` file and powers it on. When a
callback URL was given, it also posts the result there. `GET /vms/<id>` reads
the machine back from its `.vmx` file and the hypervisor. `DELETE /vms/<id>`
powers the machine off, deletes it and removes its directory.

The current controller (`vms/vm.go`) drives the hypervisor through the
`vmrun` command-line tool, via the Fusion 7 adapter (`pkg/vmware/fusion7.go`).
That adapter reads and writes `.vmx` files through a small parser and writer
(`pkg/vmware/vmx.go`). Two older controllers written against the govix
bindings (`vms/model.go` and `vm.go`) are modelled as well.

The project has one module per source file:

- `Vmx` (`vmx.dfy`): reading and writing the `key = "value"` text, with its round trip and the value-with-`=` hazard.
- `VMware` (`vmware.dfy`): the shared types and the error-message and CRLF logic of `runAndLog`.
- `Fusion7` (`fusion7.dfy`): the `vmrun` adapter: the empty-path guard, argument vectors, output parsing, and `Info`/`SetInfo` on the `.vmx` map.
- `MockVMware` (`mock_vmware.dfy`): the host, with files, running machines, gold directories and one event log, plus an adapter class with the `VirtualMachine` operations.
- `Vms` (`vms_vm.dfy`): the lifecycle controller: defaults, memory rounding, gold cache, create, update, destroy, refresh, lookup.
- `VmsErrors` (`vms_error.dfy`): the application-error table.
- `VmsWeb` (`vms_web.dfy`): the handlers' decisions, ID synthesis, the callback and the background completion.
- `Router` (`osx_builder.dfy`): the prefix-then-method dispatch in `main`.
- `Govix` (`govix.dfy`): the govix calls as a plan of steps that stops at the first checked failure, with a call log.
- `LegacyVms` (`legacy_vms.dfy`): the govix controller of `vms/model.go`.
- `LegacyMain` (`legacy_main.dfy`): the govix controller of `vm.go`.
- `GoStrings`, `GoStrconv`, `Wrappers`: the Go library functions the code relies on (`strings.Split`, `TrimSpace`, `Trim`, `ToLower`, `sort.Strings`, `strconv.Itoa`, `ParseInt`, `Quote`) and the Option and Result types.

Parts of the source work by changing state. In the model they are methods
with loops, or classes whose methods change their fields. Each is proved
equal to a specification function of its inputs or of the old state:
- the `.vmx` read loop and write loop;
- `SetInfo`'s in-place map edits;
- `lookupVMRunPath`;
- the controllers' `VM` objects;
- the mocked host and the govix session.

The lemmas state what the source promises about those functions. Process
output, file contents, random bytes, JSON and base64 (`Codec`), humanize
(`Units`), the download and unpack (`Fetch`), and `filepath.Glob` (a given
sequence of matches) are all parameters.

Two behaviours of the code are stated as lemmas and not corrected:
- A `.vmx` value holding `=` is written, but it is dropped on the next read
  (`Vmx.ValueWithEqualsLost`). The base64 image annotation usually ends in `=`
  padding, so refreshing a machine after an update can yield an empty
  annotation in place of the image (`Fusion7.AnnotationWithEqualsLost`,
  `Vms.RefreshAfterUpdateLosesAnnotation`). `Vms.RefreshAfterUpdate` states
  the round trip under the condition that the encoded image holds no `=`.
- The memory rounding `(m + 3) &^ 3` is done on Go's 64-bit `int`. Within 3 of
  the largest `int` it wraps to the smallest one (`Vms.RoundUp4Overflow`).

## Model

| member | source | states |
|---|---|---|
| Vmx.ReadVmx | pkg/vmware/vmx.go:23-35 | the line loop builds exactly `Parse(text)`, the left-to-right fold of the lines |
| Vmx.ParseLineIff | pkg/vmware/vmx.go:25-29 | a line yields an entry if and only if it holds exactly one `=` (blank lines and lines with none or several are skipped) |
| Vmx.ParseLineOfTwo | pkg/vmware/vmx.go:30-32 | a two-part line stores the trimmed, lower-cased key with the trimmed value stripped of every leading and trailing `"` |
| Vmx.ParseFromKeys | pkg/vmware/vmx.go:24-33 | a key is in the result if and only if it was there before or some line defines it |
| Vmx.ParseFromUntouched | pkg/vmware/vmx.go:24-33 | lines that do not define a key leave its entry as it was |
| Vmx.ParseFromLastWins | pkg/vmware/vmx.go:24-33 | when several lines define a key, the last one's value is kept |
| Vmx.ParseKey | pkg/vmware/vmx.go:17-35 | for a whole file: a defined key is present with the value of its last defining line |
| Vmx.ParseMissingKey | pkg/vmware/vmx.go:17-35 | a key no line defines is absent |
| Vmx.GoodKeyNormal | pkg/vmware/vmx.go:30-32 | a lower-case trimmed key is its own normal form |
| Vmx.ParseLineGood | pkg/vmware/vmx.go:25-32 | every stored key is lower-case and trimmed and free of `=`; every stored value is trimmed, unquoted and free of `=` |
| Vmx.ParseGood | pkg/vmware/vmx.go:17-35 | whatever text is read, the map satisfies the round-trip conditions |
| Vmx.SortedKeys | pkg/vmware/vmx.go:54 | the keys of a set in strictly ascending order, each exactly once |
| Vmx.CollectKeys | pkg/vmware/vmx.go:47-52 | the counter loop collects every key of the map exactly once |
| Vmx.EmitEntries | pkg/vmware/vmx.go:56-60 | the buffer loop writes one `key = "value"` line with a line break per key, in the order given |
| Vmx.WriteVmx | pkg/vmware/vmx.go:39-60 | the text written is `Render(vmx)`: the entries in ascending key order |
| Vmx.RenderOrderIndependent | pkg/vmware/vmx.go:47-60 | any sorted enumeration of the keys gives the same text, so the map's iteration order does not matter |
| Vmx.RenderEmpty | pkg/vmware/vmx.go:47-60 | the empty map renders to the empty text |
| Vmx.ParseLineOfEntryKept | pkg/vmware/vmx.go:25-58 | a written line whose value holds no `=` reads back as its key and its unquoted value |
| Vmx.ParseLineOfEntryLost | pkg/vmware/vmx.go:25-58 | a written line whose value holds `=` is skipped on reading |
| Vmx.ParseLineOfEntry | pkg/vmware/vmx.go:25-58 | how one written line reads back, in both cases |
| Vmx.ParseEntries | pkg/vmware/vmx.go:24-60 | reading the written lines of any key sequence adds exactly the kept entries |
| Vmx.RenderParse | pkg/vmware/vmx.go:17-67 | reading a written map gives exactly its entries without `=`, quotes stripped |
| Vmx.RoundTrip | pkg/vmware/vmx.go:17-67 | keys lower-case, trimmed, without `=` or line breaks, values without `=`, line breaks or surrounding quotes, then `Parse(Render(m)) == m` |
| Vmx.ValueWithEqualsLost | pkg/vmware/vmx.go:25-58 | a value holding `=` is written out, but its key is gone after the next read |
| Vmx.LossyEntryDropped | pkg/vmware/vmx.go:25-58 | a good map plus one entry whose value holds `=` reads back as the good map alone |
| Vmx.ReadWriteRead | pkg/vmware/vmx.go:17-67 | reading, writing and reading again gives what the first read gave |
| VMware.CloneType.Name | pkg/vmware/vmware.go:24-25 | the clone kind's argument is `full` or `linked` |
| VMware.ExitErrorMessage | pkg/vmware/vmware.go:63-72 | the message is `[VMWare] error: ` followed by trimmed stderr, or trimmed stdout when stderr is blank |
| VMware.RunAndLog | pkg/vmware/vmware.go:55-84 | no error if and only if the process exited cleanly; a failure to run is returned unchanged; an exit error gets the message above; both outputs are returned untrimmed with `\r\n` rewritten |
| VMware.BlankExitMessage | pkg/vmware/vmware.go:66-73 | with both outputs blank the message is exactly `[VMWare] error: ` |
| VMware.ReplaceIsDrop | pkg/vmware/vmware.go:80-81 | the left-to-right `\r\n` rewrite drops exactly each `\r` that starts a non-overlapping `\r\n` |
| VMware.ReplaceKeepsLineBreaks | pkg/vmware/vmware.go:80-81 | the rewrite keeps the number of `\n` |
| VMware.ReplaceUnchangedIff | pkg/vmware/vmware.go:80-81 | the text is unchanged if and only if it holds no `\r\n` |
| VMware.ReplaceShorter | pkg/vmware/vmware.go:80-81 | the rewrite never lengthens the text |
| VMware.ReplaceNotIdempotent | pkg/vmware/vmware.go:80-81 | `\r\r\n` becomes `\r\n`, which a second rewrite turns into `\n` |
| Fusion7.VMRunPath | pkg/vmware/fusion7.go:35-39 | the environment's path when set, the Fusion default otherwise |
| Fusion7.LookupError | pkg/vmware/fusion7.go:41-45 | an error exactly when the path's stat says it does not exist; other stat errors are ignored |
| Fusion7.Fusion7VM.LookupVMRunPath | pkg/vmware/fusion7.go:34-49 | on success the field holds the looked-up path; on failure it is unchanged |
| Fusion7.NewFusion7VM | pkg/vmware/fusion7.go:21-31 | a fresh adapter for the given file with the looked-up `vmrun` path, or none when the lookup fails, where the source ends the process with `log.Fatalln` |
| Fusion7.Fusion7VM.VerifyVMXPath | pkg/vmware/fusion7.go:52-57 | an error exactly when the vmx path is empty |
| Fusion7.Fusion7VM.Command | pkg/vmware/fusion7.go:61-68 | empty path gives the path error and nothing runs; otherwise success exactly when the process exits cleanly, with `runAndLog`'s outputs or error |
| Fusion7.Fusion7VM.CloneFrom | pkg/vmware/fusion7.go:60-71 | runs `[vmrun, clone, src, vmxPath, ctype]`; path error first |
| Fusion7.Fusion7VM.Start | pkg/vmware/fusion7.go:159-175 | runs `start` with `nogui` when headless and `gui` otherwise; path error first |
| Fusion7.Fusion7VM.Stop | pkg/vmware/fusion7.go:178-189 | runs `[vmrun, stop, vmxPath]`; path error first |
| Fusion7.Fusion7VM.Delete | pkg/vmware/fusion7.go:192-203 | runs `[vmrun, deleteVM, vmxPath]`; path error first |
| Fusion7.AnyLine | pkg/vmware/fusion7.go:217-223 | the line search finds the target exactly when some line equals it |
| Fusion7.Fusion7VM.IsRunning | pkg/vmware/fusion7.go:206-224 | true exactly when some `\n`-separated line of `vmrun list` equals the vmx path |
| Fusion7.Fusion7VM.HasToolsInstalled | pkg/vmware/fusion7.go:227-244 | true exactly when some output line is `installed` |
| Fusion7.Fusion7VM.IPAddress | pkg/vmware/fusion7.go:247-265 | the output up to its first `\n`, possibly empty |
| Fusion7.Fusion7VM.Exists | pkg/vmware/fusion7.go:268-280 | true when the file is found, false when it does not exist, the stat error otherwise; path error first |
| Fusion7.Fusion7VM.EmptyPathRunsNothing | pkg/vmware/fusion7.go:52-269 | with an empty path every operation returns the path error whatever the process or file system would do |
| Fusion7.Lookup | pkg/vmware/fusion7.go:85-101 | a Go map read: the value when present, the empty string otherwise |
| Fusion7.InfoFromVmx | pkg/vmware/fusion7.go:84-103 | fails exactly when `numvcpus` or `memsize` is not an int64 literal, with strconv's message: the quoted literal and `invalid syntax` or `value out of range`, whichever strconv's digit loop meets first; `numvcpus` is checked first; otherwise the six fields are read from their keys |
| Fusion7.InfoMemsizeOutOfRange | pkg/vmware/fusion7.go:93-96 | a decimal `memsize` beyond int64 gives `strconv.ParseInt: parsing "<literal>": value out of range` |
| Fusion7.Fusion7VM.Info | pkg/vmware/fusion7.go:74-104 | path error, then read error, then `InfoFromVmx` of the parsed file |
| Fusion7.Applied | pkg/vmware/fusion7.go:117-142 | the keys after `SetInfo`: the five configured, the four adapter keys, and the old keys not starting with `ethernet`; the only `ethernet` keys are the four |
| Fusion7.ApplyInfo | pkg/vmware/fusion7.go:117-142 | the in-place assignments, delete loop and adds compute `Applied` |
| Fusion7.WithoutAdapters | pkg/vmware/fusion7.go:133-137 | the delete loop removes exactly the `ethernet` keys and keeps the rest unchanged |
| Fusion7.AppliedConfigured | pkg/vmware/fusion7.go:117-124 | name, annotation, CPUs and memory as decimal text, and `msg.autoanswer = true` |
| Fusion7.AppliedAdapter | pkg/vmware/fusion7.go:139-142 | the single adapter: present, connected at start, `e1000`, the info's network type |
| Fusion7.AppliedKeepsOthers | pkg/vmware/fusion7.go:117-142 | every other non-`ethernet` key keeps its value |
| Fusion7.GuestOSKept | pkg/vmware/fusion7.go:117-142 | `guestos` is untouched |
| Fusion7.Fusion7VM.SetInfo | pkg/vmware/fusion7.go:107-149 | path error, then read error; otherwise writes the rendered `Applied` map and returns the write's error |
| Fusion7.AppliedGood | pkg/vmware/fusion7.go:117-142 | good name, annotation and network type keep a good map good |
| Fusion7.ParseSetInfo | pkg/vmware/fusion7.go:107-149 | re-reading the file `SetInfo` wrote gives `Applied` of what it read |
| Fusion7.InfoOfApplied | pkg/vmware/fusion7.go:84-142 | `Info` of the applied map returns the info given, with the old guest OS |
| Fusion7.InfoAfterSetInfo | pkg/vmware/fusion7.go:74-149 | `Info` after `SetInfo` returns the same name, annotation, CPUs, memory and network type |
| Fusion7.AnnotationWithEqualsLost | pkg/vmware/fusion7.go:107-149 | an annotation holding `=` (base64 padding) is lost: `Info` then reads it as empty |
| MockVMware.Guard | pkg/vmware/fusion7.go:52-57 | an empty path is refused with the path error before the hypervisor is asked |
| MockVMware.StepsAreLocal | pkg/vmware/vmware.go:40-52 | no adapter operation changes the file or the power state of another machine |
| MockVMware.EmptyPathChangesNothing | pkg/vmware/fusion7.go:52-57 | with an empty path every operation returns the path error and changes nothing but the log |
| MockVMware.PowerStateObserved | pkg/vmware/fusion7.go:159-224 | after a successful `Start`, `IsRunning` answers true; after a successful `Stop`, false |
| MockVMware.DeleteThenGone | pkg/vmware/fusion7.go:192-280 | after a successful `Delete`, `Exists` answers false |
| MockVMware.MockVM.Exists | pkg/vmware/vmware.go:51 | whether the machine's file is on the host, after the path check; the call is logged |
| MockVMware.MockVM.CloneFrom | pkg/vmware/vmware.go:44 | the source's `.vmx` text is copied to the machine's path, or the source is missing; the call is logged |
| MockVMware.MockVM.Start | pkg/vmware/vmware.go:45 | on success the machine is running; the call is logged |
| MockVMware.MockVM.Stop | pkg/vmware/vmware.go:46 | on success the machine is not running; the call is logged |
| MockVMware.MockVM.Delete | pkg/vmware/vmware.go:47 | on success the machine's file is gone and it is not running; the call is logged |
| MockVMware.MockVM.IsRunning | pkg/vmware/vmware.go:48 | whether the machine is in the running set, after the path check |
| MockVMware.MockVM.HasToolsInstalled | pkg/vmware/vmware.go:49 | the guest's tools answer, after the path check |
| MockVMware.MockVM.IPAddress | pkg/vmware/vmware.go:50 | the guest's address, after the path check |
| MockVMware.MockVM.Info | pkg/vmware/vmware.go:42 | `InfoFromVmx` of the parsed `.vmx` text on the host, or the missing-file error |
| MockVMware.MockVM.SetInfo | pkg/vmware/vmware.go:43 | the machine's `.vmx` text is rewritten as the Fusion 7 `SetInfo` writes it, or the missing-file error |
| Vms.HomeConfig | config/config.go:36-39 | machines, gold images and downloads live in `<home>/.osx-builder/vms`, `/gold` and `/images` (relative to the working directory when the home is empty) |
| Vms.VMXFile | vms/vm.go:51 | a machine's backing file is `VMSPath/ID/ID.vmx` |
| Vms.WithDefaults | vms/vm.go:60-68 | at least one CPU (2 when none is set) and at least 512 MB; every other field unchanged |
| Vms.WithDefaultsIdempotent | vms/vm.go:60-68 | applying the defaults twice is applying them once |
| Vms.Wrap64 | vms/vm.go:166 | Go's 64-bit `int` wrap-around: in range, and the identity on in-range values |
| Vms.RoundUp4 | vms/vm.go:166 | `(m + 3) &^ 3` on a 64-bit `int` stays in range |
| Vms.RoundUp4Least | vms/vm.go:165-166 | below the overflow edge, the least multiple of 4 not below the memory size |
| Vms.RoundUp4Examples | vms/vm.go:166 | 512 stays 512; 513 and 515 become 516 |
| Vms.RoundUp4Aligned | vms/vm.go:166 | a multiple of 4 is unchanged |
| Vms.RoundUp4Overflow | vms/vm.go:166 | within 3 of the largest `int`, the rounding wraps to the smallest `int` |
| Vms.UpdateInfo | vms/vm.go:164-181 | the info written: ID as name, rounded memory, CPUs, the encoded image as annotation, network type, no guest OS |
| Vms.RemoveAll | vms/vm.go:216 | removes the directory and every path under it, keeps everything else; the removal is logged |
| Vms.VM.constructor | vms/vm.go:50-57 | a new machine holds the given configuration, no address and no status, and its adapter is bound once and for all to `VMXFile(config, ID)`, that is `VMSPath/ID/ID.vmx` |
| Vms.VM.SetDefaults | vms/vm.go:60-68 | the configuration becomes `WithDefaults` of the old one; nothing else changes |
| Vms.VM.Update | vms/vm.go:147-195 | defaults applied, then the host and error are those of `UpdateSpec` (stop if running, `SetInfo`, `Start`) |
| Vms.VM.UnpackGoldImage | vms/vm.go:71-104 | the host and result are those of `UnpackSpec`: cached gold directory, or download then unpack |
| Vms.VM.Create | vms/vm.go:107-144 | the host, configuration and error are those of `CreateSpec`: unpack, first gold match, clone unless present, update |
| Vms.VM.Destroy | vms/vm.go:198-220 | the host and error are those of `DestroySpec`: power off, delete ignoring its error, remove the directory when the ID is set |
| Vms.VM.Refresh | vms/vm.go:246-286 | the host, public state and error are those of `RefreshSpec` |
| Vms.FindVM | vms/vm.go:223-243 | no machine when the file does not exist; otherwise the refreshed machine of the derived path, or the error |
| Vms.Invocations | vms/vm.go:147-220 | the log entries of a sequence of adapter calls on one machine, in order |
| Vms.InvocationsAppend | vms/vm.go:147-220 | the entries of two call sequences in turn are the entries of the joined sequence |
| Vms.PowerOffCalls | vms/vm.go:199-210 | the power-off makes a prefix of its plan of calls, all of it on success; the machine is stopped exactly on success |
| Vms.PushCalls | vms/vm.go:164-194 | `SetInfo` then `Start` are made as a prefix of that plan, all of it on success |
| Vms.UpdateFollowsPlan | vms/vm.go:147-195 | `Update` makes a non-empty prefix of its plan of calls, all of it on success |
| Vms.UpdateSucceeded | vms/vm.go:147-195 | a successful update had an encodable image and an existing file, and leaves the machine running |
| Vms.UpdateRewrites | vms/vm.go:164-186 | a successful update rewrites the file as `SetInfo` does with `UpdateInfo` and changes no other file |
| Vms.UpdateLocal | vms/vm.go:147-195 | an update touches no other machine's file or power state |
| Vms.PushLocal | vms/vm.go:164-194 | `SetInfo` then `Start` touch no other machine |
| Vms.PushFailsEarly | vms/vm.go:171-186 | an unencodable image or a missing file fails before any file changes or `Start` |
| Vms.UpdateStartsOnlyAfterSetInfo | vms/vm.go:183-192 | when the file is missing or the image cannot be encoded, `Update` fails, no file changes, the machine is not started, and no `Start` is invoked |
| Vms.UpdateStopsAtFailedSetInfo | vms/vm.go:183-192 | when the machine was powered off and `SetInfo` then fails (refused by the hypervisor, or no file to rewrite), `Update` returns that error, the file is not rewritten, the machine stays off, and the calls are the power-off plan then `SetInfo`, with no `Start` |
| Vms.RefreshObserves | vms/vm.go:246-286 | refresh changes nothing on the host; on success the status says whether the machine runs and the address is the guest's or empty |
| Vms.RefreshOfInfo | vms/vm.go:248-282 | name, CPUs and memory come from `Info`; a bad annotation stops the refresh with the image and network unchanged |
| Vms.RefreshAfterUpdate | vms/vm.go:147-286 | refreshing after a successful update gives back the configuration, with memory rounded, and status `running` |
| Vms.RefreshAfterUpdateLosesAnnotation | vms/vm.go:178-270 | when the encoded image holds `=`, the refresh decodes an empty annotation instead |
| Vms.UnpackCached | vms/vm.go:73-103 | a populated gold directory is returned without a download |
| Vms.UnpackFetches | vms/vm.go:79-103 | otherwise download, then unpack into the gold directory; each failure stops the fetch and adds no files |
| Vms.UnpackOnce | vms/vm.go:71-104 | a second fetch of an unpacked image is a cache hit |
| Vms.CreateNoGoldVmx | vms/vm.go:115-122 | no gold `.vmx` match fails with the pattern in the message, after the unpack |
| Vms.CreateClones | vms/vm.go:124-141 | a successful create of a new machine used the defaults, had a gold file to clone, and leaves the machine running |
| Vms.CreateClonesFile | vms/vm.go:124-141 | the new machine's file is the gold text with `UpdateInfo` applied |
| Vms.CreateRunsUpdate | vms/vm.go:127-141 | a successful create is exactly the clone step followed by `Update` with defaults |
| Vms.CreateClonesTrace | vms/vm.go:127-141 | the calls of a create: `Exists`, a linked `CloneFrom` of the first match, then the update plan |
| Vms.EnsureCloneEffect | vms/vm.go:127-137 | an existing machine is not cloned again; a missing one gets the gold text |
| Vms.CreateKeepsExisting | vms/vm.go:127-141 | creating over an existing machine only rewrites its settings and starts it |
| Vms.DestroyTrace | vms/vm.go:198-220 | succeeds exactly when powering off does; then: power off, `Delete`, and the directory removal when the ID is set |
| Vms.DestroyFailsBeforeDelete | vms/vm.go:199-210 | a failed `IsRunning` or `Stop` is `Destroy`'s error; the calls are a prefix of the power-off plan, no `Delete` is invoked, no directory is removed, and no file or power state changes |
| Vms.DestroyRemoves | vms/vm.go:198-220 | the file and directory are gone, the machine is not running, and every other path is unchanged |
| Vms.FindMissing | vms/vm.go:228-235 | a missing machine is no machine and no error |
| Vms.FindAfterUpdate | vms/vm.go:223-286 | after a successful update, looking the machine up returns its configuration (memory rounded, not headless), its address and `running` |
| VmsErrors.Table | vms/error.go:9-49 | the seven application errors have distinct codes, non-empty messages and HTTP statuses below 600 |
| VmsErrors.Statuses | vms/error.go:9-49 | the status of each error: 500, 404, 400, 415, 500, 409, and none for the marshalling error |
| VmsErrors.CodeDetermines | vms/error.go:9-49 | an error of the table is identified by its code |
| VmsWeb.Hex | vms/web.go:100 | `%x` of the random bytes: two lower-case hex digits per byte |
| VmsWeb.DigitValue | vms/web.go:100 | each hex digit stands for exactly one value below 16 |
| VmsWeb.DigitOfHexDigit | vms/web.go:100 | the digit of a value has that value back |
| VmsWeb.UnhexHex | vms/web.go:100 | decoding the hex text of bytes gives those bytes back |
| VmsWeb.HexInjective | vms/web.go:100 | distinct random bytes give distinct IDs |
| VmsWeb.NewIDShape | vms/web.go:87-100 | a new ID is 20 hex digits |
| VmsWeb.ErrorResponse | vms/web.go:68-71 | an application error is rendered with its own status and itself as the body |
| VmsWeb.CreateDecision | vms/web.go:60-127 | read error gives 400, bad JSON 415, no randomness 500, each with no job; otherwise 202 with the machine, and a job whose ID is the hex of the random bytes |
| VmsWeb.CreateOverridesID | vms/web.go:87-101 | the ID the client sent is replaced by the 20-digit hex of the random bytes, which it encodes losslessly |
| VmsWeb.PathBase | vms/web.go:138 | `path.Base` is never empty and is `/` or holds no `/` |
| VmsWeb.TrimTrailingSlashes | vms/web.go:138 | strips exactly the trailing `/`s |
| VmsWeb.AfterLastSlash | vms/web.go:138 | the last segment: non-empty, no `/`, a suffix preceded by `/` when shorter than the path |
| VmsWeb.PathBaseOfSegment | vms/web.go:138 | the ID of `/vms/<id>` is `<id>` when it holds no `/` |
| VmsWeb.AfterLastSlashOf | vms/web.go:138 | the segment after a trailing `/` is what follows it |
| VmsWeb.PathBaseIgnoresTrailingSlash | vms/web.go:138 | a trailing `/` does not change the ID |
| VmsWeb.GetResponse | vms/web.go:192-218 | lookup error gives 409, no machine 404, otherwise 200 with the machine |
| VmsWeb.DestroyResponse | vms/web.go:141-178 | lookup error 409, no machine 404, destroy error 500, otherwise 204 with no body |
| VmsWeb.SendResult | vms/web.go:38-57 | nothing without a URL; otherwise posts the value's JSON to the URL, or the marshalling error's JSON, or nothing when both fail |
| VmsWeb.CompletionReportsFailure | vms/web.go:106-112 | a failed create posts the create error and does not refresh |
| VmsWeb.CompletionRefreshesOnce | vms/web.go:105-121 | after a create, one refresh when no address is known, then the machine is posted |
| VmsWeb.CompletionPostsCreatedMachine | vms/web.go:105-121 | the posted machine has the defaulted configuration, memory rounded, and status `running` |
| VmsWeb.CreateVM | vms/web.go:60-127 | the response is `CreateDecision`'s; a job exists exactly when it accepts, with a fresh machine on the derived path |
| VmsWeb.Complete | vms/web.go:105-121 | host, machine and post are those of `CompletionSpec` |
| VmsWeb.GetVM | vms/web.go:187-219 | looks up the machine named by the path's last segment and renders `GetResponse` |
| VmsWeb.DestroyVM | vms/web.go:136-179 | looks up the machine; destroys it only when found, then renders `DestroyResponse` |
| VmsWeb.DestroyMissing | vms/web.go:141-162 | deleting a machine that does not exist answers 404 and only checks existence |
| Router.DispatchByFirstMatch | osx-builder.go:28-43 | the first registered prefix the path starts with decides: its handler for a registered method, 405 otherwise; no matching prefix gives 404 |
| Router.HandledOnlyIfRegistered | osx-builder.go:28-43 | a handler runs only for a registered prefix of the path and a method registered for it; other replies are 405 or 404 |
| Router.OrderIrrelevant | osx-builder.go:29-39 | when at most one prefix begins the path, map iteration order does not change the outcome |
| Router.ServiceOrder | osx-builder.go:21-43 | the service's one registry entry has a single iteration order |
| Router.ServiceDispatch | osx-builder.go:21-43 | paths starting `/vms` reach the POST, GET or DELETE handler or get 405; all others get 404 |
| Router.PrefixIsTextual | osx-builder.go:30 | `/vmsXYZ` is routed as `/vms`, `PUT` gets 405, `/vm` gets 404 |
| Govix.RunStopsAtFirst | vms/model.go:186-300 | an operation's calls run in order until the first checked call that fails, whose error is returned; otherwise all of them run and succeed |
| Govix.RunLogsPrefix | vms/model.go:186-300 | what an operation calls is a prefix of its plan, all of it on success |
| Govix.RunAppend | vms/model.go:186-300 | running two parts in turn is running the first, and the second only when the first succeeded |
| Govix.IgnoredNeverFails | vm.go:264-273 | calls whose errors are ignored, like the setters of an update, never stop it |
| Govix.ToleratedStep | vms/model.go:165-167 | the clone stops the operation only on an error other than the one it tolerates |
| Govix.SessionBrackets | vms/model.go:138-142 | a session that connects disconnects last, with the body's calls and error in between; a failed connect is the only call and the error |
| LegacyVms.StatusByLastFlag | vms/model.go:492-533 | the status is the label of the last set state flag in the source's order of tests (`unknown` when none), then `,tools-running`, then `,blocked` |
| LegacyVms.StateLabelIsLast | vms/model.go:497-523 | the later tests override the earlier ones: the last set flag of that order wins |
| LegacyVms.StatusUnknown | vms/model.go:495 | with no state flag set the status starts `unknown` |
| LegacyVms.DefaultsFillUnset | vms/model.go:76-88 | zero CPUs become 2, empty memory `512mib`, a non-positive tools timeout 30 seconds; set values and all other fields are kept; idempotent |
| LegacyVms.PowerOffOptions | vms/model.go:310-321 | a graceful guest shutdown exactly when the tools report running, otherwise a normal power-off |
| LegacyVms.PowerOnOptions | vms/model.go:279-286 | always a normal power-on, with the GUI exactly when asked |
| LegacyVms.MemoryMb | vms/model.go:222-228 | 512 when the size does not parse, otherwise the parsed bytes in whole mebibytes, rounded down |
| LegacyVms.Prepared | vms/model.go:266-269 | an attached adapter starts connected; a bridged one also propagates link state; nothing else changes |
| LegacyVms.PrepareFirst | vms/model.go:265-276 | after the loop stops, the adapters reached are prepared and the rest untouched |
| LegacyVms.PrepareNext | vms/model.go:265-276 | one more turn of the loop prepares one more adapter |
| LegacyVms.Reach | vms/model.go:265-276 | the loop reaches at most every adapter |
| LegacyVms.ReachFailing | vms/model.go:272-275 | the loop stops right after the first adapter the hypervisor refuses |
| LegacyVms.ReachAll | vms/model.go:265-276 | when no attach fails, every adapter is reached |
| LegacyVms.CloneVmx | vms/model.go:152 | the clone's file is `VMSPath/ID/ID.vmx` (`ID/ID.vmx` when the machines path is empty) |
| LegacyVms.AdapterSteps | vms/model.go:265-276 | one checked attach of the prepared adapter per adapter, in order |
| LegacyVms.UpdateAttachesPrepared | vms/model.go:265-276 | every adapter `Update` attaches starts connected, and propagates link state when bridged |
| LegacyVms.PlanAttachesPrepared | vms/model.go:265-276 | a plan whose only attaches are the prepared ones attaches only prepared adapters |
| LegacyVms.PowerOnOnlyFailure | vms/model.go:278-300 | a failed power-on ends the update with its error; the tools wait is made but its error ignored |
| LegacyVms.AdapterRunSucceeds | vms/model.go:265-276 | the attach loop succeeds exactly when every prepared attach succeeds, and then reaches every adapter |
| LegacyVms.UpdatePreparesAll | vms/model.go:180-301 | a successful update leaves every adapter prepared |
| LegacyVms.PowerOffTrace | vms/model.go:304-330 | power-off reads the tools state, then powers off with the matching option |
| LegacyVms.UpdatePowersOffFirst | vms/model.go:208-231 | a running machine is powered off before the memory size is set |
| LegacyVms.DestroyPowersOffFirst | vms/model.go:342-369 | a running machine is powered off before it is deleted |
| LegacyVms.DestroyPlanRemoves | vms/model.go:342-376 | the directory is removed exactly when every step succeeded and the ID is set, and only after a successful delete that keeps files and forces |
| LegacyVms.DestroyRemovesAfterDelete | vms/model.go:333-381 | the same for the whole `Destroy`, connection included |
| LegacyVms.CloneStep | vms/model.go:146-170 | open the gold machine; when no clone exists, clear its folder and make a full clone, ignoring only "snapshot already exists" |
| LegacyVms.CreateResult | vms/model.go:91-177 | on success the path returned is the clone's, on failure empty; no gold match fails with the pattern and touches nothing |
| LegacyVms.RefreshNotRunning | vms/model.go:404-426 | a machine that is not running is not read: only provider, SSL flag and path change, and no error |
| LegacyVms.RefreshReadsBack | vms/model.go:404-489 | a running machine is read back field by field in the source's order of calls |
| LegacyVms.RefreshBadImage | vms/model.go:449-463 | an undecodable annotation stops the refresh with the decode error, after the ID is read and before the image changes |
| LegacyVms.OpenAndCheck | vms/model.go:342-350 | opens the machine and asks whether it runs; follows its plan, or ends the run with the step's error |
| LegacyVms.PowerOffGracefully | vms/model.go:304-330 | reads the tools state and powers off; follows its plan, or ends with the error |
| LegacyVms.AttachAdapters | vms/model.go:265-276 | the adapters become `PrepareFirst` up to the loop's reach; all of them on success |
| LegacyVms.VM.SetDefaults | vms/model.go:76-88 | the machine becomes `Defaults` of itself |
| LegacyVms.VM.OpenForUpdate | vms/model.go:192-211 | registers on server providers, opens, asks whether it runs; follows its plan, or ends with the error |
| LegacyVms.VM.ApplySettings | vms/model.go:222-246 | memory, CPUs, name and encoded image set; follows its plan, or ends with the error |
| LegacyVms.VM.ReplaceHardware | vms/model.go:248-262 | optional hardware upgrade, then all adapters removed; follows its plan, or ends with the error |
| LegacyVms.VM.UpdatePrefix | vms/model.go:192-262 | every step before the adapter loop, as planned |
| LegacyVms.VM.PowerUp | vms/model.go:278-300 | power-on, then the tools wait; follows its plan to the end |
| LegacyVms.VM.UpdateConnected | vms/model.go:192-300 | the steps of `Update` after connecting, as planned; the adapters are prepared up to where the loop got |
| LegacyVms.VM.UpdateDevices | vms/model.go:264-300 | attaches then powers up as planned; adapters prepared up to the loop's reach |
| LegacyVms.VM.Update | vms/model.go:180-301 | the machine, calls and error are those of `UpdateSpec` |
| LegacyVms.VM.DeleteMachine | vms/model.go:358-376 | unregisters on server providers, deletes keeping files, removes the folder when the ID is set |
| LegacyVms.VM.Destroy | vms/model.go:333-381 | the calls and error are those of `DestroySpec` |
| LegacyVms.VM.DestroyConnected | vms/model.go:342-376 | the steps of `Destroy` after connecting, as planned |
| LegacyVms.VM.OpenAndClone | vms/model.go:146-170 | opens the gold machine and clones it as planned; returns the clone's path |
| LegacyVms.VM.CreateConnected | vms/model.go:146-176 | the machine, calls, error and path of `CreateBody`: clone, then `Update` |
| LegacyVms.VM.Create | vms/model.go:125-177 | the machine, calls, error and path are those of `CreateSpec` |
| LegacyVms.VM.Refresh | vms/model.go:404-489 | the machine, calls and error are those of `RefreshSpec` |
| LegacyVms.VM.ReadRunning | vms/model.go:423-426 | the running check and what follows, as `SyncRunning` states |
| LegacyVms.VM.ReadSizes | vms/model.go:428-442 | CPUs and memory read, memory as lower-case IEC text, as `SyncSizes` states |
| LegacyVms.VM.ReadIdentity | vms/model.go:444-447 | the ID read from the display name, then the rest, as `SyncIdentity` states |
| LegacyVms.VM.ReadImage | vms/model.go:449-464 | the image decoded from the annotation, then the rest, as `SyncImage` states |
| LegacyVms.VM.ReadDevices | vms/model.go:466-474 | adapters and address read, as `SyncDevices` states |
| LegacyVms.VM.ReadPower | vms/model.go:476-485 | status from the power flags and the guest OS read, as `SyncPower` states |
| LegacyMain.ProviderNames | vm.go:62-75 | the server providers come exactly from `serverv1` and `serverv2`, the player exactly from `player`, the shared workstation exactly from `workstation_shared`, matched without case |
| LegacyMain.ProviderIgnoresCase | vm.go:62 | names that agree when lower-cased choose the same provider |
| LegacyMain.ProviderServerV2 | vm.go:67-68 | `ServerV2` chooses the VI server |
| LegacyMain.ProviderFusion | vm.go:63-64 | `Fusion` chooses the workstation provider |
| LegacyMain.ProviderUnknown | vm.go:73-74 | an unknown name such as `ESXi` falls back to the workstation provider |
| LegacyMain.Defaults | vm.go:97-113 | the defaults touch only CPUs, memory, description and the tools timeout |
| LegacyMain.DefaultsFillUnset | vm.go:97-113 | zero CPUs become 2, empty memory `512mib`, an empty description `Go's OSX Builder machine`, a non-positive timeout 30 seconds; set values kept; idempotent |
| LegacyMain.JoinAllStep | vm.go:182-185 | joining one more element adds it after a `/`, skipping empty elements |
| LegacyMain.ClonePathLayout | vm.go:182-185 | the clone lives in `~/.go-osx-builder/vix/vms/<checksum>/<name>/<name>.vmx` |
| LegacyMain.AttachSteps | vm.go:312-317 | one checked CD/DVD attach per drive, in order |
| LegacyMain.AdapterCalls | vm.go:292-303 | one attach of the prepared adapter per adapter, in order |
| LegacyMain.AttachCalls | vm.go:312-317 | one attach per drive, in order |
| LegacyMain.OpenTraces | vm.go:225-244 | the calls the open steps make when all succeed: register on server providers, open, running check |
| LegacyMain.StopTraces | vm.go:246-253 | a running machine is powered off through the tools state, a stopped one not at all |
| LegacyMain.SettingTraces | vm.go:255-273 | memory, CPUs, name and description are set in that order |
| LegacyMain.HardwareTraces | vm.go:275-289 | the optional hardware upgrade, then removal of every network adapter |
| LegacyMain.AdapterTraces | vm.go:292-303 | the adapter steps make exactly the prepared attaches |
| LegacyMain.DriveTraces | vm.go:305-317 | the drive steps remove all drives, then attach each |
| LegacyMain.PowerTraces | vm.go:319-354 | power-on, the tools wait, and shared folders when asked |
| LegacyMain.UpdateTraces | vm.go:213-355 | the whole update plan's calls, step after step |
| LegacyMain.UpdateLogsCalls | vm.go:213-355 | the update makes only connect, disconnect and calls of its plan; on success exactly connect, the plan's calls, disconnect |
| LegacyMain.DestroyTraces | vm.go:387-423 | the destroy plan's calls: open, running check, power-off when running, unregister on servers, delete |
| LegacyMain.DestroyLogsCalls | vm.go:387-423 | the destroy makes only connect, disconnect and calls of its plan; on success exactly all of them |
| LegacyMain.UpdateCallsOk | vm.go:213-355 | every call of the update plan is one the source would make with these settings |
| LegacyMain.UpdateLogsOk | vm.go:213-355 | every call the update makes is connect, disconnect or such a call |
| LegacyMain.UpdateRegistersOnlyInventory | vm.go:225-232 | only server providers register, and only the machine's own file; an update never unregisters |
| LegacyMain.DestroyUnregistersOnlyInventory | vm.go:412-420 | only server providers unregister, and only the machine's own file; a destroy never registers |
| LegacyMain.SharedFoldersGated | vm.go:334-353 | shared folders are enabled only when asked and only after the tools came up |
| LegacyMain.UpdateAttachesPrepared | vm.go:292-303 | every adapter the update attaches starts connected, and propagates link state when bridged |
| LegacyMain.AttachRun | vm.go:312-317 | the drive loop attaches a prefix of the drives, all on success, and stops at the first failure with its error |
| LegacyMain.DrivesRemovedFirst | vm.go:305-317 | the drives are removed before any is attached; a failed removal attaches none |
| LegacyMain.PowerRun | vm.go:319-354 | a failed power-on is the error; a failed tools wait is not, and skips shared folders; otherwise the shared-folder error is returned |
| LegacyMain.DestroyRemovesNoDirectory | vm.go:387-423 | this destroy removes no directory from disk |
| LegacyMain.DestroyReturnsDelete | vm.go:422 | once the delete is reached its error is the result; success means it was reached |
| LegacyMain.DestroyPowersOffFirst | vm.go:396-422 | a running machine is powered off before it is deleted |
| LegacyMain.OpenAndPowerOff | vm.go:396-410 | when open, running check and power-off succeed, their calls are exactly those four |
| LegacyMain.UpdatePowersOffFirst | vm.go:236-264 | a running machine is powered off before the memory size is set |
| LegacyMain.CloneStep | vm.go:176-203 | open the gold machine; when no clone exists, clear its folder and make a full clone, ignoring only "snapshot already exists" |
| LegacyMain.CreateResult | vm.go:117-210 | on success the path returned is the clone's under the home directory, on failure empty; no gold match fails with the pattern and makes no call |
| LegacyMain.ReplaceDrives | vm.go:305-317 | the drive steps as planned, or the run ends with the failing step's error |
| LegacyMain.VM.SetDefaults | vm.go:97-113 | the machine becomes `Defaults` of itself |
| LegacyMain.VM.OpenForUpdate | vm.go:225-244 | registers on server providers, opens, asks whether it runs; follows its plan, or ends with the error |
| LegacyMain.VM.ApplySettings | vm.go:255-273 | memory, CPUs, name and description set, errors ignored; follows its plan |
| LegacyMain.VM.ReplaceHardware | vm.go:275-289 | optional hardware upgrade, then all adapters removed; follows its plan, or ends with the error |
| LegacyMain.VM.UpdatePrefix | vm.go:225-289 | every step before the adapter loop, as planned |
| LegacyMain.VM.PowerUp | vm.go:319-354 | power-on, tools wait, shared folders; follows its plan to the end |
| LegacyMain.VM.FinishUpdate | vm.go:305-354 | drives, then power-up; follows its plan to the end |
| LegacyMain.VM.UpdateDevices | vm.go:291-354 | adapters, drives and power-up as planned; adapters prepared up to the loop's reach |
| LegacyMain.VM.UpdateConnected | vm.go:225-354 | the steps of `Update` after connecting, as planned; adapters prepared up to where the loop got |
| LegacyMain.VM.Update | vm.go:213-355 | the machine, calls and error are those of `UpdateSpec` |
| LegacyMain.VM.DeleteMachine | vm.go:412-422 | unregisters on server providers, then deletes keeping files and forcing |
| LegacyMain.VM.Destroy | vm.go:387-423 | the calls and error are those of `DestroySpec` |
| LegacyMain.VM.DestroyConnected | vm.go:396-422 | the steps of `Destroy` after connecting, as planned |
| LegacyMain.VM.OpenAndClone | vm.go:176-203 | opens the gold machine and clones it as planned |
| LegacyMain.VM.CreateConnected | vm.go:176-209 | the machine, calls, error and path of `CreateBody`: clone, then `Update` |
| LegacyMain.VM.CreateInSession | vm.go:168-209 | connects, then `CreateBody`, then disconnects, as `CreateSession` states |
| LegacyMain.VM.Create | vm.go:155-210 | the machine, calls, error and path are those of `CreateSpec` |

## Left out

- File and process I/O: reading and writing `.vmx` files, `exec.Command`, `os.Stat` and `ioutil.ReadDir` are left out. Their outcomes are inputs:
  - file text;
  - process output and exit status;
  - whether a clone's `.vmx` exists;
  - the host's file map.
- `Vms.VM.UnpackGoldImage`: the image download, the seek and `unzipit.Unpack` are the `Fetch` parameter. The unzip format is not modelled.
- `LegacyVms.VM.Create`, `LegacyMain.VM.Create`: the model starts at the glob matches. The gold-image preparation before them is not modelled: the gold-directory check, the download, the seek and the unpack (vms/model.go:95-123, vm.go:127-153). Neither are their error returns, nor the `user.Current` error return at vm.go:121-124.
- `filepath.Glob` is a given sequence of matches, and the first one is used.
- `filepath.Join` is modelled as joining with `/` and skipping empty elements. It does not clean `..`, `.` or doubled separators.
- `user.Current` and the environment are left out: the home directory is a parameter, and `Vms.HomeConfig` lays out the three directories under it. The `PORT` default is not modelled.
- The govix library is a log of calls with answers taken from one `World`. Two limits follow:
  - Its error codes other than 13004 ("snapshot already exists") and its flag values are not visible.
  - Every opened machine gets the same answers, whether it is the gold machine or the clone.
- `LegacyVms.CloneStep`, `LegacyMain.CloneStep`: every clone error other than 13004 is returned. The source's type assertion `err.(*govix.Error)` would panic on an error of another type. A panic is not modelled.
- The adapters the govix controllers prepare are values, so reference aliasing between the caller's slice and the machine is not modelled.
- humanize's `ParseBytes` and `IBytes` are the `Units` parameter. Only the conversion to and from mebibytes around them is modelled.
- JSON and base64 of `Image` are the `Codec` parameter. JSON of the response records and callback payloads is the `marshal` parameter.
- The goroutine in `CreateVM` is run after the response, in sequence. No locking exists in the code, and none is modelled.
- HTTP serving, response writing (`pkg/render`), `http.Post` and the legacy handlers in `main.go` are not part of this model. The response is a status with a body value, and a post is a URL with its data.
- `crypto/rand` is the random bytes or their error, given as an input.
- Logging, `debug.PrintStack` and the stack traces of `apperror` are left out.
- Durations are integer nanoseconds, so the `Seconds() <= 0` test of the tools timeout is a comparison of the integer with 0.
- `strings.ToLower` covers ASCII letters only.
- `strconv.ParseInt` with base 0 accepts the sign and the `0x`, `0o` and `0b` prefixes, and checks the int64 range. It does not accept `_` digit separators.
- `Fusion7.InfoFromVmx`: in the error text, `strconv.Quote` escapes `"`, `\` and the ASCII control characters. Its escaping of non-printable non-ASCII characters and of invalid UTF-8 is not modelled: those characters are written as they are.
- `vm.go`'s `Refresh` and its field declarations are not part of this model. `Refresh` repeats `vms/model.go`'s sync.
- `FindVM` of `vms/model.go:384-401` is not part of this model. It stats the `.vmx` file, returns no machine when the file is missing, and otherwise runs the `Refresh` that `LegacyVms.VM.Refresh` models.
- The mock host's simplifications:
  - `Start`, `Stop`, `IsRunning`, `HasToolsInstalled` and `IPAddress` act on the running set and on fixed guest answers, not on `vmrun` output. The `Fusion7` model covers that parsing.
  - The failure of any call comes from the `Env.failure` parameter.
  - A clone copies the source's `.vmx` text.
