# f-docker: control groups and the `run` command, modelled in Dafny

This project models the two pieces of f-docker, a small container engine written in Go,
that decide what the engine writes, mounts and runs for one container:

- **The control-group accessor** (`cgroups/accessor.go`). For each container it creates
  five group directories, one under each of the `memory`, `pids`, `cpu`, `blkio` and
  `devices` hierarchies. It attaches the engine's process to them, writes the limits
  that are set, and removes the directories again.
  - The kernel's cgroup file system is an abstract store: a set of group directories,
    a map from control-file path to contents, and the set of calls the kernel refuses.
  - `CGroupFs` is a class over that store. Its methods are proved against plans, the
    sequences of `MkdirAll`/`WriteFile`/`Remove` calls the source makes.
  - Each call is wrapped in `utils.MustWithMsg`, so the first refused call ends the
    process. The class records this in its `exit` field.
- **The `run` command** (`cmds/impls/run/run.go`):
  - the container ID: six random bytes printed as lowercase hex;
  - the container's directories;
  - the overlay mount, whose lower directories are the image layers in reverse order;
  - parsing of the flags;
  - the `child-mode` argument vector, which forwards the limits that are set. A
    reader of that vector recovers what was forwarded.
  - `initContainer`, which runs every set-up and tear-down step in a fixed order.
    The `Engine` class records each step in an action log and stops at the first
    step whose failure ends the process.

Files:
- `Text.dfy`: decimal text (`strconv.Itoa`), `strings.Join`/`Split` on one character,
  and two-digit hex.
- `CGroups.dfy`: the control-group accessor.
- `Run.dfy`: the `run` command.

Facts about the code that shape the model:
- `initContainer` never calls `CreateCGroups` or `ConfigureCGroups` (`run.go:243-263`).
  The limits reach the control groups only through the flags forwarded to the
  `child-mode` process, whose code is not part of this model. So the action log of a
  run holds no cgroup creation.
- The error of the final `os.RemoveAll` is discarded (`run.go:262`).
- Nothing is torn down when an earlier step fails.

## Model

| member | source | states |
|---|---|---|
| CGroups.WrapInt64 | cgroups/accessor.go:59-73 | Go's 64-bit `int` arithmetic: the result is in the int64 range, congruent to the exact value modulo 2^64, and equal to it when it fits |
| CGroups.ContainerDirs | cgroups/accessor.go:21-26 | the five group directories of a container, all for that container's ID |
| CGroups.ContainerDirsAll | cgroups/accessor.go:21-26 | a group directory is among the five exactly when it belongs to the container: one per controller |
| CGroups.GroupDirTextInjective | cgroups/accessor.go:21-26 | distinct group directories have distinct paths |
| CGroups.ControlFileNameInjective | cgroups/accessor.go:34-37 | no two control files share a name |
| CGroups.FilePathTextInjective | cgroups/accessor.go:21-37 | distinct control files have distinct path strings, whatever the container ID holds, so keying the store by (directory, file) loses nothing |
| CGroups.Perform | cgroups/accessor.go:29-38 | running calls in order never changes which calls the kernel refuses; a failure names one of the calls made |
| CGroups.PerformAppend | cgroups/accessor.go:33-38 | running two call sequences runs the second only when the first finished |
| CGroups.PerformFirstFailure | cgroups/accessor.go:33-38 | a failed run stops at its first refused call; every call before it went through |
| CGroups.AttachWritesValue | cgroups/accessor.go:33-38 | attaching writes "1" to each directory's notify_on_release and the pid in decimal to its cgroup.procs, and nothing else; it makes and removes no directory |
| CGroups.AttachWritesShape | cgroups/accessor.go:33-38 | the attach loop makes two writes per directory, both in that directory, in the directories' order |
| CGroups.CreatePlan | cgroups/accessor.go:20-39 | CreateCGroups makes 15 calls with directory creation and 10 without, each on a directory of this container |
| CGroups.RemovePlan | cgroups/accessor.go:41-52 | RemoveCGroups makes five calls, each an `os.Remove` of a directory of this container, and removes the group under every controller |
| CGroups.CreatePlanWrites | cgroups/accessor.go:20-39 | CreateCGroups makes the five directories only when asked to, writes exactly the two attach files in each, and removes nothing |
| CGroups.CreateSucceeds | cgroups/accessor.go:20-39 | when the kernel accepts every call, CreateCGroups finishes and adds exactly the five directories |
| CGroups.PerformKeepsUnwritten | cgroups/accessor.go:29-38 | a run without removals, finished or cut short by a refused call, leaves every file it never writes as it was |
| CGroups.CreateKeepsOthers | cgroups/accessor.go:20-39 | CreateCGroups, with or without directory creation and whether it finishes or fails part-way, leaves every other container's control files as they were |
| CGroups.RemoveDirsSucceed | cgroups/accessor.go:49-51 | removing distinct existing directories removes exactly those and the files in them |
| CGroups.RemoveRestores | cgroups/accessor.go:41-52 | removing a container's five groups, when the kernel accepts each `os.Remove`, takes away exactly those directories and the files in them |
| CGroups.CreateThenRemove | cgroups/accessor.go:20-52 | in a valid store without the container's groups, and with the kernel accepting every MkdirAll, write and Remove of them, CreateCGroups then RemoveCGroups gives back the original store |
| CGroups.MemoryPlan | cgroups/accessor.go:54-75 | setMemoryLimit makes two writes when a swap limit is set and one otherwise, all in the container's memory group |
| CGroups.CpuPlan | cgroups/accessor.go:77-96 | setCpuLimit makes no call exactly when the request exceeds the host's cores; otherwise it writes only in the container's cpu group |
| CGroups.PeriodText | cgroups/accessor.go:88-90 | the CFS period is written as "1000000" |
| CGroups.MemoryStageWrites | cgroups/accessor.go:54-75 | setMemoryLimit writes mem·2^20 to memory.limit_in_bytes and (mem+swap)·2^20 to memory.memsw.limit_in_bytes only when swap ≥ 0, and nothing else |
| CGroups.CpuStageWrites | cgroups/accessor.go:77-96 | setCpuLimit writes the period and the quota, or nothing when the request exceeds the host's cores |
| CGroups.SingleStageWrites | cgroups/accessor.go:98-139 | setPidsLimit and the four blkio setters write their value to their one file and nothing else |
| CGroups.StageWrites | cgroups/accessor.go:140-162 | each guarded setter writes exactly the files it owns, with the expected limit, and makes or removes no directory |
| CGroups.PrefixWrites | cgroups/accessor.go:140-162 | the first n setters write exactly the files owned by those setters |
| CGroups.ConfigurePlan | cgroups/accessor.go:140-162 | every call of ConfigureCGroups is a write to a control file of this container whose limit is set |
| CGroups.ConfigureTouchesSetFiles | cgroups/accessor.go:140-162 | the seven guarded setters write only files of this container whose limit is set |
| CGroups.ConfigureWrites | cgroups/accessor.go:140-162 | ConfigureCGroups writes each control file with its expected limit, and writes no file whose limit is unset |
| CGroups.ConfigureEffect | cgroups/accessor.go:140-162 | after a finished ConfigureCGroups, each control file holds its expected limit when one is set and its old contents otherwise; no directory changes |
| CGroups.ConfigureUnsetIsNoop | cgroups/accessor.go:140-162 | with every limit unset, ConfigureCGroups leaves the store unchanged and finishes |
| CGroups.CpuOverCommitIgnored | cgroups/accessor.go:83-86 | a CPU request above the host's cores has the same effect as no CPU request |
| CGroups.MemoryExample | cgroups/accessor.go:59-73 | mem 512 and swap 256 give 536870912 and 805306368 |
| CGroups.ContinueAppend | cgroups/accessor.go:140-162 | a process that runs two call sequences one after the other runs their concatenation |
| CGroups.CGroupFs.Apply | cgroups/accessor.go:34-35 | one call wrapped in MustWithMsg: applied when accepted, ending the process when refused, skipped once ended |
| CGroups.CGroupFs.EnsureDirs | cgroups/accessor.go:28-31 | creates the directories in order, stopping at the first refusal |
| CGroups.CGroupFs.CreateCGroups | cgroups/accessor.go:20-39 | the store after the method is the create plan run from the old store |
| CGroups.CGroupFs.RemoveCGroups | cgroups/accessor.go:41-52 | removes the five directories in order, stopping at the first refusal |
| CGroups.CGroupFs.SetMemoryLimit | cgroups/accessor.go:54-75 | the memory plan run from the old store |
| CGroups.CGroupFs.SetCpuLimit | cgroups/accessor.go:77-96 | the CPU plan run from the old store; nothing happens above the core count |
| CGroups.CGroupFs.SetPidsLimit | cgroups/accessor.go:98-106 | the pids plan run from the old store |
| CGroups.CGroupFs.SetThrottle | cgroups/accessor.go:108-139 | the one blkio write run from the old store |
| CGroups.CGroupFs.ConfigureCGroups | cgroups/accessor.go:140-162 | the guarded setters, in order, run from the old store |
| Run.HexString | cmds/impls/run/run.go:105-107 | two lowercase hex digits per byte |
| Run.HexStringRoundTrip | cmds/impls/run/run.go:105-107 | reading the hex back gives the bytes in order |
| Run.CreateContainerID | cmds/impls/run/run.go:102-108 | the ID is 12 lowercase hex characters that read back as the six random bytes |
| Run.ContainerIDBytes | cmds/impls/run/run.go:105-107 | characters 2i and 2i+1 of the ID are byte i in hex, high nibble first |
| Run.ContainerIDInjective | cmds/impls/run/run.go:102-108 | distinct random bytes give distinct IDs |
| Run.PathJoin | cmds/impls/run/run.go:110-120 | `path.Join` of a clean absolute path and a plain name is the path, a slash and the name |
| Run.MntPath | cmds/impls/run/run.go:110-112 | getContainerMntPath is the child `mnt` of the container's home, in text the home and `/mnt` |
| Run.UpperDirPath | cmds/impls/run/run.go:114-116 | getContainerUpperDirPath is the child `upperdir` of the home |
| Run.WorkDirPath | cmds/impls/run/run.go:118-120 | getContainerWorkDirPath is the child `workdir` of the home |
| Run.ContainerDirectoriesShape | cmds/impls/run/run.go:110-131 | the four directories are the home and its children mnt, upperdir and workdir, all distinct |
| Run.LowerDirs | cmds/impls/run/run.go:139-141 | one lower directory per manifest layer |
| Run.BuildLowerDirs | cmds/impls/run/run.go:139-141 | the prepend loop builds the layer directories, last manifest layer first |
| Run.LowerDirsReversed | cmds/impls/run/run.go:139-141 | reversing the manifest puts the layer directories back in manifest order |
| Run.MountOptions | cmds/impls/run/run.go:143 | the mount data starts with `lowerdir=` and has 45 characters besides the joined lower directories and the home's text twice |
| Run.MountOnMntPath | cmds/impls/run/run.go:110-120 | the overlay's target is the mnt directory createContainerDirectories made, and the upperdir and workdir texts in the mount data are its other two directories |
| Run.MountOptionsFields | cmds/impls/run/run.go:143 | the mount data splits on ',' into lowerdir=, upperdir= and workdir=; the lowerdir value splits on ':' back into the lower directories |
| Run.ParseFlags | cmds/impls/run/run.go:60-90 | fails exactly when fewer than two positional arguments are given; otherwise the image is the first and the command the rest |
| Run.DefaultsAreUnset | cmds/impls/run/run.go:64-71 | with no flags, no limit flag is forwarded and configuring the limits writes nothing |
| Run.ChildArgs | cmds/impls/run/run.go:201-229 | the appends build `child-mode`, the gated limit flags in order, `--img=<digest>`, the ID and the command |
| Run.AppendDeviceFlags | cmds/impls/run/run.go:213-224 | the four device flags are appended in order, each only when not empty |
| Run.NameRoundTrip | cmds/impls/run/run.go:201-224 | the limit flag names are distinct, hold no '=', and none is `--img` |
| Run.ReadNumberFlags | cmds/impls/run/run.go:201-212 | the mem, swap, pids and cpus flags read back as the numbers that are set, and unset otherwise |
| Run.ReadDeviceFlags | cmds/impls/run/run.go:213-224 | the device flags read back as the device limits |
| Run.ChildArgvRoundTrip | cmds/impls/run/run.go:201-229 | a reader of the child's arguments recovers every set limit, unset for the others, the digest, the ID and the command |
| Run.ContainerSteps | cmds/impls/run/run.go:167-240 | prepareAndExecuteContainer runs three processes of `/proc/self/exe`; only the last, child-mode, gets new namespaces |
| Run.ContainerChildForwards | cmds/impls/run/run.go:201-240 | the child-mode process runs in new PID, mount, UTS and IPC namespaces, and a reader of its arguments recovers the forwarded limits, digest, ID and command |
| Run.InitSteps | cmds/impls/run/run.go:243-262 | initContainer takes eleven steps; the failure of each ends the process except that of the last, the discarded `os.RemoveAll` |
| Run.EndsOnFailure | cmds/impls/run/run.go:252-262 | every step's failure is fatal (`log.Fatalf`, `utils.Must`, `MustWithMsg`) except the final `os.RemoveAll`, whose error is discarded |
| Run.UntilFatal | cmds/impls/run/run.go:243-262 | the attempted steps are never more than the steps and always begin with the first step: it is attempted whether or not it fails |
| Run.UntilFatalAppend | cmds/impls/run/run.go:243-263 | running two step lists attempts the second only when the first completed |
| Run.UntilFatalPrefix | cmds/impls/run/run.go:168-183 | the attempted steps are a prefix of the steps; all of them when none fails fatally, otherwise the last one is the first fatal failure |
| Run.ReachedAfterEarlierSteps | cmds/impls/run/run.go:243-263 | a step is attempted only after every earlier step went through |
| Run.RemoveAllIgnored | cmds/impls/run/run.go:262 | a failing final RemoveAll changes neither the attempted steps nor the outcome |
| Run.StepsGate | cmds/impls/run/run.go:243-263 | when the first n steps are fatal on failure, a later step is reached exactly when none of them fails |
| Run.TeardownOnlyAfterContainerRan | cmds/impls/run/run.go:243-263 | eleven steps with the container's process seventh; teardown is reached exactly when set-up and the container's process all went through |
| Run.UnmountMatchesMount | cmds/impls/run/run.go:146-158 | when the home is `<containers>/<id>/fs`, the unmounted path is the mounted one |
| Run.Engine.Do | cmds/impls/run/run.go:146-148 | one step: logged when the process runs, ending it on a failure that is not discarded |
| Run.Engine.CreateContainerDirectories | cmds/impls/run/run.go:122-131 | one EnsureDirs of the four container directories, fatal on failure |
| Run.Engine.MountOverlayFileSystem | cmds/impls/run/run.go:133-149 | one overlay mount with the reversed layers as lowerdir, fatal on failure |
| Run.Engine.PrepareAndExecuteContainer | cmds/impls/run/run.go:164-241 | setup-netns, setup-veth, then child-mode in new PID, mount, UTS and IPC namespaces, each fatal on failure |
| Run.Engine.UnmountNetworkNamespace | cmds/impls/run/run.go:151-154 | one network-namespace unmount |
| Run.Engine.UnmountContainerFs | cmds/impls/run/run.go:156-162 | one unmount of `<containers>/<id>/fs/mnt`, fatal on failure |
| Run.Engine.InitContainer | cmds/impls/run/run.go:243-263 | the log gains the run's steps up to the first fatal failure, and the process survives exactly when none fails |

## Left out

- Floating point. `--cpus` is a float of cores in the source. The model counts it in
  millionths of a core, so `int(1000000*limit)` (accessor.go:93) is that count. The
  over-commit test (accessor.go:83) compares the count with the cores times 10^6.
  `strconv.FormatFloat(cpus, 'f', 1, 64)` (run.go:212) is a text given as a parameter.
- `rand.Read`, `os.Getpid` and `runtime.NumCPU` are parameters.
- Kernel calls are abstract actions that either succeed or fail. This covers
  `unix.Mount`/`Unmount`, `exec.Cmd.Run` of `/proc/self/exe` (clone flags are a set of
  namespaces), `ioutil.WriteFile`, `os.MkdirAll`, `os.Remove` and `os.RemoveAll`. Which
  calls fail is a parameter: the store's `faults` and the engine's `failing` set.
  Standard input and output wiring and file modes are not modelled.
- The following are not part of this model; their results are parameters and their
  calls are actions:
  - the network accessor (`IsFDockerBridgeUp`, `SetupFDockerBridge`,
    `SetupVirtualEthOnHost`, `UnmountNetworkNamespace`);
  - the image accessor (`DownloadImageIfRequired`, manifest parsing, base paths);
  - `workdirs` (`GetContainerFSHome`, `ContainersPath`);
  - `utils.EnsureDirs`.
  - Consequences: `CGroupFs.EnsureDirs` assumes it creates each directory in turn and
    stops at the first failure. The image and network actions are taken to end the
    process when they fail.
- `Executor.Exec` and `setUpBridge` (run.go:41-45, 92-100) only chain parse, bridge
  set-up and `initContainer`; the bridge calls go to the network accessor.
- The `child-mode`, `setup-netns` and `setup-veth` commands themselves are not part of
  this model. `Run.ReadChildArgv` is this model's reader of the argument vector, not
  the child's flag parser.
- Run.LimitsOf: hands the parent's own CPU request to ConfigureCGroups. The child gets
  `strconv.FormatFloat(cpus, 'f', 1, 64)` (run.go:212), the request rounded to one
  decimal, and applies that. So 0.26 cores arrive as "0.3". A request of 0.04 arrives
  as "0.0", and the `cpus > 0` guard (accessor.go:144) then drops the CPU limit. The
  model does not capture this rounding.
- Run.ParseFlags: takes the values pflag found, flag by flag. Parse errors, which are
  only printed (run.go:72-74), and unknown flags are not modelled.
- Paths in `run.go` are clean absolute paths given as lists of names (`FsPath`); the
  container's home is a parameter.
- The discarded `path.Join` at run.go:157 has no effect and is not modelled.
- Logging and printing (`log.Printf`, `fmt.Println`) are not modelled.
- Run.LowerDirs: its own contract states only the length; its order is stated by
  Run.BuildLowerDirs and Run.LowerDirsReversed.
- Run.MountOptionsFields: requires that no lower directory holds ',' or ':' and that
  the home holds no ','. Without that the mount data cannot be split back apart. The
  source does not check it. It also requires at least one lower directory
  (`|lower| >= 1`), which leaves out an image with no layers, and a home below the root
  (`home.names != []`).
- Run.BuildLowerDirs: requires every manifest layer to have at least 12 characters;
  the source's `layer[:12]` panics otherwise.
- The kernel refusing to remove a group that still has attached processes is one of
  the store's refused calls; process membership is not modelled.
- CGroups.CreateThenRemove: assumes the kernel accepts every `Remove`. CreateCGroups
  writes the calling process's pid into each `cgroup.procs` (accessor.go:36-37), and
  the kernel refuses to remove a group that still has a member. So the round trip
  holds only after that process has left the groups; in f-docker that is after the
  `child-mode` process exits.
