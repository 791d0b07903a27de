/** The `run` command of cmds/impls/run/run.go: the container ID, the
    per-container paths, the overlay mount options, the `child-mode`
    argument vector, the command-line defaults, and the order in which
    `initContainer` makes its calls.

    Kernel calls, process launches and the collaborators whose code is not
    part of this model (the image and network accessors, the `workdirs`
    package, `utils.EnsureDirs`) are actions an `Engine` records in a trace;
    the environment decides which of them fail. */
module Run {
  import opened Text
  import CGroups

  // ---------------------------------------------------------------------
  // createContainerID
  // ---------------------------------------------------------------------

  /** `%02x` of each byte in turn. */
  function HexString(bs: seq<Byte>): (r: string)
    ensures |r| == 2 * |bs|
    ensures forall i :: 0 <= i < |r| ==> IsLowerHex(r[i])
    decreases |bs|
  {
    if bs == [] then "" else HexByte(bs[0]) + HexString(bs[1..])
  }

  /** Byte `i` is written at positions 2i and 2i+1, high nibble first. */
  lemma {:induction false} HexStringPairs(bs: seq<Byte>, i: nat)
    requires i < |bs|
    ensures HexString(bs)[2 * i..2 * i + 2] == HexByte(bs[i])
    decreases i
  {
    if i > 0 {
      HexStringPairs(bs[1..], i - 1);
      assert HexString(bs)[2 * i..2 * i + 2] == HexString(bs[1..])[2 * (i - 1)..2 * (i - 1) + 2];
    }
  }

  /** Reading the hex text back gives the bytes. */
  lemma {:induction false} HexStringRoundTrip(bs: seq<Byte>)
    ensures ParseHex(HexString(bs)) == bs
    decreases |bs|
  {
    if bs != [] {
      var s := HexString(bs);
      HexByteRoundTrip(bs[0]);
      assert s[2..] == HexString(bs[1..]);
      HexStringRoundTrip(bs[1..]);
    }
  }

  /** The container ID: the six random bytes (an input here, since
      rand.Read is not modelled) as twelve lowercase hex digits. Distinct
      bytes give distinct IDs, because the bytes can be read back. */
  function CreateContainerID(randBytes: seq<Byte>): (id: string)
    requires |randBytes| == 6
    ensures |id| == 12
    ensures forall i :: 0 <= i < 12 ==> IsLowerHex(id[i])
    ensures ParseHex(id) == randBytes
  {
    HexStringRoundTrip(randBytes);
    HexString(randBytes)
  }

  lemma ContainerIDBytes(randBytes: seq<Byte>, i: nat)
    requires |randBytes| == 6 && i < 6
    ensures CreateContainerID(randBytes)[2 * i..2 * i + 2] == HexByte(randBytes[i])
  {
    HexStringPairs(randBytes, i);
  }

  lemma ContainerIDInjective(a: seq<Byte>, b: seq<Byte>)
    requires |a| == 6 && |b| == 6
    requires CreateContainerID(a) == CreateContainerID(b)
    ensures a == b
  {
  }

  // ---------------------------------------------------------------------
  // Paths
  // ---------------------------------------------------------------------

  /** A name `path.Join` leaves as it is: not empty, not "." or "..", no slash. */
  predicate PlainName(s: string) {
    s != "" && s != "." && s != ".." && '/' !in s
  }

  /** A clean absolute path, as a list of plain names below the root. */
  datatype FsPath = FsPath(names: seq<string>) {
    ghost predicate Valid() {
      forall i :: 0 <= i < |names| ==> PlainName(names[i])
    }

    function Text(): string {
      if names == [] then "/" else "/" + Join(names, '/')
    }
  }

  /** `path.Join(p, name)` for a clean absolute `p` and a plain `name`:
      the name is appended after one slash. */
  function PathJoin(p: FsPath, name: string): (r: FsPath)
    requires p.Valid() && PlainName(name)
    ensures r.Valid()
    ensures r.Text() == (if p.names == [] then "" else p.Text()) + "/" + name
  {
    if p.names == [] then FsPath([name])
    else
      JoinSnoc(p.names, name, '/');
      FsPath(p.names + [name])
  }

  /** getContainerMntPath, the child "mnt" of the container's home
      (`home` is workdirs.GetContainerFSHome(containerID)); its text is the
      home's text and "/mnt", or "/mnt" for the root. */
  function MntPath(home: FsPath): (r: FsPath)
    requires home.Valid()
    ensures r.Valid() && r.names == home.names + ["mnt"]
    ensures r.Text() == (if home.names == [] then "" else home.Text()) + "/" + "mnt"
  {
    PathJoin(home, "mnt")
  }

  /** getContainerUpperDirPath, the child "upperdir" of the home. */
  function UpperDirPath(home: FsPath): (r: FsPath)
    requires home.Valid()
    ensures r.Valid() && r.names == home.names + ["upperdir"]
    ensures r.Text() == (if home.names == [] then "" else home.Text()) + "/" + "upperdir"
  {
    PathJoin(home, "upperdir")
  }

  /** getContainerWorkDirPath, the child "workdir" of the home. */
  function WorkDirPath(home: FsPath): (r: FsPath)
    requires home.Valid()
    ensures r.Valid() && r.names == home.names + ["workdir"]
    ensures r.Text() == (if home.names == [] then "" else home.Text()) + "/" + "workdir"
  {
    PathJoin(home, "workdir")
  }

  /** The directories createContainerDirectories ensures, in its order. */
  function ContainerDirectories(home: FsPath): seq<FsPath>
    requires home.Valid()
  {
    [home, MntPath(home), UpperDirPath(home), WorkDirPath(home)]
  }

  /** The four directories are the home and its three children mnt,
      upperdir and workdir: four distinct paths. */
  lemma ContainerDirectoriesShape(home: FsPath)
    requires home.Valid()
    ensures |ContainerDirectories(home)| == 4
    ensures forall i, j :: 0 <= i < j < 4 ==> ContainerDirectories(home)[i] != ContainerDirectories(home)[j]
    ensures ContainerDirectories(home)[0] == home
    ensures MntPath(home).names == home.names + ["mnt"]
    ensures UpperDirPath(home).names == home.names + ["upperdir"]
    ensures WorkDirPath(home).names == home.names + ["workdir"]
  {
    var ds := ContainerDirectories(home);
    forall i, j | 0 <= i < j < 4 ensures ds[i] != ds[j] {
      if i == 0 {
        assert |ds[j].names| == |home.names| + 1;
      } else {
        assert ds[i].names[|home.names|] != ds[j].names[|home.names|];
      }
    }
  }

  // ---------------------------------------------------------------------
  // mountOverlayFileSystem
  // ---------------------------------------------------------------------

  /** Every manifest layer is long enough for `layer[:12]`. */
  predicate LayersOk(layers: seq<string>) {
    forall i :: 0 <= i < |layers| ==> |layers[i]| >= 12
  }

  /** Where the image keeps one layer: its first 12 characters name the directory. */
  function LayerDir(imageBase: string, layer: string): string
    requires |layer| >= 12
  {
    imageBase + "/" + layer[..12] + "/fs"
  }

  /** The lower directories in overlay order: the last manifest layer first. */
  function LowerDirs(imageBase: string, layers: seq<string>): (r: seq<string>)
    requires LayersOk(layers)
    ensures |r| == |layers|
  {
    seq(|layers|, i requires 0 <= i < |layers| => LayerDir(imageBase, layers[|layers| - 1 - i]))
  }

  /** Builds the lower directories by putting each layer in front of the
      ones seen before it. */
  method BuildLowerDirs(imageBase: string, layers: seq<string>) returns (srcLayers: seq<string>)
    requires LayersOk(layers)
    ensures srcLayers == LowerDirs(imageBase, layers)
  {
    srcLayers := [];
    var i := 0;
    while i < |layers|
      invariant 0 <= i <= |layers|
      invariant srcLayers == LowerDirs(imageBase, layers[..i])
    {
      ghost var before := srcLayers;
      srcLayers := [LayerDir(imageBase, layers[i])] + srcLayers;
      assert layers[..i + 1][..i] == layers[..i];
      assert forall k :: 1 <= k <= i ==> srcLayers[k] == before[k - 1];
      i := i + 1;
    }
    assert layers[..i] == layers;
  }

  /** Reversing the manifest twice gives it back: the lower directories of
      the reversed manifest are the layer directories in manifest order. */
  lemma LowerDirsReversed(imageBase: string, layers: seq<string>)
    requires LayersOk(layers)
    ensures LayersOk(Reverse(layers))
    ensures forall i :: 0 <= i < |layers| ==> LowerDirs(imageBase, Reverse(layers))[i] == LayerDir(imageBase, layers[i])
  {
  }

  function Reverse<T>(xs: seq<T>): (r: seq<T>)
    ensures |r| == |xs|
    ensures forall i :: 0 <= i < |xs| ==> r[i] == xs[|xs| - 1 - i]
  {
    seq(|xs|, i requires 0 <= i < |xs| => xs[|xs| - 1 - i])
  }

  /** The mount source and file-system type of the overlay mount. */
  const OverlaySource := "/dev/sda5"
  const OverlayType := "overlay"

  /** The mount data: the lower directories joined by ':', then the
      container's upperdir and workdir. */
  function MountOptions(lower: seq<string>, home: FsPath): (r: string)
    ensures "lowerdir=" <= r
    ensures |r| == 45 + |Join(lower, ':')| + 2 * |home.Text()|
  {
    "lowerdir=" + Join(lower, ':') + ",upperdir=" + home.Text() + "/upperdir,workdir=" + home.Text() + "/workdir"
  }

  /** The mount target: the home's text followed by "/mnt". */
  function MountTarget(home: FsPath): string {
    home.Text() + "/mnt"
  }

  /** The overlay is mounted on the mnt directory that
      createContainerDirectories made, and the upperdir and workdir texts of
      the mount options are the other two directories it made (for any home
      below the root). */
  lemma MountOnMntPath(home: FsPath)
    requires home.Valid() && home.names != []
    ensures MountTarget(home) == MntPath(home).Text()
    ensures UpperDirPath(home).Text() == home.Text() + "/upperdir"
    ensures WorkDirPath(home).Text() == home.Text() + "/workdir"
  {
    var h := home.Text();
    assert (h + "/") + "mnt" == h + "/mnt" by {
      assert (h + "/") + "mnt" == h + ("/" + "mnt");
      assert "/" + "mnt" == "/mnt";
    }
    assert (h + "/") + "upperdir" == h + "/upperdir" by {
      assert (h + "/") + "upperdir" == h + ("/" + "upperdir");
      assert "/" + "upperdir" == "/upperdir";
    }
    assert (h + "/") + "workdir" == h + "/workdir" by {
      assert (h + "/") + "workdir" == h + ("/" + "workdir");
      assert "/" + "workdir" == "/workdir";
    }
  }

  /** The options split on ',' into exactly the three fields, the lowerdir
      field splits on ':' into the lower directories, and the upperdir and
      workdir fields name the directories createContainerDirectories made,
      as long as no path holds a ',' or a ':'. */
  lemma MountOptionsFields(lower: seq<string>, home: FsPath)
    requires home.Valid() && home.names != []
    requires |lower| >= 1
    requires forall i :: 0 <= i < |lower| ==> ',' !in lower[i] && ':' !in lower[i]
    requires ',' !in home.Text()
    ensures Split(MountOptions(lower, home), ',') ==
      ["lowerdir=" + Join(lower, ':'), "upperdir=" + UpperDirPath(home).Text(), "workdir=" + WorkDirPath(home).Text()]
    ensures Split(Join(lower, ':'), ':') == lower
  {
    var h := home.Text();
    MountOnMntPath(home);
    JoinExcludes(lower, ':', ',');
    OptionFields(Join(lower, ':'), h);
    SplitJoin(lower, ':');
  }

  /** The three fields of the option text, for any lowerdir list `l` and
      home `h` without a comma. */
  lemma OptionFields(l: string, h: string)
    requires ',' !in l && ',' !in h
    ensures Split("lowerdir=" + l + ",upperdir=" + h + "/upperdir,workdir=" + h + "/workdir", ',')
      == ["lowerdir=" + l, "upperdir=" + (h + "/upperdir"), "workdir=" + (h + "/workdir")]
  {
    var f0, f1, f2 := "lowerdir=" + l, "upperdir=" + (h + "/upperdir"), "workdir=" + (h + "/workdir");
    Join3(f0, f1, f2, ',');
    var u, w := "/upperdir", "/workdir";
    assert "lowerdir=" + l + ",upperdir=" + h + "/upperdir,workdir=" + h + w
        == f0 + [','] + (f1 + [','] + f2) by {
      assert ",upperdir=" == [','] + "upperdir=";
      assert "/upperdir,workdir=" == u + [','] + "workdir=";
    }
    assert ',' !in f0 && ',' !in f1 && ',' !in f2 by {
      assert ',' !in "lowerdir=" && ',' !in "upperdir=" && ',' !in "workdir=";
      assert ',' !in u && ',' !in w;
    }
    SplitJoin([f0, f1, f2], ',');
  }

  // ---------------------------------------------------------------------
  // parseFlags
  // ---------------------------------------------------------------------

  /** The arguments of one `run`. `cpus` counts millionths of a core (the
      source's float64 of cores); the other numbers are Go ints as parsed. */
  datatype RunArgs = RunArgs(mem: int, swap: int, pids: int, cpus: int,
                             readBps: string, readIops: string,
                             writeBps: string, writeIops: string,
                             imageName: string, commands: seq<string>)

  /** The values pflag found on the command line, flag by flag (None when
      a flag was not given); how pflag reads them is not modelled. */
  datatype FlagValues = FlagValues(mem: Option<int>, swap: Option<int>, pids: Option<int>, cpus: Option<int>,
                                   readBps: Option<string>, readIops: Option<string>,
                                   writeBps: Option<string>, writeIops: Option<string>)

  const NoFlags := FlagValues(None, None, None, None, None, None, None, None)

  datatype Result<T> = Ok(value: T) | Fatal(msg: string)

  /** parseFlags: each flag's value or its default (-1 for the numbers, ""
      for the device limits); the first positional argument is the image
      and the rest the command. Fewer than two positional arguments end the
      process. */
  function ParseFlags(given: FlagValues, positional: seq<string>): (r: Result<RunArgs>)
    ensures r.Ok? <==> |positional| >= 2
    ensures r.Ok? ==> [r.value.imageName] + r.value.commands == positional && |r.value.commands| >= 1
  {
    if |positional| < 2 then Fatal("Please pass image name and command to run")
    else
      assert [positional[0]] + positional[1..] == positional;
      Ok(RunArgs(given.mem.GetOr(-1), given.swap.GetOr(-1), given.pids.GetOr(-1), given.cpus.GetOr(-1),
                 given.readBps.GetOr(""), given.readIops.GetOr(""),
                 given.writeBps.GetOr(""), given.writeIops.GetOr(""),
                 positional[0], positional[1..]))
  }

  /** The limits of a run as the child-mode command hands them to
      ConfigureCGroups. */
  function LimitsOf(a: RunArgs): CGroups.Limits {
    CGroups.Limits(a.mem, a.swap, a.pids, a.cpus, a.readBps, a.readIops, a.writeBps, a.writeIops)
  }

  /** Every default is the "unset" value of its limit: a run without flags
      forwards no limit flag to the child and configures no control file. */
  lemma DefaultsAreUnset(positional: seq<string>, cpusText: string, digest: string, id: string,
                         st: CGroups.Store, numCpu: int)
    requires |positional| >= 2
    ensures ChildFlags(ParseFlags(NoFlags, positional).value, cpusText) == []
    ensures CGroups.Perform(st, CGroups.ConfigurePlan(id, LimitsOf(ParseFlags(NoFlags, positional).value), numCpu))
            == CGroups.RunResult(st, CGroups.Done)
  {
    CGroups.ConfigureUnsetIsNoop(st, id, LimitsOf(ParseFlags(NoFlags, positional).value), numCpu);
  }

  // ---------------------------------------------------------------------
  // prepareAndExecuteContainer: the child-mode argument vector
  // ---------------------------------------------------------------------

  /** `--name=value`. */
  function Flag(name: string, value: string): string {
    name + "=" + value
  }

  /** The limit flags the run command forwards to its child. */
  datatype Knob = Mem | Swap | Pids | Cpus | ReadBps | ReadIops | WriteBps | WriteIops

  function Name(k: Knob): string {
    match k
    case Mem => "--mem"
    case Swap => "--swap"
    case Pids => "--pids"
    case Cpus => "--cpus"
    case ReadBps => "--device-read-bps"
    case ReadIops => "--device-read-iops"
    case WriteBps => "--device-write-bps"
    case WriteIops => "--device-write-iops"
  }

  /** `opts` with the flag `k`=`v` appended when `cond` holds. */
  function AddIf(opts: seq<string>, cond: bool, k: Knob, v: string): seq<string> {
    if cond then opts + [Flag(Name(k), v)] else opts
  }

  /** The limit flags forwarded to the child, in the source's order, each
      only when its limit is set; `cpusText` is the source's
      strconv.FormatFloat(cpus, 'f', 1, 64). */
  function ChildFlags(a: RunArgs, cpusText: string): seq<string> {
    DeviceFlags(NumberFlags(a, cpusText), a)
  }

  /** The memory, swap, pids and CPU flags. */
  function NumberFlags(a: RunArgs, cpusText: string): seq<string> {
    AddIf(AddIf(AddIf(AddIf([], a.mem > 0, Mem, Itoa(a.mem)),
                      a.swap >= 0, Swap, Itoa(a.swap)),
                a.pids > 0, Pids, Itoa(a.pids)),
          a.cpus > 0, Cpus, cpusText)
  }

  /** `opts` followed by the four device throttle flags. */
  function DeviceFlags(opts: seq<string>, a: RunArgs): seq<string> {
    AddIf(AddIf(AddIf(AddIf(opts, a.readBps != "", ReadBps, a.readBps),
                      a.readIops != "", ReadIops, a.readIops),
                a.writeBps != "", WriteBps, a.writeBps),
          a.writeIops != "", WriteIops, a.writeIops)
  }

  /** `child-mode`, the limit flags, `--img=<digest>`, the container ID and
      the command. */
  function ChildArgv(a: RunArgs, cpusText: string, digest: string, id: string): seq<string> {
    ["child-mode"] + ((ChildFlags(a, cpusText) + [Flag("--img", digest)]) + ([id] + a.commands))
  }

  /** Builds the child's arguments by successive appends, as the source does. */
  method ChildArgs(a: RunArgs, cpusText: string, digest: string, id: string) returns (args: seq<string>)
    ensures args == ChildArgv(a, cpusText, digest, id)
  {
    var opts: seq<string> := [];
    ghost var o: seq<string> := opts;
    if a.mem > 0 {
      opts := opts + [Flag("--mem", Itoa(a.mem))];
    }
    assert opts == AddIf(o, a.mem > 0, Mem, Itoa(a.mem));
    o := opts;
    if a.swap >= 0 {
      opts := opts + [Flag("--swap", Itoa(a.swap))];
    }
    assert opts == AddIf(o, a.swap >= 0, Swap, Itoa(a.swap));
    o := opts;
    if a.pids > 0 {
      opts := opts + [Flag("--pids", Itoa(a.pids))];
    }
    assert opts == AddIf(o, a.pids > 0, Pids, Itoa(a.pids));
    o := opts;
    if a.cpus > 0 {
      opts := opts + [Flag("--cpus", cpusText)];
    }
    assert opts == AddIf(o, a.cpus > 0, Cpus, cpusText);
    opts := AppendDeviceFlags(opts, a);
    opts := opts + [Flag("--img", digest)];
    args := [id] + a.commands;
    args := opts + args;
    args := ["child-mode"] + args;
  }

  /** The device throttle part of the child's flags, appended to `opts`. */
  method AppendDeviceFlags(opts: seq<string>, a: RunArgs) returns (r: seq<string>)
    ensures r == DeviceFlags(opts, a)
  {
    r := opts;
    ghost var o: seq<string> := r;
    if a.readBps != "" {
      r := r + [Flag("--device-read-bps", a.readBps)];
    }
    assert r == AddIf(o, a.readBps != "", ReadBps, a.readBps);
    o := r;
    if a.readIops != "" {
      r := r + [Flag("--device-read-iops", a.readIops)];
    }
    assert r == AddIf(o, a.readIops != "", ReadIops, a.readIops);
    o := r;
    if a.writeBps != "" {
      r := r + [Flag("--device-write-bps", a.writeBps)];
    }
    assert r == AddIf(o, a.writeBps != "", WriteBps, a.writeBps);
    o := r;
    if a.writeIops != "" {
      r := r + [Flag("--device-write-iops", a.writeIops)];
    }
    assert r == AddIf(o, a.writeIops != "", WriteIops, a.writeIops);
  }

  /** What the child-mode command reads from its arguments. Unset numbers
      are -1 and unset texts are empty. */
  datatype ChildRequest = ChildRequest(mem: int, swap: int, pids: int, cpusText: string,
                                       readBps: string, readIops: string,
                                       writeBps: string, writeIops: string,
                                       digest: string, id: string, commands: seq<string>)

  const Unset := ChildRequest(-1, -1, -1, "", "", "", "", "", "", "", [])

  /** The name of a flag: the text before its first '='. */
  function FlagName(f: string): string {
    f[..IndexOf(f, '=')]
  }

  /** The value of a flag: the text after its first '='. */
  function FlagValue(f: string): string {
    if IndexOf(f, '=') < |f| then f[IndexOf(f, '=') + 1..] else ""
  }

  lemma FlagParts(name: string, value: string)
    requires '=' !in name
    ensures FlagName(Flag(name, value)) == name
    ensures FlagValue(Flag(name, value)) == value
  {
    assert Flag(name, value) == name + ['='] + value;
    IndexOfAfter(name, '=', value);
    assert Flag(name, value)[..|name|] == name;
    assert Flag(name, value)[|name| + 1..] == value;
  }

  /** The limit flag a name stands for, if any. */
  function KnobNamed(n: string): Option<Knob> {
    if n == "--mem" then Some(Mem)
    else if n == "--swap" then Some(Swap)
    else if n == "--pids" then Some(Pids)
    else if n == "--cpus" then Some(Cpus)
    else if n == "--device-read-bps" then Some(ReadBps)
    else if n == "--device-read-iops" then Some(ReadIops)
    else if n == "--device-write-bps" then Some(WriteBps)
    else if n == "--device-write-iops" then Some(WriteIops)
    else None
  }

  /** The names are distinct, hold no '=', and none is `--img`. */
  lemma NameRoundTrip(k: Knob)
    ensures KnobNamed(Name(k)) == Some(k)
    ensures '=' !in Name(k) && Name(k) != "--img"
  {
  }

  /** Sets the field a limit flag names; numbers are read as decimal. */
  function SetKnob(r: ChildRequest, k: Knob, v: string): ChildRequest {
    match k
    case Mem => r.(mem := ParseInt(v))
    case Swap => r.(swap := ParseInt(v))
    case Pids => r.(pids := ParseInt(v))
    case Cpus => r.(cpusText := v)
    case ReadBps => r.(readBps := v)
    case ReadIops => r.(readIops := v)
    case WriteBps => r.(writeBps := v)
    case WriteIops => r.(writeIops := v)
  }

  function ApplyFlag(r: ChildRequest, f: string): ChildRequest {
    match KnobNamed(FlagName(f))
    case Some(k) => SetKnob(r, k, FlagValue(f))
    case None => r
  }

  /** Reads flags up to `--img=<digest>`, which is followed by the
      container ID and the command. */
  function ReadFlags(rest: seq<string>, r: ChildRequest): Option<ChildRequest>
    decreases |rest|
  {
    if rest == [] then None
    else if FlagName(rest[0]) == "--img" then
      if |rest| < 2 then None else Some(r.(digest := FlagValue(rest[0]), id := rest[1], commands := rest[2..]))
    else ReadFlags(rest[1..], ApplyFlag(r, rest[0]))
  }

  function ReadChildArgv(argv: seq<string>): Option<ChildRequest> {
    if argv == [] || argv[0] != "child-mode" then None else ReadFlags(argv[1..], Unset)
  }

  function ApplyFlags(flags: seq<string>, r: ChildRequest): ChildRequest
    decreases |flags|
  {
    if flags == [] then r else ApplyFlags(flags[1..], ApplyFlag(r, flags[0]))
  }

  lemma {:induction false} ApplyFlagsSnoc(a: seq<string>, f: string, r: ChildRequest)
    ensures ApplyFlags(a + [f], r) == ApplyFlag(ApplyFlags(a, r), f)
    decreases |a|
  {
    if a != [] {
      assert (a + [f])[1..] == a[1..] + [f];
      ApplyFlagsSnoc(a[1..], f, ApplyFlag(r, a[0]));
    } else {
      assert (a + [f])[1..] == [];
    }
  }

  /** No flag in `flags` is named `--img`. */
  predicate NoImage(flags: seq<string>) {
    forall i :: 0 <= i < |flags| ==> FlagName(flags[i]) != "--img"
  }

  /** One AddIf step: the flag it may add is not `--img`, and reading it
      sets the field it names. */
  lemma ReadAddIf(opts: seq<string>, cond: bool, k: Knob, v: string, r: ChildRequest)
    requires NoImage(opts)
    ensures NoImage(AddIf(opts, cond, k, v))
    ensures ApplyFlags(AddIf(opts, cond, k, v), r)
            == if cond then SetKnob(ApplyFlags(opts, r), k, v) else ApplyFlags(opts, r)
  {
    NameRoundTrip(k);
    FlagParts(Name(k), v);
    if cond {
      ApplyFlagsSnoc(opts, Flag(Name(k), v), r);
    }
  }

  /** Flags other than `--img` are read one after another. */
  lemma {:induction false} ReadFlagsSkip(flags: seq<string>, tail: seq<string>, r: ChildRequest)
    requires NoImage(flags)
    ensures ReadFlags(flags + tail, r) == ReadFlags(tail, ApplyFlags(flags, r))
    decreases |flags|
  {
    if flags != [] {
      assert (flags + tail)[0] == flags[0];
      assert (flags + tail)[1..] == flags[1..] + tail;
      ReadFlagsSkip(flags[1..], tail, ApplyFlag(r, flags[0]));
    } else {
      assert flags + tail == tail;
    }
  }

  /** What the child reads: each limit that was set, and "unset" for the
      others; the digest, the ID and the command as given. */
  function Forwarded(a: RunArgs, cpusText: string, digest: string, id: string): ChildRequest {
    ChildRequest(if a.mem > 0 then a.mem else -1,
                 if a.swap >= 0 then a.swap else -1,
                 if a.pids > 0 then a.pids else -1,
                 if a.cpus > 0 then cpusText else "",
                 a.readBps, a.readIops, a.writeBps, a.writeIops,
                 digest, id, a.commands)
  }

  /** The number flags are free of `--img` and read back as the numbers
      that are set and the CPU text when the CPU limit is set. */
  lemma ReadNumberFlags(a: RunArgs, cpusText: string)
    ensures NoImage(NumberFlags(a, cpusText))
    ensures ApplyFlags(NumberFlags(a, cpusText), Unset)
            == Unset.(mem := if a.mem > 0 then a.mem else -1,
                      swap := if a.swap >= 0 then a.swap else -1,
                      pids := if a.pids > 0 then a.pids else -1,
                      cpusText := if a.cpus > 0 then cpusText else "")
  {
    var o1 := AddIf([], a.mem > 0, Mem, Itoa(a.mem));
    var o2 := AddIf(o1, a.swap >= 0, Swap, Itoa(a.swap));
    var o3 := AddIf(o2, a.pids > 0, Pids, Itoa(a.pids));
    ItoaRoundTrip(a.mem);
    ItoaRoundTrip(a.swap);
    ItoaRoundTrip(a.pids);
    ReadAddIf([], a.mem > 0, Mem, Itoa(a.mem), Unset);
    ReadAddIf(o1, a.swap >= 0, Swap, Itoa(a.swap), Unset);
    ReadAddIf(o2, a.pids > 0, Pids, Itoa(a.pids), Unset);
    ReadAddIf(o3, a.cpus > 0, Cpus, cpusText, Unset);
  }

  /** Device flags appended to flags read as `r` (whose device limits are
      unset) read back as `r` with the device limits given. */
  lemma ReadDeviceFlags(opts: seq<string>, a: RunArgs, r: ChildRequest)
    requires NoImage(opts) && ApplyFlags(opts, Unset) == r
    requires r.readBps == r.readIops == r.writeBps == r.writeIops == ""
    ensures NoImage(DeviceFlags(opts, a))
    ensures ApplyFlags(DeviceFlags(opts, a), Unset)
            == r.(readBps := a.readBps, readIops := a.readIops, writeBps := a.writeBps, writeIops := a.writeIops)
  {
    var o5 := AddIf(opts, a.readBps != "", ReadBps, a.readBps);
    var o6 := AddIf(o5, a.readIops != "", ReadIops, a.readIops);
    var o7 := AddIf(o6, a.writeBps != "", WriteBps, a.writeBps);
    ReadAddIf(opts, a.readBps != "", ReadBps, a.readBps, Unset);
    ReadAddIf(o5, a.readIops != "", ReadIops, a.readIops, Unset);
    ReadAddIf(o6, a.writeBps != "", WriteBps, a.writeBps, Unset);
    ReadAddIf(o7, a.writeIops != "", WriteIops, a.writeIops, Unset);
  }

  /** `--img=<digest>` ends the flags: the container ID and the command follow. */
  lemma ReadImageTail(digest: string, id: string, cmds: seq<string>, r: ChildRequest)
    ensures ReadFlags([Flag("--img", digest)] + ([id] + cmds), r) == Some(r.(digest := digest, id := id, commands := cmds))
  {
    var tail := [Flag("--img", digest)] + ([id] + cmds);
    FlagParts("--img", digest);
    assert tail[0] == Flag("--img", digest);
    assert tail[1] == id;
    assert tail[2..] == cmds;
  }

  /** The child reads back exactly what the run command forwarded: every
      limit that is set, "unset" for the others, the image digest, the
      container ID and the command unchanged. */
  lemma ChildArgvRoundTrip(a: RunArgs, cpusText: string, digest: string, id: string)
    ensures ReadChildArgv(ChildArgv(a, cpusText, digest, id)) == Some(Forwarded(a, cpusText, digest, id))
  {
    var flags := ChildFlags(a, cpusText);
    var tail := [Flag("--img", digest)] + ([id] + a.commands);
    var argv := ChildArgv(a, cpusText, digest, id);
    assert argv[1..] == flags + tail;
    var numbers := NumberFlags(a, cpusText);
    ReadNumberFlags(a, cpusText);
    ReadDeviceFlags(numbers, a, ApplyFlags(numbers, Unset));
    var r := ApplyFlags(flags, Unset);
    assert r == Forwarded(a, cpusText, "", "").(commands := []);
    ReadFlagsSkip(flags, tail, Unset);
    ReadImageTail(digest, id, a.commands, r);
  }

  // ---------------------------------------------------------------------
  // initContainer: the steps of one run and where a failure stops them
  // ---------------------------------------------------------------------

  /** The namespaces the container's process is cloned into. */
  datatype Namespace = NewPid | NewMount | NewUts | NewIpc

  const SelfExe := "/proc/self/exe"
  const ChildNamespaces: set<Namespace> := {NewPid, NewMount, NewUts, NewIpc}

  /** One effect of the run command on the host, in the order it happens. */
  datatype Action =
    | ResolveImage(src: string)                 // the image store's DownloadImageIfRequired
    | EnsureDirs(dirs: seq<FsPath>)             // utils.EnsureDirs
    | Mount(source: string, target: string, fstype: string, data: string)
    | SetupVethOnHost(id: string)               // the network accessor
    | Exec(argv: seq<string>, namespaces: set<Namespace>)
    | UnmountNetns(id: string)                  // the network accessor
    | Unmount(target: string)
    | RemoveCGroups(id: string)                 // the control-group accessor
    | RemoveAll(target: string)                 // os.RemoveAll

  /** Whether a failure of this action ends the process: every failure does,
      except that of the final RemoveAll, whose error is discarded. */
  predicate EndsOnFailure(a: Action) {
    !a.RemoveAll?
  }

  /** The actions attempted when `steps` run and the actions in `failing`
      fail: every step up to and including the first one whose failure
      ends the process. */
  function UntilFatal(steps: seq<Action>, failing: set<Action>): (t: seq<Action>)
    ensures |t| <= |steps|
    ensures steps != [] ==> |t| >= 1 && t[0] == steps[0]
    decreases |steps|
  {
    if steps == [] then []
    else if steps[0] in failing && EndsOnFailure(steps[0]) then [steps[0]]
    else [steps[0]] + UntilFatal(steps[1..], failing)
  }

  /** No step of `steps` ends the process. */
  predicate Completes(steps: seq<Action>, failing: set<Action>) {
    forall i :: 0 <= i < |steps| ==> !(steps[i] in failing && EndsOnFailure(steps[i]))
  }

  /** What a process attempts: nothing once it has ended. */
  function Attempted(alive: bool, steps: seq<Action>, failing: set<Action>): seq<Action> {
    if alive then UntilFatal(steps, failing) else []
  }

  lemma CompletesCons(steps: seq<Action>, failing: set<Action>)
    requires steps != []
    ensures Completes(steps, failing) <==> !(steps[0] in failing && EndsOnFailure(steps[0])) && Completes(steps[1..], failing)
  {
    assert forall i :: 1 <= i < |steps| ==> steps[i] == steps[1..][i - 1];
  }

  lemma CompletesAppend(a: seq<Action>, b: seq<Action>, failing: set<Action>)
    ensures Completes(a + b, failing) <==> Completes(a, failing) && Completes(b, failing)
  {
    assert forall i :: 0 <= i < |a| ==> (a + b)[i] == a[i];
    assert forall i :: 0 <= i < |b| ==> (a + b)[|a| + i] == b[i];
  }

  /** Running `a` then `b` attempts what `a` attempts and, if `a` completed,
      what `b` attempts. */
  lemma {:induction false} UntilFatalAppend(a: seq<Action>, b: seq<Action>, failing: set<Action>)
    ensures UntilFatal(a + b, failing) == UntilFatal(a, failing) + (if Completes(a, failing) then UntilFatal(b, failing) else [])
    decreases |a|
  {
    if a == [] {
      assert a + b == b;
    } else {
      assert (a + b)[0] == a[0];
      assert (a + b)[1..] == a[1..] + b;
      UntilFatalAppend(a[1..], b, failing);
      CompletesCons(a, failing);
    }
  }

  /** Chains the attempts of two runs of steps one after the other. */
  lemma Chain(t0: seq<Action>, al0: bool, done: seq<Action>, t1: seq<Action>, al1: bool,
              next: seq<Action>, t2: seq<Action>, al2: bool, failing: set<Action>)
    requires t1 == t0 + Attempted(al0, done, failing) && al1 == (al0 && Completes(done, failing))
    requires t2 == t1 + Attempted(al1, next, failing) && al2 == (al1 && Completes(next, failing))
    ensures t2 == t0 + Attempted(al0, done + next, failing) && al2 == (al0 && Completes(done + next, failing))
  {
    AttemptedAppend(al0, done, next, failing);
    var x, y := Attempted(al0, done, failing), Attempted(al1, next, failing);
    assert (t0 + x) + y == t0 + (x + y);
  }

  lemma AttemptedAppend(alive: bool, a: seq<Action>, b: seq<Action>, failing: set<Action>)
    ensures Attempted(alive, a + b, failing)
            == Attempted(alive, a, failing) + Attempted(alive && Completes(a, failing), b, failing)
    ensures (alive && Completes(a + b, failing)) == (alive && Completes(a, failing) && Completes(b, failing))
  {
    UntilFatalAppend(a, b, failing);
    CompletesAppend(a, b, failing);
  }

  /** The attempted actions are a prefix of the steps; they are all of them
      when no step ends the process; otherwise the last attempted action is
      the first whose failure ends the process. */
  lemma {:induction false} UntilFatalPrefix(steps: seq<Action>, failing: set<Action>)
    ensures var t := UntilFatal(steps, failing);
            |t| <= |steps| && t == steps[..|t|]
            && (Completes(steps, failing) ==> t == steps)
            && (forall i :: 0 <= i < |t| - 1 ==> !(t[i] in failing && EndsOnFailure(t[i])))
            && (!Completes(steps, failing) ==> |t| >= 1 && t[|t| - 1] in failing && EndsOnFailure(t[|t| - 1]))
    decreases |steps|
  {
    if steps != [] {
      var t := UntilFatal(steps, failing);
      if steps[0] in failing && EndsOnFailure(steps[0]) {
        assert t == steps[..1];
        assert !Completes(steps, failing);
      } else {
        UntilFatalPrefix(steps[1..], failing);
        var u := UntilFatal(steps[1..], failing);
        assert t == [steps[0]] + u;
        assert forall i :: 1 <= i < |t| ==> t[i] == u[i - 1];
        CompletesCons(steps, failing);
        assert steps == [steps[0]] + steps[1..];
      }
    }
  }

  /** A step is attempted only after every earlier step went through. */
  lemma ReachedAfterEarlierSteps(steps: seq<Action>, failing: set<Action>, k: nat, j: nat)
    requires k < |UntilFatal(steps, failing)| && j < k
    ensures !(steps[j] in failing && EndsOnFailure(steps[j]))
  {
    UntilFatalPrefix(steps, failing);
  }

  /** A failing RemoveAll changes nothing: its error is discarded. */
  lemma {:induction false} RemoveAllIgnored(steps: seq<Action>, failing: set<Action>, target: string)
    ensures UntilFatal(steps, failing + {RemoveAll(target)}) == UntilFatal(steps, failing)
    ensures Completes(steps, failing + {RemoveAll(target)}) == Completes(steps, failing)
    decreases |steps|
  {
    if steps != [] {
      RemoveAllIgnored(steps[1..], failing, target);
    }
  }

  /** The three processes prepareAndExecuteContainer runs: the network
      namespace set-up, the virtual Ethernet set-up, and the container's
      own child-mode process in new PID, mount, UTS and IPC namespaces. */
  function ContainerSteps(a: RunArgs, cpusText: string, digest: string, id: string): (r: seq<Action>)
    ensures |r| == 3
    ensures forall i :: 0 <= i < |r| ==> r[i].Exec? && |r[i].argv| >= 3 && r[i].argv[0] == SelfExe
    ensures forall i :: 0 <= i < |r| ==> (r[i].namespaces != {} <==> i == 2)
  {
    [Exec([SelfExe, "setup-netns", id], {}),
     Exec([SelfExe, "setup-veth", id], {}),
     Exec([SelfExe] + ChildArgv(a, cpusText, digest, id), ChildNamespaces)]
  }

  /** The child-mode process the container runs in gets every limit that is
      set, the image digest, the ID and the command, as a reader of its
      arguments sees them. */
  lemma ContainerChildForwards(a: RunArgs, cpusText: string, digest: string, id: string)
    ensures var child := ContainerSteps(a, cpusText, digest, id)[2];
      child.namespaces == ChildNamespaces && ReadChildArgv(child.argv[1..]) == Some(Forwarded(a, cpusText, digest, id))
  {
    var argv := ChildArgv(a, cpusText, digest, id);
    ChildArgvRoundTrip(a, cpusText, digest, id);
    assert ([SelfExe] + argv)[1..] == argv;
  }

  /** The overlay mount of mountOverlayFileSystem: the image's layers,
      last first, under the container's upperdir and workdir. */
  function OverlayMount(home: FsPath, imageBase: string, layers: seq<string>): Action
    requires LayersOk(layers)
  {
    Mount(OverlaySource, MountTarget(home), OverlayType, MountOptions(LowerDirs(imageBase, layers), home))
  }

  /** unmountContainerFs's target. */
  function MountedPath(containersPath: string, id: string): string {
    containersPath + "/" + id + "/fs/mnt"
  }

  /** Every step initContainer takes, in order: seven to set the container
      up and run it, then four to tear it down. The failure of every step but
      the last ends the process. */
  function InitSteps(a: RunArgs, id: string, digest: string, cpusText: string, home: FsPath,
                     imageBase: string, layers: seq<string>, containersPath: string): (r: seq<Action>)
    requires home.Valid() && LayersOk(layers)
    ensures |r| == 11
    ensures forall i :: 0 <= i < |r| ==> (EndsOnFailure(r[i]) <==> i < 10)
  {
    [ResolveImage(a.imageName)]
    + [EnsureDirs(ContainerDirectories(home))]
    + [OverlayMount(home, imageBase, layers)]
    + [SetupVethOnHost(id)]
    + ContainerSteps(a, cpusText, digest, id)
    + [UnmountNetns(id)]
    + [Unmount(MountedPath(containersPath, id))]
    + [RemoveCGroups(id)]
    + [RemoveAll(containersPath + "/" + id)]
  }

  /** When the first `n` steps all end the process on failure, a later
      step is attempted exactly when none of those `n` fails. */
  lemma StepsGate(steps: seq<Action>, failing: set<Action>, n: nat)
    requires n < |steps|
    requires forall j :: 0 <= j < n ==> EndsOnFailure(steps[j])
    ensures |UntilFatal(steps, failing)| > n <==> forall j :: 0 <= j < n ==> steps[j] !in failing
  {
    var t := UntilFatal(steps, failing);
    UntilFatalPrefix(steps, failing);
    if |t| > n {
      forall j | 0 <= j < n ensures steps[j] !in failing {
        ReachedAfterEarlierSteps(steps, failing, n, j);
      }
    }
  }

  /** Tearing down happens only after the whole set-up and the container's
      own process went through; when any of those fails, nothing is
      unmounted or removed. */
  lemma TeardownOnlyAfterContainerRan(a: RunArgs, id: string, digest: string, cpusText: string, home: FsPath,
                                      imageBase: string, layers: seq<string>, containersPath: string,
                                      failing: set<Action>)
    requires home.Valid() && LayersOk(layers)
    ensures var steps := InitSteps(a, id, digest, cpusText, home, imageBase, layers, containersPath);
            var t := UntilFatal(steps, failing);
            |steps| == 11 && steps[6] == Exec([SelfExe] + ChildArgv(a, cpusText, digest, id), ChildNamespaces)
            && (|t| > 7 <==> forall j :: 0 <= j < 7 ==> steps[j] !in failing)
  {
    var steps := InitSteps(a, id, digest, cpusText, home, imageBase, layers, containersPath);
    StepsGate(steps, failing, 7);
  }

  /** When the file-system home is the containers directory's `<id>/fs`,
      the path unmountContainerFs unmounts is the one the overlay was
      mounted on. */
  lemma UnmountMatchesMount(home: FsPath, containersPath: string, id: string)
    requires home.Text() == containersPath + "/" + id + "/fs"
    ensures MountTarget(home) == MountedPath(containersPath, id)
  {
    assert "/fs" + "/mnt" == "/fs/mnt";
  }

  /** The run command's host side. `trace` is what it has done so far,
      `alive` whether the process is still running, and `failing` the
      actions the host makes fail. */
  class Engine {
    var trace: seq<Action>
    var alive: bool
    const failing: set<Action>

    constructor(failing: set<Action>)
      ensures trace == [] && alive && this.failing == failing
    {
      trace := [];
      alive := true;
      this.failing := failing;
    }

    /** Attempts one action; a failure that is not discarded ends the process. */
    method Do(a: Action)
      modifies this
      ensures trace == old(trace) + Attempted(old(alive), [a], failing)
      ensures alive == (old(alive) && Completes([a], failing))
    {
      if alive {
        trace := trace + [a];
        if a in failing && EndsOnFailure(a) {
          alive := false;
        }
      }
    }

    method CreateContainerDirectories(home: FsPath)
      requires home.Valid()
      modifies this
      ensures trace == old(trace) + Attempted(old(alive), [EnsureDirs(ContainerDirectories(home))], failing)
      ensures alive == (old(alive) && Completes([EnsureDirs(ContainerDirectories(home))], failing))
    {
      Do(EnsureDirs(ContainerDirectories(home)));
    }

    /** Mounts the overlay whose lower directories are the image's layers,
      last layer first; `imageBase` and `layers` are what the image store
      reports for the image. */
    method MountOverlayFileSystem(home: FsPath, imageBase: string, layers: seq<string>)
      requires LayersOk(layers)
      modifies this
      ensures trace == old(trace) + Attempted(old(alive), [OverlayMount(home, imageBase, layers)], failing)
      ensures alive == (old(alive) && Completes([OverlayMount(home, imageBase, layers)], failing))
    {
      var srcLayers := BuildLowerDirs(imageBase, layers);
      var mntOptions := MountOptions(srcLayers, home);
      Do(Mount(OverlaySource, home.Text() + "/mnt", OverlayType, mntOptions));
    }

    method PrepareAndExecuteContainer(a: RunArgs, cpusText: string, digest: string, id: string)
      modifies this
      ensures trace == old(trace) + Attempted(old(alive), ContainerSteps(a, cpusText, digest, id), failing)
      ensures alive == (old(alive) && Completes(ContainerSteps(a, cpusText, digest, id), failing))
    {
      ghost var t0, al0 := trace, alive;
      Do(Exec([SelfExe, "setup-netns", id], {}));
      Do(Exec([SelfExe, "setup-veth", id], {}));
      AttemptedAppend(al0, [Exec([SelfExe, "setup-netns", id], {})], [Exec([SelfExe, "setup-veth", id], {})], failing);
      ghost var done := [Exec([SelfExe, "setup-netns", id], {}), Exec([SelfExe, "setup-veth", id], {})];
      var args := ChildArgs(a, cpusText, digest, id);
      Do(Exec([SelfExe] + args, ChildNamespaces));
      AttemptedAppend(al0, done, [Exec([SelfExe] + args, ChildNamespaces)], failing);
      assert done + [Exec([SelfExe] + args, ChildNamespaces)] == ContainerSteps(a, cpusText, digest, id);
    }

    method UnmountNetworkNamespace(id: string)
      modifies this
      ensures trace == old(trace) + Attempted(old(alive), [UnmountNetns(id)], failing)
      ensures alive == (old(alive) && Completes([UnmountNetns(id)], failing))
    {
      Do(UnmountNetns(id));
    }

    method UnmountContainerFs(containersPath: string, id: string)
      modifies this
      ensures trace == old(trace) + Attempted(old(alive), [Unmount(MountedPath(containersPath, id))], failing)
      ensures alive == (old(alive) && Completes([Unmount(MountedPath(containersPath, id))], failing))
    {
      var mountedPath := containersPath + "/" + id + "/fs/mnt";
      Do(Unmount(mountedPath));
    }

    /** Runs one container: `fsHome` is the file-system home the work
      directories give a container ID, `digest` the image the store
      resolves the image name to, `imageBase` and `layers` the image's
      directory and manifest layers, and `randBytes` the six random bytes
      the ID is made of. */
    method InitContainer(a: RunArgs, randBytes: seq<Byte>, cpusText: string, fsHome: string -> FsPath,
                         digest: string, imageBase: string, layers: seq<string>, containersPath: string)
      requires |randBytes| == 6 && fsHome(CreateContainerID(randBytes)).Valid() && LayersOk(layers)
      modifies this
      ensures var steps := InitSteps(a, CreateContainerID(randBytes), digest, cpusText,
                                     fsHome(CreateContainerID(randBytes)), imageBase, layers, containersPath);
              trace == old(trace) + Attempted(old(alive), steps, failing)
              && alive == (old(alive) && Completes(steps, failing))
    {
      ghost var t0, al0 := trace, alive;
      var containerID := CreateContainerID(randBytes);
      var home := fsHome(containerID);
      Do(ResolveImage(a.imageName));
      ghost var done, t1, al1 := [ResolveImage(a.imageName)], trace, alive;
      CreateContainerDirectories(home);
      Chain(t0, al0, done, t1, al1, [EnsureDirs(ContainerDirectories(home))], trace, alive, failing);
      done, t1, al1 := done + [EnsureDirs(ContainerDirectories(home))], trace, alive;
      MountOverlayFileSystem(home, imageBase, layers);
      Chain(t0, al0, done, t1, al1, [OverlayMount(home, imageBase, layers)], trace, alive, failing);
      done, t1, al1 := done + [OverlayMount(home, imageBase, layers)], trace, alive;
      Do(SetupVethOnHost(containerID));
      Chain(t0, al0, done, t1, al1, [SetupVethOnHost(containerID)], trace, alive, failing);
      done, t1, al1 := done + [SetupVethOnHost(containerID)], trace, alive;
      PrepareAndExecuteContainer(a, cpusText, digest, containerID);
      Chain(t0, al0, done, t1, al1, ContainerSteps(a, cpusText, digest, containerID), trace, alive, failing);
      done, t1, al1 := done + ContainerSteps(a, cpusText, digest, containerID), trace, alive;
      UnmountNetworkNamespace(containerID);
      Chain(t0, al0, done, t1, al1, [UnmountNetns(containerID)], trace, alive, failing);
      done, t1, al1 := done + [UnmountNetns(containerID)], trace, alive;
      UnmountContainerFs(containersPath, containerID);
      Chain(t0, al0, done, t1, al1, [Unmount(MountedPath(containersPath, containerID))], trace, alive, failing);
      done, t1, al1 := done + [Unmount(MountedPath(containersPath, containerID))], trace, alive;
      Do(RemoveCGroups(containerID));
      Chain(t0, al0, done, t1, al1, [RemoveCGroups(containerID)], trace, alive, failing);
      done, t1, al1 := done + [RemoveCGroups(containerID)], trace, alive;
      Do(RemoveAll(containersPath + "/" + containerID));
      Chain(t0, al0, done, t1, al1, [RemoveAll(containersPath + "/" + containerID)], trace, alive, failing);
    }
  }
}
