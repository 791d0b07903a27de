/** The control-group accessor of cgroups/accessor.go.

    The cgroup file system is an abstract store: a set of group directories,
    a map from control file to its contents, and the set of calls the kernel
    refuses (a controller that is not mounted, a value it rejects, a group
    still in use). Directories and control files are structured values; the
    text the source builds for them is given by `Text()` and `Name()`.
    Each operation of the accessor is a fixed sequence of file-system calls
    (a plan); `Perform` runs a plan call by call and stops at the first call
    that fails, which is what the source's fatal `utils.MustWithMsg` does.
    The class `CGroupFs` makes the same calls one at a time, as the source
    does, and is proved to agree with `Perform`. */
module CGroups {
  import opened Text

  // ---------------------------------------------------------------------
  // Integer width
  // ---------------------------------------------------------------------

  const MiB := 1024 * 1024

  /** Go's `int` is 64 bits wide: arithmetic wraps in two's complement. */
  function WrapInt64(x: int): (r: int)
    ensures -0x8000_0000_0000_0000 <= r < 0x8000_0000_0000_0000
    ensures (x - r) % 0x1_0000_0000_0000_0000 == 0
    ensures -0x8000_0000_0000_0000 <= x < 0x8000_0000_0000_0000 ==> r == x
  {
    (x + 0x8000_0000_0000_0000) % 0x1_0000_0000_0000_0000 - 0x8000_0000_0000_0000
  }

  /** `limitMB*1024*1024` in Go arithmetic. */
  function MemBytes(limitMB: int): int {
    WrapInt64(limitMB * MiB)
  }

  /** `(limitMB*1024*1024)+(swapLimitInMB*1024*1024)` in Go arithmetic. */
  function MemswBytes(limitMB: int, swapMB: int): int {
    WrapInt64(limitMB * MiB + swapMB * MiB)
  }

  // ---------------------------------------------------------------------
  // Paths
  // ---------------------------------------------------------------------

  datatype Controller = Memory | Pids | Cpu | Blkio | Devices

  function ControllerName(c: Controller): string {
    match c
    case Memory => "memory"
    case Pids => "pids"
    case Cpu => "cpu"
    case Blkio => "blkio"
    case Devices => "devices"
  }

  /** The group directory of one container under one controller. */
  datatype GroupDir = GroupDir(controller: Controller, containerID: string) {
    function Text(): string {
      "/sys/fs/cgroup/" + ControllerName(controller) + "/fdocker/" + containerID
    }
  }

  /** Distinct group directories have distinct paths: the controllers differ
      in their first letter, and under one controller the path ends in the
      container ID. */
  lemma GroupDirTextInjective(a: GroupDir, b: GroupDir)
    requires a.Text() == b.Text()
    ensures a == b
  {
    assert a.Text()[15] == ControllerName(a.controller)[0];
    assert b.Text()[15] == ControllerName(b.controller)[0];
    var prefix := "/sys/fs/cgroup/" + ControllerName(a.controller) + "/fdocker/";
    assert a.Text() == prefix + a.containerID && b.Text() == prefix + b.containerID;
    assert a.containerID == a.Text()[|prefix|..];
  }

  /** The five directories of one container, in the order the source lists them. */
  function ContainerDirs(id: string): (ds: seq<GroupDir>)
    ensures |ds| == 5
    ensures forall i :: 0 <= i < |ds| ==> ds[i].containerID == id
  {
    [GroupDir(Memory, id), GroupDir(Pids, id), GroupDir(Cpu, id), GroupDir(Blkio, id), GroupDir(Devices, id)]
  }

  /** The four block-device throttles. */
  datatype Throttle = ReadBps | ReadIops | WriteBps | WriteIops

  /** The control files the accessor writes. */
  datatype ControlFile =
    | NotifyOnRelease | CGroupProcs
    | MemoryLimit | MemswLimit | CfsPeriod | CfsQuota | PidsMax
    | BlkioThrottle(t: Throttle)
  {
    function Name(): string {
      match this
      case NotifyOnRelease => "notify_on_release"
      case CGroupProcs => "cgroup.procs"
      case MemoryLimit => "memory.limit_in_bytes"
      case MemswLimit => "memory.memsw.limit_in_bytes"
      case CfsPeriod => "cpu.cfs_period_us"
      case CfsQuota => "cpu.cfs_quota_us"
      case PidsMax => "pids.max"
      case BlkioThrottle(ReadBps) => "blkio.throttle.read_bps_device"
      case BlkioThrottle(ReadIops) => "blkio.throttle.read_iops_device"
      case BlkioThrottle(WriteBps) => "blkio.throttle.write_bps_device"
      case BlkioThrottle(WriteIops) => "blkio.throttle.write_iops_device"
    }
  }

  /** No two control files share a name. */
  lemma ControlFileNameInjective(f: ControlFile, g: ControlFile)
    requires f.Name() == g.Name()
    ensures f == g
  {
    var n, m := f.Name(), g.Name();
    assert |n| == |m|;
    assert n[0] == m[0];
    if |n| == 31 {
      assert n[15] == m[15];
    }
  }

  /** A control file inside a group directory. */
  datatype FilePath = FilePath(dir: GroupDir, file: ControlFile) {
    function Text(): string {
      dir.Text() + "/" + file.Name()
    }
  }

  /** No control file name holds a '/'. */
  lemma NameHasNoSlash(f: ControlFile)
    ensures '/' !in f.Name()
  {
    match f
    case NotifyOnRelease =>
    case CGroupProcs =>
    case MemoryLimit =>
    case MemswLimit =>
    case CfsPeriod =>
    case CfsQuota =>
    case PidsMax =>
    case BlkioThrottle(t) => ThrottleNameHasNoSlash(t);
  }

  lemma ThrottleNameHasNoSlash(t: Throttle)
    ensures '/' !in BlkioThrottle(t).Name()
  {
    match t
    case ReadBps =>
    case ReadIops =>
    case WriteBps =>
    case WriteIops =>
  }

  /** Text joined by '/' to a last segment without a '/' splits back
      into that text and that segment. */
  lemma LastSegment(a: string, x: string, b: string, y: string)
    requires '/' !in x && '/' !in y
    requires a + "/" + x == b + "/" + y
    ensures a == b && x == y
  {
    var s := a + "/" + x;
    assert s[|a|] == '/' && s[|b|] == '/';
    assert forall k :: |a| < k < |s| ==> s[k] == x[k - |a| - 1];
    assert forall k :: |b| < k < |s| ==> s[k] == y[k - |b| - 1];
    assert |a| == |b|;
    assert x == s[|s| - |x|..] && y == s[|s| - |y|..];
    assert a == s[..|a|] && b == s[..|b|];
  }

  /** Distinct control files have distinct paths, so a store keyed by
      (directory, file) pairs tells files apart exactly as the kernel's
      path strings do, whatever characters the container ID holds. */
  lemma FilePathTextInjective(p: FilePath, q: FilePath)
    requires p.Text() == q.Text()
    ensures p == q
  {
    NameHasNoSlash(p.file);
    NameHasNoSlash(q.file);
    LastSegment(p.dir.Text(), p.file.Name(), q.dir.Text(), q.file.Name());
    GroupDirTextInjective(p.dir, q.dir);
    ControlFileNameInjective(p.file, q.file);
  }

  /** The CFS period written with every CPU limit: one second in microseconds. */
  const CfsPeriodUs := 1000000

  // ---------------------------------------------------------------------
  // The store and its operations
  // ---------------------------------------------------------------------

  datatype FsOp =
    | MakeDir(dir: GroupDir)                 // os.MkdirAll
    | Write(path: FilePath, data: string)    // ioutil.WriteFile
    | RemoveDir(dir: GroupDir)               // os.Remove

  datatype Store = Store(dirs: set<GroupDir>, files: map<FilePath, string>, faults: set<FsOp>) {
    /** Every control file lives in an existing directory. */
    ghost predicate Valid() {
      forall p :: p in files ==> p.dir in dirs
    }
  }

  /** One file-system call: the new store, or None when the call fails. A
      call fails when the kernel refuses it; a write or a removal also fails
      when its directory is missing. Removing a directory removes the control
      files the kernel keeps in it. */
  function Step(st: Store, op: FsOp): Option<Store> {
    match op
    case MakeDir(d) =>
      if op in st.faults then None else Some(st.(dirs := st.dirs + {d}))
    case Write(p, data) =>
      if p.dir !in st.dirs || op in st.faults then None
      else Some(st.(files := st.files[p := data]))
    case RemoveDir(d) =>
      if d !in st.dirs || op in st.faults then None
      else Some(st.(dirs := st.dirs - {d},
                    files := map q | q in st.files && q.dir != d :: st.files[q]))
  }

  datatype Outcome = Done | Failed(op: FsOp)

  datatype RunResult = RunResult(st: Store, outcome: Outcome)

  /** Runs the calls in order; the first failing call ends the run and the
      calls after it never happen. */
  function Perform(st: Store, ops: seq<FsOp>): (r: RunResult)
    ensures r.st.faults == st.faults
    ensures r.outcome.Failed? ==> r.outcome.op in ops
    decreases |ops|
  {
    if ops == [] then RunResult(st, Done)
    else match Step(st, ops[0])
      case None => RunResult(st, Failed(ops[0]))
      case Some(next) => Perform(next, ops[1..])
  }

  function Lookup(m: map<FilePath, string>, q: FilePath): Option<string> {
    if q in m then Some(m[q]) else None
  }

  /** The contents the last write of `ops` to `q` leaves there, if any. */
  function WrittenValue(ops: seq<FsOp>, q: FilePath): Option<string>
    decreases |ops|
  {
    if ops == [] then None
    else if ops[|ops| - 1].Write? && ops[|ops| - 1].path == q then Some(ops[|ops| - 1].data)
    else WrittenValue(ops[..|ops| - 1], q)
  }

  /** Directories that `ops` creates. */
  function MadeDirs(ops: seq<FsOp>): set<GroupDir> {
    set i | 0 <= i < |ops| && ops[i].MakeDir? :: ops[i].dir
  }

  predicate NoRemoval(ops: seq<FsOp>) {
    forall i :: 0 <= i < |ops| ==> !ops[i].RemoveDir?
  }

  // ---------------------------------------------------------------------
  // Lemmas about Perform
  // ---------------------------------------------------------------------

  /** Running `a + b` is running `a`, then `b` only if `a` finished. */
  lemma {:induction false} PerformAppend(st: Store, a: seq<FsOp>, b: seq<FsOp>)
    ensures Perform(st, a + b) ==
      if Perform(st, a).outcome.Failed? then Perform(st, a)
      else Perform(Perform(st, a).st, b)
    decreases |a|
  {
    if a == [] {
      assert a + b == b;
    } else {
      assert (a + b)[0] == a[0];
      assert (a + b)[1..] == a[1..] + b;
      match Step(st, a[0])
      case None =>
      case Some(next) => PerformAppend(next, a[1..], b);
    }
  }

  /** A failed run stopped at its first failing call: everything before it
      succeeded, the store is what that prefix left, and nothing after it ran. */
  lemma {:induction false} PerformFirstFailure(st: Store, ops: seq<FsOp>)
    requires Perform(st, ops).outcome.Failed?
    ensures exists k :: (0 <= k < |ops| && ops[k] == Perform(st, ops).outcome.op
      && Perform(st, ops[..k]) == RunResult(Perform(st, ops).st, Done)
      && Step(Perform(st, ops).st, ops[k]).None?)
    decreases |ops|
  {
    var r := Perform(st, ops);
    match Step(st, ops[0])
    case None =>
      assert ops[..0] == [];
      assert ops[0] == r.outcome.op;
    case Some(next) =>
      PerformFirstFailure(next, ops[1..]);
      var k :| 0 <= k < |ops[1..]| && ops[1..][k] == r.outcome.op
        && Perform(next, ops[1..][..k]) == RunResult(r.st, Done)
        && Step(r.st, ops[1..][k]).None?;
      assert ops[..k + 1] == [ops[0]] + ops[1..][..k];
      assert ops[..k + 1][1..] == ops[1..][..k];
      assert ops[k + 1] == r.outcome.op;
  }

  /** Every call keeps control files inside existing directories. */
  lemma {:induction false} PerformValid(st: Store, ops: seq<FsOp>)
    requires st.Valid()
    ensures Perform(st, ops).st.Valid()
    decreases |ops|
  {
    if ops != [] {
      match Step(st, ops[0])
      case None =>
      case Some(next) =>
        assert next.Valid();
        PerformValid(next, ops[1..]);
    }
  }

  lemma MadeDirsAppend(a: seq<FsOp>, b: seq<FsOp>)
    ensures MadeDirs(a + b) == MadeDirs(a) + MadeDirs(b)
    ensures NoRemoval(a + b) <==> NoRemoval(a) && NoRemoval(b)
  {
    var ab := a + b;
    forall d | d in MadeDirs(ab) ensures d in MadeDirs(a) + MadeDirs(b) {
      var i :| 0 <= i < |ab| && ab[i].MakeDir? && ab[i].dir == d;
      if i < |a| {
        assert ab[i] == a[i];
      } else {
        assert ab[i] == b[i - |a|];
      }
    }
    forall d | d in MadeDirs(a) ensures d in MadeDirs(ab) {
      var i :| 0 <= i < |a| && a[i].MakeDir? && a[i].dir == d;
      assert ab[i] == a[i];
    }
    forall d | d in MadeDirs(b) ensures d in MadeDirs(ab) {
      var i :| 0 <= i < |b| && b[i].MakeDir? && b[i].dir == d;
      assert ab[i + |a|] == b[i];
    }
    if NoRemoval(ab) {
      forall i | 0 <= i < |a| ensures !a[i].RemoveDir? {
        assert ab[i] == a[i];
      }
      forall i | 0 <= i < |b| ensures !b[i].RemoveDir? {
        assert ab[i + |a|] == b[i];
      }
    }
    if NoRemoval(a) && NoRemoval(b) {
      forall i | 0 <= i < |ab| ensures !ab[i].RemoveDir? {
        if i < |a| {
          assert ab[i] == a[i];
        } else {
          assert ab[i] == b[i - |a|];
        }
      }
    }
  }

  lemma {:induction false} WrittenValueAppend(a: seq<FsOp>, b: seq<FsOp>, q: FilePath)
    ensures WrittenValue(a + b, q) ==
      if WrittenValue(b, q).Some? then WrittenValue(b, q) else WrittenValue(a, q)
    decreases |b|
  {
    if b == [] {
      assert a + b == a;
    } else {
      var ab := a + b;
      assert ab[|ab| - 1] == b[|b| - 1];
      assert ab[..|ab| - 1] == a + b[..|b| - 1];
      WrittenValueAppend(a, b[..|b| - 1], q);
    }
  }

  lemma WrittenValueOne(w: FilePath, v: string, q: FilePath)
    ensures WrittenValue([Write(w, v)], q) == if q == w then Some(v) else None
  {
    assert [Write(w, v)][..0] == [];
  }

  lemma WrittenValueTwo(w1: FilePath, v1: string, w2: FilePath, v2: string, q: FilePath)
    ensures WrittenValue([Write(w1, v1), Write(w2, v2)], q) ==
      if q == w2 then Some(v2) else if q == w1 then Some(v1) else None
  {
    assert [Write(w1, v1), Write(w2, v2)] == [Write(w1, v1)] + [Write(w2, v2)];
    WrittenValueAppend([Write(w1, v1)], [Write(w2, v2)], q);
    WrittenValueOne(w1, v1, q);
    WrittenValueOne(w2, v2, q);
  }

  /** A successful run without removals leaves in each control file the
      contents of the last write to it, and every file it does not write
      exactly as it was; the directories grow by the ones it creates. */
  lemma {:induction false} PerformWriteEffect(st: Store, ops: seq<FsOp>, q: FilePath)
    requires NoRemoval(ops)
    requires Perform(st, ops).outcome == Done
    ensures Lookup(Perform(st, ops).st.files, q) ==
      if WrittenValue(ops, q).Some? then WrittenValue(ops, q) else Lookup(st.files, q)
    ensures Perform(st, ops).st.dirs == st.dirs + MadeDirs(ops)
    decreases |ops|
  {
    if ops == [] {
    } else {
      var next := Step(st, ops[0]).value;
      assert ops == [ops[0]] + ops[1..];
      MadeDirsAppend([ops[0]], ops[1..]);
      PerformWriteEffect(next, ops[1..], q);
      WrittenValueAppend([ops[0]], ops[1..], q);
    }
  }

  // ---------------------------------------------------------------------
  // CreateCGroups and RemoveCGroups
  // ---------------------------------------------------------------------

  function MakeDirs(ds: seq<GroupDir>): seq<FsOp> {
    seq(|ds|, i requires 0 <= i < |ds| => MakeDir(ds[i]))
  }

  /** For each directory in turn: "1" to notify_on_release, then the pid to cgroup.procs. */
  function AttachWrites(ds: seq<GroupDir>, pid: int): seq<FsOp>
    decreases |ds|
  {
    if ds == [] then []
    else [Write(FilePath(ds[0], NotifyOnRelease), "1"), Write(FilePath(ds[0], CGroupProcs), Itoa(pid))]
         + AttachWrites(ds[1..], pid)
  }

  /** Attaching makes two writes per directory, in the directories' order. */
  lemma {:induction false} AttachWritesShape(ds: seq<GroupDir>, pid: int)
    ensures |AttachWrites(ds, pid)| == 2 * |ds|
    ensures forall k :: 0 <= k < |AttachWrites(ds, pid)| ==>
      AttachWrites(ds, pid)[k].Write? && AttachWrites(ds, pid)[k].path.dir == ds[k / 2]
    decreases |ds|
  {
    if ds != [] {
      var rest := AttachWrites(ds[1..], pid);
      AttachWritesShape(ds[1..], pid);
      var ops := AttachWrites(ds, pid);
      assert forall k :: 2 <= k < |ops| ==> ops[k] == rest[k - 2] && ds[1..][(k - 2) / 2] == ds[k / 2];
    }
  }

  /** The group directory a call acts on. */
  function OpDir(op: FsOp): GroupDir {
    match op
    case MakeDir(d) => d
    case Write(p, _) => p.dir
    case RemoveDir(d) => d
  }

  /** CreateCGroups' calls; `pid` is the engine's own process ID (os.Getpid).
      Five MkdirAll when asked for, then ten writes; every call acts on a
      directory of this container. */
  function CreatePlan(id: string, createDirs: bool, pid: int): (ops: seq<FsOp>)
    ensures |ops| == if createDirs then 15 else 10
    ensures forall i :: 0 <= i < |ops| ==> OpDir(ops[i]).containerID == id
  {
    var ds := ContainerDirs(id);
    var mk: seq<FsOp> := if createDirs then MakeDirs(ds) else [];
    var aw := AttachWrites(ds, pid);
    AttachWritesShape(ds, pid);
    assert forall i :: 0 <= i < |mk + aw| ==> (mk + aw)[i] == if i < |mk| then mk[i] else aw[i - |mk|];
    mk + aw
  }

  function RemoveDirs(ds: seq<GroupDir>): seq<FsOp> {
    seq(|ds|, i requires 0 <= i < |ds| => RemoveDir(ds[i]))
  }

  /** RemoveCGroups' calls: one os.Remove of each of the container's five
      group directories, and nothing else. */
  function RemovePlan(id: string): (ops: seq<FsOp>)
    ensures |ops| == 5
    ensures forall i :: 0 <= i < |ops| ==> ops[i].RemoveDir? && ops[i].dir.containerID == id
    ensures forall c: Controller :: RemoveDir(GroupDir(c, id)) in ops
  {
    var ds := ContainerDirs(id);
    var ops := RemoveDirs(ds);
    assert forall c: Controller :: RemoveDir(GroupDir(c, id)) == ops[Position(c)] by {
      assert ds[0].controller == Memory && ds[1].controller == Pids && ds[2].controller == Cpu;
      assert ds[3].controller == Blkio && ds[4].controller == Devices;
    }
    ops
  }

  /** Where a controller's directory sits in ContainerDirs. */
  function Position(c: Controller): nat {
    match c
    case Memory => 0
    case Pids => 1
    case Cpu => 2
    case Blkio => 3
    case Devices => 4
  }

  /** What attaching to the directories `ds` leaves in each control file. */
  lemma {:induction false} AttachWritesValue(ds: seq<GroupDir>, pid: int, q: FilePath)
    ensures WrittenValue(AttachWrites(ds, pid), q) ==
      if q.dir in ds && q.file == NotifyOnRelease then Some("1")
      else if q.dir in ds && q.file == CGroupProcs then Some(Itoa(pid))
      else None
    ensures NoRemoval(AttachWrites(ds, pid)) && MadeDirs(AttachWrites(ds, pid)) == {}
    decreases |ds|
  {
    if ds != [] {
      var w1, w2 := FilePath(ds[0], NotifyOnRelease), FilePath(ds[0], CGroupProcs);
      var head, rest := [Write(w1, "1"), Write(w2, Itoa(pid))], AttachWrites(ds[1..], pid);
      AttachWritesValue(ds[1..], pid, q);
      WrittenValueAppend(head, rest, q);
      WrittenValueTwo(w1, "1", w2, Itoa(pid), q);
      assert q.dir in ds <==> q.dir == ds[0] || q.dir in ds[1..];
      var all := head + rest;
      assert forall k :: 0 <= k < |all| ==> all[k] == if k < 2 then head[k] else rest[k - 2];
    }
  }

  lemma {:induction false} MakeDirsWriteNothing(ds: seq<GroupDir>, q: FilePath)
    ensures WrittenValue(MakeDirs(ds), q) == None
    decreases |ds|
  {
    if ds != [] {
      assert MakeDirs(ds)[..|ds| - 1] == MakeDirs(ds[..|ds| - 1]);
      MakeDirsWriteNothing(ds[..|ds| - 1], q);
    }
  }

  /** The calls of CreateCGroups: directories only when asked for, never a
      removal, and in each of the container's five directories exactly the
      two writes "1" to notify_on_release and the decimal pid to cgroup.procs. */
  lemma CreatePlanWrites(id: string, createDirs: bool, pid: int, q: FilePath)
    ensures NoRemoval(CreatePlan(id, createDirs, pid))
    ensures MadeDirs(CreatePlan(id, createDirs, pid)) ==
      if createDirs then (set c: Controller :: GroupDir(c, id)) else {}
    ensures WrittenValue(CreatePlan(id, createDirs, pid), q) ==
      if q.dir.containerID == id && q.file == NotifyOnRelease then Some("1")
      else if q.dir.containerID == id && q.file == CGroupProcs then Some(Itoa(pid))
      else None
  {
    var ds := ContainerDirs(id);
    var mk: seq<FsOp> := if createDirs then MakeDirs(ds) else [];
    var aw := AttachWrites(ds, pid);
    AttachWritesValue(ds, pid, q);
    ContainerDirsAll(id);
    MadeDirsAppend(mk, aw);
    WrittenValueAppend(mk, aw, q);
    if createDirs {
      MakeDirsWriteNothing(ds, q);
      MakeDirsMade(ds);
    }
  }

  /** Creating the directories `ds` creates exactly them and removes nothing. */
  lemma MakeDirsMade(ds: seq<GroupDir>)
    ensures MadeDirs(MakeDirs(ds)) == set d | d in ds
    ensures NoRemoval(MakeDirs(ds))
  {
    var mk := MakeDirs(ds);
    forall d | d in ds ensures d in MadeDirs(mk) {
      var i :| 0 <= i < |ds| && ds[i] == d;
      assert mk[i] == MakeDir(d);
    }
  }

  /** A container's directories are its group under each controller, and
      no directory of another container. */
  lemma ContainerDirsAll(id: string)
    ensures forall d: GroupDir :: d in ContainerDirs(id) <==> d.containerID == id
    ensures (set d | d in ContainerDirs(id)) == set c: Controller :: GroupDir(c, id)
  {
    var ds := ContainerDirs(id);
    forall d: GroupDir | d.containerID == id ensures d in ds {
      match d.controller
      case Memory => assert d == ds[0];
      case Pids => assert d == ds[1];
      case Cpu => assert d == ds[2];
      case Blkio => assert d == ds[3];
      case Devices => assert d == ds[4];
    }
    forall d | d in ds ensures d == GroupDir(d.controller, id) {
      var i :| 0 <= i < |ds| && ds[i] == d;
    }
  }

  /** MkdirAll of directories the kernel accepts creates all of them. */
  lemma {:induction false} MakeDirsSucceed(st: Store, ds: seq<GroupDir>)
    requires forall i :: 0 <= i < |ds| ==> MakeDir(ds[i]) !in st.faults
    ensures Perform(st, MakeDirs(ds)) == RunResult(st.(dirs := st.dirs + (set d | d in ds)), Done)
    decreases |ds|
  {
    if ds != [] {
      assert MakeDirs(ds)[1..] == MakeDirs(ds[1..]);
      var next := st.(dirs := st.dirs + {ds[0]});
      MakeDirsSucceed(next, ds[1..]);
      assert next.dirs + (set d | d in ds[1..]) == st.dirs + (set d | d in ds);
    }
  }

  /** Attaching to existing directories whose writes the kernel accepts
      succeeds and leaves the directories as they were. */
  lemma {:induction false} AttachWritesSucceed(st: Store, ds: seq<GroupDir>, pid: int)
    requires forall d :: d in ds ==> (d in st.dirs
      && Write(FilePath(d, NotifyOnRelease), "1") !in st.faults
      && Write(FilePath(d, CGroupProcs), Itoa(pid)) !in st.faults)
    ensures Perform(st, AttachWrites(ds, pid)).outcome == Done
    ensures Perform(st, AttachWrites(ds, pid)).st.dirs == st.dirs
    decreases |ds|
  {
    if ds != [] {
      var w1, w2 := Write(FilePath(ds[0], NotifyOnRelease), "1"), Write(FilePath(ds[0], CGroupProcs), Itoa(pid));
      var rest := AttachWrites(ds[1..], pid);
      var mid := Step(st, w1).value;
      var next := Step(mid, w2).value;
      assert AttachWrites(ds, pid) == [w1] + ([w2] + rest);
      assert ([w1] + ([w2] + rest))[1..] == [w2] + rest;
      assert ([w2] + rest)[1..] == rest;
      assert Perform(st, AttachWrites(ds, pid)) == Perform(mid, [w2] + rest);
      assert Perform(mid, [w2] + rest) == Perform(next, rest);
      AttachWritesSucceed(next, ds[1..], pid);
    }
  }

  /** Removing distinct existing directories the kernel lets go of removes
      them and every control file inside them, and nothing else. */
  lemma {:induction false} RemoveDirsSucceed(st: Store, ds: seq<GroupDir>)
    requires forall i, j :: 0 <= i < j < |ds| ==> ds[i] != ds[j]
    requires forall i :: 0 <= i < |ds| ==> ds[i] in st.dirs && RemoveDir(ds[i]) !in st.faults
    ensures Perform(st, RemoveDirs(ds)) == RunResult(
      st.(dirs := st.dirs - (set d | d in ds),
          files := map q | q in st.files && q.dir !in ds :: st.files[q]), Done)
    decreases |ds|
  {
    if ds != [] {
      var next := Step(st, RemoveDir(ds[0])).value;
      assert RemoveDirs(ds)[1..] == RemoveDirs(ds[1..]);
      assert forall i :: 0 <= i < |ds[1..]| ==> ds[1..][i] == ds[i + 1];
      RemoveDirsSucceed(next, ds[1..]);
      assert next.dirs - (set d | d in ds[1..]) == st.dirs - (set d | d in ds);
      var f1 := map q | q in next.files && q.dir !in ds[1..] :: next.files[q];
      var f2 := map q | q in st.files && q.dir !in ds :: st.files[q];
      assert f1.Keys == f2.Keys;
    }
  }

  /** CreateCGroups with directory creation succeeds when the kernel
      accepts its calls, and adds the container's five directories. */
  lemma CreateSucceeds(st: Store, id: string, pid: int)
    requires forall c: Controller ::
      (MakeDir(GroupDir(c, id)) !in st.faults
       && Write(FilePath(GroupDir(c, id), NotifyOnRelease), "1") !in st.faults
       && Write(FilePath(GroupDir(c, id), CGroupProcs), Itoa(pid)) !in st.faults)
    ensures Perform(st, CreatePlan(id, true, pid)).outcome == Done
    ensures Perform(st, CreatePlan(id, true, pid)).st.dirs == st.dirs + set c: Controller :: GroupDir(c, id)
  {
    var ds := ContainerDirs(id);
    ContainerDirsAll(id);
    PerformAppend(st, MakeDirs(ds), AttachWrites(ds, pid));
    MakeDirsSucceed(st, ds);
    AttachWritesSucceed(st.(dirs := st.dirs + (set d | d in ds)), ds, pid);
  }

  /** A run without removals, whether it finishes or stops at a failing
      call, leaves every control file it never writes exactly as it was. */
  lemma PerformKeepsUnwritten(st: Store, ops: seq<FsOp>, q: FilePath)
    requires NoRemoval(ops)
    requires WrittenValue(ops, q) == None
    ensures Lookup(Perform(st, ops).st.files, q) == Lookup(st.files, q)
  {
    var r := Perform(st, ops);
    if r.outcome == Done {
      PerformWriteEffect(st, ops, q);
    } else {
      PerformFirstFailure(st, ops);
      var k :| 0 <= k < |ops| && ops[k] == r.outcome.op
        && Perform(st, ops[..k]) == RunResult(r.st, Done)
        && Step(r.st, ops[k]).None?;
      assert ops == ops[..k] + ops[k..];
      MadeDirsAppend(ops[..k], ops[k..]);
      WrittenValueAppend(ops[..k], ops[k..], q);
      PerformWriteEffect(st, ops[..k], q);
    }
  }

  /** CreateCGroups, with or without directory creation and whether it
      succeeds or fails part-way, leaves the control files of other
      containers alone. */
  lemma CreateKeepsOthers(st: Store, id: string, createDirs: bool, pid: int, q: FilePath)
    requires q.dir.containerID != id
    ensures Lookup(Perform(st, CreatePlan(id, createDirs, pid)).st.files, q) == Lookup(st.files, q)
  {
    CreatePlanWrites(id, createDirs, pid, q);
    PerformKeepsUnwritten(st, CreatePlan(id, createDirs, pid), q);
  }

  /** RemoveCGroups undoes CreateCGroups, under three hypotheses: the store
      is valid, none of the container's five directories exists yet, and the
      kernel accepts every MkdirAll, write and Remove of those directories.
      Then creating and removing the groups gives back exactly the store it
      started from. The kernel refuses to remove a group that still has a
      member, and CreateCGroups makes the calling process one (its pid goes to
      each cgroup.procs), so in a real run the last hypothesis holds only
      once that process has left the groups; the store does not track
      membership. */
  lemma CreateThenRemove(st: Store, id: string, pid: int)
    requires st.Valid()
    requires forall c: Controller :: GroupDir(c, id) !in st.dirs
    requires forall c: Controller ::
      (MakeDir(GroupDir(c, id)) !in st.faults && RemoveDir(GroupDir(c, id)) !in st.faults
       && Write(FilePath(GroupDir(c, id), NotifyOnRelease), "1") !in st.faults
       && Write(FilePath(GroupDir(c, id), CGroupProcs), Itoa(pid)) !in st.faults)
    ensures Perform(st, CreatePlan(id, true, pid)).outcome == Done
    ensures Perform(Perform(st, CreatePlan(id, true, pid)).st, RemovePlan(id)) == RunResult(st, Done)
  {
    CreateSucceeds(st, id, pid);
    var s2 := Perform(st, CreatePlan(id, true, pid)).st;
    forall q: FilePath | q.dir.containerID != id ensures Lookup(s2.files, q) == Lookup(st.files, q) {
      CreateKeepsOthers(st, id, true, pid, q);
    }
    RemoveRestores(st, s2, id);
  }

  /** Removing a container's groups from a store that differs from a valid
      `st` only by those groups and the files in them gives back `st`. */
  lemma RemoveRestores(st: Store, s2: Store, id: string)
    requires st.Valid()
    requires forall c: Controller :: GroupDir(c, id) !in st.dirs && RemoveDir(GroupDir(c, id)) !in st.faults
    requires s2.dirs == st.dirs + set c: Controller :: GroupDir(c, id)
    requires s2.faults == st.faults
    requires forall q: FilePath :: q.dir.containerID != id ==> Lookup(s2.files, q) == Lookup(st.files, q)
    ensures Perform(s2, RemovePlan(id)) == RunResult(st, Done)
  {
    var ds := ContainerDirs(id);
    ContainerDirsAll(id);
    RemoveDirsSucceed(s2, ds);
    var s3 := Perform(s2, RemovePlan(id)).st;
    assert s3.dirs == st.dirs;
    forall q | q in st.files ensures q in s3.files && s3.files[q] == st.files[q] {
      assert Lookup(s2.files, q) == Lookup(st.files, q);
    }
    forall q | q in s3.files ensures q in st.files {
      assert Lookup(s2.files, q) == Lookup(st.files, q);
    }
  }

  // ---------------------------------------------------------------------
  // ConfigureCGroups
  // ---------------------------------------------------------------------

  /** The resource limits of one run (the `runArgs` fields that reach the
      cgroups). Sentinels: mem, pids and cpus are unset when <= 0, swap when
      < 0, a throttle when empty. `cpus` counts millionths of a core. */
  datatype Limits = Limits(mem: int, swap: int, pids: int, cpus: int,
                           readBps: string, readIops: string,
                           writeBps: string, writeIops: string)

  function ThrottleLimit(l: Limits, t: Throttle): string {
    match t
    case ReadBps => l.readBps
    case ReadIops => l.readIops
    case WriteBps => l.writeBps
    case WriteIops => l.writeIops
  }

  /** setMemoryLimit's calls: the memory limit, then the memory-plus-swap
      limit when a swap limit is set, both in the container's memory group. */
  function MemoryPlan(id: string, limitMB: int, swapMB: int): (ops: seq<FsOp>)
    ensures |ops| == if swapMB >= 0 then 2 else 1
    ensures forall i :: 0 <= i < |ops| ==> ops[i].Write? && ops[i].path.dir == GroupDir(Memory, id)
  {
    var limit := Write(FilePath(GroupDir(Memory, id), MemoryLimit), Itoa(MemBytes(limitMB)));
    if swapMB >= 0 then [limit, Write(FilePath(GroupDir(Memory, id), MemswLimit), Itoa(MemswBytes(limitMB, swapMB)))]
    else [limit]
  }

  /** setCpuLimit's calls; `numCpu` is runtime.NumCPU(). A request above it
      makes no call at all; otherwise both writes go to the container's cpu
      group. */
  function CpuPlan(id: string, cpus: int, numCpu: int): (ops: seq<FsOp>)
    ensures ops == [] <==> cpus > numCpu * 1000000
    ensures forall i :: 0 <= i < |ops| ==> ops[i].Write? && ops[i].path.dir == GroupDir(Cpu, id)
  {
    if cpus > numCpu * 1000000 then []
    else [Write(FilePath(GroupDir(Cpu, id), CfsPeriod), Itoa(CfsPeriodUs)),
          Write(FilePath(GroupDir(Cpu, id), CfsQuota), Itoa(cpus))]
  }

  function PidsPlan(id: string, limit: int): seq<FsOp> {
    [Write(FilePath(GroupDir(Pids, id), PidsMax), Itoa(limit))]
  }

  function ThrottlePlan(id: string, t: Throttle, limit: string): seq<FsOp> {
    [Write(FilePath(GroupDir(Blkio, id), BlkioThrottle(t)), limit)]
  }

  function When(cond: bool, ops: seq<FsOp>): seq<FsOp> {
    if cond then ops else []
  }

  /** The setter ConfigureCGroups calls at position `j` (0 to 6), guarded by
      whether its limit is set. */
  function ConfigureStage(id: string, l: Limits, numCpu: int, j: nat): seq<FsOp> {
    if j == 0 then When(l.mem > 0, MemoryPlan(id, l.mem, l.swap))
    else if j == 1 then When(l.cpus > 0, CpuPlan(id, l.cpus, numCpu))
    else if j == 2 then When(l.pids > 0, PidsPlan(id, l.pids))
    else if j == 3 then When(l.readBps != "", ThrottlePlan(id, ReadBps, l.readBps))
    else if j == 4 then When(l.readIops != "", ThrottlePlan(id, ReadIops, l.readIops))
    else if j == 5 then When(l.writeBps != "", ThrottlePlan(id, WriteBps, l.writeBps))
    else When(l.writeIops != "", ThrottlePlan(id, WriteIops, l.writeIops))
  }

  /** The first `n` setters of ConfigureCGroups. */
  function ConfigurePrefix(id: string, l: Limits, numCpu: int, n: nat): seq<FsOp>
    requires n <= 7
  {
    if n == 0 then [] else ConfigurePrefix(id, l, numCpu, n - 1) + ConfigureStage(id, l, numCpu, n - 1)
  }

  /** ConfigureCGroups' calls: the seven guarded setters in order. Every call
      is a write to a control file of this container whose limit is set. */
  function ConfigurePlan(id: string, l: Limits, numCpu: int): (ops: seq<FsOp>)
    ensures forall i :: 0 <= i < |ops| ==> ops[i].Write? && ExpectedLimit(id, l, numCpu, ops[i].path).Some?
  {
    var ops := ConfigurePrefix(id, l, numCpu, 7);
    ConfigureTouchesSetFiles(id, l, numCpu, ops);
    ops
  }

  /** What ConfigureCGroups must leave in each control file of container
      `id`: the kernel's format of a limit that is set, in the file of that
      limit under its controller, and None everywhere else. Memory is given in
      MiB and written in bytes; the memsw file holds memory plus swap; a CPU
      request above the host's cores is dropped; the CPU period is always one
      second. */
  function ExpectedLimit(id: string, l: Limits, numCpu: int, q: FilePath): Option<string> {
    if q.dir.containerID != id then None
    else match q.file
      case MemoryLimit =>
        if q.dir.controller == Memory && l.mem > 0 then Some(Itoa(MemBytes(l.mem))) else None
      case MemswLimit =>
        if q.dir.controller == Memory && l.mem > 0 && l.swap >= 0 then Some(Itoa(MemswBytes(l.mem, l.swap))) else None
      case CfsPeriod =>
        if q.dir.controller == Cpu && 0 < l.cpus <= numCpu * 1000000 then Some("1000000") else None
      case CfsQuota =>
        if q.dir.controller == Cpu && 0 < l.cpus <= numCpu * 1000000 then Some(Itoa(l.cpus)) else None
      case PidsMax =>
        if q.dir.controller == Pids && l.pids > 0 then Some(Itoa(l.pids)) else None
      case BlkioThrottle(t) =>
        if q.dir.controller == Blkio && ThrottleLimit(l, t) != "" then Some(ThrottleLimit(l, t)) else None
      case _ => None
  }

  /** The position of the setter that writes `f`; 7 for a file no setter writes. */
  function Owner(f: ControlFile): nat {
    match f
    case MemoryLimit => 0
    case MemswLimit => 0
    case CfsPeriod => 1
    case CfsQuota => 1
    case PidsMax => 2
    case BlkioThrottle(ReadBps) => 3
    case BlkioThrottle(ReadIops) => 4
    case BlkioThrottle(WriteBps) => 5
    case BlkioThrottle(WriteIops) => 6
    case _ => 7
  }

  /** "1000000", the text of the CFS period. */
  lemma PeriodText()
    ensures Itoa(CfsPeriodUs) == "1000000"
  {
    assert NatDecimal(1) == "1";
    assert NatDecimal(10) == "10";
    assert NatDecimal(100) == "100";
    assert NatDecimal(1000) == "1000";
    assert NatDecimal(10000) == "10000";
    assert NatDecimal(100000) == "100000";
  }

  /** The memory setter writes the two memory files it owns. */
  lemma MemoryStageWrites(id: string, l: Limits, numCpu: int, q: FilePath)
    ensures WrittenValue(ConfigureStage(id, l, numCpu, 0), q) ==
      if Owner(q.file) == 0 then ExpectedLimit(id, l, numCpu, q) else None
  {
    var dir := GroupDir(Memory, id);
    if l.mem > 0 {
      if l.swap >= 0 {
        WrittenValueTwo(FilePath(dir, MemoryLimit), Itoa(MemBytes(l.mem)),
                        FilePath(dir, MemswLimit), Itoa(MemswBytes(l.mem, l.swap)), q);
      } else {
        WrittenValueOne(FilePath(dir, MemoryLimit), Itoa(MemBytes(l.mem)), q);
      }
    }
  }

  /** The CPU setter writes the period and the quota, or nothing when the
      request is above the host's cores. */
  lemma CpuStageWrites(id: string, l: Limits, numCpu: int, q: FilePath)
    ensures WrittenValue(ConfigureStage(id, l, numCpu, 1), q) ==
      if Owner(q.file) == 1 then ExpectedLimit(id, l, numCpu, q) else None
  {
    var dir := GroupDir(Cpu, id);
    if 0 < l.cpus <= numCpu * 1000000 {
      PeriodText();
      WrittenValueTwo(FilePath(dir, CfsPeriod), Itoa(CfsPeriodUs), FilePath(dir, CfsQuota), Itoa(l.cpus), q);
    }
  }

  function ThrottleOf(j: nat): Throttle
    requires 3 <= j < 7
  {
    if j == 3 then ReadBps else if j == 4 then ReadIops else if j == 5 then WriteBps else WriteIops
  }

  /** Each one-file setter writes the one file it owns. */
  lemma SingleStageWrites(id: string, l: Limits, numCpu: int, j: nat, q: FilePath)
    requires 2 <= j < 7
    ensures WrittenValue(ConfigureStage(id, l, numCpu, j), q) ==
      if Owner(q.file) == j then ExpectedLimit(id, l, numCpu, q) else None
  {
    var stage := ConfigureStage(id, l, numCpu, j);
    if j == 2 {
      if l.pids > 0 {
        WrittenValueOne(FilePath(GroupDir(Pids, id), PidsMax), Itoa(l.pids), q);
      }
    } else {
      var t := ThrottleOf(j);
      assert stage == When(ThrottleLimit(l, t) != "", ThrottlePlan(id, t, ThrottleLimit(l, t)));
      if ThrottleLimit(l, t) != "" {
        WrittenValueOne(FilePath(GroupDir(Blkio, id), BlkioThrottle(t)), ThrottleLimit(l, t), q);
      }
    }
  }

  /** Each setter writes exactly the files it owns, with the expected
      contents, and makes no other call. */
  lemma StageWrites(id: string, l: Limits, numCpu: int, j: nat, q: FilePath)
    requires j < 7
    ensures WrittenValue(ConfigureStage(id, l, numCpu, j), q) ==
      if Owner(q.file) == j then ExpectedLimit(id, l, numCpu, q) else None
    ensures NoRemoval(ConfigureStage(id, l, numCpu, j)) && MadeDirs(ConfigureStage(id, l, numCpu, j)) == {}
    ensures forall k :: 0 <= k < |ConfigureStage(id, l, numCpu, j)| ==> ConfigureStage(id, l, numCpu, j)[k].Write?
  {
    var stage := ConfigureStage(id, l, numCpu, j);
    if j == 0 {
      MemoryStageWrites(id, l, numCpu, q);
    } else if j == 1 {
      CpuStageWrites(id, l, numCpu, q);
    } else {
      SingleStageWrites(id, l, numCpu, j, q);
    }
    assert forall k :: 0 <= k < |stage| ==> stage[k].Write?;
  }

  /** The first `n` setters write each file whose setter is among them with
      its expected contents, and no other file. */
  lemma {:induction false} PrefixWrites(id: string, l: Limits, numCpu: int, n: nat, q: FilePath)
    requires n <= 7
    ensures WrittenValue(ConfigurePrefix(id, l, numCpu, n), q) ==
      if Owner(q.file) < n then ExpectedLimit(id, l, numCpu, q) else None
    decreases n
  {
    if n > 0 {
      PrefixWrites(id, l, numCpu, n - 1, q);
      WrittenValueAppend(ConfigurePrefix(id, l, numCpu, n - 1), ConfigureStage(id, l, numCpu, n - 1), q);
      StageWrites(id, l, numCpu, n - 1, q);
    }
  }

  /** The first `n` setters neither create nor remove a directory. */
  lemma {:induction false} PrefixOnlyWrites(id: string, l: Limits, numCpu: int, n: nat)
    requires n <= 7
    ensures NoRemoval(ConfigurePrefix(id, l, numCpu, n)) && MadeDirs(ConfigurePrefix(id, l, numCpu, n)) == {}
    ensures forall k :: 0 <= k < |ConfigurePrefix(id, l, numCpu, n)| ==> ConfigurePrefix(id, l, numCpu, n)[k].Write?
    decreases n
  {
    if n > 0 {
      var pre, stage := ConfigurePrefix(id, l, numCpu, n - 1), ConfigureStage(id, l, numCpu, n - 1);
      PrefixOnlyWrites(id, l, numCpu, n - 1);
      StageWrites(id, l, numCpu, n - 1, FilePath(GroupDir(Memory, id), MemoryLimit));
      MadeDirsAppend(pre, stage);
      assert forall k :: 0 <= k < |pre + stage| ==> (pre + stage)[k] == if k < |pre| then pre[k] else stage[k - |pre|];
    }
  }

  /** A write in `ops` leaves a value in its file. */
  lemma {:induction false} WrittenSome(ops: seq<FsOp>, i: nat)
    requires i < |ops| && ops[i].Write?
    ensures WrittenValue(ops, ops[i].path).Some?
    decreases |ops|
  {
    var last := ops[|ops| - 1];
    if i < |ops| - 1 && !(last.Write? && last.path == ops[i].path) {
      assert ops[..|ops| - 1][i] == ops[i];
      WrittenSome(ops[..|ops| - 1], i);
    }
  }

  /** Every call of the seven setters writes a file of this container whose
      limit is set. */
  lemma ConfigureTouchesSetFiles(id: string, l: Limits, numCpu: int, ops: seq<FsOp>)
    requires ops == ConfigurePrefix(id, l, numCpu, 7)
    ensures forall i :: 0 <= i < |ops| ==> ops[i].Write? && ExpectedLimit(id, l, numCpu, ops[i].path).Some?
  {
    PrefixOnlyWrites(id, l, numCpu, 7);
    forall i | 0 <= i < |ops| ensures ops[i].Write? && ExpectedLimit(id, l, numCpu, ops[i].path).Some? {
      WrittenSome(ops, i);
      PrefixWrites(id, l, numCpu, 7, ops[i].path);
    }
  }

  /** ConfigureCGroups writes each limit file only when its limit is set,
      and then with the contents the kernel expects, and writes no other file. */
  lemma ConfigureWrites(id: string, l: Limits, numCpu: int, q: FilePath)
    ensures WrittenValue(ConfigurePlan(id, l, numCpu), q) == ExpectedLimit(id, l, numCpu, q)
  {
    PrefixWrites(id, l, numCpu, 7, q);
  }

  /** After a successful ConfigureCGroups every limit that is set is in its
      file, every other file is as it was, and the directories are unchanged. */
  lemma ConfigureEffect(st: Store, id: string, l: Limits, numCpu: int, q: FilePath)
    requires Perform(st, ConfigurePlan(id, l, numCpu)).outcome == Done
    ensures Perform(st, ConfigurePlan(id, l, numCpu)).st.dirs == st.dirs
    ensures Lookup(Perform(st, ConfigurePlan(id, l, numCpu)).st.files, q) ==
      if ExpectedLimit(id, l, numCpu, q).Some? then ExpectedLimit(id, l, numCpu, q) else Lookup(st.files, q)
  {
    PrefixOnlyWrites(id, l, numCpu, 7);
    PrefixWrites(id, l, numCpu, 7, q);
    PerformWriteEffect(st, ConfigurePlan(id, l, numCpu), q);
  }

  lemma {:induction false} PrefixSameStages(id: string, l: Limits, l': Limits, numCpu: int, n: nat)
    requires n <= 7
    requires forall j :: 0 <= j < n ==> ConfigureStage(id, l, numCpu, j) == ConfigureStage(id, l', numCpu, j)
    ensures ConfigurePrefix(id, l, numCpu, n) == ConfigurePrefix(id, l', numCpu, n)
    decreases n
  {
    if n > 0 {
      PrefixSameStages(id, l, l', numCpu, n - 1);
    }
  }

  lemma {:induction false} PrefixEmpty(id: string, l: Limits, numCpu: int, n: nat)
    requires n <= 7
    requires forall j :: 0 <= j < n ==> ConfigureStage(id, l, numCpu, j) == []
    ensures ConfigurePrefix(id, l, numCpu, n) == []
    decreases n
  {
    if n > 0 {
      PrefixEmpty(id, l, numCpu, n - 1);
    }
  }

  /** A run with every limit unset leaves the store untouched. */
  lemma ConfigureUnsetIsNoop(st: Store, id: string, l: Limits, numCpu: int)
    requires l.mem <= 0 && l.cpus <= 0 && l.pids <= 0
    requires l.readBps == "" && l.readIops == "" && l.writeBps == "" && l.writeIops == ""
    ensures Perform(st, ConfigurePlan(id, l, numCpu)) == RunResult(st, Done)
  {
    PrefixEmpty(id, l, numCpu, 7);
  }

  /** A CPU request above the host's core count is skipped: ConfigureCGroups
      then does exactly what it would do with the CPU limit unset, so it
      neither writes a CPU file nor fails because of it. */
  lemma CpuOverCommitIgnored(st: Store, id: string, l: Limits, numCpu: int)
    requires l.cpus > numCpu * 1000000
    ensures Perform(st, ConfigurePlan(id, l, numCpu)) == Perform(st, ConfigurePlan(id, l.(cpus := 0), numCpu))
  {
    assert ConfigureStage(id, l, numCpu, 1) == [];
    assert ConfigureStage(id, l.(cpus := 0), numCpu, 1) == [];
    PrefixSameStages(id, l, l.(cpus := 0), numCpu, 7);
  }

  /** 512 MiB of memory and 256 MiB of swap: 536870912 bytes of memory and
      805306368 bytes of memory plus swap. */
  lemma MemoryExample(id: string, numCpu: int)
    ensures ExpectedLimit(id, Limits(512, 256, -1, -1, "", "", "", ""), numCpu,
                          FilePath(GroupDir(Memory, id), MemoryLimit)) == Some(Itoa(536870912))
    ensures ExpectedLimit(id, Limits(512, 256, -1, -1, "", "", "", ""), numCpu,
                          FilePath(GroupDir(Memory, id), MemswLimit)) == Some(Itoa(805306368))
  {
  }

  // ---------------------------------------------------------------------
  // The accessor, one file-system call at a time
  // ---------------------------------------------------------------------

  /** The rest of a run: `ops` are made only if the process is still alive,
      that is, if no earlier call has failed. */
  function Continue(r: RunResult, ops: seq<FsOp>): RunResult {
    if r.outcome.Failed? then r else Perform(r.st, ops)
  }

  /** Continuing with `a + b` is continuing with `a` and then with `b`. */
  lemma ContinueAppend(r: RunResult, a: seq<FsOp>, b: seq<FsOp>)
    ensures Continue(r, a + b) == Continue(Continue(r, a), b)
  {
    if r.outcome.Done? {
      PerformAppend(r.st, a, b);
    }
  }

  /** The kernel's cgroup file system as the accessor sees it, together with
      the fate of the engine's process: `exit` is Done while the process
      runs and Failed(op) once `utils.MustWithMsg` has ended it because `op`
      failed. A process that has ended makes no further calls, so every
      method leaves an ended run as it is. */
  class CGroupFs {
    var dirs: set<GroupDir>
    var files: map<FilePath, string>
    const faults: set<FsOp>
    var exit: Outcome

    function State(): Store
      reads this
    {
      Store(dirs, files, faults)
    }

    function Run(): RunResult
      reads this
    {
      RunResult(State(), exit)
    }

    constructor (st: Store)
      ensures Run() == RunResult(st, Done)
    {
      dirs, files, faults := st.dirs, st.files, st.faults;
      exit := Done;
    }

    /** One call into the kernel, wrapped in `utils.MustWithMsg`. */
    method Apply(op: FsOp)
      modifies this
      ensures Run() == Continue(old(Run()), [op])
    {
      if exit.Failed? {
        return;
      }
      ghost var s0 := State();
      var ok: bool;
      match op {
        case MakeDir(d) =>
          ok := op !in faults;
          if ok { dirs := dirs + {d}; }
        case Write(p, data) =>
          ok := p.dir in dirs && op !in faults;
          if ok { files := files[p := data]; }
        case RemoveDir(d) =>
          ok := d in dirs && op !in faults;
          if ok {
            dirs := dirs - {d};
            files := map q | q in files && q.dir != d :: files[q];
          }
      }
      if !ok {
        exit := Failed(op);
      }
      assert Step(s0, op) == if ok then Some(State()) else None;
      assert [op][1..] == [];
      assert ok ==> Perform(State(), []) == Run();
    }

    /** Makes the calls `ops` one after another. */
    method ApplyAll(ops: seq<FsOp>)
      modifies this
      ensures Run() == Continue(old(Run()), ops)
    {
      var i := 0;
      while i < |ops|
        invariant 0 <= i <= |ops|
        invariant Continue(old(Run()), ops) == Continue(Run(), ops[i..])
      {
        assert ops[i..] == [ops[i]] + ops[i + 1..];
        ContinueAppend(Run(), [ops[i]], ops[i + 1..]);
        Apply(ops[i]);
        if exit.Failed? {
          return;
        }
        i := i + 1;
      }
    }

    /** utils.EnsureDirs: creates each directory in turn. */
    method EnsureDirs(ds: seq<GroupDir>)
      modifies this
      ensures Run() == Continue(old(Run()), MakeDirs(ds))
    {
      ghost var plan := MakeDirs(ds);
      var i := 0;
      while i < |ds|
        invariant 0 <= i <= |ds|
        invariant Continue(old(Run()), plan) == Continue(Run(), plan[i..])
      {
        assert plan[i..] == [MakeDir(ds[i])] + plan[i + 1..];
        ContinueAppend(Run(), [MakeDir(ds[i])], plan[i + 1..]);
        Apply(MakeDir(ds[i]));
        if exit.Failed? {
          return;
        }
        i := i + 1;
      }
    }

    method CreateCGroups(containerID: string, createCGroupDirs: bool, pid: int)
      modifies this
      ensures Run() == Continue(old(Run()), CreatePlan(containerID, createCGroupDirs, pid))
    {
      var cgroups := ContainerDirs(containerID);
      ghost var mk: seq<FsOp> := if createCGroupDirs then MakeDirs(cgroups) else [];
      ContinueAppend(Run(), mk, AttachWrites(cgroups, pid));
      if createCGroupDirs {
        EnsureDirs(cgroups);
      } else {
        assert Continue(Run(), mk) == Run();
      }
      var i := 0;
      while i < |cgroups|
        invariant 0 <= i <= |cgroups|
        invariant Continue(old(Run()), CreatePlan(containerID, createCGroupDirs, pid))
          == Continue(Run(), AttachWrites(cgroups[i..], pid))
      {
        var dir := cgroups[i];
        var notify := Write(FilePath(dir, NotifyOnRelease), "1");
        var procs := Write(FilePath(dir, CGroupProcs), Itoa(pid));
        ghost var rest := AttachWrites(cgroups[i + 1..], pid);
        assert cgroups[i..][1..] == cgroups[i + 1..];
        assert AttachWrites(cgroups[i..], pid) == [notify] + ([procs] + rest);
        ContinueAppend(Run(), [notify], [procs] + rest);
        Apply(notify);
        ContinueAppend(Run(), [procs], rest);
        Apply(procs);
        if exit.Failed? {
          return;
        }
        i := i + 1;
      }
    }

    method RemoveCGroups(containerID: string)
      modifies this
      ensures Run() == Continue(old(Run()), RemovePlan(containerID))
    {
      var cgroups := ContainerDirs(containerID);
      ghost var plan := RemovePlan(containerID);
      var i := 0;
      while i < |cgroups|
        invariant 0 <= i <= |cgroups|
        invariant Continue(old(Run()), plan) == Continue(Run(), plan[i..])
      {
        assert plan[i..] == [RemoveDir(cgroups[i])] + plan[i + 1..];
        ContinueAppend(Run(), [RemoveDir(cgroups[i])], plan[i + 1..]);
        Apply(RemoveDir(cgroups[i]));
        if exit.Failed? {
          return;
        }
        i := i + 1;
      }
    }

    method SetMemoryLimit(containerID: string, limitMB: int, swapLimitInMB: int)
      modifies this
      ensures Run() == Continue(old(Run()), MemoryPlan(containerID, limitMB, swapLimitInMB))
    {
      var dir := GroupDir(Memory, containerID);
      var limit := Write(FilePath(dir, MemoryLimit), Itoa(MemBytes(limitMB)));
      if swapLimitInMB >= 0 {
        var total := Write(FilePath(dir, MemswLimit), Itoa(MemswBytes(limitMB, swapLimitInMB)));
        ApplyAll([limit, total]);
      } else {
        Apply(limit);
      }
    }

    method SetCpuLimit(containerID: string, limit: int, numCpu: int)
      modifies this
      ensures Run() == Continue(old(Run()), CpuPlan(containerID, limit, numCpu))
    {
      if limit > numCpu * 1000000 {
        // logged and ignored
        assert Continue(Run(), []) == Run();
        return;
      }
      var dir := GroupDir(Cpu, containerID);
      ApplyAll([Write(FilePath(dir, CfsPeriod), Itoa(CfsPeriodUs)),
                Write(FilePath(dir, CfsQuota), Itoa(limit))]);
    }

    method SetPidsLimit(containerID: string, limit: int)
      modifies this
      ensures Run() == Continue(old(Run()), PidsPlan(containerID, limit))
    {
      Apply(Write(FilePath(GroupDir(Pids, containerID), PidsMax), Itoa(limit)));
    }

    /** setReadbps, setReadiops, setWritebps and setWriteiops. */
    method SetThrottle(containerID: string, t: Throttle, limit: string)
      modifies this
      ensures Run() == Continue(old(Run()), ThrottlePlan(containerID, t, limit))
    {
      Apply(Write(FilePath(GroupDir(Blkio, containerID), BlkioThrottle(t)), limit));
    }

    /** Calls each setter whose limit is set, in the source's order. */
    method ConfigureCGroups(containerID: string, l: Limits, numCpu: int)
      modifies this
      ensures Run() == Continue(old(Run()), ConfigurePlan(containerID, l, numCpu))
    {
      var id := containerID;
      ghost var r0 := Run();
      ContinueAppend(r0, ConfigurePrefix(id, l, numCpu, 0), ConfigureStage(id, l, numCpu, 0));
      if l.mem > 0 {
        SetMemoryLimit(id, l.mem, l.swap);
      }
      assert Run() == Continue(r0, ConfigurePrefix(id, l, numCpu, 1));
      ContinueAppend(r0, ConfigurePrefix(id, l, numCpu, 1), ConfigureStage(id, l, numCpu, 1));
      if l.cpus > 0 {
        SetCpuLimit(id, l.cpus, numCpu);
      }
      assert Run() == Continue(r0, ConfigurePrefix(id, l, numCpu, 2));
      ContinueAppend(r0, ConfigurePrefix(id, l, numCpu, 2), ConfigureStage(id, l, numCpu, 2));
      if l.pids > 0 {
        SetPidsLimit(id, l.pids);
      }
      assert Run() == Continue(r0, ConfigurePrefix(id, l, numCpu, 3));
      ContinueAppend(r0, ConfigurePrefix(id, l, numCpu, 3), ConfigureStage(id, l, numCpu, 3));
      if l.readBps != "" {
        SetThrottle(id, ReadBps, l.readBps);
      }
      assert Run() == Continue(r0, ConfigurePrefix(id, l, numCpu, 4));
      ContinueAppend(r0, ConfigurePrefix(id, l, numCpu, 4), ConfigureStage(id, l, numCpu, 4));
      if l.readIops != "" {
        SetThrottle(id, ReadIops, l.readIops);
      }
      assert Run() == Continue(r0, ConfigurePrefix(id, l, numCpu, 5));
      ContinueAppend(r0, ConfigurePrefix(id, l, numCpu, 5), ConfigureStage(id, l, numCpu, 5));
      if l.writeBps != "" {
        SetThrottle(id, WriteBps, l.writeBps);
      }
      assert Run() == Continue(r0, ConfigurePrefix(id, l, numCpu, 6));
      ContinueAppend(r0, ConfigurePrefix(id, l, numCpu, 6), ConfigureStage(id, l, numCpu, 6));
      if l.writeIops != "" {
        SetThrottle(id, WriteIops, l.writeIops);
      }
      assert Run() == Continue(r0, ConfigurePrefix(id, l, numCpu, 7));
    }
  }
}
