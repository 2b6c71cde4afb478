// Merging a user configuration with the default configuration it includes
// (config/src/config.rs): every required field takes the user's value, else the
// default's, else the merge fails with "no <field> specified".
module Config {
  import opened Types
  import opened Wrappers
  import opened Loader

  /** Why a merge panics in the source. */
  datatype ConfigError =
    | Missing(field: string)          // `.expect("no <field> specified")` / `.unwrap()`
    | Unresolvable(path: string)      // `canonicalize().unwrap()` on a path that does not exist
    | ConflictingRunners              // "conflicting FuzzRunner configs"

  /** The part of the file system path resolution sees: each existing path and
      its canonical form. */
  datatype FileSystem = FileSystem(canonical: map<string, string>) {
    /** Canonical paths are absolute and canonicalise to themselves. */
    ghost predicate Valid() {
      forall p :: p in canonical ==> !IsRelative(canonical[p]) && canonical[p] in canonical && canonical[canonical[p]] == canonical[p]
    }
  }

  /** `Path::is_relative` on Unix: the path does not start at the root. */
  predicate IsRelative(path: string) {
    |path| == 0 || path[0] != '/'
  }

  /** `into_absolute_path`: a relative path is joined to the share directory and
      canonicalised; an absolute one is returned unchanged. */
  function IntoAbsolutePath(fs: FileSystem, sharedir: string, path: string): (r: Result<string, ConfigError>)
    ensures !IsRelative(path) ==> r == Success(path)
    ensures IsRelative(path) ==> (r.Success? <==> sharedir + "/" + path in fs.canonical)
    ensures r.Failure? ==> r.error == Unresolvable(sharedir + "/" + path)
  {
    if IsRelative(path) then
      var joined := sharedir + "/" + path;
      if joined in fs.canonical then Success(fs.canonical[joined]) else Failure(Unresolvable(joined))
    else
      Success(path)
  }

  /** On a consistent file system every resolved path is absolute, and resolving
      it again gives it back. */
  lemma AbsolutePathIsFixed(fs: FileSystem, sharedir: string, path: string)
    requires fs.Valid() && IntoAbsolutePath(fs, sharedir, path).Success?
    ensures !IsRelative(IntoAbsolutePath(fs, sharedir, path).value)
    ensures var p := IntoAbsolutePath(fs, sharedir, path).value;
      IntoAbsolutePath(fs, sharedir, p) == Success(p)
  {
  }

  /** `user.or(default).expect("no <field> specified")`. */
  function Require<T>(user: Option<T>, default: Option<T>, field: string): (r: Result<T, ConfigError>)
    ensures r.Success? <==> user.Some? || default.Some?
    ensures user.Some? ==> r == Success(user.value)
    ensures user.None? && default.Some? ==> r == Success(default.value)
    ensures r.Failure? ==> r.error == Missing(field)
  {
    match user.Or(default)
    case Some(v) => Success(v)
    case None => Failure(Missing(field))
  }

  predicate Resolvable(fs: FileSystem, dir: string, user: Option<string>, default: Option<string>) {
    (user.Some? || default.Some?) && IntoAbsolutePath(fs, dir, user.Or(default).value).Success?
  }

  /** The path a required path field merges to: the user's path, else the
      default's, resolved against `dir`. */
  function Resolved(fs: FileSystem, dir: string, user: Option<string>, default: Option<string>): string
    requires Resolvable(fs, dir, user, default)
  {
    IntoAbsolutePath(fs, dir, user.Or(default).value).value
  }

  datatype QemuKernelConfig = QemuKernelConfig(qemu_binary: string, kernel: string, ramfs: string, debug: bool)

  /** `QemuKernelConfig::new_from_loader`: the three paths are required and
      resolved against the default config's folder, then `debug` is required. */
  function QemuKernelConfigFromLoader(fs: FileSystem, folder: string, d: QemuKernelConfigLoader, c: QemuKernelConfigLoader): (r: Result<QemuKernelConfig, ConfigError>)
    ensures r.Success? <==>
      Resolvable(fs, folder, c.qemu_binary, d.qemu_binary) && Resolvable(fs, folder, c.kernel, d.kernel)
      && Resolvable(fs, folder, c.ramfs, d.ramfs) && (c.debug.Some? || d.debug.Some?)
    ensures r.Success? ==> r.value.debug == c.debug.Or(d.debug).value
    ensures r.Success? ==>
      && r.value.qemu_binary == Resolved(fs, folder, c.qemu_binary, d.qemu_binary)
      && r.value.kernel == Resolved(fs, folder, c.kernel, d.kernel)
      && r.value.ramfs == Resolved(fs, folder, c.ramfs, d.ramfs)
    ensures r.Success? && fs.Valid() ==>
      !IsRelative(r.value.qemu_binary) && !IsRelative(r.value.kernel) && !IsRelative(r.value.ramfs)
    ensures c.qemu_binary.None? && d.qemu_binary.None? ==> r == Failure(Missing("qemu_binary"))
  {
    var qemu_binary := Require(c.qemu_binary, d.qemu_binary, "qemu_binary");
    var kernel := Require(c.kernel, d.kernel, "kernel");
    var ramfs := Require(c.ramfs, d.ramfs, "ramfs");
    if qemu_binary.Failure? then Failure(qemu_binary.error)
    else if kernel.Failure? then Failure(kernel.error)
    else if ramfs.Failure? then Failure(ramfs.error)
    else
      var qb :- IntoAbsolutePath(fs, folder, qemu_binary.value);
      var k :- IntoAbsolutePath(fs, folder, kernel.value);
      var rf :- IntoAbsolutePath(fs, folder, ramfs.value);
      var debug :- Require(c.debug, d.debug, "debug");
      AbsolutePaths(fs, folder, [qemu_binary.value, kernel.value, ramfs.value]);
      Success(QemuKernelConfig(qb, k, rf, debug))
  }

  /** Every path that resolves on a consistent file system resolves to an absolute one. */
  lemma AbsolutePaths(fs: FileSystem, dir: string, ps: seq<string>)
    ensures forall i :: 0 <= i < |ps| && fs.Valid() && IntoAbsolutePath(fs, dir, ps[i]).Success? ==>
      !IsRelative(IntoAbsolutePath(fs, dir, ps[i]).value)
  {
    forall i | 0 <= i < |ps| && fs.Valid() && IntoAbsolutePath(fs, dir, ps[i]).Success?
      ensures !IsRelative(IntoAbsolutePath(fs, dir, ps[i]).value)
    {
      AbsolutePathIsFixed(fs, dir, ps[i]);
    }
  }

  datatype QemuSnapshotConfig = QemuSnapshotConfig(
    qemu_binary: string, hda: string, presnapshot: string, snapshot_path: SnapshotPath, debug: bool)

  /** `QemuSnapshotConfig::new_from_loader`: three paths resolved, then
      `snapshot_path` and `debug` required. */
  function QemuSnapshotConfigFromLoader(fs: FileSystem, folder: string, d: QemuSnapshotConfigLoader, c: QemuSnapshotConfigLoader): (r: Result<QemuSnapshotConfig, ConfigError>)
    ensures r.Success? <==>
      Resolvable(fs, folder, c.qemu_binary, d.qemu_binary) && Resolvable(fs, folder, c.hda, d.hda)
      && Resolvable(fs, folder, c.presnapshot, d.presnapshot)
      && (c.snapshot_path.Some? || d.snapshot_path.Some?) && (c.debug.Some? || d.debug.Some?)
    ensures r.Success? ==> r.value.snapshot_path == c.snapshot_path.Or(d.snapshot_path).value
    ensures r.Success? ==> r.value.debug == c.debug.Or(d.debug).value
    ensures r.Success? ==>
      && r.value.qemu_binary == Resolved(fs, folder, c.qemu_binary, d.qemu_binary)
      && r.value.hda == Resolved(fs, folder, c.hda, d.hda)
      && r.value.presnapshot == Resolved(fs, folder, c.presnapshot, d.presnapshot)
    ensures r.Success? && fs.Valid() ==>
      !IsRelative(r.value.qemu_binary) && !IsRelative(r.value.hda) && !IsRelative(r.value.presnapshot)
  {
    var qemu_binary := Require(c.qemu_binary, d.qemu_binary, "qemu_binary");
    var hda := Require(c.hda, d.hda, "hda");
    var presnapshot := Require(c.presnapshot, d.presnapshot, "presnapshot");
    if qemu_binary.Failure? then Failure(qemu_binary.error)
    else if hda.Failure? then Failure(hda.error)
    else if presnapshot.Failure? then Failure(presnapshot.error)
    else
      var qb :- IntoAbsolutePath(fs, folder, qemu_binary.value);
      var h :- IntoAbsolutePath(fs, folder, hda.value);
      var pre :- IntoAbsolutePath(fs, folder, presnapshot.value);
      var snapshot_path :- Require(c.snapshot_path, d.snapshot_path, "snapshot_path");
      var debug :- Require(c.debug, d.debug, "debug");
      AbsolutePaths(fs, folder, [qemu_binary.value, hda.value, presnapshot.value]);
      Success(QemuSnapshotConfig(qb, h, pre, snapshot_path, debug))
  }

  datatype FuzzRunnerConfig = QemuKernel(kernelConfig: QemuKernelConfig) | QemuSnapshot(snapshotConfig: QemuSnapshotConfig)

  /** `FuzzRunnerConfig::new_from_loader`: both loaders must describe the same kind of runner. */
  function FuzzRunnerConfigFromLoader(fs: FileSystem, folder: string, d: FuzzRunnerConfigLoader, c: FuzzRunnerConfigLoader): (r: Result<FuzzRunnerConfig, ConfigError>)
    ensures d.QemuKernelLoader? != c.QemuKernelLoader? ==> r == Failure(ConflictingRunners)
    ensures r.Success? ==> r.value.QemuKernel? == c.QemuKernelLoader? == d.QemuKernelLoader?
    ensures r.Failure? && r.error == ConflictingRunners ==> d.QemuKernelLoader? != c.QemuKernelLoader?
    ensures d.QemuKernelLoader? && c.QemuKernelLoader? ==>
      var k := QemuKernelConfigFromLoader(fs, folder, d.kernelLoader, c.kernelLoader);
      (r.Success? <==> k.Success?) && (r.Success? ==> r.value == QemuKernel(k.value))
      && (r.Failure? ==> r.error == k.error)
    ensures d.QemuSnapshotLoader? && c.QemuSnapshotLoader? ==>
      var s := QemuSnapshotConfigFromLoader(fs, folder, d.snapshotLoader, c.snapshotLoader);
      (r.Success? <==> s.Success?) && (r.Success? ==> r.value == QemuSnapshot(s.value))
      && (r.Failure? ==> r.error == s.error)
  {
    match (d, c)
    case (QemuKernelLoader(dk), QemuKernelLoader(ck)) =>
      var k :- QemuKernelConfigFromLoader(fs, folder, dk, ck);
      Success(QemuKernel(k))
    case (QemuSnapshotLoader(ds), QemuSnapshotLoader(cs)) =>
      var s :- QemuSnapshotConfigFromLoader(fs, folder, ds, cs);
      Success(QemuSnapshot(s))
    case _ => Failure(ConflictingRunners)
  }

  datatype FuzzerConfig = FuzzerConfig(
    spec_path: string,
    workdir_path: string,
    bitmap_size: nat,
    mem_limit: nat,
    time_limit: TimeLimit,
    target_binary: Option<string>,
    threads: nat,
    thread_id: nat,
    cpu_pin_start_at: nat,
    seed_path: Option<string>,
    dict: seq<seq<u8>>,
    snapshot_placement: SnapshotPlacement,
    dump_python_code_for_inputs: Option<bool>,
    exit_after_first_crash: bool)

  /** The fields of a fuzzer config that the merge cannot miss: each one present
      in at least one loader. */
  predicate FuzzerFieldsPresent(d: FuzzerConfigLoader, c: FuzzerConfigLoader) {
    (c.workdir_path.Some? || d.workdir_path.Some?)
    && (c.bitmap_size.Some? || d.bitmap_size.Some?)
    && (c.mem_limit.Some? || d.mem_limit.Some?)
    && (c.time_limit.Some? || d.time_limit.Some?)
    && (c.threads.Some? || d.threads.Some?)
    && (c.thread_id.Some? || d.thread_id.Some?)
    && (c.cpu_pin_start_at.Some? || d.cpu_pin_start_at.Some?)
    && (c.dict.Some? || d.dict.Some?)
    && (c.snapshot_placement.Some? || d.snapshot_placement.Some?)
  }

  /** `FuzzerConfig::new_from_loader`: `seed_path` is unwrapped first (an empty
      one means none), then the fields in declaration order. */
  function FuzzerConfigFromLoader(fs: FileSystem, sharedir: string, d: FuzzerConfigLoader, c: FuzzerConfigLoader): (r: Result<FuzzerConfig, ConfigError>)
    ensures r.Success? <==>
      (c.seed_path.Some? || d.seed_path.Some?)
      && (c.seed_path.Or(d.seed_path).value == [] || IntoAbsolutePath(fs, sharedir, c.seed_path.Or(d.seed_path).value).Success?)
      && FuzzerFieldsPresent(d, c)
    ensures c.seed_path.None? && d.seed_path.None? ==> r == Failure(Missing("seed_path"))
    ensures r.Success? ==> r.value.spec_path == sharedir + "/spec.msgp"
    ensures r.Success? ==> (r.value.seed_path.None? <==> c.seed_path.Or(d.seed_path).value == [])
    ensures r.Success? && r.value.seed_path.Some? ==>
      r.value.seed_path == Some(IntoAbsolutePath(fs, sharedir, c.seed_path.Or(d.seed_path).value).value)
    ensures r.Success? ==> r.value.workdir_path == c.workdir_path.Or(d.workdir_path).value
    ensures r.Success? ==>
      && r.value.bitmap_size == c.bitmap_size.Or(d.bitmap_size).value
      && r.value.mem_limit == c.mem_limit.Or(d.mem_limit).value
      && r.value.time_limit == c.time_limit.Or(d.time_limit).value
      && r.value.threads == c.threads.Or(d.threads).value
      && r.value.thread_id == c.thread_id.Or(d.thread_id).value
      && r.value.cpu_pin_start_at == c.cpu_pin_start_at.Or(d.cpu_pin_start_at).value
      && r.value.dict == c.dict.Or(d.dict).value
      && r.value.snapshot_placement == c.snapshot_placement.Or(d.snapshot_placement).value
    ensures r.Success? ==> r.value.target_binary == c.target_binary.Or(d.target_binary)
    ensures r.Success? ==> r.value.dump_python_code_for_inputs == c.dump_python_code_for_inputs.Or(d.dump_python_code_for_inputs)
    ensures r.Success? ==> (r.value.exit_after_first_crash <==>
      if c.exit_after_first_crash.Some? then c.exit_after_first_crash.value
      else d.exit_after_first_crash.Some? && d.exit_after_first_crash.value)
  {
    var seed_path :- Require(c.seed_path, d.seed_path, "seed_path");
    var seed_path_value :- if seed_path == [] then Success(None) else
      var p :- IntoAbsolutePath(fs, sharedir, seed_path); Success(Some(p));
    var workdir_path :- Require(c.workdir_path, d.workdir_path, "workdir_path");
    var bitmap_size :- Require(c.bitmap_size, d.bitmap_size, "bitmap_size");
    var mem_limit :- Require(c.mem_limit, d.mem_limit, "mem_limit");
    var time_limit :- Require(c.time_limit, d.time_limit, "time_limit");
    var threads :- Require(c.threads, d.threads, "threads");
    var thread_id :- Require(c.thread_id, d.thread_id, "thread_id");
    var cpu_pin_start_at :- Require(c.cpu_pin_start_at, d.cpu_pin_start_at, "cpu_pin_start_at");
    var dict :- Require(c.dict, d.dict, "dict");
    var snapshot_placement :- Require(c.snapshot_placement, d.snapshot_placement, "snapshot_placement");
    Success(FuzzerConfig(
      sharedir + "/spec.msgp",
      workdir_path,
      bitmap_size,
      mem_limit,
      time_limit,
      c.target_binary.Or(d.target_binary),
      threads,
      thread_id,
      cpu_pin_start_at,
      seed_path_value,
      dict,
      snapshot_placement,
      c.dump_python_code_for_inputs.Or(d.dump_python_code_for_inputs),
      c.exit_after_first_crash.UnwrapOr(d.exit_after_first_crash.UnwrapOr(false))))
  }

  datatype Config = Config(runner: FuzzRunnerConfig, fuzz: FuzzerConfig)

  /** `Config::new_from_loader`: the runner is merged against the default
      config's folder, the fuzzer part against the share directory. */
  function ConfigFromLoader(fs: FileSystem, sharedir: string, folder: string, d: ConfigLoader, c: ConfigLoader): (r: Result<Config, ConfigError>)
    ensures r.Success? <==>
      FuzzRunnerConfigFromLoader(fs, folder, d.runner, c.runner).Success?
      && FuzzerConfigFromLoader(fs, sharedir, d.fuzz, c.fuzz).Success?
    ensures r.Success? ==> r.value.fuzz.spec_path == sharedir + "/spec.msgp"
    ensures r.Success? ==>
      && r.value.runner == FuzzRunnerConfigFromLoader(fs, folder, d.runner, c.runner).value
      && r.value.fuzz == FuzzerConfigFromLoader(fs, sharedir, d.fuzz, c.fuzz).value
    ensures r.Failure? && FuzzRunnerConfigFromLoader(fs, folder, d.runner, c.runner).Failure? ==>
      r.error == FuzzRunnerConfigFromLoader(fs, folder, d.runner, c.runner).error
    ensures d.runner.QemuKernelLoader? != c.runner.QemuKernelLoader? ==> r == Failure(ConflictingRunners)
  {
    var runner :- FuzzRunnerConfigFromLoader(fs, folder, d.runner, c.runner);
    var fuzz :- FuzzerConfigFromLoader(fs, sharedir, d.fuzz, c.fuzz);
    Success(Config(runner, fuzz))
  }
}
