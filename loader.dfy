// The records the configuration files deserialise into, every field optional
// unless a default is supplied (config/src/loader.rs), and the small enums
// they share with the merged configuration (config/src/config.rs).
module Loader {
  import opened Types
  import opened Wrappers

  /** An Intel-PT address range; `a == 0` or `b == 0` means the range is unused. */
  datatype IptFilter = IptFilter(a: u64, b: u64)

  /** Where the snapshot of a snapshot-mode VM lives (config/src/config.rs:49-53). */
  datatype SnapshotPath = Reuse(reusePath: string) | Create(createPath: string) | DefaultPath

  /** config/src/config.rs:104-108. */
  datatype SnapshotPlacement = NoPlacement | Balanced | Aggressive

  /** A time limit, as `std::time::Duration`. */
  type TimeLimit = Duration

  datatype QemuKernelConfigLoader = QemuKernelConfigLoader(
    qemu_binary: Option<string>,
    kernel: Option<string>,
    ramfs: Option<string>,
    debug: Option<bool>)

  datatype QemuSnapshotConfigLoader = QemuSnapshotConfigLoader(
    qemu_binary: Option<string>,
    hda: Option<string>,
    presnapshot: Option<string>,
    snapshot_path: Option<SnapshotPath>,
    debug: Option<bool>)

  datatype ForkServerConfigLoader = ForkServerConfigLoader(
    args: Option<seq<string>>,
    hide_output: Option<bool>,
    input_size: Option<nat>,
    env: Option<seq<string>>)

  datatype FuzzRunnerConfigLoader =
    | QemuKernelLoader(kernelLoader: QemuKernelConfigLoader)
    | QemuSnapshotLoader(snapshotLoader: QemuSnapshotConfigLoader)

  datatype FuzzerConfigLoader = FuzzerConfigLoader(
    write_protected_input_buffer: bool,
    cow_primary_size: u64,
    ip0: IptFilter,
    ip1: IptFilter,
    ip2: IptFilter,
    ip3: IptFilter,
    workdir_path: Option<string>,
    bitmap_size: Option<nat>,
    input_buffer_size: nat,
    mem_limit: Option<nat>,
    time_limit: Option<TimeLimit>,
    target_binary: Option<string>,
    threads: Option<nat>,
    thread_id: Option<nat>,
    cpu_pin_start_at: Option<nat>,
    seed_path: Option<string>,
    dict: Option<seq<seq<u8>>>,
    snapshot_placement: Option<SnapshotPlacement>,
    dump_python_code_for_inputs: Option<bool>,
    exit_after_first_crash: Option<bool>)

  datatype ConfigLoader = ConfigLoader(
    include_default_config_path: Option<string>,
    runner: FuzzRunnerConfigLoader,
    fuzz: FuzzerConfigLoader)

  /** `default_input_buffer_size`: 1 << 17. */
  function DefaultInputBufferSize(): (r: nat)
    ensures r == 131072
    ensures r > 0 && r % 0x1000 == 0
  {
    Pow2Add(5, 12);
    Pow2(17)
  }

  /** `1 << n`. */
  function Pow2(n: nat): (r: nat)
    ensures r >= 1
  {
    if n == 0 then 1 else 2 * Pow2(n - 1)
  }

  lemma {:induction false} Pow2Add(m: nat, n: nat)
    ensures Pow2(m + n) == Pow2(m) * Pow2(n)
  {
    if m > 0 {
      Pow2Add(m - 1, n);
    }
  }

  /** `default_write_protected_input_buffer`. */
  const DEFAULT_WRITE_PROTECTED_INPUT_BUFFER: bool := false

  /** `default_cow_primary_size`. */
  const DEFAULT_COW_PRIMARY_SIZE: u64 := 0

  /** Whether the command-line builder emits a filter: both bounds nonzero. */
  predicate Enabled(f: IptFilter) {
    f.a != 0 && f.b != 0
  }

  /** `default_ipt_filter`: the empty range, which is never emitted. */
  function DefaultIptFilter(): (f: IptFilter)
    ensures !Enabled(f)
  {
    IptFilter(0, 0)
  }

  /** What a loader holds when the file gives none of the defaulted fields. */
  function DefaultFuzzerConfigLoader(): (l: FuzzerConfigLoader)
    ensures !l.write_protected_input_buffer && l.cow_primary_size == 0
    ensures l.input_buffer_size > 0 && l.input_buffer_size % 0x1000 == 0
    ensures !Enabled(l.ip0) && !Enabled(l.ip1) && !Enabled(l.ip2) && !Enabled(l.ip3)
  {
    FuzzerConfigLoader(
      DEFAULT_WRITE_PROTECTED_INPUT_BUFFER, DEFAULT_COW_PRIMARY_SIZE,
      DefaultIptFilter(), DefaultIptFilter(), DefaultIptFilter(), DefaultIptFilter(),
      None, None, DefaultInputBufferSize(), None, None, None, None, None, None, None,
      None, None, None, None)
  }
}
