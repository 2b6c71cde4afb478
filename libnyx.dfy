/** The libnyx Rust API (libnyx/src/lib.rs): the configuration object a
    fuzzer adjusts before spawning a worker, and the process object through
    which it sets options, writes inputs and runs executions. */
module LibNyx {
  import opened Types
  import opened Wrappers
  import opened AuxBuffer
  import LittleEndian
  import Config
  import QP = QemuProcess

  // ---------------------------------------------------------------- exec results

  /** `NyxReturnValue`: how one execution ended, as the fuzzer sees it. */
  datatype NyxReturnValue = Normal | Crash | Asan | Timeout | InvalidWriteToPayload | Error | IoError | Abort

  /** The `Display` text of a return value. */
  function DisplayName(v: NyxReturnValue): (s: string)
    ensures s == "Unknown" <==> v.Asan? || v.IoError?
  {
    match v
    case Normal => "Normal"
    case Crash => "Crash"
    case Timeout => "Timeout"
    case InvalidWriteToPayload => "InvalidWriteToPayload"
    case Abort => "Abort"
    case Error => "Error"
    case _ => "Unknown"
  }

  /** Apart from the two "Unknown" ones, each return value prints its own name. */
  lemma DisplayNamesDistinct(v: NyxReturnValue, w: NyxReturnValue)
    requires DisplayName(v) == DisplayName(w) && DisplayName(v) != "Unknown"
    ensures v == w
  {
    match v
    case Normal => assert DisplayName(w)[0] == 'N';
    case Crash => assert DisplayName(w)[0] == 'C';
    case Timeout => assert DisplayName(w)[0] == 'T';
    case InvalidWriteToPayload => assert DisplayName(w)[0] == 'I';
    case Abort => assert DisplayName(w)[0] == 'A';
    case Error => assert DisplayName(w)[0] == 'E';
  }

  /** The outcome `exec` reports: a failed transport is an I/O error, otherwise
      the result code of the last run is translated; HPRINTF and unknown codes
      are errors, and `Asan` is never produced. */
  function ReturnValueOf(sent: bool, code: u8): (r: NyxReturnValue)
    ensures r.IoError? <==> !sent
    ensures sent ==> (r.Normal? <==> code == NYX_SUCCESS)
    ensures sent ==> (r.Crash? <==> code == NYX_CRASH)
    ensures sent ==> (r.Timeout? <==> code == NYX_TIMEOUT)
    ensures sent ==> (r.InvalidWriteToPayload? <==> code == NYX_INPUT_WRITE)
    ensures sent ==> (r.Abort? <==> code == NYX_ABORT)
    ensures sent ==> (r.Error? <==> code == NYX_HPRINTF || code > NYX_ABORT)
    ensures !r.Asan?
  {
    if !sent then IoError
    else if code == NYX_SUCCESS then Normal
    else if code == NYX_CRASH then Crash
    else if code == NYX_TIMEOUT then Timeout
    else if code == NYX_INPUT_WRITE then InvalidWriteToPayload
    else if code == NYX_ABORT then Abort
    else Error
  }

  /** The result code that a return value stands for, where there is exactly one. */
  function ExecCode(v: NyxReturnValue): Option<u8> {
    match v
    case Normal => Some(NYX_SUCCESS)
    case Crash => Some(NYX_CRASH)
    case Timeout => Some(NYX_TIMEOUT)
    case InvalidWriteToPayload => Some(NYX_INPUT_WRITE)
    case Abort => Some(NYX_ABORT)
    case _ => None
  }

  /** Translating a code and reading it back agree: every code other than an
      error code is recovered from the return value, and every return value with
      a code is produced by that code. */
  lemma ExecCodeRoundTrip(code: u8, v: NyxReturnValue)
    ensures ReturnValueOf(true, code).Error? || ExecCode(ReturnValueOf(true, code)) == Some(code)
    ensures ExecCode(v).Some? ==> ReturnValueOf(true, ExecCode(v).value) == v
  {
  }

  // ---------------------------------------------------------------- the config object

  /** `NyxProcessRole`, the role an embedder asks for. */
  datatype NyxProcessRole = StandAlone | Parent | Child

  /** The runner role the runtime config stores (not defined in config.rs). */
  datatype QemuNyxRole = QemuStandAlone | QemuParent | QemuChild

  /** The role `set_process_role` stores for a requested role. */
  function RoleOf(role: NyxProcessRole): (r: QemuNyxRole)
    ensures role.StandAlone? <==> r.QemuStandAlone?
    ensures role.Parent? <==> r.QemuParent?
    ensures role.Child? <==> r.QemuChild?
  {
    match role
    case Parent => QemuParent
    case Child => QemuChild
    case StandAlone => QemuStandAlone
  }

  /** The runtime part of the configuration that lib.rs reaches through
      `config.runtime`; config.rs does not define it, so its fields are the
      ones lib.rs reads and writes. */
  datatype RuntimeConfig = RuntimeConfig(
    hprintf_fd: Option<i32>,
    process_role: QemuNyxRole,
    reuse_snapshot_path: Option<string>,
    worker_id: nat,
    aux_buffer_size: nat)

  /** The configuration as lib.rs reads it: config.rs's `Config` plus the
      fuzzer fields lib.rs uses that config.rs does not declare. */
  datatype LibConfig = LibConfig(
    base: Config.Config,
    input_buffer_size: nat,
    write_protected_input_buffer: bool,
    runtime: RuntimeConfig)

  const PAGE_SIZE: nat := 0x1000

  /** `NyxConfig`: a loaded share directory's configuration, adjusted in place
      by its setters before a worker is spawned. */
  class NyxConfig {
    var config: LibConfig
    const sharedir_path: string

    constructor (config: LibConfig, sharedir_path: string)
      ensures this.config == config && this.sharedir_path == sharedir_path
    {
      this.config := config;
      this.sharedir_path := sharedir_path;
    }

    /** The QEMU binary, for a kernel-mode runner only. */
    function QemuBinaryPath(): (r: Option<string>)
      reads this
      ensures r.Some? <==> config.base.runner.QemuKernel?
      ensures r.Some? ==> r.value == config.base.runner.kernelConfig.qemu_binary
    {
      match config.base.runner
      case QemuKernel(cfg) => Some(cfg.qemu_binary)
      case _ => None
    }

    /** The kernel image, for a kernel-mode runner only. */
    function KernelImagePath(): (r: Option<string>)
      reads this
      ensures r.Some? <==> config.base.runner.QemuKernel?
      ensures r.Some? ==> r.value == config.base.runner.kernelConfig.kernel
    {
      match config.base.runner
      case QemuKernel(cfg) => Some(cfg.kernel)
      case _ => None
    }

    /** The initrd image, for a kernel-mode runner only. */
    function RamfsImagePath(): (r: Option<string>)
      reads this
      ensures r.Some? <==> config.base.runner.QemuKernel?
      ensures r.Some? ==> r.value == config.base.runner.kernelConfig.ramfs
    {
      match config.base.runner
      case QemuKernel(cfg) => Some(cfg.ramfs)
      case _ => None
    }

    function WorkdirPath(): string
      reads this
    {
      config.base.fuzz.workdir_path
    }

    function InputBufferSize(): nat
      reads this
    {
      config.input_buffer_size
    }

    function InputBufferWriteProtection(): bool
      reads this
    {
      config.write_protected_input_buffer
    }

    /** The hprintf descriptor, -1 standing for none. */
    function HprintfFd(): (fd: i32)
      reads this
      ensures config.runtime.hprintf_fd.None? ==> fd == -1
      ensures config.runtime.hprintf_fd.Some? ==> fd == config.runtime.hprintf_fd.value
    {
      match config.runtime.hprintf_fd
      case Some(fd) => fd
      case None => -1
    }

    function ProcessRole(): QemuNyxRole
      reads this
    {
      config.runtime.process_role
    }

    function WorkerId(): nat
      reads this
    {
      config.runtime.worker_id
    }

    method SetWorkdirPath(path: string)
      modifies this
      ensures WorkdirPath() == path
      ensures config == old(config).(base := old(config).base.(fuzz := old(config).base.fuzz.(workdir_path := path)))
    {
      config := config.(base := config.base.(fuzz := config.base.fuzz.(workdir_path := path)));
    }

    /** Only whole pages are accepted; any other size panics (`ok` false)
      before the config changes. */
    method SetInputBufferSize(size: nat) returns (ok: bool)
      modifies this
      ensures ok <==> size % PAGE_SIZE == 0
      ensures ok ==> InputBufferSize() == size && config == old(config).(input_buffer_size := size)
      ensures !ok ==> config == old(config)
    {
      if size % PAGE_SIZE != 0 {
        return false;
      }
      config := config.(input_buffer_size := size);
      ok := true;
    }

    method SetInputBufferWriteProtection(write_protected: bool)
      modifies this
      ensures InputBufferWriteProtection() == write_protected
      ensures config == old(config).(write_protected_input_buffer := write_protected)
    {
      config := config.(write_protected_input_buffer := write_protected);
    }

    method SetHprintfFd(fd: i32)
      modifies this
      ensures HprintfFd() == fd
      ensures config == old(config).(runtime := old(config).runtime.(hprintf_fd := Some(fd)))
    {
      config := config.(runtime := config.runtime.(hprintf_fd := Some(fd)));
    }

    method SetProcessRole(role: NyxProcessRole)
      modifies this
      ensures ProcessRole() == RoleOf(role)
      ensures config == old(config).(runtime := old(config).runtime.(process_role := RoleOf(role)))
    {
      config := config.(runtime := config.runtime.(process_role := RoleOf(role)));
    }

    method SetReuseSnapshotPath(path: string)
      modifies this
      ensures config == old(config).(runtime := old(config).runtime.(reuse_snapshot_path := Some(path)))
    {
      config := config.(runtime := config.runtime.(reuse_snapshot_path := Some(path)));
    }

    method SetWorkerId(worker_id: nat)
      modifies this
      ensures WorkerId() == worker_id
      ensures config == old(config).(runtime := old(config).runtime.(worker_id := worker_id))
    {
      config := config.(runtime := config.runtime.(worker_id := worker_id));
    }

    /** The aux buffer must be a whole number of pages: other sizes are refused
      and leave the config as it was. */
    method SetAuxBufferSize(size: nat) returns (ok: bool)
      modifies this
      ensures ok <==> size % PAGE_SIZE == 0
      ensures ok ==> config == old(config).(runtime := old(config).runtime.(aux_buffer_size := size))
      ensures !ok ==> config == old(config)
    {
      if size % PAGE_SIZE != 0 {
        return false;
      }
      config := config.(runtime := config.runtime.(aux_buffer_size := size));
      ok := true;
    }
  }

  /** `NyxConfig::load`: the share directory's configuration, or the loader's
      error message. */
  method LoadConfig(sharedir: string, loaded: Result<LibConfig, string>) returns (r: Result<NyxConfig, string>)
    ensures r.Failure? <==> loaded.Failure?
    ensures r.Failure? ==> r.error == loaded.error
    ensures r.Success? ==> fresh(r.value) && r.value.config == loaded.value && r.value.sharedir_path == sharedir
  {
    match loaded
    case Success(c) =>
      var cfg := new NyxConfig(c, sharedir);
      r := Success(cfg);
    case Failure(msg) =>
      r := Failure(msg);
  }

  // ---------------------------------------------------------------- input framing

  /** How many input bytes `set_input_ptr` copies behind the 4-byte length,
      as written: bounded by the whole payload page. */
  function CopyLengthAsWritten(size: u32, len: nat): nat {
    Min(size, len)
  }

  /** As written, a long input is copied 4 bytes past the end of the payload page. */
  lemma CopyOverrunsPayload()
    ensures 4 + CopyLengthAsWritten(0x1000, 0x1000) == 0x1000 + 4
  {
  }

  /** How many input bytes are copied when the copy is bounded by the room
      left behind the length prefix. */
  function CopyLength(size: u32, len: nat): (n: nat)
    requires len >= 4
    ensures 4 + n <= len && n <= size
    ensures n == size || n == len - 4
  {
    Min(size, len - 4)
  }

  /** What the agent reads from the payload page: the u32 length, then as many
      bytes as the page holds. */
  function ReadInput(payload: seq<u8>): (r: (nat, seq<u8>))
    requires |payload| >= 4
  {
    var size := LittleEndian.Value(payload[..4]);
    (size, payload[4..4 + Min(size, |payload| - 4)])
  }

  /** A framed input reads back as the length written and the bytes copied. */
  lemma FramedInputReadsBack(payload: seq<u8>, size: u32, data: seq<u8>)
    requires |payload| >= 4
    requires payload[..4] == LittleEndian.Bytes(size, 4)
    requires |data| == CopyLength(size, |payload|) && payload[4..4 + |data|] == data
    ensures ReadInput(payload) == (size as nat, data)
  {
    LittleEndian.Pow256Widths();
    LittleEndian.ValueOfBytes(size, 4);
  }

  // ---------------------------------------------------------------- the process object

  /** The `changed`-free value an option setter stores for a switch. */
  function Bit(enable: bool): (b: u8)
    ensures b == 1 <==> enable
    ensures b == 0 <==> !enable
  {
    if enable then 1 else 0
  }

  /** `NyxProcess`: one running worker. */
  class NyxProcess {
    const process: QP.QemuProcess

    constructor (process: QP.QemuProcess)
      ensures this.process == process
    {
      this.process := process;
    }

    method OptionSetReloadMode(enable: bool)
      modifies process
      ensures process.config == old(process.config).(reload_mode := Bit(enable))
      ensures process.result == old(process.result) && process.engine == old(process.engine) && process.misc == old(process.misc)
    {
      process.config := process.config.(reload_mode := if enable then 1 else 0);
    }

    method OptionSetRedqueenMode(enable: bool)
      modifies process
      ensures process.config == old(process.config).(redqueen_mode := Bit(enable))
      ensures process.result == old(process.result) && process.engine == old(process.engine) && process.misc == old(process.misc)
    {
      process.config := process.config.(redqueen_mode := if enable then 1 else 0);
    }

    method OptionSetTraceMode(enable: bool)
      modifies process
      ensures process.config == old(process.config).(trace_mode := Bit(enable))
      ensures process.result == old(process.result) && process.engine == old(process.engine) && process.misc == old(process.misc)
    {
      process.config := process.config.(trace_mode := if enable then 1 else 0);
    }

    method OptionSetDeleteIncrementalSnapshot(enable: bool)
      modifies process
      ensures process.config == old(process.config).(discard_tmp_snapshot := Bit(enable))
      ensures process.result == old(process.result) && process.engine == old(process.engine) && process.misc == old(process.misc)
    {
      process.config := process.config.(discard_tmp_snapshot := if enable then 1 else 0);
    }

    method OptionSetTimeout(timeout_sec: u8, timeout_usec: u32)
      modifies process
      ensures process.config == old(process.config).(timeout_sec := timeout_sec, timeout_usec := timeout_usec)
      ensures process.result == old(process.result) && process.engine == old(process.engine) && process.misc == old(process.misc)
    {
      process.config := process.config.(timeout_sec := timeout_sec);
      process.config := process.config.(timeout_usec := timeout_usec);
    }

    /** Tells QEMU-Nyx to rescan the config section on its next run. */
    method OptionApply()
      modifies process
      ensures process.config == old(process.config).(changed := 1)
      ensures process.result == old(process.result) && process.engine == old(process.engine) && process.misc == old(process.misc)
    {
      process.config := process.config.(changed := 1);
    }

    /** `NyxProcess::exec`: one execution, classified by its last result code;
      `None` where logging an overrunning hprintf message panics. */
    method Exec() returns (r: Option<NyxReturnValue>)
      requires process.Valid()
      modifies process
      ensures process.Valid()
      ensures var o := QP.Send(old(process.engine), old(process.result), old(process.misc), old(process.config), 0);
        && (r.None? <==> o.status == QP.Panicked)
        && (r.Some? ==> r.value == ReturnValueOf(o.status == QP.Completed, o.result.section.exec_result_code))
        && process.result == o.result && process.misc == o.misc && process.config == o.config && process.engine == o.engine
    {
      var sent := process.SendPayload();
      if sent == QP.Panicked {
        return None;
      }
      if sent == QP.SocketFailed {
        return Some(IoError);
      }
      var code := process.result.section.exec_result_code;
      if code == NYX_SUCCESS {
        r := Some(Normal);
      } else if code == NYX_CRASH {
        r := Some(Crash);
      } else if code == NYX_TIMEOUT {
        r := Some(Timeout);
      } else if code == NYX_INPUT_WRITE {
        r := Some(InvalidWriteToPayload);
      } else if code == NYX_ABORT {
        r := Some(Abort);
      } else {
        r := Some(Error);
      }
    }

    /** `set_input_ptr` with the copy bounded by the room behind the length
      prefix: the length goes to bytes 0..4 (little-endian, as on x86-64), the
      copied input right after it, and the rest of the page is untouched. */
    method SetInputPtr(buffer: seq<u8>, size: u32)
      requires process.payload.Length >= 4
      requires |buffer| >= CopyLength(size, process.payload.Length)
      modifies process.payload
      ensures var n := CopyLength(size, process.payload.Length);
        && process.payload[..4] == LittleEndian.Bytes(size, 4)
        && process.payload[4..4 + n] == buffer[..n]
        && process.payload[4 + n..] == old(process.payload[4 + n..])
    {
      var payload := process.payload;
      var prefix := LittleEndian.Bytes(size, 4);
      forall i | 0 <= i < 4 {
        payload[i] := prefix[i];
      }
      var n := Min(size, payload.Length - 4);
      forall i | 0 <= i < n {
        payload[4 + i] := buffer[i];
      }
    }

    /** `set_input`: the same framing from a byte slice. */
    method SetInput(buffer: seq<u8>, size: u32)
      requires process.payload.Length >= 4
      requires |buffer| >= CopyLength(size, process.payload.Length)
      modifies process.payload
      ensures ReadInput(process.payload[..]) == (size as nat, buffer[..CopyLength(size, process.payload.Length)])
    {
      SetInputPtr(buffer, size);
      var n := CopyLength(size, process.payload.Length);
      assert process.payload[..][..4] == process.payload[..4];
      assert process.payload[..][4..4 + n] == process.payload[4..4 + n];
      FramedInputReadsBack(process.payload[..], size, buffer[..n]);
    }

    /** `aux_string`: the first `misc.len` bytes of the 2686-byte misc data;
      slicing past the data area panics (`None`). */
    function AuxString(): (r: Option<seq<u8>>)
      requires process.Valid()
      reads this, process
      ensures r.Some? <==> process.misc.len <= MISC_DATA_SIZE
      ensures r.Some? ==> |r.value| == process.misc.len && r.value == process.misc.data[..process.misc.len]
    {
      AsSlice(process.misc)
    }
  }

  /** `NyxProcess::new`: the worker id is stored in the config first; then
      the worker is spawned (`spawned` is its outcome). */
  method NewProcess(config: NyxConfig, worker_id: nat, spawned: Result<QP.QemuProcess, string>) returns (r: Result<NyxProcess, string>)
    modifies config
    ensures config.config == old(config.config).(runtime := old(config.config).runtime.(worker_id := worker_id))
    ensures r.Failure? <==> spawned.Failure?
    ensures r.Success? ==> fresh(r.value) && r.value.process == spawned.value
  {
    config.SetWorkerId(worker_id);
    match spawned
    case Success(p) =>
      var np := new NyxProcess(p);
      r := Success(np);
    case Failure(msg) =>
      r := Failure(msg);
  }
}
