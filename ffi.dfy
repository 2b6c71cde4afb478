/** The C entry points of libnyx (libnyx/src/ffi.rs). A handle is a non-null
    reference to the Rust object, so the null and alignment checks every entry
    point makes hold by typing; a null result is `null`. An `assert!` that
    fails panics, modelled as a `false` (or `None`) completion. */
module Ffi {
  import opened Types
  import opened Wrappers
  import opened AuxBuffer
  import opened LibNyx
  import QP = QemuProcess

  /** `nyx_config_load`: a handle to the loaded config, null when loading failed. */
  method NyxConfigLoad(sharedir: string, loaded: Result<LibConfig, string>) returns (h: NyxConfig?)
    ensures h == null <==> loaded.Failure?
    ensures h != null ==> fresh(h) && h.config == loaded.value && h.sharedir_path == sharedir
  {
    var r := LoadConfig(sharedir, loaded);
    match r
    case Success(cfg) => h := cfg;
    case Failure(_) => h := null;
  }

  /** The sizes `nyx_config_set_input_buffer_size` accepts: positive whole pages. */
  predicate AcceptedInputBufferSize(size: u32) {
    size > 0 && size % PAGE_SIZE == 0
  }

  /** Zero is rejected here (`ok` false) before the size reaches the config,
      whose own check rejects the rest of the non-page sizes. */
  method NyxConfigSetInputBufferSize(config: NyxConfig, input_buffer_size: u32) returns (ok: bool)
    modifies config
    ensures ok <==> AcceptedInputBufferSize(input_buffer_size)
    ensures ok ==> config.config == old(config.config).(input_buffer_size := input_buffer_size)
    ensures !ok ==> config.config == old(config.config)
  {
    if !(input_buffer_size > 0) {
      return false;
    }
    ok := config.SetInputBufferSize(input_buffer_size);
  }

  /** The accepted sizes are exactly the positive multiples of 4096. */
  lemma AcceptedInputBufferSizes(size: u32)
    ensures AcceptedInputBufferSize(size) <==> exists k: nat :: 1 <= k && size == k * PAGE_SIZE
  {
    if AcceptedInputBufferSize(size) {
      var k: nat := size / PAGE_SIZE;
      assert size == k * PAGE_SIZE;
    }
  }

  /** `nyx_config_set_aux_buffer_size`: `None` where zero panics, otherwise
      the config's verdict unchanged. */
  method NyxConfigSetAuxBufferSize(config: NyxConfig, aux_buffer_size: u32) returns (r: Option<bool>)
    modifies config
    ensures r.None? <==> aux_buffer_size == 0
    ensures r.Some? ==> (r.value <==> aux_buffer_size % PAGE_SIZE == 0)
    ensures r == Some(true) ==> config.config == old(config.config).(runtime := old(config.config).runtime.(aux_buffer_size := aux_buffer_size))
    ensures r != Some(true) ==> config.config == old(config.config)
  {
    if !(aux_buffer_size > 0) {
      return None;
    }
    var ok := config.SetAuxBufferSize(aux_buffer_size);
    r := Some(ok);
  }

  /** `nyx_new`: a handle to the new worker, null when spawning failed. */
  method NyxNew(config: NyxConfig, worker_id: u32, spawned: Result<QP.QemuProcess, string>) returns (p: NyxProcess?)
    modifies config
    ensures p == null <==> spawned.Failure?
    ensures p != null ==> fresh(p) && p.process == spawned.value
    ensures config.config == old(config.config).(runtime := old(config.config).runtime.(worker_id := worker_id))
  {
    var r := NewProcess(config, worker_id, spawned);
    match r
    case Success(np) => p := np;
    case Failure(_) => p := null;
  }

  /** `nyx_get_aux_string`: copies the first `min(misc.len, size)` bytes of the
      misc data into the caller's buffer and returns that count. The caller's
      buffer holds `size` bytes, and QEMU-Nyx keeps `misc.len` within the
      2686-byte data area whenever the copy reaches that far. */
  method NyxGetAuxString(nyx_process: NyxProcess, buffer: array<u8>, size: u32) returns (n: u32)
    requires nyx_process.process.Valid()
    requires buffer.Length >= size
    requires Min(nyx_process.process.misc.len, size) <= MISC_DATA_SIZE
    modifies buffer
    ensures n == Min(nyx_process.process.misc.len, size)
    ensures buffer[..n] == nyx_process.process.misc.data[..n]
    ensures buffer[n..] == old(buffer[n..])
  {
    var misc := nyx_process.process.misc;
    var len := Min(misc.len, size);
    forall i | 0 <= i < len {
      buffer[i] := misc.data[i];
    }
    n := len;
  }

  /** The bytes `nyx_get_aux_string` hands out are the start of `aux_string`,
      and all of it when the caller's buffer is large enough. */
  lemma AuxStringPrefix(nyx_process: NyxProcess, size: u32, copied: seq<u8>)
    requires nyx_process.process.Valid()
    requires Min(nyx_process.process.misc.len, size) <= MISC_DATA_SIZE
    requires copied == nyx_process.process.misc.data[..Min(nyx_process.process.misc.len, size)]
    ensures nyx_process.AuxString().Some? ==> copied <= nyx_process.AuxString().value
    ensures size >= nyx_process.process.misc.len ==> nyx_process.AuxString() == Some(copied)
  {
  }

  /** `nyx_remove_work_dir`: true exactly when the removal succeeded. */
  function NyxRemoveWorkDir(removed: Result<(), string>): (ok: bool)
    ensures ok <==> removed.Success?
  {
    match removed
    case Success(_) => true
    case Failure(_) => false
  }
}
