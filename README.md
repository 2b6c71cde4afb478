# libnyx in Dafny

A verified model of the Rust side of libnyx. libnyx drives a QEMU-Nyx guest
for snapshot fuzzing through three shared things: a 4 KiB auxiliary buffer
("aux buffer"), a shared input ("payload") page and a control socket. The
model covers the parts of that library that are sequential logic:

- the aux-buffer protocol: five packed little-endian sections, header
  validation, the exec result codes, the length-prefixed misc area and its
  byte-escaping renderer (`AuxBuffer`), and the 0x1000-byte IJON feedback
  page (`IjonData`), all on one generic packed-field codec (`LittleEndian`);
- the execution loop of `QemuProcess::send_payload`, `set_timeout`, the
  readiness loop and the configuration written once QEMU-Nyx is ready
  (`QemuProcess`). QEMU-Nyx itself is an oracle: a sequence of the result
  and misc sections it will publish, one per `run_qemu`. An exhausted
  oracle stands for a failed control socket;
- the libnyx API (`LibNyx`): the exec code to `NyxReturnValue` mapping and
  its `Display`, the `NyxConfig` getters and setters, the `option_*`
  setters, input framing, and `aux_string`;
- the C entry points (`Ffi`): null-on-error handles, the size checks, the
  bounded `nyx_get_aux_string` copy and `nyx_remove_work_dir`;
- the QEMU command-line builder (`Params`): `new_from_snapshot` and
  `new_from_kernel` build an argument vector and a `-device` option string
  step by step. `cmd` is modelled as a sequence of options (`Arg`) that is
  rendered to strings, so the model can say what QEMU reads back;
- the configuration merge (`Config`, `Loader`): each field takes the user's
  value, else the default value, else the merge fails. The loader defaults
  are modelled too;
- exit classification (`ExitReason`).

Rust panics (`expect`, `unwrap`, `assert!`, `panic!`, `unreachable!`) are
modelled as `None` or `Failure` results, not as preconditions. Integer
widths are subset types of `int` (`u8` … `u64`, `i32`), and the one
truncating cast that matters (`as u8` in `set_timeout`) is written out.

The files come from different revisions of the repository, and the model
follows each file as it stands at its own revision:

- `libnyx/src/lib.rs` treats `send_payload` as returning a `Result`, while
  `qemu_process.rs` returns nothing. The model's `send_payload` reports
  whether the control socket held, and `exec` maps a failure to `IoError`.
  A panic while logging an hprintf message (a misc length past the
  2686-byte data area) is a third outcome, `QemuProcess.Panicked`, and
  `exec` then has no return value (`None`).
- The result fields the execution loop reads (`hprintf`, `success`,
  `crash_found`, `asan_found`, `payload_write_attempt_found`) are not in
  the packed result struct of `aux_buffer.rs`. `QemuProcess.EngineResult`
  holds them next to the decoded section.
- `lib.rs` reads `input_buffer_size`, `write_protected_input_buffer` and a
  `runtime` configuration that `config.rs` does not define. `LibNyx.LibConfig`
  holds them next to the merged `Config.Config`.

## Model

| member | source | states |
|---|---|---|
| LittleEndian.DecodeEncodeFields | fuzz_runner/src/nyx/aux_buffer.rs:110-188 | decoding the packed little-endian encoding of field values that fit their widths gives the values back, whatever follows the struct |
| LittleEndian.EncodeDecodeFields | fuzz_runner/src/nyx/aux_buffer.rs:110-188 | re-encoding what was decoded reproduces the struct's bytes exactly |
| LittleEndian.FieldOfEncoded | fuzz_runner/src/nyx/aux_buffer.rs:110-188 | the k-th field read at its packed offset is the k-th value encoded |
| LittleEndian.ValueOfBytes | fuzz_runner/src/nyx/aux_buffer.rs:110-188 | a number below 256^n survives n little-endian bytes and back |
| LittleEndian.BytesOfValue | fuzz_runner/src/nyx/aux_buffer.rs:110-188 | bytes survive being read as a number and written back |
| AuxBuffer.SlotsTileThePage | fuzz_runner/src/nyx/aux_buffer.rs:24-41 | the sections start at 0, 128, 384, 896 and 1408; misc is 2688 bytes and ends at 4096; no byte is in two sections |
| AuxBuffer.SlotOf | fuzz_runner/src/nyx/aux_buffer.rs:24-41 | every byte of the page lies in exactly one section |
| AuxBuffer.StructsFitTheirSlots | fuzz_runner/src/nyx/aux_buffer.rs:110-188 | header 12 ≤ 128, cap 12 ≤ 256, config 21 ≤ 512, result 36 ≤ 512 bytes; misc is 2 + 2686 = 2688 |
| AuxBuffer.HeaderBytes | fuzz_runner/src/nyx/aux_buffer.rs:110-116 | the header's magic is the u64 at 0, the version the u16 at 8 and the hash the u16 at 10 |
| AuxBuffer.DecodeEncodeHeader | fuzz_runner/src/nyx/aux_buffer.rs:110-116 | the header section round-trips |
| AuxBuffer.DecodeEncodeCap | fuzz_runner/src/nyx/aux_buffer.rs:117-128 | the capabilities section round-trips |
| AuxBuffer.DecodeEncodeConfig | fuzz_runner/src/nyx/aux_buffer.rs:129-154 | the config section round-trips |
| AuxBuffer.DecodeEncodeResult | fuzz_runner/src/nyx/aux_buffer.rs:156-182 | the result section round-trips |
| AuxBuffer.DecodeEncodeMisc | fuzz_runner/src/nyx/aux_buffer.rs:184-188 | the misc section (u16 length then 2686 data bytes) round-trips |
| AuxBuffer.DecodeEncodePage | fuzz_runner/src/nyx/aux_buffer.rs:24-41 | the whole 4096-byte page round-trips through its five sections |
| AuxBuffer.WriteConfigIsolated | fuzz_runner/src/nyx/aux_buffer.rs:24-41 | writing the config section changes what the page decodes to in the config section only |
| AuxBuffer.ValidateHeader | fuzz_runner/src/nyx/aux_buffer.rs:93-108 | succeeds iff magic = 0x54502d554d4551, version = 3 and hash = 84; the error names the first wrong field in the order magic, version, hash |
| AuxBuffer.AsSlice | fuzz_runner/src/nyx/aux_buffer.rs:202-205 | defined iff len ≤ 2686, and then exactly `data[0..len]` |
| AuxBuffer.EscapeDefault | fuzz_runner/src/nyx/aux_buffer.rs:190-200 | one byte escapes to 1 to 4 printable ASCII characters |
| AuxBuffer.Escaped | fuzz_runner/src/nyx/aux_buffer.rs:190-200 | the escaped text of n bytes is between n and 4n characters long |
| AuxBuffer.InspectBytes | fuzz_runner/src/nyx/aux_buffer.rs:190-200 | the loop's text is the concatenation of the per-byte escapes |
| AuxBuffer.AsString | fuzz_runner/src/nyx/aux_buffer.rs:206-208 | defined iff the length fits, and then the escape of exactly the first len bytes |
| AuxBuffer.UnescapeEscaped | fuzz_runner/src/nyx/aux_buffer.rs:190-200 | escaping loses nothing: reading the text back gives the bytes |
| IjonData.IjonOffsets | fuzz_runner/src/nyx/ijon_data.rs:9-11 | the k-th `max_data` slot starts 8k bytes into the IJON data |
| IjonData.PageLayout | fuzz_runner/src/nyx/ijon_data.rs:15-19 | the interpreter data and its padding end at 0x800, where the IJON data starts; 256 × 8 bytes then end the page at 0x1000 |
| IjonData.SlotBytes | fuzz_runner/src/nyx/ijon_data.rs:9-19 | slot k of `max_data` is the little-endian u64 at 0x800 + 8k |
| IjonData.DecodeEncodeFeedback | fuzz_runner/src/nyx/ijon_data.rs:3-19 | the feedback page round-trips |
| IjonData.FeedbackBuffer.constructor | fuzz_runner/src/nyx/ijon_data.rs:26-28 | `FeedbackBuffer::new` stores its argument unchanged |
| ExitReason.FromWaitStatus | fuzz_runner/src/exitreason.rs:16-23 | Exited gives Normal with the exit code; Signaled and Stopped keep their signal; every other status has no exit reason |
| ExitReason.NormalIffExited | fuzz_runner/src/exitreason.rs:25-28 | `is_normal` holds of a classified status iff the process exited |
| ExitReason.Name | fuzz_runner/src/exitreason.rs:30-42 | every variant but FuzzerError has a non-empty name |
| ExitReason.NamesDistinct | fuzz_runner/src/exitreason.rs:30-42 | equal names mean the same variant |
| Config.IntoAbsolutePath | config/src/config.rs:8-19 | an absolute path is returned unchanged; a relative one is joined to the share directory and canonicalised, and fails where canonicalisation fails |
| Config.AbsolutePathIsFixed | config/src/config.rs:8-19 | a resolved path is absolute, and resolving it again changes nothing |
| Config.Require | config/src/config.rs:31-43 | the user's value if given, else the default, else a failure naming the field |
| Config.QemuKernelConfigFromLoader | config/src/config.rs:30-46 | succeeds iff the three paths resolve and `debug` is given by one side; each path is the user's, else the default's, resolved against the default config's folder, and then absolute; `debug` is the user's, else the default's |
| Config.QemuSnapshotConfigFromLoader | config/src/config.rs:65-82 | succeeds iff the three paths resolve and the snapshot path and `debug` are given; each path is the user's, else the default's, resolved and then absolute; the snapshot path and `debug` are the user's, else the default's |
| Config.FuzzRunnerConfigFromLoader | config/src/config.rs:91-101 | loaders of different runner kinds fail with a conflict (a panic); loaders of the same kind succeed iff that kind's merge does, with its value or its error |
| Config.FuzzerConfigFromLoader | config/src/config.rs:135-162 | fails iff a required field is missing from both loaders or the seed path does not resolve; an empty seed path means none; `spec_path` is always the share directory plus `/spec.msgp`; every required field is the user's value, else the default's; `exit_after_first_crash` falls back to false; the optional fields merge as options |
| Config.ConfigFromLoader | config/src/config.rs:171-176 | succeeds iff both the runner and the fuzzer merges succeed, and then holds their two values; a runner failure is reported first |
| Loader.DefaultInputBufferSize | config/src/loader.rs:72-74 | 1 << 17 = 131072, a positive multiple of 0x1000 |
| Loader.DefaultIptFilter | config/src/loader.rs:84-89 | the default filter {0, 0} is never emitted |
| Loader.DefaultFuzzerConfigLoader | config/src/loader.rs:38-89 | write protection is off, `cow_primary_size` is 0, the input buffer size is accepted by the page check, and no IPT filter is enabled |
| Params.ParseCommand | fuzz_runner/src/nyx/params.rs:58-59 | after `cmd[0]`, the binary, QEMU reads back exactly the options |
| Params.EnabledFiltersMembers | fuzz_runner/src/nyx/params.rs:105-111 | a filter is emitted iff it is in the list and both its bounds are nonzero |
| Params.DefaultFiltersEmitNothing | fuzz_runner/src/nyx/params.rs:105-111 | four default filters contribute nothing to the device option |
| Params.AppendIptFilters | fuzz_runner/src/nyx/params.rs:105-111 | the counted loop appends the enabled filters, numbered consecutively from 0 |
| Params.CowSuffix | fuzz_runner/src/nyx/params.rs:113-115 | the `cow_primary_size` suffix is present iff the size is given |
| Params.NyxDeviceOptions | fuzz_runner/src/nyx/params.rs:96-117 | the built string is `nyx,chardev=nyx_interface`, then bitmap size, input buffer size, worker id, workdir and sharedir, then the filters, then the optional suffix |
| Params.SnapshotReload | fuzz_runner/src/nyx/params.rs:125-141 | the snapshot to create or reuse; none (a panic) for the default path |
| Params.SnapshotCommandLine | fuzz_runner/src/nyx/params.rs:58-123 | QEMU sees the disk; `-vnc :(id+cpu)` and `mon:stdio` when debugging, `-display none` and `stdio` otherwise; the control socket; the device option with decimal bounds; the snapshot CPU; the reload option; and no kernel options |
| Params.NewFromSnapshot | fuzz_runner/src/nyx/params.rs:52-155 | fails iff the snapshot path is the default; otherwise `cmd` is the binary then the snapshot-mode options, the file names are `workdir/aux_buffer_<id>` and `workdir/interface_<id>`, and the payload size, bitmap size and flags are copied through |
| Params.KernelReload | fuzz_runner/src/nyx/params.rs:231-238 | a reload option iff a snapshot file is wanted |
| Params.KernelCommandLine | fuzz_runner/src/nyx/params.rs:162-238 | QEMU sees the kernel, initrd and fixed command line; `-display none` and serial `none` unless debugging; the device option with hexadecimal bounds; the VMX CPU; and `load=off` for worker 0 and `load=on` for the others iff a snapshot file is wanted |
| Params.NewFromKernel | fuzz_runner/src/nyx/params.rs:157-252 | `cmd` is the binary then the kernel-mode options; file names, payload size, bitmap size and flags as in snapshot mode |
| QemuProcess.RequestPage | fuzz_runner/src/nyx/qemu_process.rs:283-285 | a page request sets `page_addr`, `page_dump_mode = 1` and `changed = 1`, and nothing else |
| QemuProcess.SendStopsOnlyWhenDone | fuzz_runner/src/nyx/qemu_process.rs:233-291 | a run completes only on a result without hprintf that has a terminal flag set, or that asks for the page it asked for last; it panics only on an hprintf result whose misc length passes 2686 |
| QemuProcess.HprintfContinues | fuzz_runner/src/nyx/qemu_process.rs:245-257 | a result with hprintf set whose misc length fits never ends the loop, even with a terminal flag; the config is untouched |
| QemuProcess.HprintfOverrunPanics | fuzz_runner/src/nyx/qemu_process.rs:245-252 | a result with hprintf set and a misc length past 2686 panics at once (`as_slice`'s `assert!`), with that result, misc area and config |
| QemuProcess.SendPanicsOnlyOnOverrun | fuzz_runner/src/nyx/qemu_process.rs:245-252 | when every published misc length fits the data area, a run never panics |
| QemuProcess.QuietRunContinues | fuzz_runner/src/nyx/qemu_process.rs:272-291 | a result with no hprintf, no terminal flag and no missing page runs QEMU again with the config unchanged |
| QemuProcess.NewPageRequested | fuzz_runner/src/nyx/qemu_process.rs:276-286 | a new missing page is requested and remembered as the last address |
| QemuProcess.FirstPageAtZeroStops | fuzz_runner/src/nyx/qemu_process.rs:234-281 | since the last address starts at 0, a first missing page at address 0 ends the run at once |
| QemuProcess.SendConsumesPrefix | fuzz_runner/src/nyx/qemu_process.rs:233-291 | a run consumes a prefix of the oracle; the socket fails iff the oracle runs out before a result that stops the loop, by completing it or by panicking |
| QemuProcess.SendConfig | fuzz_runner/src/nyx/qemu_process.rs:276-286 | a run leaves the config as it was or with one page request for the last address |
| QemuProcess.QemuProcess.SendPayload | fuzz_runner/src/nyx/qemu_process.rs:233-296 | the loop's outcome (completed, socket failed or panicked) and final state are what the specification `Send` gives from the state before the call; the misc areas stay 2686-byte arrays |
| QemuProcess.TimeoutConfig | fuzz_runner/src/nyx/qemu_process.rs:298-302 | `timeout_sec` is the seconds mod 256, `timeout_usec` the whole microseconds below 1,000,000, `changed` = 1, and nothing else changes |
| QemuProcess.QemuProcess.SetTimeout | fuzz_runner/src/nyx/qemu_process.rs:298-302 | the config becomes `TimeoutConfig` of the old one; result, misc and oracle are untouched |
| QemuProcess.QemuProcess.constructor | fuzz_runner/src/nyx/aux_buffer.rs:184-188 | a worker starts with its fields as given, and its misc areas, now and to come, are the fixed 2686-byte data array |
| QemuProcess.QemuProcess.RunQemu | fuzz_runner/src/nyx/qemu_process.rs:46-49 | one run publishes the next result and misc sections of the oracle; none is left when the socket failed |
| QemuProcess.AwaitReadyExact | fuzz_runner/src/nyx/qemu_process.rs:187-202 | the readiness loop stops exactly at the first result that is in state 3 or has hprintf = 1 with a misc length past 2686; it panics in the second case, checked first, and is ready in the first; the socket fails iff no result up to the end of the oracle stops it |
| QemuProcess.ReadyConfig | fuzz_runner/src/nyx/qemu_process.rs:178-209 | once ready, `reload_mode` = 1, timeout 0 s / 500000 µs, `changed` = 1, `protect_payload_buffer` = 1 iff write protection was asked for, and nothing else changes |
| QemuProcess.StartupAsWritten | fuzz_runner/src/nyx/qemu_process.rs:178-202 | as written, start-up succeeds iff the readiness loop becomes ready, whatever the header says; its panic and socket failure are reported as such |
| QemuProcess.CorruptHeaderAccepted | fuzz_runner/src/nyx/qemu_process.rs:178 | a header with magic 0 fails validation yet start-up succeeds as written |
| QemuProcess.Startup | fuzz_runner/src/nyx/qemu_process.rs:178-209 | start-up succeeds iff the header is valid and QEMU-Nyx becomes ready; a bad header is reported first, then a readiness panic or socket failure |
| QemuProcess.QemuProcess.Start | fuzz_runner/src/nyx/qemu_process.rs:178-209 | the outcome is `Startup`'s; on success the config is `ReadyConfig`, after a readiness failure it carries only the write-protection request, and the sections are those the readiness loop stopped at; a bad header changes nothing, misc included |
| LibNyx.DisplayName | libnyx/src/lib.rs:51-65 | the name is "Unknown" iff the value is Asan or IoError |
| LibNyx.DisplayNamesDistinct | libnyx/src/lib.rs:51-65 | two values with the same name other than "Unknown" are equal |
| LibNyx.ReturnValueOf | libnyx/src/lib.rs:345-358 | a failed transport is IoError; codes 0, 1, 3, 4, 5 are Normal, Crash, Timeout, InvalidWriteToPayload and Abort; every other code, HPRINTF included, is Error; Asan never occurs |
| LibNyx.ExecCodeRoundTrip | libnyx/src/lib.rs:345-358 | every code that is not an error is recovered from its return value, and every return value with a code comes from that code |
| LibNyx.RoleOf | libnyx/src/lib.rs:201-209 | each process role maps to the QEMU-Nyx role of the same name |
| LibNyx.NyxConfig.QemuBinaryPath | libnyx/src/lib.rs:111-117 | the QEMU binary iff the runner is a kernel runner |
| LibNyx.NyxConfig.KernelImagePath | libnyx/src/lib.rs:120-126 | the kernel image iff the runner is a kernel runner |
| LibNyx.NyxConfig.RamfsImagePath | libnyx/src/lib.rs:129-135 | the initial ram disk iff the runner is a kernel runner |
| LibNyx.NyxConfig.HprintfFd | libnyx/src/lib.rs:187-193 | the descriptor set, or −1 when none is set |
| LibNyx.NyxConfig.SetWorkdirPath | libnyx/src/lib.rs:168-170 | the workdir getter then returns the path; nothing else changes |
| LibNyx.NyxConfig.SetInputBufferSize | libnyx/src/lib.rs:172-179 | accepts iff the size is a multiple of 0x1000 and then sets it; otherwise (a panic) the config is unchanged |
| LibNyx.NyxConfig.SetInputBufferWriteProtection | libnyx/src/lib.rs:182-184 | the getter then returns the flag; nothing else changes |
| LibNyx.NyxConfig.SetHprintfFd | libnyx/src/lib.rs:196-198 | the getter then returns the descriptor |
| LibNyx.NyxConfig.SetProcessRole | libnyx/src/lib.rs:201-209 | the role getter then returns the same-named QEMU-Nyx role |
| LibNyx.NyxConfig.SetReuseSnapshotPath | libnyx/src/lib.rs:212-214 | the runtime config records the snapshot path |
| LibNyx.NyxConfig.SetWorkerId | libnyx/src/lib.rs:227-229 | the getter then returns the worker id |
| LibNyx.NyxConfig.SetAuxBufferSize | libnyx/src/lib.rs:232-234 | accepts iff the size is a multiple of 0x1000 and then records it; otherwise nothing changes |
| LibNyx.LoadConfig | libnyx/src/lib.rs:83-92 | a config iff loading succeeded, holding the loaded config and the share directory; otherwise the loader's error |
| LibNyx.NyxProcess.OptionSetReloadMode | libnyx/src/lib.rs:303-305 | writes 1/0 into `reload_mode` only; `changed` untouched |
| LibNyx.NyxProcess.OptionSetRedqueenMode | libnyx/src/lib.rs:307-309 | writes 1/0 into `redqueen_mode` only |
| LibNyx.NyxProcess.OptionSetTraceMode | libnyx/src/lib.rs:311-313 | writes 1/0 into `trace_mode` only |
| LibNyx.NyxProcess.OptionSetDeleteIncrementalSnapshot | libnyx/src/lib.rs:315-317 | writes 1/0 into `discard_tmp_snapshot` only |
| LibNyx.NyxProcess.OptionSetTimeout | libnyx/src/lib.rs:319-322 | writes both timeout fields only |
| LibNyx.NyxProcess.OptionApply | libnyx/src/lib.rs:324-326 | sets `changed` = 1 and nothing else |
| LibNyx.NyxProcess.Exec | libnyx/src/lib.rs:345-359 | none iff the run panicked; otherwise the return value is `ReturnValueOf` the run's transport outcome and final exec code; the process state is the run's |
| LibNyx.CopyLengthAsWritten | libnyx/src/lib.rs:361-366 | as written, the copy length is min(size, payload length) |
| LibNyx.CopyOverrunsPayload | libnyx/src/lib.rs:361-366 | a 4096-byte input into a 4096-byte payload page ends 4 bytes past the page |
| LibNyx.CopyLength | libnyx/src/lib.rs:361-366 | the corrected copy length stays within the page after the 4-byte prefix, and is the size or all the room left |
| LibNyx.FramedInputReadsBack | libnyx/src/lib.rs:361-366 | the length prefix and the copied bytes read back as the size and the data |
| LibNyx.NyxProcess.SetInputPtr | libnyx/src/lib.rs:361-366 | the payload starts with the size as 4 little-endian bytes, then the copied input; the rest is untouched |
| LibNyx.NyxProcess.SetInput | libnyx/src/lib.rs:368-370 | reading the payload back gives the size and the copied input |
| LibNyx.NyxProcess.AuxString | libnyx/src/lib.rs:340-343 | the first `misc.len` bytes of the 2686-byte misc data, none (a panic) when the length is past 2686 |
| LibNyx.NewProcess | libnyx/src/lib.rs:249-260 | records the worker id in the config, and gives a process iff spawning succeeded |
| Ffi.NyxConfigLoad | libnyx/src/ffi.rs:49-61 | null iff loading failed, otherwise a fresh handle to the loaded config |
| Ffi.NyxConfigSetInputBufferSize | libnyx/src/ffi.rs:94-101 | accepts iff the size is positive and a multiple of 4096, and only then changes the config |
| Ffi.AcceptedInputBufferSizes | libnyx/src/ffi.rs:94-101 | the accepted sizes are exactly k × 4096 for k ≥ 1 |
| Ffi.NyxConfigSetAuxBufferSize | libnyx/src/ffi.rs:146-153 | zero is rejected (a panic); otherwise the config's verdict is returned unchanged |
| Ffi.NyxNew | libnyx/src/ffi.rs:156-167 | null iff spawning failed; the worker id is recorded either way, and nothing else in the config changes |
| Ffi.NyxGetAuxString | libnyx/src/ffi.rs:270-280 | copies exactly min(misc.len, size) bytes of the misc data and returns that count; the rest of the buffer is untouched |
| Ffi.AuxStringPrefix | libnyx/src/ffi.rs:270-280 | the copied bytes are a prefix of `aux_string`, and all of it when the buffer is large enough |
| Ffi.NyxRemoveWorkDir | libnyx/src/ffi.rs:295-308 | true iff the removal succeeded |

## Left out

- Process spawning, sleeps, the socket connect-retry, file creation, symlinks and `mmap` in `QemuProcess::new`, plus `shutdown` and `wait`: operating-system I/O. The spawned process is a parameter of `LibNyx.NewProcess` and `Ffi.NyxNew`.
- Workdir management (`prepare_workdir`, `prepare_redqueen_workdir`, `clear_workdir`, `remove_work_dir`): file-system operations. Their outcome is a parameter of `Ffi.NyxRemoveWorkDir`.
- The memory mapping of the aux buffer and `mem_barrier`: the buffer is shared with QEMU-Nyx, which is concurrency. The model sees one section snapshot per run.
- RON parsing in `Config::new_from_sharedir` and `SnapshotPlacement::from_str`: a foreign deserialiser. The loaded config is a parameter of `LibNyx.LoadConfig`.
- Path canonicalisation: it depends on the file system, so `Config.FileSystem` is a map from the paths that exist to their canonical form.
- The `fcntl` descriptor check in `NyxProcess::set_hprintf_fd`: a libc call.
- Printing: `NyxConfig::print` and `Display`, `nyx_config_debug`, `nyx_config_print`, `nyx_print_aux_buffer`, the hprintf log file and the coloured echo in the loops.
- The buffer getters (`aux_buffer_as_mut_ptr`, `input_buffer`, `bitmap_buffer`, `ijon_buffer` and their sizes and FFI wrappers), `aux_misc`, `aux_data_misc`, `aux_tmp_snapshot_created` and `dict`: they hand out memory or copy fields without logic.
- The FFI setters and option wrappers that only forward a call (`nyx_config_set_workdir_path`, `nyx_option_set_*`, `nyx_exec`, `nyx_set_afl_input`, and so on): they are the `LibNyx` methods they call.
- The null and alignment checks of the FFI handles: a handle is a non-null Dafny reference, so they hold by typing.
- The unused record fields of `QemuParams` are kept; the `QemuParams::new` used by `fuzz_runner/src/nyx/mod.rs` is not part of this model.
- Params.NewFromSnapshot, Params.NewFromKernel: `cmd` is modelled at the level of options (`Arg`) rendered to strings; the exact character content of the fixed option names is given by `Params.FlagText`.
- LibNyx.NyxProcess.AuxString: returns the bytes; the lossy UTF-8 conversion to a `String` is not modelled.
- LibNyx.NyxProcess.SetInputPtr: requires the caller's buffer to hold the bytes copied, which the raw-pointer source cannot check. The length prefix is little-endian, the byte order of the x86 hosts QEMU-Nyx runs on, where the source writes it native-endian.
- LibNyx.NyxProcess.SetInput: the same requirement on the caller's buffer.
- Ffi.NyxGetAuxString: requires the caller's buffer to hold `size` bytes, and `misc.len` to stay within the data area whenever the copy reaches that far; the source trusts QEMU-Nyx for the latter.
- LibNyx.NyxConfig.SetAuxBufferSize: the runtime config's own check lives outside libnyx/src/lib.rs and config/src/config.rs; it follows its documented rule (a multiple of 0x1000).
- The `unwrap` on writing the hprintf log in `send_payload`, and the `unwrap`s on the control socket in `run_qemu`: file and socket I/O. A failed socket is the `SocketFailed` outcome of an exhausted oracle, as `lib.rs` expects.

## Findings

| source | as written | input that shows it | evidently intended | confidence | as-written member | corrected member |
|---|---|---|---|---|---|---|
| libnyx/src/lib.rs:361-366 | copies min(size, payload length) bytes to offset 4 of the payload page | size = 4096 with a 4096-byte payload page: the copy ends at byte 4100 | at most payload length − 4 bytes after the 4-byte prefix | not executed | LibNyx.CopyOverrunsPayload | LibNyx.NyxProcess.SetInputPtr |
| fuzz_runner/src/nyx/qemu_process.rs:178 | the `Result` of `validate_header` is dropped, so start-up goes on with a corrupt header | a header with magic 0 | a header that fails validation stops start-up | not executed | QemuProcess.CorruptHeaderAccepted | QemuProcess.QemuProcess.Start |
