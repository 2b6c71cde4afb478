/** One QEMU-Nyx worker as the host drives it (fuzz_runner/src/nyx/qemu_process.rs):
    the host writes the config section of the aux buffer, asks QEMU-Nyx to run
    over the control socket, and reads back the result section. A run is an
    oracle step: the next element of `engine` replaces the result section and
    the misc area; an exhausted oracle is a failed control socket. */
module QemuProcess {
  import opened Types
  import opened Wrappers
  import opened AuxBuffer

  /** The result section after a run: the packed section as aux_buffer.rs lays
      it out, plus the flags qemu_process.rs reads that this revision's packed
      struct does not declare. */
  datatype EngineResult = EngineResult(
    section: AuxResult,
    hprintf: u8,
    success: u8,
    crash_found: u8,
    asan_found: u8,
    payload_write_attempt_found: u8)

  /** What one run of QEMU-Nyx leaves behind. */
  datatype EngineStep = EngineStep(result: EngineResult, misc: AuxMisc)

  // ---------------------------------------------------------------- send_payload

  /** The flags that end an execution. */
  predicate Terminal(r: EngineResult) {
    r.success != 0 || r.crash_found != 0 || r.asan_found != 0 || r.payload_write_attempt_found != 0
  }

  /** How a loop of runs ended: a result ended it, the control socket
      failed, or reading the misc area of an hprintf result panicked. */
  datatype Status = Completed | SocketFailed | Panicked

  /** An hprintf result whose misc length runs past the 2686-byte data area:
      `as_slice` (and the direct `data[0..len]` slice) panics on it. */
  predicate MiscOverruns(m: AuxMisc) {
    m.len > MISC_DATA_SIZE
  }

  /** Where an execution stopped; `last_address` is the last page address the
      host asked QEMU-Nyx to dump. */
  datatype SendOutcome = SendOutcome(
    status: Status,
    result: EngineResult,
    misc: AuxMisc,
    config: AuxConfig,
    engine: seq<EngineStep>,
    last_address: u64)

  /** The host's answer to a missing guest page: dump it on the next run. */
  function RequestPage(c: AuxConfig, addr: u64): (r: AuxConfig)
    ensures r.page_addr == addr && r.page_dump_mode == 1 && r.changed == 1
    ensures r.(page_addr := c.page_addr, page_dump_mode := c.page_dump_mode, changed := c.changed) == c
  {
    c.(page_addr := addr, page_dump_mode := 1, changed := 1)
  }

  /** `send_payload` as a function of the runs still to come, the current
      result, misc area and config, and the last requested page address. */
  function Send(engine: seq<EngineStep>, result: EngineResult, misc: AuxMisc, config: AuxConfig, old_address: u64): SendOutcome
    decreases |engine|
  {
    if engine == [] then SendOutcome(SocketFailed, result, misc, config, [], old_address)
    else
      var r := engine[0].result;
      if r.hprintf != 0 then
        if MiscOverruns(engine[0].misc) then SendOutcome(Panicked, r, engine[0].misc, config, engine[1..], old_address)
        else Send(engine[1..], r, engine[0].misc, config, old_address)
      else if Terminal(r) then SendOutcome(Completed, r, engine[0].misc, config, engine[1..], old_address)
      else if r.section.page_not_found != 0 then
        if old_address == r.section.page_not_found_addr then SendOutcome(Completed, r, engine[0].misc, config, engine[1..], old_address)
        else Send(engine[1..], r, engine[0].misc, RequestPage(config, r.section.page_not_found_addr), r.section.page_not_found_addr)
      else Send(engine[1..], r, engine[0].misc, config, old_address)
  }

  /** An execution that completes stops on a result without hprintf that
      either carries a terminal flag or repeats the last requested page; one
      that panics stops on an hprintf result whose misc length overruns. */
  lemma {:induction false} SendStopsOnlyWhenDone(engine: seq<EngineStep>, result: EngineResult, misc: AuxMisc, config: AuxConfig, old_address: u64)
    ensures var o := Send(engine, result, misc, config, old_address);
      && (o.status == Completed ==>
            o.result.hprintf == 0
            && (Terminal(o.result) || (o.result.section.page_not_found != 0 && o.result.section.page_not_found_addr == o.last_address)))
      && (o.status == Panicked ==> o.result.hprintf != 0 && MiscOverruns(o.misc))
    decreases |engine|
  {
    if engine != [] {
      var r := engine[0].result;
      if r.hprintf != 0 {
        if !MiscOverruns(engine[0].misc) {
          SendStopsOnlyWhenDone(engine[1..], r, engine[0].misc, config, old_address);
        }
      } else if Terminal(r) {
      } else if r.section.page_not_found != 0 {
        if old_address != r.section.page_not_found_addr {
          SendStopsOnlyWhenDone(engine[1..], r, engine[0].misc, RequestPage(config, r.section.page_not_found_addr), r.section.page_not_found_addr);
        }
      } else {
        SendStopsOnlyWhenDone(engine[1..], r, engine[0].misc, config, old_address);
      }
    }
  }

  /** An execution consumes runs from the front of the oracle; the socket
      fails only once the oracle is exhausted without a run that stops the
      loop, and an execution that stops used at least one run. */
  lemma {:induction false} SendConsumesPrefix(engine: seq<EngineStep>, result: EngineResult, misc: AuxMisc, config: AuxConfig, old_address: u64)
    ensures var o := Send(engine, result, misc, config, old_address);
      && |o.engine| <= |engine| && o.engine == engine[|engine| - |o.engine|..]
      && (o.status == SocketFailed <==> !StopsWithin(engine, old_address))
      && (o.status == SocketFailed ==> o.engine == [])
      && (o.status != SocketFailed ==> |o.engine| < |engine|)
    decreases |engine|
  {
    if engine != [] {
      var r, m := engine[0].result, engine[0].misc;
      var next, c;
      if r.hprintf != 0 {
        if MiscOverruns(m) {
          return;
        }
        next, c := old_address, config;
      } else if Terminal(r) || (r.section.page_not_found != 0 && old_address == r.section.page_not_found_addr) {
        return;
      } else if r.section.page_not_found != 0 {
        next := r.section.page_not_found_addr;
        c := RequestPage(config, next);
      } else {
        next, c := old_address, config;
      }
      assert Send(engine, result, misc, config, old_address) == Send(engine[1..], r, m, c, next);
      assert StopsWithin(engine, old_address) == StopsWithin(engine[1..], next);
      SendConsumesPrefix(engine[1..], r, m, c, next);
      TailSuffix(engine, Send(engine[1..], r, m, c, next).engine);
    }
  }

  /** A suffix of the tail is a suffix of the whole sequence. */
  lemma TailSuffix<T>(s: seq<T>, t: seq<T>)
    requires s != [] && |t| <= |s| - 1 && t == s[1..][|s| - 1 - |t|..]
    ensures t == s[|s| - |t|..]
  {
    assert s[1..][|s| - 1 - |t|..] == s[|s| - |t|..];
  }

  /** Whether some run among `engine` ends the execution, by a result or by a
      panic, starting from the requested page `old_address`: a reference
      definition of the loop's exit. */
  predicate StopsWithin(engine: seq<EngineStep>, old_address: u64)
    decreases |engine|
  {
    if engine == [] then false
    else
      var r := engine[0].result;
      if r.hprintf != 0 then MiscOverruns(engine[0].misc) || StopsWithin(engine[1..], old_address)
      else (
        || Terminal(r)
        || (r.section.page_not_found != 0 && r.section.page_not_found_addr == old_address)
        || StopsWithin(engine[1..], if r.section.page_not_found != 0 then r.section.page_not_found_addr else old_address))
  }

  /** When every misc area QEMU-Nyx publishes fits its data area, an
      execution never panics. */
  lemma {:induction false} SendPanicsOnlyOnOverrun(engine: seq<EngineStep>, result: EngineResult, misc: AuxMisc, config: AuxConfig, old_address: u64)
    requires forall k :: 0 <= k < |engine| ==> !MiscOverruns(engine[k].misc)
    ensures Send(engine, result, misc, config, old_address).status != Panicked
    decreases |engine|
  {
    if engine != [] {
      var r := engine[0].result;
      assert !MiscOverruns(engine[0].misc);
      assert forall k :: 0 <= k < |engine[1..]| ==> engine[1..][k] == engine[k + 1];
      var next := if r.hprintf == 0 && !Terminal(r) && r.section.page_not_found != 0 then r.section.page_not_found_addr else old_address;
      var c := if next != old_address then RequestPage(config, next) else config;
      SendPanicsOnlyOnOverrun(engine[1..], r, engine[0].misc, c, next);
    }
  }

  /** The only config writes of an execution request a page: the config is
      either untouched (and no page was requested) or differs from the initial
      one only in the request for the last address. */
  lemma {:induction false} SendConfig(engine: seq<EngineStep>, result: EngineResult, misc: AuxMisc, config: AuxConfig, old_address: u64)
    ensures var o := Send(engine, result, misc, config, old_address);
      (o.config == config && o.last_address == old_address)
      || o.config == RequestPage(config, o.last_address)
    decreases |engine|
  {
    if engine != [] {
      var r := engine[0].result;
      if r.hprintf != 0 {
        if !MiscOverruns(engine[0].misc) {
          SendConfig(engine[1..], r, engine[0].misc, config, old_address);
        }
      } else if Terminal(r) {
      } else if r.section.page_not_found != 0 {
        var a := r.section.page_not_found_addr;
        if old_address != a {
          var c := RequestPage(config, a);
          SendConfig(engine[1..], r, engine[0].misc, c, a);
          var o := Send(engine[1..], r, engine[0].misc, c, a);
          assert RequestPage(c, o.last_address) == RequestPage(config, o.last_address);
        }
      } else {
        SendConfig(engine[1..], r, engine[0].misc, config, old_address);
      }
    }
  }

  /** A run with hprintf set whose misc area fits never ends the execution,
      whatever flags it carries. */
  lemma HprintfContinues(engine: seq<EngineStep>, result: EngineResult, misc: AuxMisc, config: AuxConfig, old_address: u64)
    requires engine != [] && engine[0].result.hprintf != 0 && engine[0].misc.len <= MISC_DATA_SIZE
    ensures Send(engine, result, misc, config, old_address)
         == Send(engine[1..], engine[0].result, engine[0].misc, config, old_address)
  {
  }

  /** A run with hprintf set whose misc length overruns the data area panics
      right there, whatever flags it carries. */
  lemma HprintfOverrunPanics(engine: seq<EngineStep>, result: EngineResult, misc: AuxMisc, config: AuxConfig, old_address: u64)
    requires engine != [] && engine[0].result.hprintf != 0 && engine[0].misc.len > MISC_DATA_SIZE
    ensures var o := Send(engine, result, misc, config, old_address);
      o.status == Panicked && o.result == engine[0].result && o.misc == engine[0].misc
      && o.config == config && o.engine == engine[1..]
  {
  }

  /** A run with no hprintf, no terminal flag and no missing page leaves the
      config alone and the loop runs again. */
  lemma QuietRunContinues(engine: seq<EngineStep>, result: EngineResult, misc: AuxMisc, config: AuxConfig, old_address: u64)
    requires engine != []
    requires var r := engine[0].result; r.hprintf == 0 && !Terminal(r) && r.section.page_not_found == 0
    ensures Send(engine, result, misc, config, old_address)
         == Send(engine[1..], engine[0].result, engine[0].misc, config, old_address)
  {
  }

  /** A new missing page is requested and remembered before the next run. */
  lemma NewPageRequested(engine: seq<EngineStep>, result: EngineResult, misc: AuxMisc, config: AuxConfig, old_address: u64)
    requires engine != []
    requires var r := engine[0].result;
      r.hprintf == 0 && !Terminal(r) && r.section.page_not_found != 0 && r.section.page_not_found_addr != old_address
    ensures var r := engine[0].result;
      Send(engine, result, misc, config, old_address)
      == Send(engine[1..], r, engine[0].misc,
              config.(page_addr := r.section.page_not_found_addr, page_dump_mode := 1, changed := 1),
              r.section.page_not_found_addr)
  {
  }

  /** `old_address` starts at 0, so a first missing page at address 0 ends the
      execution right away, without requesting the page. */
  lemma FirstPageAtZeroStops(engine: seq<EngineStep>, result: EngineResult, misc: AuxMisc, config: AuxConfig)
    requires engine != []
    requires var r := engine[0].result;
      r.hprintf == 0 && !Terminal(r) && r.section.page_not_found != 0 && r.section.page_not_found_addr == 0
    ensures var o := Send(engine, result, misc, config, 0);
      o.status == Completed && o.config == config && o.engine == engine[1..] && o.result == engine[0].result
  {
  }

  // ---------------------------------------------------------------- set_timeout

  /** The config after `set_timeout(timeout)`: seconds truncated to a byte. */
  function TimeoutConfig(c: AuxConfig, timeout: Duration): (r: AuxConfig)
    requires timeout.Valid()
    ensures r.timeout_sec == timeout.secs % 0x100
    ensures r.timeout_usec < 1_000_000 && r.timeout_usec * 1000 <= timeout.nanos < (r.timeout_usec + 1) * 1000
    ensures r.changed == 1
    ensures r.(timeout_sec := c.timeout_sec, timeout_usec := c.timeout_usec, changed := c.changed) == c
  {
    c.(timeout_sec := AsU8(timeout.secs), timeout_usec := timeout.SubsecMicros(), changed := 1)
  }

  // ---------------------------------------------------------------- readiness

  /** Where the readiness loop stopped. */
  datatype ReadyOutcome = ReadyOutcome(status: Status, result: EngineResult, misc: AuxMisc, engine: seq<EngineStep>)

  /** Whether the readiness loop stops at a result and misc area: echoing an
      hprintf message whose misc length overruns panics, and state 3 is ready. */
  predicate ReadyStops(s: EngineStep) {
    (s.result.hprintf == 1 && MiscOverruns(s.misc)) || s.result.section.state == 3
  }

  /** The readiness loop of `QemuProcess::new`: echo any hprintf message, and
      run QEMU-Nyx until the result section reports state 3. */
  function AwaitReady(engine: seq<EngineStep>, result: EngineResult, misc: AuxMisc): ReadyOutcome
    decreases |engine|
  {
    if result.hprintf == 1 && MiscOverruns(misc) then ReadyOutcome(Panicked, result, misc, engine)
    else if result.section.state == 3 then ReadyOutcome(Completed, result, misc, engine)
    else if engine == [] then ReadyOutcome(SocketFailed, result, misc, [])
    else AwaitReady(engine[1..], engine[0].result, engine[0].misc)
  }

  /** The loop exits exactly at the first result that is ready or panics,
      with the state it found there; the socket fails only when no result up
      to the end of the oracle stops it. */
  lemma {:induction false} AwaitReadyExact(engine: seq<EngineStep>, result: EngineResult, misc: AuxMisc)
    ensures var o := AwaitReady(engine, result, misc);
      && (o.status == SocketFailed <==>
            !ReadyStops(EngineStep(result, misc)) && forall k :: 0 <= k < |engine| ==> !ReadyStops(engine[k]))
      && (o.status == Panicked ==> o.result.hprintf == 1 && MiscOverruns(o.misc))
      && (o.status == Completed ==> o.result.section.state == 3 && !(o.result.hprintf == 1 && MiscOverruns(o.misc)))
      && (ReadyStops(EngineStep(result, misc)) ==> o.result == result && o.misc == misc && o.engine == engine)
      && (o.status != SocketFailed && !ReadyStops(EngineStep(result, misc)) ==>
            exists k :: 0 <= k < |engine| && o.result == engine[k].result && o.misc == engine[k].misc
              && o.engine == engine[k + 1..] && forall j :: 0 <= j < k ==> !ReadyStops(engine[j]))
    decreases |engine|
  {
    if !ReadyStops(EngineStep(result, misc)) && engine != [] {
      var o := AwaitReady(engine, result, misc);
      AwaitReadyExact(engine[1..], engine[0].result, engine[0].misc);
      assert EngineStep(engine[0].result, engine[0].misc) == engine[0];
      assert forall k :: 0 <= k < |engine[1..]| ==> engine[1..][k] == engine[k + 1];
      if !ReadyStops(engine[0]) && o.status != SocketFailed {
        var k :| 0 <= k < |engine[1..]| && o.result == engine[1..][k].result && o.misc == engine[1..][k].misc
                 && o.engine == engine[1..][k + 1..] && forall j :: 0 <= j < k ==> !ReadyStops(engine[1..][j]);
        assert engine[1..][k + 1..] == engine[k + 2..];
        assert forall j :: 0 <= j < k + 1 ==> !ReadyStops(engine[j]) by {
          forall j | 0 <= j < k + 1
            ensures !ReadyStops(engine[j])
          {
            if j > 0 {
              assert engine[j] == engine[1..][j - 1];
            }
          }
        }
      }
    }
  }

  /** The write-protection request made before the readiness loop. */
  function ProtectConfig(c: AuxConfig, write_protected_input_buffer: bool): (r: AuxConfig)
    ensures write_protected_input_buffer ==> r == c.(protect_payload_buffer := 1, changed := 1)
    ensures !write_protected_input_buffer ==> r == c
  {
    if write_protected_input_buffer then c.(protect_payload_buffer := 1, changed := 1) else c
  }

  /** The config once QEMU-Nyx is ready. */
  function ReadyConfig(c: AuxConfig, write_protected_input_buffer: bool): (r: AuxConfig)
    ensures r.reload_mode == 1 && r.timeout_sec == 0 && r.timeout_usec == 500_000 && r.changed == 1
    ensures r.protect_payload_buffer == if write_protected_input_buffer then 1 else c.protect_payload_buffer
    ensures r.(reload_mode := c.reload_mode, timeout_sec := c.timeout_sec, timeout_usec := c.timeout_usec,
               changed := c.changed, protect_payload_buffer := c.protect_payload_buffer) == c
  {
    ProtectConfig(c, write_protected_input_buffer).(reload_mode := 1, timeout_sec := 0, timeout_usec := 500_000, changed := 1)
  }

  /** How start-up ended when it did not succeed. */
  datatype StartupError = BadHeader(error: HeaderError) | EngineFailed | HprintfPanic

  /** Start-up as written: `validate_header`'s verdict is dropped, so only the
      readiness loop decides whether start-up succeeds. */
  function StartupAsWritten(header: AuxHeader, engine: seq<EngineStep>, result: EngineResult, misc: AuxMisc): (r: Result<(), StartupError>)
    ensures r.Success? <==> AwaitReady(engine, result, misc).status == Completed
    ensures r == Failure(HprintfPanic) <==> AwaitReady(engine, result, misc).status == Panicked
    ensures r == Failure(EngineFailed) <==> AwaitReady(engine, result, misc).status == SocketFailed
  {
    match AwaitReady(engine, result, misc).status
    case Completed => Success(())
    case SocketFailed => Failure(EngineFailed)
    case Panicked => Failure(HprintfPanic)
  }

  /** A corrupt header does not stop start-up as written. */
  lemma CorruptHeaderAccepted(misc: AuxMisc)
    ensures var header := AuxHeader(0, QEMU_PT_VERSION, QEMU_PT_HASH);
      var ready := EngineResult(AuxResult(3, 0, 0, 0, 0, 0, 0, 0, 0, 0, 0, 0, 0, 0), 0, 0, 0, 0, 0);
      ValidateHeader(header) == Failure(MagicMismatch(0)) && StartupAsWritten(header, [], ready, misc).Success?
  {
  }

  /** Start-up with the header check honoured: a bad header ends it first;
      after that the readiness loop decides, as it does as written. */
  function Startup(header: AuxHeader, engine: seq<EngineStep>, result: EngineResult, misc: AuxMisc): (r: Result<(), StartupError>)
    ensures r.Success? <==> ValidateHeader(header).Success? && AwaitReady(engine, result, misc).status == Completed
    ensures ValidateHeader(header).Failure? ==> r == Failure(BadHeader(ValidateHeader(header).error))
    ensures r == Failure(HprintfPanic) <==> ValidateHeader(header).Success? && AwaitReady(engine, result, misc).status == Panicked
    ensures r == Failure(EngineFailed) <==> ValidateHeader(header).Success? && AwaitReady(engine, result, misc).status == SocketFailed
  {
    if ValidateHeader(header).Failure? then Failure(BadHeader(ValidateHeader(header).error))
    else StartupAsWritten(header, engine, result, misc)
  }

  // ---------------------------------------------------------------- the worker

  /** `QemuProcess`: the aux buffer's header, config, result and misc sections,
      the input (payload) page and the runs QEMU-Nyx will perform. */
  class QemuProcess {
    const qemu_id: nat
    const write_protected_input_buffer: bool
    const header: AuxHeader
    var config: AuxConfig
    var result: EngineResult
    var misc: AuxMisc
    var engine: seq<EngineStep>
    const payload: array<u8>

    /** The misc area, now and after every run to come, is the fixed
        2686-byte data array of the packed struct. */
    ghost predicate Valid()
      reads this
    {
      misc.Valid() && forall k :: 0 <= k < |engine| ==> engine[k].misc.Valid()
    }

    constructor (qemu_id: nat, write_protected_input_buffer: bool, header: AuxHeader, config: AuxConfig,
                 result: EngineResult, misc: AuxMisc, engine: seq<EngineStep>, payload: array<u8>)
      requires misc.Valid() && forall k :: 0 <= k < |engine| ==> engine[k].misc.Valid()
      ensures Valid()
      ensures this.qemu_id == qemu_id && this.write_protected_input_buffer == write_protected_input_buffer
      ensures this.header == header && this.config == config && this.result == result && this.misc == misc
      ensures this.engine == engine && this.payload == payload
    {
      this.qemu_id := qemu_id;
      this.write_protected_input_buffer := write_protected_input_buffer;
      this.header := header;
      this.config := config;
      this.result := result;
      this.misc := misc;
      this.engine := engine;
      this.payload := payload;
    }

    /** `run_qemu`: one round trip on the control socket; false when it fails. */
    method RunQemu() returns (ok: bool)
      requires Valid()
      modifies this
      ensures Valid()
      ensures ok <==> old(engine) != []
      ensures ok ==> result == old(engine)[0].result && misc == old(engine)[0].misc && engine == old(engine)[1..]
      ensures !ok ==> result == old(result) && misc == old(misc) && engine == old(engine)
      ensures config == old(config)
    {
      if engine == [] {
        return false;
      }
      result := engine[0].result;
      misc := engine[0].misc;
      engine := engine[1..];
      ok := true;
    }

    /** `QemuProcess::send_payload`: run until a result ends the execution,
      answering each new missing page with a dump request; logging an hprintf
      message whose length overruns the misc data panics. */
    method SendPayload() returns (status: Status)
      requires Valid()
      modifies this
      ensures Valid()
      ensures var o := Send(old(engine), old(result), old(misc), old(config), 0);
        status == o.status && result == o.result && misc == o.misc && config == o.config && engine == o.engine
    {
      var old_address: u64 := 0;
      while true
        invariant Valid()
        invariant Send(engine, result, misc, config, old_address) == Send(old(engine), old(result), old(misc), old(config), 0)
        decreases |engine|
      {
        ghost var before := engine;
        var ok := RunQemu();
        if !ok {
          return SocketFailed;
        }
        assert engine == before[1..];
        if result.hprintf != 0 {
          if misc.len > |misc.data| {
            return Panicked;
          }
          continue;
        }
        if result.success != 0 || result.crash_found != 0 || result.asan_found != 0 || result.payload_write_attempt_found != 0 {
          return Completed;
        }
        if result.section.page_not_found != 0 {
          if old_address == result.section.page_not_found_addr {
            return Completed;
          }
          old_address := result.section.page_not_found_addr;
          config := config.(page_addr := result.section.page_not_found_addr);
          config := config.(page_dump_mode := 1);
          config := config.(changed := 1);
        }
      }
    }

    /** `QemuProcess::set_timeout`. */
    method SetTimeout(timeout: Duration)
      requires timeout.Valid()
      requires Valid()
      modifies this
      ensures Valid()
      ensures config == TimeoutConfig(old(config), timeout)
      ensures result == old(result) && misc == old(misc) && engine == old(engine)
    {
      config := config.(timeout_sec := AsU8(timeout.secs));
      config := config.(timeout_usec := timeout.SubsecMicros());
      config := config.(changed := 1);
    }

    /** The start-up steps of `QemuProcess::new` once the aux buffer is mapped
      (qemu_process.rs:178-209), with the header check honoured. */
    method Start() returns (r: Result<(), StartupError>)
      requires Valid()
      modifies this
      ensures Valid()
      ensures r == Startup(header, old(engine), old(result), old(misc))
      ensures ValidateHeader(header).Failure? ==>
        config == old(config) && result == old(result) && misc == old(misc) && engine == old(engine)
      ensures var o := AwaitReady(old(engine), old(result), old(misc));
        ValidateHeader(header).Success? ==> result == o.result && misc == o.misc && engine == o.engine
      ensures r.Success? ==> config == ReadyConfig(old(config), write_protected_input_buffer)
      ensures ValidateHeader(header).Success? && r.Failure? ==> config == ProtectConfig(old(config), write_protected_input_buffer)
    {
      var valid := ValidateHeader(header);
      if valid.Failure? {
        return Failure(BadHeader(valid.error));
      }
      if write_protected_input_buffer {
        config := config.(protect_payload_buffer := 1);
        config := config.(changed := 1);
      }
      while true
        invariant Valid()
        invariant AwaitReady(engine, result, misc) == AwaitReady(old(engine), old(result), old(misc))
        invariant config == ProtectConfig(old(config), write_protected_input_buffer)
        decreases |engine|
      {
        if result.hprintf == 1 && misc.len > |misc.data| {
          return Failure(HprintfPanic);
        }
        if result.section.state == 3 {
          break;
        }
        var ok := RunQemu();
        if !ok {
          return Failure(EngineFailed);
        }
      }
      config := config.(reload_mode := 1);
      config := config.(timeout_sec := 0);
      config := config.(timeout_usec := 500_000);
      config := config.(changed := 1);
      r := Success(());
    }
  }
}
