// Building QEMU-Nyx's command line from the VM parameters
// (fuzz_runner/src/nyx/params.rs).
module Params {
  import opened Types
  import opened Wrappers
  import opened Loader
  import Fmt

  datatype KernelVmParams = KernelVmParams(
    qemu_binary: string,
    kernel: string,
    sharedir: string,
    ramfs: string,
    ram_size: nat,
    bitmap_size: nat,
    debug: bool,
    dump_python_code_for_inputs: bool,
    write_protected_input_buffer: bool,
    cow_primary_size: Option<u64>,
    ipt_filters: seq<IptFilter>,
    input_buffer_size: nat)

  datatype SnapshotVmParams = SnapshotVmParams(
    qemu_binary: string,
    hda: string,
    sharedir: string,
    presnapshot: string,
    snapshot_path: SnapshotPath,
    ram_size: nat,
    bitmap_size: nat,
    debug: bool,
    dump_python_code_for_inputs: bool,
    write_protected_input_buffer: bool,
    cow_primary_size: Option<u64>,
    ipt_filters: seq<IptFilter>,
    input_buffer_size: nat)

  datatype QemuParams = QemuParams(
    cmd: seq<string>,
    qemu_aux_buffer_filename: string,
    control_filename: string,
    workdir: string,
    qemu_id: nat,
    bitmap_size: nat,
    payload_size: nat,
    dump_python_code_for_inputs: bool,
    write_protected_input_buffer: bool,
    cow_primary_size: Option<u64>)

  // ---------------------------------------------------------------- argument vectors

  /** The command-line options the builder emits. */
  datatype Flag =
    | Kernel | Initrd | Append | Drive | Display | Vnc | Serial | EnableKvm
    | Net | Keyboard | Memory | Chardev | Device | Machine | Cpu | FastVmReload

  /** How each option is spelled on the command line. */
  function FlagText(f: Flag): string {
    match f
    case Kernel => "-kernel"
    case Initrd => "-initrd"
    case Append => "-append"
    case Drive => "-drive"
    case Display => "-display"
    case Vnc => "-vnc"
    case Serial => "-serial"
    case EnableKvm => "-enable-kvm"
    case Net => "-net"
    case Keyboard => "-k"
    case Memory => "-m"
    case Chardev => "-chardev"
    case Device => "-device"
    case Machine => "-machine"
    case Cpu => "-cpu"
    case FastVmReload => "-fast_vm_reload"
  }

  /** Recognises an option by its spelling. */
  function FlagOf(s: string): (r: Option<Flag>)
    ensures r.Some? ==> FlagText(r.value) == s
  {
    if s == "-kernel" then Some(Kernel)
    else if s == "-initrd" then Some(Initrd)
    else if s == "-append" then Some(Append)
    else if s == "-drive" then Some(Drive)
    else if s == "-display" then Some(Display)
    else if s == "-vnc" then Some(Vnc)
    else if s == "-serial" then Some(Serial)
    else if s == "-enable-kvm" then Some(EnableKvm)
    else if s == "-net" then Some(Net)
    else if s == "-k" then Some(Keyboard)
    else if s == "-m" then Some(Memory)
    else if s == "-chardev" then Some(Chardev)
    else if s == "-device" then Some(Device)
    else if s == "-machine" then Some(Machine)
    else if s == "-cpu" then Some(Cpu)
    else if s == "-fast_vm_reload" then Some(FastVmReload)
    else None
  }

  /** No two options are spelled alike. */
  lemma FlagOfText(f: Flag)
    ensures FlagOf(FlagText(f)) == Some(f)
  {
  }

  /** One command-line item: a bare switch or an option followed by its value. */
  datatype Arg = Switch(flag: Flag) | Opt(flag: Flag, value: string)

  /** `-enable-kvm` is the only option emitted without a value. */
  predicate TakesValue(f: Flag) {
    f != EnableKvm
  }

  ghost predicate WellFormed(args: seq<Arg>) {
    forall i :: 0 <= i < |args| ==> (args[i].Opt? <==> TakesValue(args[i].flag))
  }

  /** The strings that go into `cmd` after the binary. */
  function Render(args: seq<Arg>): (ss: seq<string>)
    ensures |args| <= |ss| <= 2 * |args|
  {
    if args == [] then []
    else
      (match args[0] case Switch(f) => [FlagText(f)] case Opt(f, v) => [FlagText(f), v]) + Render(args[1..])
  }

  /** How QEMU reads `cmd` back: a switch stands alone, any other option takes
      the next string as its value; an unknown option or a missing value is an error. */
  function ParseArgs(ss: seq<string>): Option<seq<Arg>>
  {
    if ss == [] then Some([])
    else
      var f :- FlagOf(ss[0]);
      if !TakesValue(f) then
        var rest :- ParseArgs(ss[1..]);
        Some([Switch(f)] + rest)
      else if |ss| >= 2 then
        var rest :- ParseArgs(ss[2..]);
        Some([Opt(f, ss[1])] + rest)
      else None
  }

  /** The flattened argument vector is unambiguous. */
  lemma {:induction false} ParseRender(args: seq<Arg>)
    requires WellFormed(args)
    ensures ParseArgs(Render(args)) == Some(args)
  {
    if args != [] {
      assert WellFormed(args[1..]) by {
        forall i | 0 <= i < |args[1..]| ensures args[1..][i] == args[i + 1] { }
      }
      ParseRender(args[1..]);
      var ss := Render(args);
      assert [args[0]] + args[1..] == args;
      FlagOfText(args[0].flag);
      match args[0]
      case Switch(f) =>
        assert ss[1..] == Render(args[1..]);
      case Opt(f, v) =>
        assert ss[2..] == Render(args[1..]);
    }
  }

  lemma {:induction false} RenderSnoc(args: seq<Arg>, a: Arg)
    ensures Render(args + [a]) == Render(args) + Render([a])
  {
    if args == [] {
      assert args + [a] == [a];
    } else {
      assert (args + [a])[1..] == args[1..] + [a];
      RenderSnoc(args[1..], a);
    }
  }

  /** The flag of each item, in order. */
  function FlagsOf(args: seq<Arg>): (fl: seq<Flag>)
    ensures |fl| == |args|
  {
    seq(|args|, i requires 0 <= i < |args| => args[i].flag)
  }

  /** QEMU sees option `f` exactly once, with value `value`. */
  ghost predicate Gives(args: seq<Arg>, f: Flag, value: string) {
    Opt(f, value) in args && forall j :: 0 <= j < |args| && FlagsOf(args)[j] == f ==> args[j] == Opt(f, value)
  }

  /** QEMU does not see option `f` at all. */
  ghost predicate Absent(args: seq<Arg>, f: Flag) {
    f !in FlagsOf(args)
  }

  /** The option at index `i` is the only one with its flag. */
  lemma GivesAt(args: seq<Arg>, i: nat, f: Flag, v: string)
    requires i < |args| && args[i] == Opt(f, v)
    requires forall j :: 0 <= j < |args| && j != i ==> FlagsOf(args)[j] != f
    ensures Gives(args, f, v)
  {
  }

  // ---------------------------------------------------------------- the device option

  function AuxBufferFilename(workdir: string, qemu_id: nat): string {
    workdir + "/aux_buffer_" + Fmt.Decimal(qemu_id)
  }

  function ControlFilename(workdir: string, qemu_id: nat): string {
    workdir + "/interface_" + Fmt.Decimal(qemu_id)
  }

  /** `nyx,chardev=…` up to and including the share directory. */
  function DeviceBase(bitmap_size: nat, input_buffer_size: nat, qemu_id: nat, workdir: string, sharedir: string): string {
    "nyx,chardev=nyx_interface"
    + (",bitmap_size=" + Fmt.Decimal(bitmap_size))
    + (",input_buffer_size=" + Fmt.Decimal(input_buffer_size))
    + (",worker_id=" + Fmt.Decimal(qemu_id))
    + (",workdir=" + workdir)
    + (",sharedir=" + sharedir)
  }

  /** The filters the builder emits, in order: those with both bounds nonzero. */
  function EnabledFilters(fs: seq<IptFilter>): (r: seq<IptFilter>)
    ensures |r| <= |fs|
  {
    if fs == [] then []
    else if Enabled(fs[0]) then [fs[0]] + EnabledFilters(fs[1..])
    else EnabledFilters(fs[1..])
  }

  /** Exactly the enabled filters are emitted. */
  lemma {:induction false} EnabledFiltersMembers(fs: seq<IptFilter>)
    ensures forall f :: f in EnabledFilters(fs) <==> f in fs && Enabled(f)
  {
    if fs != [] {
      EnabledFiltersMembers(fs[1..]);
      assert forall f :: f in fs <==> f == fs[0] || f in fs[1..];
    }
  }

  lemma {:induction false} EnabledSnoc(fs: seq<IptFilter>, f: IptFilter)
    ensures EnabledFilters(fs + [f]) == EnabledFilters(fs) + (if Enabled(f) then [f] else [])
  {
    if fs == [] {
      assert fs + [f] == [f];
      assert EnabledFilters([f])
        == (if Enabled(f) then [f] else []) + EnabledFilters([]);
    } else {
      assert (fs + [f])[1..] == fs[1..] + [f];
      EnabledSnoc(fs[1..], f);
    }
  }

  /** `,ip<n>_a=<a>,ip<n>_b=<b>`, the bounds in hexadecimal or decimal. */
  function IptEntry(hex: bool): (nat, IptFilter) -> string {
    (n: nat, f: IptFilter) =>
      var bound := (x: nat) => if hex then Fmt.Hex(x) else Fmt.Decimal(x);
      ",ip" + Fmt.Decimal(n) + "_a=" + bound(f.a) + ",ip" + Fmt.Decimal(n) + "_b=" + bound(f.b)
  }

  /** The entries for `fs`, numbered consecutively from `n`. */
  function Numbered(fs: seq<IptFilter>, n: nat, entry: (nat, IptFilter) -> string): string {
    if fs == [] then "" else entry(n, fs[0]) + Numbered(fs[1..], n + 1, entry)
  }

  lemma {:induction false} NumberedSnoc(fs: seq<IptFilter>, f: IptFilter, n: nat, entry: (nat, IptFilter) -> string)
    ensures Numbered(fs + [f], n, entry) == Numbered(fs, n, entry) + entry(n + |fs|, f)
  {
    if fs == [] {
      assert fs + [f] == [f];
      assert Numbered([f], n, entry) == entry(n, f) + Numbered([], n + 1, entry);
    } else {
      assert (fs + [f])[1..] == fs[1..] + [f];
      NumberedSnoc(fs[1..], f, n + 1, entry);
    }
  }

  /** Filters that are all disabled contribute no entry. */
  lemma {:induction false} NoneEnabled(fs: seq<IptFilter>)
    requires forall f :: f in fs ==> !Enabled(f)
    ensures EnabledFilters(fs) == []
  {
    if fs != [] {
      assert fs[0] in fs;
      assert forall f :: f in fs[1..] ==> f in fs;
      NoneEnabled(fs[1..]);
    }
  }

  /** The IPT part of the device option. */
  function IptOptions(fs: seq<IptFilter>, hex: bool): string {
    Numbered(EnabledFilters(fs), 0, IptEntry(hex))
  }

  /** Filters left at their default are never emitted. */
  lemma DefaultFiltersEmitNothing(hex: bool)
    ensures IptOptions(seq(4, _ => DefaultIptFilter()), hex) == ""
  {
    NoneEnabled(seq(4, _ => DefaultIptFilter()));
  }

  /** `,cow_primary_size=<n>` iff the size is given. */
  function CowSuffix(cow: Option<u64>): (s: string)
    ensures s == "" <==> cow.None?
  {
    if cow.Some? then ",cow_primary_size=" + Fmt.Decimal(cow.value) else ""
  }

  /** The whole `-device` value. */
  function DeviceOptions(bitmap_size: nat, input_buffer_size: nat, qemu_id: nat, workdir: string, sharedir: string,
                         fs: seq<IptFilter>, hex: bool, cow: Option<u64>): string {
    DeviceBase(bitmap_size, input_buffer_size, qemu_id, workdir, sharedir) + IptOptions(fs, hex) + CowSuffix(cow)
  }

  /** Appends the enabled filters, counting them with `i` as the source does;
      `entry` formats one filter (decimal in snapshot mode, hex in kernel mode). */
  method AppendIptFilters(nyx_ops: string, fs: seq<IptFilter>, entry: (nat, IptFilter) -> string) returns (ops: string)
    ensures ops == nyx_ops + Numbered(EnabledFilters(fs), 0, entry)
  {
    ops := nyx_ops;
    var i := 0;
    for k := 0 to |fs|
      invariant i == |EnabledFilters(fs[..k])|
      invariant ops == nyx_ops + Numbered(EnabledFilters(fs[..k]), 0, entry)
    {
      var filter := fs[k];
      assert fs[..k + 1] == fs[..k] + [filter];
      EnabledSnoc(fs[..k], filter);
      if filter.a != 0 && filter.b != 0 {
        NumberedSnoc(EnabledFilters(fs[..k]), filter, 0, entry);
        assert EnabledFilters(fs[..k + 1]) == EnabledFilters(fs[..k]) + [filter];
        assert Numbered(EnabledFilters(fs[..k + 1]), 0, entry) == Numbered(EnabledFilters(fs[..k]), 0, entry) + entry(i, filter);
        ops := ops + entry(i, filter);
        i := i + 1;
      } else {
        assert EnabledFilters(fs[..k + 1]) == EnabledFilters(fs[..k]);
      }
    }
    assert fs[..|fs|] == fs;
  }

  // ---------------------------------------------------------------- snapshot mode

  /** The `-fast_vm_reload` value in snapshot mode; the default path panics. */
  function SnapshotReload(path: SnapshotPath, presnapshot: string, create_snapshot_file: bool): (r: Option<string>)
    ensures r.None? <==> path.DefaultPath?
  {
    match path
    case Create(p) =>
      if create_snapshot_file then Some("path=" + p + ",load=off,pre_path=" + presnapshot)
      else Some("path=" + p + ",load=off,pre_path=" + presnapshot + ",skip_serialization=on")
    case Reuse(p) => Some("path=" + p + ",load=on")
    case DefaultPath => None
  }

  /** The order of the snapshot-mode options, their values left open, one
      item appended after another as the builder pushes them. */
  function SnapshotLayout(debug: bool, drive: string, screen: string, serial: string, memory: string, chardev: string, device: string, reload: string): seq<Arg> {
    []
    + [Opt(Drive, drive)]
    + [if debug then Opt(Vnc, screen) else Opt(Display, screen)]
    + [Opt(Serial, serial)]
    + [Switch(EnableKvm)]
    + [Opt(Net, "none")]
    + [Opt(Keyboard, "de")]
    + [Opt(Memory, memory)]
    + [Opt(Chardev, chardev)]
    + [Opt(Device, device)]
    + [Opt(Machine, "kAFL64-v1")]
    + [Opt(Cpu, "kAFL64-Hypervisor-v1")]
    + [Opt(FastVmReload, reload)]
  }

  lemma SnapshotFlags(debug: bool, drive: string, screen: string, serial: string, memory: string, chardev: string, device: string, reload: string)
    ensures FlagsOf(SnapshotLayout(debug, drive, screen, serial, memory, chardev, device, reload))
      == [Drive, if debug then Vnc else Display, Serial, EnableKvm, Net, Keyboard, Memory, Chardev, Device, Machine, Cpu, FastVmReload]
  {
  }

  lemma SnapshotLayoutWellFormed(debug: bool, drive: string, screen: string, serial: string, memory: string, chardev: string, device: string, reload: string)
    ensures WellFormed(SnapshotLayout(debug, drive, screen, serial, memory, chardev, device, reload))
  {
  }

  lemma SnapshotLayoutDrive(debug: bool, drive: string, screen: string, serial: string, memory: string, chardev: string, device: string, reload: string)
    ensures var args := SnapshotLayout(debug, drive, screen, serial, memory, chardev, device, reload); Gives(args, Drive, drive)
  {
    SnapshotFlags(debug, drive, screen, serial, memory, chardev, device, reload);
    var args := SnapshotLayout(debug, drive, screen, serial, memory, chardev, device, reload);
    GivesAt(args, 0, Drive, drive);
  }

  lemma SnapshotLayoutScreen(debug: bool, drive: string, screen: string, serial: string, memory: string, chardev: string, device: string, reload: string)
    ensures var args := SnapshotLayout(debug, drive, screen, serial, memory, chardev, device, reload); Gives(args, if debug then Vnc else Display, screen) && Absent(args, if debug then Display else Vnc)
  {
    SnapshotFlags(debug, drive, screen, serial, memory, chardev, device, reload);
    var args := SnapshotLayout(debug, drive, screen, serial, memory, chardev, device, reload);
    if debug {
      GivesAt(args, 1, Vnc, screen);
    } else {
      GivesAt(args, 1, Display, screen);
    }
  }

  lemma SnapshotLayoutSerial(debug: bool, drive: string, screen: string, serial: string, memory: string, chardev: string, device: string, reload: string)
    ensures var args := SnapshotLayout(debug, drive, screen, serial, memory, chardev, device, reload); Gives(args, Serial, serial)
  {
    SnapshotFlags(debug, drive, screen, serial, memory, chardev, device, reload);
    var args := SnapshotLayout(debug, drive, screen, serial, memory, chardev, device, reload);
    GivesAt(args, 2, Serial, serial);
  }

  lemma SnapshotLayoutMemory(debug: bool, drive: string, screen: string, serial: string, memory: string, chardev: string, device: string, reload: string)
    ensures var args := SnapshotLayout(debug, drive, screen, serial, memory, chardev, device, reload); Gives(args, Memory, memory)
  {
    SnapshotFlags(debug, drive, screen, serial, memory, chardev, device, reload);
    var args := SnapshotLayout(debug, drive, screen, serial, memory, chardev, device, reload);
    GivesAt(args, 6, Memory, memory);
  }

  lemma SnapshotLayoutChardev(debug: bool, drive: string, screen: string, serial: string, memory: string, chardev: string, device: string, reload: string)
    ensures var args := SnapshotLayout(debug, drive, screen, serial, memory, chardev, device, reload); Gives(args, Chardev, chardev)
  {
    SnapshotFlags(debug, drive, screen, serial, memory, chardev, device, reload);
    var args := SnapshotLayout(debug, drive, screen, serial, memory, chardev, device, reload);
    GivesAt(args, 7, Chardev, chardev);
  }

  lemma SnapshotLayoutDevice(debug: bool, drive: string, screen: string, serial: string, memory: string, chardev: string, device: string, reload: string)
    ensures var args := SnapshotLayout(debug, drive, screen, serial, memory, chardev, device, reload); Gives(args, Device, device)
  {
    SnapshotFlags(debug, drive, screen, serial, memory, chardev, device, reload);
    var args := SnapshotLayout(debug, drive, screen, serial, memory, chardev, device, reload);
    GivesAt(args, 8, Device, device);
  }

  lemma SnapshotLayoutCpu(debug: bool, drive: string, screen: string, serial: string, memory: string, chardev: string, device: string, reload: string)
    ensures var args := SnapshotLayout(debug, drive, screen, serial, memory, chardev, device, reload); Gives(args, Cpu, "kAFL64-Hypervisor-v1")
  {
    SnapshotFlags(debug, drive, screen, serial, memory, chardev, device, reload);
    var args := SnapshotLayout(debug, drive, screen, serial, memory, chardev, device, reload);
    GivesAt(args, 10, Cpu, "kAFL64-Hypervisor-v1");
  }

  lemma SnapshotLayoutReload(debug: bool, drive: string, screen: string, serial: string, memory: string, chardev: string, device: string, reload: string)
    ensures var args := SnapshotLayout(debug, drive, screen, serial, memory, chardev, device, reload); Gives(args, FastVmReload, reload)
  {
    SnapshotFlags(debug, drive, screen, serial, memory, chardev, device, reload);
    var args := SnapshotLayout(debug, drive, screen, serial, memory, chardev, device, reload);
    GivesAt(args, 11, FastVmReload, reload);
  }

  lemma SnapshotLayoutNoKernel(debug: bool, drive: string, screen: string, serial: string, memory: string, chardev: string, device: string, reload: string)
    ensures var args := SnapshotLayout(debug, drive, screen, serial, memory, chardev, device, reload); Absent(args, Kernel) && Absent(args, Initrd) && Absent(args, Append)
  {
    SnapshotFlags(debug, drive, screen, serial, memory, chardev, device, reload);
  }

  /** The snapshot-mode options. */
  function SnapshotArgs(workdir: string, qemu_id: nat, cpu: nat, p: SnapshotVmParams, reload: string): seq<Arg> {
    SnapshotLayout(
      p.debug,
      "file=" + p.hda + ",format=raw,index=0,media=disk",
      if p.debug then ":" + Fmt.Decimal(qemu_id + cpu) else "none",
      if p.debug then "mon:stdio" else "stdio",
      Fmt.Decimal(p.ram_size),
      "socket,server,path=" + ControlFilename(workdir, qemu_id) + ",id=nyx_interface",
      DeviceOptions(p.bitmap_size, p.input_buffer_size, qemu_id, workdir, p.sharedir, p.ipt_filters, false, p.cow_primary_size),
      reload)
  }

  /** What QEMU reads from a snapshot-mode command line: the disk, a VNC
      display and the monitor when debugging (no display and plain stdio
      otherwise), the control socket, the device options with decimal IPT
      bounds, and the snapshot to load or create. */
  lemma SnapshotCommandLine(workdir: string, qemu_id: nat, cpu: nat, p: SnapshotVmParams, reload: string)
    ensures var args := SnapshotArgs(workdir, qemu_id, cpu, p, reload);
      WellFormed(args)
      && Gives(args, Drive, "file=" + p.hda + ",format=raw,index=0,media=disk")
      && (p.debug ==> Gives(args, Vnc, ":" + Fmt.Decimal(qemu_id + cpu)) && Absent(args, Display))
      && (!p.debug ==> Gives(args, Display, "none") && Absent(args, Vnc))
      && Gives(args, Serial, if p.debug then "mon:stdio" else "stdio")
      && Gives(args, Memory, Fmt.Decimal(p.ram_size))
      && Gives(args, Chardev, "socket,server,path=" + ControlFilename(workdir, qemu_id) + ",id=nyx_interface")
      && Gives(args, Device, DeviceOptions(p.bitmap_size, p.input_buffer_size, qemu_id, workdir, p.sharedir,
                                           p.ipt_filters, false, p.cow_primary_size))
      && Gives(args, Cpu, "kAFL64-Hypervisor-v1")
      && Gives(args, FastVmReload, reload)
      && Absent(args, Kernel) && Absent(args, Initrd) && Absent(args, Append)
  {
    var drive := "file=" + p.hda + ",format=raw,index=0,media=disk";
    var screen := if p.debug then ":" + Fmt.Decimal(qemu_id + cpu) else "none";
    var serial := if p.debug then "mon:stdio" else "stdio";
    var memory := Fmt.Decimal(p.ram_size);
    var chardev := "socket,server,path=" + ControlFilename(workdir, qemu_id) + ",id=nyx_interface";
    var device := DeviceOptions(p.bitmap_size, p.input_buffer_size, qemu_id, workdir, p.sharedir, p.ipt_filters, false, p.cow_primary_size);
    var args := SnapshotLayout(p.debug, drive, screen, serial, memory, chardev, device, reload);
    assert SnapshotArgs(workdir, qemu_id, cpu, p, reload) == args;
    SnapshotLayoutWellFormed(p.debug, drive, screen, serial, memory, chardev, device, reload);
    SnapshotLayoutDrive(p.debug, drive, screen, serial, memory, chardev, device, reload);
    SnapshotLayoutScreen(p.debug, drive, screen, serial, memory, chardev, device, reload);
    SnapshotLayoutSerial(p.debug, drive, screen, serial, memory, chardev, device, reload);
    SnapshotLayoutMemory(p.debug, drive, screen, serial, memory, chardev, device, reload);
    SnapshotLayoutChardev(p.debug, drive, screen, serial, memory, chardev, device, reload);
    SnapshotLayoutDevice(p.debug, drive, screen, serial, memory, chardev, device, reload);
    SnapshotLayoutCpu(p.debug, drive, screen, serial, memory, chardev, device, reload);
    SnapshotLayoutReload(p.debug, drive, screen, serial, memory, chardev, device, reload);
    SnapshotLayoutNoKernel(p.debug, drive, screen, serial, memory, chardev, device, reload);
  }

  // ---------------------------------------------------------------- kernel mode

  lemma FlagsOfConcat(a: seq<Arg>, b: seq<Arg>)
    ensures FlagsOf(a + b) == FlagsOf(a) + FlagsOf(b)
  {
  }

  /** An option given by one part and absent from the other is given by the whole. */
  lemma GivesConcat(a: seq<Arg>, b: seq<Arg>, f: Flag, v: string)
    ensures Gives(a, f, v) && Absent(b, f) ==> Gives(a + b, f, v)
    ensures Absent(a, f) && Gives(b, f, v) ==> Gives(a + b, f, v)
    ensures Absent(a + b, f) <==> Absent(a, f) && Absent(b, f)
  {
    FlagsOfConcat(a, b);
  }

  /** The same for a vector made of four parts. */
  lemma GivesConcat4(h: seq<Arg>, d: seq<Arg>, b: seq<Arg>, r: seq<Arg>, f: Flag, v: string)
    ensures Gives(h, f, v) && Absent(d, f) && Absent(b, f) && Absent(r, f) ==> Gives(h + d + b + r, f, v)
    ensures Absent(h, f) && Gives(d, f, v) && Absent(b, f) && Absent(r, f) ==> Gives(h + d + b + r, f, v)
    ensures Absent(h, f) && Absent(d, f) && Gives(b, f, v) && Absent(r, f) ==> Gives(h + d + b + r, f, v)
    ensures Absent(h, f) && Absent(d, f) && Absent(b, f) && Gives(r, f, v) ==> Gives(h + d + b + r, f, v)
    ensures Absent(h + d + b + r, f) <==> Absent(h, f) && Absent(d, f) && Absent(b, f) && Absent(r, f)
  {
    GivesConcat(h, d, f, v);
    GivesConcat(h + d, b, f, v);
    GivesConcat(h + d + b, r, f, v);
  }

  lemma WellFormedConcat(a: seq<Arg>, b: seq<Arg>)
    requires WellFormed(a) && WellFormed(b)
    ensures WellFormed(a + b)
  {
  }

  const KERNEL_APPEND := "nokaslr oops=panic nopti ignore_rlimit_data"

  /** The kernel, the initial ram disk and the kernel command line. */
  function KernelHead(kernel: string, ramfs: string): seq<Arg> {
    [Opt(Kernel, kernel), Opt(Initrd, ramfs), Opt(Append, KERNEL_APPEND)]
  }

  /** Without debugging there is no display; with it, QEMU's default display. */
  function KernelDisplay(debug: bool): seq<Arg> {
    if debug then [] else [Opt(Display, "none")]
  }

  function KernelBody(serial: string, memory: string, chardev: string, device: string): seq<Arg> {
    [Opt(Serial, serial),
     Switch(EnableKvm),
     Opt(Net, "none"),
     Opt(Keyboard, "de"),
     Opt(Memory, memory),
     Opt(Chardev, chardev),
     Opt(Device, device),
     Opt(Machine, "kAFL64-v1"),
     Opt(Cpu, "kAFL64-Hypervisor-v1,+vmx")]
  }

  function KernelReloadPart(reload: Option<string>): seq<Arg> {
    if reload.Some? then [Opt(FastVmReload, reload.value)] else []
  }

  /** The order of the kernel-mode options, their values left open, one
      item appended after another as the builder pushes them. */
  function KernelLayout(debug: bool, kernel: string, ramfs: string, serial: string, memory: string, chardev: string, device: string, reload: Option<string>): seq<Arg> {
    []
    + [Opt(Kernel, kernel)]
    + [Opt(Initrd, ramfs)]
    + [Opt(Append, KERNEL_APPEND)]
    + (if debug then [] else [Opt(Display, "none")])
    + [Opt(Serial, serial)]
    + [Switch(EnableKvm)]
    + [Opt(Net, "none")]
    + [Opt(Keyboard, "de")]
    + [Opt(Memory, memory)]
    + [Opt(Chardev, chardev)]
    + [Opt(Device, device)]
    + [Opt(Machine, "kAFL64-v1")]
    + [Opt(Cpu, "kAFL64-Hypervisor-v1,+vmx")]
    + (if reload.Some? then [Opt(FastVmReload, reload.value)] else [])
  }

  /** The kernel-mode layout is its four parts in order. */
  lemma KernelLayoutParts(debug: bool, kernel: string, ramfs: string, serial: string, memory: string, chardev: string, device: string, reload: Option<string>)
    ensures KernelLayout(debug, kernel, ramfs, serial, memory, chardev, device, reload)
      == KernelHead(kernel, ramfs) + KernelDisplay(debug) + KernelBody(serial, memory, chardev, device) + KernelReloadPart(reload)
  {
  }

  lemma KernelBodyWellFormed(serial: string, memory: string, chardev: string, device: string)
    ensures WellFormed(KernelBody(serial, memory, chardev, device))
  {
  }

  lemma KernelPartFlags(debug: bool, kernel: string, ramfs: string, serial: string, memory: string, chardev: string, device: string, reload: Option<string>)
    ensures FlagsOf(KernelHead(kernel, ramfs)) == [Kernel, Initrd, Append]
    ensures FlagsOf(KernelDisplay(debug)) == if debug then [] else [Display]
    ensures FlagsOf(KernelBody(serial, memory, chardev, device))
      == [Serial, EnableKvm, Net, Keyboard, Memory, Chardev, Device, Machine, Cpu]
    ensures FlagsOf(KernelReloadPart(reload)) == if reload.Some? then [FastVmReload] else []
  {
  }

  lemma KernelLayoutSerial(debug: bool, kernel: string, ramfs: string, serial: string, memory: string, chardev: string, device: string, reload: Option<string>)
    ensures Gives(KernelLayout(debug, kernel, ramfs, serial, memory, chardev, device, reload), Serial, serial)
  {
    KernelLayoutParts(debug, kernel, ramfs, serial, memory, chardev, device, reload);
    var b := KernelBody(serial, memory, chardev, device);
    KernelPartFlags(debug, kernel, ramfs, serial, memory, chardev, device, reload);
    GivesAt(b, 0, Serial, serial);
    GivesConcat4(KernelHead(kernel, ramfs), KernelDisplay(debug), b, KernelReloadPart(reload), Serial, serial);
  }

  lemma KernelLayoutMemory(debug: bool, kernel: string, ramfs: string, serial: string, memory: string, chardev: string, device: string, reload: Option<string>)
    ensures Gives(KernelLayout(debug, kernel, ramfs, serial, memory, chardev, device, reload), Memory, memory)
  {
    KernelLayoutParts(debug, kernel, ramfs, serial, memory, chardev, device, reload);
    var b := KernelBody(serial, memory, chardev, device);
    KernelPartFlags(debug, kernel, ramfs, serial, memory, chardev, device, reload);
    GivesAt(b, 4, Memory, memory);
    GivesConcat4(KernelHead(kernel, ramfs), KernelDisplay(debug), b, KernelReloadPart(reload), Memory, memory);
  }

  lemma KernelLayoutChardev(debug: bool, kernel: string, ramfs: string, serial: string, memory: string, chardev: string, device: string, reload: Option<string>)
    ensures Gives(KernelLayout(debug, kernel, ramfs, serial, memory, chardev, device, reload), Chardev, chardev)
  {
    KernelLayoutParts(debug, kernel, ramfs, serial, memory, chardev, device, reload);
    var b := KernelBody(serial, memory, chardev, device);
    KernelPartFlags(debug, kernel, ramfs, serial, memory, chardev, device, reload);
    GivesAt(b, 5, Chardev, chardev);
    GivesConcat4(KernelHead(kernel, ramfs), KernelDisplay(debug), b, KernelReloadPart(reload), Chardev, chardev);
  }

  lemma KernelLayoutDevice(debug: bool, kernel: string, ramfs: string, serial: string, memory: string, chardev: string, device: string, reload: Option<string>)
    ensures Gives(KernelLayout(debug, kernel, ramfs, serial, memory, chardev, device, reload), Device, device)
  {
    KernelLayoutParts(debug, kernel, ramfs, serial, memory, chardev, device, reload);
    var b := KernelBody(serial, memory, chardev, device);
    KernelPartFlags(debug, kernel, ramfs, serial, memory, chardev, device, reload);
    GivesAt(b, 6, Device, device);
    GivesConcat4(KernelHead(kernel, ramfs), KernelDisplay(debug), b, KernelReloadPart(reload), Device, device);
  }

  lemma KernelLayoutCpu(debug: bool, kernel: string, ramfs: string, serial: string, memory: string, chardev: string, device: string, reload: Option<string>)
    ensures Gives(KernelLayout(debug, kernel, ramfs, serial, memory, chardev, device, reload), Cpu, "kAFL64-Hypervisor-v1,+vmx")
  {
    KernelLayoutParts(debug, kernel, ramfs, serial, memory, chardev, device, reload);
    var b := KernelBody(serial, memory, chardev, device);
    KernelPartFlags(debug, kernel, ramfs, serial, memory, chardev, device, reload);
    GivesAt(b, 8, Cpu, "kAFL64-Hypervisor-v1,+vmx");
    GivesConcat4(KernelHead(kernel, ramfs), KernelDisplay(debug), b, KernelReloadPart(reload), Cpu, "kAFL64-Hypervisor-v1,+vmx");
  }

  lemma KernelLayoutWellFormed(debug: bool, kernel: string, ramfs: string, serial: string, memory: string, chardev: string, device: string, reload: Option<string>)
    ensures WellFormed(KernelLayout(debug, kernel, ramfs, serial, memory, chardev, device, reload))
  {
    KernelLayoutParts(debug, kernel, ramfs, serial, memory, chardev, device, reload);
    var h := KernelHead(kernel, ramfs);
    var d := KernelDisplay(debug);
    var b := KernelBody(serial, memory, chardev, device);
    var r := KernelReloadPart(reload);
    KernelBodyWellFormed(serial, memory, chardev, device);
    WellFormedConcat(h, d);
    WellFormedConcat(h + d, b);
    WellFormedConcat(h + d + b, r);
  }

  lemma KernelLayoutKernel(debug: bool, kernel: string, ramfs: string, serial: string, memory: string, chardev: string, device: string, reload: Option<string>)
    ensures Gives(KernelLayout(debug, kernel, ramfs, serial, memory, chardev, device, reload), Kernel, kernel)
  {
    KernelLayoutParts(debug, kernel, ramfs, serial, memory, chardev, device, reload);
    var h := KernelHead(kernel, ramfs);
    KernelPartFlags(debug, kernel, ramfs, serial, memory, chardev, device, reload);
    GivesAt(h, 0, Kernel, kernel);
    GivesConcat4(h, KernelDisplay(debug), KernelBody(serial, memory, chardev, device), KernelReloadPart(reload), Kernel, kernel);
  }

  lemma KernelLayoutInitrd(debug: bool, kernel: string, ramfs: string, serial: string, memory: string, chardev: string, device: string, reload: Option<string>)
    ensures Gives(KernelLayout(debug, kernel, ramfs, serial, memory, chardev, device, reload), Initrd, ramfs)
  {
    KernelLayoutParts(debug, kernel, ramfs, serial, memory, chardev, device, reload);
    var h := KernelHead(kernel, ramfs);
    KernelPartFlags(debug, kernel, ramfs, serial, memory, chardev, device, reload);
    GivesAt(h, 1, Initrd, ramfs);
    GivesConcat4(h, KernelDisplay(debug), KernelBody(serial, memory, chardev, device), KernelReloadPart(reload), Initrd, ramfs);
  }

  lemma KernelLayoutAppend(debug: bool, kernel: string, ramfs: string, serial: string, memory: string, chardev: string, device: string, reload: Option<string>)
    ensures Gives(KernelLayout(debug, kernel, ramfs, serial, memory, chardev, device, reload), Append, KERNEL_APPEND)
  {
    KernelLayoutParts(debug, kernel, ramfs, serial, memory, chardev, device, reload);
    var h := KernelHead(kernel, ramfs);
    KernelPartFlags(debug, kernel, ramfs, serial, memory, chardev, device, reload);
    GivesAt(h, 2, Append, KERNEL_APPEND);
    GivesConcat4(h, KernelDisplay(debug), KernelBody(serial, memory, chardev, device), KernelReloadPart(reload), Append, KERNEL_APPEND);
  }

  lemma KernelLayoutDisplay(debug: bool, kernel: string, ramfs: string, serial: string, memory: string, chardev: string, device: string, reload: Option<string>)
    ensures var args := KernelLayout(debug, kernel, ramfs, serial, memory, chardev, device, reload);
      (debug ==> Absent(args, Display)) && (!debug ==> Gives(args, Display, "none")) && Absent(args, Vnc)
  {
    KernelLayoutParts(debug, kernel, ramfs, serial, memory, chardev, device, reload);
    var h := KernelHead(kernel, ramfs);
    var d := KernelDisplay(debug);
    var b := KernelBody(serial, memory, chardev, device);
    var r := KernelReloadPart(reload);
    KernelPartFlags(debug, kernel, ramfs, serial, memory, chardev, device, reload);
    GivesConcat4(h, d, b, r, Vnc, "");
    if !debug {
      GivesAt(d, 0, Display, "none");
    }
    GivesConcat4(h, d, b, r, Display, "none");
  }

  lemma KernelLayoutReload(debug: bool, kernel: string, ramfs: string, serial: string, memory: string, chardev: string, device: string, reload: Option<string>)
    ensures var args := KernelLayout(debug, kernel, ramfs, serial, memory, chardev, device, reload);
      (reload.Some? ==> Gives(args, FastVmReload, reload.value)) && (reload.None? ==> Absent(args, FastVmReload))
  {
    KernelLayoutParts(debug, kernel, ramfs, serial, memory, chardev, device, reload);
    var r := KernelReloadPart(reload);
    var v := if reload.Some? then reload.value else "";
    KernelPartFlags(debug, kernel, ramfs, serial, memory, chardev, device, reload);
    if reload.Some? {
      GivesAt(r, 0, FastVmReload, v);
    }
    GivesConcat4(KernelHead(kernel, ramfs), KernelDisplay(debug), KernelBody(serial, memory, chardev, device), r, FastVmReload, v);
  }

  /** The `-fast_vm_reload` value in kernel mode: the first worker creates the
      snapshot, the others load it; none unless a snapshot file is wanted. */
  function KernelReload(workdir: string, qemu_id: nat, create_snapshot_file: bool): (r: Option<string>)
    ensures r.Some? <==> create_snapshot_file
  {
    if !create_snapshot_file then None
    else if qemu_id == 0 then Some("path=" + workdir + "/snapshot/,load=off")
    else Some("path=" + workdir + "/snapshot/,load=on")
  }

  /** The kernel-mode options. */
  function KernelArgs(workdir: string, qemu_id: nat, p: KernelVmParams, create_snapshot_file: bool): seq<Arg> {
    KernelLayout(
      p.debug,
      p.kernel,
      p.ramfs,
      if p.debug then "mon:stdio" else "none",
      Fmt.Decimal(p.ram_size),
      "socket,server,path=" + ControlFilename(workdir, qemu_id) + ",id=nyx_interface",
      DeviceOptions(p.bitmap_size, p.input_buffer_size, qemu_id, workdir, p.sharedir, p.ipt_filters, true, p.cow_primary_size),
      KernelReload(workdir, qemu_id, create_snapshot_file))
  }

  /** What QEMU reads from a kernel-mode command line: the kernel, ram disk
      and kernel command line, no display and no serial port unless
      debugging, the control socket, the device options with hexadecimal IPT
      bounds, a CPU with VMX, and a snapshot created by worker 0 and loaded
      by the others when one is wanted. */
  lemma KernelCommandLine(workdir: string, qemu_id: nat, p: KernelVmParams, create_snapshot_file: bool)
    ensures var args := KernelArgs(workdir, qemu_id, p, create_snapshot_file);
      WellFormed(args)
      && Gives(args, Kernel, p.kernel) && Gives(args, Initrd, p.ramfs) && Gives(args, Append, KERNEL_APPEND)
      && (p.debug ==> Absent(args, Display)) && (!p.debug ==> Gives(args, Display, "none")) && Absent(args, Vnc)
      && Gives(args, Serial, if p.debug then "mon:stdio" else "none")
      && Gives(args, Memory, Fmt.Decimal(p.ram_size))
      && Gives(args, Chardev, "socket,server,path=" + ControlFilename(workdir, qemu_id) + ",id=nyx_interface")
      && Gives(args, Device, DeviceOptions(p.bitmap_size, p.input_buffer_size, qemu_id, workdir, p.sharedir,
                                           p.ipt_filters, true, p.cow_primary_size))
      && Gives(args, Cpu, "kAFL64-Hypervisor-v1,+vmx")
      && (create_snapshot_file && qemu_id == 0 ==> Gives(args, FastVmReload, "path=" + workdir + "/snapshot/,load=off"))
      && (create_snapshot_file && qemu_id != 0 ==> Gives(args, FastVmReload, "path=" + workdir + "/snapshot/,load=on"))
      && (!create_snapshot_file ==> Absent(args, FastVmReload))
  {
    var serial := if p.debug then "mon:stdio" else "none";
    var memory := Fmt.Decimal(p.ram_size);
    var chardev := "socket,server,path=" + ControlFilename(workdir, qemu_id) + ",id=nyx_interface";
    var device := DeviceOptions(p.bitmap_size, p.input_buffer_size, qemu_id, workdir, p.sharedir, p.ipt_filters, true, p.cow_primary_size);
    var reload := KernelReload(workdir, qemu_id, create_snapshot_file);
    var args := KernelLayout(p.debug, p.kernel, p.ramfs, serial, memory, chardev, device, reload);
    assert KernelArgs(workdir, qemu_id, p, create_snapshot_file) == args;
    KernelLayoutWellFormed(p.debug, p.kernel, p.ramfs, serial, memory, chardev, device, reload);
    KernelLayoutKernel(p.debug, p.kernel, p.ramfs, serial, memory, chardev, device, reload);
    KernelLayoutInitrd(p.debug, p.kernel, p.ramfs, serial, memory, chardev, device, reload);
    KernelLayoutAppend(p.debug, p.kernel, p.ramfs, serial, memory, chardev, device, reload);
    KernelLayoutDisplay(p.debug, p.kernel, p.ramfs, serial, memory, chardev, device, reload);
    KernelLayoutSerial(p.debug, p.kernel, p.ramfs, serial, memory, chardev, device, reload);
    KernelLayoutMemory(p.debug, p.kernel, p.ramfs, serial, memory, chardev, device, reload);
    KernelLayoutChardev(p.debug, p.kernel, p.ramfs, serial, memory, chardev, device, reload);
    KernelLayoutDevice(p.debug, p.kernel, p.ramfs, serial, memory, chardev, device, reload);
    KernelLayoutCpu(p.debug, p.kernel, p.ramfs, serial, memory, chardev, device, reload);
    KernelLayoutReload(p.debug, p.kernel, p.ramfs, serial, memory, chardev, device, reload);
  }

  // ---------------------------------------------------------------- building `cmd`

  /** The `-device` value as both constructors build it; `hex` selects
      hexadecimal IPT bounds (kernel mode) over decimal ones (snapshot mode). */
  method NyxDeviceOptions(bitmap_size: nat, input_buffer_size: nat, qemu_id: nat, workdir: string, sharedir: string,
                          ipt_filters: seq<IptFilter>, hex: bool, cow_primary_size: Option<u64>) returns (nyx_ops: string)
    ensures nyx_ops == DeviceOptions(bitmap_size, input_buffer_size, qemu_id, workdir, sharedir, ipt_filters, hex, cow_primary_size)
  {
    nyx_ops := "nyx,chardev=nyx_interface";
    nyx_ops := nyx_ops + (",bitmap_size=" + Fmt.Decimal(bitmap_size));
    nyx_ops := nyx_ops + (",input_buffer_size=" + Fmt.Decimal(input_buffer_size));
    nyx_ops := nyx_ops + (",worker_id=" + Fmt.Decimal(qemu_id));
    nyx_ops := nyx_ops + (",workdir=" + workdir);
    nyx_ops := nyx_ops + (",sharedir=" + sharedir);
    nyx_ops := AppendIptFilters(nyx_ops, ipt_filters, IptEntry(hex));
    if cow_primary_size.Some? {
      nyx_ops := nyx_ops + (",cow_primary_size=" + Fmt.Decimal(cow_primary_size.value));
    }
  }

  /** QEMU reads back, after the binary, exactly the options rendered. */
  lemma ParseCommand(qemu_binary: string, args: seq<Arg>)
    requires WellFormed(args)
    ensures ParseArgs(([qemu_binary] + Render(args))[1..]) == Some(args)
  {
    assert ([qemu_binary] + Render(args))[1..] == Render(args);
    ParseRender(args);
  }

  /** The snapshot-mode options the builder collects are those of `SnapshotArgs`. */
  lemma SnapshotArgsOf(workdir: string, qemu_id: nat, cpu: nat, p: SnapshotVmParams, reload: string,
                       drive: string, screen: string, serial: string, memory: string, chardev: string, device: string)
    requires drive == "file=" + p.hda + ",format=raw,index=0,media=disk"
    requires screen == if p.debug then ":" + Fmt.Decimal(qemu_id + cpu) else "none"
    requires serial == if p.debug then "mon:stdio" else "stdio"
    requires memory == Fmt.Decimal(p.ram_size)
    requires chardev == "socket,server,path=" + ControlFilename(workdir, qemu_id) + ",id=nyx_interface"
    requires device == DeviceOptions(p.bitmap_size, p.input_buffer_size, qemu_id, workdir, p.sharedir, p.ipt_filters, false, p.cow_primary_size)
    ensures SnapshotLayout(p.debug, drive, screen, serial, memory, chardev, device, reload) == SnapshotArgs(workdir, qemu_id, cpu, p, reload)
  {
  }

  /** `QemuParams::new_from_snapshot`. Each pushed option is one item of
      `args`; `cmd` is the binary followed by their rendering. `None` where
      the source panics on the default snapshot path. */
  method NewFromSnapshot(workdir: string, qemu_id: nat, cpu: nat, p: SnapshotVmParams, create_snapshot_file: bool)
    returns (r: Option<QemuParams>)
    ensures r.None? <==> p.snapshot_path.DefaultPath?
    ensures r.Some? ==>
      r.value.cmd == [p.qemu_binary] + Render(SnapshotArgs(workdir, qemu_id, cpu, p,
                                                           SnapshotReload(p.snapshot_path, p.presnapshot, create_snapshot_file).value))
      && r.value.qemu_aux_buffer_filename == AuxBufferFilename(workdir, qemu_id)
      && r.value.control_filename == ControlFilename(workdir, qemu_id)
      && r.value.workdir == workdir && r.value.qemu_id == qemu_id
      && r.value.bitmap_size == p.bitmap_size && r.value.payload_size == p.input_buffer_size
      && r.value.dump_python_code_for_inputs == p.dump_python_code_for_inputs
      && r.value.write_protected_input_buffer == p.write_protected_input_buffer
      && r.value.cow_primary_size == p.cow_primary_size
  {
    var qemu_aux_buffer_filename := workdir + "/aux_buffer_" + Fmt.Decimal(qemu_id);
    var control_filename := workdir + "/interface_" + Fmt.Decimal(qemu_id);

    var args: seq<Arg> := [];
    var drive := "file=" + p.hda + ",format=raw,index=0,media=disk";
    args := args + [Opt(Drive, drive)];

    var screen := if p.debug then ":" + Fmt.Decimal(qemu_id + cpu) else "none";
    if !p.debug {
      args := args + [Opt(Display, screen)];
    } else {
      args := args + [Opt(Vnc, screen)];
    }

    var serial := if p.debug then "mon:stdio" else "stdio";
    args := args + [Opt(Serial, serial)];
    args := args + [Switch(EnableKvm)];
    args := args + [Opt(Net, "none")];
    args := args + [Opt(Keyboard, "de")];
    var memory := Fmt.Decimal(p.ram_size);
    args := args + [Opt(Memory, memory)];
    var chardev := "socket,server,path=" + control_filename + ",id=nyx_interface";
    args := args + [Opt(Chardev, chardev)];

    var nyx_ops := NyxDeviceOptions(p.bitmap_size, p.input_buffer_size, qemu_id, workdir, p.sharedir,
                                    p.ipt_filters, false, p.cow_primary_size);
    args := args + [Opt(Device, nyx_ops)];
    args := args + [Opt(Machine, "kAFL64-v1")];
    args := args + [Opt(Cpu, "kAFL64-Hypervisor-v1")];

    var reload: string;
    match p.snapshot_path {
      case Create(path) =>
        if create_snapshot_file {
          reload := "path=" + path + ",load=off,pre_path=" + p.presnapshot;
        } else {
          reload := "path=" + path + ",load=off,pre_path=" + p.presnapshot + ",skip_serialization=on";
        }
      case Reuse(path) =>
        reload := "path=" + path + ",load=on";
      case DefaultPath =>
        return None;
    }
    args := args + [Opt(FastVmReload, reload)];

    SnapshotArgsOf(workdir, qemu_id, cpu, p, reload, drive, screen, serial, memory, chardev, nyx_ops);
    var cmd := [p.qemu_binary] + Render(args);
    r := Some(QemuParams(cmd, qemu_aux_buffer_filename, control_filename, workdir, qemu_id, p.bitmap_size,
                         p.input_buffer_size, p.dump_python_code_for_inputs, p.write_protected_input_buffer,
                         p.cow_primary_size));
  }

  /** The kernel-mode options the builder collects are those of `KernelArgs`. */
  lemma KernelArgsOf(workdir: string, qemu_id: nat, p: KernelVmParams, create_snapshot_file: bool,
                     serial: string, memory: string, chardev: string, device: string, reload: Option<string>)
    requires serial == if p.debug then "mon:stdio" else "none"
    requires memory == Fmt.Decimal(p.ram_size)
    requires chardev == "socket,server,path=" + ControlFilename(workdir, qemu_id) + ",id=nyx_interface"
    requires device == DeviceOptions(p.bitmap_size, p.input_buffer_size, qemu_id, workdir, p.sharedir, p.ipt_filters, true, p.cow_primary_size)
    requires reload == KernelReload(workdir, qemu_id, create_snapshot_file)
    ensures KernelLayout(p.debug, p.kernel, p.ramfs, serial, memory, chardev, device, reload) == KernelArgs(workdir, qemu_id, p, create_snapshot_file)
  {
  }

  /** `QemuParams::new_from_kernel`, with `cmd` built as in `NewFromSnapshot`. */
  method NewFromKernel(workdir: string, qemu_id: nat, p: KernelVmParams, create_snapshot_file: bool) returns (r: QemuParams)
    ensures r.cmd == [p.qemu_binary] + Render(KernelArgs(workdir, qemu_id, p, create_snapshot_file))
    ensures r.qemu_aux_buffer_filename == AuxBufferFilename(workdir, qemu_id)
    ensures r.control_filename == ControlFilename(workdir, qemu_id)
    ensures r.workdir == workdir && r.qemu_id == qemu_id
    ensures r.bitmap_size == p.bitmap_size && r.payload_size == p.input_buffer_size
    ensures r.dump_python_code_for_inputs == p.dump_python_code_for_inputs
    ensures r.write_protected_input_buffer == p.write_protected_input_buffer
    ensures r.cow_primary_size == p.cow_primary_size
  {
    var qemu_aux_buffer_filename := workdir + "/aux_buffer_" + Fmt.Decimal(qemu_id);
    var control_filename := workdir + "/interface_" + Fmt.Decimal(qemu_id);

    var args: seq<Arg> := [];
    args := args + [Opt(Kernel, p.kernel)];
    args := args + [Opt(Initrd, p.ramfs)];
    args := args + [Opt(Append, "nokaslr oops=panic nopti ignore_rlimit_data")];

    var display: seq<Arg> := [];
    if !p.debug {
      display := [Opt(Display, "none")];
    }
    args := args + display;

    var serial := if p.debug then "mon:stdio" else "none";
    args := args + [Opt(Serial, serial)];
    args := args + [Switch(EnableKvm)];
    args := args + [Opt(Net, "none")];
    args := args + [Opt(Keyboard, "de")];
    var memory := Fmt.Decimal(p.ram_size);
    args := args + [Opt(Memory, memory)];
    var chardev := "socket,server,path=" + control_filename + ",id=nyx_interface";
    args := args + [Opt(Chardev, chardev)];

    var nyx_ops := NyxDeviceOptions(p.bitmap_size, p.input_buffer_size, qemu_id, workdir, p.sharedir,
                                    p.ipt_filters, true, p.cow_primary_size);
    args := args + [Opt(Device, nyx_ops)];
    args := args + [Opt(Machine, "kAFL64-v1")];
    args := args + [Opt(Cpu, "kAFL64-Hypervisor-v1,+vmx")];

    var reload: Option<string> := None;
    var reload_part: seq<Arg> := [];
    if create_snapshot_file {
      if qemu_id == 0 {
        reload := Some("path=" + workdir + "/snapshot/,load=off");
      } else {
        reload := Some("path=" + workdir + "/snapshot/,load=on");
      }
      reload_part := [Opt(FastVmReload, reload.value)];
    }
    args := args + reload_part;

    KernelArgsOf(workdir, qemu_id, p, create_snapshot_file, serial, memory, chardev, nyx_ops, reload);
    var cmd := [p.qemu_binary] + Render(args);
    r := QemuParams(cmd, qemu_aux_buffer_filename, control_filename, workdir, qemu_id, p.bitmap_size,
                    p.input_buffer_size, p.dump_python_code_for_inputs, p.write_protected_input_buffer,
                    p.cow_primary_size);
  }
}
