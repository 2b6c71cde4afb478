/** The 4 KiB auxiliary buffer shared between libnyx and QEMU-Nyx
    (fuzz_runner/src/nyx/aux_buffer.rs): its five packed sections, header
    validation, the exec result codes and the misc area with its escaping
    renderer. The buffer is modelled as a sequence of 4096 bytes with one
    decoder and one encoder per section. */
module AuxBuffer {
  import opened Types
  import opened Wrappers
  import opened LittleEndian
  import Fmt

  /* Exec result codes (result.exec_result_code). */
  const NYX_SUCCESS: u8 := 0
  const NYX_CRASH: u8 := 1
  const NYX_HPRINTF: u8 := 2
  const NYX_TIMEOUT: u8 := 3
  const NYX_INPUT_WRITE: u8 := 4
  const NYX_ABORT: u8 := 5

  const AUX_BUFFER_SIZE: nat := 4096

  const AUX_MAGIC: u64 := 0x54502d554d4551
  const QEMU_PT_VERSION: u16 := 3
  const QEMU_PT_HASH: u16 := 84

  const HEADER_SIZE: nat := 128
  const CAP_SIZE: nat := 256
  const CONFIG_SIZE: nat := 512
  const STATE_SIZE: nat := 512

  const HEADER_OFFSET: nat := 0
  const CAP_OFFSET: nat := HEADER_OFFSET + HEADER_SIZE
  const CONFIG_OFFSET: nat := CAP_OFFSET + CAP_SIZE
  const STATE_OFFSET: nat := CONFIG_OFFSET + CONFIG_SIZE
  const MISC_OFFSET: nat := STATE_OFFSET + STATE_SIZE
  const MISC_SIZE: nat := AUX_BUFFER_SIZE - MISC_OFFSET

  /** Length of `misc.data`: the misc slot minus its u16 length prefix. */
  const MISC_DATA_SIZE: nat := MISC_SIZE - 2

  /* Field widths of the packed structs, in declaration order. */
  const HEADER_LAYOUT: seq<nat> := [8, 2, 2]
  const CAP_LAYOUT: seq<nat> := [1, 1, 1, 1, 4, 4]
  const CONFIG_LAYOUT: seq<nat> := [1, 1, 4, 1, 1, 1, 1, 1, 8, 1, 1]
  const RESULT_LAYOUT: seq<nat> := [1, 1, 1, 1, 1, 1, 1, 1, 8, 4, 4, 4, 4, 4]

  // ---------------------------------------------------------------- layout

  datatype Slot = HeaderSlot | CapSlot | ConfigSlot | StateSlot | MiscSlot

  function SlotOffset(s: Slot): nat {
    match s
    case HeaderSlot => HEADER_OFFSET
    case CapSlot => CAP_OFFSET
    case ConfigSlot => CONFIG_OFFSET
    case StateSlot => STATE_OFFSET
    case MiscSlot => MISC_OFFSET
  }

  function SlotSize(s: Slot): nat {
    match s
    case HeaderSlot => HEADER_SIZE
    case CapSlot => CAP_SIZE
    case ConfigSlot => CONFIG_SIZE
    case StateSlot => STATE_SIZE
    case MiscSlot => MISC_SIZE
  }

  predicate InSlot(i: nat, s: Slot) {
    SlotOffset(s) <= i < SlotOffset(s) + SlotSize(s)
  }

  /** The slot holding byte `i`: every byte of the page belongs to exactly one slot. */
  function SlotOf(i: nat): (s: Slot)
    requires i < AUX_BUFFER_SIZE
    ensures InSlot(i, s)
    ensures forall t: Slot :: InSlot(i, t) ==> t == s
  {
    if i < CAP_OFFSET then HeaderSlot
    else if i < CONFIG_OFFSET then CapSlot
    else if i < STATE_OFFSET then ConfigSlot
    else if i < MISC_OFFSET then StateSlot
    else MiscSlot
  }

  /** The slots start at 0, 128, 384, 896 and 1408, and misc ends at the page end. */
  lemma SlotsTileThePage()
    ensures SlotOffset(HeaderSlot) == 0 && SlotOffset(CapSlot) == 128
    ensures SlotOffset(ConfigSlot) == 384 && SlotOffset(StateSlot) == 896
    ensures SlotOffset(MiscSlot) == 1408 && SlotSize(MiscSlot) == 2688
    ensures SlotOffset(MiscSlot) + SlotSize(MiscSlot) == AUX_BUFFER_SIZE
    ensures forall s: Slot, t: Slot, i: nat :: InSlot(i, s) && InSlot(i, t) ==> s == t
  {
  }

  // ---------------------------------------------------------------- sections

  /** auxilary_buffer_header_s */
  datatype AuxHeader = AuxHeader(magic: u64, version: u16, hash: u16)

  /** auxilary_buffer_cap_s */
  datatype AuxCap = AuxCap(
    redqueen: u8,
    agent_timeout_detection: u8,
    agent_trace_bitmap: u8,
    agent_ijon_trace_bitmap: u8,
    agent_input_buffer_size: u32,
    agent_coverage_bitmap_size: u32)

  /** auxilary_buffer_config_s: what the host asks QEMU-Nyx to do; `changed`
      tells QEMU-Nyx to rescan the section. */
  datatype AuxConfig = AuxConfig(
    changed: u8,
    timeout_sec: u8,
    timeout_usec: u32,
    redqueen_mode: u8,
    trace_mode: u8,
    reload_mode: u8,
    verbose_level: u8,
    page_dump_mode: u8,
    page_addr: u64,
    protect_payload_buffer: u8,
    discard_tmp_snapshot: u8)

  /** auxilary_buffer_result_s */
  datatype AuxResult = AuxResult(
    state: u8,
    exec_done: u8,
    exec_result_code: u8,
    reloaded: u8,
    pt_overflow: u8,
    page_not_found: u8,
    tmp_snapshot_created: u8,
    padding_3: u8,
    page_not_found_addr: u64,
    dirty_pages: u32,
    pt_trace_size: u32,
    bb_coverage: u32,
    runtime_usec: u32,
    runtime_sec: u32)

  /** auxilary_buffer_misc_s: a u16 length and the data it counts. */
  datatype AuxMisc = AuxMisc(len: u16, data: seq<u8>)
  {
    ghost predicate Valid() { |data| == MISC_DATA_SIZE }
  }

  datatype AuxView = AuxView(header: AuxHeader, cap: AuxCap, config: AuxConfig, result: AuxResult, misc: AuxMisc)

  function HeaderFields(h: AuxHeader): seq<nat> {
    [h.magic, h.version, h.hash]
  }

  function CapFields(c: AuxCap): seq<nat> {
    [c.redqueen, c.agent_timeout_detection, c.agent_trace_bitmap, c.agent_ijon_trace_bitmap,
     c.agent_input_buffer_size, c.agent_coverage_bitmap_size]
  }

  function ConfigFields(c: AuxConfig): seq<nat> {
    [c.changed, c.timeout_sec, c.timeout_usec, c.redqueen_mode, c.trace_mode, c.reload_mode,
     c.verbose_level, c.page_dump_mode, c.page_addr, c.protect_payload_buffer, c.discard_tmp_snapshot]
  }

  function ResultFields(r: AuxResult): seq<nat> {
    [r.state, r.exec_done, r.exec_result_code, r.reloaded, r.pt_overflow, r.page_not_found,
     r.tmp_snapshot_created, r.padding_3, r.page_not_found_addr, r.dirty_pages, r.pt_trace_size,
     r.bb_coverage, r.runtime_usec, r.runtime_sec]
  }

  /** Each packed struct fits in its slot: 12 <= 128, 12 <= 256, 21 <= 512, 36 <= 512,
      and the misc struct (2 + 2686 bytes) fills its slot exactly. */
  lemma {:induction false} StructsFitTheirSlots()
    ensures Size(HEADER_LAYOUT) == 12 <= HEADER_SIZE
    ensures Size(CAP_LAYOUT) == 12 <= CAP_SIZE
    ensures Size(CONFIG_LAYOUT) == 21 <= CONFIG_SIZE
    ensures Size(RESULT_LAYOUT) == 36 <= STATE_SIZE
    ensures 2 + MISC_DATA_SIZE == MISC_SIZE == 2688
  {
    assert Offset(CONFIG_LAYOUT, 9) == 19;
    assert Offset(RESULT_LAYOUT, 4) == 4;
    assert Offset(RESULT_LAYOUT, 8) == 8;
    assert Offset(RESULT_LAYOUT, 10) == 20;
    assert Offset(RESULT_LAYOUT, 12) == 28;
    assert Offset(RESULT_LAYOUT, 14) == 36;
  }

  function DecodeHeader(s: seq<u8>): (h: AuxHeader)
    requires |s| >= HEADER_SIZE
  {
    StructsFitTheirSlots();
    Pow256Widths();
    var f := DecodeFields(s, HEADER_LAYOUT);
    AuxHeader(f[0], f[1], f[2])
  }

  function EncodeHeader(h: AuxHeader): (s: seq<u8>)
    ensures |s| == Size(HEADER_LAYOUT)
  {
    EncodeFields(HeaderFields(h), HEADER_LAYOUT)
  }

  function DecodeCap(s: seq<u8>): AuxCap
    requires |s| >= CAP_SIZE
  {
    StructsFitTheirSlots();
    Pow256Widths();
    var f := DecodeFields(s, CAP_LAYOUT);
    AuxCap(f[0], f[1], f[2], f[3], f[4], f[5])
  }

  function EncodeCap(c: AuxCap): (s: seq<u8>)
    ensures |s| == Size(CAP_LAYOUT)
  {
    EncodeFields(CapFields(c), CAP_LAYOUT)
  }

  function DecodeConfig(s: seq<u8>): AuxConfig
    requires |s| >= Size(CONFIG_LAYOUT)
  {
    Pow256Widths();
    var f := DecodeFields(s, CONFIG_LAYOUT);
    AuxConfig(f[0], f[1], f[2], f[3], f[4], f[5], f[6], f[7], f[8], f[9], f[10])
  }

  function EncodeConfig(c: AuxConfig): (s: seq<u8>)
    ensures |s| == Size(CONFIG_LAYOUT)
  {
    EncodeFields(ConfigFields(c), CONFIG_LAYOUT)
  }

  function DecodeResult(s: seq<u8>): AuxResult
    requires |s| >= STATE_SIZE
  {
    StructsFitTheirSlots();
    Pow256Widths();
    var f := DecodeFields(s, RESULT_LAYOUT);
    AuxResult(f[0], f[1], f[2], f[3], f[4], f[5], f[6], f[7], f[8], f[9], f[10], f[11], f[12], f[13])
  }

  function EncodeResult(r: AuxResult): (s: seq<u8>)
    ensures |s| == Size(RESULT_LAYOUT)
  {
    EncodeFields(ResultFields(r), RESULT_LAYOUT)
  }

  function DecodeMisc(s: seq<u8>): (m: AuxMisc)
    requires |s| == MISC_SIZE
    ensures m.Valid()
  {
    AuxMisc(Value(s[..2]), s[2..])
  }

  function EncodeMisc(m: AuxMisc): (s: seq<u8>)
    requires m.Valid()
    ensures |s| == MISC_SIZE
  {
    Bytes(m.len, 2) + m.data
  }

  lemma {:induction false} DecodeEncodeHeader(h: AuxHeader, tail: seq<u8>)
    requires |tail| >= HEADER_SIZE - Size(HEADER_LAYOUT)
    ensures |EncodeHeader(h) + tail| >= HEADER_SIZE
    ensures DecodeHeader(EncodeHeader(h) + tail) == h
  {
    StructsFitTheirSlots();
    Pow256Widths();
    DecodeEncodeFields(HeaderFields(h), HEADER_LAYOUT, tail);
  }

  lemma {:induction false} DecodeEncodeCap(c: AuxCap, tail: seq<u8>)
    requires |tail| >= CAP_SIZE - Size(CAP_LAYOUT)
    ensures |EncodeCap(c) + tail| >= CAP_SIZE
    ensures DecodeCap(EncodeCap(c) + tail) == c
  {
    StructsFitTheirSlots();
    Pow256Widths();
    DecodeEncodeFields(CapFields(c), CAP_LAYOUT, tail);
  }

  lemma {:induction false} DecodeEncodeConfig(c: AuxConfig, tail: seq<u8>)
    ensures DecodeConfig(EncodeConfig(c) + tail) == c
  {
    Pow256Widths();
    DecodeEncodeFields(ConfigFields(c), CONFIG_LAYOUT, tail);
  }

  lemma {:induction false} DecodeEncodeResult(r: AuxResult, tail: seq<u8>)
    requires |tail| >= STATE_SIZE - Size(RESULT_LAYOUT)
    ensures |EncodeResult(r) + tail| >= STATE_SIZE
    ensures DecodeResult(EncodeResult(r) + tail) == r
  {
    StructsFitTheirSlots();
    Pow256Widths();
    DecodeEncodeFields(ResultFields(r), RESULT_LAYOUT, tail);
  }

  lemma {:induction false} DecodeEncodeMisc(m: AuxMisc)
    requires m.Valid()
    ensures DecodeMisc(EncodeMisc(m)) == m
  {
    var s := EncodeMisc(m);
    assert s[..2] == Bytes(m.len, 2);
    Pow256Widths();
    ValueOfBytes(m.len, 2);
    assert s[2..] == m.data;
  }

  // ---------------------------------------------------------------- the whole page

  /** `s` followed by zero bytes up to `n` bytes. */
  function Pad(s: seq<u8>, n: nat): (r: seq<u8>)
    requires |s| <= n
    ensures |r| == n && r[..|s|] == s
  {
    s + seq(n - |s|, _ => 0)
  }

  /** The five sections of a 4096-byte aux buffer, each read from its own slot. */
  function DecodePage(buf: seq<u8>): AuxView
    requires |buf| == AUX_BUFFER_SIZE
  {
    StructsFitTheirSlots();
    AuxView(
      DecodeHeader(buf[HEADER_OFFSET..CAP_OFFSET]),
      DecodeCap(buf[CAP_OFFSET..CONFIG_OFFSET]),
      DecodeConfig(buf[CONFIG_OFFSET..STATE_OFFSET]),
      DecodeResult(buf[STATE_OFFSET..MISC_OFFSET]),
      DecodeMisc(buf[MISC_OFFSET..]))
  }

  /** A 4096-byte aux buffer holding `v`, with the unused tail of each slot zeroed. */
  function EncodePage(v: AuxView): (buf: seq<u8>)
    requires v.misc.Valid()
    ensures |buf| == AUX_BUFFER_SIZE
  {
    StructsFitTheirSlots();
    Pad(EncodeHeader(v.header), HEADER_SIZE) + Pad(EncodeCap(v.cap), CAP_SIZE)
    + Pad(EncodeConfig(v.config), CONFIG_SIZE) + Pad(EncodeResult(v.result), STATE_SIZE)
    + EncodeMisc(v.misc)
  }

  lemma {:induction false} DecodeEncodePage(v: AuxView)
    requires v.misc.Valid()
    ensures DecodePage(EncodePage(v)) == v
  {
    StructsFitTheirSlots();
    var buf := EncodePage(v);
    var h, c, g, r := EncodeHeader(v.header), EncodeCap(v.cap), EncodeConfig(v.config), EncodeResult(v.result);
    var ph, pc, pg, pr := Pad(h, HEADER_SIZE), Pad(c, CAP_SIZE), Pad(g, CONFIG_SIZE), Pad(r, STATE_SIZE);
    assert buf == ph + pc + pg + pr + EncodeMisc(v.misc);
    assert buf[HEADER_OFFSET..CAP_OFFSET] == ph;
    assert buf[CAP_OFFSET..CONFIG_OFFSET] == pc;
    assert buf[CONFIG_OFFSET..STATE_OFFSET] == pg;
    assert buf[STATE_OFFSET..MISC_OFFSET] == pr;
    assert buf[MISC_OFFSET..] == EncodeMisc(v.misc);
    DecodeEncodeHeader(v.header, ph[|h|..]);
    assert ph == h + ph[|h|..];
    DecodeEncodeCap(v.cap, pc[|c|..]);
    assert pc == c + pc[|c|..];
    DecodeEncodeConfig(v.config, pg[|g|..]);
    assert pg == g + pg[|g|..];
    DecodeEncodeResult(v.result, pr[|r|..]);
    assert pr == r + pr[|r|..];
    DecodeEncodeMisc(v.misc);
  }

  /** The header is packed little-endian: magic is the u64 at byte 0, version the
      u16 at byte 8 and hash the u16 at byte 10 of the header slot. */
  lemma HeaderBytes(s: seq<u8>)
    requires |s| >= HEADER_SIZE
    ensures DecodeHeader(s) == AuxHeader(Value(s[0..8]), Value(s[8..10]), Value(s[10..12]))
  {
    var f := DecodeFields(s, HEADER_LAYOUT);
    assert Offset(HEADER_LAYOUT, 1) == 8;
    assert Offset(HEADER_LAYOUT, 2) == 10;
    assert f[0] == Field(s, HEADER_LAYOUT, 0);
    assert f[1] == Field(s, HEADER_LAYOUT, 1);
    assert f[2] == Field(s, HEADER_LAYOUT, 2);
  }

  /** Writes the config struct into its slot of the page (what a store through
      `aux.config` does). */
  function WriteConfig(buf: seq<u8>, c: AuxConfig): (r: seq<u8>)
    requires |buf| == AUX_BUFFER_SIZE
    ensures |r| == AUX_BUFFER_SIZE
  {
    StructsFitTheirSlots();
    buf[..CONFIG_OFFSET] + EncodeConfig(c) + buf[CONFIG_OFFSET + Size(CONFIG_LAYOUT)..]
  }

  /** The slots are disjoint: writing the config changes what the config section
      decodes to and nothing else. */
  lemma {:induction false} WriteConfigIsolated(buf: seq<u8>, c: AuxConfig)
    requires |buf| == AUX_BUFFER_SIZE
    ensures DecodePage(WriteConfig(buf, c)) == DecodePage(buf).(config := c)
  {
    StructsFitTheirSlots();
    var w := WriteConfig(buf, c);
    var e := EncodeConfig(c);
    assert w[HEADER_OFFSET..CAP_OFFSET] == buf[HEADER_OFFSET..CAP_OFFSET];
    assert w[CAP_OFFSET..CONFIG_OFFSET] == buf[CAP_OFFSET..CONFIG_OFFSET];
    assert w[STATE_OFFSET..MISC_OFFSET] == buf[STATE_OFFSET..MISC_OFFSET];
    assert w[MISC_OFFSET..] == buf[MISC_OFFSET..];
    var tail := buf[CONFIG_OFFSET + |e|..STATE_OFFSET];
    assert w[CONFIG_OFFSET..STATE_OFFSET] == e + tail;
    DecodeEncodeConfig(c, tail);
  }

  // ---------------------------------------------------------------- header check

  /** Why `validate_header` rejected a header: the expected constant is fixed,
      the value found is carried along (the source formats both into a message). */
  datatype HeaderError = MagicMismatch(magic: u64) | VersionMismatch(version: u16) | HashMismatch(hash: u16)

  /** `AuxBuffer::validate_header`: checks magic, then version, then hash, and
      reports the first mismatch. */
  function ValidateHeader(h: AuxHeader): (r: Result<(), HeaderError>)
    ensures r.Success? <==> h.magic == AUX_MAGIC && h.version == QEMU_PT_VERSION && h.hash == QEMU_PT_HASH
    ensures h.magic != AUX_MAGIC ==> r == Failure(MagicMismatch(h.magic))
    ensures h.magic == AUX_MAGIC && h.version != QEMU_PT_VERSION ==> r == Failure(VersionMismatch(h.version))
    ensures r.Failure? && r.error.HashMismatch? ==> h.magic == AUX_MAGIC && h.version == QEMU_PT_VERSION
  {
    if h.magic != AUX_MAGIC then Failure(MagicMismatch(h.magic))
    else if h.version != QEMU_PT_VERSION then Failure(VersionMismatch(h.version))
    else if h.hash != QEMU_PT_HASH then Failure(HashMismatch(h.hash))
    else Success(())
  }

  // ---------------------------------------------------------------- misc area

  /** `auxilary_buffer_misc_s::as_slice`: the first `len` data bytes; the
      source's `assert!` panics (None here) when `len` exceeds the data area. */
  function AsSlice(m: AuxMisc): (r: Option<seq<u8>>)
    requires m.Valid()
    ensures r.Some? <==> m.len <= MISC_DATA_SIZE
    ensures r.Some? ==> |r.value| == m.len && r.value == m.data[..m.len]
  {
    if m.len <= |m.data| then Some(m.data[..m.len]) else None
  }

  /** `std::ascii::escape_default` of one byte, as characters. */
  function EscapeDefault(b: u8): (r: string)
    ensures 1 <= |r| <= 4
    ensures forall i :: 0 <= i < |r| ==> ' ' <= r[i] <= '~'
  {
    if b == 0x09 then "\\t"
    else if b == 0x0d then "\\r"
    else if b == 0x0a then "\\n"
    else if b == 0x5c then "\\\\"
    else if b == 0x27 then "\\'"
    else if b == 0x22 then "\\\""
    else if 0x20 <= b <= 0x7e then [b as char]
    else ['\\', 'x', Fmt.Digit(b / 16), Fmt.Digit(b % 16)]
  }

  /** `inspect_bytes` as a value: the escapes of the bytes, concatenated. */
  function Escaped(bs: seq<u8>): (r: string)
    ensures |bs| <= |r| <= 4 * |bs|
  {
    if bs == [] then [] else EscapeDefault(bs[0]) + Escaped(bs[1..])
  }

  lemma {:induction false} EscapedSnoc(bs: seq<u8>, b: u8)
    ensures Escaped(bs + [b]) == Escaped(bs) + EscapeDefault(b)
  {
    if bs != [] {
      assert (bs + [b])[1..] == bs[1..] + [b];
      EscapedSnoc(bs[1..], b);
    } else {
      assert ([] + [b])[1..] == [];
    }
  }

  /** `inspect_bytes`: builds the escaped rendering byte by byte. */
  method InspectBytes(bs: seq<u8>) returns (visible: string)
    ensures visible == Escaped(bs)
  {
    visible := "";
    for i := 0 to |bs|
      invariant visible == Escaped(bs[..i])
    {
      assert bs[..i + 1] == bs[..i] + [bs[i]];
      EscapedSnoc(bs[..i], bs[i]);
      visible := visible + EscapeDefault(bs[i]);
    }
    assert bs[..|bs|] == bs;
  }

  /** `auxilary_buffer_misc_s::as_string`: the rendering of `as_slice`. */
  method AsString(m: AuxMisc) returns (r: Option<string>)
    requires m.Valid()
    ensures r.Some? <==> m.len <= MISC_DATA_SIZE
    ensures r.Some? ==> r.value == Escaped(m.data[..m.len])
  {
    var slice := AsSlice(m);
    if slice.None? {
      return None;
    }
    var s := InspectBytes(slice.value);
    return Some(s);
  }

  /** The byte a two-character escape `\\c` stands for. */
  function SimpleEscape(c: char): Option<u8> {
    if c == 't' then Some(0x09)
    else if c == 'r' then Some(0x0d)
    else if c == 'n' then Some(0x0a)
    else if c == '\\' then Some(0x5c)
    else if c == '\'' then Some(0x27)
    else if c == '"' then Some(0x22)
    else None
  }

  /** Reads escaped text back into bytes; the partner of `Escaped`. */
  function Unescape(s: string): Option<seq<u8>>
    decreases |s|
  {
    if s == [] then Some([])
    else if s[0] != '\\' then
      if ' ' <= s[0] <= '~' then
        var rest :- Unescape(s[1..]);
        Some([s[0] as int] + rest)
      else None
    else if |s| >= 2 && SimpleEscape(s[1]).Some? then
      var rest :- Unescape(s[2..]);
      Some([SimpleEscape(s[1]).value] + rest)
    else if |s| >= 4 && s[1] == 'x' && Fmt.IsDigit(s[2], 16) && Fmt.IsDigit(s[3], 16) then
      var rest :- Unescape(s[4..]);
      Some([16 * Fmt.DigitValue(s[2]) + Fmt.DigitValue(s[3])] + rest)
    else None
  }

  lemma UnescapeOne(b: u8, rest: string)
    ensures Unescape(EscapeDefault(b) + rest) ==
      (match Unescape(rest) case Some(t) => Some([b] + t) case None => None)
  {
    var e := EscapeDefault(b);
    var s := e + rest;
    if |e| == 1 {
      assert s[1..] == rest;
    } else if |e| == 2 {
      assert s[2..] == rest;
    } else {
      assert s[4..] == rest;
      assert 16 * (b / 16) + b % 16 == b;
    }
  }

  /** The rendering is lossless: escaping never maps two byte strings to the same text. */
  lemma {:induction false} UnescapeEscaped(bs: seq<u8>)
    ensures Unescape(Escaped(bs)) == Some(bs)
  {
    if bs != [] {
      UnescapeEscaped(bs[1..]);
      UnescapeOne(bs[0], Escaped(bs[1..]));
      assert [bs[0]] + bs[1..] == bs;
    }
  }
}
