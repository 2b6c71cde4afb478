// The shared feedback page: a packed record the VM writes and the fuzzer reads
// (fuzz_runner/src/nyx/ijon_data.rs). The interpreter counter sits at byte 0,
// the IJON maxima start half-way through the page.
module IjonData {
  import opened Types
  import opened LittleEndian

  /** Size of the shared feedback mapping: one 4 KiB page. */
  const FEEDBACK_SIZE: nat := 0x1000
  /** Size of the packed `InterpreterData` record (one u32). */
  const INTERPRETER_SIZE: nat := 4
  /** Where `IjonData` starts: after the interpreter data and its padding. */
  const IJON_OFFSET: nat := FEEDBACK_SIZE / 2
  /** Number of IJON maximum slots. */
  const IJON_SLOTS: nat := 256
  /** Every IJON slot is a little-endian u64. */
  const IJON_LAYOUT: seq<nat> := seq(IJON_SLOTS, _ => 8)

  datatype InterpreterData = InterpreterData(executed_opcode_num: u32)

  datatype IjonData = IjonData(max_data: seq<u64>) {
    ghost predicate Valid() { |max_data| == IJON_SLOTS }
  }

  /** The readable parts of the page; the padding between them carries nothing. */
  datatype SharedFeedbackData = SharedFeedbackData(interpreter: InterpreterData, ijon: IjonData) {
    ghost predicate Valid() { ijon.Valid() }
  }

  /** The VM-side buffer is only wrapped: `FeedbackBuffer::new` stores the mapping. */
  class FeedbackBuffer {
    var shared: SharedFeedbackData

    constructor (shared: SharedFeedbackData)
      ensures this.shared == shared
    {
      this.shared := shared;
    }
  }

  lemma {:induction false} IjonOffsets(k: nat)
    requires k <= IJON_SLOTS
    ensures Offset(IJON_LAYOUT, k) == 8 * k
  {
    if k > 0 {
      IjonOffsets(k - 1);
    }
  }

  /** The page is laid out exactly: the padding fills the first half, and the
      IJON array ends at the end of the page. */
  lemma PageLayout()
    ensures INTERPRETER_SIZE + (FEEDBACK_SIZE / 2 - INTERPRETER_SIZE) == IJON_OFFSET
    ensures IJON_OFFSET + Size(IJON_LAYOUT) == FEEDBACK_SIZE
  {
    IjonOffsets(IJON_SLOTS);
  }

  /** Reads the feedback page. */
  function DecodeFeedback(page: seq<u8>): (d: SharedFeedbackData)
    requires |page| == FEEDBACK_SIZE
    ensures d.Valid()
  {
    PageLayout();
    Pow256Widths();
    var maxima := DecodeFields(page[IJON_OFFSET..], IJON_LAYOUT);
    SharedFeedbackData(
      InterpreterData(Value(page[..INTERPRETER_SIZE])),
      IjonData(seq(IJON_SLOTS, k requires 0 <= k < IJON_SLOTS => maxima[k])))
  }

  /** Writes a feedback page with zeroed padding. */
  function EncodeFeedback(d: SharedFeedbackData): (page: seq<u8>)
    requires d.Valid()
    ensures |page| == FEEDBACK_SIZE
  {
    PageLayout();
    Bytes(d.interpreter.executed_opcode_num, INTERPRETER_SIZE)
    + seq(IJON_OFFSET - INTERPRETER_SIZE, _ => 0)
    + EncodeFields(d.ijon.max_data, IJON_LAYOUT)
  }

  /** IJON slot `k` is the u64 at byte 0x800 + 8k. */
  lemma SlotBytes(page: seq<u8>, k: nat)
    requires |page| == FEEDBACK_SIZE && k < IJON_SLOTS
    ensures DecodeFeedback(page).ijon.max_data[k] == Value(page[IJON_OFFSET + 8 * k..IJON_OFFSET + 8 * k + 8])
  {
    PageLayout();
    IjonOffsets(k);
    var rest := page[IJON_OFFSET..];
    FieldValue(rest, IJON_LAYOUT, k);
    assert Field(rest, IJON_LAYOUT, k) == Value(rest[8 * k..8 * k + 8]);
    assert rest[8 * k..8 * k + 8] == page[IJON_OFFSET + 8 * k..IJON_OFFSET + 8 * k + 8];
  }

  lemma {:induction false} DecodeEncodeFeedback(d: SharedFeedbackData)
    requires d.Valid()
    ensures DecodeFeedback(EncodeFeedback(d)) == d
  {
    PageLayout();
    Pow256Widths();
    var page := EncodeFeedback(d);
    var head := Bytes(d.interpreter.executed_opcode_num, INTERPRETER_SIZE);
    var body := EncodeFields(d.ijon.max_data, IJON_LAYOUT);
    assert page[..INTERPRETER_SIZE] == head;
    ValueOfBytes(d.interpreter.executed_opcode_num, INTERPRETER_SIZE);
    assert page[IJON_OFFSET..] == body + [];
    assert Fits(d.ijon.max_data, IJON_LAYOUT);
    DecodeEncodeFields(d.ijon.max_data, IJON_LAYOUT, []);
    var maxima := DecodeFields(page[IJON_OFFSET..], IJON_LAYOUT);
    assert maxima == d.ijon.max_data;
  }
}
