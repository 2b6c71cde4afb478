/** Packed little-endian layout, as `#[repr(C, packed(1))]` structs have on x86-64:
    a struct is a list of field widths in bytes, each field sits right after the
    previous one, and each field is stored least significant byte first. */
module LittleEndian {
  import opened Types

  function Pow256(n: nat): (r: nat)
    ensures r >= 1
  {
    if n == 0 then 1 else 0x100 * Pow256(n - 1)
  }

  lemma Pow256Widths()
    ensures Pow256(1) == 0x100 && Pow256(2) == 0x1_0000 && Pow256(4) == 0x1_0000_0000
    ensures Pow256(8) == 0x1_0000_0000_0000_0000
  {
    assert Pow256(2) == 0x1_0000;
    assert Pow256(4) == 0x1_0000_0000;
  }

  /** The unsigned value of `s` read least significant byte first. */
  function Value(s: seq<u8>): (v: nat)
    ensures v < Pow256(|s|)
  {
    if s == [] then 0 else s[0] + 0x100 * Value(s[1..])
  }

  /** The `n` low-order bytes of `x`, least significant first. */
  function Bytes(x: nat, n: nat): (s: seq<u8>)
    ensures |s| == n
  {
    if n == 0 then [] else [x % 0x100] + Bytes(x / 0x100, n - 1)
  }

  lemma {:induction false} ValueOfBytes(x: nat, n: nat)
    requires x < Pow256(n)
    ensures Value(Bytes(x, n)) == x
  {
    if n > 0 {
      ValueOfBytes(x / 0x100, n - 1);
      assert Bytes(x, n)[1..] == Bytes(x / 0x100, n - 1);
    }
  }

  lemma {:induction false} BytesOfValue(s: seq<u8>)
    ensures Bytes(Value(s), |s|) == s
  {
    if s != [] {
      var v := Value(s);
      assert v % 0x100 == s[0] && v / 0x100 == Value(s[1..]);
      BytesOfValue(s[1..]);
    }
  }

  /** Byte offset of field `k` in a packed struct whose field widths are `ws`. */
  function Offset(ws: seq<nat>, k: nat): nat
    requires k <= |ws|
  {
    if k == 0 then 0 else Offset(ws, k - 1) + ws[k - 1]
  }

  /** Size in bytes of a packed struct whose field widths are `ws`. */
  function Size(ws: seq<nat>): nat {
    Offset(ws, |ws|)
  }

  lemma {:induction false} OffsetMonotone(ws: seq<nat>, j: nat, k: nat)
    requires j <= k <= |ws|
    ensures Offset(ws, j) <= Offset(ws, k)
  {
    if j < k {
      OffsetMonotone(ws, j, k - 1);
    }
  }

  /** The value of the `w` bytes of `s` at offset `o`. */
  function ValueAt(s: seq<u8>, o: nat, w: nat): (v: nat)
    requires o + w <= |s|
    ensures v < Pow256(w)
  {
    Value(s[o..o + w])
  }

  /** The value of field `k`, read at its offset. */
  function Field(s: seq<u8>, ws: seq<nat>, k: nat): (v: nat)
    requires k < |ws| && Size(ws) <= |s|
    ensures v < Pow256(ws[k])
  {
    OffsetMonotone(ws, k + 1, |ws|);
    ValueAt(s, Offset(ws, k), ws[k])
  }

  /** Every value fits in the width of its field. */
  ghost predicate Fits(vs: seq<nat>, ws: seq<nat>) {
    |vs| == |ws| && forall k :: 0 <= k < |vs| ==> vs[k] < Pow256(ws[k])
  }

  /** Reads all fields of a packed struct from the front of `s`. */
  function DecodeFields(s: seq<u8>, ws: seq<nat>): (vs: seq<nat>)
    requires Size(ws) <= |s|
    ensures Fits(vs, ws)
  {
    seq(|ws|, k requires 0 <= k < |ws| => Field(s, ws, k))
  }

  /** Lays out the field values `vs` in a packed struct with widths `ws`. */
  function EncodeFields(vs: seq<nat>, ws: seq<nat>): (s: seq<u8>)
    requires |vs| == |ws|
    ensures |s| == Size(ws)
  {
    if ws == [] then []
    else
      var n := |ws| - 1;
      assert Offset(ws, n) == Size(ws[..n]) by { OffsetPrefix(ws, n, n); }
      EncodeFields(vs[..n], ws[..n]) + Bytes(vs[n], ws[n])
  }

  lemma {:induction false} OffsetPrefix(ws: seq<nat>, n: nat, k: nat)
    requires k <= n <= |ws|
    ensures Offset(ws[..n], k) == Offset(ws, k)
  {
    if k > 0 {
      OffsetPrefix(ws, n, k - 1);
    }
  }

  /** Field `k` of an encoded struct holds exactly the bytes of value `k`. */
  lemma {:induction false} EncodeFieldsAt(vs: seq<nat>, ws: seq<nat>, k: nat)
    requires |vs| == |ws| && k < |ws|
    ensures Offset(ws, k) + ws[k] <= Size(ws)
    ensures EncodeFields(vs, ws)[Offset(ws, k)..Offset(ws, k) + ws[k]] == Bytes(vs[k], ws[k])
  {
    var n := |ws| - 1;
    var front := EncodeFields(vs[..n], ws[..n]);
    OffsetPrefix(ws, n, n);
    assert EncodeFields(vs, ws) == front + Bytes(vs[n], ws[n]);
    if k < n {
      EncodeFieldsAt(vs[..n], ws[..n], k);
      OffsetPrefix(ws, n, k);
      OffsetPrefix(ws, n, k + 1);
      assert ws[..n][k] == ws[k] && vs[..n][k] == vs[k];
    }
  }

  /** Decoding an encoded struct gives back its values, whatever follows it. */
  lemma {:induction false} DecodeEncodeFields(vs: seq<nat>, ws: seq<nat>, tail: seq<u8>)
    requires Fits(vs, ws)
    ensures Size(ws) <= |EncodeFields(vs, ws) + tail|
    ensures DecodeFields(EncodeFields(vs, ws) + tail, ws) == vs
  {
    var e := EncodeFields(vs, ws);
    var s := e + tail;
    var d := DecodeFields(s, ws);
    forall k | 0 <= k < |ws|
      ensures d[k] == vs[k]
    {
      FieldOfEncoded(vs, ws, tail, k);
    }
  }

  lemma FieldOfEncoded(vs: seq<nat>, ws: seq<nat>, tail: seq<u8>, k: nat)
    requires Fits(vs, ws) && k < |ws|
    ensures Size(ws) <= |EncodeFields(vs, ws) + tail|
    ensures Field(EncodeFields(vs, ws) + tail, ws, k) == vs[k]
  {
    var e := EncodeFields(vs, ws);
    EncodeFieldsAt(vs, ws, k);
    var o := Offset(ws, k);
    FieldValue(e + tail, ws, k);
    assert (e + tail)[o..o + ws[k]] == Bytes(vs[k], ws[k]);
    ValueAtBytes(e + tail, o, ws[k], vs[k]);
  }

  lemma ValueAtBytes(s: seq<u8>, o: nat, w: nat, x: nat)
    requires o + w <= |s| && x < Pow256(w) && s[o..o + w] == Bytes(x, w)
    ensures ValueAt(s, o, w) == x
  {
    ValueOfBytes(x, w);
  }

  /** Encoding the decoded fields of `s` gives back the bytes of the struct. */
  lemma {:induction false} EncodeDecodeFields(s: seq<u8>, ws: seq<nat>)
    requires Size(ws) <= |s|
    ensures EncodeFields(DecodeFields(s, ws), ws) == s[..Size(ws)]
  {
    if ws != [] {
      var n := |ws| - 1;
      OffsetPrefix(ws, n, n);
      DecodePrefix(s, ws, n);
      EncodeDecodeFields(s, ws[..n]);
      EncodeLastField(s, ws);
    }
  }

  /** The step of `EncodeDecodeFields`: the last field re-encodes to its bytes,
      right after the re-encoded front fields. */
  lemma EncodeLastField(s: seq<u8>, ws: seq<nat>)
    requires ws != [] && Size(ws) <= |s|
    requires Size(ws[..|ws| - 1]) == Offset(ws, |ws| - 1)
    requires EncodeFields(DecodeFields(s, ws)[..|ws| - 1], ws[..|ws| - 1]) == s[..Offset(ws, |ws| - 1)]
    ensures EncodeFields(DecodeFields(s, ws), ws) == s[..Size(ws)]
  {
    LastFieldBytes(s, ws);
    EncodeSnocPrefix(DecodeFields(s, ws), ws, s);
  }

  lemma LastFieldBytes(s: seq<u8>, ws: seq<nat>)
    requires ws != [] && Size(ws) <= |s|
    ensures Offset(ws, |ws| - 1) + ws[|ws| - 1] == Size(ws)
    ensures Bytes(DecodeFields(s, ws)[|ws| - 1], ws[|ws| - 1]) == s[Offset(ws, |ws| - 1)..Size(ws)]
  {
    var n := |ws| - 1;
    SizeLast(ws);
    var o, w := Offset(ws, n), ws[n];
    DecodeFieldsAt(s, ws, n);
    FieldValue(s, ws, n);
    BytesOfValueAt(s, o, w);
  }

  /** The bytes a value was read from are the bytes it writes back. */
  lemma BytesOfValueAt(s: seq<u8>, o: nat, w: nat)
    requires o + w <= |s|
    ensures Bytes(ValueAt(s, o, w), w) == s[o..o + w]
  {
    BytesOfValue(s[o..o + w]);
  }

  lemma SizeLast(ws: seq<nat>)
    requires ws != []
    ensures Offset(ws, |ws| - 1) + ws[|ws| - 1] == Size(ws)
  {
  }

  lemma DecodeFieldsAt(s: seq<u8>, ws: seq<nat>, k: nat)
    requires k < |ws| && Size(ws) <= |s|
    ensures DecodeFields(s, ws)[k] == Field(s, ws, k)
  {
  }

  lemma FieldValue(s: seq<u8>, ws: seq<nat>, k: nat)
    requires k < |ws| && Size(ws) <= |s|
    ensures Offset(ws, k) + ws[k] <= |s|
    ensures Field(s, ws, k) == ValueAt(s, Offset(ws, k), ws[k])
  {
    OffsetMonotone(ws, k + 1, |ws|);
  }

  lemma EncodeSnocPrefix(d: seq<nat>, ws: seq<nat>, s: seq<u8>)
    requires |d| == |ws| && ws != [] && Size(ws) <= |s|
    requires Offset(ws, |ws| - 1) + ws[|ws| - 1] == Size(ws)
    requires EncodeFields(d[..|ws| - 1], ws[..|ws| - 1]) == s[..Offset(ws, |ws| - 1)]
    requires Bytes(d[|ws| - 1], ws[|ws| - 1]) == s[Offset(ws, |ws| - 1)..Size(ws)]
    ensures EncodeFields(d, ws) == s[..Size(ws)]
  {
    EncodeFieldsSnoc(d, ws);
    SplitPrefix(s, Offset(ws, |ws| - 1), Size(ws));
  }

  /** Unfolds `EncodeFields` once. */
  lemma EncodeFieldsSnoc(vs: seq<nat>, ws: seq<nat>)
    requires |vs| == |ws| && ws != []
    ensures EncodeFields(vs, ws) == EncodeFields(vs[..|ws| - 1], ws[..|ws| - 1]) + Bytes(vs[|ws| - 1], ws[|ws| - 1])
  {
  }

  lemma SplitPrefix(s: seq<u8>, i: nat, j: nat)
    requires i <= j <= |s|
    ensures s[..j] == s[..i] + s[i..j]
  {
  }

  lemma {:induction false} DecodePrefix(s: seq<u8>, ws: seq<nat>, n: nat)
    requires n <= |ws| && Size(ws) <= |s|
    ensures Size(ws[..n]) <= |s|
    ensures DecodeFields(s, ws)[..n] == DecodeFields(s, ws[..n])
  {
    OffsetPrefix(ws, n, n);
    OffsetMonotone(ws, n, |ws|);
    var d := DecodeFields(s, ws);
    var dn := DecodeFields(s, ws[..n]);
    forall k | 0 <= k < n
      ensures d[k] == dn[k]
    {
      FieldPrefix(s, ws, n, k);
    }
  }

  lemma FieldPrefix(s: seq<u8>, ws: seq<nat>, n: nat, k: nat)
    requires k < n <= |ws| && Size(ws) <= |s| && Size(ws[..n]) <= |s|
    ensures Field(s, ws, k) == Field(s, ws[..n], k)
  {
    OffsetPrefix(ws, n, k);
    assert ws[..n][k] == ws[k];
  }
}
