/** Little-endian byte encodings of the fixed-width fields of the telemetry
    datagram: single bytes, 16-bit and 32-bit words, and the two's-complement
    reading of signed fields. */
module Wire {
  import opened Primitives

  /** The four bytes of a 32-bit word, least significant first. */
  function WordBytes(w: uint32): (r: seq<uint8>)
    ensures |r| == 4
  {
    [w % 0x100, (w / 0x100) % 0x100, (w / 0x1_0000) % 0x100, w / 0x100_0000]
  }

  /** The 32-bit word whose little-endian bytes are `b`. */
  function LeWord(b: seq<uint8>): (w: uint32)
    requires |b| == 4
    ensures WordBytes(w) == b
  {
    var w: int := b[0] as int + 0x100 * (b[1] as int) + 0x1_0000 * (b[2] as int) + 0x100_0000 * (b[3] as int);
    var b0, b1, b2, b3: int := b[0], b[1], b[2], b[3];
    assert w % 0x100 == b0;
    assert w / 0x100 == b1 + 0x100 * b2 + 0x1_0000 * b3;
    assert w / 0x1_0000 == b2 + 0x100 * b3;
    assert w / 0x100_0000 == b3;
    w
  }

  lemma LeWordOfWordBytes(w: uint32)
    ensures LeWord(WordBytes(w)) == w
  {
    var b := WordBytes(w);
    var q1, q2, q3 := w / 0x100, w / 0x1_0000, w / 0x100_0000;
    assert q2 == q1 / 0x100;
    assert q3 == q2 / 0x100;
    assert w == b[0] + 0x100 * q1;
    assert q1 == b[1] + 0x100 * q2;
    assert q2 == b[2] + 0x100 * q3;
  }

  /** The two bytes of a 16-bit value, least significant first. */
  function U16Bytes(v: uint16): (r: seq<uint8>)
    ensures |r| == 2
  {
    [v % 0x100, v / 0x100]
  }

  function LeU16(b: seq<uint8>): (v: uint16)
    requires |b| == 2
    ensures U16Bytes(v) == b
  {
    b[0] as int + 0x100 * (b[1] as int)
  }

  lemma LeU16OfU16Bytes(v: uint16)
    ensures LeU16(U16Bytes(v)) == v
  {
  }

  /** A signed 32-bit field read from its word (two's complement). */
  function WordToI32(w: uint32): (v: int32)
    ensures (v - w) % TWO_32 == 0
    ensures (if v >= 0 then v else v + TWO_32) == w
  {
    if w < 0x8000_0000 then w else w - TWO_32
  }

  function I32ToWord(v: int32): (w: uint32)
    ensures WordToI32(w) == v
  {
    if v >= 0 then v else v + TWO_32
  }

  lemma I32ToWordOfWord(w: uint32)
    ensures I32ToWord(WordToI32(w)) == w
  {
  }

  /** A signed byte read from its bit pattern (two's complement). */
  function ByteToI8(b: uint8): (v: int8)
    ensures (v - b) % 0x100 == 0
    ensures (if v >= 0 then v else v + 0x100) == b
  {
    if b < 0x80 then b else b - 0x100
  }

  function I8ToByte(v: int8): (b: uint8)
    ensures ByteToI8(b) == v
  {
    if v >= 0 then v else v + 0x100
  }

  lemma I8ToByteOfByte(b: uint8)
    ensures I8ToByte(ByteToI8(b)) == b
  {
  }

  /** The concatenated little-endian encoding of a run of 32-bit words. */
  function WordsToBytes(ws: seq<uint32>): (r: seq<uint8>)
    ensures |r| == 4 * |ws|
  {
    if ws == [] then [] else WordBytes(ws[0]) + WordsToBytes(ws[1..])
  }

  /** A byte run whose length is a multiple of 4, read as consecutive words. */
  function BytesToWords(b: seq<uint8>): (ws: seq<uint32>)
    requires |b| % 4 == 0
    ensures 4 * |ws| == |b|
  {
    if b == [] then [] else [LeWord(b[..4])] + BytesToWords(b[4..])
  }

  lemma {:induction false} BytesToWordsOfWordsToBytes(ws: seq<uint32>)
    ensures BytesToWords(WordsToBytes(ws)) == ws
  {
    if ws != [] {
      var b := WordsToBytes(ws);
      assert b[..4] == WordBytes(ws[0]);
      assert b[4..] == WordsToBytes(ws[1..]);
      LeWordOfWordBytes(ws[0]);
      BytesToWordsOfWordsToBytes(ws[1..]);
    }
  }

  lemma {:induction false} WordsToBytesOfBytesToWords(b: seq<uint8>)
    requires |b| % 4 == 0
    ensures WordsToBytes(BytesToWords(b)) == b
  {
    if b != [] {
      var ws := BytesToWords(b);
      assert ws[0] == LeWord(b[..4]);
      assert ws[1..] == BytesToWords(b[4..]);
      WordsToBytesOfBytesToWords(b[4..]);
      assert b == b[..4] + b[4..];
    }
  }

  /** Word `k` of a byte run is read from bytes 4k .. 4k+3. */
  lemma {:induction false} BytesToWordsAt(b: seq<uint8>, k: nat)
    requires |b| % 4 == 0 && 4 * k + 4 <= |b|
    ensures BytesToWords(b)[k] == LeWord(b[4 * k .. 4 * k + 4])
  {
    if k > 0 {
      BytesToWordsAt(b[4..], k - 1);
      var j := 4 * (k - 1);
      assert j + 4 == 4 * k;
      assert b[4..][j .. j + 4] == b[j + 4 .. j + 8];
    }
  }
}
