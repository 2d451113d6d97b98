/**
 * Reading a tag id from the MFRC522 reader (`get_tag_id`): the two transceiver calls are
 * given as their results, and the UID bytes are folded into one integer, most significant
 * byte first, with `id_number = (id_number << 8) | uid[i]` on Python's unbounded integers.
 */
module TagReader {
  import opened Options

  type byte = b: int | 0 <= b < 256

  /** What the reader answered this tick: the status of `request`, of `anticoll`, and the UID. */
  datatype ReaderReply = ReaderReply(requestOk: bool, anticollOk: bool, uid: seq<byte>)

  function Pow2(k: nat): nat
  {
    if k == 0 then 1 else 2 * Pow2(k - 1)
  }

  function Pow256(n: nat): nat
  {
    if n == 0 then 1 else 256 * Pow256(n - 1)
  }

  /** Python's `|` on non-negative integers, bit by bit from the least significant end. */
  function BitOr(a: nat, b: nat): nat
    decreases a + b
  {
    if a == 0 then b
    else if b == 0 then a
    else 2 * BitOr(a / 2, b / 2) + (if a % 2 == 1 || b % 2 == 1 then 1 else 0)
  }

  /** The value of `uid` read as a big-endian base-256 numeral. */
  function BigEndian(uid: seq<byte>): nat
  {
    if uid == [] then 0 else BigEndian(uid[..|uid| - 1]) * 256 + uid[|uid| - 1]
  }

  /** The `len` big-endian bytes of `n` (the low ones when `n` needs more). */
  function ToBytes(n: nat, len: nat): (r: seq<byte>)
    ensures |r| == len
  {
    if len == 0 then [] else ToBytes(n / 256, len - 1) + [n % 256]
  }

  /** OR-ing into bits that a shift left by `k` has cleared is addition. */
  lemma {:induction false} OrIntoClearedBits(x: nat, k: nat, b: nat)
    requires b < Pow2(k)
    ensures BitOr(x * Pow2(k), b) == x * Pow2(k) + b
  {
    var a := x * Pow2(k);
    if a != 0 && b != 0 {
      assert k > 0;
      var h := x * Pow2(k - 1);
      assert Pow2(k) == 2 * Pow2(k - 1);
      assert a == x * (2 * Pow2(k - 1)) == 2 * h;
      assert a / 2 == h && a % 2 == 0;
      assert b / 2 < Pow2(k - 1);
      OrIntoClearedBits(x, k - 1, b / 2);
      assert BitOr(a, b) == 2 * BitOr(h, b / 2) + b % 2;
    }
  }

  /** One step of the fold: `(x << 8) | b` is `x * 256 + b` for a byte `b`. */
  lemma ShiftOrByte(x: nat, b: byte)
    ensures BitOr(x * 256, b) == x * 256 + b
  {
    assert Pow2(8) == 256;
    OrIntoClearedBits(x, 8, b);
  }

  /** An `n`-byte UID folds to a value below 256^n. */
  lemma {:induction false} BigEndianBound(uid: seq<byte>)
    ensures BigEndian(uid) < Pow256(|uid|)
  {
    if uid != [] {
      var p := uid[..|uid| - 1];
      BigEndianBound(p);
      assert BigEndian(p) + 1 <= Pow256(|p|);
      assert (BigEndian(p) + 1) * 256 <= Pow256(|p|) * 256;
    }
  }

  /** The bytes can be recovered from the folded value and the UID length. */
  lemma {:induction false} BytesOfBigEndian(uid: seq<byte>)
    ensures ToBytes(BigEndian(uid), |uid|) == uid
  {
    if uid != [] {
      var p := uid[..|uid| - 1];
      var v := BigEndian(uid);
      assert v / 256 == BigEndian(p) && v % 256 == uid[|uid| - 1];
      BytesOfBigEndian(p);
      assert p + [uid[|uid| - 1]] == uid;
    }
  }

  /** Every value below 256^len is the fold of its own `len` bytes. */
  lemma {:induction false} BigEndianOfBytes(n: nat, len: nat)
    requires n < Pow256(len)
    ensures BigEndian(ToBytes(n, len)) == n
  {
    if len > 0 {
      var q, low := n / 256, n % 256;
      var r := ToBytes(n, len);
      assert r == ToBytes(q, len - 1) + [low];
      assert r[..len - 1] == ToBytes(q, len - 1) && r[len - 1] == low;
      assert n == q * 256 + low;
      assert q < Pow256(len - 1);
      BigEndianOfBytes(q, len - 1);
      assert BigEndian(r) == BigEndian(ToBytes(q, len - 1)) * 256 + low;
    }
  }

  /** The loop of `get_tag_id` that packs the UID bytes into one integer. */
  method FoldUid(uid: seq<byte>) returns (id: nat)
    ensures id == BigEndian(uid)
  {
    id := 0;
    for i := 0 to |uid|
      invariant id == BigEndian(uid[..i])
    {
      assert uid[..i + 1][..i] == uid[..i];
      ShiftOrByte(id, uid[i]);
      id := BitOr(id * 256, uid[i]);
    }
    assert uid[..|uid|] == uid;
  }

  /** The tag id the controller sees this tick: none unless both reader calls report OK. */
  function TagIdOf(reply: ReaderReply): (id: Option<nat>)
    ensures id.Some? <==> reply.requestOk && reply.anticollOk
    ensures id.Some? ==> id.value == BigEndian(reply.uid) && id.value < Pow256(|reply.uid|)
  {
    if !reply.requestOk || !reply.anticollOk then None
    else
      BigEndianBound(reply.uid);
      Some(BigEndian(reply.uid))
  }

  /** `get_tag_id`: the status checks in order, then the fold. */
  method GetTagId(reply: ReaderReply) returns (id: Option<nat>)
    ensures id == TagIdOf(reply)
  {
    if !reply.requestOk {
      return None;
    }
    if !reply.anticollOk {
      return None;
    }
    var n := FoldUid(reply.uid);
    return Some(n);
  }
}
