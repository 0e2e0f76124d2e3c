/**
 * The `BinarySerialize` protocol: every encodable value reports the exact
 * number of bytes it needs and writes itself into a caller-supplied byte
 * region, failing when the region is shorter than that.
 *
 * The Rust trait and its implementations for `u8`, `u16`, `u32`, `i16`,
 * `WavFormat` and `Vec<T>` become one sum type, `Encodable`, with one
 * constructor per implementation. A Rust sub-slice `&mut buffer[lo..hi]` is
 * the window [lo, hi) of an array; a method may write only inside it.
 */
module BinarySerialize {
  import opened LittleEndian

  /** The result of `serialize`: `Ok(())` or `Err(())`. */
  datatype Outcome = Ok | Err

  /** The format tag; `#[repr(u16)]` with `PCM = 1`. */
  datatype WavFormat = PCM

  function FormatCode(f: WavFormat): uint16
  {
    match f
    case PCM => 1
  }

  datatype Encodable =
    | U8(u8: uint8)
    | U16(u16: uint16)
    | U32(u32: uint32)
    | I16(i16: int16)
    | Format(format: WavFormat)
    | Vec(elems: seq<Encodable>)

  /** `needed_size`: a constant per scalar; a vector multiplies its length by its first element's size. */
  function NeededSize(e: Encodable): nat
  {
    match e
    case U8(_) => 1
    case U16(_) => 2
    case U32(_) => 4
    case I16(_) => 2
    case Format(_) => 2
    case Vec(es) => if |es| == 0 then 0 else |es| * NeededSize(es[0])
  }

  /**
   * A `Vec<T>` holds values of one Rust type, so all its elements need the same
   * number of bytes; the size rule of `Vec::needed_size` is only right then.
   */
  ghost predicate Homogeneous(e: Encodable)
  {
    match e
    case Vec(es) =>
      forall i :: 0 <= i < |es| ==> Homogeneous(es[i]) && NeededSize(es[i]) == NeededSize(es[0])
    case _ => true
  }

  /** The bytes a successful `serialize` writes: the reference encoding. */
  function Wire(e: Encodable): seq<uint8>
    decreases e, 1
  {
    match e
    case U8(b) => [b]
    case U16(v) => EncodeU16(v)
    case U32(v) => EncodeU32(v)
    case I16(x) => EncodeI16(x)
    case Format(f) => EncodeU16(FormatCode(f))
    case Vec(es) => WireAll(es, |es|)
  }

  /** The encodings of the first `n` elements of `es`, concatenated in order. */
  function WireAll(es: seq<Encodable>, n: nat): seq<uint8>
    requires n <= |es|
    decreases Vec(es), 0, n
  {
    if n == 0 then [] else WireAll(es, n - 1) + Wire(es[n - 1])
  }

  /** A homogeneous value's encoding is exactly `needed_size` bytes long. */
  lemma {:induction false} WireLength(e: Encodable)
    requires Homogeneous(e)
    ensures |Wire(e)| == NeededSize(e)
    decreases e, 1
  {
    match e
    case Vec(es) =>
      if |es| > 0 {
        WireAllLength(es, |es|);
      }
    case _ =>
  }

  lemma {:induction false} WireAllLength(es: seq<Encodable>, n: nat)
    requires 0 < n <= |es|
    requires Homogeneous(Vec(es))
    ensures |WireAll(es, n)| == n * NeededSize(es[0])
    decreases Vec(es), 0, n
  {
    var k := NeededSize(es[0]);
    assert Homogeneous(es[n - 1]) && NeededSize(es[n - 1]) == k;
    WireLength(es[n - 1]);
    if n > 1 {
      WireAllLength(es, n - 1);
      MulSucc(n, k);
    }
  }

  /**
   * In a vector of `k`-byte elements, element `i` is encoded at bytes
   * [i*k, (i+1)*k): the `off` accumulator of `Vec::serialize`.
   */
  lemma {:induction false} WireAllAt(es: seq<Encodable>, n: nat, i: nat)
    requires i < n <= |es|
    requires Homogeneous(Vec(es))
    ensures |WireAll(es, n)| == n * NeededSize(es[0])
    ensures WireAll(es, n)[i * NeededSize(es[0])..(i + 1) * NeededSize(es[0])] == Wire(es[i])
  {
    var k := NeededSize(es[0]);
    var before := WireAll(es, i);
    var upTo := WireAll(es, i + 1);
    assert upTo == before + Wire(es[i]);
    assert Homogeneous(es[i]) && NeededSize(es[i]) == k;
    WireLength(es[i]);
    assert |before| == i * k by {
      if i > 0 {
        WireAllLength(es, i);
      }
    }
    MulSucc(i + 1, k);
    WireAllPrefix(es, i + 1, n);
    WireAllLength(es, n);
    assert WireAll(es, n)[|before|..|upTo|] == upTo[|before|..|upTo|];
  }

  /** The encoding of the first `m` elements is a prefix of that of the first `n`. */
  lemma {:induction false} WireAllPrefix(es: seq<Encodable>, m: nat, n: nat)
    requires m <= n <= |es|
    ensures |WireAll(es, m)| <= |WireAll(es, n)|
    ensures WireAll(es, n)[..|WireAll(es, m)|] == WireAll(es, m)
    decreases n
  {
    if m < n {
      WireAllPrefix(es, m, n - 1);
      assert WireAll(es, n) == WireAll(es, n - 1) + Wire(es[n - 1]);
    }
  }

  lemma MulSucc(n: nat, k: nat)
    requires n > 0
    ensures n * k == (n - 1) * k + k
  {
  }

  lemma MulMono(a: nat, b: nat, k: nat)
    requires a <= b
    ensures a * k <= b * k
  {
  }

  /** `after` differs from `before` at most inside [lo, hi). */
  ghost predicate SameOutside(before: seq<uint8>, after: seq<uint8>, lo: int, hi: int)
  {
    |before| == |after| &&
    forall i :: 0 <= i < |after| && !(lo <= i < hi) ==> after[i] == before[i]
  }

  /** `copy_from_slice`: copies `src` into the window starting at `lo`. */
  method CopyFromSlice(buf: array<uint8>, lo: nat, src: seq<uint8>)
    requires lo + |src| <= buf.Length
    modifies buf
    ensures buf[lo..lo + |src|] == src
    ensures SameOutside(old(buf[..]), buf[..], lo, lo + |src|)
  {
    var i := 0;
    while i < |src|
      invariant 0 <= i <= |src|
      invariant forall j :: 0 <= j < i ==> buf[lo + j] == src[j]
      invariant SameOutside(old(buf[..]), buf[..], lo, lo + i)
    {
      buf[lo + i] := src[i];
      i := i + 1;
    }
  }

  /** `u8::serialize`: writes the byte itself. */
  method SerializeU8(v: uint8, buf: array<uint8>, lo: nat, hi: nat) returns (r: Outcome)
    requires lo <= hi <= buf.Length
    modifies buf
    ensures r == Ok <==> NeededSize(U8(v)) <= hi - lo
    ensures r == Ok ==> buf[lo] == v && buf[lo..lo + 1] == Wire(U8(v))
    ensures SameOutside(old(buf[..]), buf[..], lo, if r == Ok then lo + 1 else lo)
  {
    if hi - lo < NeededSize(U8(v)) {
      return Err;
    }
    buf[lo] := v;
    return Ok;
  }

  /** `u16::serialize`: writes `to_le_bytes` into the first two bytes. */
  method SerializeU16(v: uint16, buf: array<uint8>, lo: nat, hi: nat) returns (r: Outcome)
    requires lo <= hi <= buf.Length
    modifies buf
    ensures r == Ok <==> NeededSize(U16(v)) <= hi - lo
    ensures r == Ok ==> buf[lo..lo + 2] == Wire(U16(v)) && DecodeU16(buf[lo..lo + 2]) == v
    ensures SameOutside(old(buf[..]), buf[..], lo, if r == Ok then lo + 2 else lo)
  {
    if hi - lo < NeededSize(U16(v)) {
      return Err;
    }
    CopyFromSlice(buf, lo, EncodeU16(v));
    return Ok;
  }

  /** `u32::serialize`: writes `to_le_bytes` into the first four bytes. */
  method SerializeU32(v: uint32, buf: array<uint8>, lo: nat, hi: nat) returns (r: Outcome)
    requires lo <= hi <= buf.Length
    modifies buf
    ensures r == Ok <==> NeededSize(U32(v)) <= hi - lo
    ensures r == Ok ==> buf[lo..lo + 4] == Wire(U32(v)) && DecodeU32(buf[lo..lo + 4]) == v
    ensures SameOutside(old(buf[..]), buf[..], lo, if r == Ok then lo + 4 else lo)
  {
    if hi - lo < NeededSize(U32(v)) {
      return Err;
    }
    CopyFromSlice(buf, lo, EncodeU32(v));
    return Ok;
  }

  /** `i16::serialize`: writes the two's-complement `to_le_bytes`. */
  method SerializeI16(x: int16, buf: array<uint8>, lo: nat, hi: nat) returns (r: Outcome)
    requires lo <= hi <= buf.Length
    modifies buf
    ensures r == Ok <==> NeededSize(I16(x)) <= hi - lo
    ensures r == Ok ==> buf[lo..lo + 2] == Wire(I16(x)) && DecodeI16(buf[lo..lo + 2]) == x
    ensures SameOutside(old(buf[..]), buf[..], lo, if r == Ok then lo + 2 else lo)
  {
    if hi - lo < NeededSize(I16(x)) {
      return Err;
    }
    CopyFromSlice(buf, lo, EncodeI16(x));
    return Ok;
  }

  /** `WavFormat::serialize`: checks the size, then serializes the tag as a `u16`. */
  method SerializeFormat(f: WavFormat, buf: array<uint8>, lo: nat, hi: nat) returns (r: Outcome)
    requires lo <= hi <= buf.Length
    modifies buf
    ensures r == Ok <==> NeededSize(Format(f)) <= hi - lo
    ensures r == Ok ==> buf[lo..lo + 2] == Wire(Format(f)) && DecodeU16(buf[lo..lo + 2]) == FormatCode(f)
    ensures SameOutside(old(buf[..]), buf[..], lo, if r == Ok then lo + 2 else lo)
  {
    if hi - lo < NeededSize(Format(f)) {
      return Err;
    }
    r := SerializeU16(FormatCode(f), buf, lo, hi);
  }

  /** The trait method `serialize`, dispatched on the implementing type. */
  method Serialize(e: Encodable, buf: array<uint8>, lo: nat, hi: nat) returns (r: Outcome)
    requires lo <= hi <= buf.Length
    requires Homogeneous(e)
    modifies buf
    ensures r == Ok <==> NeededSize(e) <= hi - lo
    ensures r == Ok ==> buf[lo..lo + NeededSize(e)] == Wire(e)
    ensures SameOutside(old(buf[..]), buf[..], lo, if r == Ok then lo + NeededSize(e) else lo)
    decreases e, 1, 0
  {
    match e
    case U8(v) => r := SerializeU8(v, buf, lo, hi);
    case U16(v) => r := SerializeU16(v, buf, lo, hi);
    case U32(v) => r := SerializeU32(v, buf, lo, hi);
    case I16(x) => r := SerializeI16(x, buf, lo, hi);
    case Format(f) => r := SerializeFormat(f, buf, lo, hi);
    case Vec(es) => r := SerializeVec(es, buf, lo, hi);
  }

  /**
   * `Vec<T>::serialize`: checks the size once, then serializes each element
   * into the window that starts at the running offset `off`.
   */
  method SerializeVec(es: seq<Encodable>, buf: array<uint8>, lo: nat, hi: nat) returns (r: Outcome)
    requires lo <= hi <= buf.Length
    requires Homogeneous(Vec(es))
    modifies buf
    ensures r == Ok <==> NeededSize(Vec(es)) <= hi - lo
    ensures r == Ok ==> buf[lo..lo + NeededSize(Vec(es))] == Wire(Vec(es))
    ensures SameOutside(old(buf[..]), buf[..], lo, if r == Ok then lo + NeededSize(Vec(es)) else lo)
    decreases Vec(es), 0, 0
  {
    if hi - lo < NeededSize(Vec(es)) {
      return Err;
    }
    var k := if |es| == 0 then 0 else NeededSize(es[0]);
    var off := 0;
    var i := 0;
    while i < |es|
      invariant 0 <= i <= |es|
      invariant off == i * k
      invariant off <= NeededSize(Vec(es))
      invariant buf[lo..lo + off] == WireAll(es, i)
      invariant SameOutside(old(buf[..]), buf[..], lo, lo + off)
    {
      var val := es[i];
      var size := NeededSize(val);
      assert size == k && Homogeneous(val);
      assert off + size <= NeededSize(Vec(es)) by {
        MulSucc(i + 1, k);
        MulMono(i + 1, |es|, k);
      }
      ghost var prefix := buf[lo..lo + off];
      var rv := Serialize(val, buf, lo + off, lo + off + size);
      assert rv == Ok;
      assert buf[lo..lo + off] == prefix;
      assert buf[lo..lo + off + size] == buf[lo..lo + off] + buf[lo + off..lo + off + size];
      off := off + size;
      i := i + 1;
      assert off == i * k by { MulSucc(i, k); }
    }
    return Ok;
  }
}
