/** The DataView reads the decoders use: fixed-width unsigned and two's-complement
    integers of 1, 2 or 4 bytes, big-endian (the DataView default) or
    little-endian, failing with a RangeError past the end of the view. */
module ByteView {
  import opened Values

  function Pow256(n: nat): (r: nat)
    ensures r > 0
  {
    if n == 0 then 1 else 256 * Pow256(n - 1)
  }

  /** The unsigned value of bytes stored least-significant first. */
  function FromLE(s: seq<Byte>): nat
  {
    if s == [] then 0 else s[0] + 256 * FromLE(s[1..])
  }

  /** The unsigned value of bytes stored most-significant first. */
  function FromBE(s: seq<Byte>): nat
  {
    if s == [] then 0 else 256 * FromBE(s[..|s| - 1]) + s[|s| - 1]
  }

  /** `n` written in `width` bytes, least-significant first. */
  function ToLE(n: nat, width: nat): (r: seq<Byte>)
    ensures |r| == width
  {
    if width == 0 then [] else [n % 256] + ToLE(n / 256, width - 1)
  }

  /** `n` written in `width` bytes, most-significant first. */
  function ToBE(n: nat, width: nat): (r: seq<Byte>)
    ensures |r| == width
  {
    if width == 0 then [] else ToBE(n / 256, width - 1) + [n % 256]
  }

  lemma {:induction false} FromLEBound(s: seq<Byte>)
    ensures FromLE(s) < Pow256(|s|)
  {
    if s != [] {
      FromLEBound(s[1..]);
    }
  }

  lemma {:induction false} FromBEBound(s: seq<Byte>)
    ensures FromBE(s) < Pow256(|s|)
  {
    if s != [] {
      FromBEBound(s[..|s| - 1]);
    }
  }

  /** Writing a value that fits and reading it back gives the value. */
  lemma {:induction false} LERoundTrip(n: nat, width: nat)
    requires n < Pow256(width)
    ensures FromLE(ToLE(n, width)) == n
  {
    if width > 0 {
      LERoundTrip(n / 256, width - 1);
      assert ToLE(n, width)[1..] == ToLE(n / 256, width - 1);
    }
  }

  lemma {:induction false} BERoundTrip(n: nat, width: nat)
    requires n < Pow256(width)
    ensures FromBE(ToBE(n, width)) == n
  {
    if width > 0 {
      BERoundTrip(n / 256, width - 1);
      var s := ToBE(n, width);
      assert s[..|s| - 1] == ToBE(n / 256, width - 1);
    }
  }

  /** Reading bytes and writing the value back gives the same bytes. */
  lemma {:induction false} LEBytesRoundTrip(s: seq<Byte>)
    ensures FromLE(s) < Pow256(|s|) && ToLE(FromLE(s), |s|) == s
  {
    FromLEBound(s);
    if s != [] {
      LEBytesRoundTrip(s[1..]);
      assert FromLE(s) % 256 == s[0] && FromLE(s) / 256 == FromLE(s[1..]);
    }
  }

  lemma {:induction false} BEBytesRoundTrip(s: seq<Byte>)
    ensures FromBE(s) < Pow256(|s|) && ToBE(FromBE(s), |s|) == s
  {
    FromBEBound(s);
    if s != [] {
      var init := s[..|s| - 1];
      BEBytesRoundTrip(init);
      assert FromBE(s) % 256 == s[|s| - 1] && FromBE(s) / 256 == FromBE(init);
      assert s == init + [s[|s| - 1]];
    }
  }

  /** Two's-complement reading of an unsigned `width`-byte value. */
  function ToSigned(u: int, width: nat): int
  {
    if u < Pow256(width) / 2 then u else u - Pow256(width)
  }

  /** Two's-complement encoding of a signed `width`-byte value. */
  function ToUnsigned(i: int, width: nat): int
  {
    if i < 0 then i + Pow256(width) else i
  }

  /** The value formats of the DataView getters the decoders call. */
  datatype Format =
    | Uint8
    | Int8
    | Uint16(littleEndian: bool)
    | Int16(littleEndian: bool)
    | Uint32(littleEndian: bool)
    | Int32(littleEndian: bool)
  {
    function Width(): (w: nat)
      ensures w == 1 || w == 2 || w == 4
    {
      match this
      case Uint8 | Int8 => 1
      case Uint16(_) | Int16(_) => 2
      case Uint32(_) | Int32(_) => 4
    }

    predicate Signed() {
      Int8? || Int16? || Int32?
    }

    predicate LittleEndian() {
      (Uint16? || Int16? || Uint32? || Int32?) && littleEndian
    }

    /** The values the format can hold. */
    predicate Holds(x: int) {
      if Signed() then -(Pow256(Width()) / 2) <= x < Pow256(Width()) / 2
      else 0 <= x < Pow256(Width())
    }
  }

  /** The unsigned value of the bytes of `f` at `offset`. */
  function Unsigned(f: Format, view: seq<Byte>, offset: nat): nat
    requires offset + f.Width() <= |view|
  {
    var bytes := view[offset..offset + f.Width()];
    if f.LittleEndian() then FromLE(bytes) else FromBE(bytes)
  }

  /** `view.getXxx(offset, littleEndian)`: the value of format `f` stored at
      `offset`, or a RangeError when the field runs past the end of the view. */
  function Get(f: Format, view: seq<Byte>, offset: nat): (r: Result<int, DecodeError>)
    ensures r.Err? <==> offset + f.Width() > |view|
    ensures r.Err? ==> r.error == RangeError
    ensures r.Ok? ==> f.Holds(r.value)
  {
    if offset + f.Width() > |view| then Err(RangeError)
    else
      var bytes := view[offset..offset + f.Width()];
      var u := Unsigned(f, view, offset);
      assert u < Pow256(f.Width()) by {
        if f.LittleEndian() { FromLEBound(bytes); } else { FromBEBound(bytes); }
      }
      Ok(if f.Signed() then ToSigned(u, f.Width()) else u)
  }

  /** The bytes that a DataView setter of format `f` stores for `x`. */
  function Encode(f: Format, x: int): (r: seq<Byte>)
    requires f.Holds(x)
    ensures |r| == f.Width()
  {
    var u := if f.Signed() then ToUnsigned(x, f.Width()) else x;
    if f.LittleEndian() then ToLE(u, f.Width()) else ToBE(u, f.Width())
  }

  /** Every value a format holds is read back from its encoding. */
  lemma GetEncode(f: Format, x: int)
    requires f.Holds(x)
    ensures Get(f, Encode(f, x), 0) == Ok(x)
  {
    var w := f.Width();
    var u := if f.Signed() then ToUnsigned(x, w) else x;
    var bytes := Encode(f, x);
    assert bytes[0..w] == bytes;
    if f.LittleEndian() { LERoundTrip(u, w); } else { BERoundTrip(u, w); }
  }

  /** Every field of a view is the encoding of the value read from it. */
  lemma EncodeGet(f: Format, view: seq<Byte>, offset: nat)
    requires offset + f.Width() <= |view|
    ensures Get(f, view, offset).Ok?
    ensures Encode(f, Get(f, view, offset).value) == view[offset..offset + f.Width()]
  {
    var w := f.Width();
    var bytes := view[offset..offset + w];
    if f.LittleEndian() { LEBytesRoundTrip(bytes); } else { BEBytesRoundTrip(bytes); }
  }

  /** A little-endian unsigned 16-bit field is its low byte plus 256 times its high byte. */
  lemma Uint16LEBytes(view: seq<Byte>, offset: nat)
    requires offset + 2 <= |view|
    ensures Get(Uint16(true), view, offset) == Ok(view[offset] as int + 256 * view[offset + 1] as int)
  {
    var bytes := view[offset..offset + 2];
    assert bytes[1..][1..] == [];
    assert FromLE(bytes) == bytes[0] + 256 * (bytes[1] + 256 * FromLE(bytes[1..][1..]));
  }

  /** A big-endian 16-bit field is 256 times its first byte plus its second. */
  lemma Unsigned16BE(f: Format, view: seq<Byte>, offset: nat)
    requires f == Uint16(false) || f == Int16(false)
    requires offset + 2 <= |view|
    ensures Unsigned(f, view, offset) == 256 * view[offset] as int + view[offset + 1] as int
  {
    var bytes := view[offset..offset + 2];
    assert bytes[..1][..0] == [];
    assert FromBE(bytes[..1]) == bytes[0];
    assert FromBE(bytes) == 256 * bytes[0] as int + bytes[1] as int;
  }

  /** A field encoded in the middle of a view is read back at its offset. */
  lemma GetAt(f: Format, x: int, before: seq<Byte>, after: seq<Byte>)
    requires f.Holds(x)
    ensures Get(f, before + Encode(f, x) + after, |before|) == Ok(x)
  {
    var e := Encode(f, x);
    var view := before + e + after;
    assert view[|before|..|before| + f.Width()] == e == e[0..f.Width()];
    GetEncode(f, x);
  }

  /** An unsigned byte field is the byte itself. */
  lemma Uint8Byte(view: seq<Byte>, offset: nat)
    requires offset < |view|
    ensures Get(Uint8, view, offset) == Ok(view[offset] as int)
  {
    var bytes := view[offset..offset + 1];
    assert bytes[..0] == [];
  }

  /** A signed byte field is the byte's two's-complement value. */
  lemma Int8Byte(view: seq<Byte>, offset: nat)
    requires offset < |view|
    ensures Get(Int8, view, offset) == Ok(if view[offset] < 128 then view[offset] as int else view[offset] as int - 256)
  {
    var bytes := view[offset..offset + 1];
    assert bytes[..0] == [];
  }
}
