/** The leaf codecs of smartyparse/parsers.py: each is a pure pair
    `Pack(obj) -> bytes` / `Unpack(bytes) -> obj` with a fixed length or
    none. `struct` packing is written out as arithmetic. */
module Parsers {
  import opened Values

  datatype Endian = Big | Little

  /** One value per codec class; the constructor arguments the source
      stores in `__init__` are the datatype fields. */
  datatype Codec =
    | IntCodec(width: nat, signed: bool, endian: Endian)  // _StructParserBase: Int8/16/32/64
    | Blob(fixed: Option<nat>)
    | Padding(size: nat, pad: Byte)
    | Literal(content: seq<Byte>, verify: bool)
    | Null

  /** The `length` property of each codec. */
  function Length(c: Codec): Option<nat>
  {
    match c
    case IntCodec(w, _, _) => Some(w)
    case Blob(fixed) => fixed
    case Padding(size, _) => Some(size)
    case Literal(content, _) => Some(|content|)
    case Null => Some(0)
  }

  /** The codecs the constructors below can build. */
  predicate WellFormed(c: Codec)
  {
    c.IntCodec? ==> c.width in {1, 2, 4, 8}
  }

  // ---------------------------------------------------------------
  // Constructors
  // ---------------------------------------------------------------

  /** `_StructParserBase.__init__`: only "big" and "little" are accepted. */
  function StructEndian(endian: string): (r: Result<Endian>)
    ensures r.Ok? <==> endian == "big" || endian == "little"
    ensures r == Ok(Big) <==> endian == "big"
    ensures r.Err? ==> r.error == ValueError
  {
    if endian == "big" then Ok(Big)
    else if endian == "little" then Ok(Little)
    else Err(ValueError)
  }

  function StructParser(width: nat, signed: bool, endian: string): (r: Result<Codec>)
    requires width in {1, 2, 4, 8}
    ensures r.Ok? <==> endian == "big" || endian == "little"
    ensures r.Ok? ==> r.value.IntCodec? && WellFormed(r.value) && Length(r.value) == Some(width) && r.value.signed == signed
    ensures r.Ok? ==> (r.value.endian == Big <==> endian == "big")
    ensures r.Err? ==> r.error == ValueError
  {
    var e :- StructEndian(endian);
    Ok(IntCodec(width, signed, e))
  }

  function Int8(signed: bool, endian: string): Result<Codec>
  {
    StructParser(1, signed, endian)
  }

  function Int16(signed: bool, endian: string): Result<Codec>
  {
    StructParser(2, signed, endian)
  }

  function Int32(signed: bool, endian: string): Result<Codec>
  {
    StructParser(4, signed, endian)
  }

  function Int64(signed: bool, endian: string): Result<Codec>
  {
    StructParser(8, signed, endian)
  }

  /** `Blob.__init__`: a negative length raises ValueError inside the
      `try`, which the bare `except` turns into TypeError. */
  function NewBlob(length: Option<int>): (r: Result<Codec>)
    ensures r.Ok? <==> length.None? || length.value >= 0
    ensures r.Ok? ==> r.value.Blob? && (length.Some? ==> Length(r.value) == Some(length.value))
    ensures r.Ok? && length.None? ==> Length(r.value).None?
    ensures r.Err? ==> r.error == TypeError
  {
    match length
    case None => Ok(Blob(None))
    case Some(n) => if n < 0 then Err(TypeError) else Ok(Blob(Some(n)))
  }

  /** `Padding.__init__`: the padding byte string must have length 1. */
  function NewPadding(length: nat, paddingByte: seq<Byte>): (r: Result<Codec>)
    ensures r.Ok? <==> |paddingByte| == 1
    ensures r.Ok? ==> Length(r.value) == Some(length) && r.value.Padding? && r.value.pad == paddingByte[0]
    ensures r.Err? ==> r.error == ValueError
  {
    if |paddingByte| != 1 then Err(ValueError) else Ok(Padding(length, paddingByte[0]))
  }

  // ---------------------------------------------------------------
  // Integer arithmetic behind `struct`
  // ---------------------------------------------------------------

  function Pow256(w: nat): (p: nat)
    ensures p >= 1
  {
    if w == 0 then 1 else 256 * Pow256(w - 1)
  }

  /** The values `struct` accepts for a width/signedness pair. */
  predicate InIntRange(width: nat, signed: bool, v: int)
  {
    if signed then -(Pow256(width) / 2) <= v < Pow256(width) / 2
    else 0 <= v < Pow256(width)
  }

  /** Most significant byte first; keeps `n mod 256^w`. */
  function BigEndianBytes(n: nat, w: nat): (r: seq<Byte>)
    ensures |r| == w
  {
    if w == 0 then [] else BigEndianBytes(n / 256, w - 1) + [n % 256]
  }

  function BigEndianValue(s: seq<Byte>): nat
  {
    if s == [] then 0 else BigEndianValue(s[..|s| - 1]) * 256 + s[|s| - 1]
  }

  function Reverse(s: seq<Byte>): (r: seq<Byte>)
    ensures |r| == |s|
    ensures forall k :: 0 <= k < |s| ==> r[k] == s[|s| - 1 - k]
  {
    if s == [] then [] else Reverse(s[1..]) + [s[0]]
  }

  function Ordered(e: Endian, s: seq<Byte>): (r: seq<Byte>)
    ensures |r| == |s|
  {
    if e == Big then s else Reverse(s)
  }

  /** Two's complement representative of `v` in `width` bytes. */
  function ToUnsigned(width: nat, v: int): int
  {
    if v < 0 then v + Pow256(width) else v
  }

  function FromUnsigned(width: nat, signed: bool, u: nat): int
  {
    if signed && u >= Pow256(width) / 2 then u - Pow256(width) else u
  }

  // ---------------------------------------------------------------
  // pack / unpack
  // ---------------------------------------------------------------

  /** `pack(obj)` of each codec class. A fixed-length codec always
      produces exactly its length. */
  function Pack(c: Codec, obj: Value): (r: Result<seq<Byte>>)
    ensures r.Ok? && Length(c).Some? ==> |r.value| == Length(c).value
    ensures c.IntCodec? ==> (r.Ok? <==> obj.Int? && InIntRange(c.width, c.signed, obj.i))
    ensures c.Blob? ==> (r.Ok? <==> obj.Bytes? && (c.fixed.None? || |obj.bytes| == c.fixed.value))
    ensures c.Blob? && r.Ok? ==> r.value == obj.bytes
    ensures c.Literal? ==> (r.Ok? <==> !c.verify || obj == Bytes(c.content))
    ensures c.Literal? && r.Ok? ==> r.value == c.content
    ensures c.Padding? ==> r.Ok? && r.value == Repeat(c.pad, c.size)
    ensures c.Null? ==> r == Ok([])
    ensures r.Err? ==> (r.error == TypeError <==> c.Blob? && !obj.Bytes?)
    ensures r.Err? && r.error != TypeError ==> r.error == ParseError
  {
    match c
    case IntCodec(w, signed, e) =>
      if obj.Int? && InIntRange(w, signed, obj.i) then
        assert 0 <= ToUnsigned(w, obj.i);
        Ok(Ordered(e, BigEndianBytes(ToUnsigned(w, obj.i), w)))
      else Err(ParseError)
    case Blob(fixed) =>
      if !obj.Bytes? then Err(TypeError)
      else if fixed.Some? && |obj.bytes| != fixed.value then Err(ParseError)
      else Ok(obj.bytes)
    case Padding(size, pad) => Ok(Repeat(pad, size))
    case Literal(content, verify) =>
      if verify && obj != Bytes(content) then Err(ParseError) else Ok(content)
    case Null => Ok([])
  }

  /** `unpack(data)` of each codec class. */
  function Unpack(c: Codec, data: seq<Byte>): (r: Result<Value>)
    ensures c.IntCodec? ==> (r.Ok? <==> |data| == c.width)
    ensures c.IntCodec? && r.Ok? ==> r.value.Int?
    ensures c.Blob? ==> (r.Ok? <==> c.fixed.None? || |data| == c.fixed.value)
    ensures c.Blob? && r.Ok? ==> r.value == Bytes(data)
    ensures c.Padding? ==> (r.Ok? <==> |data| == c.size) && (r.Ok? ==> r.value == NoneV)
    ensures c.Literal? && c.verify ==> (r.Ok? <==> data == c.content) && (r.Ok? ==> r.value == Bytes(c.content))
    ensures c.Literal? && !c.verify ==> r == Ok(NoneV)
    ensures c.Null? ==> r == Ok(NoneV)
    ensures r.Err? ==> r.error == ParseError
  {
    match c
    case IntCodec(w, signed, e) =>
      if |data| != w then Err(ParseError)
      else Ok(Int(FromUnsigned(w, signed, BigEndianValue(Ordered(e, data)))))
    case Blob(fixed) =>
      if fixed.Some? && |data| != fixed.value then Err(ParseError) else Ok(Bytes(data))
    case Padding(size, _) =>
      if |data| != size then Err(ParseError) else Ok(NoneV)
    case Literal(content, verify) =>
      if !verify then Ok(NoneV)
      else if data != content then Err(ParseError)
      else Ok(Bytes(content))
    case Null => Ok(NoneV)
  }

  // ---------------------------------------------------------------
  // Round trips
  // ---------------------------------------------------------------

  lemma {:induction false} BigEndianValueBound(s: seq<Byte>)
    ensures BigEndianValue(s) < Pow256(|s|)
  {
    if s != [] {
      BigEndianValueBound(s[..|s| - 1]);
    }
  }

  /** Encoding a value below `256^w` in `w` bytes and decoding gives it back. */
  lemma {:induction false} BigEndianValueOfBytes(n: nat, w: nat)
    requires n < Pow256(w)
    ensures BigEndianValue(BigEndianBytes(n, w)) == n
  {
    if w > 0 {
      var s := BigEndianBytes(n, w);
      assert n / 256 < Pow256(w - 1);
      BigEndianValueOfBytes(n / 256, w - 1);
      assert s[..|s| - 1] == BigEndianBytes(n / 256, w - 1);
    }
  }

  /** Decoding `w` bytes and encoding the result in `w` bytes gives them back. */
  lemma {:induction false} BigEndianBytesOfValue(s: seq<Byte>)
    ensures BigEndianBytes(BigEndianValue(s), |s|) == s
  {
    if s != [] {
      var init := s[..|s| - 1];
      var n := BigEndianValue(s);
      assert n / 256 == BigEndianValue(init);
      assert n % 256 == s[|s| - 1];
      BigEndianBytesOfValue(init);
      assert s == init + [s[|s| - 1]];
    }
  }

  lemma ReverseReverse(s: seq<Byte>)
    ensures Reverse(Reverse(s)) == s
  {
  }

  lemma OrderedTwice(e: Endian, s: seq<Byte>)
    ensures Ordered(e, Ordered(e, s)) == s
  {
    if e == Little { ReverseReverse(s); }
  }

  /** An integer codec packs every in-range value to exactly its width and
      unpacks that back to the same value; out-of-range values and
      non-integers are refused with ParseError. */
  lemma IntRoundTrip(c: Codec, v: int)
    requires c.IntCodec? && c.width >= 1
    ensures Pack(c, Int(v)).Ok? <==> InIntRange(c.width, c.signed, v)
    ensures InIntRange(c.width, c.signed, v) ==>
      |Pack(c, Int(v)).value| == c.width && Unpack(c, Pack(c, Int(v)).value) == Ok(Int(v))
    ensures !InIntRange(c.width, c.signed, v) ==> Pack(c, Int(v)) == Err(ParseError)
  {
    if InIntRange(c.width, c.signed, v) {
      var u := ToUnsigned(c.width, v);
      assert 0 <= u < Pow256(c.width);
      BigEndianValueOfBytes(u, c.width);
      OrderedTwice(c.endian, BigEndianBytes(u, c.width));
    }
  }

  /** Every buffer of the right width unpacks to an in-range integer that
      packs back to the same bytes; any other width is a ParseError. */
  lemma IntBytesRoundTrip(c: Codec, data: seq<Byte>)
    requires c.IntCodec? && c.width >= 1
    ensures Unpack(c, data).Ok? <==> |data| == c.width
    ensures |data| == c.width ==>
      InIntRange(c.width, c.signed, Unpack(c, data).value.i) && Pack(c, Unpack(c, data).value) == Ok(data)
    ensures |data| != c.width ==> Unpack(c, data) == Err(ParseError)
  {
    if |data| == c.width {
      var raw := Ordered(c.endian, data);
      BigEndianValueBound(raw);
      var v := Unpack(c, data).value.i;
      assert InIntRange(c.width, c.signed, v);
      assert ToUnsigned(c.width, v) == BigEndianValue(raw);
      BigEndianBytesOfValue(raw);
      OrderedTwice(c.endian, data);
    }
  }

  /** A fixed-length blob passes its input through in both directions and
      refuses any other length. */
  lemma BlobRoundTrip(n: nat, data: seq<Byte>)
    ensures Pack(Blob(Some(n)), Bytes(data)).Ok? <==> |data| == n
    ensures Unpack(Blob(Some(n)), data).Ok? <==> |data| == n
    ensures |data| == n ==>
      Unpack(Blob(Some(n)), Pack(Blob(Some(n)), Bytes(data)).value) == Ok(Bytes(data))
  {
  }
}
