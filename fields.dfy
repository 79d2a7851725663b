/** The single-field wrapper of smartyparse/core.py: `_ParsableBase`'s
    length and slice resolution and `ParseHelper`'s pack/unpack pipeline.
    The pipeline is first written as functions over a `FieldState` (the
    fields the source keeps on the helper); class `Field` is the mutable
    helper whose methods are proved to follow those functions. */
module Fields {
  import opened Values
  import Parsers
  import opened Callbacks

  // ---------------------------------------------------------------
  // Slices of a byte buffer, with Python's clamping rules
  // ---------------------------------------------------------------

  /** `slice(start, stop)`; `stop == None` is the open-ended slice. */
  datatype Slice = Slice(start: nat, stop: Option<nat>)

  /** `_build_slice`: closed `[offset, offset+length)` unless the length is
      unknown, `open_ended` is set, or the destination is too short. */
  function MakeSlice(offset: nat, length: Option<nat>, packIntoLen: Option<nat>, openEnded: bool): (s: Slice)
    ensures s.start == offset
    ensures s.stop.None? <==>
      openEnded || length.None? || (packIntoLen.Some? && packIntoLen.value < offset + length.value)
    ensures s.stop.Some? ==> s.stop.value == offset + length.value
  {
    if openEnded || length.None? then Slice(offset, None)
    else if packIntoLen.Some? && packIntoLen.value < length.value + offset then Slice(offset, None)
    else Slice(offset, Some(offset + length.value))
  }

  /** Where a slice really starts and stops in a buffer of `len` bytes. */
  function Lo(len: nat, s: Slice): (lo: nat)
    ensures lo <= len
  {
    if s.start <= len then s.start else len
  }

  function Hi(len: nat, s: Slice): (hi: nat)
    ensures Lo(len, s) <= hi <= len
  {
    match s.stop
    case None => len
    case Some(e) => if e <= Lo(len, s) then Lo(len, s) else if e <= len then e else len
  }

  /** `buf[slice]`. */
  function SliceOf(buf: seq<Byte>, s: Slice): (r: seq<Byte>)
    ensures s.start <= |buf| && s.stop.None? ==> r == buf[s.start..]
    ensures s.stop.Some? && s.start <= s.stop.value <= |buf| ==> r == buf[s.start..s.stop.value]
  {
    buf[Lo(|buf|, s)..Hi(|buf|, s)]
  }

  /** `buf[slice] = data` on a bytearray: the slice is replaced and the
      buffer grows or shrinks to fit. */
  function SliceAssign(buf: seq<Byte>, s: Slice, data: seq<Byte>): (r: seq<Byte>)
    ensures |r| == Lo(|buf|, s) + |data| + (|buf| - Hi(|buf|, s))
    ensures r[..Lo(|buf|, s)] == buf[..Lo(|buf|, s)]
    ensures r[Lo(|buf|, s)..Lo(|buf|, s) + |data|] == data
    ensures r[Lo(|buf|, s) + |data|..] == buf[Hi(|buf|, s)..]
  {
    buf[..Lo(|buf|, s)] + data + buf[Hi(|buf|, s)..]
  }

  /** Writing through a closed slice of the data's own length overwrites
      in place; writing at the end of the buffer appends. */
  lemma AssignInPlace(buf: seq<Byte>, offset: nat, data: seq<Byte>)
    requires offset + |data| <= |buf|
    ensures SliceAssign(buf, Slice(offset, Some(offset + |data|)), data)
      == buf[..offset] + data + buf[offset + |data|..]
  {
  }

  lemma AssignAtEnd(buf: seq<Byte>, s: Slice, data: seq<Byte>)
    requires s.start == |buf|
    ensures SliceAssign(buf, s, data) == buf + data
  {
    assert buf[..|buf|] == buf;
  }

  // ---------------------------------------------------------------
  // Length resolution
  // ---------------------------------------------------------------

  /** The value every source agrees with, by precedence codec, explicit, data. */
  function Resolved(selfExp: Option<nat>, parserExp: Option<nat>, dataExp: Option<nat>): Option<nat>
  {
    if parserExp.Some? then parserExp else if selfExp.Some? then selfExp else dataExp
  }

  /** `_ParsableBase._infer_length`: the codec's fixed length wins, then the
      explicit length, then the observed data length; a known explicit or
      data length that differs from the winner is a ParseError. */
  function ResolveLength(selfExp: Option<nat>, parserExp: Option<nat>, dataExp: Option<nat>): (r: Result<Option<nat>>)
    ensures r.Ok? && parserExp.Some? ==> r.value == parserExp
    ensures r.Ok? && parserExp.None? && selfExp.Some? ==> r.value == selfExp
    ensures r.Ok? && parserExp.None? && selfExp.None? ==> r.value == dataExp
    ensures r.Ok? ==> (selfExp.Some? ==> selfExp == r.value) && (dataExp.Some? ==> dataExp == r.value)
    ensures r.Err? <==>
      (selfExp.Some? && selfExp != Resolved(selfExp, parserExp, dataExp)) ||
      (dataExp.Some? && dataExp != Resolved(selfExp, parserExp, dataExp))
    ensures r.Err? ==> r.error == ParseError
  {
    var inferred := Resolved(selfExp, parserExp, dataExp);
    if selfExp.Some? && selfExp != inferred then Err(ParseError)
    else if dataExp.Some? && dataExp != inferred then Err(ParseError)
    else Ok(inferred)
  }

  /** Inferring again from an inferred length changes nothing. */
  lemma ResolveLengthIdempotent(selfExp: Option<nat>, parserExp: Option<nat>, dataExp: Option<nat>)
    requires ResolveLength(selfExp, parserExp, dataExp).Ok?
    ensures var n := ResolveLength(selfExp, parserExp, dataExp).value;
      ResolveLength(n, parserExp, None) == Ok(n)
  {
  }

  // ---------------------------------------------------------------
  // The helper's state and its pipeline, as functions
  // ---------------------------------------------------------------

  /** The current lengths of the sibling fields, which the closures that
      `link_length` installs read by name. */
  type Lengths = map<string, Option<nat>>

  /** A length as the Python object `prepack_len` returns. */
  function LengthValue(n: Option<nat>): Value
  {
    match n
    case Some(k) => Int(k)
    case None => NoneV
  }

  /** What a callback's function reads from the owning composite; only
      `prepack_len` reads anything, and a missing name is a KeyError. */
  function LinkedValue(env: Lengths, a: Action): Result<Value>
  {
    if a.LinkedLength? then
      if a.data in env then Ok(LengthValue(env[a.data])) else Err(KeyError)
    else Ok(NoneV)
  }

  /** A callback on raw bytes must hand bytes on; anything else fails at
      the next step (`len` or the codec) with TypeError. */
  function BytesOf(v: Value): (r: Result<seq<Byte>>)
    ensures r.Ok? <==> v.Bytes?
  {
    if v.Bytes? then Ok(v.bytes) else Err(TypeError)
  }

  datatype FieldState = FieldState(
    codec: Parsers.Codec,
    offset: nat,
    explicit: Option<nat>,
    slice: Option<Slice>,
    slots: Slots)
  {
    /** The `length` property: the explicit length when there is one,
        else the codec's. The source writes `self._length or
        self.parser.length`, which also skips an explicit length of 0;
        see `OrLength` in module Findings. */
    function Length(): Option<nat>
    {
      if explicit.Some? then explicit else Parsers.Length(codec)
    }
  }

  /** `_infer_length(data_length)` on a helper: the resolved length
      becomes the explicit length; nothing else changes. */
  function Infer(fs: FieldState, dataLength: Option<nat>): (r: Result<FieldState>)
    ensures r.Ok? ==> r.value == fs.(explicit := r.value.explicit)
    ensures r.Ok? && Parsers.Length(fs.codec).Some? ==> r.value.explicit == Parsers.Length(fs.codec)
    ensures r.Ok? && dataLength.Some? ==> r.value.Length() == dataLength
    ensures r.Ok? ==> fs.Length().Some? ==> r.value.Length() == fs.Length()
    ensures r.Err? ==> r.error == ParseError
  {
    var inferred :- ResolveLength(fs.Length(), Parsers.Length(fs.codec), dataLength);
    Ok(fs.(explicit := inferred))
  }

  /** preunpack, codec unpack, postunpack. */
  function Decode(codec: Parsers.Codec, slots: Slots, raw: seq<Byte>, env: Lengths): Result<Value>
  {
    var pre :- LinkedValue(env, slots.preunpack.action);
    var data :- BytesOf(Call(slots.preunpack, Bytes(raw), pre));
    var obj :- Parsers.Unpack(codec, data);
    var post :- LinkedValue(env, slots.postunpack.action);
    Ok(Call(slots.postunpack, obj, post))
  }

  /** prepack, codec pack, postpack. */
  function Encode(codec: Parsers.Codec, slots: Slots, obj: Value, env: Lengths): Result<seq<Byte>>
  {
    var pre :- LinkedValue(env, slots.prepack.action);
    var packed :- Parsers.Pack(codec, Call(slots.prepack, obj, pre));
    var post :- LinkedValue(env, slots.postpack.action);
    BytesOf(Call(slots.postpack, Bytes(packed), post))
  }

  /** `prepack_dat` deletes the helper's own explicit length. */
  function AfterPrepack(fs: FieldState): (r: FieldState)
    ensures r.codec == fs.codec && r.offset == fs.offset && r.slice == fs.slice && r.slots == fs.slots
  {
    if fs.slots.prepack.action.ClearOwnLength? then fs.(explicit := None) else fs
  }

  /** `ParseHelper.unpack`: infer, slice, decode. Returns the result and
      the helper's new state. */
  function UnpackField(fs: FieldState, from: seq<Byte>, env: Lengths): (Result<Value>, FieldState)
  {
    match Infer(fs, None)
    case Err(e) => (Err(e), fs)
    case Ok(fs1) =>
      var sl := MakeSlice(fs1.offset, fs1.Length(), None, false);
      (Decode(fs1.codec, fs1.slots, SliceOf(from, sl), env), fs1.(slice := Some(sl)))
  }

  /** `ParseHelper.pack`: range check, slice, prepack/pack/postpack,
      length check, write. Returns the new buffer and the new state. */
  function PackField(fs: FieldState, obj: Value, buf: seq<Byte>, env: Lengths): (Result<seq<Byte>>, FieldState)
  {
    if |buf| < fs.offset then (Err(ParseError), fs)
    else
      var sl := MakeSlice(fs.offset, fs.Length(), Some(|buf|), false);
      var fs1 := AfterPrepack(fs.(slice := Some(sl)));
      match Encode(fs1.codec, fs1.slots, obj, env)
      case Err(e) => (Err(e), fs1)
      case Ok(data) =>
        match Infer(fs1, Some(|data|))
        case Err(e) => (Err(e), fs1)
        case Ok(fs2) => (Ok(SliceAssign(buf, sl, data)), fs2)
  }

  /** `_pack_padding`: zero bytes over the helper's slice. */
  function PadField(fs: FieldState, buf: seq<Byte>): (seq<Byte>, FieldState)
  {
    var sl := MakeSlice(fs.offset, fs.Length(), Some(|buf|), false);
    var n := if fs.Length().Some? then fs.Length().value else 0;
    (SliceAssign(buf, sl, Zeros(n)), fs.(slice := Some(sl)))
  }

  /** `ParseHelper.pack` refuses an offset past the end of the destination;
      otherwise, on success, the bytes before the offset are unchanged, the
      encoded bytes sit at the offset, the helper's length is their length,
      and a write at the end of the buffer appends. */
  lemma PackFieldWrites(fs: FieldState, obj: Value, buf: seq<Byte>, env: Lengths)
    ensures |buf| < fs.offset ==> PackField(fs, obj, buf, env) == (Err(ParseError), fs)
    ensures var (r, fs2) := PackField(fs, obj, buf, env);
      && fs2.codec == fs.codec && fs2.offset == fs.offset && fs2.slots == fs.slots
      && (r.Ok? ==>
        && Encode(fs.codec, fs.slots, obj, env).Ok?
        && var data := Encode(fs.codec, fs.slots, obj, env).value;
        && fs2.Length() == Some(|data|)
        && fs.offset + |data| <= |r.value|
        && r.value[..fs.offset] == buf[..fs.offset]
        && r.value[fs.offset..fs.offset + |data|] == data
        && (|buf| == fs.offset ==> r.value == buf + data)
        && (fs.Length() == Some(|data|) && fs.offset + |data| <= |buf| ==>
              r.value == buf[..fs.offset] + data + buf[fs.offset + |data|..]))
    ensures var (r, fs2) := PackField(fs, obj, buf, env);
      fs.offset <= |buf| && Encode(fs.codec, fs.slots, obj, env).Err? ==>
        r == Err(Encode(fs.codec, fs.slots, obj, env).error)
  {
    var (r, fs2) := PackField(fs, obj, buf, env);
    if r.Ok? {
      var sl := MakeSlice(fs.offset, fs.Length(), Some(|buf|), false);
      assert Lo(|buf|, sl) == fs.offset;
      var data := Encode(fs.codec, fs.slots, obj, env).value;
      if |buf| == fs.offset {
        AssignAtEnd(buf, sl, data);
      }
      if fs.Length() == Some(|data|) && fs.offset + |data| <= |buf| {
        AssignInPlace(buf, fs.offset, data);
      }
    }
  }

  /** `ParseHelper.unpack` fails only on an explicit length that
      contradicts the codec's; otherwise it decodes exactly the bytes
      `[offset, offset+length)`, or everything from the offset when the
      length is unknown, and keeps its length. */
  lemma UnpackFieldReads(fs: FieldState, from: seq<Byte>, env: Lengths)
    ensures var (r, fs2) := UnpackField(fs, from, env);
      && fs2.codec == fs.codec && fs2.offset == fs.offset && fs2.slots == fs.slots
      && fs2.Length() == fs.Length()
    ensures var (r, fs2) := UnpackField(fs, from, env);
      var codecLength := Parsers.Length(fs.codec);
      (fs.explicit.Some? && codecLength.Some? && fs.explicit != codecLength <==> r == Err(ParseError) && fs2 == fs && Infer(fs, None).Err?)
    ensures var (r, fs2) := UnpackField(fs, from, env);
      Infer(fs, None).Ok? && fs.Length().Some? && fs.offset + fs.Length().value <= |from| ==>
        r == Decode(fs.codec, fs.slots, from[fs.offset..fs.offset + fs.Length().value], env)
    ensures var (r, fs2) := UnpackField(fs, from, env);
      Infer(fs, None).Ok? && fs.Length().None? && fs.offset <= |from| ==>
        r == Decode(fs.codec, fs.slots, from[fs.offset..], env)
  {
    var (r, fs2) := UnpackField(fs, from, env);
    if Infer(fs, None).Err? {
      assert r == Err(ParseError);
    } else {
      if r == Err(ParseError) && fs2 == fs && Infer(fs, None).Err? {
      }
    }
  }

  /** The fields every parsable keeps for itself (`_ParsableBase`). */
  datatype Own = Own(offset: nat, length: Option<nat>, slice: Option<Slice>, slots: Slots)

  /** `parser.length or 0`: the cursor advance after a field. */
  function AdvanceOf(n: Option<nat>): nat
  {
    if n.Some? then n.value else 0
  }

  /** The end of a composite's `pack(obj, pack_into)`: postpack, record
      the length, build the slice against the destination and write the
      bytes into it. `dest` holds the bytes of `pack_into` (empty when the
      caller gives none). A postpack result that is not bytes fails. */
  function Finish(own: Own, packed: seq<Byte>, dest: seq<Byte>): (r: (Result<seq<Byte>>, Own))
  {
    var post := Call(own.slots.postpack, Bytes(packed), NoneV);
    if !post.Bytes? then (Err(TypeError), own)
    else
      var n := |post.bytes|;
      var sl := MakeSlice(own.offset, Some(n), Some(|dest|), false);
      (Ok(SliceAssign(dest, sl, post.bytes)), own.(length := Some(n), slice := Some(sl)))
  }

  /** The end of `pack` records the length of what postpack produced and
      writes it at the composite's offset: over the old bytes when the
      destination is long enough, otherwise after the bytes before the
      offset. Without a modifying postpack the bytes are the packed ones. */
  lemma FinishWrites(own: Own, packed: seq<Byte>, dest: seq<Byte>)
    ensures var (r, own1) := Finish(own, packed, dest);
      var post := Call(own.slots.postpack, Bytes(packed), NoneV);
      && own1.offset == own.offset && own1.slots == own.slots
      && (r.Ok? <==> post.Bytes?)
      && (r.Err? ==> r.error == TypeError && own1 == own)
      && (r.Ok? ==>
        && own1.length == Some(|post.bytes|)
        && (own.offset + |post.bytes| <= |dest| ==>
              r.value == dest[..own.offset] + post.bytes + dest[own.offset + |post.bytes|..])
        && (own.offset <= |dest| < own.offset + |post.bytes| ==> r.value == dest[..own.offset] + post.bytes)
        && (|dest| < own.offset ==> r.value == dest + post.bytes))
    ensures !own.slots.postpack.modifying ==> Finish(own, packed, dest).0 == Ok(SliceAssign(dest, MakeSlice(own.offset, Some(|packed|), Some(|dest|), false), packed))
    ensures !own.slots.postpack.modifying && dest == [] ==> Finish(own, packed, dest).0 == Ok(packed)
  {
    var post := Call(own.slots.postpack, Bytes(packed), NoneV);
    if post.Bytes? {
      var n := |post.bytes|;
      var sl := MakeSlice(own.offset, Some(n), Some(|dest|), false);
      if own.offset + n <= |dest| {
        assert Lo(|dest|, sl) == own.offset && Hi(|dest|, sl) == own.offset + n;
      } else {
        assert Hi(|dest|, sl) == |dest|;
      }
    }
  }

  predicate Distinct<T(==)>(s: seq<T>)
  {
    forall i, j :: 0 <= i < j < |s| ==> s[i] != s[j]
  }

  // ---------------------------------------------------------------
  // The mutable objects
  // ---------------------------------------------------------------

  /** A `bytearray` that the pipeline extends in place. */
  class Buffer {
    var bytes: seq<Byte>

    constructor ()
      ensures bytes == []
    {
      bytes := [];
    }

    /** `self[slice] = data`. */
    method Assign(s: Slice, data: seq<Byte>)
      modifies this
      ensures bytes == SliceAssign(old(bytes), s, data)
    {
      bytes := bytes[..Lo(|bytes|, s)] + data + bytes[Hi(|bytes|, s)..];
    }
  }

  /** `ParseHelper`: a codec at an offset, with an optional explicit
      length, the last slice it built and four callback slots. */
  class Field {
    var codec: Parsers.Codec
    var offset: nat
    var explicit: Option<nat>
    var slice: Option<Slice>
    var slots: Slots

    function State(): FieldState
      reads this
    {
      FieldState(codec, offset, explicit, slice, slots)
    }

    /** `ParseHelper(parser, offset, length)`. */
    constructor (parser: Parsers.Codec, offset: nat, length: Option<nat>)
      ensures State() == FieldState(parser, offset, length, None, NoSlots)
    {
      this.codec := parser;
      this.offset := offset;
      this.explicit := length;
      this.slice := None;
      this.slots := NoSlots;
    }

    /** The `length` property. */
    function Length(): (r: Option<nat>)
      reads this
      ensures r == State().Length()
    {
      if explicit.Some? then explicit else Parsers.Length(codec)
    }

    /** The `length` setter: the explicit length becomes `n`, and with it
        the `length` property. */
    method SetLength(n: nat)
      modifies this`explicit
      ensures State() == old(State()).(explicit := Some(n))
      ensures Length() == Some(n)
    {
      explicit := Some(n);
    }

    /** The `length` deleter: no explicit length, so the property falls
        back to the codec's length. */
    method DeleteLength()
      modifies this`explicit
      ensures State() == old(State()).(explicit := None)
      ensures Length() == Parsers.Length(codec)
    {
      explicit := None;
    }

    /** `_infer_length(data_length)`. */
    method InferLength(dataLength: Option<nat>) returns (o: Outcome)
      modifies this`explicit
      ensures Infer(old(State()), dataLength).Ok? ==> o == Pass && State() == Infer(old(State()), dataLength).value
      ensures Infer(old(State()), dataLength).Err? ==> o == Fail(ParseError) && State() == old(State())
    {
      var inferred := ResolveLength(Length(), Parsers.Length(codec), dataLength);
      if inferred.Err? {
        return Fail(inferred.error);
      }
      explicit := inferred.value;
      o := Pass;
    }

    /** `_build_slice(pack_into, open_ended)`; the destination is given by
        its length. */
    method BuildSlice(packIntoLen: Option<nat>, openEnded: bool)
      modifies this`slice
      ensures State() == old(State()).(slice := Some(MakeSlice(offset, Length(), packIntoLen, openEnded)))
    {
      slice := Some(MakeSlice(offset, Length(), packIntoLen, openEnded));
    }

    /** `register_callback(call_on, func, modify)` with a caller-supplied
        function. */
    method RegisterCallback(callOn: string, a: Action, modifying: bool) returns (o: Outcome)
      requires a.NoOp? || a.Transform?
      modifies this`slots
      ensures Register(old(slots), callOn, a, modifying).Ok? ==>
        o == Pass && slots == Register(old(slots), callOn, a, modifying).value
      ensures Register(old(slots), callOn, a, modifying).Err? ==> o == Fail(ValueError) && slots == old(slots)
    {
      o := Install(callOn, a, modifying);
    }

    /** `register_callback` as `link_length` uses it, with its own closures. */
    method Install(callOn: string, a: Action, modifying: bool) returns (o: Outcome)
      modifies this`slots
      ensures Register(old(slots), callOn, a, modifying).Ok? ==>
        o == Pass && slots == Register(old(slots), callOn, a, modifying).value
      ensures Register(old(slots), callOn, a, modifying).Err? ==> o == Fail(ValueError) && slots == old(slots)
    {
      var r := Register(slots, callOn, a, modifying);
      if r.Err? {
        return Fail(r.error);
      }
      slots := r.value;
      o := Pass;
    }

    /** The slot setters `callback_<stage> = func`: the slot keeps its flag. */
    method SetCallback(stage: Stage, a: Action)
      requires a.NoOp? || a.Transform?
      modifies this`slots
      ensures slots == WithSlot(old(slots), stage, SetFunc(Slot(old(slots), stage), a))
      ensures Slot(slots, stage).modifying == Slot(old(slots), stage).modifying
    {
      slots := WithSlot(slots, stage, SetFunc(Slot(slots, stage), a));
    }

    /** The slot deleters `del callback_<stage>`. */
    method DeleteCallback(stage: Stage)
      modifies this`slots
      ensures slots == WithSlot(old(slots), stage, Unset)
    {
      slots := WithSlot(slots, stage, Unset);
    }

    /** `ParseHelper.unpack(unpack_from)`. */
    method Unpack(from: seq<Byte>, env: Lengths) returns (r: Result<Value>)
      modifies this`explicit, this`slice
      ensures (r, State()) == UnpackField(old(State()), from, env)
    {
      var o := InferLength(None);
      if o.Fail? {
        return Err(o.error);
      }
      BuildSlice(None, false);
      var data := SliceOf(from, slice.value);
      r := Decode(codec, slots, data, env);
    }

    /** `ParseHelper.pack(obj, pack_into)`. On failure the buffer is
        untouched; the helper keeps whatever state the source leaves. */
    method Pack(obj: Value, into: Buffer, env: Lengths) returns (o: Outcome)
      modifies this`explicit, this`slice, into
      ensures var (r, fs) := PackField(old(State()), obj, old(into.bytes), env);
        && State() == fs
        && (r.Ok? ==> o == Pass && into.bytes == r.value)
        && (r.Err? ==> o == Fail(r.error) && into.bytes == old(into.bytes))
    {
      if |into.bytes| < offset {
        return Fail(ParseError);
      }
      BuildSlice(Some(|into.bytes|), false);
      if slots.prepack.action.ClearOwnLength? {
        explicit := None;
      }
      var data := Encode(codec, slots, obj, env);
      if data.Err? {
        return Fail(data.error);
      }
      o := InferLength(Some(|data.value|));
      if o.Fail? {
        return;
      }
      into.Assign(slice.value, data.value);
    }

    /** `_pack_padding(pack_into)`: reserve the helper's bytes with zeros. */
    method PackPadding(into: Buffer)
      modifies this`slice, into
      ensures (into.bytes, State()) == PadField(old(State()), old(into.bytes))
    {
      BuildSlice(Some(|into.bytes|), false);
      var n := if Length().Some? then Length().value else 0;
      into.Assign(slice.value, Zeros(n));
    }
  }

  /** The states of a sequence of helpers. */
  ghost function StatesOf(fs: seq<Field>): (r: seq<FieldState>)
    reads set f | f in fs
    ensures |r| == |fs|
    ensures forall i :: 0 <= i < |fs| ==> r[i] == fs[i].State()
  {
    seq(|fs|, i requires 0 <= i < |fs| reads set f | f in fs => fs[i].State())
  }
}
