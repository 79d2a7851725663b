/** A worked composite: an integer length field declared before a blob of
    any length, joined by `link_length`. The lemmas follow one `pack`
    and one `unpack` of this composite through the helper pipeline and
    show that the length is reserved, patched in after the blob is
    written, and read back to size the blob. */
module Scenario {
  import opened Values
  import opened Callbacks
  import opened Fields
  import opened Smarty
  import Parsers

  const Len: string := "len"
  const Dat: string := "data"

  /** The slots `link_length(Dat, Len)` leaves on the two helpers. */
  const LenSlots: Slots := Slots(Unset, Callback(SetLinkedLength(Dat), false), Callback(LinkedLength(Dat), true), Unset)
  const DatSlots: Slots := Slots(Unset, Callback(Ignore(Dat), false), Callback(ClearOwnLength(Dat), false), Unset)

  const Empty: Schema := Schema([], {}, map[], map[])

  /** The schema after `self[Len] = ...; self[Dat] = ...; link_length(Dat, Len)`. */
  const Pair: Schema := Schema([Len, Dat], {Len}, map[Len := Dat], map[Len := [], Dat := []])

  /** A helper as `ParseHelper(parser)` makes it. */
  function Fresh(c: Parsers.Codec): (fs: FieldState)
    ensures fs.codec == c && fs.offset == 0 && fs.explicit.None? && fs.slots == NoSlots
  {
    FieldState(c, 0, None, None, NoSlots)
  }

  /** The two helpers after linking. */
  function PairStates(c: Parsers.Codec): (m: map<string, FieldState>)
    ensures m.Keys == {Len, Dat}
    ensures m[Len].codec == c && m[Len].slots == LenSlots && m[Len].explicit.None?
    ensures m[Dat].codec == Parsers.Blob(None) && m[Dat].slots == DatSlots && m[Dat].explicit.None?
  {
    map[Len := Fresh(c).(slots := LenSlots), Dat := Fresh(Parsers.Blob(None)).(slots := DatSlots)]
  }

  /** Declaring the length field, then the data field, then linking them
      gives `Pair`, and the link installs the four callbacks. */
  lemma PairBuilt(c: Parsers.Codec)
    ensures Declare(Declare(Empty, Len), Dat) == Pair.(exclude := {}, links := map[])
    ensures LinkCheck(Declare(Declare(Empty, Len), Dat), Dat, Len) == Pass
    ensures LinkSchema(Declare(Declare(Empty, Len), Dat), Dat, Len) == Pair
    ensures LinkStates(map[][Len := Fresh(c)][Dat := Fresh(Parsers.Blob(None))], Dat, Len) == PairStates(c)
  {
    var s1 := Declare(Empty, Len);
    assert s1.names == [Len];
    assert Dat !in s1.names;
    var s2 := Declare(s1, Dat);
    assert s2.names == [Len, Dat];
    assert IndexOf(s2.names, Dat) == 1;
  }

  // ---------------------------------------------------------------
  // pack
  // ---------------------------------------------------------------

  /** The object after `for key in exclude: obj[key] = None`. */
  function Excluded(obj: map<string, Value>): (v: Value)
    ensures v.Record? && Len in v.slots && v.slots[Len] == NoneV
  {
    Record(obj[Len := NoneV])
  }

  /** The pair excludes only the length field. */
  lemma ExcludeLen(obj: map<string, Value>)
    ensures ExcludeNone(Record(obj), Pair.exclude) == Ok(Excluded(obj))
  {
    assert Pair.exclude == {Len};
    var r := ExcludeNone(Record(obj), {Len}).value;
    assert r.slots.Keys == obj[Len := NoneV].Keys;
    assert forall k | k in r.slots :: r.slots[k] == obj[Len := NoneV][k];
    assert r.slots == obj[Len := NoneV];
  }

  /** The deferred call the length field leaves behind. */
  function Pending(c: Parsers.Codec, obj: map<string, Value>, cur: nat): Thunk
    requires c.IntCodec?
  {
    Thunk(Len, 0, Some(c.width), Excluded(obj), cur)
  }

  /** The schema while the deferred call waits on the data field. */
  function Waiting(c: Parsers.Codec, obj: map<string, Value>, cur: nat): (sch: Schema)
    requires c.IntCodec?
    ensures Shaped(sch) && sch.names == Pair.names && sch.links == Pair.links && sch.exclude == Pair.exclude
  {
    Pair.(waiting := Pair.waiting[Dat := [Pending(c, obj, cur)]])
  }

  /** The helper states the pack works with: both helpers keep their
      codecs and the callbacks of the link. */
  ghost predicate PairShape(c: Parsers.Codec, states: map<string, FieldState>)
  {
    && states.Keys == {Len, Dat}
    && states[Len].codec == c && states[Len].slots == LenSlots
    && states[Dat].codec == Parsers.Blob(None) && states[Dat].slots == DatSlots
  }

  /** The length field once it has reserved its bytes. */
  function Reserved(c: Parsers.Codec): (fs: FieldState)
    requires c.IntCodec?
  {
    FieldState(c, 0, Some(c.width), Some(Slice(0, None)), LenSlots)
  }

  /** The world after the length field's turn, writing into a new
      buffer after `bufs`. */
  function AfterLen(c: Parsers.Codec, bufs: seq<seq<Byte>>): (w: World)
    requires c.IntCodec?
    ensures PairShape(c, w.states) && w.states[Len].explicit == Some(c.width)
  {
    World(PairStates(c)[Len := Reserved(c)], bufs + [Zeros(c.width)])
  }

  /** The length field, with its width inferred, leaves the deferred call
      and pads the empty buffer with its width of zeros. */
  lemma ReserveLen(ops: Ops, c: Parsers.Codec, obj: map<string, Value>, bufs: seq<seq<Byte>>)
    requires Concrete(ops)
    requires c.IntCodec? && c.width >= 1
    ensures var st1 := PairStates(c)[Len].(explicit := Some(c.width));
      Reserve(ops, Pair, Excluded(obj), |bufs|, Len, World(PairStates(c)[Len := st1], bufs + [[]]))
        == (Waiting(c, obj, |bufs|), AfterLen(c, bufs))
  {
    var st1 := PairStates(c)[Len].(explicit := Some(c.width));
    var sl := MakeSlice(0, Some(c.width), Some(0), false);
    assert sl == Slice(0, None);
    assert SliceAssign([], sl, Zeros(c.width)) == Zeros(c.width);
    assert ops.pad(st1, []) == PadField(st1, []) == (Zeros(c.width), st1.(slice := Some(sl)));
    assert st1.(slice := Some(sl)).(offset := 0) == Reserved(c);
    assert PairStates(c)[Len := st1][Len := Reserved(c)] == PairStates(c)[Len := Reserved(c)];
    assert Pair.waiting[Dat] + [Pending(c, obj, |bufs|)] == [Pending(c, obj, |bufs|)];
    assert (bufs + [[]])[|bufs| := Zeros(c.width)] == bufs + [Zeros(c.width)];
  }

  /** The length field's turn: it infers its width and reserves. */
  lemma LenTurn(ops: Ops, c: Parsers.Codec, obj: map<string, Value>, bufs: seq<seq<Byte>>)
    requires Concrete(ops)
    requires c.IntCodec? && c.width >= 1
    ensures PackTurn(ops, Pair, Excluded(obj), |bufs|, 0, 0, World(PairStates(c), bufs + [[]]))
      == (Pass, c.width, Waiting(c, obj, |bufs|), AfterLen(c, bufs))
  {
    var st := PairStates(c)[Len];
    assert Item(Excluded(obj), Len) == Ok(NoneV);
    assert ops.infer(st, None) == Infer(st, None) == Ok(st.(explicit := Some(c.width)));
    ReserveLen(ops, c, obj, bufs);
  }

  /** The first step of the field loop. */
  lemma LenStep(ops: Ops, c: Parsers.Codec, obj: map<string, Value>, bufs: seq<seq<Byte>>)
    requires Concrete(ops)
    requires c.IntCodec? && c.width >= 1
    ensures PackFrom(ops, Pair, Excluded(obj), |bufs|, 0, 0, World(PairStates(c), bufs + [[]]))
      == PackFrom(ops, Waiting(c, obj, |bufs|), Excluded(obj), |bufs|, 1, c.width, AfterLen(c, bufs))
  {
    LenTurn(ops, c, obj, bufs);
  }

  /** The length field, at offset 0 with the codec's width, packs the
      data field's length over the reserved zeros. */
  lemma LenPacks(c: Parsers.Codec, st: FieldState, b: seq<Byte>, env: Lengths)
    requires c.IntCodec? && Parsers.InIntRange(c.width, c.signed, |b|)
    requires st.codec == c && st.slots == LenSlots && st.explicit == Some(c.width) && st.offset == 0
    requires Dat in env && env[Dat] == Some(|b|)
    ensures PackField(st, NoneV, Zeros(c.width) + b, env)
      == (Ok(Parsers.Pack(c, Int(|b|)).value + b), st.(slice := Some(Slice(0, Some(c.width)))))
  {
    var bytes := Parsers.Pack(c, Int(|b|)).value;
    assert LinkedValue(env, LinkedLength(Dat)) == Ok(Int(|b|));
    assert Encode(c, LenSlots, NoneV, env) == Ok(bytes);
    var buf := Zeros(c.width) + b;
    AssignInPlace(buf, 0, bytes);
    assert buf[c.width..] == b;
  }

  /** The first part of the deferred call: the length field takes its
      saved offset and width and packs. */
  lemma EnterPending(ops: Ops, c: Parsers.Codec, obj: map<string, Value>, cur: nat, b: seq<Byte>, w: World)
    requires Concrete(ops)
    requires c.IntCodec? && Parsers.InIntRange(c.width, c.signed, |b|)
    requires PairShape(c, w.states) && w.states[Len].explicit == Some(c.width)
    requires w.states[Dat].Length() == Some(|b|)
    requires cur < |w.bufs| && w.bufs[cur] == Zeros(c.width) + b
    ensures var (o, w1) := Enter(ops, Pending(c, obj, cur), w);
      && o == Pass
      && w1.bufs == w.bufs[cur := Parsers.Pack(c, Int(|b|)).value + b]
      && w1.states == w.states[Len := w.states[Len].(offset := 0, slice := Some(Slice(0, Some(c.width))))]
  {
    var st := w.states[Len].(explicit := Some(c.width), offset := 0);
    var states := w.states[Len := st];
    assert Item(Excluded(obj), Len) == Ok(NoneV);
    LenPacks(c, st, b, Env(states));
  }

  /** The deferred call, made once the blob is in the buffer, writes the
      blob's length over the reserved zeros and puts the length field's
      offset and length back as they were. */
  lemma PatchLen(ops: Ops, c: Parsers.Codec, obj: map<string, Value>, cur: nat, b: seq<Byte>, w: World)
    requires Concrete(ops)
    requires c.IntCodec? && Parsers.InIntRange(c.width, c.signed, |b|)
    requires PairShape(c, w.states) && w.states[Len].explicit == Some(c.width)
    requires w.states[Dat].Length() == Some(|b|)
    requires cur < |w.bufs| && w.bufs[cur] == Zeros(c.width) + b
    ensures var (o, w1) := Fire(ops, Waiting(c, obj, cur), Pending(c, obj, cur), w);
      && o == Pass
      && w1.bufs == w.bufs[cur := Parsers.Pack(c, Int(|b|)).value + b]
      && w1.states.Keys == w.states.Keys && w1.states[Dat] == w.states[Dat]
      && w1.states[Len] == w.states[Len].(slice := w1.states[Len].slice)
  {
    EnterPending(ops, c, obj, cur, b, w);
    assert Waiting(c, obj, cur).waiting[Len] == [];
  }

  /** The calls waiting on the data field: just the pending one. */
  lemma FireWaiting(ops: Ops, c: Parsers.Codec, obj: map<string, Value>, cur: nat, b: seq<Byte>, w: World)
    requires Concrete(ops)
    requires c.IntCodec? && Parsers.InIntRange(c.width, c.signed, |b|)
    requires PairShape(c, w.states) && w.states[Len].explicit == Some(c.width)
    requires w.states[Dat].Length() == Some(|b|)
    requires cur < |w.bufs| && w.bufs[cur] == Zeros(c.width) + b
    ensures var (o, w1) := FireAll(ops, Waiting(c, obj, cur), [Pending(c, obj, cur)], Dat, w);
      && o == Pass
      && w1.bufs == w.bufs[cur := Parsers.Pack(c, Int(|b|)).value + b]
      && w1.states.Keys == w.states.Keys && w1.states[Dat] == w.states[Dat]
      && w1.states[Len] == w.states[Len].(slice := w1.states[Len].slice)
  {
    var sch := Waiting(c, obj, cur);
    assert Ordered(sch.names, Dat, Pending(c, obj, cur), |w.bufs|) by {
      assert IndexOf(sch.names, Len) == 0 && IndexOf(sch.names, Dat) == 1;
    }
    PatchLen(ops, c, obj, cur, b, w);
    var (oF, wF) := Fire(ops, sch, Pending(c, obj, cur), w);
    assert FireAll(ops, sch, [Pending(c, obj, cur)], Dat, w) == FireAll(ops, sch, [], Dat, wF);
  }

  /** The data field, at the end of the reserved bytes, clears its own
      length (`prepack_dat`), appends the blob and takes its length. */
  lemma DatPacks(st: FieldState, b: seq<Byte>, env: Lengths)
    requires st.codec == Parsers.Blob(None) && st.slots == DatSlots
    ensures var (r, st1) := PackField(st, Bytes(b), Zeros(st.offset), env);
      && r == Ok(Zeros(st.offset) + b)
      && st1 == st.(explicit := Some(|b|), slice := st1.slice)
  {
    var buf := Zeros(st.offset);
    var sl := MakeSlice(st.offset, st.Length(), Some(|buf|), false);
    assert Encode(Parsers.Blob(None), DatSlots, Bytes(b), env) == Ok(b);
    AssignAtEnd(buf, sl, b);
  }

  /** The data field's turn once its length is inferred: it packs, the
      waiting call patches the length, its offset goes back to 0 and the
      cursor moves past the blob. */
  lemma EmitDat(ops: Ops, c: Parsers.Codec, obj: map<string, Value>, cur: nat, b: seq<Byte>, w: World)
    requires Concrete(ops)
    requires c.IntCodec? && Parsers.InIntRange(c.width, c.signed, |b|)
    requires PairShape(c, w.states) && w.states[Len].explicit == Some(c.width)
    requires w.states[Dat].offset == c.width
    requires cur < |w.bufs| && w.bufs[cur] == Zeros(c.width)
    ensures var (o, adv, w1) := Emit(ops, Waiting(c, obj, cur), Bytes(b), cur, Dat, w);
      && o == Pass && adv == |b|
      && w1.bufs == w.bufs[cur := Parsers.Pack(c, Int(|b|)).value + b]
      && PairShape(c, w1.states) && w1.states[Len].explicit == Some(c.width)
      && w1.states[Dat].explicit == Some(|b|) && w1.states[Dat].offset == 0
  {
    var st := w.states[Dat];
    DatPacks(st, b, Env(w.states));
    var (r, st2) := PackField(st, Bytes(b), Zeros(c.width), Env(w.states));
    var w1 := w.(states := w.states[Dat := st2]);
    FireWaiting(ops, c, obj, cur, b, w1.(bufs := w1.bufs[cur := r.value]));
  }

  /** The data field's turn, with the cursor past the reserved length. */
  lemma DatTurn(ops: Ops, c: Parsers.Codec, obj: map<string, Value>, cur: nat, b: seq<Byte>, w: World)
    requires Concrete(ops)
    requires c.IntCodec? && Parsers.InIntRange(c.width, c.signed, |b|)
    requires Dat in obj && obj[Dat] == Bytes(b)
    requires PairShape(c, w.states) && w.states[Len].explicit == Some(c.width)
    requires cur < |w.bufs| && w.bufs[cur] == Zeros(c.width)
    ensures var r := PackTurn(ops, Waiting(c, obj, cur), Excluded(obj), cur, 1, c.width, w);
      && r.0 == Pass && r.1 == c.width + |b| && r.2 == Waiting(c, obj, cur)
      && r.3.bufs == w.bufs[cur := Parsers.Pack(c, Int(|b|)).value + b]
      && PairShape(c, r.3.states) && r.3.states[Len].explicit == Some(c.width)
      && r.3.states[Dat].explicit == Some(|b|)
  {
    var st := w.states[Dat].(offset := c.width);
    assert Item(Excluded(obj), Dat) == Ok(Bytes(b));
    assert ops.infer(st, None) == Infer(st, None) == Ok(st);
    EmitDat(ops, c, obj, cur, b, w.(states := w.states[Dat := st]));
  }

  /** The rest of the field loop: the data field's turn, and the end. */
  lemma DatStep(ops: Ops, c: Parsers.Codec, obj: map<string, Value>, cur: nat, b: seq<Byte>, w: World)
    requires Concrete(ops)
    requires c.IntCodec? && Parsers.InIntRange(c.width, c.signed, |b|)
    requires Dat in obj && obj[Dat] == Bytes(b)
    requires PairShape(c, w.states) && w.states[Len].explicit == Some(c.width)
    requires cur < |w.bufs| && w.bufs[cur] == Zeros(c.width)
    ensures var r := PackFrom(ops, Waiting(c, obj, cur), Excluded(obj), cur, 1, c.width, w);
      && r.0 == Pass && r.1 == Waiting(c, obj, cur)
      && r.2.bufs == w.bufs[cur := Parsers.Pack(c, Int(|b|)).value + b]
      && PairShape(c, r.2.states) && r.2.states[Len].explicit == Some(c.width)
      && r.2.states[Dat].explicit == Some(|b|)
  {
    DatTurn(ops, c, obj, cur, b, w);
  }

  /** The packed form of the pair: the blob's length in the integer
      codec, then the blob. */
  function Wire(c: Parsers.Codec, b: seq<Byte>): (r: seq<Byte>)
    requires c.IntCodec? && c.width >= 1 && Parsers.InIntRange(c.width, c.signed, |b|)
    ensures |r| == c.width + |b| && r[c.width..] == b
    ensures Parsers.Unpack(c, r[..c.width]) == Ok(Int(|b|))
  {
    Parsers.IntRoundTrip(c, |b|);
    Parsers.Pack(c, Int(|b|)).value + b
  }

  /** The field loop over the pair. */
  lemma PairLoop(ops: Ops, c: Parsers.Codec, bufs: seq<seq<Byte>>, obj: map<string, Value>, b: seq<Byte>)
    requires Concrete(ops)
    requires c.IntCodec? && c.width >= 1 && Parsers.InIntRange(c.width, c.signed, |b|)
    requires Dat in obj && obj[Dat] == Bytes(b)
    ensures var r := PackFrom(ops, Pair, Excluded(obj), |bufs|, 0, 0, World(PairStates(c), bufs + [[]]));
      && r.0 == Pass && r.1 == Waiting(c, obj, |bufs|)
      && PairShape(c, r.2.states) && r.2.states[Len].explicit == Some(c.width)
      && r.2.states[Dat].explicit == Some(|b|)
      && r.2.bufs == bufs + [Wire(c, b)]
  {
    LenStep(ops, c, obj, bufs);
    DatStep(ops, c, obj, |bufs|, b, AfterLen(c, bufs));
    assert (bufs + [Zeros(c.width)])[|bufs| := Wire(c, b)] == bufs + [Wire(c, b)];
  }

  /** Without callbacks, the end of `pack` returns the packed bytes when
      there is no destination, and records their length. */
  lemma FinishPlain(own: Own, packed: seq<Byte>)
    requires own.slots == NoSlots
    ensures Finish(own, packed, []).0 == Ok(packed)
    ensures Finish(own, packed, []).1.length == Some(|packed|) && Finish(own, packed, []).1.slots == NoSlots
    ensures Finish(own, packed, []).1.offset == own.offset
  {
    FinishWrites(own, packed, []);
  }

  /** `pack` once the length field is set to None: the loop, then the
      write into an empty destination. */
  lemma RecordPair(ops: Ops, c: Parsers.Codec, own: Own, bufs: seq<seq<Byte>>, obj: map<string, Value>, b: seq<Byte>)
    requires Concrete(ops)
    requires c.IntCodec? && c.width >= 1 && Parsers.InIntRange(c.width, c.signed, |b|)
    requires own.slots == NoSlots
    requires Dat in obj && obj[Dat] == Bytes(b)
    ensures var r := PackRecord(ops, Pair, own, World(PairStates(c), bufs), Excluded(obj), []);
      && r.0 == Ok(Wire(c, b))
      && r.1 == Waiting(c, obj, |bufs|)
      && r.2.length == Some(|Wire(c, b)|) && r.2.slots == NoSlots && r.2.offset == own.offset
      && PairShape(c, r.3.states) && r.3.states[Len].explicit == Some(c.width)
      && r.3.states[Dat].explicit == Some(|b|)
      && r.3.bufs == bufs + [Wire(c, b)]
  {
    PairLoop(ops, c, bufs, obj, b);
    FinishPlain(own, Wire(c, b));
  }

  /** `pack` of the freshly linked pair writes the blob's length, then
      the blob, whatever else the object holds; afterwards the length
      field has the codec's width and the data field the blob's length,
      and the data field's wait list holds the call that was made. */
  lemma PackPair(ops: Ops, c: Parsers.Codec, own: Own, bufs: seq<seq<Byte>>, obj: map<string, Value>, b: seq<Byte>)
    requires Concrete(ops)
    requires c.IntCodec? && c.width >= 1 && Parsers.InIntRange(c.width, c.signed, |b|)
    requires own.slots == NoSlots
    requires Dat in obj && obj[Dat] == Bytes(b)
    ensures var r := SmartyPack(ops, Pair, own, World(PairStates(c), bufs), Record(obj), []);
      && r.0 == Ok(Wire(c, b))
      && r.1 == Waiting(c, obj, |bufs|)
      && r.2.length == Some(|Wire(c, b)|) && r.2.slots == NoSlots && r.2.offset == own.offset
      && PairShape(c, r.3.states) && r.3.states[Len].explicit == Some(c.width)
      && r.3.states[Dat].explicit == Some(|b|)
      && r.3.bufs == bufs + [Wire(c, b)]
  {
    ExcludeLen(obj);
    RecordPair(ops, c, own, bufs, obj, b);
  }

  // ---------------------------------------------------------------
  // unpack
  // ---------------------------------------------------------------

  /** What `unpack` needs of the helpers: the link's codecs and callbacks,
      and no explicit length on the length field other than its width. */
  ghost predicate Readable(c: Parsers.Codec, states: map<string, FieldState>)
    requires c.IntCodec?
  {
    PairShape(c, states) && (states[Len].explicit.None? || states[Len].explicit == Some(c.width))
  }

  /** The helpers after the length field's turn in `unpack`: its width and
      slice are set and the data field has the decoded length. */
  function LenRead(c: Parsers.Codec, states: map<string, FieldState>, n: nat): (r: map<string, FieldState>)
    requires c.IntCodec? && PairShape(c, states)
    ensures PairShape(c, r) && r[Dat].explicit == Some(n)
  {
    states[Len := states[Len].(offset := 0, explicit := Some(c.width), slice := Some(Slice(0, Some(c.width))))]
          [Dat := states[Dat].(explicit := Some(n))]
  }

  /** The length field decodes the first `width` bytes as the blob's length. */
  lemma LenDecodes(c: Parsers.Codec, st: FieldState, b: seq<Byte>, env: Lengths)
    requires c.IntCodec? && c.width >= 1 && Parsers.InIntRange(c.width, c.signed, |b|)
    requires st.codec == c && st.slots == LenSlots && st.explicit == Some(c.width) && st.offset == 0
    ensures UnpackField(st, Wire(c, b), env) == (Ok(Int(|b|)), st.(slice := Some(Slice(0, Some(c.width)))))
  {
    var from := Wire(c, b);
    assert SliceOf(from, Slice(0, Some(c.width))) == from[..c.width];
    assert Decode(c, LenSlots, from[..c.width], env) == Ok(Int(|b|));
  }

  /** The length field's turn in `unpack`: nothing goes into the record,
      the cursor moves past the length and the data field's length is set. */
  lemma LenReads(ops: Ops, c: Parsers.Codec, sch: Schema, b: seq<Byte>, len: Option<nat>, states: map<string, FieldState>)
    requires Concrete(ops)
    requires c.IntCodec? && c.width >= 1 && Parsers.InIntRange(c.width, c.signed, |b|)
    requires sch.names == Pair.names && sch.exclude == Pair.exclude && Readable(c, states)
    ensures UnpackTurn(ops, sch, Wire(c, b), 0, 0, map[], len, states)
      == (Pass, c.width, map[], StaticLength(sch.names, LenRead(c, states, |b|)), LenRead(c, states, |b|))
  {
    var st := states[Len].(offset := 0);
    var st1 := st.(explicit := Some(c.width));
    assert ops.infer(st, None) == Infer(st, None) == Ok(st1);
    LenDecodes(c, st1, b, Env(states[Len := st1]));
    assert ops.unpack(st1, Wire(c, b), Env(states[Len := st1])) == UnpackField(st1, Wire(c, b), Env(states[Len := st1]));
    var s1 := states[Len := st1.(slice := Some(Slice(0, Some(c.width))))];
    var s2 := s1[Dat := s1[Dat].(explicit := Some(|b|))];
    assert Inject(SetLinkedLength(Dat), Int(|b|), s1) == Ok(s2);
    assert s2[Len := s2[Len].(offset := 0)] == LenRead(c, states, |b|);
  }

  /** The data field, past the length and sized by it, decodes the blob. */
  lemma DatDecodes(c: Parsers.Codec, st: FieldState, b: seq<Byte>, env: Lengths)
    requires c.IntCodec? && c.width >= 1 && Parsers.InIntRange(c.width, c.signed, |b|)
    requires st.codec == Parsers.Blob(None) && st.slots == DatSlots
    requires st.explicit == Some(|b|) && st.offset == c.width
    ensures UnpackField(st, Wire(c, b), env).0 == Ok(Bytes(b))
  {
    var from := Wire(c, b);
    assert Infer(st, None) == Ok(st);
    assert SliceOf(from, Slice(c.width, Some(c.width + |b|))) == b;
    assert Decode(Parsers.Blob(None), DatSlots, b, env) == Ok(Bytes(b));
  }

  /** The data field's turn in `unpack`: the blob goes into the record. */
  lemma DatReads(ops: Ops, c: Parsers.Codec, sch: Schema, b: seq<Byte>, len: Option<nat>, states: map<string, FieldState>)
    requires Concrete(ops)
    requires c.IntCodec? && c.width >= 1 && Parsers.InIntRange(c.width, c.signed, |b|)
    requires sch.names == Pair.names && sch.exclude == Pair.exclude
    requires PairShape(c, states) && states[Dat].explicit == Some(|b|)
    ensures var r := UnpackTurn(ops, sch, Wire(c, b), 1, c.width, map[], len, states);
      r.0 == Pass && r.2 == map[Dat := Bytes(b)]
  {
    var st := states[Dat].(offset := c.width);
    assert ops.infer(st, None) == Infer(st, None) == Ok(st);
    var env := Env(states[Dat := st]);
    DatDecodes(c, st, b, env);
    assert ops.unpack(st, Wire(c, b), env) == UnpackField(st, Wire(c, b), env);
  }

  /** The first step of the `unpack` loop. */
  lemma LenReadStep(ops: Ops, c: Parsers.Codec, sch: Schema, b: seq<Byte>, len: Option<nat>, states: map<string, FieldState>)
    requires Concrete(ops)
    requires c.IntCodec? && c.width >= 1 && Parsers.InIntRange(c.width, c.signed, |b|)
    requires sch.names == Pair.names && sch.exclude == Pair.exclude && Readable(c, states)
    ensures UnpackFrom(ops, sch, Wire(c, b), 0, 0, map[], len, states)
      == UnpackFrom(ops, sch, Wire(c, b), 1, c.width, map[], StaticLength(sch.names, LenRead(c, states, |b|)), LenRead(c, states, |b|))
  {
    LenReads(ops, c, sch, b, len, states);
  }

  /** The rest of the `unpack` loop. */
  lemma DatReadStep(ops: Ops, c: Parsers.Codec, sch: Schema, b: seq<Byte>, len: Option<nat>, states: map<string, FieldState>)
    requires Concrete(ops)
    requires c.IntCodec? && c.width >= 1 && Parsers.InIntRange(c.width, c.signed, |b|)
    requires sch.names == Pair.names && sch.exclude == Pair.exclude
    requires PairShape(c, states) && states[Dat].explicit == Some(|b|)
    ensures UnpackFrom(ops, sch, Wire(c, b), 1, c.width, map[], len, states).0 == Ok(map[Dat := Bytes(b)])
  {
    DatReads(ops, c, sch, b, len, states);
  }

  /** `unpack` of the pair's packed form gives back a record holding just
      the blob; the length field is excluded from it. */
  lemma UnpackPair(ops: Ops, c: Parsers.Codec, sch: Schema, own: Own, states: map<string, FieldState>, b: seq<Byte>)
    requires Concrete(ops)
    requires c.IntCodec? && c.width >= 1 && Parsers.InIntRange(c.width, c.signed, |b|)
    requires sch.names == Pair.names && sch.exclude == Pair.exclude && Readable(c, states)
    requires own.offset == 0 && own.slots == NoSlots
    ensures SmartyUnpack(ops, sch, own, states, Wire(c, b)).0 == Ok(Record(map[Dat := Bytes(b)]))
  {
    var len0 := StaticLength(sch.names, states);
    LenReadStep(ops, c, sch, b, len0, states);
    DatReadStep(ops, c, sch, b, StaticLength(sch.names, LenRead(c, states, |b|)), LenRead(c, states, |b|));
  }

  /** Packing the freshly linked pair and unpacking what it wrote, with
      the helpers as the pack left them, gives back the blob. */
  lemma PairRoundTrip(ops: Ops, c: Parsers.Codec, own: Own, bufs: seq<seq<Byte>>, obj: map<string, Value>, b: seq<Byte>)
    requires Concrete(ops)
    requires c.IntCodec? && c.width >= 1 && Parsers.InIntRange(c.width, c.signed, |b|)
    requires own.offset == 0 && own.slots == NoSlots
    requires Dat in obj && obj[Dat] == Bytes(b)
    ensures var p := SmartyPack(ops, Pair, own, World(PairStates(c), bufs), Record(obj), []);
      && p.0 == Ok(Wire(c, b))
      && SmartyUnpack(ops, p.1, p.2, p.3.states, p.0.value).0 == Ok(Record(map[Dat := Bytes(b)]))
  {
    PackPair(ops, c, own, bufs, obj, b);
    var p := SmartyPack(ops, Pair, own, World(PairStates(c), bufs), Record(obj), []);
    UnpackPair(ops, c, p.1, p.2, p.3.states, b);
  }

  // ---------------------------------------------------------------
  // The composite object, end to end
  // ---------------------------------------------------------------

  /** A fresh composite gets a length field and a blob, in that order. */
  method DeclarePair(c: Parsers.Codec) returns (sp: SmartyParser)
    ensures fresh(sp) && sp.Valid()
    ensures sp.Control() == Declare(Declare(Empty, Len), Dat)
    ensures sp.Now() == World(map[][Len := Fresh(c)][Dat := Fresh(Parsers.Blob(None))], [])
    ensures sp.OwnState() == Own(0, None, None, NoSlots)
  {
    sp := new SmartyParser(0);
    var len := new Field(c, 0, None);
    var dat := new Field(Parsers.Blob(None), 0, None);
    sp.SetItem(Len, len);
    sp.SetItem(Dat, dat);
  }

  /** ... and `link_length` ties them. */
  method NewPair(c: Parsers.Codec) returns (sp: SmartyParser)
    ensures fresh(sp) && sp.Valid()
    ensures sp.Control() == Pair && sp.Now() == World(PairStates(c), [])
    ensures sp.OwnState() == Own(0, None, None, NoSlots)
  {
    sp := DeclarePair(c);
    PairBuilt(c);
    var o := sp.LinkLength(Dat, Len);
  }

  /** On the linked pair, a record holding the blob packs to the length
      followed by the blob, and unpacking that gives the record back
      without the length field. */
  method RoundTripWith(sp: SmartyParser, ops: Ops, c: Parsers.Codec, b: seq<Byte>)
      returns (packed: Result<seq<Byte>>, back: Result<Value>)
    requires Concrete(ops)
    requires c.IntCodec? && c.width >= 1 && Parsers.InIntRange(c.width, c.signed, |b|)
    requires sp.Valid() && sp.Control() == Pair && sp.Now() == World(PairStates(c), [])
    requires sp.OwnState() == Own(0, None, None, NoSlots)
    modifies sp
    ensures packed == Ok(Wire(c, b))
    ensures back == Ok(Record(map[Dat := Bytes(b)]))
  {
    PairRoundTrip(ops, c, sp.OwnState(), [], map[Dat := Bytes(b)], b);
    packed, back := PackThenUnpack(sp, ops, Record(map[Dat := Bytes(b)]));
  }

  /** `pack(obj)` on the class, then `unpack` of the bytes it returned. */
  method PackThenUnpack(sp: SmartyParser, ops: Ops, obj: Value) returns (packed: Result<seq<Byte>>, back: Result<Value>)
    requires sp.Valid() && SmartyPack(ops, sp.Control(), sp.OwnState(), sp.Now(), obj, []).0.Ok?
    modifies sp
    ensures sp.Valid()
    ensures var p := SmartyPack(ops, old(sp.Control()), old(sp.OwnState()), old(sp.Now()), obj, []);
      var u := SmartyUnpack(ops, p.1, p.2, p.3.states, p.0.value);
      && packed == p.0 && back == u.0
      && sp.Control() == p.1 && sp.OwnState() == u.1 && sp.helpers == u.2 && sp.scratch == p.3.bufs
  {
    packed := sp.PackWith(ops, obj, []);
    back := sp.UnpackWith(ops, packed.value);
  }

  /** The same with the composite's own helper operations, from a fresh
      composite. */
  method PairOnce(c: Parsers.Codec, b: seq<Byte>) returns (packed: Result<seq<Byte>>, back: Result<Value>)
    requires c.IntCodec? && c.width >= 1 && Parsers.InIntRange(c.width, c.signed, |b|)
    ensures packed == Ok(Wire(c, b))
    ensures back == Ok(Record(map[Dat := Bytes(b)]))
  {
    var sp := NewPair(c);
    HelpersConcrete();
    packed, back := RoundTripWith(sp, Helpers, c, b);
  }
}
