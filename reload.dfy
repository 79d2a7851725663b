/** The composite of tests/test_simple_reload.py: a four-byte magic blob,
    a 32-bit version, an 8-bit cipher, and two blobs each preceded by its
    32-bit length through `link_length`. The lemmas follow `pack` and
    `unpack` through the seven fields for any values (and any calls left
    waiting by earlier packs), then the test's own sequence: pack, unpack,
    pack again with the calls of the first pack still waiting, unpack. */
module Reload {
  import opened Values
  import opened Callbacks
  import opened Fields
  import opened Smarty
  import opened Turns
  import Parsers
  import Scenario

  const Magic: string := "magic"
  const Version: string := "version"
  const Cipher: string := "cipher"
  const Body1Length: string := "body1_length"
  const Body1: string := "body1"
  const Body2Length: string := "body2_length"
  const Body2: string := "body2"

  /** Declaration order. */
  const Names: seq<string> := [Magic, Version, Cipher, Body1Length, Body1, Body2Length, Body2]

  /** The two blobs and the two length fields differ only in one letter. */
  lemma Distinct()
    ensures Body1 != Body2 && Body1Length != Body2Length
  {
    assert Body1[4] != Body2[4];
    assert Body1Length[4] != Body2Length[4];
  }

  /** The seven names are pairwise distinct. */
  lemma NamesDistinct()
    ensures Magic != Version && Magic != Cipher && Magic != Body1Length && Magic != Body1
    ensures Magic != Body2Length && Magic != Body2
    ensures Version != Cipher && Version != Body1Length && Version != Body1 && Version != Body2Length && Version != Body2
    ensures Cipher != Body1Length && Cipher != Body1 && Cipher != Body2Length && Cipher != Body2
    ensures Body1Length != Body1 && Body1Length != Body2Length && Body1Length != Body2
    ensures Body1 != Body2Length && Body1 != Body2 && Body2Length != Body2
  {
    assert Magic[0] != Body1[0] && Magic[0] != Body2[0];
    Distinct();
  }

  /** The length fields and their data fields. */
  const Links: map<string, string> := map[Body1Length := Body1, Body2Length := Body2]

  /** The codecs: an unsigned big-endian 32-bit integer, an unsigned
      8-bit integer, and a blob of any length. */
  const U32: Parsers.Codec := Parsers.IntCodec(4, false, Parsers.Big)
  const U8: Parsers.Codec := Parsers.IntCodec(1, false, Parsers.Big)
  const Neat: Parsers.Codec := Parsers.Blob(None)

  /** The slots `link_length(d, ...)` leaves on a length field ... */
  function LenSlots(d: string): Slots
  {
    Slots(Unset, Callback(SetLinkedLength(d), false), Callback(LinkedLength(d), true), Unset)
  }

  /** ... and on its data field `d`. */
  function DatSlots(d: string): Slots
  {
    Slots(Unset, Callback(Ignore(d), false), Callback(ClearOwnLength(d), false), Unset)
  }

  /** The schema after the test's setup, with the calls `o1` waiting on
      body1 and `o2` on body2 (none before the first pack). */
  function Format(o1: seq<Thunk>, o2: seq<Thunk>): (sch: Schema)
    ensures Shaped(sch) && sch.names == Names && sch.links == Links
    ensures sch.exclude == {Body1Length, Body2Length}
    ensures sch.waiting[Body1] == o1 && sch.waiting[Body2] == o2
    ensures sch.waiting[Body1Length] == [] && sch.waiting[Body2Length] == []
  {
    Schema(Names, {Body1Length, Body2Length}, Links,
      map[Magic := [], Version := [], Cipher := [], Body1Length := [], Body1 := o1, Body2Length := [], Body2 := o2])
  }

  // ---------------------------------------------------------------
  // The helpers' shape
  // ---------------------------------------------------------------

  function CodecOf(n: string): Parsers.Codec
  {
    if n == Magic || n == Body1 || n == Body2 then Neat
    else if n == Cipher then U8
    else U32
  }

  function SlotsOf(n: string): Slots
  {
    if n == Body1Length then LenSlots(Body1)
    else if n == Body2Length then LenSlots(Body2)
    else if n == Body1 then DatSlots(Body1)
    else if n == Body2 then DatSlots(Body2)
    else NoSlots
  }

  /** The length each helper keeps between packs: magic's explicit 4,
      the integers' widths; the blobs' lengths vary. */
  function WidthOf(n: string): Option<nat>
  {
    if n == Body1 || n == Body2 then None
    else if n == Cipher then Some(1)
    else Some(4)
  }

  /** Helper `n` has its codec and callbacks, and its fixed length. */
  ghost predicate Fitted(n: string, st: FieldState)
  {
    st.codec == CodecOf(n) && st.slots == SlotsOf(n) && (WidthOf(n).Some? ==> st.Length() == WidthOf(n))
  }

  /** What pack and unpack keep of the helpers. */
  ghost predicate Shape(states: map<string, FieldState>)
  {
    forall n | n in Names :: n in states && Fitted(n, states[n])
  }

  lemma ShapeAt(states: map<string, FieldState>, n: string)
    requires Shape(states) && n in Names
    ensures n in states && Fitted(n, states[n])
  {
  }

  lemma ShapeSet(states: map<string, FieldState>, n: string, st: FieldState)
    requires Shape(states) && n in Names && Fitted(n, st)
    ensures Shape(states[n := st])
  {
  }

  /** Magic has its explicit length 4 and the integers their widths; the
      other fields are fresh. */
  function Fresh(n: string): (st: FieldState)
    ensures Fitted(n, st) && st.offset == 0
  {
    FieldState(CodecOf(n), 0, if n == Magic then Some(4) else None, None, SlotsOf(n))
  }

  /** The helpers after the test's setup. */
  function Initial(): (states: map<string, FieldState>)
    ensures Shape(states)
  {
    map n | n in Names :: Fresh(n)
  }

  // ---------------------------------------------------------------
  // Values and their bytes
  // ---------------------------------------------------------------

  /** The values the codecs take: a four-byte magic (its explicit
      length), integers within their widths, blobs whose lengths fit the
      32-bit length fields. */
  predicate Packable(m: seq<Byte>, ver: nat, ciph: nat, b1: seq<Byte>, b2: seq<Byte>)
  {
    |m| == 4 && ver < 0x1_0000_0000 && ciph < 0x100 && |b1| < 0x1_0000_0000 && |b2| < 0x1_0000_0000
  }

  /** The test's dictionary. */
  function Obj(m: seq<Byte>, ver: nat, ciph: nat, b1: seq<Byte>, b2: seq<Byte>): map<string, Value>
  {
    map[Magic := Bytes(m), Version := Int(ver), Cipher := Int(ciph), Body1 := Bytes(b1), Body2 := Bytes(b2)]
  }

  /** The dictionary once `pack` has set the excluded length keys to None. */
  function Excluded(m: seq<Byte>, ver: nat, ciph: nat, b1: seq<Byte>, b2: seq<Byte>): (v: Value)
    ensures v.Record? && forall n | n in Names :: n in v.slots
  {
    Record(Obj(m, ver, ciph, b1, b2)[Body1Length := NoneV][Body2Length := NoneV])
  }

  /** `n` in big-endian order over `w` bytes. */
  function BE(n: nat, w: nat): (r: seq<Byte>)
    ensures |r| == w
  {
    Parsers.BigEndianBytes(n, w)
  }

  /** The packed form: magic, version, cipher, body1's length, body1,
      body2's length, body2. */
  function Frame(m: seq<Byte>, ver: nat, ciph: nat, b1: seq<Byte>, b2: seq<Byte>): (r: seq<Byte>)
    ensures |r| == |m| + 13 + |b1| + |b2|
  {
    m + BE(ver, 4) + BE(ciph, 1) + BE(|b1|, 4) + b1 + BE(|b2|, 4) + b2
  }

  /** The unpacked record: the five values, without the length keys. */
  function Back(m: seq<Byte>, ver: nat, ciph: nat, b1: seq<Byte>, b2: seq<Byte>): Value
  {
    Record(Obj(m, ver, ciph, b1, b2))
  }

  /** An unsigned big-endian integer field without callbacks encodes `v`
      as its bytes and decodes them back. */
  lemma IntCodes(w: nat, v: nat)
    requires 1 <= w && v < Parsers.Pow256(w)
    ensures Parsers.Pack(Parsers.IntCodec(w, false, Parsers.Big), Int(v)) == Ok(BE(v, w))
    ensures Encode(Parsers.IntCodec(w, false, Parsers.Big), NoSlots, Int(v), map[]) == Ok(BE(v, w))
    ensures Decode(Parsers.IntCodec(w, false, Parsers.Big), NoSlots, BE(v, w), map[]) == Ok(Int(v))
  {
    Parsers.IntRoundTrip(Parsers.IntCodec(w, false, Parsers.Big), v);
  }

  lemma Widths()
    ensures Parsers.Pow256(4) == 0x1_0000_0000 && Parsers.Pow256(1) == 0x100
  {
  }

  /** A length field's encoding of `n`. */
  lemma LengthCodes(n: nat, d: string)
    requires n < 0x1_0000_0000
    ensures Parsers.Pack(U32, Int(n)) == Ok(BE(n, 4))
    ensures Decode(U32, LenSlots(d), BE(n, 4), map[]) == Ok(Int(n))
  {
    Widths();
    IntCodes(4, n);
  }

  /** A data field encodes and decodes its bytes unchanged. */
  lemma BlobCodes(b: seq<Byte>, d: string)
    ensures Encode(Neat, DatSlots(d), Bytes(b), map[]) == Ok(b)
    ensures Decode(Neat, DatSlots(d), b, map[]) == Ok(Bytes(b))
    ensures Encode(Neat, NoSlots, Bytes(b), map[]) == Ok(b)
    ensures Decode(Neat, NoSlots, b, map[]) == Ok(Bytes(b))
  {
  }

  // ---------------------------------------------------------------
  // Patching scratch buffers
  // ---------------------------------------------------------------

  /** Calls that can patch buffers `bufs` with a four-byte length of `len`. */
  ghost predicate Stale(ts: seq<Thunk>, len: string, bufs: seq<seq<Byte>>)
  {
    forall j | 0 <= j < |ts| :: Patchable(ts[j], len, 4, bufs)
  }

  lemma StaleGrows(ts: seq<Thunk>, len: string, bufs: seq<seq<Byte>>, s: seq<Byte>)
    requires Stale(ts, len, bufs)
    ensures Stale(ts, len, bufs + [s])
  {
    forall j | 0 <= j < |ts| ensures Patchable(ts[j], len, 4, bufs + [s]) {
      assert Patchable(ts[j], len, 4, bufs);
    }
  }

  lemma StaleKept(ts: seq<Thunk>, len: string, bufs: seq<seq<Byte>>, bufs1: seq<seq<Byte>>)
    requires Stale(ts, len, bufs)
    requires |bufs1| == |bufs| && forall b | 0 <= b < |bufs| :: |bufs1[b]| == |bufs[b]|
    ensures Stale(ts, len, bufs1)
  {
    forall j | 0 <= j < |ts| ensures Patchable(ts[j], len, 4, bufs1) {
      assert Patchable(ts[j], len, 4, bufs);
    }
  }

  /** Calls into the earlier buffers leave a buffer added after them alone. */
  lemma {:induction false} PatchedOld(bufs: seq<seq<Byte>>, s: seq<Byte>, ts: seq<Thunk>, x: seq<Byte>)
    requires forall j | 0 <= j < |ts| :: ts[j].into < |bufs|
    ensures Patched(bufs + [s], ts, x) == Patched(bufs, ts, x) + [s]
    decreases |ts|
  {
    if ts != [] {
      var t := ts[0];
      assert (bufs + [s])[t.into] == bufs[t.into];
      if t.offset + |x| <= |bufs[t.into]| {
        assert (bufs + [s])[t.into := Overwrite(bufs[t.into], t.offset, x)] == bufs[t.into := Overwrite(bufs[t.into], t.offset, x)] + [s];
        PatchedOld(bufs[t.into := Overwrite(bufs[t.into], t.offset, x)], s, ts[1..], x);
      } else {
        PatchedOld(bufs, s, ts[1..], x);
      }
    }
  }

  /** The calls of a list, then one more. */
  lemma {:induction false} PatchedLast(bufs: seq<seq<Byte>>, ts: seq<Thunk>, t: Thunk, x: seq<Byte>)
    ensures Patched(bufs, ts + [t], x) == Patched(Patched(bufs, ts, x), [t], x)
    decreases |ts|
  {
    if ts != [] {
      assert (ts + [t])[0] == ts[0] && (ts + [t])[1..] == ts[1..] + [t];
      var u := ts[0];
      if u.into < |bufs| && u.offset + |x| <= |bufs[u.into]| {
        PatchedLast(bufs[u.into := Overwrite(bufs[u.into], u.offset, x)], ts[1..], t, x);
      } else {
        PatchedLast(bufs, ts[1..], t, x);
      }
    } else {
      assert [] + [t] == [t];
    }
  }

  /** Four bytes written over the four zeros after `q`. */
  lemma OverwriteZeros(q: seq<Byte>, x: seq<Byte>, data: seq<Byte>)
    requires |x| == 4
    ensures Overwrite(q + Zeros(4) + data, |q|, x) == q + x + data
  {
    var s := q + Zeros(4) + data;
    assert s[..|q|] == q;
    assert s[|q| + 4..] == data;
  }

  /** One call into the last buffer. */
  lemma PatchedOne(p: seq<seq<Byte>>, s: seq<Byte>, t: Thunk, x: seq<Byte>)
    requires t.into == |p| && t.offset + |x| <= |s|
    ensures Patched(p + [s], [t], x) == p + [Overwrite(s, t.offset, x)]
  {
    assert (p + [s])[t.into] == s;
    assert (p + [s])[t.into := Overwrite(s, t.offset, x)] == p + [Overwrite(s, t.offset, x)];
    assert [t][1..] == [];
  }

  /** The earlier calls patch the earlier buffers; the call of this pack
      writes `x` over the four zeros reserved after `q`. */
  lemma PatchedHere(bufs: seq<seq<Byte>>, ts: seq<Thunk>, t: Thunk, q: seq<Byte>, x: seq<Byte>, data: seq<Byte>)
    requires forall j | 0 <= j < |ts| :: ts[j].into < |bufs|
    requires t.into == |bufs| && t.offset == |q| && |x| == 4
    ensures Patched(bufs + [q + Zeros(4) + data], ts + [t], x) == Patched(bufs, ts, x) + [q + x + data]
  {
    var s := q + Zeros(4) + data;
    PatchedLast(bufs + [s], ts, t, x);
    PatchedOld(bufs, s, ts, x);
    var p := Patched(bufs, ts, x);
    PatchedOne(p, s, t, x);
    OverwriteZeros(q, x, data);
  }

  // ---------------------------------------------------------------
  // pack, field by field
  // ---------------------------------------------------------------

  /** Where the fields are declared. */
  lemma Positions()
    ensures IndexOf(Names, Body1Length) == 3 && IndexOf(Names, Body1) == 4
    ensures IndexOf(Names, Body2Length) == 5 && IndexOf(Names, Body2) == 6
  {
  }

  /** A data field's helper, packed, keeps the shape. */
  lemma ShapePacked(before: map<string, FieldState>, after: map<string, FieldState>, d: string, len: string, data: seq<Byte>)
    requires Shape(before) && d in Names && len in Names && WidthOf(d).None?
    requires DataPacked(before, after, d, len, data)
    ensures Shape(after)
  {
    ShapeAt(before, d);
    ShapeSet(before, d, after[d]);
    var mid := before[d := after[d]];
    ShapeAt(mid, len);
    assert after == mid[len := after[len]];
    assert after[len].Length() == mid[len].Length();
    ShapeSet(mid, len, after[len]);
  }

  /** A schema laid out as the composite's; calls wait only on the data
      fields. */
  ghost predicate Laid(sch: Schema)
  {
    && Shaped(sch) && sch.names == Names && sch.links == Links
    && Magic in sch.waiting && Version in sch.waiting && Cipher in sch.waiting
    && Body1Length in sch.waiting && Body1 in sch.waiting && Body2Length in sch.waiting && Body2 in sch.waiting
    && sch.waiting[Magic] == [] && sch.waiting[Version] == [] && sch.waiting[Cipher] == []
    && sch.waiting[Body1Length] == [] && sch.waiting[Body2Length] == []
  }

  /** The fields before the first length field, by position. */
  predicate PlainAt(i: nat, name: string)
  {
    (i == 0 && name == Magic) || (i == 1 && name == Version) || (i == 2 && name == Cipher)
  }

  /** Such a field takes `data` of its width. */
  lemma PlainFits(states: map<string, FieldState>, name: string, data: seq<Byte>)
    requires Shape(states) && (name == Magic || name == Version || name == Cipher)
    requires WidthOf(name) == Some(|data|)
    ensures name in states && states[name].codec == CodecOf(name) && states[name].slots == NoSlots
    ensures PacksAlone(states[name].slots) && Fits(states[name], |data|)
  {
    ShapeAt(states, name);
  }

  /** What the pack loop asks of the helpers. */
  lemma ShapeCovers(states: map<string, FieldState>)
    requires Shape(states)
    ensures Covers(Names, states)
  {
  }

  /** A turn that passes hands on to the next field. */
  lemma Chain(ops: Ops, sch: Schema, obj: Value, cur: nat, i: nat, seeker: nat, w: World,
              sch1: Schema, seeker1: nat, w1: World)
    requires Shaped(sch) && Covers(sch.names, w.states) && cur < |w.bufs| && i < |sch.names|
    requires var t := PackTurn(ops, sch, obj, cur, i, seeker, w); t.0 == Pass && t.1 == seeker1 && t.2 == sch1 && t.3 == w1
    ensures Shaped(sch1) && Covers(sch1.names, w1.states) && cur < |w1.bufs|
    ensures PackFrom(ops, sch, obj, cur, i, seeker, w) == PackFrom(ops, sch1, obj, cur, i + 1, seeker1, w1)
  {
    PackFromStep(ops, sch, obj, cur, i, seeker, w);
  }

  /** Where such a field sits in the schema. */
  lemma PlainPlaced(sch: Schema, i: nat, name: string)
    requires Laid(sch) && PlainAt(i, name)
    ensures i < |sch.names| && sch.names[i] == name && name !in sch.links && sch.waiting[name] == []
  {
  }

  /** Its helper, packed, keeps the shape. */
  lemma ShapePlain(states: map<string, FieldState>, name: string, st: FieldState)
    requires Shape(states) && (name == Magic || name == Version || name == Cipher)
    requires SameHelper(st, states[name]) && st.Length() == WidthOf(name)
    ensures Shape(states[name := st]) && Covers(Names, states)
  {
    ShapeAt(states, name);
    ShapeSet(states, name, st);
  }

  /** Magic, version or cipher, after the bytes `p`: its encoded value
      is appended and the cursor moves past it. */
  lemma PlainStep(ops: Ops, sch: Schema, obj: Value, i: nat, name: string, w: World, bufs: seq<seq<Byte>>,
                  p: seq<Byte>, data: seq<Byte>)
    requires Concrete(ops) && Laid(sch) && Shape(w.states) && PlainAt(i, name)
    requires obj.Record? && name in obj.slots && w.bufs == bufs + [p]
    requires Encode(CodecOf(name), NoSlots, obj.slots[name], map[]) == Ok(data)
    requires WidthOf(name) == Some(|data|)
    ensures var r := PackTurn(ops, sch, obj, |bufs|, i, |p|, w);
      && r.0 == Pass && r.1 == |p| + |data| && r.2 == sch
      && Shape(r.3.states) && r.3.bufs == bufs + [p + data]
  {
    PlainFits(w.states, name, data);
    PlainPlaced(sch, i, name);
    ShapePlain(w.states, name, w.states[name]);
    PlainTurn(ops, sch, obj, |bufs|, i, |p|, w, data);
    var r := PackTurn(ops, sch, obj, |bufs|, i, |p|, w);
    ShapePlain(w.states, name, r.3.states[name]);
    assert (bufs + [p])[|bufs| := p + data] == bufs + [p + data];
  }

  /** Where a length field and its data field sit in the schema. */
  lemma LengthPlaced(sch: Schema, i: nat, len: string, d: string)
    requires Shaped(sch) && sch.names == Names && sch.links == Links && DataAt(i + 1, len, d)
    ensures i < |sch.names| && sch.names[i] == len && len in sch.links && sch.links[len] == d
  {
  }

  /** A length field is four bytes wide. */
  lemma LengthWidth(states: map<string, FieldState>, len: string)
    requires Shape(states) && (len == Body1Length || len == Body2Length)
    ensures len in states && Parsers.Length(states[len].codec) == Some(4) && states[len].Length() == Some(4)
  {
    ShapeAt(states, len);
  }

  /** A length field's helper, reserved, keeps the shape. */
  lemma ShapeReserved(states: map<string, FieldState>, len: string, st: FieldState)
    requires Shape(states) && (len == Body1Length || len == Body2Length)
    requires st == states[len].(offset := 0, explicit := Some(4), slice := st.slice)
    ensures Shape(states[len := st]) && st.explicit == Some(4)
  {
    ShapeAt(states, len);
    ShapeSet(states, len, st);
  }

  /** A length field, after the bytes `q`: four zeros are appended and a
      call remembering the cursor waits on its data field. */
  lemma ReserveStep(ops: Ops, sch: Schema, obj: Value, i: nat, w: World, bufs: seq<seq<Byte>>, q: seq<Byte>,
                    len: string, d: string)
    requires Concrete(ops) && Shaped(sch) && sch.names == Names && sch.links == Links && Shape(w.states)
    requires DataAt(i + 1, len, d)
    requires obj.Record? && len in obj.slots && w.bufs == bufs + [q]
    ensures var r := PackTurn(ops, sch, obj, |bufs|, i, |q|, w);
      && r.0 == Pass && r.1 == |q| + 4
      && r.2 == sch.(waiting := sch.waiting[d := sch.waiting[d] + [Thunk(len, |q|, Some(4), obj, |bufs|)]])
      && Shape(r.3.states) && r.3.states[len].explicit == Some(4)
      && r.3.bufs == bufs + [q + Zeros(4)]
  {
    LengthPlaced(sch, i, len, d);
    LengthWidth(w.states, len);
    ReserveTurn(ops, sch, obj, |bufs|, i, |q|, w, 4);
    var r := PackTurn(ops, sch, obj, |bufs|, i, |q|, w);
    ShapeReserved(w.states, len, r.3.states[len]);
    assert (bufs + [q])[|bufs| := q + Zeros(4)] == bufs + [q + Zeros(4)];
  }

  /** The calls waiting on a data field: those of earlier packs, and the
      one this pack made after `q`. */
  lemma WaitingPatchable(ts: seq<Thunk>, len: string, bufs: seq<seq<Byte>>, q: seq<Byte>, obj: Value)
    requires Stale(ts, len, bufs) && obj.Record? && len in obj.slots
    ensures var t := Thunk(len, |q|, Some(4), obj, |bufs|);
      forall j | 0 <= j < |ts + [t]| :: Patchable((ts + [t])[j], len, 4, bufs + [q + Zeros(4)])
    ensures forall j | 0 <= j < |ts| :: ts[j].into < |bufs|
  {
    var t := Thunk(len, |q|, Some(4), obj, |bufs|);
    StaleGrows(ts, len, bufs, q + Zeros(4));
    forall j | 0 <= j < |ts + [t]| ensures Patchable((ts + [t])[j], len, 4, bufs + [q + Zeros(4)]) {
      if j < |ts| {
        assert Patchable(ts[j], len, 4, bufs + [q + Zeros(4)]);
      }
    }
    forall j | 0 <= j < |ts| ensures ts[j].into < |bufs| {
      assert Patchable(ts[j], len, 4, bufs);
    }
  }

  /** What a length field of the composite is once it has reserved. */
  lemma LengthReady(states: map<string, FieldState>, len: string, d: string)
    requires Shape(states) && (len, d) in {(Body1Length, Body1), (Body2Length, Body2)}
    requires states[len].explicit == Some(4)
    ensures LengthField(states[len], d, 4)
  {
    ShapeAt(states, len);
  }

  /** The world after a data field's turn, from what `DataTurn` says of it. */
  lemma DataAfter(w: World, w1: World, bufs: seq<seq<Byte>>, q: seq<Byte>, ts: seq<Thunk>, t: Thunk,
                  d: string, len: string, data: seq<Byte>)
    requires Shape(w.states) && d in Names && len in Names && WidthOf(d).None?
    requires w.bufs == bufs + [q + Zeros(4)]
    requires forall j | 0 <= j < |ts| :: ts[j].into < |bufs|
    requires t.into == |bufs| && t.offset == |q|
    requires w1.bufs == Patched(w.bufs[|bufs| := w.bufs[|bufs|] + data], ts + [t], BE(|data|, 4))
    requires DataPacked(w.states, w1.states, d, len, data)
    ensures Shape(w1.states) && w1.bufs == Patched(bufs, ts, BE(|data|, 4)) + [q + BE(|data|, 4) + data]
  {
    ShapePacked(w.states, w1.states, d, len, data);
    assert w.bufs[|bufs| := w.bufs[|bufs|] + data] == bufs + [q + Zeros(4) + data];
    PatchedHere(bufs, ts, t, q, BE(|data|, 4), data);
  }

  /** The data fields, by position, with their length fields. */
  predicate DataAt(i: nat, len: string, d: string)
  {
    (i == 4 && len == Body1Length && d == Body1) || (i == 6 && len == Body2Length && d == Body2)
  }

  /** Where a data field and its length field sit in the schema. */
  lemma DataPlaced(sch: Schema, i: nat, len: string, d: string)
    requires Shaped(sch) && sch.names == Names && sch.links == Links && DataAt(i, len, d)
    ensures i < |sch.names| && sch.names[i] == d && sch.names[i - 1] == len
    ensures d !in sch.links && len in sch.names && len != d
    ensures IndexOf(sch.names, len) <= IndexOf(sch.names, d)
  {
    Positions();
  }

  /** A data field's helper packs `data` unchanged. */
  lemma DataEncodes(st: FieldState, d: string, data: seq<Byte>)
    requires Fitted(d, st) && (d == Body1 || d == Body2)
    ensures PacksAlone(st.slots) && Encode(st.codec, st.slots, Bytes(data), map[]) == Ok(data) && Fits(st, |data|)
  {
    BlobCodes(data, d);
  }

  /** A data field's turn, after the bytes `q` and the four zeros its
      length field reserved, meets what `DataTurn` asks. */
  lemma DataReady(sch: Schema, obj: Value, i: nat, w: World, bufs: seq<seq<Byte>>, q: seq<Byte>,
                  ts: seq<Thunk>, len: string, d: string, data: seq<Byte>)
    requires Shaped(sch) && sch.names == Names && sch.links == Links && Shape(w.states) && DataAt(i, len, d)
    requires sch.waiting[d] == ts + [Thunk(len, |q|, Some(4), obj, |bufs|)]
    requires Stale(ts, len, bufs)
    requires obj.Record? && len in obj.slots && d in obj.slots && obj.slots[d] == Bytes(data)
    requires w.bufs == bufs + [q + Zeros(4)] && w.states[len].explicit == Some(4)
    requires |data| < 0x1_0000_0000
    ensures var st := w.states[d];
      PacksAlone(st.slots) && Encode(st.codec, st.slots, obj.slots[d], map[]) == Ok(data) && Fits(st, |data|)
    ensures forall j | 0 <= j < |sch.waiting[d]| :: Patchable(sch.waiting[d][j], len, 4, w.bufs)
    ensures LengthField(w.states[len], d, 4)
    ensures Parsers.Pack(w.states[len].codec, Int(|data|)) == Ok(BE(|data|, 4))
    ensures forall j | 0 <= j < |ts| :: ts[j].into < |bufs|
  {
    ShapeAt(w.states, d);
    DataEncodes(w.states[d], d, data);
    LengthCodes(|data|, d);
    LengthReady(w.states, len, d);
    WaitingPatchable(ts, len, bufs, q, obj);
  }

  /** A data field, after the bytes `q` and the four zeros its length
      field reserved: its bytes are appended, the earlier calls patch the
      earlier buffers and the call of this pack writes its length over
      the zeros. */
  lemma DataStep(ops: Ops, sch: Schema, obj: Value, i: nat, w: World, bufs: seq<seq<Byte>>, q: seq<Byte>,
                 ts: seq<Thunk>, len: string, d: string, data: seq<Byte>)
    requires Concrete(ops) && Shaped(sch) && sch.names == Names && sch.links == Links && Shape(w.states)
    requires DataAt(i, len, d) && sch.waiting[len] == []
    requires sch.waiting[d] == ts + [Thunk(len, |q|, Some(4), obj, |bufs|)]
    requires Stale(ts, len, bufs)
    requires obj.Record? && len in obj.slots && d in obj.slots && obj.slots[d] == Bytes(data)
    requires w.bufs == bufs + [q + Zeros(4)] && w.states[len].explicit == Some(4)
    requires |data| < 0x1_0000_0000
    ensures var r := PackTurn(ops, sch, obj, |bufs|, i, |q| + 4, w);
      && r.0 == Pass && r.1 == |q| + 4 + |data| && r.2 == sch && Shape(r.3.states)
      && r.3.bufs == Patched(bufs, ts, BE(|data|, 4)) + [q + BE(|data|, 4) + data]
  {
    DataPlaced(sch, i, len, d);
    DataReady(sch, obj, i, w, bufs, q, ts, len, d, data);
    DataTurn(ops, sch, obj, |bufs|, i, |q| + 4, len, w, data, 4, BE(|data|, 4));
    var r := PackTurn(ops, sch, obj, |bufs|, i, |q| + 4, w);
    DataAfter(w, r.3, bufs, q, ts, Thunk(len, |q|, Some(4), obj, |bufs|), d, len, data);
  }

  // ---------------------------------------------------------------
  // The pack loop
  // ---------------------------------------------------------------

  /** The record holds the five values (the length keys are present,
      set to None), and they are packable. */
  ghost predicate Holds(obj: Value, m: seq<Byte>, ver: nat, ciph: nat, b1: seq<Byte>, b2: seq<Byte>)
  {
    && obj.Record? && Body1Length in obj.slots && Body2Length in obj.slots
    && Magic in obj.slots && obj.slots[Magic] == Bytes(m)
    && Version in obj.slots && obj.slots[Version] == Int(ver)
    && Cipher in obj.slots && obj.slots[Cipher] == Int(ciph)
    && Body1 in obj.slots && obj.slots[Body1] == Bytes(b1)
    && Body2 in obj.slots && obj.slots[Body2] == Bytes(b2)
    && Packable(m, ver, ciph, b1, b2)
  }

  /** The bytes up to the first length field ... */
  function Head(m: seq<Byte>, ver: nat, ciph: nat): (r: seq<Byte>)
    ensures |r| == |m| + 5
  {
    m + BE(ver, 4) + BE(ciph, 1)
  }

  /** ... and up to the second. */
  function Upto1(m: seq<Byte>, ver: nat, ciph: nat, b1: seq<Byte>): (r: seq<Byte>)
    ensures |r| == |m| + 9 + |b1|
  {
    Head(m, ver, ciph) + BE(|b1|, 4) + b1
  }

  /** The call each length field leaves waiting on its data field. */
  function Call1(obj: Value, cur: nat): Thunk
  {
    Thunk(Body1Length, 9, Some(4), obj, cur)
  }

  function Call2(obj: Value, cur: nat, b1: seq<Byte>): Thunk
  {
    Thunk(Body2Length, 13 + |b1|, Some(4), obj, cur)
  }

  /** The last field, body2. */
  lemma From6(ops: Ops, sch: Schema, o2: seq<Thunk>, obj: Value, m: seq<Byte>, ver: nat, ciph: nat,
              b1: seq<Byte>, b2: seq<Byte>, bufs: seq<seq<Byte>>, w: World)
    returns (r: (Outcome, Schema, World))
    requires Concrete(ops) && Holds(obj, m, ver, ciph, b1, b2) && Shape(w.states) && Stale(o2, Body2Length, bufs)
    requires Laid(sch) && sch.waiting[Body2] == o2 + [Call2(obj, |bufs|, b1)]
    requires w.bufs == bufs + [Upto1(m, ver, ciph, b1) + Zeros(4)] && w.states[Body2Length].explicit == Some(4)
    ensures r == PackFrom(ops, sch, obj, |bufs|, 6, 17 + |b1|, w)
    ensures r.0 == Pass && r.1 == sch && Shape(r.2.states)
    ensures r.2.bufs == Patched(bufs, o2, BE(|b2|, 4)) + [Frame(m, ver, ciph, b1, b2)]
  {
    var q := Upto1(m, ver, ciph, b1);
    assert |q| == 13 + |b1|;
    DataStep(ops, sch, obj, 6, w, bufs, q, o2, Body2Length, Body2, b2);
    var w1 := PackTurn(ops, sch, obj, |bufs|, 6, 17 + |b1|, w).3;
    ShapeCovers(w.states);
    Chain(ops, sch, obj, |bufs|, 6, 17 + |b1|, w, sch, 17 + |b1| + |b2|, w1);
    r := (Pass, sch, w1);
    assert PackFrom(ops, sch, obj, |bufs|, 7, 17 + |b1| + |b2|, w1) == r;
    assert Frame(m, ver, ciph, b1, b2) == q + BE(|b2|, 4) + b2;
  }

  /** Adding a call to a data field's wait list keeps the layout. */
  lemma LaidWaits(sch: Schema, d: string, t: Thunk)
    requires Laid(sch) && (d == Body1 || d == Body2)
    ensures Laid(sch.(waiting := sch.waiting[d := sch.waiting[d] + [t]]))
  {
  }

  /** body2_length reserves. */
  lemma From5(ops: Ops, sch: Schema, o2: seq<Thunk>, obj: Value, m: seq<Byte>, ver: nat, ciph: nat,
              b1: seq<Byte>, b2: seq<Byte>, bufs: seq<seq<Byte>>, w: World)
    returns (r: (Outcome, Schema, World))
    requires Concrete(ops) && Holds(obj, m, ver, ciph, b1, b2) && Shape(w.states) && Stale(o2, Body2Length, bufs)
    requires Laid(sch) && sch.waiting[Body2] == o2
    requires w.bufs == bufs + [Upto1(m, ver, ciph, b1)]
    ensures r == PackFrom(ops, sch, obj, |bufs|, 5, 13 + |b1|, w)
    ensures r.0 == Pass && r.1 == sch.(waiting := sch.waiting[Body2 := o2 + [Call2(obj, |bufs|, b1)]]) && Shape(r.2.states)
    ensures r.2.bufs == Patched(bufs, o2, BE(|b2|, 4)) + [Frame(m, ver, ciph, b1, b2)]
  {
    var q := Upto1(m, ver, ciph, b1);
    assert |q| == 13 + |b1|;
    ReserveStep(ops, sch, obj, 5, w, bufs, q, Body2Length, Body2);
    var w1 := PackTurn(ops, sch, obj, |bufs|, 5, 13 + |b1|, w).3;
    var sch1 := sch.(waiting := sch.waiting[Body2 := o2 + [Call2(obj, |bufs|, b1)]]);
    ShapeCovers(w.states);
    Chain(ops, sch, obj, |bufs|, 5, 13 + |b1|, w, sch1, 17 + |b1|, w1);
    LaidWaits(sch, Body2, Call2(obj, |bufs|, b1));
    r := From6(ops, sch1, o2, obj, m, ver, ciph, b1, b2, bufs, w1);
  }

  /** The old calls on body2_length still fit once body1's calls have
      patched. */
  lemma StalePatched(o1: seq<Thunk>, o2: seq<Thunk>, bufs: seq<seq<Byte>>, x: seq<Byte>)
    requires Stale(o2, Body2Length, bufs)
    ensures Stale(o2, Body2Length, Patched(bufs, o1, x)) && |Patched(bufs, o1, x)| == |bufs|
  {
    StaleKept(o2, Body2Length, bufs, Patched(bufs, o1, x));
  }

  /** body1: its bytes follow the head and the four bytes reserved. */
  lemma From4(ops: Ops, sch: Schema, o1: seq<Thunk>, o2: seq<Thunk>, obj: Value, m: seq<Byte>, ver: nat, ciph: nat,
              b1: seq<Byte>, b2: seq<Byte>, bufs: seq<seq<Byte>>, w: World)
    returns (r: (Outcome, Schema, World))
    requires Concrete(ops) && Holds(obj, m, ver, ciph, b1, b2) && Shape(w.states)
    requires Stale(o1, Body1Length, bufs) && Stale(o2, Body2Length, bufs)
    requires Laid(sch) && sch.waiting[Body1] == o1 + [Call1(obj, |bufs|)] && sch.waiting[Body2] == o2
    requires w.bufs == bufs + [Head(m, ver, ciph) + Zeros(4)] && w.states[Body1Length].explicit == Some(4)
    ensures r == PackFrom(ops, sch, obj, |bufs|, 4, 13, w)
    ensures r.0 == Pass && r.1 == sch.(waiting := sch.waiting[Body2 := o2 + [Call2(obj, |bufs|, b1)]]) && Shape(r.2.states)
    ensures r.2.bufs == Patched(Patched(bufs, o1, BE(|b1|, 4)), o2, BE(|b2|, 4)) + [Frame(m, ver, ciph, b1, b2)]
  {
    var q := Head(m, ver, ciph);
    assert |q| == 9;
    DataStep(ops, sch, obj, 4, w, bufs, q, o1, Body1Length, Body1, b1);
    var w1 := PackTurn(ops, sch, obj, |bufs|, 4, 13, w).3;
    ShapeCovers(w.states);
    Chain(ops, sch, obj, |bufs|, 4, 13, w, sch, 13 + |b1|, w1);
    StalePatched(o1, o2, bufs, BE(|b1|, 4));
    assert q + BE(|b1|, 4) + b1 == Upto1(m, ver, ciph, b1);
    r := From5(ops, sch, o2, obj, m, ver, ciph, b1, b2, Patched(bufs, o1, BE(|b1|, 4)), w1);
  }

  /** body1_length reserves. */
  lemma From3(ops: Ops, sch: Schema, o1: seq<Thunk>, o2: seq<Thunk>, obj: Value, m: seq<Byte>, ver: nat, ciph: nat,
              b1: seq<Byte>, b2: seq<Byte>, bufs: seq<seq<Byte>>, w: World)
    returns (r: (Outcome, Schema, World))
    requires Concrete(ops) && Holds(obj, m, ver, ciph, b1, b2) && Shape(w.states)
    requires Stale(o1, Body1Length, bufs) && Stale(o2, Body2Length, bufs)
    requires Laid(sch) && sch.waiting[Body1] == o1 && sch.waiting[Body2] == o2
    requires w.bufs == bufs + [Head(m, ver, ciph)]
    ensures r == PackFrom(ops, sch, obj, |bufs|, 3, 9, w)
    ensures r.0 == Pass
    ensures r.1 == sch.(waiting := sch.waiting[Body1 := o1 + [Call1(obj, |bufs|)]][Body2 := o2 + [Call2(obj, |bufs|, b1)]])
    ensures Shape(r.2.states)
    ensures r.2.bufs == Patched(Patched(bufs, o1, BE(|b1|, 4)), o2, BE(|b2|, 4)) + [Frame(m, ver, ciph, b1, b2)]
  {
    var q := Head(m, ver, ciph);
    assert |q| == 9;
    ReserveStep(ops, sch, obj, 3, w, bufs, q, Body1Length, Body1);
    var w1 := PackTurn(ops, sch, obj, |bufs|, 3, 9, w).3;
    var sch1 := sch.(waiting := sch.waiting[Body1 := o1 + [Call1(obj, |bufs|)]]);
    ShapeCovers(w.states);
    Chain(ops, sch, obj, |bufs|, 3, 9, w, sch1, 13, w1);
    LaidWaits(sch, Body1, Call1(obj, |bufs|));
    Distinct();
    assert sch1.waiting[Body2] == o2;
    r := From4(ops, sch1, o1, o2, obj, m, ver, ciph, b1, b2, bufs, w1);
  }

  /** The three plain fields' encodings. */
  lemma PlainCodes(m: seq<Byte>, ver: nat, ciph: nat)
    requires |m| == 4 && ver < 0x1_0000_0000 && ciph < 0x100
    ensures Encode(CodecOf(Magic), NoSlots, Bytes(m), map[]) == Ok(m)
    ensures Encode(CodecOf(Version), NoSlots, Int(ver), map[]) == Ok(BE(ver, 4))
    ensures Encode(CodecOf(Cipher), NoSlots, Int(ciph), map[]) == Ok(BE(ciph, 1))
    ensures |BE(ver, 4)| == 4 && |BE(ciph, 1)| == 1
  {
    Widths();
    IntCodes(4, ver);
    IntCodes(1, ciph);
    BlobCodes(m, Body1);
  }

  /** cipher. */
  lemma From2(ops: Ops, sch: Schema, o1: seq<Thunk>, o2: seq<Thunk>, obj: Value, m: seq<Byte>, ver: nat, ciph: nat,
              b1: seq<Byte>, b2: seq<Byte>, bufs: seq<seq<Byte>>, w: World)
    returns (r: (Outcome, Schema, World))
    requires Concrete(ops) && Holds(obj, m, ver, ciph, b1, b2) && Shape(w.states)
    requires Stale(o1, Body1Length, bufs) && Stale(o2, Body2Length, bufs)
    requires Laid(sch) && sch.waiting[Body1] == o1 && sch.waiting[Body2] == o2
    requires w.bufs == bufs + [m + BE(ver, 4)]
    ensures r == PackFrom(ops, sch, obj, |bufs|, 2, 8, w)
    ensures r.0 == Pass
    ensures r.1 == sch.(waiting := sch.waiting[Body1 := o1 + [Call1(obj, |bufs|)]][Body2 := o2 + [Call2(obj, |bufs|, b1)]])
    ensures Shape(r.2.states)
    ensures r.2.bufs == Patched(Patched(bufs, o1, BE(|b1|, 4)), o2, BE(|b2|, 4)) + [Frame(m, ver, ciph, b1, b2)]
  {
    var p := m + BE(ver, 4);
    PlainCodes(m, ver, ciph);
    assert |p| == 8;
    PlainStep(ops, sch, obj, 2, Cipher, w, bufs, p, BE(ciph, 1));
    var w1 := PackTurn(ops, sch, obj, |bufs|, 2, 8, w).3;
    ShapeCovers(w.states);
    Chain(ops, sch, obj, |bufs|, 2, 8, w, sch, 9, w1);
    assert p + BE(ciph, 1) == Head(m, ver, ciph);
    r := From3(ops, sch, o1, o2, obj, m, ver, ciph, b1, b2, bufs, w1);
  }

  /** version. */
  lemma From1(ops: Ops, sch: Schema, o1: seq<Thunk>, o2: seq<Thunk>, obj: Value, m: seq<Byte>, ver: nat, ciph: nat,
              b1: seq<Byte>, b2: seq<Byte>, bufs: seq<seq<Byte>>, w: World)
    returns (r: (Outcome, Schema, World))
    requires Concrete(ops) && Holds(obj, m, ver, ciph, b1, b2) && Shape(w.states)
    requires Stale(o1, Body1Length, bufs) && Stale(o2, Body2Length, bufs)
    requires Laid(sch) && sch.waiting[Body1] == o1 && sch.waiting[Body2] == o2
    requires w.bufs == bufs + [m]
    ensures r == PackFrom(ops, sch, obj, |bufs|, 1, 4, w)
    ensures r.0 == Pass
    ensures r.1 == sch.(waiting := sch.waiting[Body1 := o1 + [Call1(obj, |bufs|)]][Body2 := o2 + [Call2(obj, |bufs|, b1)]])
    ensures Shape(r.2.states)
    ensures r.2.bufs == Patched(Patched(bufs, o1, BE(|b1|, 4)), o2, BE(|b2|, 4)) + [Frame(m, ver, ciph, b1, b2)]
  {
    PlainCodes(m, ver, ciph);
    PlainStep(ops, sch, obj, 1, Version, w, bufs, m, BE(ver, 4));
    var w1 := PackTurn(ops, sch, obj, |bufs|, 1, 4, w).3;
    ShapeCovers(w.states);
    Chain(ops, sch, obj, |bufs|, 1, 4, w, sch, 8, w1);
    r := From2(ops, sch, o1, o2, obj, m, ver, ciph, b1, b2, bufs, w1);
  }

  /** magic, the first field, into an empty buffer. */
  lemma From0(ops: Ops, sch: Schema, o1: seq<Thunk>, o2: seq<Thunk>, obj: Value, m: seq<Byte>, ver: nat, ciph: nat,
              b1: seq<Byte>, b2: seq<Byte>, bufs: seq<seq<Byte>>, w: World)
    returns (r: (Outcome, Schema, World))
    requires Concrete(ops) && Holds(obj, m, ver, ciph, b1, b2) && Shape(w.states)
    requires Stale(o1, Body1Length, bufs) && Stale(o2, Body2Length, bufs)
    requires Laid(sch) && sch.waiting[Body1] == o1 && sch.waiting[Body2] == o2
    requires w.bufs == bufs + [[]]
    ensures r == PackFrom(ops, sch, obj, |bufs|, 0, 0, w)
    ensures r.0 == Pass
    ensures r.1 == sch.(waiting := sch.waiting[Body1 := o1 + [Call1(obj, |bufs|)]][Body2 := o2 + [Call2(obj, |bufs|, b1)]])
    ensures Shape(r.2.states)
    ensures r.2.bufs == Patched(Patched(bufs, o1, BE(|b1|, 4)), o2, BE(|b2|, 4)) + [Frame(m, ver, ciph, b1, b2)]
  {
    PlainCodes(m, ver, ciph);
    PlainStep(ops, sch, obj, 0, Magic, w, bufs, [], m);
    var w1 := PackTurn(ops, sch, obj, |bufs|, 0, 0, w).3;
    ShapeCovers(w.states);
    assert [] + m == m;
    Chain(ops, sch, obj, |bufs|, 0, 0, w, sch, 4, w1);
    r := From1(ops, sch, o1, o2, obj, m, ver, ciph, b1, b2, bufs, w1);
  }

  // ---------------------------------------------------------------
  // pack, whole
  // ---------------------------------------------------------------

  /** The declared schema is laid out, whatever waits on the blobs. */
  lemma FormatLaid(o1: seq<Thunk>, o2: seq<Thunk>)
    ensures Laid(Format(o1, o2))
  {
  }

  /** Both length fields' calls added to the wait lists. */
  lemma FormatGrows(o1: seq<Thunk>, o2: seq<Thunk>, t1: Thunk, t2: Thunk)
    ensures var sch := Format(o1, o2);
      sch.(waiting := sch.waiting[Body1 := o1 + [t1]][Body2 := o2 + [t2]]) == Format(o1 + [t1], o2 + [t2])
  {
    var sch := Format(o1, o2);
    var a := sch.waiting[Body1 := o1 + [t1]][Body2 := o2 + [t2]];
    var b := Format(o1 + [t1], o2 + [t2]).waiting;
    Distinct();
    assert a.Keys == b.Keys;
    forall k | k in a.Keys ensures a[k] == b[k] {
    }
  }

  /** `pack` sets the length fields of the record to None first. */
  lemma ExcludeLengths(m: seq<Byte>, ver: nat, ciph: nat, b1: seq<Byte>, b2: seq<Byte>)
    requires Packable(m, ver, ciph, b1, b2)
    ensures ExcludeNone(Back(m, ver, ciph, b1, b2), {Body1Length, Body2Length}) == Ok(Excluded(m, ver, ciph, b1, b2))
    ensures Holds(Excluded(m, ver, ciph, b1, b2), m, ver, ciph, b1, b2)
  {
    NamesDistinct();
    var o := Obj(m, ver, ciph, b1, b2);
    var e := ExcludeNone(Record(o), {Body1Length, Body2Length}).value.slots;
    var x := o[Body1Length := NoneV][Body2Length := NoneV];
    assert e.Keys == x.Keys;
    forall k | k in e.Keys ensures e[k] == x[k] {
      if k != Body1Length && k != Body2Length {
        assert e[k] == o[k];
      }
    }
    assert e == x;
  }

  /** The whole `pack` of the record into an empty destination: the bytes
      are the frame; one call per length field now waits on its blob; the
      calls of earlier packs have written the new lengths into their old
      buffers. */
  lemma PackComposite(ops: Ops, o1: seq<Thunk>, o2: seq<Thunk>, own: Own, states: map<string, FieldState>,
                      bufs: seq<seq<Byte>>, m: seq<Byte>, ver: nat, ciph: nat, b1: seq<Byte>, b2: seq<Byte>)
    requires Concrete(ops) && Shape(states) && own.slots == NoSlots && Packable(m, ver, ciph, b1, b2)
    requires Stale(o1, Body1Length, bufs) && Stale(o2, Body2Length, bufs)
    ensures var x := Excluded(m, ver, ciph, b1, b2);
      var r := SmartyPack(ops, Format(o1, o2), own, World(states, bufs), Back(m, ver, ciph, b1, b2), []);
      && r.0 == Ok(Frame(m, ver, ciph, b1, b2))
      && r.1 == Format(o1 + [Call1(x, |bufs|)], o2 + [Call2(x, |bufs|, b1)])
      && r.2 == own.(length := Some(|Frame(m, ver, ciph, b1, b2)|), slice := r.2.slice)
      && Shape(r.3.states)
      && r.3.bufs == Patched(Patched(bufs, o1, BE(|b1|, 4)), o2, BE(|b2|, 4)) + [Frame(m, ver, ciph, b1, b2)]
  {
    var x := Excluded(m, ver, ciph, b1, b2);
    var sch := Format(o1, o2);
    var w := World(states, bufs);
    ExcludeLengths(m, ver, ciph, b1, b2);
    FormatLaid(o1, o2);
    var w0 := w.(bufs := bufs + [[]]);
    var r := From0(ops, sch, o1, o2, x, m, ver, ciph, b1, b2, bufs, w0);
    FormatGrows(o1, o2, Call1(x, |bufs|), Call2(x, |bufs|, b1));
    assert r.2.bufs[|bufs|] == Frame(m, ver, ciph, b1, b2);
    FinishWrites(own, Frame(m, ver, ciph, b1, b2), []);
  }

  // ---------------------------------------------------------------
  // unpack, field by field
  // ---------------------------------------------------------------

  /** The middle of three pieces. */
  lemma Middle(a: seq<Byte>, b: seq<Byte>, c: seq<Byte>)
    ensures (a + b + c)[|a|..|a| + |b|] == b
  {
    assert (a + b + c)[|a|..|a| + |b|] == (a + b)[|a|..];
  }

  /** Where each field's bytes sit in the frame, after `pre`. */
  lemma Layout(pre: seq<Byte>, m: seq<Byte>, ver: nat, ciph: nat, b1: seq<Byte>, b2: seq<Byte>)
    requires |m| == 4
    ensures var f := pre + Frame(m, ver, ciph, b1, b2); var p := |pre|;
      && |f| == p + 17 + |b1| + |b2|
      && f[p..p + 4] == m && f[p + 4..p + 8] == BE(ver, 4) && f[p + 8..p + 9] == BE(ciph, 1)
      && f[p + 9..p + 13] == BE(|b1|, 4) && f[p + 13..p + 13 + |b1|] == b1
      && f[p + 13 + |b1|..p + 17 + |b1|] == BE(|b2|, 4) && f[p + 17 + |b1|..p + 17 + |b1| + |b2|] == b2
  {
    var x1, x2, x3, x4, x5 := BE(ver, 4), BE(ciph, 1), BE(|b1|, 4), BE(|b2|, 4), b1;
    var f := pre + Frame(m, ver, ciph, b1, b2);
    assert f == pre + m + x1 + x2 + x3 + b1 + x4 + b2;
    Middle(pre, m, x1 + x2 + x3 + b1 + x4 + b2);
    Middle(pre + m, x1, x2 + x3 + b1 + x4 + b2);
    Middle(pre + m + x1, x2, x3 + b1 + x4 + b2);
    Middle(pre + m + x1 + x2, x3, b1 + x4 + b2);
    Middle(pre + m + x1 + x2 + x3, b1, x4 + b2);
    Middle(pre + m + x1 + x2 + x3 + b1, x4, b2);
    Middle(pre + m + x1 + x2 + x3 + b1 + x4, b2, []);
    assert pre + m + x1 + x2 + x3 + b1 + x4 + b2 + [] == f;
  }

  /** A helper read at its width keeps the shape. */
  lemma ShapeRead(before: map<string, FieldState>, after: map<string, FieldState>, name: string, n: nat)
    requires Shape(before) && name in Names && Read(before, after, name, n)
    requires WidthOf(name).Some? ==> WidthOf(name) == Some(n)
    ensures Shape(after)
  {
    ShapeAt(before, name);
    ShapeSet(before, name, after[name]);
  }

  /** Magic, version or cipher, read at `seeker`. */
  lemma PlainRead(ops: Ops, sch: Schema, from: seq<Byte>, i: nat, name: string, seeker: nat, got: map<string, Value>,
                  len: Option<nat>, states: map<string, FieldState>, n: nat, v: Value)
    requires Concrete(ops) && sch.names == Names && sch.exclude == {Body1Length, Body2Length}
    requires Shape(states) && PlainAt(i, name)
    requires WidthOf(name) == Some(n) && seeker + n <= |from|
    requires Decode(CodecOf(name), NoSlots, from[seeker..seeker + n], map[]) == Ok(v)
    ensures var r := UnpackTurn(ops, sch, from, i, seeker, got, len, states);
      r.0 == Pass && r.1 == seeker + n && r.2 == got[name := v] && Shape(r.4)
  {
    ShapeAt(states, name);
    ShapeCovers(states);
    assert sch.names[i] == name && name !in sch.exclude;
    ReadTurn(ops, sch, from, i, seeker, got, len, states, n, v);
    var r := UnpackTurn(ops, sch, from, i, seeker, got, len, states);
    ShapeRead(states, r.4, name, n);
  }

  /** A length field, read at `seeker`: its data field's length is set. */
  lemma LengthRead(ops: Ops, sch: Schema, from: seq<Byte>, i: nat, len: string, d: string, seeker: nat,
                   got: map<string, Value>, lenv: Option<nat>, states: map<string, FieldState>, k: nat)
    requires Concrete(ops) && sch.names == Names && sch.exclude == {Body1Length, Body2Length}
    requires Shape(states) && DataAt(i + 1, len, d) && seeker + 4 <= |from|
    requires Decode(U32, LenSlots(d), from[seeker..seeker + 4], map[]) == Ok(Int(k))
    ensures var r := UnpackTurn(ops, sch, from, i, seeker, got, lenv, states);
      && r.0 == Pass && r.1 == seeker + 4 && r.2 == got && Shape(r.4)
      && d in r.4 && r.4[d].explicit == Some(k)
  {
    LengthToRead(sch, states, i, len, d);
    ReadLengthTurn(ops, sch, from, i, seeker, got, lenv, states, d, 4, k);
    var r := UnpackTurn(ops, sch, from, i, seeker, got, lenv, states);
    var mid := states[d := states[d].(explicit := Some(k))];
    ShapeAt(states, d);
    ShapeSet(states, d, mid[d]);
    ShapeRead(mid, r.4, len, 4);
  }

  /** The length field at `i`, as the helpers keep it. */
  lemma LengthToRead(sch: Schema, states: map<string, FieldState>, i: nat, len: string, d: string)
    requires sch.names == Names && sch.exclude == {Body1Length, Body2Length}
    requires Shape(states) && DataAt(i + 1, len, d)
    ensures Covers(sch.names, states) && i < |sch.names| && sch.names[i] == len && len in sch.exclude
    ensures d in states && d != len && len in states
    ensures var st := states[len];
      && st.codec == U32 && st.slots == LenSlots(d) && st.Length() == Some(4) && Agrees(st)
  {
    ShapeAt(states, len);
    ShapeCovers(states);
    ShapeAt(states, d);
  }

  /** A data field, read at `seeker` with the length just set. */
  lemma DataRead(ops: Ops, sch: Schema, from: seq<Byte>, i: nat, len: string, d: string, seeker: nat,
                 got: map<string, Value>, lenv: Option<nat>, states: map<string, FieldState>, b: seq<Byte>)
    requires Concrete(ops) && sch.names == Names && sch.exclude == {Body1Length, Body2Length}
    requires Shape(states) && DataAt(i, len, d) && states[d].explicit == Some(|b|)
    requires seeker + |b| <= |from| && from[seeker..seeker + |b|] == b
    ensures var r := UnpackTurn(ops, sch, from, i, seeker, got, lenv, states);
      r.0 == Pass && r.1 == seeker + |b| && r.2 == got[d := Bytes(b)] && Shape(r.4)
  {
    ShapeAt(states, d);
    ShapeCovers(states);
    BlobCodes(b, d);
    assert sch.names[i] == d && d !in sch.exclude;
    ReadTurn(ops, sch, from, i, seeker, got, lenv, states, |b|, Bytes(b));
    var r := UnpackTurn(ops, sch, from, i, seeker, got, lenv, states);
    ShapeRead(states, r.4, d, |b|);
  }

  /** The plain fields decode their packed bytes. */
  lemma PlainDecodes(m: seq<Byte>, ver: nat, ciph: nat)
    requires |m| == 4 && ver < 0x1_0000_0000 && ciph < 0x100
    ensures Decode(CodecOf(Magic), NoSlots, m, map[]) == Ok(Bytes(m))
    ensures Decode(CodecOf(Version), NoSlots, BE(ver, 4), map[]) == Ok(Int(ver))
    ensures Decode(CodecOf(Cipher), NoSlots, BE(ciph, 1), map[]) == Ok(Int(ciph))
  {
    Widths();
    IntCodes(4, ver);
    IntCodes(1, ciph);
    BlobCodes(m, Body1);
  }

  /** A turn of `unpack` that passes hands on to the next field. */
  lemma UChain(ops: Ops, sch: Schema, from: seq<Byte>, i: nat, seeker: nat, got: map<string, Value>,
               len: Option<nat>, states: map<string, FieldState>,
               seeker1: nat, got1: map<string, Value>, len1: Option<nat>, states1: map<string, FieldState>)
    requires Covers(sch.names, states) && i < |sch.names|
    requires var t := UnpackTurn(ops, sch, from, i, seeker, got, len, states);
      t.0 == Pass && t.1 == seeker1 && t.2 == got1 && t.3 == len1 && t.4 == states1
    ensures Covers(sch.names, states1)
    ensures UnpackFrom(ops, sch, from, i, seeker, got, len, states)
         == UnpackFrom(ops, sch, from, i + 1, seeker1, got1, len1, states1)
  {
  }

  /** `s` sits at `k` in `from`. */
  predicate At(from: seq<Byte>, k: nat, s: seq<Byte>)
  {
    k + |s| <= |from| && from[k..k + |s|] == s
  }

  /** The unpacking schema: the test's names, the length fields excluded. */
  predicate Reading(sch: Schema)
  {
    sch.names == Names && sch.exclude == {Body1Length, Body2Length}
  }

  /** The packed form from `s` on, field by field: `Stage6` holds body2,
      `Stage5` its length before it, and so on back to `Stage0`, the
      whole of it. */
  predicate Stage6(from: seq<Byte>, s: nat, b2: seq<Byte>)
  {
    At(from, s, b2)
  }

  predicate Stage5(from: seq<Byte>, s: nat, b2: seq<Byte>)
  {
    At(from, s, BE(|b2|, 4)) && Stage6(from, s + 4, b2)
  }

  predicate Stage4(from: seq<Byte>, s: nat, b1: seq<Byte>, b2: seq<Byte>)
  {
    At(from, s, b1) && Stage5(from, s + |b1|, b2)
  }

  predicate Stage3(from: seq<Byte>, s: nat, b1: seq<Byte>, b2: seq<Byte>)
  {
    At(from, s, BE(|b1|, 4)) && Stage4(from, s + 4, b1, b2)
  }

  predicate Stage2(from: seq<Byte>, s: nat, ciph: nat, b1: seq<Byte>, b2: seq<Byte>)
  {
    At(from, s, BE(ciph, 1)) && Stage3(from, s + 1, b1, b2)
  }

  predicate Stage1(from: seq<Byte>, s: nat, ver: nat, ciph: nat, b1: seq<Byte>, b2: seq<Byte>)
  {
    At(from, s, BE(ver, 4)) && Stage2(from, s + 4, ciph, b1, b2)
  }

  predicate Stage0(from: seq<Byte>, s: nat, m: seq<Byte>, ver: nat, ciph: nat, b1: seq<Byte>, b2: seq<Byte>)
  {
    At(from, s, m) && Stage1(from, s + 4, ver, ciph, b1, b2)
  }

  /** body2. */
  lemma Take6(ops: Ops, sch: Schema, from: seq<Byte>, seeker: nat, b2: seq<Byte>,
              got: map<string, Value>, len: Option<nat>, states: map<string, FieldState>)
    returns (r: (Result<map<string, Value>>, Option<nat>, map<string, FieldState>))
    requires Concrete(ops) && Reading(sch) && Shape(states) && states[Body2].explicit == Some(|b2|)
    requires Stage6(from, seeker, b2)
    ensures r == UnpackFrom(ops, sch, from, 6, seeker, got, len, states)
    ensures r.0 == Ok(got[Body2 := Bytes(b2)]) && Shape(r.2)
  {
    DataRead(ops, sch, from, 6, Body2Length, Body2, seeker, got, len, states, b2);
    var t := UnpackTurn(ops, sch, from, 6, seeker, got, len, states);
    ShapeCovers(states);
    UChain(ops, sch, from, 6, seeker, got, len, states, t.1, t.2, t.3, t.4);
    r := UnpackFrom(ops, sch, from, 7, t.1, t.2, t.3, t.4);
  }

  /** body2's length. */
  lemma Take5(ops: Ops, sch: Schema, from: seq<Byte>, seeker: nat, b2: seq<Byte>,
              got: map<string, Value>, len: Option<nat>, states: map<string, FieldState>)
    returns (r: (Result<map<string, Value>>, Option<nat>, map<string, FieldState>))
    requires Concrete(ops) && Reading(sch) && Shape(states) && |b2| < 0x1_0000_0000
    requires Stage5(from, seeker, b2)
    ensures r == UnpackFrom(ops, sch, from, 5, seeker, got, len, states)
    ensures r.0 == Ok(got[Body2 := Bytes(b2)]) && Shape(r.2)
  {
    LengthCodes(|b2|, Body2);
    LengthRead(ops, sch, from, 5, Body2Length, Body2, seeker, got, len, states, |b2|);
    var t := UnpackTurn(ops, sch, from, 5, seeker, got, len, states);
    ShapeCovers(states);
    UChain(ops, sch, from, 5, seeker, got, len, states, t.1, t.2, t.3, t.4);
    r := Take6(ops, sch, from, seeker + 4, b2, t.2, t.3, t.4);
  }

  /** The layout moves on past body1. */
  lemma Shift4(from: seq<Byte>, seeker: nat, b1: seq<Byte>, b2: seq<Byte>, s1: nat)
    requires Stage4(from, seeker, b1, b2) && s1 == seeker + |b1|
    ensures Stage5(from, s1, b2)
  {
  }

  /** body1's turn. */
  lemma Step4(ops: Ops, sch: Schema, from: seq<Byte>, seeker: nat, b1: seq<Byte>, b2: seq<Byte>,
              got: map<string, Value>, len: Option<nat>, states: map<string, FieldState>)
    returns (s1: nat, g1: map<string, Value>, l1: Option<nat>, st1: map<string, FieldState>)
    requires Concrete(ops) && Reading(sch) && Shape(states)
    requires states[Body1].explicit == Some(|b1|) && Stage4(from, seeker, b1, b2)
    ensures g1 == got[Body1 := Bytes(b1)] && Shape(st1) && Stage5(from, s1, b2)
    ensures Covers(sch.names, states) && Covers(sch.names, st1)
    ensures UnpackFrom(ops, sch, from, 4, seeker, got, len, states) == UnpackFrom(ops, sch, from, 5, s1, g1, l1, st1)
  {
    DataRead(ops, sch, from, 4, Body1Length, Body1, seeker, got, len, states, b1);
    var t := UnpackTurn(ops, sch, from, 4, seeker, got, len, states);
    ShapeCovers(states);
    UChain(ops, sch, from, 4, seeker, got, len, states, t.1, t.2, t.3, t.4);
    Shift4(from, seeker, b1, b2, t.1);
    s1, g1, l1, st1 := t.1, t.2, t.3, t.4;
  }

  /** body1. */
  lemma Take4(ops: Ops, sch: Schema, from: seq<Byte>, seeker: nat, b1: seq<Byte>, b2: seq<Byte>,
              got: map<string, Value>, len: Option<nat>, states: map<string, FieldState>)
    returns (r: (Result<map<string, Value>>, Option<nat>, map<string, FieldState>))
    requires Concrete(ops) && Reading(sch) && Shape(states) && |b2| < 0x1_0000_0000
    requires states[Body1].explicit == Some(|b1|)
    requires Stage4(from, seeker, b1, b2)
    ensures r == UnpackFrom(ops, sch, from, 4, seeker, got, len, states)
    ensures r.0 == Ok(got[Body1 := Bytes(b1)][Body2 := Bytes(b2)]) && Shape(r.2)
  {
    var s1, g1, l1, st1 := Step4(ops, sch, from, seeker, b1, b2, got, len, states);
    r := Take5(ops, sch, from, s1, b2, g1, l1, st1);
  }

  /** body1's length. */
  lemma Take3(ops: Ops, sch: Schema, from: seq<Byte>, seeker: nat, b1: seq<Byte>, b2: seq<Byte>,
              got: map<string, Value>, len: Option<nat>, states: map<string, FieldState>)
    returns (r: (Result<map<string, Value>>, Option<nat>, map<string, FieldState>))
    requires Concrete(ops) && Reading(sch) && Shape(states) && |b1| < 0x1_0000_0000 && |b2| < 0x1_0000_0000
    requires Stage3(from, seeker, b1, b2)
    ensures r == UnpackFrom(ops, sch, from, 3, seeker, got, len, states)
    ensures r.0 == Ok(got[Body1 := Bytes(b1)][Body2 := Bytes(b2)]) && Shape(r.2)
  {
    LengthCodes(|b1|, Body1);
    LengthRead(ops, sch, from, 3, Body1Length, Body1, seeker, got, len, states, |b1|);
    var t := UnpackTurn(ops, sch, from, 3, seeker, got, len, states);
    ShapeCovers(states);
    UChain(ops, sch, from, 3, seeker, got, len, states, t.1, t.2, t.3, t.4);
    r := Take4(ops, sch, from, seeker + 4, b1, b2, t.2, t.3, t.4);
  }

  /** cipher. */
  lemma Take2(ops: Ops, sch: Schema, from: seq<Byte>, seeker: nat, m: seq<Byte>, ver: nat, ciph: nat,
              b1: seq<Byte>, b2: seq<Byte>, got: map<string, Value>, len: Option<nat>, states: map<string, FieldState>)
    returns (r: (Result<map<string, Value>>, Option<nat>, map<string, FieldState>))
    requires Concrete(ops) && Reading(sch) && Shape(states) && Packable(m, ver, ciph, b1, b2)
    requires Stage2(from, seeker, ciph, b1, b2)
    ensures r == UnpackFrom(ops, sch, from, 2, seeker, got, len, states)
    ensures r.0 == Ok(got[Cipher := Int(ciph)][Body1 := Bytes(b1)][Body2 := Bytes(b2)]) && Shape(r.2)
  {
    PlainDecodes(m, ver, ciph);
    PlainRead(ops, sch, from, 2, Cipher, seeker, got, len, states, 1, Int(ciph));
    var t := UnpackTurn(ops, sch, from, 2, seeker, got, len, states);
    ShapeCovers(states);
    UChain(ops, sch, from, 2, seeker, got, len, states, t.1, t.2, t.3, t.4);
    r := Take3(ops, sch, from, seeker + 1, b1, b2, t.2, t.3, t.4);
  }

  /** version. */
  lemma Take1(ops: Ops, sch: Schema, from: seq<Byte>, seeker: nat, m: seq<Byte>, ver: nat, ciph: nat,
              b1: seq<Byte>, b2: seq<Byte>, got: map<string, Value>, len: Option<nat>, states: map<string, FieldState>)
    returns (r: (Result<map<string, Value>>, Option<nat>, map<string, FieldState>))
    requires Concrete(ops) && Reading(sch) && Shape(states) && Packable(m, ver, ciph, b1, b2)
    requires Stage1(from, seeker, ver, ciph, b1, b2)
    ensures r == UnpackFrom(ops, sch, from, 1, seeker, got, len, states)
    ensures r.0 == Ok(got[Version := Int(ver)][Cipher := Int(ciph)][Body1 := Bytes(b1)][Body2 := Bytes(b2)])
    ensures Shape(r.2)
  {
    PlainDecodes(m, ver, ciph);
    PlainRead(ops, sch, from, 1, Version, seeker, got, len, states, 4, Int(ver));
    var t := UnpackTurn(ops, sch, from, 1, seeker, got, len, states);
    ShapeCovers(states);
    UChain(ops, sch, from, 1, seeker, got, len, states, t.1, t.2, t.3, t.4);
    r := Take2(ops, sch, from, seeker + 4, m, ver, ciph, b1, b2, t.2, t.3, t.4);
  }

  /** magic, and with it the whole field loop. */
  lemma Take0(ops: Ops, sch: Schema, from: seq<Byte>, seeker: nat, m: seq<Byte>, ver: nat, ciph: nat,
              b1: seq<Byte>, b2: seq<Byte>, len: Option<nat>, states: map<string, FieldState>)
    returns (r: (Result<map<string, Value>>, Option<nat>, map<string, FieldState>))
    requires Concrete(ops) && Reading(sch) && Shape(states) && Packable(m, ver, ciph, b1, b2)
    requires Stage0(from, seeker, m, ver, ciph, b1, b2)
    ensures r == UnpackFrom(ops, sch, from, 0, seeker, map[], len, states)
    ensures r.0 == Ok(Obj(m, ver, ciph, b1, b2)) && Shape(r.2)
  {
    PlainDecodes(m, ver, ciph);
    PlainRead(ops, sch, from, 0, Magic, seeker, map[], len, states, 4, Bytes(m));
    var t := UnpackTurn(ops, sch, from, 0, seeker, map[], len, states);
    ShapeCovers(states);
    UChain(ops, sch, from, 0, seeker, map[], len, states, t.1, t.2, t.3, t.4);
    r := Take1(ops, sch, from, seeker + 4, m, ver, ciph, b1, b2, t.2, t.3, t.4);
    var e := map[][Magic := Bytes(m)][Version := Int(ver)][Cipher := Int(ciph)][Body1 := Bytes(b1)][Body2 := Bytes(b2)];
    assert e == Obj(m, ver, ciph, b1, b2);
  }

  /** `unpack` of the packed form, placed at the composite's offset in
      `pre + Frame(...)`, returns the test's dictionary without the
      length keys, and keeps the helpers' shape. */
  lemma UnpackComposite(ops: Ops, o1: seq<Thunk>, o2: seq<Thunk>, own: Own, states: map<string, FieldState>,
                        pre: seq<Byte>, m: seq<Byte>, ver: nat, ciph: nat, b1: seq<Byte>, b2: seq<Byte>)
    requires Concrete(ops) && Shape(states) && own.slots == NoSlots && own.offset == |pre|
    requires Packable(m, ver, ciph, b1, b2)
    ensures Covers(Format(o1, o2).names, states)
    ensures var r := SmartyUnpack(ops, Format(o1, o2), own, states, pre + Frame(m, ver, ciph, b1, b2));
      r.0 == Ok(Back(m, ver, ciph, b1, b2)) && Shape(r.2)
  {
    ShapeCovers(states);
    var sch := Format(o1, o2);
    var from := pre + Frame(m, ver, ciph, b1, b2);
    Layout(pre, m, ver, ciph, b1, b2);
    var r := Take0(ops, sch, from, |pre|, m, ver, ciph, b1, b2, StaticLength(sch.names, states), states);
  }

  // ---------------------------------------------------------------
  // The test's sequence
  // ---------------------------------------------------------------

  /** After a pack, the old calls still fit the patched buffers, and the
      pack's own two calls fit its new buffer. */
  lemma StaleAfter(o1: seq<Thunk>, o2: seq<Thunk>, bufs: seq<seq<Byte>>, x: Value,
                   m: seq<Byte>, ver: nat, ciph: nat, b1: seq<Byte>, b2: seq<Byte>)
    requires Stale(o1, Body1Length, bufs) && Stale(o2, Body2Length, bufs)
    requires x.Record? && Body1Length in x.slots && Body2Length in x.slots && |m| == 4
    ensures var bufs1 := Patched(Patched(bufs, o1, BE(|b1|, 4)), o2, BE(|b2|, 4)) + [Frame(m, ver, ciph, b1, b2)];
      Stale(o1 + [Call1(x, |bufs|)], Body1Length, bufs1) && Stale(o2 + [Call2(x, |bufs|, b1)], Body2Length, bufs1)
  {
    var f := Frame(m, ver, ciph, b1, b2);
    var q := Patched(Patched(bufs, o1, BE(|b1|, 4)), o2, BE(|b2|, 4));
    StaleKept(o1, Body1Length, bufs, q);
    StaleKept(o2, Body2Length, bufs, q);
    StaleGrows(o1, Body1Length, q, f);
    StaleGrows(o2, Body2Length, q, f);
    assert Patchable(Call1(x, |bufs|), Body1Length, 4, q + [f]);
    assert Patchable(Call2(x, |bufs|, b1), Body2Length, 4, q + [f]);
  }

  /** One `pack` of a record into an empty destination, then `unpack` of
      the bytes it returned, from helpers of the shape and calls `o1`,
      `o2` left by earlier packs. The record comes back; the helpers keep
      their shape and the composite its offset 0; the two new calls wait
      on the blobs, able to patch the new buffer. */
  lemma Cycle(ops: Ops, sch: Schema, o1: seq<Thunk>, o2: seq<Thunk>, own: Own, states: map<string, FieldState>,
              bufs: seq<seq<Byte>>, m: seq<Byte>, ver: nat, ciph: nat, b1: seq<Byte>, b2: seq<Byte>)
    returns (sch1: Schema, own1: Own, states1: map<string, FieldState>, bufs1: seq<seq<Byte>>)
    requires Concrete(ops) && sch == Format(o1, o2) && Shape(states) && own.slots == NoSlots && own.offset == 0
    requires Packable(m, ver, ciph, b1, b2)
    requires Stale(o1, Body1Length, bufs) && Stale(o2, Body2Length, bufs)
    ensures Covers(Names, states)
    ensures var x := Excluded(m, ver, ciph, b1, b2);
      var p := SmartyPack(ops, sch, own, World(states, bufs), Back(m, ver, ciph, b1, b2), []);
      && p.0 == Ok(Frame(m, ver, ciph, b1, b2))
      && p.1 == sch1 && sch1 == Format(o1 + [Call1(x, |bufs|)], o2 + [Call2(x, |bufs|, b1)])
      && p.3.bufs == bufs1 && Shape(p.3.states)
      && bufs1 == Patched(Patched(bufs, o1, BE(|b1|, 4)), o2, BE(|b2|, 4)) + [Frame(m, ver, ciph, b1, b2)]
      && var u := SmartyUnpack(ops, sch1, p.2, p.3.states, Frame(m, ver, ciph, b1, b2));
      && u.0 == Ok(Back(m, ver, ciph, b1, b2)) && u.1 == own1 && u.2 == states1
    ensures Shape(states1) && own1.slots == NoSlots && own1.offset == 0
  {
    var x := Excluded(m, ver, ciph, b1, b2);
    var f := Frame(m, ver, ciph, b1, b2);
    ShapeCovers(states);
    PackComposite(ops, o1, o2, own, states, bufs, m, ver, ciph, b1, b2);
    var p := SmartyPack(ops, sch, own, World(states, bufs), Back(m, ver, ciph, b1, b2), []);
    sch1, bufs1 := p.1, p.3.bufs;
    assert [] + f == f;
    UnpackComposite(ops, o1 + [Call1(x, |bufs|)], o2 + [Call2(x, |bufs|, b1)], p.2, p.3.states, [], m, ver, ciph, b1, b2);
    var u := SmartyUnpack(ops, sch1, p.2, p.3.states, f);
    own1, states1 := u.1, u.2;
  }

  /** Four bytes written over four others. */
  lemma OverwriteSame(q: seq<Byte>, y: seq<Byte>, x: seq<Byte>, data: seq<Byte>)
    requires |y| == |x|
    ensures Overwrite(q + y + data, |q|, x) == q + x + data
  {
    var s := q + y + data;
    assert s[..|q|] == q;
    assert s[|q| + |y|..] == data;
  }

  /** The first pack's calls write lengths `n1`, `n2` into its buffer at
      offsets 9 and 13 + |b1|. */
  lemma Refilled(x: Value, m: seq<Byte>, ver: nat, ciph: nat, b1: seq<Byte>, b2: seq<Byte>, n1: nat, n2: nat,
                 bufs: seq<seq<Byte>>, g: seq<Byte>)
    requires |m| == 4 && bufs == [Frame(m, ver, ciph, b1, b2)]
    ensures Patched(Patched(bufs, [Call1(x, 0)], BE(n1, 4)), [Call2(x, 0, b1)], BE(n2, 4)) + [g]
         == [Head(m, ver, ciph) + BE(n1, 4) + b1 + BE(n2, 4) + b2, g]
  {
    var h := Head(m, ver, ciph);
    var f := Frame(m, ver, ciph, b1, b2);
    assert f == h + BE(|b1|, 4) + (b1 + BE(|b2|, 4) + b2);
    assert [] + [f] == [f];
    PatchedOne([], f, Call1(x, 0), BE(n1, 4));
    OverwriteSame(h, BE(|b1|, 4), BE(n1, 4), b1 + BE(|b2|, 4) + b2);
    var g := h + BE(n1, 4) + (b1 + BE(|b2|, 4) + b2);
    assert g == (h + BE(n1, 4) + b1) + BE(|b2|, 4) + b2;
    assert [] + [g] == [g];
    PatchedOne([], g, Call2(x, 0, b1), BE(n2, 4));
    OverwriteSame(h + BE(n1, 4) + b1, BE(|b2|, 4), BE(n2, 4), b2);
  }

  /** tests/test_simple_reload.py's `test()` from helpers `states` and
      no scratch buffers: pack the first record and unpack its bytes,
      then pack the second with the first pack's calls still waiting, and
      unpack again. Each pack returns its frame, each unpack its record;
      the first pack's calls write the second record's lengths into the
      first pack's scratch buffer, not into the bytes it returned. */
  ghost predicate Reloads(ops: Ops, own: Own, states: map<string, FieldState>,
                          m: seq<Byte>, ver: nat, ciph: nat, b1: seq<Byte>, b2: seq<Byte>,
                          m': seq<Byte>, ver': nat, ciph': nat, b1': seq<Byte>, b2': seq<Byte>)
    requires Covers(Names, states)
  {
    var p := SmartyPack(ops, Format([], []), own, World(states, []), Back(m, ver, ciph, b1, b2), []);
    && p.0 == Ok(Frame(m, ver, ciph, b1, b2))
    && Shape(p.3.states) && Covers(Names, p.3.states) && Shaped(p.1) && p.1.names == Names
    && var u := SmartyUnpack(ops, p.1, p.2, p.3.states, Frame(m, ver, ciph, b1, b2));
    && u.0 == Ok(Back(m, ver, ciph, b1, b2))
    && Covers(Names, u.2)
    && var p' := SmartyPack(ops, p.1, u.1, World(u.2, p.3.bufs), Back(m', ver', ciph', b1', b2'), []);
    && p'.0 == Ok(Frame(m', ver', ciph', b1', b2'))
    && p'.3.bufs == [Head(m, ver, ciph) + BE(|b1'|, 4) + b1 + BE(|b2'|, 4) + b2, Frame(m', ver', ciph', b1', b2')]
    && Covers(Names, p'.3.states) && Shaped(p'.1) && p'.1.names == Names
    && var u' := SmartyUnpack(ops, p'.1, p'.2, p'.3.states, Frame(m', ver', ciph', b1', b2'));
    && u'.0 == Ok(Back(m', ver', ciph', b1', b2'))
  }

  /** The test's sequence holds for any two packable records, from any
      helpers of the shape and a composite at offset 0 without callbacks. */
  lemma Session(ops: Ops, own: Own, states: map<string, FieldState>,
                m: seq<Byte>, ver: nat, ciph: nat, b1: seq<Byte>, b2: seq<Byte>,
                m': seq<Byte>, ver': nat, ciph': nat, b1': seq<Byte>, b2': seq<Byte>)
    requires Concrete(ops) && Shape(states) && own.slots == NoSlots && own.offset == 0
    requires Packable(m, ver, ciph, b1, b2) && Packable(m', ver', ciph', b1', b2')
    ensures Covers(Names, states)
    ensures Reloads(ops, own, states, m, ver, ciph, b1, b2, m', ver', ciph', b1', b2')
  {
    var x := Excluded(m, ver, ciph, b1, b2);
    var sch1, own1, states1, bufs1 := Cycle(ops, Format([], []), [], [], own, states, [], m, ver, ciph, b1, b2);
    StaleAfter([], [], [], x, m, ver, ciph, b1, b2);
    assert [] + [Call1(x, 0)] == [Call1(x, 0)] && [] + [Call2(x, 0, b1)] == [Call2(x, 0, b1)];
    assert bufs1 == [Frame(m, ver, ciph, b1, b2)];
    var sch2, own2, states2, bufs2 := Cycle(ops, sch1, [Call1(x, 0)], [Call2(x, 0, b1)], own1, states1, bufs1, m', ver', ciph', b1', b2');
    Refilled(x, m, ver, ciph, b1, b2, |b1'|, |b2'|, bufs1, Frame(m', ver', ciph', b1', b2'));
  }

  // ---------------------------------------------------------------
  // The test's values
  // ---------------------------------------------------------------

  /** The bytes of a Python `b'...'` literal: one byte per character,
      the character's code (the literals here are ASCII). */
  function Ascii(s: string): (r: seq<Byte>)
    ensures |r| == |s| && forall i | 0 <= i < |s| :: r[i] == s[i] as int % 0x100
  {
    seq(|s|, i requires 0 <= i < |s| => s[i] as int % 0x100)
  }

  /** The composite before its first pack: offset 0, no callbacks. */
  const Start: Own := Own(0, None, None, NoSlots)

  /** A magic "[00]", version 1, cipher 2, body1 "hello" and body2 "world"
      pack, from the helpers as set up, to these 27 bytes, which unpack to
      the five fields again. */
  lemma Vector()
    ensures Covers(Names, Initial())
    ensures var p := SmartyPack(Helpers, Format([], []), Start, World(Initial(), []),
                                Back(Ascii("[00]"), 1, 2, Ascii("hello"), Ascii("world")), []);
      p.0 == Ok([0x5B, 0x30, 0x30, 0x5D, 0x00, 0x00, 0x00, 0x01, 0x02, 0x00, 0x00, 0x00, 0x05,
                 0x68, 0x65, 0x6C, 0x6C, 0x6F, 0x00, 0x00, 0x00, 0x05, 0x77, 0x6F, 0x72, 0x6C, 0x64])
    ensures SmartyUnpack(Helpers, Format([], []), Start, Initial(),
                         [0x5B, 0x30, 0x30, 0x5D, 0x00, 0x00, 0x00, 0x01, 0x02, 0x00, 0x00, 0x00, 0x05,
                          0x68, 0x65, 0x6C, 0x6C, 0x6F, 0x00, 0x00, 0x00, 0x05, 0x77, 0x6F, 0x72, 0x6C, 0x64]).0
         == Ok(Back(Ascii("[00]"), 1, 2, Ascii("hello"), Ascii("world")))
  {
    var m, b1, b2 := Ascii("[00]"), Ascii("hello"), Ascii("world");
    HelpersConcrete();
    ShapeCovers(Initial());
    PackComposite(Helpers, [], [], Start, Initial(), [], m, 1, 2, b1, b2);
    UnpackComposite(Helpers, [], [], Start, Initial(), [], m, 1, 2, b1, b2);
    VectorBytes();
  }

  /** The bytes of "[00]", "hello" and "world". */
  lemma AsciiBytes()
    ensures Ascii("[00]") == [0x5B, 0x30, 0x30, 0x5D]
    ensures Ascii("hello") == [0x68, 0x65, 0x6C, 0x6C, 0x6F]
    ensures Ascii("world") == [0x77, 0x6F, 0x72, 0x6C, 0x64]
  {
  }

  /** 1 and 5 over four bytes, 2 over one. */
  lemma SmallBytes()
    ensures BE(1, 4) == [0, 0, 0, 1] && BE(2, 1) == [2] && BE(5, 4) == [0, 0, 0, 5]
  {
  }

  /** The frame of those values, byte by byte. */
  lemma VectorBytes()
    ensures [] + Frame(Ascii("[00]"), 1, 2, Ascii("hello"), Ascii("world"))
         == [0x5B, 0x30, 0x30, 0x5D, 0x00, 0x00, 0x00, 0x01, 0x02, 0x00, 0x00, 0x00, 0x05,
             0x68, 0x65, 0x6C, 0x6C, 0x6F, 0x00, 0x00, 0x00, 0x05, 0x77, 0x6F, 0x72, 0x6C, 0x64]
  {
    AsciiBytes();
    SmallBytes();
  }

  /** tests/test_simple_reload.py's own two records, from the helpers as
      set up. */
  lemma TestSequence()
    ensures Covers(Names, Initial())
    ensures Reloads(Helpers, Start, Initial(),
                    Ascii("[00]"), 1, 2, Ascii("[test byte string, first]"), Ascii("[test byte string, 2nd]"),
                    Ascii("[aa]"), 1, 2, Ascii("[new test byte string, first]"), Ascii("[new test byte string, 2nd]"))
  {
    HelpersConcrete();
    Session(Helpers, Start, Initial(),
            Ascii("[00]"), 1, 2, Ascii("[test byte string, first]"), Ascii("[test byte string, 2nd]"),
            Ascii("[aa]"), 1, 2, Ascii("[new test byte string, first]"), Ascii("[new test byte string, 2nd]"));
  }

  // ---------------------------------------------------------------
  // The test's setup, on the class
  // ---------------------------------------------------------------

  /** The schema after the seven declarations, before the links. */
  function Declared(): (sch: Schema)
    ensures sch.names == Names
  {
    var s0 := Schema([], {}, map[], map[]);
    var s1 := Declare(Declare(Declare(s0, Magic), Version), Cipher);
    Declare(Declare(Declare(Declare(s1, Body1Length), Body1), Body2Length), Body2)
  }

  /** The seven names are distinct, so each declaration adds one. */
  lemma DeclaredNames()
    ensures Declared().names == Names
    ensures Declared().waiting == Format([], []).waiting
    ensures Declared().exclude == {} && Declared().links == map[]
  {
    Distinct();
    var s0 := Schema([], {}, map[], map[]);
    assert Declare(s0, Magic).names == [Magic];
    assert Declare(Declare(s0, Magic), Version).names == [Magic, Version];
  }

  /** The two links pass `link_length`'s order check and give the
      declared format. */
  lemma LinkedFormat(d: Schema)
    requires d.names == Names && d.waiting == Format([], []).waiting && d.exclude == {} && d.links == map[]
    ensures LinkCheck(d, Body1, Body1Length) == Pass
    ensures LinkCheck(LinkSchema(d, Body1, Body1Length), Body2, Body2Length) == Pass
    ensures LinkSchema(LinkSchema(d, Body1, Body1Length), Body2, Body2Length) == Format([], [])
  {
    Positions();
    var s := LinkSchema(LinkSchema(d, Body1, Body1Length), Body2, Body2Length);
    assert s.exclude == {Body1Length, Body2Length};
    assert s.links == Links;
  }

  /** The helpers once declared, magic given its length 4, before the
      links. */
  function Declaring(): (states: map<string, FieldState>)
    ensures states.Keys == set n | n in Names
  {
    map n | n in Names :: FieldState(CodecOf(n), 0, if n == Magic then Some(4) else None, None, NoSlots)
  }

  /** The helpers the seven declarations store, with magic's length set
      after its declaration. */
  lemma DeclaredHelpers()
    ensures var h0 := map[Magic := FieldState(Neat, 0, None, None, NoSlots)];
      var h1 := h0[Magic := h0[Magic].(explicit := Some(4))];
      var h2 := h1[Version := FieldState(U32, 0, None, None, NoSlots)][Cipher := FieldState(U8, 0, None, None, NoSlots)];
      var h3 := h2[Body1Length := FieldState(U32, 0, None, None, NoSlots)][Body1 := FieldState(Neat, 0, None, None, NoSlots)];
      h3[Body2Length := FieldState(U32, 0, None, None, NoSlots)][Body2 := FieldState(Neat, 0, None, None, NoSlots)] == Declaring()
  {
    Distinct();
    var h0 := map[Magic := FieldState(Neat, 0, None, None, NoSlots)];
    var h1 := h0[Magic := h0[Magic].(explicit := Some(4))];
    var h2 := h1[Version := FieldState(U32, 0, None, None, NoSlots)][Cipher := FieldState(U8, 0, None, None, NoSlots)];
    var h3 := h2[Body1Length := FieldState(U32, 0, None, None, NoSlots)][Body1 := FieldState(Neat, 0, None, None, NoSlots)];
    var h := h3[Body2Length := FieldState(U32, 0, None, None, NoSlots)][Body2 := FieldState(Neat, 0, None, None, NoSlots)];
    assert h.Keys == Declaring().Keys;
    forall n | n in h.Keys ensures h[n] == Declaring()[n] {
    }
  }

  /** `link_length(d, len)` on two helpers without callbacks leaves the
      length field with `LenSlots(d)` and the data field with
      `DatSlots(d)`, and nothing else changed. */
  lemma LinkPair(h: map<string, FieldState>, d: string, len: string)
    requires d in h && len in h && d != len && h[d].slots == NoSlots && h[len].slots == NoSlots
    ensures LinkStates(h, d, len) == h[len := h[len].(slots := LenSlots(d))][d := h[d].(slots := DatSlots(d))]
  {
    var a := LinkStates(h, d, len);
    var b := h[len := h[len].(slots := LenSlots(d))][d := h[d].(slots := DatSlots(d))];
    assert a.Keys == b.Keys;
  }

  /** The helpers after the links, as updates of the declared ones. */
  function Linked(): (h: map<string, FieldState>)
  {
    var d := Declaring();
    var h1 := d[Body1Length := d[Body1Length].(slots := LenSlots(Body1))][Body1 := d[Body1].(slots := DatSlots(Body1))];
    h1[Body2Length := h1[Body2Length].(slots := LenSlots(Body2))][Body2 := h1[Body2].(slots := DatSlots(Body2))]
  }

  /** Those helpers, name by name. */
  lemma LinkedAt(n: string)
    requires n in Names
    ensures n in Linked() && Linked()[n] == Fresh(n)
  {
    NamesDistinct();
    if n == Magic || n == Version || n == Cipher {
      assert Linked()[n] == Declaring()[n];
    }
  }

  /** The links install the four callbacks on each pair and give the
      helpers as set up. */
  lemma LinkedStates()
    ensures Body1 in Declaring() && Body1Length in Declaring()
    ensures var h := LinkStates(Declaring(), Body1, Body1Length);
      Body2 in h && Body2Length in h && LinkStates(h, Body2, Body2Length) == Initial()
  {
    NamesDistinct();
    var d := Declaring();
    LinkPair(d, Body1, Body1Length);
    var h1 := LinkStates(d, Body1, Body1Length);
    LinkPair(h1, Body2, Body2Length);
    LinkedIsInitial();
  }

  /** The helpers after both links are the helpers as set up. */
  lemma LinkedIsInitial()
    ensures Linked() == Initial()
  {
    var h := Linked();
    assert h.Keys == Initial().Keys by { NamesDistinct(); }
    forall n | n in h.Keys ensures h[n] == Initial()[n] {
      LinkedAt(n);
    }
  }

  /** `p[name] = ParseHelper(codec)`: a new helper without a length,
      declared under `name`. */
  method Put(p: SmartyParser, name: string, codec: Parsers.Codec)
    requires p.Valid()
    modifies p`names, p`helpers, p`waiting
    ensures p.Valid()
    ensures p.Control() == Declare(old(p.Control()), name)
    ensures p.helpers == old(p.helpers)[name := FieldState(codec, 0, None, None, NoSlots)]
  {
    var f := new Field(codec, 0, None);
    p.SetItem(name, f);
  }

  /** The first three declarations of the set-up, with magic's length set
      to 4 right after its own. */
  method DeclareHead(p: SmartyParser)
    requires p.Valid() && p.Control() == Schema([], {}, map[], map[]) && p.helpers == map[]
    modifies p`names, p`helpers, p`waiting
    ensures p.Valid() && p.Control() == Declare(Declare(Declare(Schema([], {}, map[], map[]), Magic), Version), Cipher)
    ensures var h0 := map[Magic := FieldState(Neat, 0, None, None, NoSlots)];
      p.helpers == h0[Magic := h0[Magic].(explicit := Some(4))][Version := FieldState(U32, 0, None, None, NoSlots)][Cipher := FieldState(U8, 0, None, None, NoSlots)]
  {
    Put(p, Magic, Neat);
    var o := p.SetLengthOf(Magic, 4);
    Put(p, Version, U32);
    Put(p, Cipher, U8);
  }

  /** The seven declarations of the set-up. */
  method DeclareAll(p: SmartyParser)
    requires p.Valid() && p.Control() == Schema([], {}, map[], map[]) && p.helpers == map[]
    modifies p`names, p`helpers, p`waiting
    ensures p.Valid() && p.Control() == Declared() && p.helpers == Declaring()
  {
    DeclareHead(p);
    Put(p, Body1Length, U32);
    Put(p, Body1, Neat);
    Put(p, Body2Length, U32);
    Put(p, Body2, Neat);
    DeclaredHelpers();
  }

  /** The two `link_length` calls of the set-up, on the declared
      composite `d`. */
  method LinkBoth(p: SmartyParser, ghost d: Schema)
    requires p.Valid() && p.Control() == d && p.helpers == Declaring()
    requires d.names == Names && d.waiting == Format([], []).waiting && d.exclude == {} && d.links == map[]
    modifies p`exclude, p`links, p`helpers
    ensures p.Valid() && p.Control() == Format([], []) && p.helpers == Initial()
  {
    LinkedFormat(d);
    LinkedStates();
    var o := p.LinkLength(Body1, Body1Length);
    o := p.LinkLength(Body2, Body2Length);
  }

  /** The set-up of tests/test_simple_reload.py: seven helpers declared,
      magic's length set to 4, both lengths linked. The composite then
      holds the declared format and the helpers as set up, at offset 0,
      with no scratch buffers. */
  method SetUp() returns (p: SmartyParser)
    ensures fresh(p) && p.Valid()
    ensures p.Control() == Format([], []) && p.helpers == Initial() && p.OwnState() == Start && p.scratch == []
  {
    p := new SmartyParser(0);
    DeclareAll(p);
    DeclaredNames();
    ghost var own, bufs := p.OwnState(), p.scratch;
    assert own == Start && bufs == [];
    LinkBoth(p, Declared());
    assert p.OwnState() == own && p.scratch == bufs;
  }

  /** `test()` on a composite as set up: pack the first record, unpack
      it, pack the second, unpack that, for any two packable records. */
  method Exchange(p: SmartyParser, m: seq<Byte>, ver: nat, ciph: nat, b1: seq<Byte>, b2: seq<Byte>,
                  m': seq<Byte>, ver': nat, ciph': nat, b1': seq<Byte>, b2': seq<Byte>)
      returns (bites1: Result<seq<Byte>>, recycle1: Result<Value>, bites2: Result<seq<Byte>>, recycle2: Result<Value>)
    requires p.Valid() && p.Control() == Format([], []) && p.helpers == Initial() && p.OwnState() == Start && p.scratch == []
    requires Packable(m, ver, ciph, b1, b2) && Packable(m', ver', ciph', b1', b2')
    modifies p
    ensures bites1 == Ok(Frame(m, ver, ciph, b1, b2)) && recycle1 == Ok(Back(m, ver, ciph, b1, b2))
    ensures bites2 == Ok(Frame(m', ver', ciph', b1', b2')) && recycle2 == Ok(Back(m', ver', ciph', b1', b2'))
  {
    HelpersConcrete();
    Session(Helpers, Start, Initial(), m, ver, ciph, b1, b2, m', ver', ciph', b1', b2');
    bites1, recycle1 := Scenario.PackThenUnpack(p, Helpers, Back(m, ver, ciph, b1, b2));
    bites2, recycle2 := Scenario.PackThenUnpack(p, Helpers, Back(m', ver', ciph', b1', b2'));
  }

  /** tests/test_simple_reload.py end to end: the set-up, then `test()`
      on its two records. */
  method ReloadTest() returns (bites1: Result<seq<Byte>>, recycle1: Result<Value>,
                               bites2: Result<seq<Byte>>, recycle2: Result<Value>)
    ensures bites1 == Ok(Frame(Ascii("[00]"), 1, 2, Ascii("[test byte string, first]"), Ascii("[test byte string, 2nd]")))
    ensures recycle1 == Ok(Back(Ascii("[00]"), 1, 2, Ascii("[test byte string, first]"), Ascii("[test byte string, 2nd]")))
    ensures bites2 == Ok(Frame(Ascii("[aa]"), 1, 2, Ascii("[new test byte string, first]"), Ascii("[new test byte string, 2nd]")))
    ensures recycle2 == Ok(Back(Ascii("[aa]"), 1, 2, Ascii("[new test byte string, first]"), Ascii("[new test byte string, 2nd]")))
  {
    var p := SetUp();
    bites1, recycle1, bites2, recycle2 := Exchange(p,
      Ascii("[00]"), 1, 2, Ascii("[test byte string, first]"), Ascii("[test byte string, 2nd]"),
      Ascii("[aa]"), 1, 2, Ascii("[new test byte string, first]"), Ascii("[new test byte string, 2nd]"));
  }
}
