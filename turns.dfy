/** One field's turn in `SmartyParser.pack` and `SmartyParser.unpack`, for
    any composite: what a plain field writes or reads at the cursor, what a
    linked length field reserves, and how the calls waiting on a data field
    patch the length in afterwards. */
module Turns {
  import opened Values
  import opened Callbacks
  import opened Fields
  import opened Smarty
  import Parsers

  // ---------------------------------------------------------------
  // Vocabulary
  // ---------------------------------------------------------------

  /** The packing callbacks do not read the sibling lengths. */
  predicate PacksAlone(s: Slots)
  {
    !s.prepack.action.LinkedLength? && !s.postpack.action.LinkedLength?
  }

  /** The unpacking callbacks neither read nor set the sibling lengths. */
  predicate ReadsAlone(s: Slots)
  {
    !s.preunpack.action.LinkedLength? && !s.postunpack.action.LinkedLength? && !s.postunpack.action.SetLinkedLength?
  }

  /** `n` encoded bytes are acceptable to the helper: its codec has no
      other fixed length, and its length is unknown, already `n`, or
      (under `prepack_dat`) dropped before the check. */
  predicate Fits(st: FieldState, n: nat)
  {
    && (Parsers.Length(st.codec).None? || Parsers.Length(st.codec) == Some(n))
    && (st.Length().None? || st.Length() == Some(n) ||
        (st.slots.prepack.action.ClearOwnLength? && Parsers.Length(st.codec).None?))
  }

  /** The helper's length inference at unpack time succeeds. */
  predicate Agrees(st: FieldState)
  {
    st.Length().None? || Parsers.Length(st.codec).None? || st.Length() == Parsers.Length(st.codec)
  }

  /** A length field as `link_length` leaves it, with width `k`: its
      prepack returns the data field's length and replaces its argument,
      and its postpack does not change the bytes. */
  ghost predicate LengthField(st: FieldState, d: string, k: nat)
  {
    && Parsers.Length(st.codec) == Some(k)
    && st.slots.prepack == Callback(LinkedLength(d), true)
    && !st.slots.postpack.modifying && !st.slots.postpack.action.LinkedLength?
  }

  /** The same helper, on the same codec and callbacks. */
  ghost predicate SameHelper(a: FieldState, b: FieldState)
  {
    a.codec == b.codec && a.slots == b.slots
  }

  /** `b` is `a` with at most the slice of helper `len` changed. */
  ghost predicate OnlySlice(a: map<string, FieldState>, b: map<string, FieldState>, len: string)
  {
    len in a && len in b && b == a[len := b[len]] && b[len] == a[len].(slice := b[len].slice)
  }

  lemma OnlySliceSet(a: map<string, FieldState>, b: map<string, FieldState>, len: string, d: string, v: FieldState)
    requires OnlySlice(a, b, len) && d != len
    ensures OnlySlice(a[d := v], b[d := v], len)
  {
    assert b[d := v] == a[d := v][len := b[len]];
  }

  lemma OnlySliceTrans(a: map<string, FieldState>, b: map<string, FieldState>, c: map<string, FieldState>, len: string)
    requires OnlySlice(a, b, len) && OnlySlice(b, c, len)
    ensures OnlySlice(a, c, len)
  {
    assert c == a[len := c[len]];
  }

  /** `buf[offset:offset+len(x)] = x` over bytes that are already there. */
  function Overwrite(buf: seq<Byte>, offset: nat, x: seq<Byte>): (r: seq<Byte>)
    requires offset + |x| <= |buf|
    ensures |r| == |buf| && r[..offset] == buf[..offset] && r[offset..offset + |x|] == x
    ensures r[offset + |x|..] == buf[offset + |x|..]
  {
    buf[..offset] + x + buf[offset + |x|..]
  }

  /** A waiting call that can write `k` bytes where it was made. */
  predicate Patchable(t: Thunk, len: string, k: nat, bufs: seq<seq<Byte>>)
  {
    && t.field == len && t.length == Some(k)
    && t.obj.Record? && len in t.obj.slots
    && t.into < |bufs| && t.offset + k <= |bufs[t.into]|
  }

  /** The scratch buffers once each call in `ts`, in order, has written
      `x` at its own offset in its own buffer. */
  function Patched(bufs: seq<seq<Byte>>, ts: seq<Thunk>, x: seq<Byte>): (r: seq<seq<Byte>>)
    ensures |r| == |bufs| && forall b | 0 <= b < |bufs| :: |r[b]| == |bufs[b]|
    decreases |ts|
  {
    if ts == [] then bufs
    else
      var t := ts[0];
      if t.into < |bufs| && t.offset + |x| <= |bufs[t.into]| then
        Patched(bufs[t.into := Overwrite(bufs[t.into], t.offset, x)], ts[1..], x)
      else Patched(bufs, ts[1..], x)
  }

  /** The data field `d` is packed: it keeps its codec and callbacks, its
      offset is back to 0 and its length is that of `data`; besides it,
      only the slice of the length field `len` may differ. */
  ghost predicate DataPacked(before: map<string, FieldState>, after: map<string, FieldState>, d: string, len: string, data: seq<Byte>)
  {
    && d in before && d in after && OnlySlice(before[d := after[d]], after, len)
    && SameHelper(after[d], before[d]) && after[d].offset == 0 && after[d].Length() == Some(|data|)
  }

  /** Appending to a buffer leaves every call able to patch. */
  lemma PatchableGrows(ts: seq<Thunk>, len: string, k: nat, bufs: seq<seq<Byte>>, cur: nat, data: seq<Byte>)
    requires cur < |bufs| && forall j | 0 <= j < |ts| :: Patchable(ts[j], len, k, bufs)
    ensures forall j | 0 <= j < |ts| :: Patchable(ts[j], len, k, bufs[cur := bufs[cur] + data])
  {
    forall j | 0 <= j < |ts| ensures Patchable(ts[j], len, k, bufs[cur := bufs[cur] + data]) {
      assert Patchable(ts[j], len, k, bufs);
    }
  }

  // ---------------------------------------------------------------
  // pack
  // ---------------------------------------------------------------

  /** A field packs at the end of the buffer: the encoded bytes are
      appended and the helper's length becomes theirs. */
  lemma PackAppends(st: FieldState, v: Value, buf: seq<Byte>, env: Lengths, data: seq<Byte>)
    requires PacksAlone(st.slots) && Encode(st.codec, st.slots, v, map[]) == Ok(data)
    requires st.offset == |buf| && Fits(st, |data|) && Infer(st, None).Ok?
    ensures var (r, st2) := PackField(Infer(st, None).value, v, buf, env);
      r == Ok(buf + data) && SameHelper(st2, st) && st2.offset == st.offset && st2.Length() == Some(|data|)
  {
    var st1 := Infer(st, None).value;
    assert Encode(st.codec, st.slots, v, env) == Ok(data);
    PackFieldWrites(st1, v, buf, env);
  }

  /** The packing part of a plain field's turn, once its length is
      inferred: the encoded bytes go at the end of the buffer, no call
      waits on it, and its offset goes back to 0. */
  lemma EmitPlain(ops: Ops, sch: Schema, v: Value, cur: nat, name: string, w: World, data: seq<Byte>)
    requires Concrete(ops) && Shaped(sch) && Covers(sch.names, w.states)
    requires cur < |w.bufs| && name in sch.names && sch.waiting[name] == []
    requires var st := w.states[name];
      && PacksAlone(st.slots) && Encode(st.codec, st.slots, v, map[]) == Ok(data) && Fits(st, |data|)
      && st.offset == |w.bufs[cur]| && Infer(st, None) == Ok(st)
    ensures var r := Emit(ops, sch, v, cur, name, w);
      && r.0 == Pass && r.1 == |data|
      && r.2.bufs == w.bufs[cur := w.bufs[cur] + data]
      && r.2.states == w.states[name := r.2.states[name]]
      && SameHelper(r.2.states[name], w.states[name])
      && r.2.states[name].offset == 0 && r.2.states[name].Length() == Some(|data|)
  {
    var st := w.states[name];
    PackAppends(st, v, w.bufs[cur], Env(w.states), data);
    assert ops.pack(st, v, w.bufs[cur], Env(w.states)) == PackField(st, v, w.bufs[cur], Env(w.states));
  }

  /** A field that no length is linked to, at the end of the buffer: its
      turn appends its encoded value and moves the cursor past it; only
      its own helper changes, and its offset goes back to 0. */
  lemma PlainTurn(ops: Ops, sch: Schema, obj: Value, cur: nat, i: nat, seeker: nat, w: World, data: seq<Byte>)
    requires Concrete(ops) && Shaped(sch) && Covers(sch.names, w.states)
    requires cur < |w.bufs| && i < |sch.names| && |w.bufs[cur]| == seeker
    requires sch.names[i] !in sch.links && sch.waiting[sch.names[i]] == []
    requires obj.Record? && sch.names[i] in obj.slots
    requires var st := w.states[sch.names[i]];
      PacksAlone(st.slots) && Encode(st.codec, st.slots, obj.slots[sch.names[i]], map[]) == Ok(data) && Fits(st, |data|)
    ensures var name := sch.names[i];
      var r := PackTurn(ops, sch, obj, cur, i, seeker, w);
      && r.0 == Pass && r.1 == seeker + |data| && r.2 == sch
      && r.3.bufs == w.bufs[cur := w.bufs[cur] + data]
      && r.3.states == w.states[name := r.3.states[name]]
      && SameHelper(r.3.states[name], w.states[name])
      && r.3.states[name].offset == 0 && r.3.states[name].Length() == Some(|data|)
  {
    var name := sch.names[i];
    var st1 := Infer(w.states[name].(offset := seeker), None).value;
    TurnEmits(ops, sch, obj, cur, i, seeker, w);
    EmitPlain(ops, sch, obj.slots[name], cur, name, w.(states := w.states[name := st1]), data);
  }

  /** A linked length field of width `k`, at the end of the buffer: its
      turn leaves a call on its data field's wait list that remembers the
      cursor, the width, the object and the buffer, and writes `k` zero
      bytes; the cursor moves past them. */
  lemma ReserveTurn(ops: Ops, sch: Schema, obj: Value, cur: nat, i: nat, seeker: nat, w: World, k: nat)
    requires Concrete(ops) && Shaped(sch) && Covers(sch.names, w.states)
    requires cur < |w.bufs| && i < |sch.names| && |w.bufs[cur]| == seeker
    requires sch.names[i] in sch.links
    requires obj.Record? && sch.names[i] in obj.slots
    requires Parsers.Length(w.states[sch.names[i]].codec) == Some(k) && w.states[sch.names[i]].Length() == Some(k)
    ensures var name := sch.names[i];
      var d := sch.links[name];
      var r := PackTurn(ops, sch, obj, cur, i, seeker, w);
      && r.0 == Pass && r.1 == seeker + k
      && r.2 == sch.(waiting := sch.waiting[d := sch.waiting[d] + [Thunk(name, seeker, Some(k), obj, cur)]])
      && r.3.bufs == w.bufs[cur := w.bufs[cur] + Zeros(k)]
      && r.3.states == w.states[name := r.3.states[name]]
      && r.3.states[name] == w.states[name].(offset := 0, explicit := Some(k), slice := r.3.states[name].slice)
  {
    var name := sch.names[i];
    var st := w.states[name].(offset := seeker);
    assert ops.infer(st, None) == Infer(st, None) == Ok(st.(explicit := Some(k)));
    var st1 := st.(explicit := Some(k));
    var buf := w.bufs[cur];
    var sl := MakeSlice(seeker, Some(k), Some(|buf|), false);
    AssignAtEnd(buf, sl, Zeros(k));
    assert ops.pad(st1, buf) == PadField(st1, buf) == (buf + Zeros(k), st1.(slice := Some(sl)));
  }

  /** The length field, at a waiting call's offset and width, packs the
      data field's length over the `k` bytes there. */
  lemma LengthPatches(st: FieldState, v: Value, buf: seq<Byte>, env: Lengths, d: string, k: nat, x: seq<Byte>)
    requires LengthField(st, d, k) && st.explicit == Some(k) && st.offset + k <= |buf|
    requires d in env && env[d].Some? && Parsers.Pack(st.codec, Int(env[d].value)) == Ok(x)
    ensures var (r, st1) := PackField(st, v, buf, env);
      r == Ok(Overwrite(buf, st.offset, x)) && st1 == st.(slice := st1.slice)
  {
    assert |x| == k;
    assert LinkedValue(env, LinkedLength(d)) == Ok(Int(env[d].value));
    assert Encode(st.codec, st.slots, v, env) == Ok(x);
    PackFieldWrites(st, v, buf, env);
  }

  /** The first part of a waiting call: the length field takes the
      call's offset and width and patches its buffer. */
  lemma EnterPatches(ops: Ops, t: Thunk, d: string, w: World, k: nat, x: seq<Byte>)
    requires Concrete(ops)
    requires t.field in w.states && d in w.states && t.field != d
    requires Patchable(t, t.field, k, w.bufs)
    requires LengthField(w.states[t.field], d, k)
    requires w.states[d].Length().Some? && Parsers.Pack(w.states[t.field].codec, Int(w.states[d].Length().value)) == Ok(x)
    ensures var (o, w1) := Enter(ops, t, w);
      && o == Pass
      && w1.bufs == w.bufs[t.into := Overwrite(w.bufs[t.into], t.offset, x)]
      && w1.states == w.states[t.field := w1.states[t.field]]
      && w1.states[t.field] == w.states[t.field].(explicit := Some(k), offset := t.offset, slice := w1.states[t.field].slice)
  {
    var len := t.field;
    var st := w.states[len].(explicit := t.length, offset := t.offset);
    var states := w.states[len := st];
    var env := Env(states);
    var v := t.obj.slots[len];
    assert Item(t.obj, len) == Ok(v);
    LengthPatches(st, v, w.bufs[t.into], env, d, k, x);
    assert ops.pack(st, v, w.bufs[t.into], env) == PackField(st, v, w.bufs[t.into], env);
  }

  /** A waiting call of the length field writes the data field's length,
      packed by the length codec, over its `k` bytes, and puts the length
      field's offset and length back; nothing else changes. */
  lemma FirePatches(ops: Ops, sch: Schema, t: Thunk, d: string, w: World, k: nat, x: seq<Byte>)
    requires Concrete(ops) && Shaped(sch) && Covers(sch.names, w.states)
    requires t.field in sch.names && d in w.states && t.field != d && sch.waiting[t.field] == []
    requires Patchable(t, t.field, k, w.bufs)
    requires LengthField(w.states[t.field], d, k) && w.states[t.field].explicit == Some(k)
    requires w.states[d].Length().Some? && Parsers.Pack(w.states[t.field].codec, Int(w.states[d].Length().value)) == Ok(x)
    ensures var (o, w1) := Fire(ops, sch, t, w);
      && o == Pass
      && w1.bufs == w.bufs[t.into := Overwrite(w.bufs[t.into], t.offset, x)]
      && OnlySlice(w.states, w1.states, t.field)
  {
    EnterPatches(ops, t, d, w, k, x);
  }

  /** One waiting call that passes its order check and fires without
      error hands on to the rest of the list. */
  lemma FireAllStep(ops: Ops, sch: Schema, ts: seq<Thunk>, d: string, w: World)
    requires Shaped(sch) && Covers(sch.names, w.states) && d in sch.names
    requires ts != [] && Ordered(sch.names, d, ts[0], |w.bufs|) && ts[0].field != d
    requires Fire(ops, sch, ts[0], w).0 == Pass
    ensures FireAll(ops, sch, ts, d, w) == FireAll(ops, sch, ts[1..], d, Fire(ops, sch, ts[0], w).1)
  {
  }

  /** The calls waiting on a data field, each made by the same length
      field, write the data field's packed length where each was made. */
  lemma {:induction false} FireAllPatches(ops: Ops, sch: Schema, ts: seq<Thunk>, len: string, d: string, w: World, k: nat, x: seq<Byte>)
    requires Concrete(ops) && Shaped(sch) && Covers(sch.names, w.states)
    requires len in sch.names && d in sch.names && len != d && sch.waiting[len] == []
    requires IndexOf(sch.names, len) <= IndexOf(sch.names, d)
    requires forall j | 0 <= j < |ts| :: Patchable(ts[j], len, k, w.bufs)
    requires LengthField(w.states[len], d, k) && w.states[len].explicit == Some(k)
    requires w.states[d].Length().Some? && Parsers.Pack(w.states[len].codec, Int(w.states[d].Length().value)) == Ok(x)
    ensures |x| == k
    ensures var (o, w1) := FireAll(ops, sch, ts, d, w);
      && o == Pass
      && w1.bufs == Patched(w.bufs, ts, x)
      && OnlySlice(w.states, w1.states, len)
    decreases |ts|
  {
    if ts != [] {
      var t := ts[0];
      assert Patchable(t, len, k, w.bufs);
      assert Ordered(sch.names, d, t, |w.bufs|);
      FirePatches(ops, sch, t, d, w, k, x);
      var w1 := Fire(ops, sch, t, w).1;
      FireAllStep(ops, sch, ts, d, w);
      forall j | 0 <= j < |ts[1..]| ensures Patchable(ts[1..][j], len, k, w1.bufs) {
        assert Patchable(ts[j + 1], len, k, w.bufs);
      }
      assert w1.states[d] == w.states[d];
      assert LengthField(w1.states[len], d, k) && w1.states[len].explicit == Some(k);
      FireAllPatches(ops, sch, ts[1..], len, d, w1, k, x);
      assert Patched(w.bufs, ts, x) == Patched(w1.bufs, ts[1..], x);
      OnlySliceTrans(w.states, w1.states, FireAll(ops, sch, ts[1..], d, w1).1.states, len);
    }
  }

  /** The turn of a field that no length is linked to: once its length
      is inferred at the cursor, it is `Emit`. */
  lemma TurnEmits(ops: Ops, sch: Schema, obj: Value, cur: nat, i: nat, seeker: nat, w: World)
    requires Concrete(ops) && Shaped(sch) && Covers(sch.names, w.states)
    requires cur < |w.bufs| && i < |sch.names| && sch.names[i] !in sch.links
    requires obj.Record? && sch.names[i] in obj.slots
    requires Infer(w.states[sch.names[i]].(offset := seeker), None).Ok?
    ensures var name := sch.names[i];
      var st1 := Infer(w.states[name].(offset := seeker), None).value;
      && Infer(st1, None) == Ok(st1) && st1.offset == seeker
      && var (o, adv, w1) := Emit(ops, sch, obj.slots[name], cur, name, w.(states := w.states[name := st1]));
      PackTurn(ops, sch, obj, cur, i, seeker, w) == (o, seeker + adv, sch, w1)
  {
    var name := sch.names[i];
    var st := w.states[name].(offset := seeker);
    assert ops.infer(st, None) == Infer(st, None);
    ResolveLengthIdempotent(st.Length(), Parsers.Length(st.codec), None);
  }

  /** The packing part of a field's turn packs at the end of the buffer
      and then hands over to the calls waiting on the field. */
  lemma EmitPacks(ops: Ops, sch: Schema, v: Value, cur: nat, d: string, w: World, data: seq<Byte>)
    requires Concrete(ops) && Shaped(sch) && Covers(sch.names, w.states)
    requires cur < |w.bufs| && d in sch.names
    requires var st := w.states[d];
      && PacksAlone(st.slots) && Encode(st.codec, st.slots, v, map[]) == Ok(data) && Fits(st, |data|)
      && st.offset == |w.bufs[cur]| && Infer(st, None) == Ok(st)
    ensures var st2 := PackField(w.states[d], v, w.bufs[cur], Env(w.states)).1;
      var w1 := World(w.states[d := st2], w.bufs[cur := w.bufs[cur] + data]);
      var (o, w2) := FireAll(ops, sch, sch.waiting[d], d, w1);
      && SameHelper(st2, w.states[d]) && st2.Length() == Some(|data|) && st2.offset == w.states[d].offset
      && (o == Pass ==> Emit(ops, sch, v, cur, d, w) == (Pass, |data|, w2.(states := w2.states[d := w2.states[d].(offset := 0)])))
  {
    var st := w.states[d];
    PackAppends(st, v, w.bufs[cur], Env(w.states), data);
    assert ops.pack(st, v, w.bufs[cur], Env(w.states)) == PackField(st, v, w.bufs[cur], Env(w.states));
  }

  /** The packing part of a data field's turn, once its length is
      inferred: its bytes go at the end of the buffer, then every call
      waiting on it writes its packed length where that call was made;
      its own offset goes back to 0. */
  lemma EmitLinked(ops: Ops, sch: Schema, v: Value, cur: nat, d: string, len: string, w: World, data: seq<Byte>, k: nat, x: seq<Byte>)
    requires Concrete(ops) && Shaped(sch) && Covers(sch.names, w.states)
    requires cur < |w.bufs| && d in sch.names && len in sch.names && len != d && sch.waiting[len] == []
    requires IndexOf(sch.names, len) <= IndexOf(sch.names, d)
    requires var st := w.states[d];
      && PacksAlone(st.slots) && Encode(st.codec, st.slots, v, map[]) == Ok(data) && Fits(st, |data|)
      && st.offset == |w.bufs[cur]| && Infer(st, None) == Ok(st)
    requires forall j | 0 <= j < |sch.waiting[d]| :: Patchable(sch.waiting[d][j], len, k, w.bufs)
    requires LengthField(w.states[len], d, k) && w.states[len].explicit == Some(k)
    requires Parsers.Pack(w.states[len].codec, Int(|data|)) == Ok(x)
    ensures |x| == k
    ensures var r := Emit(ops, sch, v, cur, d, w);
      && r.0 == Pass && r.1 == |data|
      && r.2.bufs == Patched(w.bufs[cur := w.bufs[cur] + data], sch.waiting[d], x)
      && DataPacked(w.states, r.2.states, d, len, data)
  {
    var st := w.states[d];
    var buf := w.bufs[cur];
    EmitPacks(ops, sch, v, cur, d, w, data);
    var st2 := PackField(st, v, buf, Env(w.states)).1;
    var w1 := World(w.states[d := st2], w.bufs[cur := buf + data]);
    PatchableGrows(sch.waiting[d], len, k, w.bufs, cur, data);
    FireAllPatches(ops, sch, sch.waiting[d], len, d, w1, k, x);
    var w2 := FireAll(ops, sch, sch.waiting[d], d, w1).1;
    assert w2.states[d] == st2;
    OnlySliceSet(w1.states, w2.states, len, d, st2.(offset := 0));
    assert w1.states[d := st2.(offset := 0)] == w.states[d := st2.(offset := 0)];
  }

  /** A data field's turn at the end of the buffer: it appends its
      encoded value, the calls waiting on it patch in its length, and the
      cursor moves past the value. */
  lemma DataTurn(ops: Ops, sch: Schema, obj: Value, cur: nat, i: nat, seeker: nat, len: string, w: World, data: seq<Byte>, k: nat, x: seq<Byte>)
    requires Concrete(ops) && Shaped(sch) && Covers(sch.names, w.states)
    requires cur < |w.bufs| && i < |sch.names| && |w.bufs[cur]| == seeker
    requires sch.names[i] !in sch.links && len in sch.names && len != sch.names[i] && sch.waiting[len] == []
    requires IndexOf(sch.names, len) <= IndexOf(sch.names, sch.names[i])
    requires obj.Record? && sch.names[i] in obj.slots
    requires var st := w.states[sch.names[i]];
      PacksAlone(st.slots) && Encode(st.codec, st.slots, obj.slots[sch.names[i]], map[]) == Ok(data) && Fits(st, |data|)
    requires forall j | 0 <= j < |sch.waiting[sch.names[i]]| :: Patchable(sch.waiting[sch.names[i]][j], len, k, w.bufs)
    requires LengthField(w.states[len], sch.names[i], k) && w.states[len].explicit == Some(k)
    requires Parsers.Pack(w.states[len].codec, Int(|data|)) == Ok(x)
    ensures |x| == k
    ensures var d := sch.names[i];
      var r := PackTurn(ops, sch, obj, cur, i, seeker, w);
      && r.0 == Pass && r.1 == seeker + |data| && r.2 == sch
      && r.3.bufs == Patched(w.bufs[cur := w.bufs[cur] + data], sch.waiting[d], x)
      && DataPacked(w.states, r.3.states, d, len, data)
  {
    var d := sch.names[i];
    var st1 := Infer(w.states[d].(offset := seeker), None).value;
    TurnEmits(ops, sch, obj, cur, i, seeker, w);
    var w1 := w.(states := w.states[d := st1]);
    EmitLinked(ops, sch, obj.slots[d], cur, d, len, w1, data, k, x);
    var after := PackTurn(ops, sch, obj, cur, i, seeker, w).3.states;
    assert w1.states[d := after[d]] == w.states[d := after[d]];
  }

  // ---------------------------------------------------------------
  // unpack
  // ---------------------------------------------------------------

  /** Helper `name` has read `n` bytes: it keeps its codec and callbacks,
      its offset is back to 0 and its length is `n`; no other helper
      changes. */
  ghost predicate Read(before: map<string, FieldState>, after: map<string, FieldState>, name: string, n: nat)
  {
    && name in before && name in after && after == before[name := after[name]]
    && SameHelper(after[name], before[name]) && after[name].offset == 0 && after[name].Length() == Some(n)
  }

  /** A helper whose unpacking callbacks do not read the sibling lengths
      decodes the `n` bytes at its offset, whatever those lengths are. */
  lemma UnpackAt(st: FieldState, from: seq<Byte>, env: Lengths, n: nat)
    requires !st.slots.preunpack.action.LinkedLength? && !st.slots.postunpack.action.LinkedLength?
    requires Agrees(st) && st.Length() == Some(n) && st.offset + n <= |from|
    ensures Infer(st, None).Ok?
    ensures var (r, st2) := UnpackField(Infer(st, None).value, from, env);
      && r == Decode(st.codec, st.slots, from[st.offset..st.offset + n], map[])
      && SameHelper(st2, st) && st2.offset == st.offset && st2.Length() == Some(n)
  {
    var st1 := Infer(st, None).value;
    UnpackFieldReads(st1, from, env);
    ResolveLengthIdempotent(st.Length(), Parsers.Length(st.codec), None);
  }

  /** The decoding part of a field's turn: with a known length `n` and
      `n` bytes left at the cursor, the field decodes exactly those bytes
      and the rest of the turn is `Settle`. */
  lemma TurnSettles(ops: Ops, sch: Schema, from: seq<Byte>, i: nat, seeker: nat, got: map<string, Value>,
                    len: Option<nat>, states: map<string, FieldState>, n: nat, v: Value)
    requires Concrete(ops) && Covers(sch.names, states) && i < |sch.names|
    requires var st := states[sch.names[i]];
      && !st.slots.preunpack.action.LinkedLength? && !st.slots.postunpack.action.LinkedLength?
      && Agrees(st) && st.Length() == Some(n) && seeker + n <= |from|
      && Decode(st.codec, st.slots, from[seeker..seeker + n], map[]) == Ok(v)
    ensures var name := sch.names[i];
      var st1 := Infer(states[name].(offset := seeker), None).value;
      var st2 := UnpackField(st1, from, Env(states[name := st1])).1;
      && SameHelper(st2, states[name]) && st2.Length() == Some(n)
      && UnpackTurn(ops, sch, from, i, seeker, got, len, states) == Settle(sch, name, v, seeker, got, len, states[name := st2])
  {
    var name := sch.names[i];
    var st := states[name].(offset := seeker);
    assert ops.infer(st, None) == Infer(st, None);
    var st1 := Infer(st, None).value;
    var env := Env(states[name := st1]);
    UnpackAt(st, from, env, n);
    assert ops.unpack(st1, from, env) == UnpackField(st1, from, env);
  }

  /** A field whose postunpack sets no length, with a known length `n`
      and `n` bytes left at the cursor: it decodes exactly those bytes,
      the value goes into the record unless the field is excluded, and
      the cursor moves past them. */
  lemma ReadTurn(ops: Ops, sch: Schema, from: seq<Byte>, i: nat, seeker: nat, got: map<string, Value>,
                 len: Option<nat>, states: map<string, FieldState>, n: nat, v: Value)
    requires Concrete(ops) && Covers(sch.names, states) && i < |sch.names|
    requires var st := states[sch.names[i]];
      && ReadsAlone(st.slots) && Agrees(st) && st.Length() == Some(n) && seeker + n <= |from|
      && Decode(st.codec, st.slots, from[seeker..seeker + n], map[]) == Ok(v)
    ensures var name := sch.names[i];
      var r := UnpackTurn(ops, sch, from, i, seeker, got, len, states);
      && r.0 == Pass && r.1 == seeker + n
      && r.2 == (if name in sch.exclude then got else got[name := v])
      && Read(states, r.4, name, n) && r.3 == StaticLength(sch.names, r.4)
  {
    TurnSettles(ops, sch, from, i, seeker, got, len, states, n, v);
    var name := sch.names[i];
    var st1 := Infer(states[name].(offset := seeker), None).value;
    var st2 := UnpackField(st1, from, Env(states[name := st1])).1;
    SettlePlain(sch, name, v, seeker, got, len, states[name := st2], n);
  }

  /** The end of the turn of a field whose postunpack sets no length:
      the cursor moves by the field's length `n` and its offset goes back
      to 0. */
  lemma SettlePlain(sch: Schema, name: string, v: Value, seeker: nat, got: map<string, Value>,
                    len: Option<nat>, states: map<string, FieldState>, n: nat)
    requires Covers(sch.names, states) && name in states
    requires !states[name].slots.postunpack.action.SetLinkedLength? && states[name].Length() == Some(n)
    ensures var r := Settle(sch, name, v, seeker, got, len, states);
      && r.0 == Pass && r.1 == seeker + n
      && r.2 == (if name in sch.exclude then got else got[name := v])
      && r.4 == states[name := states[name].(offset := 0)] && r.3 == StaticLength(sch.names, r.4)
  {
  }

  /** A field of unknown length reads everything from the cursor on; its
      turn then fails, because the cursor cannot move by an unknown
      length. */
  lemma ReadUnboundedFails(ops: Ops, sch: Schema, from: seq<Byte>, i: nat, seeker: nat, got: map<string, Value>,
                           len: Option<nat>, states: map<string, FieldState>)
    requires Concrete(ops) && Covers(sch.names, states) && i < |sch.names|
    requires var st := states[sch.names[i]];
      && ReadsAlone(st.slots) && st.Length().None? && seeker <= |from|
      && Decode(st.codec, st.slots, from[seeker..], map[]).Ok?
    ensures UnpackTurn(ops, sch, from, i, seeker, got, len, states).0 == Fail(TypeError)
  {
    var name := sch.names[i];
    var st := states[name].(offset := seeker);
    assert ops.infer(st, None) == Infer(st, None) == Ok(st);
    var env := Env(states[name := st]);
    UnpackFieldReads(st, from, env);
    assert Decode(st.codec, st.slots, from[seeker..], env) == Decode(st.codec, st.slots, from[seeker..], map[]);
    assert ops.unpack(st, from, env) == UnpackField(st, from, env);
  }

  /** A linked length field of width `k`: it decodes the `k` bytes at the
      cursor; a non-negative value `m` becomes its data field's explicit
      length, nothing goes into the record when it is excluded, and the
      cursor moves past it. A negative value is refused. */
  lemma ReadLengthTurn(ops: Ops, sch: Schema, from: seq<Byte>, i: nat, seeker: nat, got: map<string, Value>,
                       len: Option<nat>, states: map<string, FieldState>, d: string, k: nat, m: int)
    requires Concrete(ops) && Covers(sch.names, states) && i < |sch.names|
    requires d in states && d != sch.names[i]
    requires var st := states[sch.names[i]];
      && st.slots.postunpack == Callback(SetLinkedLength(d), false) && !st.slots.preunpack.action.LinkedLength?
      && Agrees(st) && st.Length() == Some(k) && seeker + k <= |from|
      && Decode(st.codec, st.slots, from[seeker..seeker + k], map[]) == Ok(Int(m))
    ensures var name := sch.names[i];
      var r := UnpackTurn(ops, sch, from, i, seeker, got, len, states);
      && (m >= 0 ==>
        && r.0 == Pass && r.1 == seeker + k
        && r.2 == (if name in sch.exclude then got else got[name := Int(m)])
        && Read(states[d := states[d].(explicit := Some(m))], r.4, name, k)
        && r.3 == StaticLength(sch.names, r.4))
      && (m < 0 ==> r.0 == Fail(ParseError))
  {
    var name := sch.names[i];
    TurnSettles(ops, sch, from, i, seeker, got, len, states, k, Int(m));
    var st1 := Infer(states[name].(offset := seeker), None).value;
    var st2 := UnpackField(st1, from, Env(states[name := st1])).1;
    SettleLength(sch, name, d, m, seeker, got, len, states, st2, k);
  }

  /** The end of a length field's turn, once it has decoded `m`. */
  lemma SettleLength(sch: Schema, name: string, d: string, m: int, seeker: nat, got: map<string, Value>,
                     len: Option<nat>, states: map<string, FieldState>, st2: FieldState, k: nat)
    requires Covers(sch.names, states) && name in states && d in states && d != name
    requires st2.slots.postunpack == Callback(SetLinkedLength(d), false) && st2.Length() == Some(k)
    requires SameHelper(st2, states[name])
    ensures var r := Settle(sch, name, Int(m), seeker, got, len, states[name := st2]);
      && (m >= 0 ==>
        && r.0 == Pass && r.1 == seeker + k
        && r.2 == (if name in sch.exclude then got else got[name := Int(m)])
        && Read(states[d := states[d].(explicit := Some(m))], r.4, name, k)
        && r.3 == StaticLength(sch.names, r.4))
      && (m < 0 ==> r.0 == Fail(ParseError))
  {
    var s1 := states[name := st2];
    if m >= 0 {
      assert Inject(SetLinkedLength(d), Int(m), s1) == Ok(s1[d := s1[d].(explicit := Some(m))]);
      assert s1[d := s1[d].(explicit := Some(m))] == states[d := states[d].(explicit := Some(m))][name := st2];
    }
  }
}
