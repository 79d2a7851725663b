/** `SmartyParser`: an ordered table of named helpers, walked with a
    cursor, plus the length links that `link_length` installs.

    The composite's pack and unpack are first written as functions over a
    `Schema` (the names in declaration order, the excluded names, the
    links and the wait lists of deferred calls) and a `World` (the
    helpers' states by name and the scratch buffers that deferred calls
    write into). They are parameterised by the helper operations `Ops`;
    `Concrete(ops)` says that these are the helper pipeline of module
    Fields. Class `SmartyParser` is proved to follow the functions. */
module Smarty {
  import opened Values
  import opened Callbacks
  import opened Fields
  import Parsers

  // ---------------------------------------------------------------
  // State
  // ---------------------------------------------------------------

  /** A deferred call made by `_generate_deferred`: the length field it
      packs, the offset and length that field had when the call was made,
      the object it takes its value from and the scratch buffer (by index)
      it writes into. */
  datatype Thunk = Thunk(field: string, offset: nat, length: Option<nat>, obj: Value, into: nat)

  /** `_control`'s keys in order, `_exclude_from_obj`, `_defer_eval[0]`
      (length field to data field) and `_defer_eval[1]` (the calls waiting
      on each field). */
  datatype Schema = Schema(
    names: seq<string>,
    exclude: set<string>,
    links: map<string, string>,
    waiting: map<string, seq<Thunk>>)

  /** The helpers' states by name and the contents of every scratch
      buffer that a `pack` has made (deferred calls keep them alive). */
  datatype World = World(states: map<string, FieldState>, bufs: seq<seq<Byte>>)

  /** The helper operations the composite drives. */
  datatype Ops = Ops(
    infer: (FieldState, Option<nat>) -> Result<FieldState>,
    pack: (FieldState, Value, seq<Byte>, Lengths) -> (Result<seq<Byte>>, FieldState),
    pad: (FieldState, seq<Byte>) -> (seq<Byte>, FieldState),
    unpack: (FieldState, seq<Byte>, Lengths) -> (Result<Value>, FieldState))

  /** The operations are those of `ParseHelper`. */
  ghost predicate Concrete(ops: Ops)
  {
    && (forall fs, n {:trigger Infer(fs, n)} :: ops.infer(fs, n) == Infer(fs, n))
    && (forall fs, obj, buf, env {:trigger PackField(fs, obj, buf, env)} :: ops.pack(fs, obj, buf, env) == PackField(fs, obj, buf, env))
    && (forall fs, buf {:trigger PadField(fs, buf)} :: ops.pad(fs, buf) == PadField(fs, buf))
    && (forall fs, from, env {:trigger UnpackField(fs, from, env)} :: ops.unpack(fs, from, env) == UnpackField(fs, from, env))
  }

  /** The helper operations of module Fields. */
  const Helpers: Ops := Ops(Infer, PackField, PadField, UnpackField)

  lemma HelpersConcrete()
    ensures Concrete(Helpers)
  {
  }

  /** Position of a declared name. */
  function IndexOf(names: seq<string>, n: string): (i: nat)
    requires n in names
    ensures i < |names| && names[i] == n
  {
    if names[0] == n then 0 else 1 + IndexOf(names[1..], n)
  }

  /** A deferred call waiting on `f` packs a field declared no later than
      `f` into an existing scratch buffer. */
  ghost predicate Waits(names: seq<string>, f: string, u: Thunk, nbufs: nat)
    requires f in names
  {
    u.field in names && IndexOf(names, u.field) <= IndexOf(names, f) && u.into < nbufs
  }

  /** Every name has a wait list and links join declared names. */
  ghost predicate Shaped(sch: Schema)
  {
    && (forall n | n in sch.names :: n in sch.waiting)
    && (forall l | l in sch.links :: l in sch.names && sch.links[l] in sch.names)
  }

  /** What the composite keeps true: it is shaped, every link has the
      length no later than the data, and waiting calls respect the
      declaration order. */
  ghost predicate Wellformed(sch: Schema, nbufs: nat)
  {
    && Shaped(sch)
    && (forall l | l in sch.links :: IndexOf(sch.names, l) <= IndexOf(sch.names, sch.links[l]))
    && (forall f, k | f in sch.names && 0 <= k < |sch.waiting[f]| :: Waits(sch.names, f, sch.waiting[f][k], nbufs))
  }

  /** Every declared name has a helper state. */
  ghost predicate Covers(names: seq<string>, states: map<string, FieldState>)
  {
    forall n | n in names :: n in states
  }

  /** The lengths the link closures read, by name. */
  function Env(states: map<string, FieldState>): (env: Lengths)
    ensures forall n :: n in env <==> n in states
    ensures forall n | n in states :: env[n] == states[n].Length()
  {
    map n | n in states :: states[n].Length()
  }

  /** `obj[name]`: a missing key is a KeyError; an object that is not a
      record cannot be indexed by name (TypeError). */
  function Item(obj: Value, name: string): (r: Result<Value>)
    ensures r.Ok? <==> obj.Record? && name in obj.slots
    ensures r.Ok? ==> r.value == obj.slots[name]
    ensures r.Err? ==> r.error == if obj.Record? then KeyError else TypeError
  {
    if !obj.Record? then Err(TypeError)
    else if name in obj.slots then Ok(obj.slots[name])
    else Err(KeyError)
  }

  // ---------------------------------------------------------------
  // Declaring fields and links
  // ---------------------------------------------------------------

  /** `self[name] = helper`: a new name goes last, a known one keeps its
      place; either way its wait list starts empty. */
  function Declare(sch: Schema, name: string): (r: Schema)
  {
    sch.(names := if name in sch.names then sch.names else sch.names + [name],
         waiting := sch.waiting[name := []])
  }

  /** Declaring a name keeps the composite well formed. */
  lemma DeclareKeepsWellformed(sch: Schema, name: string, nbufs: nat)
    requires Wellformed(sch, nbufs)
    ensures Wellformed(Declare(sch, name), nbufs)
  {
    var sch1 := Declare(sch, name);
    if name !in sch.names {
      forall m | m in sch.names ensures IndexOf(sch1.names, m) == IndexOf(sch.names, m) {
        IndexOfAppend(sch.names, name, m);
      }
      forall f, k | f in sch1.names && 0 <= k < |sch1.waiting[f]|
        ensures Waits(sch1.names, f, sch1.waiting[f][k], nbufs)
      {
        assert f != name && sch1.waiting[f][k] == sch.waiting[f][k];
        assert Waits(sch.names, f, sch.waiting[f][k], nbufs);
      }
    }
  }

  lemma IndexOfAppend(names: seq<string>, x: string, m: string)
    requires m in names
    ensures IndexOf(names + [x], m) == IndexOf(names, m)
  {
    if names[0] != m {
      assert (names + [x])[1..] == names[1..] + [x];
      IndexOfAppend(names[1..], x, m);
    }
  }

  /** A slot after `register_callback`. */
  function Installed(s: Slots, stage: Stage, a: Action, modifying: bool): Slots
  {
    WithSlot(s, stage, Callback(a, modifying))
  }

  /** `register_callback` on the helper called `name`. */
  function InstallIn(states: map<string, FieldState>, name: string, stage: Stage, a: Action, modifying: bool)
    : (r: map<string, FieldState>)
    requires name in states
    ensures r.Keys == states.Keys
  {
    states[name := states[name].(slots := Installed(states[name].slots, stage, a, modifying))]
  }

  /** `link_length` refuses an undeclared name and a data field declared
      before its length field. */
  function LinkCheck(sch: Schema, data: string, len: string): (o: Outcome)
  {
    if data !in sch.names || len !in sch.names then Fail(ValueError)
    else if IndexOf(sch.names, data) < IndexOf(sch.names, len) then Fail(ValueError)
    else Pass
  }

  /** The schema after `link_length`: the length field is excluded from
      unpacked records and its data field recorded. */
  function LinkSchema(sch: Schema, data: string, len: string): (r: Schema)
  {
    sch.(exclude := sch.exclude + {len}, links := sch.links[len := data])
  }

  /** The helpers after `link_length`: four callbacks, in the source's order. */
  function LinkStates(states: map<string, FieldState>, data: string, len: string)
    : (r: map<string, FieldState>)
    requires data in states && len in states
  {
    var s1 := InstallIn(states, len, PostUnpack, SetLinkedLength(data), false);
    var s2 := InstallIn(s1, data, PostUnpack, Ignore(data), false);
    var s3 := InstallIn(s2, data, PrePack, ClearOwnLength(data), false);
    InstallIn(s3, len, PrePack, LinkedLength(data), true)
  }

  /** Linking a length to a later data field keeps the schema well formed. */
  lemma LinkKeepsWellformed(sch: Schema, data: string, len: string, nbufs: nat)
    requires Wellformed(sch, nbufs)
    requires data in sch.names && len in sch.names && IndexOf(sch.names, len) <= IndexOf(sch.names, data)
    ensures Wellformed(LinkSchema(sch, data, len), nbufs)
  {
  }

  // ---------------------------------------------------------------
  // Deferred calls
  // ---------------------------------------------------------------

  /** The first part of a deferred call: the field takes the saved
      length and offset, then packs `obj[field]` into its scratch buffer. */
  function Enter(ops: Ops, t: Thunk, w: World): (r: (Outcome, World))
    requires t.field in w.states && t.into < |w.bufs|
    ensures r.1.states.Keys == w.states.Keys && |r.1.bufs| == |w.bufs|
  {
    var st := w.states[t.field].(explicit := t.length, offset := t.offset);
    var w1 := w.(states := w.states[t.field := st]);
    match Item(t.obj, t.field)
    case Err(e) => (Fail(e), w1)
    case Ok(v) =>
      var (r, st1) := ops.pack(st, v, w.bufs[t.into], Env(w1.states));
      var w2 := w1.(states := w1.states[t.field := st1]);
      if r.Err? then (Fail(r.error), w2)
      else (Pass, w2.(bufs := w2.bufs[t.into := r.value]))
  }

  /** A deferred call: enter, fire the calls waiting on this field, then
      put back the field's length and offset as they were. An error
      leaves everything as it stands. */
  function Fire(ops: Ops, sch: Schema, t: Thunk, w: World): (r: (Outcome, World))
    requires Shaped(sch) && Covers(sch.names, w.states)
    requires t.field in sch.names && t.into < |w.bufs|
    ensures r.1.states.Keys == w.states.Keys && |r.1.bufs| == |w.bufs|
    decreases IndexOf(sch.names, t.field), 1, 0
  {
    var saved := w.states[t.field];
    var (o, w1) := Enter(ops, t, w);
    if o.Fail? then (o, w1)
    else
      var (o2, w2) := FireAll(ops, sch, sch.waiting[t.field], t.field, w1);
      if o2.Fail? then (o2, w2)
      else (Pass, w2.(states := w2.states[t.field := w2.states[t.field].(explicit := saved.Length(), offset := saved.offset)]))
  }

  /** The calls in `ts`, in order, on behalf of `parent`. A call for
      `parent` itself (left by an earlier self-link) re-enters without
      end: it is entered once and the result is RecursionError. A call
      for a field declared after `parent`, or into a buffer that does not
      exist, is refused the same way; in a well-formed composite there
      is none (`Waits`). */
  function FireAll(ops: Ops, sch: Schema, ts: seq<Thunk>, parent: string, w: World): (r: (Outcome, World))
    requires Shaped(sch) && Covers(sch.names, w.states)
    requires parent in sch.names
    ensures r.1.states.Keys == w.states.Keys && |r.1.bufs| == |w.bufs|
    decreases IndexOf(sch.names, parent), 0, |ts|
  {
    if ts == [] then (Pass, w)
    else if !Ordered(sch.names, parent, ts[0], |w.bufs|) then (Fail(RecursionError), w)
    else if ts[0].field == parent then
      var (o, w1) := Enter(ops, ts[0], w);
      if o.Fail? then (o, w1) else (Fail(RecursionError), w1)
    else
      var (o, w1) := Fire(ops, sch, ts[0], w);
      if o.Fail? then (o, w1)
      else FireAll(ops, sch, ts[1..], parent, w1)
  }

  /** The check `FireAll` makes of a waiting call: the same as `Waits`. */
  function Ordered(names: seq<string>, f: string, u: Thunk, nbufs: nat): (b: bool)
    requires f in names
    ensures b == Waits(names, f, u, nbufs)
  {
    u.field in names && IndexOf(names, u.field) <= IndexOf(names, f) && u.into < nbufs
  }

  // ---------------------------------------------------------------
  // pack
  // ---------------------------------------------------------------

  /** `for key in exclude: obj[key] = None`. */
  function ExcludeNone(obj: Value, exclude: set<string>): (r: Result<Value>)
    ensures r.Ok? <==> exclude == {} || obj.Record?
    ensures exclude == {} ==> r == Ok(obj)
    ensures r.Ok? && obj.Record? ==>
      && r.value.Record?
      && (forall k :: k in r.value.slots <==> k in obj.slots || k in exclude)
      && (forall k | k in exclude :: r.value.slots[k] == NoneV)
      && (forall k | k in obj.slots && k !in exclude :: r.value.slots[k] == obj.slots[k])
    ensures r.Err? ==> r.error == TypeError
  {
    if exclude == {} then Ok(obj)
    else if !obj.Record? then Err(TypeError)
    else Ok(Record(map k | k in obj.slots.Keys + exclude :: if k in exclude then NoneV else obj.slots[k]))
  }

  /** A linked length field's turn: it leaves a deferred call with its
      data field's wait list and reserves its bytes with zeros; its offset
      goes back to 0. The field has already inferred its length at the
      cursor. */
  function Reserve(ops: Ops, sch: Schema, obj: Value, cur: nat, name: string, w: World)
    : (r: (Schema, World))
    requires Shaped(sch) && Covers(sch.names, w.states)
    requires cur < |w.bufs| && name in sch.links
    ensures Shaped(r.0) && r.0 == sch.(waiting := r.0.waiting)
    ensures Covers(sch.names, r.1.states) && |r.1.bufs| == |w.bufs|
  {
    var st := w.states[name];
    var d := sch.links[name];
    var sch1 := sch.(waiting := sch.waiting[d := sch.waiting[d] + [Thunk(name, st.offset, st.Length(), obj, cur)]]);
    var (buf, st2) := ops.pad(st, w.bufs[cur]);
    (sch1, World(w.states[name := st2.(offset := 0)], w.bufs[cur := buf]))
  }

  /** Adding a call to a wait list keeps the composite well formed when
      the call waits on a field declared no earlier than its own. */
  lemma AppendKeepsWellformed(sch: Schema, d: string, t: Thunk, nbufs: nat)
    requires Wellformed(sch, nbufs) && d in sch.names && Waits(sch.names, d, t, nbufs)
    ensures Wellformed(sch.(waiting := sch.waiting[d := sch.waiting[d] + [t]]), nbufs)
  {
    var sch1 := sch.(waiting := sch.waiting[d := sch.waiting[d] + [t]]);
    forall f, k | f in sch1.names && 0 <= k < |sch1.waiting[f]|
      ensures Waits(sch1.names, f, sch1.waiting[f][k], nbufs)
    {
      if f == d && k == |sch.waiting[d]| {
        assert sch1.waiting[f][k] == t;
      } else {
        assert sch1.waiting[f][k] == sch.waiting[f][k];
      }
    }
  }

  /** Any other field's turn: it packs its value at the cursor, then the
      calls waiting on it fire, then its offset goes back to 0. Returns
      the cursor advance (the field's length after packing, before the
      calls fire). */
  function Emit(ops: Ops, sch: Schema, v: Value, cur: nat, name: string, w: World)
    : (r: (Outcome, nat, World))
    requires Shaped(sch) && Covers(sch.names, w.states)
    requires cur < |w.bufs| && name in sch.names
    ensures Covers(sch.names, r.2.states) && |r.2.bufs| == |w.bufs|
  {
    var (r, st2) := ops.pack(w.states[name], v, w.bufs[cur], Env(w.states));
    var w1 := w.(states := w.states[name := st2]);
    if r.Err? then (Fail(r.error), 0, w1)
    else
      var (o, w2) := FireAll(ops, sch, sch.waiting[name], name, w1.(bufs := w1.bufs[cur := r.value]));
      if o.Fail? then (o, 0, w2)
      else (Pass, AdvanceOf(st2.Length()), w2.(states := w2.states[name := w2.states[name].(offset := 0)]))
  }

  /** The `i`-th field's turn in `pack`, with the cursor at `seeker`:
      the outcome, the cursor for the next field, the new schema and the
      new world. */
  function PackTurn(ops: Ops, sch: Schema, obj: Value, cur: nat, i: nat, seeker: nat, w: World)
    : (r: (Outcome, nat, Schema, World))
    requires Shaped(sch) && Covers(sch.names, w.states)
    requires cur < |w.bufs| && i < |sch.names|
    ensures Shaped(r.2) && r.2 == sch.(waiting := r.2.waiting)
    ensures Covers(sch.names, r.3.states) && |r.3.bufs| == |w.bufs|
  {
    var name := sch.names[i];
    match Item(obj, name)
    case Err(e) => (Fail(e), seeker, sch, w)
    case Ok(v) =>
      var st := w.states[name].(offset := seeker);
      match ops.infer(st, None)
      case Err(e) => (Fail(e), seeker, sch, w.(states := w.states[name := st]))
      case Ok(st1) => Place(ops, sch, obj, v, cur, name, seeker, w.(states := w.states[name := st1]))
  }

  /** The rest of a field's turn once its length is inferred: a linked
      length field reserves its bytes, any other field packs its value. */
  function Place(ops: Ops, sch: Schema, obj: Value, v: Value, cur: nat, name: string, seeker: nat, w: World)
    : (r: (Outcome, nat, Schema, World))
    requires Shaped(sch) && Covers(sch.names, w.states)
    requires cur < |w.bufs| && name in sch.names
    ensures Shaped(r.2) && r.2 == sch.(waiting := r.2.waiting)
    ensures Covers(sch.names, r.3.states) && |r.3.bufs| == |w.bufs|
  {
    if name in sch.links then
      var (sch1, w1) := Reserve(ops, sch, obj, cur, name, w);
      (Pass, seeker + AdvanceOf(w1.states[name].Length()), sch1, w1)
    else
      var (o, adv, w1) := Emit(ops, sch, v, cur, name, w);
      (o, seeker + adv, sch, w1)
  }

  /** The field loop of `pack` from the `i`-th name on, with the cursor
      at `seeker`, writing into scratch buffer `cur`. */
  function PackFrom(ops: Ops, sch: Schema, obj: Value, cur: nat, i: nat, seeker: nat, w: World)
    : (r: (Outcome, Schema, World))
    requires Shaped(sch) && Covers(sch.names, w.states)
    requires cur < |w.bufs| && i <= |sch.names|
    ensures Shaped(r.1) && r.1 == sch.(waiting := r.1.waiting)
    ensures Covers(sch.names, r.2.states) && |r.2.bufs| == |w.bufs|
    decreases |sch.names| - i
  {
    if i == |sch.names| then (Pass, sch, w)
    else
      var (o, next, sch1, w1) := PackTurn(ops, sch, obj, cur, i, seeker, w);
      if o.Fail? then (o, sch1, w1)
      else PackFrom(ops, sch1, obj, cur, i + 1, next, w1)
  }

  /** `SmartyParser.pack(obj, pack_into)`: the result, the new schema
      (wait lists grow), the composite's own new state and the new world
      (one more scratch buffer). */
  function SmartyPack(ops: Ops, sch: Schema, own: Own, w: World, obj: Value, dest: seq<Byte>)
    : (r: (Result<seq<Byte>>, Schema, Own, World))
    requires Shaped(sch) && Covers(sch.names, w.states)
  {
    match ExcludeNone(obj, sch.exclude)
    case Err(e) => (Err(e), sch, own, w)
    case Ok(obj1) => PackRecord(ops, sch, own, w, Call(own.slots.prepack, obj1, NoneV), dest)
  }

  /** `pack` once the excluded keys are set to None and the prepack
      callback has run: a fresh scratch buffer, the field loop, then
      `Finish`. */
  function PackRecord(ops: Ops, sch: Schema, own: Own, w: World, obj: Value, dest: seq<Byte>)
    : (r: (Result<seq<Byte>>, Schema, Own, World))
    requires Shaped(sch) && Covers(sch.names, w.states)
  {
    var w0 := w.(bufs := w.bufs + [[]]);
    var (o, sch1, w1) := PackFrom(ops, sch, obj, |w.bufs|, 0, 0, w0);
    if o.Fail? then (Err(o.error), sch1, own, w1)
    else
      var (r, own1) := Finish(own, w1.bufs[|w.bufs|], dest);
      (r, sch1, own1, w1)
  }

  // ---------------------------------------------------------------
  // unpack
  // ---------------------------------------------------------------

  /** The value `postunpack_len` stores as the data field's length. */
  function LengthOf(v: Value): (r: Result<Option<nat>>)
    ensures v.Int? && v.i >= 0 ==> r == Ok(Some(v.i))
    ensures v.NoneV? ==> r == Ok(None)
  {
    match v
    case Int(i) => if i >= 0 then Ok(Some(i)) else Err(ParseError)
    case NoneV => Ok(None)
    case _ => Err(TypeError)
  }

  /** The side effect of a helper's postunpack closure: `postunpack_len`
      sets the data field's explicit length to the decoded value. */
  function Inject(a: Action, v: Value, states: map<string, FieldState>): (r: Result<map<string, FieldState>>)
    ensures r.Ok? ==> r.value.Keys == states.Keys
    ensures !a.SetLinkedLength? ==> r == Ok(states)
  {
    if !a.SetLinkedLength? then Ok(states)
    else if a.data !in states then Err(KeyError)
    else
      var n :- LengthOf(v);
      Ok(states[a.data := states[a.data].(explicit := n)])
  }

  /** `SmartyParser._infer_length`: the sum of the helpers' lengths, or
      None as soon as one is unknown. */
  function StaticLength(names: seq<string>, states: map<string, FieldState>): (r: Option<nat>)
    requires forall k | 0 <= k < |names| :: names[k] in states
  {
    if names == [] then Some(0)
    else
      match states[names[0]].Length()
      case None => None
      case Some(n) =>
        match StaticLength(names[1..], states)
        case None => None
        case Some(m) => Some(n + m)
  }

  /** The `i`-th field's turn in `unpack`, with the cursor at `seeker`:
      the outcome, the cursor for the next field, the record so far, the
      composite's length as last inferred and the helpers' states. */
  function UnpackTurn(ops: Ops, sch: Schema, from: seq<Byte>, i: nat, seeker: nat, got: map<string, Value>,
                      len: Option<nat>, states: map<string, FieldState>)
    : (r: (Outcome, nat, map<string, Value>, Option<nat>, map<string, FieldState>))
    requires Covers(sch.names, states) && i < |sch.names|
    ensures Covers(sch.names, r.4)
  {
    var name := sch.names[i];
    var st := states[name].(offset := seeker);
    match ops.infer(st, None)
    case Err(e) => (Fail(e), seeker, got, len, states[name := st])
    case Ok(st1) =>
      var (r, st2) := ops.unpack(st1, from, Env(states[name := st1]));
      var s1 := states[name := st2];
      if r.Err? then (Fail(r.error), seeker, got, len, s1)
      else Settle(sch, name, r.value, seeker, got, len, s1)
  }

  /** The end of a field's turn in `unpack`, once it has decoded `v`: the
      postunpack side effect, the record entry unless excluded, the cursor
      advance (an unknown length is a TypeError), the offset back to 0 and
      the composite's length inferred again. */
  function Settle(sch: Schema, name: string, v: Value, seeker: nat, got: map<string, Value>,
                  len: Option<nat>, states: map<string, FieldState>)
    : (r: (Outcome, nat, map<string, Value>, Option<nat>, map<string, FieldState>))
    requires Covers(sch.names, states) && name in states
    ensures Covers(sch.names, r.4)
  {
    match Inject(states[name].slots.postunpack.action, v, states)
    case Err(e) => (Fail(e), seeker, got, len, states)
    case Ok(s2) =>
      var (o, next, len1, s3) := Advance(sch, name, seeker, len, s2);
      (o, next, if name in sch.exclude then got else got[name := v], len1, s3)
  }

  /** The cursor moves past the field (an unknown length is a TypeError),
      the field's offset goes back to 0 and the composite's length is
      inferred again. */
  function Advance(sch: Schema, name: string, seeker: nat, len: Option<nat>, states: map<string, FieldState>)
    : (r: (Outcome, nat, Option<nat>, map<string, FieldState>))
    requires Covers(sch.names, states) && name in states
    ensures Covers(sch.names, r.3)
  {
    match states[name].Length()
    case None => (Fail(TypeError), seeker, len, states)
    case Some(n) =>
      var s1 := states[name := states[name].(offset := 0)];
      (Pass, seeker + n, StaticLength(sch.names, s1), s1)
  }

  /** The field loop of `unpack` from the `i`-th name on. `got` holds the
      record so far and `len` the composite's length as last inferred. */
  function UnpackFrom(ops: Ops, sch: Schema, from: seq<Byte>, i: nat, seeker: nat, got: map<string, Value>,
                      len: Option<nat>, states: map<string, FieldState>)
    : (r: (Result<map<string, Value>>, Option<nat>, map<string, FieldState>))
    requires Covers(sch.names, states) && i <= |sch.names|
    ensures Covers(sch.names, r.2)
    decreases |sch.names| - i
  {
    if i == |sch.names| then (Ok(got), len, states)
    else
      var (o, next, got1, len1, s1) := UnpackTurn(ops, sch, from, i, seeker, got, len, states);
      if o.Fail? then (Err(o.error), len1, s1)
      else UnpackFrom(ops, sch, from, i + 1, next, got1, len1, s1)
  }

  /** `SmartyParser.unpack(unpack_from)`: the record, the composite's own
      new state and the helpers' new states. */
  function SmartyUnpack(ops: Ops, sch: Schema, own: Own, states: map<string, FieldState>, from: seq<Byte>)
    : (r: (Result<Value>, Own, map<string, FieldState>))
    requires Covers(sch.names, states)
    ensures r.1 == own.(length := r.1.length, slice := r.1.slice)
  {
    var len0 := StaticLength(sch.names, states);
    var own1 := own.(length := len0, slice := Some(MakeSlice(own.offset, len0, None, false)));
    if len0.None? && IsSet(own.slots.preunpack) then (Err(ParseError), own1, states)
    else
      var (r, len, states1) := UnpackFrom(ops, sch, from, 0, own.offset, map[], len0, states);
      if r.Err? then (Err(r.error), own1.(length := len), states1)
      else (Ok(Call(own.slots.postunpack, Record(r.value), NoneV)), own1.(length := len), states1)
  }

  // ---------------------------------------------------------------
  // Laws
  // ---------------------------------------------------------------

  lemma IndexOfLast(names: seq<string>, x: string)
    requires x !in names
    ensures IndexOf(names + [x], x) == |names|
  {
    if names != [] {
      assert (names + [x])[1..] == names[1..] + [x];
      IndexOfLast(names[1..], x);
    }
  }

  /** `self[name] = helper` keeps the names distinct and every earlier
      name in its place; a new name goes last, with an empty wait list. */
  lemma DeclarePlaces(sch: Schema, name: string)
    ensures var r := Declare(sch, name);
      && name in r.names && r.waiting[name] == []
      && (forall m | m in r.names :: m in sch.names || m == name)
      && (forall m | m in sch.names :: m in r.names && IndexOf(r.names, m) == IndexOf(sch.names, m))
      && (name !in sch.names ==> IndexOf(r.names, name) == |sch.names|)
      && (Distinct(sch.names) ==> Distinct(r.names))
  {
    if name !in sch.names {
      var r := Declare(sch, name);
      IndexOfLast(sch.names, name);
      forall m | m in sch.names ensures IndexOf(r.names, m) == IndexOf(sch.names, m) {
        IndexOfAppend(sch.names, name, m);
      }
      if Distinct(sch.names) {
        forall j, k | 0 <= j < k < |r.names| ensures r.names[j] != r.names[k] {
          if k == |sch.names| {
            assert r.names[j] == sch.names[j];
          } else {
            assert r.names[j] == sch.names[j] && r.names[k] == sch.names[k];
          }
        }
      }
    }
  }

  /** What `link_length` leaves in the four slots it sets: the length
      field reads its value from the data field when packing and sets the
      data field's length when unpacked; the data field forgets its
      length before packing. A self-link keeps the later registrations.
      No other slot and no other helper changes. */
  lemma LinkInstalls(states: map<string, FieldState>, data: string, len: string)
    requires data in states && len in states
    ensures var r := LinkStates(states, data, len);
      && r.Keys == states.Keys
      && r[len].slots.prepack == Callback(LinkedLength(data), true)
      && r[data].slots.postunpack == Callback(Ignore(data), false)
      && (data != len ==> r[len].slots.postunpack == Callback(SetLinkedLength(data), false))
      && (data != len ==> r[data].slots.prepack == Callback(ClearOwnLength(data), false))
      && r[len].slots.preunpack == states[len].slots.preunpack
      && r[len].slots.postpack == states[len].slots.postpack
      && r[data].slots.preunpack == states[data].slots.preunpack
      && r[data].slots.postpack == states[data].slots.postpack
      && r[len] == states[len].(slots := r[len].slots)
      && r[data] == states[data].(slots := r[data].slots)
      && (forall n | n in states && n != data && n != len :: r[n] == states[n])
  {
  }

  /** A link that `link_length` accepts keeps the composite well formed. */
  lemma LinkCheckKeepsWellformed(sch: Schema, data: string, len: string, nbufs: nat)
    requires Wellformed(sch, nbufs) && LinkCheck(sch, data, len) == Pass
    ensures Wellformed(LinkSchema(sch, data, len), nbufs)
    ensures LinkSchema(sch, data, len).exclude == sch.exclude + {len}
  {
    LinkKeepsWellformed(sch, data, len, nbufs);
  }

  /** `_infer_length` finds a length exactly when every helper has one,
      and then it is at least each of them. */
  lemma {:induction false} StaticLengthKnown(names: seq<string>, states: map<string, FieldState>)
    requires forall k | 0 <= k < |names| :: names[k] in states
    ensures StaticLength(names, states).Some? <==> forall k | 0 <= k < |names| :: states[names[k]].Length().Some?
    ensures StaticLength(names, states).Some? ==>
      forall k | 0 <= k < |names| :: states[names[k]].Length().value <= StaticLength(names, states).value
  {
    if names != [] {
      StaticLengthKnown(names[1..], states);
      forall k | 1 <= k < |names| ensures names[k] == names[1..][k - 1] { }
    }
  }

  /** The names that a record unpacked from the `i`-th field on holds. */
  ghost function Recorded(sch: Schema, i: nat): set<string>
  {
    set k | i <= k < |sch.names| && sch.names[k] !in sch.exclude :: sch.names[k]
  }

  /** A field's turn in `unpack` records it unless it is excluded. */
  lemma UnpackTurnKeys(ops: Ops, sch: Schema, from: seq<Byte>, i: nat, seeker: nat, got: map<string, Value>,
                       len: Option<nat>, states: map<string, FieldState>)
    requires Covers(sch.names, states) && i < |sch.names|
    ensures var r := UnpackTurn(ops, sch, from, i, seeker, got, len, states);
      r.0.Pass? ==> r.2.Keys == got.Keys + (if sch.names[i] in sch.exclude then {} else {sch.names[i]})
  {
  }

  /** The field loop of `unpack` records exactly the fields that are not
      excluded. */
  lemma {:induction false} UnpackFromKeys(ops: Ops, sch: Schema, from: seq<Byte>, i: nat, seeker: nat,
                                          got: map<string, Value>, len: Option<nat>, states: map<string, FieldState>)
    requires Covers(sch.names, states) && i <= |sch.names|
    ensures var r := UnpackFrom(ops, sch, from, i, seeker, got, len, states);
      r.0.Ok? ==> r.0.value.Keys == got.Keys + Recorded(sch, i)
    decreases |sch.names| - i
  {
    if i < |sch.names| {
      UnpackTurnKeys(ops, sch, from, i, seeker, got, len, states);
      var t := UnpackTurn(ops, sch, from, i, seeker, got, len, states);
      if t.0.Pass? {
        UnpackFromKeys(ops, sch, from, i + 1, t.1, t.2, t.3, t.4);
        var here: set<string> := if sch.names[i] in sch.exclude then {} else {sch.names[i]};
        forall n ensures n in Recorded(sch, i) <==> n in here || n in Recorded(sch, i + 1) {
          if n in Recorded(sch, i) {
            var k :| i <= k < |sch.names| && sch.names[k] !in sch.exclude && sch.names[k] == n;
            if k > i { assert n in Recorded(sch, i + 1); }
          }
          if n in here { assert sch.names[i] in Recorded(sch, i); }
        }
      }
    }
  }

  /** `unpack` returns a record of exactly the declared fields that are
      not excluded (length fields of `link_length` are), unless a
      replacing postunpack callback returns something else. */
  lemma UnpackedKeys(ops: Ops, sch: Schema, own: Own, states: map<string, FieldState>, from: seq<Byte>)
    requires Covers(sch.names, states) && !own.slots.postunpack.modifying
    ensures var r := SmartyUnpack(ops, sch, own, states, from);
      r.0.Ok? ==> r.0.value.Record? && r.0.value.slots.Keys == Recorded(sch, 0)
  {
    UnpackFromKeys(ops, sch, from, 0, own.offset, map[], StaticLength(sch.names, states), states);
  }

  /** A field's turn in `pack` reads `obj[name]`. */
  lemma PackTurnReads(ops: Ops, sch: Schema, obj: Value, cur: nat, i: nat, seeker: nat, w: World)
    requires Shaped(sch) && Covers(sch.names, w.states) && cur < |w.bufs| && i < |sch.names|
    ensures PackTurn(ops, sch, obj, cur, i, seeker, w).0.Pass? ==> obj.Record? && sch.names[i] in obj.slots
  {
  }

  /** A field's turn that passes hands on to the next field. */
  lemma PackFromStep(ops: Ops, sch: Schema, obj: Value, cur: nat, i: nat, seeker: nat, w: World)
    requires Shaped(sch) && Covers(sch.names, w.states) && cur < |w.bufs| && i < |sch.names|
    ensures var t := PackTurn(ops, sch, obj, cur, i, seeker, w);
      t.0.Pass? ==> PackFrom(ops, sch, obj, cur, i, seeker, w) == PackFrom(ops, t.2, obj, cur, i + 1, t.1, t.3)
  {
  }

  /** `obj` is a record holding every name from the `i`-th on. */
  ghost predicate HoldsFrom(obj: Value, names: seq<string>, i: nat)
  {
    obj.Record? && forall k | i <= k < |names| :: names[k] in obj.slots
  }

  /** The field loop of `pack` succeeds only on a record holding every
      name from the `i`-th on. */
  lemma {:induction false} PackFromReads(ops: Ops, sch: Schema, obj: Value, cur: nat, i: nat, seeker: nat, w: World)
    requires Shaped(sch) && Covers(sch.names, w.states) && cur < |w.bufs| && i < |sch.names|
    ensures PackFrom(ops, sch, obj, cur, i, seeker, w).0.Pass? ==> HoldsFrom(obj, sch.names, i)
    decreases |sch.names| - i
  {
    PackTurnReads(ops, sch, obj, cur, i, seeker, w);
    var t := PackTurn(ops, sch, obj, cur, i, seeker, w);
    if t.0.Pass? {
      PackFromStep(ops, sch, obj, cur, i, seeker, w);
      if i + 1 < |sch.names| {
        PackFromReads(ops, t.2, obj, cur, i + 1, t.1, t.3);
      }
    }
  }

  /** `pack` succeeds only when the object names every declared field,
      except the excluded ones it sets to None itself (unless a replacing
      prepack callback supplies another object). */
  lemma PackedNeedsFields(ops: Ops, sch: Schema, own: Own, w: World, obj: Value, dest: seq<Byte>)
    requires Shaped(sch) && Covers(sch.names, w.states) && !own.slots.prepack.modifying
    ensures SmartyPack(ops, sch, own, w, obj, dest).0.Ok? ==>
      forall n | n in sch.names :: obj.Record? && (n in obj.slots || n in sch.exclude)
  {
    match ExcludeNone(obj, sch.exclude)
    case Err(_) =>
    case Ok(obj1) =>
      if sch.names != [] {
        PackFromReads(ops, sch, obj1, |w.bufs|, 0, 0, w.(bufs := w.bufs + [[]]));
        forall n | n in sch.names ensures sch.names[IndexOf(sch.names, n)] == n { }
      }
  }

  // ---------------------------------------------------------------
  // The mutable composite
  // ---------------------------------------------------------------

  /** A new scratch buffer keeps the composite well formed. */
  lemma MoreBuffersKeepWellformed(sch: Schema, nbufs: nat, more: nat)
    requires Wellformed(sch, nbufs) && nbufs <= more
    ensures Wellformed(sch, more)
  {
    forall f, k | f in sch.names && 0 <= k < |sch.waiting[f]|
      ensures Waits(sch.names, f, sch.waiting[f][k], more)
    {
      assert Waits(sch.names, f, sch.waiting[f][k], nbufs);
    }
  }

  /** `SmartyParser`. The table `_control` holds each helper's state by
      name; `scratch` holds the contents of every buffer a `pack` has
      made, since the deferred calls in the wait lists write into them.
      The loops take the helper operations as a parameter; `Pack` and
      `Unpack` pass those of module Fields. */
  class SmartyParser {
    var names: seq<string>
    var helpers: map<string, FieldState>
    var exclude: set<string>
    var links: map<string, string>
    var waiting: map<string, seq<Thunk>>
    var scratch: seq<seq<Byte>>
    var offset: nat
    var length: Option<nat>
    var slice: Option<Slice>
    var slots: Slots

    function Control(): Schema
      reads this`names, this`exclude, this`links, this`waiting
    {
      Schema(names, exclude, links, waiting)
    }

    function OwnState(): Own
      reads this`offset, this`length, this`slice, this`slots
    {
      Own(offset, length, slice, slots)
    }

    function Now(): World
      reads this`helpers, this`scratch
    {
      World(helpers, scratch)
    }

    /** A well-formed schema whose every name has a helper. */
    ghost predicate Valid()
      reads this`names, this`exclude, this`links, this`waiting, this`helpers, this`scratch
    {
      Wellformed(Control(), |scratch|) && Covers(names, helpers)
    }

    /** `SmartyParser(offset)`. */
    constructor (offset: nat)
      ensures Valid()
      ensures Control() == Schema([], {}, map[], map[]) && Now() == World(map[], [])
      ensures OwnState() == Own(offset, None, None, NoSlots)
    {
      names := [];
      helpers := map[];
      exclude := {};
      links := map[];
      waiting := map[];
      scratch := [];
      this.offset := offset;
      length := None;
      slice := None;
      slots := NoSlots;
    }

    /** `register_callback(call_on, func, modify)` on the composite itself. */
    method RegisterCallback(callOn: string, a: Action, modifying: bool) returns (o: Outcome)
      requires a.NoOp? || a.Transform?
      modifies this`slots
      ensures Register(old(slots), callOn, a, modifying).Ok? ==>
        o == Pass && slots == Register(old(slots), callOn, a, modifying).value
      ensures Register(old(slots), callOn, a, modifying).Err? ==> o == Fail(ValueError) && slots == old(slots)
    {
      var r := Register(slots, callOn, a, modifying);
      if r.Err? {
        return Fail(r.error);
      }
      slots := r.value;
      o := Pass;
    }

    /** `self[name] = helper`: the helper's current state is entered under
        `name`, which keeps its place if already declared. */
    method SetItem(name: string, helper: Field)
      requires Valid()
      modifies this`names, this`helpers, this`waiting
      ensures Valid()
      ensures Control() == Declare(old(Control()), name)
      ensures helpers == old(helpers)[name := helper.State()]
    {
      DeclareKeepsWellformed(Control(), name, |scratch|);
      if name !in names {
        names := names + [name];
      }
      helpers := helpers[name := helper.State()];
      waiting := waiting[name := []];
    }

    /** `self[name].length = n`: `__getitem__` hands out the helper
        declared under `name` (KeyError for an undeclared name) and the
        `length` setter gives it the explicit length `n`. */
    method SetLengthOf(name: string, n: nat) returns (o: Outcome)
      requires Valid()
      modifies this`helpers
      ensures Valid()
      ensures name in old(names) ==> o == Pass && helpers == old(helpers)[name := old(helpers)[name].(explicit := Some(n))]
      ensures name !in old(names) ==> o == Fail(KeyError) && helpers == old(helpers)
    {
      if name !in names {
        return Fail(KeyError);
      }
      helpers := helpers[name := helpers[name].(explicit := Some(n))];
      o := Pass;
    }

    /** `link_length(data_name, length_name)`. */
    method LinkLength(data: string, len: string) returns (o: Outcome)
      requires Valid()
      modifies this`exclude, this`links, this`helpers
      ensures Valid()
      ensures o == LinkCheck(old(Control()), data, len)
      ensures o.Pass? ==> Control() == LinkSchema(old(Control()), data, len)
      ensures o.Pass? ==> helpers == LinkStates(old(helpers), data, len)
      ensures o.Fail? ==> Control() == old(Control()) && helpers == old(helpers)
    {
      if data !in names || len !in names || IndexOf(names, data) < IndexOf(names, len) {
        return Fail(ValueError);
      }
      LinkKeepsWellformed(Control(), data, len, |scratch|);
      helpers := InstallIn(helpers, len, PostUnpack, SetLinkedLength(data), false);
      helpers := InstallIn(helpers, data, PostUnpack, Ignore(data), false);
      helpers := InstallIn(helpers, data, PrePack, ClearOwnLength(data), false);
      helpers := InstallIn(helpers, len, PrePack, LinkedLength(data), true);
      exclude := exclude + {len};
      links := links[len := data];
      o := Pass;
    }

    /** `_infer_length()`: the sum of the helpers' lengths, if all known. */
    method InferLength()
      requires Valid()
      modifies this`length
      ensures length == StaticLength(names, helpers)
    {
      var total: nat := 0;
      var i := 0;
      while i < |names|
        invariant i <= |names|
        invariant StaticLength(names, helpers) ==
          (match StaticLength(names[i..], helpers) case None => None case Some(m) => Some(total + m))
      {
        assert names[i..] == [names[i]] + names[i + 1..];
        var n := helpers[names[i]].Length();
        if n.None? {
          length := None;
          return;
        }
        total := total + n.value;
        i := i + 1;
      }
      length := Some(total);
    }

    /** A linked length field's turn in `pack`. */
    method ReserveStep(ops: Ops, obj: Value, cur: nat, name: string)
      requires Valid() && cur < |scratch| && name in links
      modifies this`waiting, this`helpers, this`scratch
      ensures Valid() && |scratch| == old(|scratch|)
      ensures (Control(), Now()) == Reserve(ops, old(Control()), obj, cur, name, old(Now()))
    {
      var st := helpers[name];
      var d := links[name];
      var t := Thunk(name, st.offset, st.Length(), obj, cur);
      AppendKeepsWellformed(Control(), d, t, |scratch|);
      waiting := waiting[d := waiting[d] + [t]];
      var (buf, st2) := ops.pad(st, scratch[cur]);
      helpers := helpers[name := st2.(offset := 0)];
      scratch := scratch[cur := buf];
    }

    /** Any other field's turn in `pack`; returns the cursor advance. */
    method EmitStep(ops: Ops, v: Value, cur: nat, name: string) returns (o: Outcome, advance: nat)
      requires Valid() && cur < |scratch| && name in names
      modifies this`helpers, this`scratch
      ensures Valid() && |scratch| == old(|scratch|)
      ensures (o, advance, Now()) == Emit(ops, Control(), v, cur, name, old(Now()))
    {
      var (r, st2) := ops.pack(helpers[name], v, scratch[cur], Env(helpers));
      helpers := helpers[name := st2];
      if r.Err? {
        return Fail(r.error), 0;
      }
      scratch := scratch[cur := r.value];
      var (o2, w2) := FireAll(ops, Control(), waiting[name], name, Now());
      helpers, scratch := w2.states, w2.bufs;
      if o2.Fail? {
        return o2, 0;
      }
      helpers := helpers[name := helpers[name].(offset := 0)];
      o, advance := Pass, AdvanceOf(st2.Length());
    }

    /** One field's turn in `pack`, at the cursor `seeker`; returns the
        cursor for the next field. */
    method PackStep(ops: Ops, obj: Value, cur: nat, i: nat, seeker: nat) returns (o: Outcome, next: nat)
      requires Valid() && cur < |scratch| && i < |names|
      modifies this`waiting, this`helpers, this`scratch
      ensures Valid() && |scratch| == old(|scratch|)
      ensures Control() == old(Control()).(waiting := waiting)
      ensures (o, next, Control(), Now()) == PackTurn(ops, old(Control()), obj, cur, i, seeker, old(Now()))
    {
      var name := names[i];
      var v := Item(obj, name);
      if v.Err? {
        return Fail(v.error), seeker;
      }
      var st := helpers[name].(offset := seeker);
      var st1 := ops.infer(st, None);
      if st1.Err? {
        helpers := helpers[name := st];
        return Fail(st1.error), seeker;
      }
      helpers := helpers[name := st1.value];
      o, next := PlaceStep(ops, obj, v.value, cur, name, seeker);
    }

    /** A field's turn once its length is inferred. */
    method PlaceStep(ops: Ops, obj: Value, v: Value, cur: nat, name: string, seeker: nat) returns (o: Outcome, next: nat)
      requires Valid() && cur < |scratch| && name in names
      modifies this`waiting, this`helpers, this`scratch
      ensures Valid() && |scratch| == old(|scratch|)
      ensures Control() == old(Control()).(waiting := waiting)
      ensures (o, next, Control(), Now()) == Place(ops, old(Control()), obj, v, cur, name, seeker, old(Now()))
    {
      if name in links {
        ReserveStep(ops, obj, cur, name);
        o, next := Pass, seeker + AdvanceOf(helpers[name].Length());
      } else {
        var advance;
        o, advance := EmitStep(ops, v, cur, name);
        next := seeker + advance;
      }
    }

    /** The field loop of `pack`, writing into scratch buffer `cur`. */
    method PackFields(ops: Ops, obj: Value, cur: nat) returns (o: Outcome)
      requires Valid() && cur < |scratch|
      modifies this`waiting, this`helpers, this`scratch
      ensures Valid() && |scratch| == old(|scratch|)
      ensures (o, Control(), Now()) == PackFrom(ops, old(Control()), obj, cur, 0, 0, old(Now()))
    {
      var i: nat, seeker: nat := 0, 0;
      while i < |names|
        invariant Valid() && cur < |scratch| == old(|scratch|) && i <= |names|
        invariant Control() == old(Control()).(waiting := waiting)
        invariant PackFrom(ops, Control(), obj, cur, i, seeker, Now())
          == PackFrom(ops, old(Control()), obj, cur, 0, 0, old(Now()))
        decreases |names| - i
      {
        o, seeker := PackStep(ops, obj, cur, i, seeker);
        if o.Fail? {
          return;
        }
        i := i + 1;
      }
      o := Pass;
    }

    /** The end of `pack`: the postpack callback, the new length and
        slice, and the write into `pack_into`. */
    method FinishPack(cur: nat, dest: seq<Byte>) returns (r: Result<seq<Byte>>)
      requires cur < |scratch|
      modifies this`length, this`slice
      ensures (r, OwnState()) == Finish(old(OwnState()), scratch[cur], dest)
    {
      var (res, own) := Finish(OwnState(), scratch[cur], dest);
      length, slice := own.length, own.slice;
      r := res;
    }

    /** `pack(obj, pack_into)` with the given helper operations. */
    method PackWith(ops: Ops, obj: Value, dest: seq<Byte>) returns (r: Result<seq<Byte>>)
      requires Valid()
      modifies this
      ensures Valid()
      ensures (r, Control(), OwnState(), Now()) == SmartyPack(ops, old(Control()), old(OwnState()), old(Now()), obj, dest)
    {
      var x := ExcludeNone(obj, exclude);
      if x.Err? {
        return Err(x.error);
      }
      r := PackRecordWith(ops, Call(slots.prepack, x.value, NoneV), dest);
    }

    /** `packed = bytearray()`: a fresh, empty scratch buffer. */
    method NewScratch() returns (cur: nat)
      requires Valid()
      modifies this`scratch
      ensures Valid()
      ensures scratch == old(scratch) + [[]] && cur == |old(scratch)|
    {
      MoreBuffersKeepWellformed(Control(), |scratch|, |scratch| + 1);
      cur := |scratch|;
      scratch := scratch + [[]];
    }

    /** `pack` once the excluded keys are set to None. */
    method PackRecordWith(ops: Ops, obj: Value, dest: seq<Byte>) returns (r: Result<seq<Byte>>)
      requires Valid()
      modifies this
      ensures Valid()
      ensures (r, Control(), OwnState(), Now()) == PackRecord(ops, old(Control()), old(OwnState()), old(Now()), obj, dest)
    {
      var cur := NewScratch();
      var o := PackFields(ops, obj, cur);
      if o.Fail? {
        return Err(o.error);
      }
      r := FinishPack(cur, dest);
    }

    /** One field's turn in `unpack`; returns the cursor for the next field
        and the record so far. */
    method UnpackStep(ops: Ops, from: seq<Byte>, i: nat, seeker: nat, got: map<string, Value>)
        returns (o: Outcome, next: nat, got1: map<string, Value>)
      requires Valid() && i < |names|
      modifies this`helpers, this`length
      ensures Valid()
      ensures (o, next, got1, length, helpers) == UnpackTurn(ops, Control(), from, i, seeker, got, old(length), old(helpers))
    {
      next, got1 := seeker, got;
      var name := names[i];
      var st := helpers[name].(offset := seeker);
      var st1 := ops.infer(st, None);
      if st1.Err? {
        helpers := helpers[name := st];
        return Fail(st1.error), next, got1;
      }
      var (u, st2) := ops.unpack(st1.value, from, Env(helpers[name := st1.value]));
      helpers := helpers[name := st2];
      if u.Err? {
        return Fail(u.error), next, got1;
      }
      o, next, got1 := SettleStep(name, u.value, seeker, got);
    }

    /** The end of a field's turn in `unpack`, once it has decoded `v`. */
    method SettleStep(name: string, v: Value, seeker: nat, got: map<string, Value>)
        returns (o: Outcome, next: nat, got1: map<string, Value>)
      requires Valid() && name in helpers
      modifies this`helpers, this`length
      ensures Valid()
      ensures (o, next, got1, length, helpers) == Settle(Control(), name, v, seeker, got, old(length), old(helpers))
    {
      next, got1 := seeker, got;
      var s2 := Inject(helpers[name].slots.postunpack.action, v, helpers);
      if s2.Err? {
        return Fail(s2.error), next, got1;
      }
      helpers := s2.value;
      if name !in exclude {
        got1 := got[name := v];
      }
      o, next := AdvanceStep(name, seeker);
    }

    /** The cursor moves past helper `name`. */
    method AdvanceStep(name: string, seeker: nat) returns (o: Outcome, next: nat)
      requires Valid() && name in helpers
      modifies this`helpers, this`length
      ensures Valid()
      ensures (o, next, length, helpers) == Advance(Control(), name, seeker, old(length), old(helpers))
    {
      var n := helpers[name].Length();
      if n.None? {
        return Fail(TypeError), seeker;
      }
      helpers := helpers[name := helpers[name].(offset := 0)];
      InferLength();
      o, next := Pass, seeker + n.value;
    }

    /** The field loop of `unpack`, from the cursor `start`. */
    method UnpackFields(ops: Ops, from: seq<Byte>, start: nat) returns (r: Result<map<string, Value>>)
      requires Valid()
      modifies this`helpers, this`length
      ensures Valid()
      ensures (r, length, helpers) == UnpackFrom(ops, Control(), from, 0, start, map[], old(length), old(helpers))
    {
      var i: nat, seeker: nat, got := 0, start, map[];
      while i < |names|
        invariant Valid() && i <= |names|
        invariant UnpackFrom(ops, Control(), from, i, seeker, got, length, helpers)
          == UnpackFrom(ops, Control(), from, 0, start, map[], old(length), old(helpers))
        decreases |names| - i
      {
        var o;
        o, seeker, got := UnpackStep(ops, from, i, seeker, got);
        if o.Fail? {
          return Err(o.error);
        }
        i := i + 1;
      }
      r := Ok(got);
    }

    /** `unpack(unpack_from)` with the given helper operations. */
    method UnpackWith(ops: Ops, from: seq<Byte>) returns (r: Result<Value>)
      requires Valid()
      modifies this`helpers, this`length, this`slice
      ensures Valid()
      ensures (r, OwnState(), helpers) == SmartyUnpack(ops, Control(), old(OwnState()), old(helpers), from)
    {
      InferLength();
      slice := Some(MakeSlice(offset, length, None, false));
      if length.None? && IsSet(slots.preunpack) {
        return Err(ParseError);
      }
      var got := UnpackFields(ops, from, offset);
      if got.Err? {
        return Err(got.error);
      }
      r := Ok(Call(slots.postunpack, Record(got.value), NoneV));
    }
  
    /** `pack(obj, pack_into)`. */
    method Pack(obj: Value, dest: seq<Byte>) returns (r: Result<seq<Byte>>)
      requires Valid()
      modifies this
      ensures Valid()
      ensures (r, Control(), OwnState(), Now()) == SmartyPack(Helpers, old(Control()), old(OwnState()), old(Now()), obj, dest)
    {
      r := PackWith(Helpers, obj, dest);
    }

    /** `unpack(unpack_from)`. */
    method Unpack(from: seq<Byte>) returns (r: Result<Value>)
      requires Valid()
      modifies this`helpers, this`length, this`slice
      ensures Valid()
      ensures (r, OwnState(), helpers) == SmartyUnpack(Helpers, Control(), old(OwnState()), old(helpers), from)
    {
      r := UnpackWith(Helpers, from);
    }
  }
}
