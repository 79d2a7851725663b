/** `ListyParser`: a list of items, each encoded by the first of several
    helpers that accepts it, optionally closed by a terminator.

    The loops are first written as functions over the helpers' states
    (`order` is the try order: the terminator, if any, then the
    candidates). What one helper does at one position is a `Turn`; the
    search and the loops take the turns as a parameter, so that the
    first-match property is stated once for packing and unpacking. The
    class's methods are proved to follow these functions. */
module Listy {
  import opened Values
  import Parsers
  import opened Callbacks
  import opened Fields

  /** How one helper fares at a position: it matched, it refused with a
      ParseError (and the next helper is tried), or it raised something
      the search does not catch. */
  datatype Trial<T> = Matched(v: T) | Rejected | Raised(e: Error)

  function Outcome<T>(r: Result<T>): (t: Trial<T>)
    ensures t.Matched? <==> r.Ok?
    ensures t.Rejected? <==> r == Err(ParseError)
  {
    match r
    case Ok(v) => Matched(v)
    case Err(e) => if e == ParseError then Rejected else Raised(e)
  }

  /** One helper's turn: the trial's outcome and the helper's new state. */
  type Turn<T> = FieldState -> (Trial<T>, FieldState)

  /** The `for parser in ...: try ... except ParseError: pass ... else:
      raise ParseError` search of `_attempt_pack_single` and
      `_attempt_unpack_single`, from position `k`: the value and the
      position of the helper that matched, and the helpers' new states. */
  function Search<T>(turn: Turn<T>, order: seq<FieldState>, k: nat): (r: (Result<(T, nat)>, seq<FieldState>))
    requires k <= |order|
    ensures |r.1| == |order|
    ensures r.0.Ok? ==> k <= r.0.value.1 < |order|
    decreases |order| - k
  {
    if k == |order| then (Err(ParseError), order)
    else
      var (t, fs) := turn(order[k]);
      var order1 := order[k := fs];
      match t
      case Matched(v) => (Ok((v, k)), order1)
      case Rejected => Search(turn, order1, k + 1)
      case Raised(e) => (Err(e), order1)
  }

  // ---------------------------------------------------------------
  // Unpacking
  // ---------------------------------------------------------------

  /** One helper's turn in `_attempt_unpack_single`: its offset is set to
      the cursor and its length inferred (outside the `try`), it unpacks,
      and the `finally` puts its offset back to 0. */
  function TrialUnpack(fs: FieldState, from: seq<Byte>, seeker: nat): (Trial<Value>, FieldState)
  {
    var fs0 := fs.(offset := seeker);
    match Infer(fs0, None)
    case Err(e) => (Raised(e), fs0)
    case Ok(fs1) =>
      var (r, fs2) := UnpackField(fs1, from, map[]);
      (Outcome(r), fs2.(offset := 0))
  }

  /** The unpacking turn at each cursor position. */
  function UnpackTurns(from: seq<Byte>): nat -> Turn<Value>
  {
    (seeker: nat) => (fs: FieldState) => TrialUnpack(fs, from, seeker)
  }

  /** `turns` is the unpacking turn over `from`, seen through its trials. */
  ghost predicate UnpacksFrom(turns: nat -> Turn<Value>, from: seq<Byte>)
  {
    forall seeker: nat, fs: FieldState {:trigger TrialUnpack(fs, from, seeker)} ::
      turns(seeker)(fs) == TrialUnpack(fs, from, seeker)
  }

  /** The `while seeker < endpoint and not terminate` loop of `unpack`:
      the values decoded (the terminator's included) and whether the
      terminator ended the loop. The cursor advances by the length of the
      helper that matched (`parser.length or 0`); a match that does not
      advance would repeat for ever, which the model reports as
      `Diverges`. */
  function UnpackLoop(turns: nat -> Turn<Value>, order: seq<FieldState>, hasTerm: bool, seeker: nat, endpoint: nat, acc: seq<Value>)
    : (r: (Result<(seq<Value>, bool)>, seq<FieldState>))
    ensures |r.1| == |order|
    ensures r.0.Ok? && r.0.value.1 ==> |r.0.value.0| > |acc|
    decreases endpoint - seeker
  {
    if seeker >= endpoint then (Ok((acc, false)), order)
    else
      var (a, order1) := Search(turns(seeker), order, 0);
      if a.Err? then (Err(a.error), order1)
      else
        var (v, i) := a.value;
        var advance := AdvanceOf(order1[i].Length());
        if hasTerm && i == 0 then (Ok((acc + [v], true)), order1)
        else if advance == 0 then (Err(Diverges), order1)
        else UnpackLoop(turns, order1, hasTerm, seeker + advance, endpoint, acc + [v])
  }

  /** `tuple(...)` of what the postunpack callback returns. */
  function AsTuple(v: Value): (r: Result<Value>)
    ensures r.Ok? ==> r.value.List?
    ensures v.List? ==> r == Ok(v)
  {
    match v
    case List(_) => Ok(v)
    case Bytes(b) => Ok(List(seq(|b|, i requires 0 <= i < |b| => Int(b[i]))))
    case _ => Err(TypeError)
  }

  /** Where the loop stops: `self.slice.stop or len(unpack_from)`. */
  function Endpoint(sl: Slice, from: seq<Byte>): nat
  {
    if sl.stop.Some? && sl.stop.value != 0 then sl.stop.value else |from|
  }

  /** `ListyParser.unpack(unpack_from)`: the result, the helpers' new
      states and the parser's own new state. (`_infer_length` changes
      nothing on a `ListyParser`, which is its own parser.) */
  function UnpackListy(turns: nat -> Turn<Value>, order: seq<FieldState>, hasTerm: bool, requireTerm: bool, own: Own, from: seq<Byte>)
    : (r: (Result<Value>, seq<FieldState>, Own))
    ensures |r.1| == |order|
  {
    var sl := MakeSlice(own.offset, own.length, None, false);
    var own1 := own.(slice := Some(sl));
    if own.length.None? && IsSet(own.slots.preunpack) then (Err(ParseError), order, own1)
    else
      var (r, order1) := UnpackLoop(turns, order, hasTerm, own.offset, Endpoint(sl, from), []);
      if r.Err? then (Err(r.error), order1, own1)
      else
        var (vals, terminated) := r.value;
        if !terminated && hasTerm && requireTerm then (Err(ParseError), order1, own1)
        else
          var out := if terminated then vals[..|vals| - 1] else vals;
          (AsTuple(Call(own.slots.postunpack, List(out), NoneV)), order1, own1)
  }

  // ---------------------------------------------------------------
  // Packing
  // ---------------------------------------------------------------

  /** One candidate's turn in `_attempt_pack_single`. */
  function TrialPack(fs: FieldState, obj: Value, buf: seq<Byte>, seeker: nat): (Trial<seq<Byte>>, FieldState)
  {
    var fs0 := fs.(offset := seeker);
    match Infer(fs0, None)
    case Err(e) => (Raised(e), fs0)
    case Ok(fs1) =>
      var (r, fs2) := PackField(fs1, obj, buf, map[]);
      (Outcome(r), fs2.(offset := 0))
  }

  /** The packing turn for an item, a buffer and a cursor position. */
  function PackTurns(): (Value, seq<Byte>, nat) -> Turn<seq<Byte>>
  {
    (obj: Value, buf: seq<Byte>, seeker: nat) => (fs: FieldState) => TrialPack(fs, obj, buf, seeker)
  }

  /** `turns` is the packing turn, seen through its trials. */
  ghost predicate PacksAs(turns: (Value, seq<Byte>, nat) -> Turn<seq<Byte>>)
  {
    forall obj: Value, buf: seq<Byte>, seeker: nat, fs: FieldState {:trigger TrialPack(fs, obj, buf, seeker)} ::
      turns(obj, buf, seeker)(fs) == TrialPack(fs, obj, buf, seeker)
  }

  /** The `for this_obj in obj` loop of `pack`, from item `i`: the packed
      bytes and the final cursor. */
  function PackItems(turns: (Value, seq<Byte>, nat) -> Turn<seq<Byte>>, cands: seq<FieldState>, items: seq<Value>, i: nat,
                     buf: seq<Byte>, seeker: nat)
    : (r: (Result<(seq<Byte>, nat)>, seq<FieldState>))
    requires i <= |items|
    ensures |r.1| == |cands|
    decreases |items| - i
  {
    if i == |items| then (Ok((buf, seeker)), cands)
    else
      var (a, cands1) := Search(turns(items[i], buf, seeker), cands, 0);
      if a.Err? then (Err(a.error), cands1)
      else
        var (b, j) := a.value;
        PackItems(turns, cands1, items, i + 1, b, seeker + AdvanceOf(cands1[j].Length()))
  }

  /** What `for ... in obj` walks: the items of a list, the byte values
      of a byte string; anything else is not iterable here. */
  function Items(v: Value): (r: Result<seq<Value>>)
    ensures v.List? ==> r == Ok(v.items)
    ensures r.Ok? ==> v.List? || v.Bytes?
  {
    match v
    case List(items) => Ok(items)
    case Bytes(b) => Ok(seq(|b|, i requires 0 <= i < |b| => Int(b[i])))
    case _ => Err(TypeError)
  }

  /** The terminator step of `pack`: with its offset at the cursor, the
      terminator packs the bytes so far into them; its offset is then put
      back to 0. Without a terminator the bytes stay as they are. */
  function Terminate(term: Option<FieldState>, packed: seq<Byte>, seeker: nat): (r: (Result<seq<Byte>>, Option<FieldState>))
    ensures r.1.Some? <==> term.Some?
    ensures term.None? ==> r.0 == Ok(packed)
  {
    match term
    case None => (Ok(packed), None)
    case Some(t) =>
      var (rt, t1) := PackField(t.(offset := seeker), Bytes(packed), packed, map[]);
      if rt.Err? then (Err(rt.error), Some(t1)) else (rt, Some(t1.(offset := 0)))
  }

  /** `ListyParser.pack(obj, pack_into)`: the result, the candidates' and the
      terminator's new states and the parser's own new state. */
  function PackListy(turns: (Value, seq<Byte>, nat) -> Turn<seq<Byte>>, cands: seq<FieldState>, term: Option<FieldState>, own: Own, obj: Value, dest: seq<Byte>)
    : (r: (Result<seq<Byte>>, seq<FieldState>, Option<FieldState>, Own))
    ensures |r.1| == |cands|
    ensures r.2.Some? <==> term.Some?
  {
    match Items(Call(own.slots.prepack, obj, NoneV))
    case Err(e) => (Err(e), cands, term, own)
    case Ok(items) =>
      var (a, cands1) := PackItems(turns, cands, items, 0, [], 0);
      if a.Err? then (Err(a.error), cands1, term, own)
      else
        var (r, term1, own1) := Close(term, own, a.value.0, a.value.1, dest);
        (r, cands1, term1, own1)
  }

  /** The terminator step, then the end of `pack`. */
  function Close(term: Option<FieldState>, own: Own, packed: seq<Byte>, seeker: nat, dest: seq<Byte>)
    : (r: (Result<seq<Byte>>, Option<FieldState>, Own))
    ensures r.1.Some? <==> term.Some?
  {
    var (rt, term1) := Terminate(term, packed, seeker);
    if rt.Err? then (Err(rt.error), term1, own)
    else
      var (r, own1) := Finish(own, rt.value, dest);
      (r, term1, own1)
  }

  // ---------------------------------------------------------------
  // The loops over the mutable helpers
  // ---------------------------------------------------------------

  /** One helper's turn at unpacking. */
  method TryOneUnpack(f: Field, from: seq<Byte>, seeker: nat) returns (t: Trial<Value>)
    modifies f
    ensures (t, f.State()) == TrialUnpack(old(f.State()), from, seeker)
  {
    f.offset := seeker;
    var o := f.InferLength(None);
    if o.Fail? {
      return Raised(o.error);
    }
    var u := f.Unpack(from, map[]);
    f.offset := 0;
    t := Outcome(u);
  }

  /** `_attempt_unpack_single`: try the helpers in order at `seeker`. */
  method AttemptUnpack(order: seq<Field>, from: seq<Byte>, seeker: nat, ghost turn: Turn<Value>) returns (r: Result<(Value, nat)>)
    requires Distinct(order)
    requires forall fs {:trigger TrialUnpack(fs, from, seeker)} :: turn(fs) == TrialUnpack(fs, from, seeker)
    modifies set f | f in order
    ensures (r, StatesOf(order)) == Search(turn, old(StatesOf(order)), 0)
  {
    var k := 0;
    while k < |order|
      invariant k <= |order|
      invariant Search(turn, old(StatesOf(order)), 0) == Search(turn, StatesOf(order), k)
    {
      ghost var before := StatesOf(order);
      var t := TryOneUnpack(order[k], from, seeker);
      assert StatesOf(order) == before[k := order[k].State()];
      match t {
        case Matched(v) =>
          return Ok((v, k));
        case Raised(e) =>
          return Err(e);
        case Rejected =>
      }
      k := k + 1;
    }
    r := Err(ParseError);
  }

  /** The decoding loop of `unpack`, from the cursor `start` up to
      `endpoint`. */
  method UnpackItems(order: seq<Field>, hasTerm: bool, from: seq<Byte>, start: nat, endpoint: nat, ghost turns: nat -> Turn<Value>)
      returns (r: Result<(seq<Value>, bool)>)
    requires Distinct(order)
    requires UnpacksFrom(turns, from)
    modifies set f | f in order
    ensures (r, StatesOf(order)) == UnpackLoop(turns, old(StatesOf(order)), hasTerm, start, endpoint, [])
  {
    var seeker := start;
    var acc: seq<Value> := [];
    while seeker < endpoint
      invariant UnpackLoop(turns, old(StatesOf(order)), hasTerm, start, endpoint, [])
        == UnpackLoop(turns, StatesOf(order), hasTerm, seeker, endpoint, acc)
      decreases endpoint - seeker
    {
      var a := AttemptUnpack(order, from, seeker, turns(seeker));
      if a.Err? {
        return Err(a.error);
      }
      var (v, i) := a.value;
      if hasTerm && i == 0 {
        return Ok((acc + [v], true));
      }
      var advance := AdvanceOf(order[i].Length());
      if advance == 0 {
        return Err(Diverges);
      }
      acc := acc + [v];
      seeker := seeker + advance;
    }
    r := Ok((acc, false));
  }

  /** One candidate's turn at packing; a refusal leaves the buffer alone. */
  method TryOnePack(f: Field, obj: Value, into: Buffer, seeker: nat) returns (t: Trial<seq<Byte>>)
    modifies f, into
    ensures (t, f.State()) == TrialPack(old(f.State()), obj, old(into.bytes), seeker)
    ensures into.bytes == if t.Matched? then t.v else old(into.bytes)
  {
    f.offset := seeker;
    var o := f.InferLength(None);
    if o.Fail? {
      return Raised(o.error);
    }
    o := f.Pack(obj, into, map[]);
    f.offset := 0;
    t := if o.Pass? then Matched(into.bytes) else Outcome<seq<Byte>>(Err(o.error));
  }

  /** `_attempt_pack_single`: try the candidates in order, writing into
      `into` at `seeker`; returns the position of the one that matched. */
  method AttemptPack(cands: seq<Field>, obj: Value, into: Buffer, seeker: nat, ghost turn: Turn<seq<Byte>>) returns (r: Result<nat>)
    requires Distinct(cands)
    requires forall fs {:trigger TrialPack(fs, obj, into.bytes, seeker)} :: turn(fs) == TrialPack(fs, obj, into.bytes, seeker)
    modifies (set f | f in cands), into
    ensures var (t, states) := Search(turn, old(StatesOf(cands)), 0);
      && states == StatesOf(cands)
      && (t.Ok? ==> r == Ok(t.value.1) && into.bytes == t.value.0)
      && (t.Err? ==> r == Err(t.error) && into.bytes == old(into.bytes))
  {
    var k := 0;
    while k < |cands|
      invariant k <= |cands|
      invariant into.bytes == old(into.bytes)
      invariant Search(turn, old(StatesOf(cands)), 0) == Search(turn, StatesOf(cands), k)
    {
      ghost var before := StatesOf(cands);
      var t := TryOnePack(cands[k], obj, into, seeker);
      assert StatesOf(cands) == before[k := cands[k].State()];
      match t {
        case Matched(b) =>
          return Ok(k);
        case Raised(e) =>
          return Err(e);
        case Rejected =>
      }
      k := k + 1;
    }
    r := Err(ParseError);
  }

  /** The `for this_obj in obj` loop of `pack`; returns the final cursor. */
  method PackAll(cands: seq<Field>, items: seq<Value>, into: Buffer, ghost turns: (Value, seq<Byte>, nat) -> Turn<seq<Byte>>)
      returns (r: Result<nat>)
    requires Distinct(cands)
    requires PacksAs(turns)
    modifies (set f | f in cands), into
    ensures var (t, states) := PackItems(turns, old(StatesOf(cands)), items, 0, old(into.bytes), 0);
      && states == StatesOf(cands)
      && (t.Ok? ==> r == Ok(t.value.1) && into.bytes == t.value.0)
      && (t.Err? ==> r == Err(t.error))
  {
    var seeker: nat := 0;
    var i := 0;
    while i < |items|
      invariant i <= |items|
      invariant PackItems(turns, old(StatesOf(cands)), items, 0, old(into.bytes), 0)
        == PackItems(turns, StatesOf(cands), items, i, into.bytes, seeker)
    {
      var j := AttemptPack(cands, items[i], into, seeker, turns(items[i], into.bytes, seeker));
      if j.Err? {
        return Err(j.error);
      }
      seeker := seeker + AdvanceOf(cands[j.value].Length());
      i := i + 1;
    }
    r := Ok(seeker);
  }

  // ---------------------------------------------------------------
  // Turns that agree give the same loops
  // ---------------------------------------------------------------

  lemma {:induction false} SearchAgrees<T>(t1: Turn<T>, t2: Turn<T>, order: seq<FieldState>, k: nat)
    requires k <= |order|
    requires forall fs :: t1(fs) == t2(fs)
    ensures Search(t1, order, k) == Search(t2, order, k)
    decreases |order| - k
  {
    if k < |order| {
      var (t, fs) := t1(order[k]);
      if t.Rejected? {
        SearchAgrees(t1, t2, order[k := fs], k + 1);
      }
    }
  }

  lemma {:induction false} UnpackLoopAgrees(t1: nat -> Turn<Value>, t2: nat -> Turn<Value>, order: seq<FieldState>, hasTerm: bool,
                                            seeker: nat, endpoint: nat, acc: seq<Value>)
    requires forall n: nat, fs :: t1(n)(fs) == t2(n)(fs)
    ensures UnpackLoop(t1, order, hasTerm, seeker, endpoint, acc) == UnpackLoop(t2, order, hasTerm, seeker, endpoint, acc)
    decreases endpoint - seeker
  {
    if seeker < endpoint {
      SearchAgrees(t1(seeker), t2(seeker), order, 0);
      var (a, order1) := Search(t1(seeker), order, 0);
      if a.Ok? {
        var (v, i) := a.value;
        if !(hasTerm && i == 0) && AdvanceOf(order1[i].Length()) != 0 {
          UnpackLoopAgrees(t1, t2, order1, hasTerm, seeker + AdvanceOf(order1[i].Length()), endpoint, acc + [v]);
        }
      }
    }
  }

  lemma {:induction false} PackItemsAgrees(t1: (Value, seq<Byte>, nat) -> Turn<seq<Byte>>, t2: (Value, seq<Byte>, nat) -> Turn<seq<Byte>>,
                                           cands: seq<FieldState>, items: seq<Value>, i: nat, buf: seq<Byte>, seeker: nat)
    requires i <= |items|
    requires forall obj, b, n: nat, fs :: t1(obj, b, n)(fs) == t2(obj, b, n)(fs)
    ensures PackItems(t1, cands, items, i, buf, seeker) == PackItems(t2, cands, items, i, buf, seeker)
    decreases |items| - i
  {
    if i < |items| {
      SearchAgrees(t1(items[i], buf, seeker), t2(items[i], buf, seeker), cands, 0);
      var (a, cands1) := Search(t1(items[i], buf, seeker), cands, 0);
      if a.Ok? {
        var (b, j) := a.value;
        PackItemsAgrees(t1, t2, cands1, items, i + 1, b, seeker + AdvanceOf(cands1[j].Length()));
      }
    }
  }

  /** The unpacking turns exist (`UnpackTurns`), and any two turns that
      both unpack from `from` agree everywhere. */
  lemma SomeUnpackTurns(from: seq<Byte>) returns (turns: nat -> Turn<Value>)
    ensures UnpacksFrom(turns, from)
  {
    turns := UnpackTurns(from);
  }

  lemma UnpackTurnsAgree(t1: nat -> Turn<Value>, t2: nat -> Turn<Value>, from: seq<Byte>)
    requires UnpacksFrom(t1, from) && UnpacksFrom(t2, from)
    ensures forall n: nat, fs :: t1(n)(fs) == t2(n)(fs)
  {
    forall n: nat, fs ensures t1(n)(fs) == t2(n)(fs) {
      assert t1(n)(fs) == TrialUnpack(fs, from, n);
    }
  }

  lemma UnpackListyAgrees(t1: nat -> Turn<Value>, t2: nat -> Turn<Value>, order: seq<FieldState>, hasTerm: bool,
                          requireTerm: bool, own: Own, from: seq<Byte>)
    requires UnpacksFrom(t1, from) && UnpacksFrom(t2, from)
    ensures UnpackListy(t1, order, hasTerm, requireTerm, own, from) == UnpackListy(t2, order, hasTerm, requireTerm, own, from)
  {
    UnpackTurnsAgree(t1, t2, from);
    var sl := MakeSlice(own.offset, own.length, None, false);
    UnpackLoopAgrees(t1, t2, order, hasTerm, own.offset, Endpoint(sl, from), []);
  }

  lemma SomePackTurns() returns (turns: (Value, seq<Byte>, nat) -> Turn<seq<Byte>>)
    ensures PacksAs(turns)
  {
    turns := PackTurns();
  }

  lemma PackTurnsAgree(t1: (Value, seq<Byte>, nat) -> Turn<seq<Byte>>, t2: (Value, seq<Byte>, nat) -> Turn<seq<Byte>>)
    requires PacksAs(t1) && PacksAs(t2)
    ensures forall obj, b, n: nat, fs :: t1(obj, b, n)(fs) == t2(obj, b, n)(fs)
  {
    forall obj, b, n: nat, fs ensures t1(obj, b, n)(fs) == t2(obj, b, n)(fs) {
      assert t1(obj, b, n)(fs) == TrialPack(fs, obj, b, n);
    }
  }

  lemma PackListyAgrees(t1: (Value, seq<Byte>, nat) -> Turn<seq<Byte>>, t2: (Value, seq<Byte>, nat) -> Turn<seq<Byte>>,
                        cands: seq<FieldState>, term: Option<FieldState>, own: Own, obj: Value, dest: seq<Byte>)
    requires PacksAs(t1) && PacksAs(t2)
    ensures PackListy(t1, cands, term, own, obj, dest) == PackListy(t2, cands, term, own, obj, dest)
  {
    PackTurnsAgree(t1, t2);
    var items := Items(Call(own.slots.prepack, obj, NoneV));
    if items.Ok? {
      PackItemsAgrees(t1, t2, cands, items.value, 0, [], 0);
    }
  }

  // ---------------------------------------------------------------
  // What the loops promise
  // ---------------------------------------------------------------

  /** Reference definition of the helper that decides a search: the first
      one from `k` on, tried in its state before the search, whose trial
      does not refuse; `|order|` when all of them refuse. */
  ghost function FirstTaken<T>(turn: Turn<T>, order: seq<FieldState>, k: nat): (stop: nat)
    requires k <= |order|
    ensures k <= stop <= |order|
    ensures forall j :: k <= j < stop ==> turn(order[j]).0.Rejected?
    ensures stop < |order| ==> !turn(order[stop]).0.Rejected?
    decreases |order| - k
  {
    if k == |order| || !turn(order[k]).0.Rejected? then k else FirstTaken(turn, order, k + 1)
  }

  lemma {:induction false} FirstTakenFrom<T>(turn: Turn<T>, o1: seq<FieldState>, o2: seq<FieldState>, k: nat)
    requires k <= |o1| == |o2|
    requires forall j :: k <= j < |o1| ==> o1[j] == o2[j]
    ensures FirstTaken(turn, o1, k) == FirstTaken(turn, o2, k)
    decreases |o1| - k
  {
    if k < |o1| && turn(o1[k]).0.Rejected? {
      FirstTakenFrom(turn, o1, o2, k + 1);
    }
  }

  /** First match wins: every helper before the deciding one refused, the
      deciding one's value and position are the result (or its error is),
      no helper after it is tried, and each tried helper ends in the state
      its own trial left it in. When every helper refuses the search
      raises ParseError. */
  lemma {:induction false} SearchFirstMatch<T>(turn: Turn<T>, order: seq<FieldState>, k: nat)
    requires k <= |order|
    ensures var stop := FirstTaken(turn, order, k);
      var (r, after) := Search(turn, order, k);
      && (stop == |order| ==> r == Err(ParseError))
      && (stop < |order| && turn(order[stop]).0.Matched? ==> r == Ok((turn(order[stop]).0.v, stop)))
      && (stop < |order| && turn(order[stop]).0.Raised? ==> r == Err(turn(order[stop]).0.e))
      && (forall j :: 0 <= j < |order| ==> after[j] == if k <= j <= stop then turn(order[j]).1 else order[j])
    decreases |order| - k
  {
    if k < |order| {
      var (t, fs) := turn(order[k]);
      if t.Rejected? {
        var order1 := order[k := fs];
        SearchFirstMatch(turn, order1, k + 1);
        FirstTakenFrom(turn, order1, order, k + 1);
      }
    }
  }

  /** `require_term` only matters when there is a terminator and the data
      ran out before it: then it turns the result into a ParseError; in
      every other case the two settings give the same outcome. */
  lemma RequireTermOnlyRejects(turns: nat -> Turn<Value>, order: seq<FieldState>, hasTerm: bool, own: Own, from: seq<Byte>)
    ensures var strict := UnpackListy(turns, order, hasTerm, true, own, from);
      var lax := UnpackListy(turns, order, hasTerm, false, own, from);
      && strict.1 == lax.1 && strict.2 == lax.2
      && (strict.0 == lax.0 || (hasTerm && strict.0 == Err(ParseError)))
    ensures !hasTerm ==> UnpackListy(turns, order, hasTerm, true, own, from) == UnpackListy(turns, order, hasTerm, false, own, from)
  {
  }

  /** Reference trace of the unpack loop: the try-order position of the
      helper each search chose, in order, up to the first error. */
  ghost function Picks(turns: nat -> Turn<Value>, order: seq<FieldState>, hasTerm: bool, seeker: nat, endpoint: nat): (p: seq<nat>)
    ensures forall j :: 0 <= j < |p| ==> p[j] < |order|
    decreases endpoint - seeker
  {
    if seeker >= endpoint then []
    else
      var (a, order1) := Search(turns(seeker), order, 0);
      if a.Err? then []
      else
        var (v, i) := a.value;
        if hasTerm && i == 0 then [0]
        else if AdvanceOf(order1[i].Length()) == 0 then [i]
        else [i] + Picks(turns, order1, hasTerm, seeker + AdvanceOf(order1[i].Length()), endpoint)
  }

  /** The unpack loop yields one value per chosen helper after the ones it
      was given, and it reports termination exactly when the last helper
      chosen was the terminator (position 0); no earlier item came from
      the terminator. */
  lemma {:induction false} UnpackLoopTerminates(turns: nat -> Turn<Value>, order: seq<FieldState>, hasTerm: bool, seeker: nat, endpoint: nat, acc: seq<Value>)
    ensures var (r, _) := UnpackLoop(turns, order, hasTerm, seeker, endpoint, acc);
      var p := Picks(turns, order, hasTerm, seeker, endpoint);
      r.Ok? ==>
        && |r.value.0| == |acc| + |p| && r.value.0[..|acc|] == acc
        && (r.value.1 <==> hasTerm && |p| > 0 && p[|p| - 1] == 0)
        && (forall j :: 0 <= j < |p| - 1 ==> !(hasTerm && p[j] == 0))
    decreases endpoint - seeker
  {
    if seeker < endpoint {
      var (a, order1) := Search(turns(seeker), order, 0);
      if a.Ok? {
        var (v, i) := a.value;
        var advance := AdvanceOf(order1[i].Length());
        if !(hasTerm && i == 0) && advance != 0 {
          UnpackLoopTerminates(turns, order1, hasTerm, seeker + advance, endpoint, acc + [v]);
          var (r, _) := UnpackLoop(turns, order1, hasTerm, seeker + advance, endpoint, acc + [v]);
          if r.Ok? {
            assert r.value.0[..|acc|] == r.value.0[..|acc| + 1][..|acc|];
          }
        }
      }
    }
  }

  /** The result of `ListyParser.unpack` when the loop succeeds: with the
      terminator required but never met it is a ParseError; otherwise,
      without a modifying postunpack, it is the list of values decoded,
      less the terminator's when the loop ended on it. */
  lemma UnpackListyResult(turns: nat -> Turn<Value>, order: seq<FieldState>, hasTerm: bool, requireTerm: bool, own: Own, from: seq<Byte>)
    requires own.length.Some? || !IsSet(own.slots.preunpack)
    ensures var sl := MakeSlice(own.offset, own.length, None, false);
      var (loop, _) := UnpackLoop(turns, order, hasTerm, own.offset, Endpoint(sl, from), []);
      var r := UnpackListy(turns, order, hasTerm, requireTerm, own, from).0;
      loop.Ok? ==>
        && (hasTerm && requireTerm && !loop.value.1 ==> r == Err(ParseError))
        && (!own.slots.postunpack.modifying && !(hasTerm && requireTerm && !loop.value.1) ==>
              r == Ok(List(if loop.value.1 then loop.value.0[..|loop.value.0| - 1] else loop.value.0)))
    ensures var sl := MakeSlice(own.offset, own.length, None, false);
      var (loop, _) := UnpackLoop(turns, order, hasTerm, own.offset, Endpoint(sl, from), []);
      loop.Err? ==> UnpackListy(turns, order, hasTerm, requireTerm, own, from).0 == Err(loop.error)
  {
  }

  /** A candidate packing at the end of the buffer appends: the buffer is
      a prefix of what it returns, and its length afterwards is the
      number of bytes it added. */
  lemma TrialPackAppends(fs: FieldState, obj: Value, buf: seq<Byte>)
    ensures var (t, fs1) := TrialPack(fs, obj, buf, |buf|);
      t.Matched? ==> |buf| <= |t.v| && t.v[..|buf|] == buf && fs1.Length() == Some(|t.v| - |buf|)
  {
    var fs0 := fs.(offset := |buf|);
    if Infer(fs0, None).Ok? {
      var fs1 := Infer(fs0, None).value;
      PackFieldWrites(fs1, obj, buf, map[]);
      var (r, fs2) := PackField(fs1, obj, buf, map[]);
      if r.Ok? {
        assert r.value == buf + Encode(fs1.codec, fs1.slots, obj, map[]).value;
        assert r.value[..|buf|] == buf;
      }
    }
  }

  /** The items loop of `pack` keeps its cursor at the end of the bytes
      packed so far: each item's bytes are appended, and the cursor ends
      at the length of the result. */
  lemma {:induction false} PackItemsAppends(turns: (Value, seq<Byte>, nat) -> Turn<seq<Byte>>, cands: seq<FieldState>,
                                            items: seq<Value>, i: nat, buf: seq<Byte>)
    requires i <= |items|
    requires PacksAs(turns)
    ensures var (r, _) := PackItems(turns, cands, items, i, buf, |buf|);
      r.Ok? ==> r.value.1 == |r.value.0| && |buf| <= |r.value.0| && r.value.0[..|buf|] == buf
    decreases |items| - i
  {
    if i < |items| {
      var turn := turns(items[i], buf, |buf|);
      var (a, cands1) := Search(turn, cands, 0);
      if a.Ok? {
        var (b, j) := a.value;
        SearchFirstMatch(turn, cands, 0);
        var stop := FirstTaken(turn, cands, 0);
        assert turn(cands[stop]) == TrialPack(cands[stop], items[i], buf, |buf|);
        TrialPackAppends(cands[stop], items[i], buf);
        assert j == stop && cands1[j] == turn(cands[stop]).1;
        PackItemsAppends(turns, cands1, items, i + 1, b);
        var (r, _) := PackItems(turns, cands1, items, i + 1, b, |b|);
        if r.Ok? {
          assert r.value.0[..|buf|] == r.value.0[..|b|][..|buf|];
        }
      }
    }
  }

  /** Dropping the head of a list without repeats leaves one without
      repeats that does not hold the head. */
  lemma DistinctTail<T>(x: T, s: seq<T>)
    requires Distinct([x] + s)
    ensures Distinct(s) && x !in s
  {
    forall i, j | 0 <= i < j < |s| ensures s[i] != s[j] {
      assert ([x] + s)[i + 1] == s[i] && ([x] + s)[j + 1] == s[j];
    }
    forall i | 0 <= i < |s| ensures s[i] != x {
      assert ([x] + s)[0] == x && ([x] + s)[i + 1] == s[i];
    }
  }

  // ---------------------------------------------------------------
  // The parser object
  // ---------------------------------------------------------------

  /** `ListyParser(parsers, terminant, require_term, offset)`. */
  class ListyParser {
    var candidates: seq<Field>
    var terminant: Option<Field>
    var requireTerm: bool
    var offset: nat
    var length: Option<nat>
    var slice: Option<Slice>
    var slots: Slots

    /** `_unpack_try_order`: the terminator first, then the candidates. */
    function TryOrder(): (r: seq<Field>)
      reads this
      ensures terminant.None? ==> r == candidates
      ensures terminant.Some? ==> r == [terminant.value] + candidates
    {
      if terminant.Some? then [terminant.value] + candidates else candidates
    }

    /** Every helper appears once, so that trying one leaves the others'
        states alone. */
    ghost predicate Valid()
      reads this
    {
      Distinct(TryOrder())
    }

    function OwnState(): Own
      reads this
    {
      Own(offset, length, slice, slots)
    }

    ghost function TermState(): Option<FieldState>
      reads this, if terminant.Some? then {terminant.value} else {}
    {
      if terminant.Some? then Some(terminant.value.State()) else None
    }

    constructor (parsers: seq<Field>, terminant: Option<Field>, requireTerm: bool, offset: nat)
      requires Distinct(if terminant.Some? then [terminant.value] + parsers else parsers)
      ensures Valid()
      ensures candidates == parsers && this.terminant == terminant && this.requireTerm == requireTerm
      ensures OwnState() == Own(offset, None, None, NoSlots)
    {
      candidates := parsers;
      this.terminant := terminant;
      this.requireTerm := requireTerm;
      this.offset := offset;
      length := None;
      slice := None;
      slots := NoSlots;
    }

    /** `register_callback(call_on, func, modify)`. */
    method RegisterCallback(callOn: string, a: Action, modifying: bool) returns (o: Outcome)
      requires a.NoOp? || a.Transform?
      modifies this`slots
      ensures Register(old(slots), callOn, a, modifying).Ok? ==>
        o == Pass && slots == Register(old(slots), callOn, a, modifying).value
      ensures Register(old(slots), callOn, a, modifying).Err? ==> o == Fail(ValueError) && slots == old(slots)
    {
      var r := Register(slots, callOn, a, modifying);
      if r.Err? {
        return Fail(r.error);
      }
      slots := r.value;
      o := Pass;
    }

    /** `unpack(unpack_from)`, for any turns that describe the helpers'
        trials (`SomeUnpackTurns` shows there are such turns). */
    method Unpack(from: seq<Byte>) returns (r: Result<Value>)
      requires Valid()
      modifies this`slice, set f | f in TryOrder()
      ensures forall turns | UnpacksFrom(turns, from) ::
        (r, StatesOf(TryOrder()), OwnState())
          == UnpackListy(turns, old(StatesOf(TryOrder())), terminant.Some?, requireTerm, old(OwnState()), from)
    {
      ghost var turns0 := SomeUnpackTurns(from);
      r := UnpackWith(from, turns0);
      forall turns | UnpacksFrom(turns, from)
        ensures UnpackListy(turns, old(StatesOf(TryOrder())), terminant.Some?, requireTerm, old(OwnState()), from)
          == UnpackListy(turns0, old(StatesOf(TryOrder())), terminant.Some?, requireTerm, old(OwnState()), from)
      {
        UnpackListyAgrees(turns, turns0, old(StatesOf(TryOrder())), terminant.Some?, requireTerm, old(OwnState()), from);
      }
    }

    method UnpackWith(from: seq<Byte>, ghost turns: nat -> Turn<Value>) returns (r: Result<Value>)
      requires Valid()
      requires UnpacksFrom(turns, from)
      modifies this`slice, set f | f in TryOrder()
      ensures (r, StatesOf(TryOrder()), OwnState())
        == UnpackListy(turns, old(StatesOf(TryOrder())), terminant.Some?, requireTerm, old(OwnState()), from)
    {
      slice := Some(MakeSlice(offset, length, None, false));
      if length.None? && IsSet(slots.preunpack) {
        return Err(ParseError);
      }
      var lr := UnpackItems(TryOrder(), terminant.Some?, from, offset, Endpoint(slice.value, from), turns);
      if lr.Err? {
        return Err(lr.error);
      }
      var (vals, terminated) := lr.value;
      if !terminated && terminant.Some? && requireTerm {
        return Err(ParseError);
      }
      var out := if terminated then vals[..|vals| - 1] else vals;
      r := AsTuple(Call(slots.postunpack, List(out), NoneV));
    }

    /** The terminator step of `pack`, writing into `packed`. */
    method PackTerminator(packed: Buffer, seeker: nat) returns (r: Result<seq<Byte>>)
      requires terminant.Some? ==> terminant.value !in candidates
      modifies packed, if terminant.Some? then {terminant.value} else {}
      ensures (r, TermState()) == Terminate(old(TermState()), old(packed.bytes), seeker)
    {
      if terminant.None? {
        return Ok(packed.bytes);
      }
      var t := terminant.value;
      t.offset := seeker;
      var o := t.Pack(Bytes(packed.bytes), packed, map[]);
      if o.Fail? {
        return Err(o.error);
      }
      t.offset := 0;
      r := Ok(packed.bytes);
    }

    /** The end of `pack`: postpack, then the length, the slice and the
        write into the destination. */
    method FinishPack(packed: seq<Byte>, dest: seq<Byte>) returns (r: Result<seq<Byte>>)
      modifies this`length, this`slice
      ensures (r, OwnState()) == Finish(old(OwnState()), packed, dest)
    {
      var post := Call(slots.postpack, Bytes(packed), NoneV);
      if !post.Bytes? {
        return Err(TypeError);
      }
      length := Some(|post.bytes|);
      slice := Some(MakeSlice(offset, length, Some(|dest|), false));
      r := Ok(SliceAssign(dest, slice.value, post.bytes));
    }

    /** `pack(obj, pack_into)`, for any turns that describe the candidates'
        trials (`SomePackTurns` shows there are such turns); `dest` holds
        the bytes of `pack_into`, empty when the caller gives none. */
    method Pack(obj: Value, dest: seq<Byte>) returns (r: Result<seq<Byte>>)
      requires Valid()
      modifies this`length, this`slice, set f | f in TryOrder()
      ensures forall turns | PacksAs(turns) ::
        (r, StatesOf(candidates), TermState(), OwnState())
          == PackListy(turns, old(StatesOf(candidates)), old(TermState()), old(OwnState()), obj, dest)
    {
      ghost var turns0 := SomePackTurns();
      r := PackWith(obj, dest, turns0);
      forall turns | PacksAs(turns)
        ensures PackListy(turns, old(StatesOf(candidates)), old(TermState()), old(OwnState()), obj, dest)
          == PackListy(turns0, old(StatesOf(candidates)), old(TermState()), old(OwnState()), obj, dest)
      {
        PackListyAgrees(turns, turns0, old(StatesOf(candidates)), old(TermState()), old(OwnState()), obj, dest);
      }
    }

    method PackWith(obj: Value, dest: seq<Byte>, ghost turns: (Value, seq<Byte>, nat) -> Turn<seq<Byte>>) returns (r: Result<seq<Byte>>)
      requires Valid()
      requires PacksAs(turns)
      modifies this`length, this`slice, set f | f in TryOrder()
      ensures (r, StatesOf(candidates), TermState(), OwnState())
        == PackListy(turns, old(StatesOf(candidates)), old(TermState()), old(OwnState()), obj, dest)
    {
      var items := Items(Call(slots.prepack, obj, NoneV));
      if items.Err? {
        return Err(items.error);
      }
      if terminant.Some? {
        DistinctTail(terminant.value, candidates);
      }
      var packed := new Buffer();
      var seeker := PackAll(candidates, items.value, packed, turns);
      if seeker.Err? {
        return Err(seeker.error);
      }
      r := CloseOut(packed, seeker.value, dest);
    }

    /** The terminator step and the end of `pack`. */
    method CloseOut(packed: Buffer, seeker: nat, dest: seq<Byte>) returns (r: Result<seq<Byte>>)
      requires terminant.Some? ==> terminant.value !in candidates
      modifies this`length, this`slice, packed, if terminant.Some? then {terminant.value} else {}
      ensures (r, TermState(), OwnState()) == Close(old(TermState()), old(OwnState()), old(packed.bytes), seeker, dest)
    {
      var body := PackTerminator(packed, seeker);
      if body.Err? {
        return Err(body.error);
      }
      r := FinishPack(body.value, dest);
    }
  }
}
