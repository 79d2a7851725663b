/** A discrepancy in `ParseHelper.length`, written out both ways.

    The property reads `self._length or self.parser.length`. Python's
    `or` skips every falsy left operand, and 0 is falsy: an explicit
    length of 0 falls through to the codec's length. For a blob of
    unbounded length that is None. So when a length field is linked to
    such a blob and the blob is empty, `prepack_len` hands None to the
    length field, whose integer codec cannot pack it. The rest of the
    model uses `Fields.FieldState.Length`, which keeps an explicit 0. */
module Findings {
  import opened Values
  import opened Fields
  import opened Smarty
  import Parsers
  import Scenario

  /** The property as written: a falsy explicit length (None or 0) gives
      way to the codec's length. */
  function OrLength(fs: FieldState): (r: Option<nat>)
    ensures fs.explicit.Some? && fs.explicit.value != 0 ==> r == fs.explicit
    ensures fs.explicit.None? || fs.explicit == Some(0) ==> r == Parsers.Length(fs.codec)
  {
    if fs.explicit.Some? && fs.explicit.value != 0 then fs.explicit else Parsers.Length(fs.codec)
  }

  /** `_infer_length` over the length as written. */
  function InferAsWritten(fs: FieldState, dataLength: Option<nat>): (r: Result<FieldState>)
    ensures r.Ok? ==> r.value == fs.(explicit := r.value.explicit)
  {
    var inferred :- ResolveLength(OrLength(fs), Parsers.Length(fs.codec), dataLength);
    Ok(fs.(explicit := inferred))
  }

  /** The two readings differ exactly on an explicit 0 over a codec that
      does not itself give 0. */
  lemma OrLengthDiffers(fs: FieldState)
    ensures OrLength(fs) != fs.Length()
      <==> fs.explicit == Some(0) && Parsers.Length(fs.codec) != Some(0)
  {
  }

  /** Everywhere else length inference is the same under both readings. */
  lemma InferAgrees(fs: FieldState, dataLength: Option<nat>)
    requires fs.explicit != Some(0)
    ensures InferAsWritten(fs, dataLength) == Infer(fs, dataLength)
  {
  }

  /** Two inputs on which the readings part: an explicit 0 on a 4-byte
      integer field, and on an unbounded blob that then sees 3 bytes. As
      written both infer without error; with the 0 kept both raise. */
  lemma ExplicitZeroInputs()
    ensures var fs := FieldState(Parsers.IntCodec(4, false, Parsers.Big), 0, Some(0), None, Callbacks.NoSlots);
      InferAsWritten(fs, None) == Ok(fs.(explicit := Some(4))) && Infer(fs, None) == Err(ParseError)
    ensures var fs := FieldState(Parsers.Blob(None), 0, Some(0), None, Callbacks.NoSlots);
      InferAsWritten(fs, Some(3)) == Ok(fs.(explicit := Some(3))) && Infer(fs, Some(3)) == Err(ParseError)
  {
  }

  /** As written: an empty data field of unbounded length reports no
      length, so the length field's deferred pack gets None and fails;
      with the explicit 0 kept, the length packs. */
  lemma EmptyLinkedBlobLost(c: Parsers.Codec, dat: FieldState)
    requires c.IntCodec? && c.width >= 1
    requires dat.codec == Parsers.Blob(None) && dat.explicit == Some(0)
    ensures OrLength(dat) == None
    ensures Parsers.Pack(c, LengthValue(OrLength(dat))) == Err(ParseError)
    ensures Parsers.Pack(c, LengthValue(dat.Length())).Ok?
    ensures Parsers.Unpack(c, Parsers.Pack(c, LengthValue(dat.Length())).value) == Ok(Int(0))
  {
    assert Parsers.Pow256(c.width) == 256 * Parsers.Pow256(c.width - 1);
    Parsers.IntRoundTrip(c, 0);
  }

  /** Corrected: with the explicit 0 kept, the linked pair packs an empty
      blob as a zero length and unpacks it back. */
  lemma EmptyBlobLinked(ops: Ops, c: Parsers.Codec, own: Own, bufs: seq<seq<Byte>>, obj: map<string, Value>)
    requires Concrete(ops)
    requires c.IntCodec? && c.width >= 1
    requires own.offset == 0 && own.slots == Callbacks.NoSlots
    requires Scenario.Dat in obj && obj[Scenario.Dat] == Bytes([])
    ensures var p := SmartyPack(ops, Scenario.Pair, own, World(Scenario.PairStates(c), bufs), Record(obj), []);
      && p.0 == Ok(Scenario.Wire(c, []))
      && |p.0.value| == c.width
      && Parsers.Unpack(c, p.0.value) == Ok(Int(0))
      && SmartyUnpack(ops, p.1, p.2, p.3.states, p.0.value).0 == Ok(Record(map[Scenario.Dat := Bytes([])]))
  {
    assert Parsers.Pow256(c.width) == 256 * Parsers.Pow256(c.width - 1);
    Scenario.PairRoundTrip(ops, c, own, bufs, obj, []);
    assert Scenario.Wire(c, [])[..c.width] == Scenario.Wire(c, []);
  }
}
