# smartyparse, modelled in Dafny

smartyparse describes a binary message format as an ordered table of named
fields. Each field is a `ParseHelper` wrapping a leaf codec (integers, blobs,
padding, literals, null). A `SmartyParser` packs a record into bytes field by
field and unpacks bytes back into a record. `link_length` ties a length field
to a later data field: the composite fills in the length when packing and
uses it to size the data field when unpacking. A `ListyParser` packs and
unpacks a list of items, each with the first helper that accepts it,
optionally closed by a terminator.

The model has these modules:

- `Values`: bytes, the Python values that flow through the pipeline, the
  exceptions, and a `Result` type.
- `Parsers`: the leaf codecs of `smartyparse/parsers.py`, as pure functions.
  `struct` packing is written out as big/little-endian arithmetic.
- `Callbacks`: `_SmartyparseCallback` and the slot setters of
  `_ParsableBase`. The four closures that `link_length` installs are named
  actions, interpreted by the helpers and the composite.
- `Fields`: length inference, slices and the `ParseHelper` pipeline. These
  are written as functions over a `FieldState` value. Class `Field` is the
  mutable helper, and each of its methods is proved equal to the matching
  function. Class `Buffer` is a `bytearray`.
- `Listy`: `ListyParser`. The first-match search and the pack and unpack
  loops are functions; the class methods are proved to follow them.
- `Smarty`: `SmartyParser`. Pack and unpack are functions over a `Schema`
  and a `World`:
  - the `Schema` holds the field order, the excluded names, the links and
    the wait lists of deferred calls;
  - the `World` holds the helpers' states and the scratch buffers.

  The functions take the helper operations as a parameter `ops`;
  `Concrete(ops)` says they are those of `Fields`. The class keeps the same
  data in fields. Every loop of `pack` and `unpack` is a method proved
  against the functions, and the class invariant `Valid()` (field order,
  wait lists, buffers) is preserved by every method.
- `Turns`: one field's turn in `pack` and `unpack`, for any composite. A
  plain field appends its encoding at the cursor. A linked length field
  reserves zero bytes and leaves a call waiting on its data field. The
  calls waiting on a data field write its encoded length at their saved
  offsets, in their own scratch buffers. On `unpack`, a field decodes
  exactly its length from the cursor, and a length field sets its data
  field's length.
- `Scenario`: the smallest linked composite, a length field followed by
  the unbounded blob it is linked to. Its pack and unpack are proved field
  by field, down to the bytes, once as lemmas over the functions and once
  as methods on the class (`PairOnce`).
- `Reload`: the composite that `tests/test_simple_reload.py` builds. It
  has a magic blob given an explicit length of 4, a 32-bit version, an
  8-bit cipher, and two unbounded blobs, each after the 32-bit length
  linked to it. The test imports `_ParseNeat`, `_ParseINT8US` and
  `_ParseINT32US`; their definitions are not part of this model. By their
  names they are read here as `Blob(None)`, `IntCodec(1, false, Big)` and
  `IntCodec(4, false, Big)`. Three things are proved:
  - `pack` and `unpack` of that composite, for any values that fit, and
    also for a pack made while an earlier pack's calls still wait;
  - the 27-byte vector of the format;
  - the test itself on the class, from its set-up through its two
    pack/unpack pairs.
- `Findings`: an explicit length of 0 is lost by the `length` property.

## Model

| member | source | states |
|---|---|---|
| Parsers.StructEndian | smartyparse/parsers.py:83-92 | only "big" and "little" are accepted; anything else is a ValueError |
| Parsers.StructParser | smartyparse/parsers.py:241-287 | Int8/16/32/64 build an integer codec of 1/2/4/8 bytes with the requested signedness and byte order; an unknown byte order is a ValueError |
| Parsers.NewBlob | smartyparse/parsers.py:114-125 | a blob's length is None (unbounded) or a non-negative integer; a negative one ends as TypeError, because the bare `except` turns the ValueError into a TypeError |
| Parsers.NewPadding | smartyparse/parsers.py:155-159 | the padding byte string must have length 1, else ValueError; the codec has the given length |
| Parsers.Pack | smartyparse/parsers.py:82-239 | per codec: an integer packs iff it fits the width and signedness (else ParseError); a blob packs bytes of its fixed length, or any length if unbounded; padding ignores the object; a verifying literal packs only its own content; null packs nothing; a packed value always has the codec's length when it has one |
| Parsers.Unpack | smartyparse/parsers.py:82-239 | per codec: an integer unpacks exactly `width` bytes; a blob unpacks data of its fixed length (or any) to those bytes; padding unpacks `size` bytes to None; a verifying literal accepts only its content and returns it, a non-verifying one returns None; every failure is a ParseError |
| Parsers.IntRoundTrip | smartyparse/parsers.py:97-108 | packing an integer succeeds iff it is in range (else ParseError), yields exactly `width` bytes, and unpacking them gives the integer back |
| Parsers.IntBytesRoundTrip | smartyparse/parsers.py:97-108 | unpacking accepts exactly `width` bytes, and packing the decoded integer gives back the same bytes |
| Parsers.BlobRoundTrip | smartyparse/parsers.py:130-150 | a fixed-length blob packs and unpacks exactly data of its length, and unpack after pack is the identity |
| Parsers.BigEndianValueOfBytes | smartyparse/parsers.py:97-108 | the byte encoding behind `struct` decodes back to the value when the value fits in the width |
| Parsers.BigEndianBytesOfValue | smartyparse/parsers.py:97-108 | decoding `w` bytes and encoding the value in `w` bytes gives the same bytes |
| Callbacks.Call | smartyparse/core.py:60-73 | with `modify` the function's return replaces the argument; without it, the argument passes through whatever the function returns |
| Callbacks.ObserveOrReplace | smartyparse/core.py:60-73 | an observing callback is the identity on its argument; a replacing one is its function |
| Callbacks.SetFunc | smartyparse/core.py:418-422 | a slot setter installs the new function and keeps the slot's previous modify flag |
| Callbacks.SetFuncKeepsMode | smartyparse/core.py:446-450 | after a slot's function is reassigned, calling the slot still uses the old modify flag |
| Callbacks.Deleted | smartyparse/core.py:424-426 | a deleted slot is unset: false under `__bool__` |
| Callbacks.StageOf | smartyparse/core.py:388-403 | the four stage names are accepted; any other is a ValueError |
| Callbacks.Register | smartyparse/core.py:388-403 | `register_callback` sets exactly the named slot to (function, modify), leaves the other three slots unchanged, and raises ValueError for an unknown stage |
| Fields.MakeSlice | smartyparse/core.py:373-386 | the slice starts at the offset; it is open-ended iff `open_ended` is set, the length is unknown or the destination is shorter than offset+length; otherwise it stops at offset+length |
| Fields.SliceOf | smartyparse/core.py:585 | `buf[slice]` is the bytes from start to stop, or to the end for an open-ended slice |
| Fields.SliceAssign | smartyparse/core.py:625 | slice assignment keeps the bytes before the clamped start, puts the data there, and keeps the bytes after the clamped stop |
| Fields.AssignInPlace | smartyparse/core.py:625 | inside the buffer, assigning a slice of the data's length overwrites exactly those bytes |
| Fields.AssignAtEnd | smartyparse/core.py:625 | assigning at the end of the buffer appends the data |
| Fields.ResolveLength | smartyparse/core.py:299-336 | the length is the codec's if it has one, else the explicit one, else the data's; ParseError iff a known explicit or data length disagrees with the chosen one |
| Fields.ResolveLengthIdempotent | smartyparse/core.py:299-336 | inferring again from an inferred length gives the same length |
| Fields.Infer | smartyparse/core.py:299-336 | `_infer_length` changes only the explicit length; a codec length always wins; a data length becomes the length; a known length stays; errors are ParseError |
| Fields.BytesOf | smartyparse/core.py:621-625 | only a bytes value can be written into the buffer |
| Fields.AfterPrepack | smartyparse/core.py:1052-1054 | `prepack_dat` clears only the data field's explicit length |
| Fields.PackFieldWrites | smartyparse/core.py:600-628 | `ParseHelper.pack`: ParseError when the buffer is shorter than the offset; codec, offset and slots unchanged; on success the encoded bytes sit at the offset, the bytes before it are kept, the length becomes the encoding's, and the bytes are appended at the end or overwritten in place; an encoding error propagates |
| Fields.UnpackFieldReads | smartyparse/core.py:576-598 | `ParseHelper.unpack`: codec, offset, slots and length unchanged; ParseError, with nothing changed, iff the explicit length disagrees with the codec's; decodes exactly the bytes [offset, offset+length), or from the offset to the end when the length is unknown |
| Fields.FinishWrites | smartyparse/core.py:1219-1233 | the end of `pack`: the postpack result must be bytes (TypeError otherwise, state unchanged); the composite's length becomes its size, and it is written at the composite's offset into the destination (in place, over the end, or appended) |
| Fields.Buffer.Assign | smartyparse/core.py:625 | the buffer becomes the slice assignment of the data |
| Fields.Field.constructor | smartyparse/core.py:541-544 | a new helper has the given codec, offset and explicit length, no slice and unset callbacks |
| Fields.Field.Length | smartyparse/core.py:559-566 | the `length` property is the resolved length of the helper's state |
| Fields.Field.InferLength | smartyparse/core.py:299-336 | the helper's state becomes `Infer` of the old state; on ParseError it is unchanged |
| Fields.Field.BuildSlice | smartyparse/core.py:373-386 | only the slice changes, to `MakeSlice` of the offset and length |
| Fields.Field.RegisterCallback | smartyparse/core.py:388-403 | the slots become `Register` of the old slots, or stay unchanged with ValueError |
| Fields.Field.Install | smartyparse/core.py:1033-1065 | the closures of `link_length` are registered the same way |
| Fields.Field.SetCallback | smartyparse/core.py:414-468 | a slot setter changes one slot's function and keeps its flag |
| Fields.Field.DeleteCallback | smartyparse/core.py:414-468 | a slot deleter resets one slot to unset |
| Fields.Field.SetLength | smartyparse/core.py:568-570 | the `length` setter stores the explicit length and nothing else; the property then reports it |
| Fields.Field.DeleteLength | smartyparse/core.py:572-574 | the `length` deleter clears the explicit length and nothing else; the property falls back to the codec's length |
| Fields.Field.Unpack | smartyparse/core.py:576-598 | the result and the new state are those of `UnpackField` on the old state |
| Fields.Field.Pack | smartyparse/core.py:600-628 | the new state and buffer are those of `PackField`; the buffer is unchanged on error |
| Fields.Field.PackPadding | smartyparse/core.py:483-490 | the buffer and the helper's state become those of `PadField`: `length or 0` zero bytes over the helper's slice, with the slice recorded |
| Fields.StatesOf | smartyparse/core.py:696-700 | the states of a list of helpers, position by position |
| Listy.Outcome | smartyparse/core.py:717-722 | a helper's attempt is a match when it succeeds and a refusal exactly when it raises ParseError; any other error escapes |
| Listy.Search | smartyparse/core.py:787-812 | the search returns the position of the helper that matched, never before where it started, and keeps one state per helper |
| Listy.FirstTaken | smartyparse/core.py:792-809 | the first helper from `k` on that does not refuse: every earlier one refuses |
| Listy.SearchFirstMatch | smartyparse/core.py:787-812 | the first helper that does not refuse decides: its match is the result, its error is raised, and ParseError when all refuse; only the helpers tried change state |
| Listy.FirstTakenFrom | smartyparse/core.py:792-809 | the first match depends only on the helpers from `k` on |
| Listy.UnpackLoop | smartyparse/core.py:835-837 | the unpack loop keeps one state per helper; a loop ended by the terminator has read at least one item |
| Listy.AsTuple | smartyparse/core.py:850 | `tuple(...)` of the postunpack result is a list; a list passes unchanged |
| Listy.UnpackListy | smartyparse/core.py:814-851 | `ListyParser.unpack` keeps one state per helper |
| Listy.RequireTermOnlyRejects | smartyparse/core.py:841-857 | `require_term` changes nothing but turning an unterminated list into ParseError, and has no effect without a terminator |
| Listy.Picks | smartyparse/core.py:834-837 | the trace of the unpack loop: the try-order position of each helper chosen, in order, each one a helper that exists |
| Listy.UnpackLoopTerminates | smartyparse/core.py:830-840 | the loop returns one value per helper chosen, after the values it started with; it reports termination exactly when the last helper chosen was the terminator, and no earlier item came from the terminator |
| Listy.UnpackListyResult | smartyparse/core.py:838-857 | after a successful loop: a terminator that is required but never met gives ParseError (both directions, with `RequireTermOnlyRejects`); otherwise, without a replacing postunpack, the result is the list of values decoded, less the terminator's when the loop ended on it; an error in the loop is raised |
| Listy.Items | smartyparse/core.py:759 | iterating the object to pack: a list gives its items; only lists and bytes can be iterated |
| Listy.PackItems | smartyparse/core.py:759-762 | the pack loop keeps one state per candidate |
| Listy.TrialPackAppends | smartyparse/core.py:707-731 | a helper packing at the end of the buffer appends to it, and its length is the number of bytes added |
| Listy.PackItemsAppends | smartyparse/core.py:759-762 | packing the items at the end of a buffer keeps it as a prefix, and the final cursor is the new length |
| Listy.Terminate | smartyparse/core.py:765-768 | without a terminator the packed bytes are unchanged; the terminator's state is kept |
| Listy.PackListy | smartyparse/core.py:733-785 | `ListyParser.pack` keeps one state per candidate and the terminator's |
| Listy.Close | smartyparse/core.py:765-785 | the terminator step and the end of `pack` keep the terminator's state |
| Listy.ListyParser.TryOrder | smartyparse/core.py:696-700 | the try order is the terminator, if any, then the candidates |
| Listy.ListyParser.constructor | smartyparse/core.py:672-678 | the new parser holds the given candidates, terminator and flag, at the given offset, with unset callbacks |
| Listy.ListyParser.RegisterCallback | smartyparse/core.py:388-403 | the slots become `Register` of the old slots, or stay unchanged with ValueError |
| Listy.TryOneUnpack | smartyparse/core.py:793-805 | the result and the helper's new state are those of `TrialUnpack`, one helper's attempt at unpacking |
| Listy.AttemptUnpack | smartyparse/core.py:787-812 | `_attempt_unpack_single`: the result and the helpers' states are those of `Search` |
| Listy.UnpackItems | smartyparse/core.py:830-837 | the `while` loop of `unpack`: result and states are those of `UnpackLoop` |
| Listy.ListyParser.UnpackWith | smartyparse/core.py:814-851 | result, helper states and own state are those of `UnpackListy` |
| Listy.ListyParser.Unpack | smartyparse/core.py:814-851 | the same, for the helpers' own operations |
| Listy.TryOnePack | smartyparse/core.py:714-725 | the result and the candidate's new state are those of `TrialPack`; the buffer takes the packed bytes on a match and is unchanged otherwise |
| Listy.AttemptPack | smartyparse/core.py:707-731 | `_attempt_pack_single`: the result, the buffer and the candidates' states are those of `Search` |
| Listy.PackAll | smartyparse/core.py:759-762 | the `for` loop of `pack`: result, buffer and states are those of `PackItems` |
| Listy.ListyParser.PackTerminator | smartyparse/core.py:765-768 | the terminator step, as `Terminate` |
| Listy.ListyParser.FinishPack | smartyparse/core.py:771-785 | the end of `pack`, as `Finish` |
| Listy.ListyParser.CloseOut | smartyparse/core.py:765-785 | the terminator step and the end of `pack`, as `Close` |
| Listy.ListyParser.PackWith | smartyparse/core.py:733-785 | result, candidate, terminator and own states are those of `PackListy` |
| Listy.ListyParser.Pack | smartyparse/core.py:733-785 | the same, for the helpers' own operations |
| Smarty.Env | smartyparse/core.py:1060-1065 | the closures read each sibling helper's current length by name |
| Smarty.Item | smartyparse/core.py:1179 | `obj[name]`: the value when present, KeyError for a missing name, TypeError for an object that is not a record |
| Smarty.DeclarePlaces | smartyparse/core.py:885-890 | `self[name] = helper` keeps the names distinct and every earlier name at its position; a new name goes last; its wait list starts empty |
| Smarty.DeclareKeepsWellformed | smartyparse/core.py:885-890 | declaring a name keeps the field order, links and wait lists consistent |
| Smarty.LinkInstalls | smartyparse/core.py:1028-1066 | after `link_length`: the length field reads the data field's length when packing and sets it when unpacked; the data field's length is cleared before packing; a self-link keeps the later registrations; no other slot or helper changes |
| Smarty.LinkKeepsWellformed | smartyparse/core.py:1019-1072 | a link from a length field to a data field declared no earlier keeps the composite consistent |
| Smarty.LinkCheckKeepsWellformed | smartyparse/core.py:1019-1072 | a link that `link_length` accepts keeps the composite consistent and excludes the length field |
| Smarty.Enter | smartyparse/core.py:1079-1088 | a deferred call's pack keeps the set of helpers and the number of scratch buffers |
| Smarty.Fire | smartyparse/core.py:1079-1094 | a deferred call keeps the set of helpers and the number of scratch buffers |
| Smarty.FireAll | smartyparse/core.py:1086-1088 | firing a wait list keeps the set of helpers and the number of scratch buffers |
| Smarty.ExcludeNone | smartyparse/core.py:1159-1160 | every excluded name is set to None, every other entry is kept; a non-record is a TypeError unless nothing is excluded |
| Smarty.AppendKeepsWellformed | smartyparse/core.py:1094-1097 | appending a deferred call to the wait list of a field no earlier than its own keeps the composite consistent |
| Smarty.MoreBuffersKeepWellformed | smartyparse/core.py:1164 | a new scratch buffer keeps the composite consistent |
| Smarty.Reserve | smartyparse/core.py:1196-1199 | a linked length field's turn changes only the wait lists of the schema and keeps a state for every field and the number of buffers |
| Smarty.Emit | smartyparse/core.py:1201-1216 | a field's pack keeps a state for every field and the number of buffers |
| Smarty.PackTurn | smartyparse/core.py:1177-1216 | a field's turn in `pack` changes only the wait lists of the schema and keeps a state for every field and the number of buffers |
| Smarty.Place | smartyparse/core.py:1196-1207 | the rest of the turn changes only the wait lists of the schema and keeps a state for every field and the number of buffers |
| Smarty.PackFrom | smartyparse/core.py:1177-1216 | the `pack` loop changes only the wait lists of the schema and keeps a state for every field and the number of buffers |
| Smarty.PackTurnReads | smartyparse/core.py:1177-1179 | a field's turn in `pack` succeeds only if the object is a record holding that field |
| Smarty.PackFromReads | smartyparse/core.py:1177-1216 | the `pack` loop succeeds only on a record holding every remaining field |
| Smarty.PackedNeedsFields | smartyparse/core.py:1159-1179 | `pack` succeeds only if the object names every declared field, except the excluded ones it sets to None itself |
| Smarty.LengthOf | smartyparse/core.py:1033-1036 | a decoded non-negative integer becomes the data field's length, and None clears it |
| Smarty.Inject | smartyparse/core.py:1033-1036 | only the action of `postunpack_len` changes anything, and it keeps the set of helpers |
| Smarty.StaticLengthKnown | smartyparse/core.py:903-915 | `_infer_length` finds a length exactly when every helper has one, and it is at least each of them |
| Smarty.UnpackTurn | smartyparse/core.py:1262-1305 | a field's turn in `unpack` keeps a state for every declared field |
| Smarty.Settle | smartyparse/core.py:1282-1305 | the end of the turn keeps a state for every declared field |
| Smarty.Advance | smartyparse/core.py:1293-1305 | the cursor step keeps a state for every declared field |
| Smarty.UnpackFrom | smartyparse/core.py:1262-1305 | the `unpack` loop keeps a state for every declared field |
| Smarty.UnpackTurnKeys | smartyparse/core.py:1282-1284 | a field's turn in `unpack` records it unless it is excluded |
| Smarty.UnpackFromKeys | smartyparse/core.py:1262-1305 | the `unpack` loop records exactly the remaining fields that are not excluded |
| Smarty.UnpackedKeys | smartyparse/core.py:1235-1311 | `unpack` returns a record of exactly the declared fields that are not excluded, unless a replacing postunpack callback returns something else |
| Smarty.SmartyUnpack | smartyparse/core.py:1235-1311 | `unpack` changes only the composite's own length and slice; its offset and callbacks stay |
| Smarty.SmartyParser.constructor | smartyparse/core.py:863-883 | a new composite has no fields, no links, no exclusions, the given offset and unset callbacks |
| Smarty.SmartyParser.RegisterCallback | smartyparse/core.py:388-403 | the slots become `Register` of the old slots, or stay unchanged with ValueError |
| Smarty.SmartyParser.SetItem | smartyparse/core.py:885-890 | the schema becomes `Declare` of the old one and the helper's state is stored under the name |
| Smarty.SmartyParser.SetLengthOf | smartyparse/core.py:892-895 | `self[name].length = n`: a declared helper gets explicit length `n` and no other helper changes; an undeclared name is a KeyError and nothing changes |
| Smarty.SmartyParser.LinkLength | smartyparse/core.py:1011-1072 | the outcome is `LinkCheck`; on success the schema and helpers become `LinkSchema` and `LinkStates`; on ValueError nothing changes |
| Smarty.SmartyParser.InferLength | smartyparse/core.py:903-915 | the composite's length becomes the static sum of its helpers' lengths, or None |
| Smarty.SmartyParser.ReserveStep | smartyparse/core.py:1196-1199 | as `Reserve` |
| Smarty.SmartyParser.EmitStep | smartyparse/core.py:1201-1216 | as `Emit` |
| Smarty.SmartyParser.PlaceStep | smartyparse/core.py:1196-1207 | as `Place` |
| Smarty.SmartyParser.PackStep | smartyparse/core.py:1177-1216 | as `PackTurn` |
| Smarty.SmartyParser.PackFields | smartyparse/core.py:1177-1216 | the `for` loop of `pack`, as `PackFrom` |
| Smarty.SmartyParser.NewScratch | smartyparse/core.py:1164 | a new empty scratch buffer is added at the end |
| Smarty.SmartyParser.FinishPack | smartyparse/core.py:1219-1233 | the end of `pack`, as `Finish` |
| Smarty.SmartyParser.PackRecordWith | smartyparse/core.py:1164-1233 | as `PackRecord` |
| Smarty.SmartyParser.PackWith | smartyparse/core.py:1101-1233 | result, schema, own state and world are those of `SmartyPack` |
| Smarty.SmartyParser.Pack | smartyparse/core.py:1101-1233 | the same, for the helpers' own operations |
| Smarty.SmartyParser.UnpackStep | smartyparse/core.py:1262-1305 | as `UnpackTurn` |
| Smarty.SmartyParser.SettleStep | smartyparse/core.py:1282-1305 | as `Settle` |
| Smarty.SmartyParser.AdvanceStep | smartyparse/core.py:1293-1305 | as `Advance` |
| Smarty.SmartyParser.UnpackFields | smartyparse/core.py:1262-1305 | the `for` loop of `unpack`, as `UnpackFrom` |
| Smarty.SmartyParser.UnpackWith | smartyparse/core.py:1235-1311 | result, own state and helpers are those of `SmartyUnpack` |
| Smarty.SmartyParser.Unpack | smartyparse/core.py:1235-1311 | the same, for the helpers' own operations |
| Turns.PackAppends | smartyparse/core.py:600-628 | a helper whose packing callbacks read no sibling length, at the end of the buffer, appends its encoding, keeps its offset and takes the encoding's length |
| Turns.PlainTurn | smartyparse/core.py:1177-1216 | in any composite, the turn of a field with no link and nothing waiting on it appends the field's encoding at the cursor, advances by its length and changes only that field's state |
| Turns.ReserveTurn | smartyparse/core.py:1177-1207 | in any composite, a linked length field of width `k` appends `k` zero bytes and leaves one call, holding the cursor, the width, the record and the buffer, on its data field's wait list |
| Turns.LengthPatches | smartyparse/core.py:1060-1065 | a length field as `link_length` leaves it packs the data field's current length over the `k` bytes at its offset |
| Turns.EnterPatches | smartyparse/core.py:1079-1088 | a waiting call writes the encoded data length over the reserved bytes at its saved offset in its own buffer, and changes only the length field's state |
| Turns.FirePatches | smartyparse/core.py:1079-1094 | the same for one call fired from a wait list: only the length field's slice changes |
| Turns.FireAllPatches | smartyparse/core.py:1210-1213 | every call waiting on a data field, from this or any earlier pack, writes the encoded length at its own offset in its own buffer, in order |
| Turns.EmitLinked | smartyparse/core.py:1201-1216 | a data field's pack appends its bytes and then patches its length into every waiting call's buffer |
| Turns.DataTurn | smartyparse/core.py:1177-1216 | in any composite, a data field's turn appends its encoding at the cursor, advances by its length, and the calls waiting on it patch that length; the schema is unchanged |
| Turns.UnpackAt | smartyparse/core.py:576-598 | a helper with known length `n` decodes exactly the `n` bytes at its offset and keeps that length |
| Turns.ReadTurn | smartyparse/core.py:1262-1305 | in any composite, a field of known length `n` decodes the `n` bytes at the cursor, is recorded unless excluded, and the cursor advances by `n` |
| Turns.ReadUnboundedFails | smartyparse/core.py:1293-1298 | a field whose length is still unknown reads to the end and then fails with TypeError at the cursor step |
| Turns.ReadLengthTurn | smartyparse/core.py:1033-1036 | a linked length field decodes its `k` bytes; a non-negative value becomes the data field's explicit length and the cursor advances by `k`; a negative one is a ParseError |
| Turns.SettleLength | smartyparse/core.py:1282-1305 | the end of a length field's turn, once it has decoded `m`: the same outcome as `ReadLengthTurn` |
| Scenario.Fresh | smartyparse/core.py:541-544 | a new helper's state: the codec at offset 0, no explicit length, unset callbacks |
| Scenario.PairStates | smartyparse/core.py:1028-1066 | the two helpers after linking hold the four closures and no explicit length |
| Scenario.PairBuilt | smartyparse/core.py:1011-1072 | declaring the length field, then the blob, passes the order check of `link_length`; linking gives the pair's schema, with the length field excluded, and its helper states |
| Scenario.ExcludeLen | smartyparse/core.py:1159-1160 | `pack` sets the length entry of the record to None and keeps the rest |
| Scenario.Waiting | smartyparse/core.py:1094-1097 | the schema after the length field's turn keeps the pair's names, links and exclusions; only its wait lists differ |
| Scenario.ReserveLen | smartyparse/core.py:1196-1199 | the length field leaves a deferred call on the blob and reserves `width` zero bytes |
| Scenario.LenTurn | smartyparse/core.py:1177-1216 | the length field's turn passes and moves the cursor by the width |
| Scenario.LenStep | smartyparse/core.py:1177-1216 | the pack loop continues from the blob's turn with that state |
| Scenario.LenPacks | smartyparse/core.py:1060-1065 | the deferred pack of the length field writes the blob's length over the reserved zeros |
| Scenario.EnterPending | smartyparse/core.py:1079-1088 | the deferred call passes, writes the encoded length over the reserved zeros, and changes only the length field's offset and slice |
| Scenario.PatchLen | smartyparse/core.py:1079-1094 | the deferred call passes and writes the encoded length; the blob's state is unchanged and only the length field's slice changes |
| Scenario.FireWaiting | smartyparse/core.py:1210-1213 | the blob's wait list fires and patches the encoded length into the scratch buffer; the blob's state is unchanged and only the length field's slice changes |
| Scenario.DatPacks | smartyparse/core.py:600-628 | the unbounded blob packs its bytes right after the ones before its offset and takes their length as its own |
| Scenario.EmitDat | smartyparse/core.py:1201-1216 | the blob's pack passes, advances by the blob's length and leaves the encoded length followed by the blob in the buffer |
| Scenario.DatTurn | smartyparse/core.py:1177-1216 | the blob's turn passes and moves the cursor past the blob |
| Scenario.DatStep | smartyparse/core.py:1177-1216 | the pack loop ends with the length and blob in the scratch buffer |
| Scenario.Wire | smartyparse/core.py:1101-1233 | the packed pair is `width` bytes that decode to the blob's length, followed by the blob |
| Scenario.PairLoop | smartyparse/core.py:1177-1216 | the whole field loop over the pair passes and leaves exactly the wire bytes in a new scratch buffer |
| Scenario.FinishPlain | smartyparse/core.py:1219-1233 | without callbacks and with no destination, the end of `pack` returns the packed bytes and records their length |
| Scenario.RecordPair | smartyparse/core.py:1164-1233 | `pack` after exclusion returns the wire bytes, records their length and keeps them in a new scratch buffer |
| Scenario.PackPair | smartyparse/core.py:1101-1233 | `pack` of a record holding the blob returns the length followed by the blob, records that size as the composite's length and leaves one deferred call waiting on the blob |
| Scenario.LenRead | smartyparse/core.py:1033-1036 | after the length field is read, the blob's explicit length is the decoded value |
| Scenario.LenDecodes | smartyparse/core.py:576-598 | the length field decodes the blob's length from the first `width` bytes |
| Scenario.LenReads | smartyparse/core.py:1262-1305 | the length field's turn in `unpack` passes, advances by the width, records nothing and sets the blob's explicit length to the decoded value |
| Scenario.DatDecodes | smartyparse/core.py:576-598 | the blob, sized by the length, decodes to exactly the blob bytes |
| Scenario.DatReads | smartyparse/core.py:1262-1305 | the blob's turn in `unpack` records the blob |
| Scenario.LenReadStep | smartyparse/core.py:1262-1305 | the unpack loop continues from the blob's turn with the blob sized |
| Scenario.DatReadStep | smartyparse/core.py:1262-1305 | the rest of the unpack loop yields the record holding the blob |
| Scenario.UnpackPair | smartyparse/core.py:1235-1311 | `unpack` of the wire bytes returns a record holding just the blob |
| Scenario.PairRoundTrip | smartyparse/core.py:1101-1311 | on the linked pair alone, packing a record holding the blob, then unpacking the result with the state the pack left, gives the record back without the length field |
| Scenario.DeclarePair | smartyparse/core.py:885-890 | declaring a length field and then a blob on a fresh composite gives the pair's names, in that order |
| Scenario.NewPair | smartyparse/core.py:1011-1072 | the pair declared and linked on the class: the composite holds the pair's schema and helper states |
| Scenario.PackThenUnpack | tests/test_simple_reload.py:88-89 | `pack(obj)` on the class, then `unpack` of the bytes it returned, on any composite: results and new state are those of `SmartyPack` followed by `SmartyUnpack` |
| Scenario.RoundTripWith | smartyparse/core.py:1101-1311 | on the linked pair, the class's pack returns the wire bytes and its unpack gives the record back |
| Scenario.PairOnce | smartyparse/core.py:1101-1311 | the pair built on a fresh composite, then packed and unpacked, with the helpers' own operations: pack gives the length followed by the blob, and unpack gives the record holding the blob |
| Reload.ExcludeLengths | smartyparse/core.py:1159-1160 | `pack` sets both length entries of the test's record to None and keeps its five fields |
| Reload.PackComposite | smartyparse/core.py:1101-1233 | `pack` of the seven-field record, with any calls left waiting by earlier packs, returns magic, version, cipher, body1's length, body1, body2's length and body2; one new call waits on each blob; the earlier calls write the new lengths into their own old buffers; the new buffer holds the returned bytes |
| Reload.UnpackComposite | smartyparse/core.py:1235-1311 | `unpack` of those bytes, placed after any prefix as long as the composite's offset, returns the five fields without the length keys |
| Reload.Cycle | tests/test_simple_reload.py:88-89 | one pack and the unpack of its bytes, from any helpers of the test's shape: the record comes back, and the state left behind has the same shape |
| Reload.Refilled | smartyparse/core.py:1086-1097 | the first pack's two waiting calls overwrite the first buffer's two length fields with the second record's lengths |
| Reload.Session | tests/test_simple_reload.py:87-91 | the test's four calls, for any two records that fit: both packs return the frame of their record, both unpacks return the record, and the second pack rewrites the first buffer's lengths |
| Reload.Vector | smartyparse/core.py:1101-1311 | magic `[00]`, version 1, cipher 2, body1 `hello` and body2 `world` pack to the 27 bytes `5B 30 30 5D 00 00 00 01 02 00 00 00 05 68 65 6C 6C 6F 00 00 00 05 77 6F 72 6C 64`, and those unpack to the five fields |
| Reload.TestSequence | tests/test_simple_reload.py:67-91 | the test's four calls on its own two records `tv1` and `tv2` |
| Reload.LinkedFormat | tests/test_simple_reload.py:64-65 | both `link_length` calls pass the order check and give the test's schema: both length fields excluded, both links recorded |
| Reload.LinkedStates | tests/test_simple_reload.py:64-65 | after the two links, the seven helpers hold exactly the set-up's states: four callbacks on each linked pair, magic at explicit length 4 |
| Reload.Put | smartyparse/core.py:885-890 | `p[name] = ParseHelper(codec)`: the schema becomes `Declare` of the old one and the new helper, without a length, is stored under the name |
| Reload.DeclareHead | tests/test_simple_reload.py:55-59 | the first three declarations, with magic's length set to 4 right after its own: three helpers in order, magic at explicit length 4 |
| Reload.DeclareAll | tests/test_simple_reload.py:55-63 | the seven declarations, with magic's length set to 4 after its own, give the seven helpers in order |
| Reload.LinkBoth | tests/test_simple_reload.py:64-65 | the two links on the class give the test's schema and helper states |
| Reload.SetUp | tests/test_simple_reload.py:55-65 | a new composite after the set-up holds the test's schema and helpers, at offset 0, with unset callbacks and no scratch buffers |
| Reload.Exchange | tests/test_simple_reload.py:87-91 | `test()` on a composite as set up, for any two records that fit: each pack returns its frame and each unpack its record |
| Reload.ReloadTest | tests/test_simple_reload.py:55-91 | the whole test on the class: the set-up, then `tv1` and `tv2` each packed and unpacked back |
| Findings.OrLengthDiffers | smartyparse/core.py:559-566 | `_length or parser.length` differs from "explicit if set, else the codec's" exactly on an explicit 0 over a codec whose own length is not 0 |
| Findings.OrLength | smartyparse/core.py:559-566 | the property as written: a non-zero explicit length is the length; None or 0 gives way to the codec's length |
| Findings.InferAgrees | smartyparse/core.py:299-336 | on every helper whose explicit length is not 0, `_infer_length` gives the same result under both readings of the property |
| Findings.ExplicitZeroInputs | smartyparse/core.py:299-336 | an explicit 0 on a 4-byte integer field, and on an unbounded blob given 3 bytes: as written both infer a length without error; with the 0 kept both raise ParseError |
| Findings.EmptyLinkedBlobLost | smartyparse/core.py:559-566 | as written, an empty unbounded blob reports no length, so the length field's deferred pack gets None and fails with ParseError; with the explicit 0 kept it packs |
| Findings.EmptyBlobLinked | smartyparse/core.py:1060-1065 | with the explicit 0 kept, a linked empty blob packs to a zero length and unpacks back |

## Left out

- Floating-point, boolean and string codecs (`Float`, `ByteBool`, `String` in `smartyparse/parsers.py`): the model has no floats or text encodings.
- Composites nested inside composites (a `SmartyParser` or `ListyParser` as a field of a `SmartyParser`): the fields of a `SmartyParser` are `ParseHelper`s only. The composite's own offset and slice are still modelled.
- The `callbacks` dictionary argument of the constructors, `__repr__`, `__str__`, the `callbacks` property, the `references` decorator and `StaticParser`: nothing in pack or unpack depends on them.
- `__delitem__`, `_update_obj` and the generated record class `_smartyobject`: an unpacked record is a `Record` value, and deleting fields is not modelled. `__getitem__` appears only as the lookup in `SmartyParser.SetLengthOf`.
- `link_forward` and `link_backward`: the source raises NotImplementedError for both.
- Callbacks that the caller supplies are total functions on values. Their side effects, a non-callable argument (TypeError in the func setter) and the preunpack call's argument (its result is discarded) are not modelled.
- A helper object shared between two names, or changed by the caller after `self[name] = helper` other than through `self[name].length = n` (`SmartyParser.SetLengthOf`): the composite keeps its own copy of each helper's state.
- `pack` writes None into the caller's own dictionary for excluded names; the model builds a new record and leaves the caller's value alone.
- `pack_into` is a value (`dest`) and the result is returned; updating the caller's `bytearray` in place is not modelled. `memoryview` and `bytes` are the same byte sequence.
- Byte-like values other than byte strings: the model's values hold bytes only. In the source an unbounded blob packs any object that `len()` accepts, and a `bytearray` slice assignment also accepts a list of ints in range. In the model anything but bytes reaching the codec or the buffer is a TypeError.
- `ListyParser` helpers that match while consuming nothing make the source loop forever; the model stops with `Diverges`.
- A deferred call waiting on its own field (`link_length(x, x)`) makes the source recurse without end; the model enters it once and stops with `RecursionError`.
- Smarty.LengthOf: a negative decoded length (from a signed length codec) is a ParseError in the model. The source stores it. The data field's slice is then empty, or counts from the end of the data; the blob decodes to `b''`; and `seeker += seeker_advance` at smartyparse/core.py:1298 moves the cursor backwards. The model does not follow that path.
- The wait lists are never emptied in the source, so a deferred call from an earlier `pack` fires again on every later one and writes into that pack's own scratch buffer. The model keeps them growing the same way. `Reload.Session` covers the test's second pack with the first pack's calls still waiting, and `Turns.FireAllPatches` any number of them; the `Scenario` proofs cover the first pack of a fresh pair only.
- `Smarty.Enter`, `Smarty.Fire`, `Smarty.FireAll`, `Smarty.Reserve`, `Smarty.Emit`, `Smarty.PackTurn`, `Smarty.Place`, `Smarty.PackFrom`: their own contracts state only what they keep (helpers, buffers, schema); what they compute is stated, for any composite, by `Turns.PlainTurn`, `Turns.ReserveTurn`, `Turns.DataTurn` and `Turns.FireAllPatches`, and for the test's composite by `Reload.PackComposite`.
- Smarty.FireAll: before a waiting call fires, the model checks that the call packs a field declared no later than the one it waits on, into an existing scratch buffer, and stops with RecursionError otherwise. The source has no such check; the class invariant `Valid()` makes the check always pass on a composite built with `SetItem` and `LinkLength`.
- `Smarty.UnpackTurn`, `Smarty.Settle`, `Smarty.Advance`, `Smarty.UnpackFrom`: the same; what `unpack` returns is stated by `UnpackedKeys`, per field by `Turns.ReadTurn` and `Turns.ReadLengthTurn`, and for the test's composite by `Reload.UnpackComposite`.
- `Listy.UnpackLoop`, `Listy.UnpackListy`: their own contracts state only sizes. Which helper decodes each item is stated by `SearchFirstMatch`. When the loop stops on the terminator is stated by `UnpackLoopTerminates`. The dropped terminator value and the `require_term` ParseError are stated by `UnpackListyResult` and `RequireTermOnlyRejects`.
- `Listy.PackItems`, `Listy.PackListy`, `Listy.Close`: their own contracts state only sizes; what they write is stated by `TrialPackAppends` and `PackItemsAppends`, and the class methods are proved equal to them.
- Fields.Field.Length: the model's `length` keeps an explicit length of 0. The source's `self._length or self.parser.length` (smartyparse/core.py:566) falls through to the codec's length there. The two readings differ exactly on an explicit 0 over a codec whose own length is not 0 (`Findings.OrLengthDiffers`). Every operation of the model uses the model's reading; see Findings.
- Fields.Infer: on an explicit length of 0 the model raises ParseError where the source infers a length. Over a fixed-width codec the source takes the codec's width; over an unbounded blob given data it takes the data's length. `Findings.ExplicitZeroInputs` shows both inputs, and `Findings.InferAgrees` proves the two readings equal on every helper whose explicit length is not 0.
- Fields.Field.InferLength: the same inputs as `Fields.Infer`, because it is proved equal to it.
- Fields.UnpackFieldReads: with an explicit length of 0 over a fixed-width codec, the model raises ParseError where the source decodes the codec's width. Over an unbounded blob the model decodes 0 bytes, while the source reads to the end of the data and, inside a composite, then fails with TypeError at smartyparse/core.py:1298.
- Fields.PackFieldWrites: with an explicit length of 0 and no `prepack_dat`, the model raises ParseError unless the encoding is empty. The source uses the codec's length instead, or for an unbounded blob the data's length.
- Scenario.PairRoundTrip: proved for a composite holding only one linked pair. The test's seven-field composite is `Reload` (`Reload.Session`, `Reload.Vector`).
- Scenario.DeclarePair: declares only the pair; the test's seven declarations are `Reload.DeclareAll`.
- Scenario.NewPair: links only the pair; the test's two links after three plain fields are `Reload.LinkBoth` and `Reload.LinkedFormat`.
- Scenario.RoundTripWith: on the class, for the pair only; the test's composite is `Reload.Exchange`.
- Scenario.PairOnce: end to end for the pair only; the test end to end is `Reload.ReloadTest`.
- In `SmartyParser.unpack` the assignment `self.length = seeker - self.offset` is always overwritten by the `_infer_length()` that follows it. The base `_infer_length` returns nothing, so the composite's length is the static sum of its helpers' lengths or None. The model computes that directly.

## Findings

| source | as written | input that shows it | evidently intended | confidence | as-written member | corrected member |
|---|---|---|---|---|---|---|
| smartyparse/core.py:559-566 | the `length` property is `self._length or self.parser.length`, so an explicit length of 0 falls through to the codec's length | a length field linked to an unbounded blob, packing the empty blob: `prepack_len` returns None and the integer codec cannot pack it (ParseError) | an explicit length of 0 is a length | not executed | Findings.EmptyLinkedBlobLost | Findings.EmptyBlobLinked |
