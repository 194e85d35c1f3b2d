# wsugv_protocol in Dafny

A model of the wire protocol between a host and a Waveshare UGV rover base,
as the Rust crate `wsugv_protocol` implements it. Dafny proves properties of
the model. The link carries newline-delimited JSON:

- **Commands** (host to board) are one flat JSON object: the opcode under
  `"T"`, with the payload record's renamed fields beside it.
- **Feedback** (board to host) is one JSON object per line. Its integer `"T"`
  selects one of three schemas: BaseInfo (1001), IMU (1002) or IMUOffset (129).

The project has five modules:

- `JsonValues` (`json.dfy`): the JSON value as a tree (`serde_json::Value`).
  Integers and floats are distinct. `Get` and `AsI64` are the two accessors
  the decoder uses.
- `Commands` (`commands.dfy`):
  - the payload records and their `tag()`;
  - the thirteen command variants;
  - the opcode table;
  - `Encode`, the hand-written `Serialize`: a struct holding the opcode under
    `"T"`, with the untagged payload flattened beside it;
  - `CommandOf`, a reference reader used only to prove that `Encode` loses
    nothing.
- `Feedback` (`feedback.dfy`):
  - the three derived feedback structs, each as a schema: its wire keys in
    declaration order, each marked optional or not;
  - a model of serde's derived struct deserializer;
  - `Decode`, the hand-written `Deserialize` for `FeedbackMessage`. It peeks
    at `"T"` as an i64, rejects a value with no integer tag, decodes the
    schema a known tag selects, and panics on any other integer.
- `Framing` (`framing.dfy`): `read_feedback` and `write_command`, as methods
  on two classes.
  - `FeedbackReader` is a buffered reader over an in-memory stream with a
    cursor.
  - `CommandWriter` is a writer appending to a buffer, as the crate's own
    tests use a `Cursor`.
  - `WriteThenRead` writes a command and reads the buffer back.
- `WireExamples` (`wire_examples.dfy`): the telemetry line of the crate's
  read test, worked through the decoder.

The text layer of serde_json is not modelled. It is passed to the framing
methods as two functions:

- `serialize: Json -> Option<seq<byte>>` stands for `to_string`;
- `parse: seq<byte> -> Option<Json>` stands for UTF-8 decoding plus
  `from_str` up to the `Value`.

Floats are exact reals.

Where the crate's read test and its code differ, the model follows the code:

- The read test (src/lib.rs:55) builds BaseInfoData with a different set of
  Option fields. It wraps `gx`, `gy`, `gz`, `ax`, `ay`, `az`, `y`,
  `q0`..`q3`, `odl` and `odr` in `Some`, and sets `ab`, `as`, `ae`, `at`,
  `torB`, `torS`, `torE`, `torH`, `pan` and `tilt` to `None`.
- The struct (src/messages.rs:165-200) makes only `y` and `ab`..`torH`
  Options. Every other field is a plain `f64`, so `pan` and `tilt` are
  required.
  - `WireExamples.SampleLineLacksPan` shows the read test's line being
    rejected with `MissingField("pan")`.
  - `WireExamples.CompletedLineDecodes` shows that the same line decodes
    once `pan` and `tilt` are added.
- An unknown integer tag makes the crate panic (src/messages.rs:245), not
  return an unknown-tag error. `Decode` gives it an outcome of its own,
  `Panicked(tag)`, distinct from `Rejected(error)`.
- Opcode 129 is both the SetIMUOffset command and the IMUOffset feedback tag.
  `Framing.CommandReadAsFeedback` proves what that means:
  - a SetIMUOffset line read as feedback decodes to the same nine offsets;
  - every other command line read as feedback panics.

## Model

| member | source | states |
|---|---|---|
| JsonValues.Get | src/messages.rs:241 | `value.get("T")`: present exactly when the value is an object with that key, and then its member |
| JsonValues.AsI64 | src/messages.rs:241 | `as_i64`: some exactly for an integer within i64 range; a float or string tag gives none |
| Commands.PayloadTagsFollowTable | src/messages.rs:10-94 | every payload record's `tag()` is the table opcode of its variant, independent of its fields |
| Commands.Opcode | src/messages.rs:146-159 | the opcode the serializer's match puts under "T" is the opcode table's entry for the command's variant |
| Commands.OpcodeIgnoresPayload | src/messages.rs:146-159 | two commands of the same variant get the same opcode whatever their payloads |
| Commands.OpcodeTableInverse | src/messages.rs:146-159 | the opcode table is inverted by `VariantOfOpcode`: an opcode names a variant exactly when the table maps that variant to it |
| Commands.OpcodeInjective | src/messages.rs:146-159 | two commands share an opcode if and only if they are the same variant |
| Commands.WireKeysAvoidTag | src/messages.rs:3-94 | no payload field is renamed to "T", so flattening cannot clash with the opcode; a variant has a payload exactly when it has wire keys |
| Commands.Payload | src/messages.rs:3-88 | the derived `Serialize` of the seven payload records with their renames; `PayloadShape` and `EncodeRoundTrip` state what it holds |
| Commands.PayloadShape | src/messages.rs:3-88 | a payload's keys are exactly its variant's renamed wire keys, and each holds a float, an integer or a string |
| Commands.Encode | src/messages.rs:114-163 | the wire value is one flat object whose keys are exactly "T" plus the variant's renamed payload keys, "T" holds the variant's opcode, and no member nests |
| Commands.PayloadFreeEncodesTagOnly | src/messages.rs:147-158 | a unit variant encodes to `{"T": opcode}` alone |
| Commands.EncodeRoundTrip | src/messages.rs:114-163 | reading a command's wire object back by opcode and keys gives the command itself |
| Commands.SetIMUOffsetRoundTrip | src/messages.rs:157 | the round trip for the nine-offset SetIMUOffset command |
| Commands.IMUOffsetGyroAt | src/messages.rs:77-88 | helper of `SetIMUOffsetRoundTrip`, split off for proof cost: gx, gy, gz are floats holding the record's values |
| Commands.IMUOffsetAccelAt | src/messages.rs:77-88 | helper of `SetIMUOffsetRoundTrip`: the same for ax, ay, az |
| Commands.IMUOffsetCompassAt | src/messages.rs:77-88 | helper of `SetIMUOffsetRoundTrip`: the same for cx, cy, cz |
| Commands.EncodeInjective | src/messages.rs:114-163 | distinct commands have distinct wire objects |
| Commands.SpeedExample | src/lib.rs:77 | `Speed(0.5, 0.5)` encodes to `{"T":1,"L":0.5,"R":0.5}` |
| Feedback.SchemaFor | src/messages.rs:242-244 | the match arms: tag 1001 selects BaseInfoData's fields, 1002 IMUData's, 129 IMUOffsetData's; `DecodeSchemaConforms` and `SchemaIgnoresTagKey` state what decoding by it means |
| Feedback.Acceptable | src/messages.rs:165-222 | an `f64`/`f32` field accepts any number, integer or float, and an `Option` field also accepts null; `RequiredFieldIsEnforced` and `OptionalFieldDefaultsToNone` state the consequences |
| Feedback.FirstMistyped | src/messages.rs:165-200 | none exactly when no schema field is present with a wrong type; otherwise the key of such a field |
| Feedback.FirstMistypedIsLeast | src/messages.rs:165-200 | derived `visit_map` visits the object's entries in key order and stops at the first bad one, so the reported field is a mistyped field no other mistyped field precedes in key order |
| Feedback.FirstMissing | src/messages.rs:165-200 | none exactly when no required field is absent; otherwise the key of such a field |
| Feedback.FirstMistypedAt | src/messages.rs:165-200 | the mistyped field reported is the one with the least key in byte-wise order, whatever the declaration order |
| Feedback.FirstMissingAt | src/messages.rs:165-200 | the missing field reported is the first in declaration order |
| Feedback.SchemaError | src/messages.rs:165-200 | a derived struct deserializer fails exactly when the object does not conform. The error names a mistyped field, or failing that a missing required one, and is never the tag error |
| Feedback.SchemaErrorNamesFirstMissing | src/messages.rs:165-200 | with nothing mistyped, the error is `MissingField` of the first absent required field |
| Feedback.SchemaErrorNamesFirstMistyped | src/messages.rs:165-200 | a mistyped field is reported ahead of any missing one, and it is the mistyped field with the least key |
| Feedback.Slot | src/messages.rs:165-222 | the value one field decodes to; `SlotMeaning` states it |
| Feedback.SlotMeaning | src/messages.rs:165-222 | an Option field that is absent or null gives None; a required field that is present and well typed gives a value; the value is the number under the key, an integer read as a float |
| Feedback.Slots | src/messages.rs:165-200 | there is one decoded value per schema field |
| Feedback.ConformsFillsRequired | src/messages.rs:165-200 | in a conforming object every required field decodes to a number |
| Feedback.BaseInfoOptionalAt | src/messages.rs:165-200 | BaseInfoData has 28 fields; exactly y, ab, as, ae, at, torB, torS, torE, torH are Options |
| Feedback.BaseInfoFromSlots | src/messages.rs:165-200 | a record built from decoded values (required ones present) gives back exactly those values |
| Feedback.BaseInfoSlots | src/messages.rs:165-200 | a BaseInfo record always has its required fields |
| Feedback.IMUFromSlots | src/messages.rs:206-211 | an IMU record built from nine decoded values gives back exactly those values |
| Feedback.IMUSlots | src/messages.rs:206-211 | an IMU record has all nine fields |
| Feedback.IMUOffsetFromSlots | src/messages.rs:217-222 | an IMUOffset record built from nine decoded values gives back exactly those values |
| Feedback.IMUOffsetSlots | src/messages.rs:217-222 | an IMUOffset record has all nine fields |
| Feedback.MessageTag | src/messages.rs:202-233 | each message's own TAG is one of the three known tags |
| Feedback.DecodeBaseInfo | src/messages.rs:242 | `BaseInfoData::deserialize` succeeds exactly on conforming objects, and otherwise fails with the schema error |
| Feedback.DecodeBaseInfoSlots | src/messages.rs:242 | a decoded BaseInfo holds the object's numbers, field by field |
| Feedback.DecodeIMU | src/messages.rs:243 | `IMUData::deserialize` succeeds exactly on conforming objects, and otherwise fails with the schema error |
| Feedback.DecodeIMUSlots | src/messages.rs:243 | a decoded IMU holds the object's numbers, field by field |
| Feedback.DecodeIMUOffset | src/messages.rs:244 | `IMUOffsetData::deserialize` succeeds exactly on conforming objects, and otherwise fails with the schema error |
| Feedback.DecodeIMUOffsetSlots | src/messages.rs:244 | a decoded IMUOffset holds the object's numbers, field by field |
| Feedback.DecodeIMUOffsetFloats | src/messages.rs:244 | an object holding the nine offsets as floats decodes to exactly those offsets |
| Feedback.DecodeSchema | src/messages.rs:241-244 | the schema decode for a known tag yields a message of that tag's kind |
| Feedback.DecodeSchemaConforms | src/messages.rs:241-244 | the selected schema decode succeeds exactly on objects conforming to the tag's schema, and otherwise fails with that schema's error |
| Feedback.DecodeSchemaSlots | src/messages.rs:241-244 | the decoded message holds the numbers under its schema's keys |
| Feedback.TagOf | src/messages.rs:241 | the tag is present exactly when the value is an object whose "T" is an i64 integer, and then it is that integer |
| Feedback.Decode | src/messages.rs:237-248 | InvalidTag exactly when there is no i64 tag. A panic exactly on an unknown integer tag, carrying it. A decoded message's kind matches the tag. For a known tag, success exactly when the object conforms to that tag's schema, and on rejection the error is that schema's error |
| Feedback.DecodedFieldsComeFromObject | src/messages.rs:237-248 | a decoded message came from an object and holds its numbers in schema order |
| Feedback.SchemaErrorDependsOnSchemaKeys | src/messages.rs:165-200 | the schema error depends only on the members under the schema's keys |
| Feedback.SlotsDependOnSchemaKeys | src/messages.rs:165-200 | the decoded values depend only on the members under the schema's keys |
| Feedback.DecodeSchemaCongruent | src/messages.rs:241-244 | objects with the same schema error and values decode alike |
| Feedback.DecodeBaseInfoCongruent | src/messages.rs:242 | the same for BaseInfo |
| Feedback.DecodeIMUCongruent | src/messages.rs:243 | the same for IMU |
| Feedback.DecodeIMUOffsetCongruent | src/messages.rs:244 | the same for IMUOffset |
| Feedback.SchemaIgnoresOtherKeys | src/messages.rs:165-226 | keys outside the selected schema do not affect its decode |
| Feedback.DecodeIgnoresUnknownKeys | src/messages.rs:237-248 | two objects that agree on "T" and on every schema key decode identically; unknown keys are ignored |
| Feedback.SchemaIgnoresTagKey | src/messages.rs:241-244 | the same object is handed to the struct deserializer with "T" still in it, and removing "T" changes nothing |
| Feedback.RequiredFieldIsEnforced | src/messages.rs:165-222 | with a known tag, a required field that is absent or not a number makes the decode fail with a field error |
| Feedback.DecodedBaseInfoAt | src/messages.rs:165-200 | the i-th field of a decoded BaseInfo is the value under the i-th wire key |
| Feedback.OptionalFieldDefaultsToNone | src/messages.rs:179-198 | an optional field that is absent or null decodes to None; a present number decodes to Some of it |
| Feedback.WheelSpeedIsNotRoll | src/messages.rs:168-177 | keys are case-sensitive: "R" supplies the right wheel speed, "r" the roll, and both are required |
| Feedback.SlotsOfRAndr | src/messages.rs:168-177 | BaseInfo slot 1 is keyed "R" and slot 8 is keyed "r" |
| Feedback.BaseInfoSlotsInjective | src/messages.rs:165-200 | a BaseInfo record is determined by its field values |
| Feedback.BaseInfoDecodesTo | src/messages.rs:237-248 | a conforming object with tag 1001 decodes to the record holding its numbers |
| Feedback.NonIntegerTagIsInvalid | src/messages.rs:241 | a non-object, a missing tag, or a float or string tag is rejected with InvalidTag |
| Feedback.UnknownTagPanics | src/messages.rs:245 | an i64 tag other than 1001, 1002 and 129 panics with that tag |
| Framing.LineLength | src/lib.rs:12 | `read_line` takes bytes up to and including the first newline, or all when there is none, and nothing only from an empty stream |
| Framing.LineLengthUnique | src/lib.rs:12 | those properties determine the line length |
| Framing.FramedLineLength | src/lib.rs:12 | a newline-free body followed by a newline is exactly one line, whatever follows |
| Framing.DecodeLine | src/lib.rs:19 | `from_str` on one line: never NoData, and Unparsable exactly when the line is not one JSON value; otherwise the decoder's outcome |
| Framing.ReadOutcome | src/lib.rs:9-21 | what `read_feedback` returns on the unread bytes; `NoDataOnlyAtEnd`, `OneLinePerRead` and `FeedbackReader.ReadFeedback` state it |
| Framing.FeedbackReader.constructor | src/lib.rs:44-46 | a reader starts at the beginning of its stream |
| Framing.FeedbackReader.ReadLine | src/lib.rs:11-12 | consumes and returns the next line of the unread bytes, terminator included, advancing the cursor by its length |
| Framing.FeedbackReader.ReadFeedback | src/lib.rs:9-22 | a zero-byte read gives NoData; otherwise the line is parsed and decoded; either way exactly one line is consumed |
| Framing.NoDataOnlyAtEnd | src/lib.rs:14-17 | a read gives NoData if and only if the stream has no bytes left |
| Framing.OneLinePerRead | src/lib.rs:11-19 | a read of a framed line decodes that line alone, independent of what follows |
| Framing.CommandWriter.constructor | src/lib.rs:48-51 | a writer starts with an empty buffer |
| Framing.CommandWriter.Write | src/lib.rs:29-30 | a write appends its bytes and reports their number |
| Framing.CommandWriter.WriteCommand | src/lib.rs:26-31 | on a serialisation failure nothing is written; otherwise body then newline are appended and the count returned is body length plus one, which is the buffer's growth |
| Framing.WriteThenRead | src/lib.rs:75-97 | writing a command into an empty buffer and reading it back takes exactly the written line. With a faithful text layer that line decodes as the command's wire value, a second read gives NoData, and a failed serialisation leaves nothing to read |
| Framing.CommandReadAsFeedback | src/messages.rs:146-245 | a command line read as feedback: SetIMUOffset (opcode 129) decodes as IMUOffset with the same nine values; every other command panics with its opcode |
| Framing.SetIMUOffsetReadAsFeedback | src/messages.rs:157-244 | SetIMUOffset's wire object decodes as IMUOffset feedback carrying the same nine offsets |
| WireExamples.SampleValuesAreNumbers | src/lib.rs:56 | helper of `SampleLineLacksPan`: every member of the read test's line is a number |
| WireExamples.SampleNothingMistyped | src/lib.rs:56 | helper of `SampleLineLacksPan`: no BaseInfo field of that line has a wrong type |
| WireExamples.SampleHasFieldsBeforePan | src/lib.rs:56 | helper of `SampleLineLacksPan`: that line has every required BaseInfo field declared before "pan" |
| WireExamples.BaseInfoLackingPan | src/messages.rs:165-200 | a tag-1001 object of numbers with every required field before "pan" but no "pan" is rejected with `MissingField("pan")` |
| WireExamples.SampleLineLacksPan | src/lib.rs:53-64 | the read test's line is rejected with `MissingField("pan")` by the current struct |
| WireExamples.CompletedValuesAreNumbers | src/lib.rs:56 | helper of `CompletedConforms`: every member of the completed line is a number |
| WireExamples.CompletedNothingMistyped | src/lib.rs:56 | helper of `CompletedConforms`: no BaseInfo field of the completed line has a wrong type |
| WireExamples.CompletedNothingMissing | src/lib.rs:56 | helper of `CompletedConforms`: the completed line has every required BaseInfo field |
| WireExamples.CompletedConforms | src/lib.rs:56 | the line with "pan" and "tilt" added conforms to BaseInfo |
| WireExamples.CompletedSlotsFrom0 | src/lib.rs:55-56 | helper of `CompletedSlots`, split off for proof cost: fields 0-3 of the completed line are those of the expected record |
| WireExamples.CompletedSlotsFrom4 | src/lib.rs:55-56 | helper of `CompletedSlots`, split off for proof cost: fields 4-7 of the completed line are those of the expected record |
| WireExamples.CompletedSlotsFrom8 | src/lib.rs:55-56 | helper of `CompletedSlots`, split off for proof cost: fields 8-11 of the completed line are those of the expected record |
| WireExamples.CompletedSlotsFrom12 | src/lib.rs:55-56 | helper of `CompletedSlots`, split off for proof cost: fields 12-15 of the completed line are those of the expected record |
| WireExamples.CompletedSlotsFrom16 | src/lib.rs:55-56 | helper of `CompletedSlots`, split off for proof cost: fields 16-19 of the completed line are those of the expected record |
| WireExamples.CompletedSlotsFrom20 | src/lib.rs:55-56 | helper of `CompletedSlots`, split off for proof cost: fields 20-23 of the completed line are those of the expected record |
| WireExamples.CompletedSlotsFrom24 | src/lib.rs:55-56 | helper of `CompletedSlots`, split off for proof cost: fields 24-27 of the completed line are those of the expected record |
| WireExamples.CompletedSlots | src/lib.rs:55-56 | the completed line's values are exactly the expected record's |
| WireExamples.LeastMistypedKeyIsReported | src/messages.rs:206-211 | `{"T":1002,"gx":"a","ax":"b"}` is rejected with the error raised for "ax"'s value, "ax" being the least mistyped key, though gx is declared first |
| WireExamples.CompletedLineDecodes | src/lib.rs:53-64 | the completed line decodes to the expected BaseInfo: integer zeros become 0.0 and every absent optional field is None |

## Left out

- Float width: f32 and f64 values are exact reals. Rounding and NaN are not
  modelled; serde_json writes a non-finite float as `null`.
- The text layer: JSON text, escaping, key order and UTF-8 are the
  `serialize` and `parse` parameters. `CompactFor` states what the round trip
  in `WriteThenRead` assumes of them.
- Feedback.FirstMistyped: the key order is that of serde_json's default
  `Map`, a sorted `BTreeMap`. Under serde_json's `preserve_order` feature the
  entries are visited in input order instead, which is not modelled.
- Error messages: the `de::Error::custom` strings are modelled as the kind
  of error plus a key. For "Invalid Tag" and for a missing field this matches
  what serde reports. `InvalidType(k)` records which field's value serde
  rejected; serde's own message names the value and the expected type, not
  the key.
- The trailing-characters check of `from_str` after the value: the line's
  newline is whitespace and passes it. A panic on an unknown tag occurs
  before that check.
- I/O errors from `read_line` and `write`, async suspension and
  cancellation: the stream is an in-memory buffer that cannot fail.
- Framing.CommandWriter.Write: every write is a full write. A short write by
  `write` is not modelled.
- Commands.CommandOf is not part of the crate. It is a reference reader (the
  board's side) that `EncodeRoundTrip` uses as the encoding's inverse.
- src/main.rs (a demo client on a serial port) is not part of this model.
- The assertions of the crate's read test (src/lib.rs:55) construct
  BaseInfoData with field types it no longer has. They are replaced by
  `SampleLineLacksPan` and `CompletedLineDecodes`, which state what the
  current struct does with the test's line.
