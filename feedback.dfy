/** Inbound telemetry: the three feedback schemas and the two-phase decoder
    that first reads the integer under "T" and then decodes the schema that
    tag selects (src/messages.rs). */
module Feedback {
  import opened JsonValues

  datatype BaseInfoData = BaseInfoData(
    l: Num, r: Num,
    gx: Num, gy: Num, gz: Num,
    ax: Num, ay: Num, az: Num,
    rAngle: Num, pAngle: Num, yAngle: Option<Num>,
    q0: Num, q1: Num, q2: Num, q3: Num,
    odl: Num, odr: Num,
    v: Num,
    aB: Option<Num>, aS: Option<Num>, aE: Option<Num>, aT: Option<Num>,
    torB: Option<Num>, torS: Option<Num>, torE: Option<Num>, torH: Option<Num>,
    pan: Num, tilt: Num)

  datatype IMUData = IMUData(
    gx: Num, gy: Num, gz: Num,
    ax: Num, ay: Num, az: Num,
    mx: Num, my: Num, mz: Num)

  datatype IMUOffsetData = IMUOffsetData(
    gx: Num, gy: Num, gz: Num,
    ax: Num, ay: Num, az: Num,
    cx: Num, cy: Num, cz: Num)

  datatype FeedbackMessage =
    | BaseInfo(base: BaseInfoData)
    | IMU(imu: IMUData)
    | IMUOffset(offset: IMUOffsetData)

  const BASE_INFO_TAG: int := 1001
  const IMU_TAG: int := 1002
  const IMU_OFFSET_TAG: int := 129

  /** Why a line was not decoded. InvalidTag is the one error for a value
      with no integer "T"; the other two name a schema field. */
  datatype DecodeError =
    | InvalidTag
    | MissingField(key: string)
    | InvalidType(key: string)

  /** What decoding a JSON value comes to. The crate panics on an integer
      tag it does not know; Panicked records that outcome, which no caller
      can recover from. */
  datatype Outcome =
    | Decoded(msg: FeedbackMessage)
    | Rejected(error: DecodeError)
    | Panicked(tag: int)

  // ----- Schemas: each struct's wire keys in declaration order -----

  /** A struct field as serde sees it: its wire key, and whether its type is
      an Option (absent or null then decodes to None). */
  datatype Field = Field(key: string, optional: bool)

  const BaseInfoSchema: seq<Field> := [
    Field("L", false), Field("R", false),
    Field("gx", false), Field("gy", false), Field("gz", false),
    Field("ax", false), Field("ay", false), Field("az", false),
    Field("r", false), Field("p", false), Field("y", true),
    Field("q0", false), Field("q1", false), Field("q2", false), Field("q3", false),
    Field("odl", false), Field("odr", false),
    Field("v", false),
    Field("ab", true), Field("as", true), Field("ae", true), Field("at", true),
    Field("torB", true), Field("torS", true), Field("torE", true), Field("torH", true),
    Field("pan", false), Field("tilt", false)]

  const IMUSchema: seq<Field> := [
    Field("gx", false), Field("gy", false), Field("gz", false),
    Field("ax", false), Field("ay", false), Field("az", false),
    Field("mx", false), Field("my", false), Field("mz", false)]

  const IMUOffsetSchema: seq<Field> := [
    Field("gx", false), Field("gy", false), Field("gz", false),
    Field("ax", false), Field("ay", false), Field("az", false),
    Field("cx", false), Field("cy", false), Field("cz", false)]

  predicate IsKnownTag(t: int) {
    t == BASE_INFO_TAG || t == IMU_TAG || t == IMU_OFFSET_TAG
  }

  /** The dispatch table: the schema each known tag selects. */
  function SchemaFor(t: int): seq<Field>
    requires IsKnownTag(t)
  {
    if t == BASE_INFO_TAG then BaseInfoSchema
    else if t == IMU_TAG then IMUSchema
    else IMUOffsetSchema
  }

  // ----- Field checks of a derived struct deserializer -----

  /** A value the field's type accepts: any number, or null for an Option. */
  predicate Acceptable(f: Field, v: Json) {
    IsNumber(v) || (f.optional && v == JNull)
  }

  /** The field is present with a value its type rejects. */
  predicate Mistyped(o: map<string, Json>, f: Field) {
    f.key in o && !Acceptable(f, o[f.key])
  }

  /** The field is required and absent. */
  predicate Missing(o: map<string, Json>, f: Field) {
    !f.optional && f.key !in o
  }

  /** The object satisfies the schema: no field mistyped, none missing. */
  predicate Conforms(o: map<string, Json>, fs: seq<Field>) {
    forall i :: 0 <= i < |fs| ==> !Mistyped(o, fs[i]) && !Missing(o, fs[i])
  }

  /** The mistyped field a derived deserializer reports: it visits the
      object's entries in key order and stops at the first bad one, so it is
      the mistyped field with the least key. */
  function FirstMistyped(o: map<string, Json>, fs: seq<Field>): (r: Option<string>)
    ensures r.None? <==> forall i :: 0 <= i < |fs| ==> !Mistyped(o, fs[i])
    ensures r.Some? ==> exists i :: 0 <= i < |fs| && fs[i].key == r.value && Mistyped(o, fs[i])
    decreases |fs|
  {
    if fs == [] then None
    else
      var rest := FirstMistyped(o, fs[1..]);
      assert forall i :: 1 <= i < |fs| ==> fs[i] == fs[1..][i - 1];
      if !Mistyped(o, fs[0]) then rest
      else if rest.Some? && KeyBefore(rest.value, fs[0].key) then rest
      else Some(fs[0].key)
  }

  /** No mistyped field has a key before the one reported. */
  lemma {:induction false} FirstMistypedIsLeast(o: map<string, Json>, fs: seq<Field>)
    ensures FirstMistyped(o, fs).Some? ==>
      forall j :: 0 <= j < |fs| && Mistyped(o, fs[j]) ==> !KeyBefore(fs[j].key, FirstMistyped(o, fs).value)
    decreases |fs|
  {
    if fs != [] {
      var rest := FirstMistyped(o, fs[1..]);
      FirstMistypedIsLeast(o, fs[1..]);
      assert forall j :: 1 <= j < |fs| ==> fs[j] == fs[1..][j - 1];
      if Mistyped(o, fs[0]) {
        var k := fs[0].key;
        if rest.Some? && KeyBefore(rest.value, k) {
          KeyBeforeAsymmetric(rest.value, k);
        } else if rest.Some? {
          forall j | 1 <= j < |fs| && Mistyped(o, fs[j])
            ensures !KeyBefore(fs[j].key, k)
          {
            NotBeforeTransitive(fs[j].key, rest.value, k);
          }
          KeyBeforeIrreflexive(k);
        } else {
          KeyBeforeIrreflexive(k);
        }
      }
    }
  }

  /** The first missing required field, in declaration order. */
  function FirstMissing(o: map<string, Json>, fs: seq<Field>): (r: Option<string>)
    ensures r.None? <==> forall i :: 0 <= i < |fs| ==> !Missing(o, fs[i])
    ensures r.Some? ==> exists i :: 0 <= i < |fs| && fs[i].key == r.value && Missing(o, fs[i])
    decreases |fs|
  {
    if fs == [] then None
    else if Missing(o, fs[0]) then Some(fs[0].key)
    else
      var r := FirstMissing(o, fs[1..]);
      assert forall i :: 1 <= i < |fs| ==> fs[i] == fs[1..][i - 1];
      r
  }

  /** The error a derived deserializer reports for an object: a present
      field of the wrong type is found while the entries are visited, before
      the absent required fields are looked for. */
  function SchemaError(o: map<string, Json>, fs: seq<Field>): (r: Option<DecodeError>)
    ensures r.None? <==> Conforms(o, fs)
    ensures r.Some? && r.value.InvalidType? ==>
      exists i :: 0 <= i < |fs| && fs[i].key == r.value.key && Mistyped(o, fs[i])
    ensures r.Some? && r.value.MissingField? ==>
      exists i :: 0 <= i < |fs| && fs[i].key == r.value.key && Missing(o, fs[i])
    ensures r.Some? ==> !r.value.InvalidTag?
  {
    match FirstMistyped(o, fs)
    case Some(k) => Some(InvalidType(k))
    case None =>
      match FirstMissing(o, fs)
      case Some(k) => Some(MissingField(k))
      case None => None
  }

  /** The mistyped field reported is the one with the least key: a mistyped
      field that no other mistyped field precedes in key order. */
  lemma FirstMistypedAt(o: map<string, Json>, fs: seq<Field>, i: int)
    requires 0 <= i < |fs| && Mistyped(o, fs[i])
    requires forall j :: 0 <= j < |fs| && Mistyped(o, fs[j]) ==> !KeyBefore(fs[j].key, fs[i].key)
    ensures FirstMistyped(o, fs) == Some(fs[i].key)
  {
    FirstMistypedIsLeast(o, fs);
    KeyBeforeTotal(FirstMistyped(o, fs).value, fs[i].key);
  }

  /** The missing field reported is the first in declaration order. */
  lemma {:induction false} FirstMissingAt(o: map<string, Json>, fs: seq<Field>, i: int)
    requires 0 <= i < |fs| && Missing(o, fs[i])
    requires forall j :: 0 <= j < i ==> !Missing(o, fs[j])
    ensures FirstMissing(o, fs) == Some(fs[i].key)
  {
    if i > 0 {
      assert !Missing(o, fs[0]);
      forall j | 0 <= j < i - 1
        ensures !Missing(o, fs[1..][j])
      {
        assert fs[1..][j] == fs[j + 1];
      }
      FirstMissingAt(o, fs[1..], i - 1);
    }
  }

  /** With nothing mistyped, the error names the first absent required field. */
  lemma SchemaErrorNamesFirstMissing(o: map<string, Json>, fs: seq<Field>, i: int)
    requires forall j :: 0 <= j < |fs| ==> !Mistyped(o, fs[j])
    requires 0 <= i < |fs| && Missing(o, fs[i])
    requires forall j :: 0 <= j < i ==> !Missing(o, fs[j])
    ensures SchemaError(o, fs) == Some(MissingField(fs[i].key))
  {
    FirstMissingAt(o, fs, i);
  }

  /** A mistyped field is reported ahead of any absent one: the error names
      the mistyped field with the least key, whatever is missing. */
  lemma SchemaErrorNamesFirstMistyped(o: map<string, Json>, fs: seq<Field>, i: int)
    requires 0 <= i < |fs| && Mistyped(o, fs[i])
    requires forall j :: 0 <= j < |fs| && Mistyped(o, fs[j]) ==> !KeyBefore(fs[j].key, fs[i].key)
    ensures SchemaError(o, fs) == Some(InvalidType(fs[i].key))
  {
    FirstMistypedAt(o, fs, i);
  }

  /** The value a field decodes to: the number under its key, or None when
      the key is absent or holds null. */
  function Slot(o: map<string, Json>, f: Field): Option<Num> {
    if f.key in o && IsNumber(o[f.key]) then Some(NumOf(o[f.key])) else None
  }

  /** How one field decodes: an Option field that is absent or null gives
      None; a required field that is present and well typed gives a value;
      a value is always the number under the field's key, an integer read as
      a float. */
  lemma SlotMeaning(o: map<string, Json>, f: Field)
    ensures f.optional && (f.key !in o || o[f.key] == JNull) ==> Slot(o, f) == None
    ensures !f.optional && !Mistyped(o, f) && !Missing(o, f) ==> Slot(o, f).Some?
    ensures Slot(o, f).Some? ==> f.key in o && IsNumber(o[f.key]) && Slot(o, f).value == NumOf(o[f.key])
    ensures f.key in o && o[f.key].JInt? ==> Slot(o, f) == Some(o[f.key].i as real)
  {
  }

  /** The decoded value of every field, in declaration order. */
  function Slots(o: map<string, Json>, fs: seq<Field>): (s: seq<Option<Num>>)
    ensures |s| == |fs|
  {
    seq(|fs|, i requires 0 <= i < |fs| => Slot(o, fs[i]))
  }

  /** A schema-wide condition: every required slot holds a value. */
  predicate RequiredFilled(s: seq<Option<Num>>, fs: seq<Field>) {
    |s| == |fs| && forall i :: 0 <= i < |fs| && !fs[i].optional ==> s[i].Some?
  }

  lemma ConformsFillsRequired(o: map<string, Json>, fs: seq<Field>)
    requires Conforms(o, fs)
    ensures RequiredFilled(Slots(o, fs), fs)
  {
    forall i | 0 <= i < |fs| && !fs[i].optional
      ensures Slots(o, fs)[i].Some?
    {
      assert !Mistyped(o, fs[i]) && !Missing(o, fs[i]);
    }
  }

  // ----- Records from slots and back -----

  /** Which fields of BaseInfoData are Options: y and the eight arm fields. */
  lemma BaseInfoOptionalAt()
    ensures |BaseInfoSchema| == 28
    ensures forall i :: 0 <= i < 28 ==> (BaseInfoSchema[i].optional <==> i == 10 || 18 <= i <= 25)
  {
  }

  /** The record whose slots are s. */
  function BaseInfoFromSlots(s: seq<Option<Num>>): (d: BaseInfoData)
    requires |s| == 28 && forall i :: 0 <= i < 28 && i != 10 && !(18 <= i <= 25) ==> s[i].Some?
    ensures BaseInfoSlots(d) == s
  {
    BaseInfoData(
      s[0].value, s[1].value,
      s[2].value, s[3].value, s[4].value,
      s[5].value, s[6].value, s[7].value,
      s[8].value, s[9].value, s[10],
      s[11].value, s[12].value, s[13].value, s[14].value,
      s[15].value, s[16].value,
      s[17].value,
      s[18], s[19], s[20], s[21],
      s[22], s[23], s[24], s[25],
      s[26].value, s[27].value)
  }

  /** A record's fields in declaration order, required ones wrapped in Some. */
  function BaseInfoSlots(d: BaseInfoData): (s: seq<Option<Num>>)
    ensures RequiredFilled(s, BaseInfoSchema)
  {
    [Some(d.l), Some(d.r),
     Some(d.gx), Some(d.gy), Some(d.gz),
     Some(d.ax), Some(d.ay), Some(d.az),
     Some(d.rAngle), Some(d.pAngle), d.yAngle,
     Some(d.q0), Some(d.q1), Some(d.q2), Some(d.q3),
     Some(d.odl), Some(d.odr),
     Some(d.v),
     d.aB, d.aS, d.aE, d.aT,
     d.torB, d.torS, d.torE, d.torH,
     Some(d.pan), Some(d.tilt)]
  }

  function IMUFromSlots(s: seq<Option<Num>>): (d: IMUData)
    requires RequiredFilled(s, IMUSchema)
    ensures IMUSlots(d) == s
  {
    IMUData(s[0].value, s[1].value, s[2].value,
            s[3].value, s[4].value, s[5].value,
            s[6].value, s[7].value, s[8].value)
  }

  function IMUSlots(d: IMUData): (s: seq<Option<Num>>)
    ensures RequiredFilled(s, IMUSchema)
  {
    [Some(d.gx), Some(d.gy), Some(d.gz),
     Some(d.ax), Some(d.ay), Some(d.az),
     Some(d.mx), Some(d.my), Some(d.mz)]
  }

  function IMUOffsetFromSlots(s: seq<Option<Num>>): (d: IMUOffsetData)
    requires RequiredFilled(s, IMUOffsetSchema)
    ensures IMUOffsetSlots(d) == s
  {
    IMUOffsetData(s[0].value, s[1].value, s[2].value,
                  s[3].value, s[4].value, s[5].value,
                  s[6].value, s[7].value, s[8].value)
  }

  function IMUOffsetSlots(d: IMUOffsetData): (s: seq<Option<Num>>)
    ensures RequiredFilled(s, IMUOffsetSchema)
  {
    [Some(d.gx), Some(d.gy), Some(d.gz),
     Some(d.ax), Some(d.ay), Some(d.az),
     Some(d.cx), Some(d.cy), Some(d.cz)]
  }

  /** The slots of a decoded message, in its schema's declaration order. */
  function MessageSlots(m: FeedbackMessage): seq<Option<Num>> {
    match m
    case BaseInfo(d) => BaseInfoSlots(d)
    case IMU(d) => IMUSlots(d)
    case IMUOffset(d) => IMUOffsetSlots(d)
  }

  /** The tag whose schema a message has. */
  function MessageTag(m: FeedbackMessage): (t: int)
    ensures IsKnownTag(t)
  {
    match m
    case BaseInfo(_) => BASE_INFO_TAG
    case IMU(_) => IMU_TAG
    case IMUOffset(_) => IMU_OFFSET_TAG
  }

  // ----- Decoding -----

  /** BaseInfoData's derived Deserialize: it succeeds exactly when the
      object conforms to the schema, and otherwise reports the schema's
      error. DecodeBaseInfoSlots says what the record then holds. */
  function DecodeBaseInfo(o: map<string, Json>): (r: Result<BaseInfoData, DecodeError>)
    ensures r.Ok? <==> Conforms(o, BaseInfoSchema)
    ensures r.Err? ==> SchemaError(o, BaseInfoSchema) == Some(r.error)
  {
    match SchemaError(o, BaseInfoSchema)
    case Some(e) => Err(e)
    case None =>
      ConformsFillsRequired(o, BaseInfoSchema);
      BaseInfoOptionalAt();
      Ok(BaseInfoFromSlots(Slots(o, BaseInfoSchema)))
  }

  lemma DecodeBaseInfoSlots(o: map<string, Json>)
    requires DecodeBaseInfo(o).Ok?
    ensures BaseInfoSlots(DecodeBaseInfo(o).value) == Slots(o, BaseInfoSchema)
  {
    ConformsFillsRequired(o, BaseInfoSchema);
  }

  /** IMUData's derived Deserialize, with the same contract. */
  function DecodeIMU(o: map<string, Json>): (r: Result<IMUData, DecodeError>)
    ensures r.Ok? <==> Conforms(o, IMUSchema)
    ensures r.Err? ==> SchemaError(o, IMUSchema) == Some(r.error)
  {
    match SchemaError(o, IMUSchema)
    case Some(e) => Err(e)
    case None =>
      ConformsFillsRequired(o, IMUSchema);
      Ok(IMUFromSlots(Slots(o, IMUSchema)))
  }

  lemma DecodeIMUSlots(o: map<string, Json>)
    requires DecodeIMU(o).Ok?
    ensures IMUSlots(DecodeIMU(o).value) == Slots(o, IMUSchema)
  {
    ConformsFillsRequired(o, IMUSchema);
  }

  /** IMUOffsetData's derived Deserialize, with the same contract. */
  function DecodeIMUOffset(o: map<string, Json>): (r: Result<IMUOffsetData, DecodeError>)
    ensures r.Ok? <==> Conforms(o, IMUOffsetSchema)
    ensures r.Err? ==> SchemaError(o, IMUOffsetSchema) == Some(r.error)
  {
    match SchemaError(o, IMUOffsetSchema)
    case Some(e) => Err(e)
    case None =>
      ConformsFillsRequired(o, IMUOffsetSchema);
      Ok(IMUOffsetFromSlots(Slots(o, IMUOffsetSchema)))
  }

  lemma DecodeIMUOffsetSlots(o: map<string, Json>)
    requires DecodeIMUOffset(o).Ok?
    ensures IMUOffsetSlots(DecodeIMUOffset(o).value) == Slots(o, IMUOffsetSchema)
  {
    ConformsFillsRequired(o, IMUOffsetSchema);
  }

  /** The schema decode a known tag selects, wrapped in its variant. */
  function DecodeSchema(t: int, o: map<string, Json>): (r: Result<FeedbackMessage, DecodeError>)
    requires IsKnownTag(t)
    ensures r.Ok? ==> MessageTag(r.value) == t
  {
    if t == BASE_INFO_TAG then
      match DecodeBaseInfo(o)
      case Ok(d) => Ok(BaseInfo(d))
      case Err(e) => Err(e)
    else if t == IMU_TAG then
      match DecodeIMU(o)
      case Ok(d) => Ok(IMU(d))
      case Err(e) => Err(e)
    else
      match DecodeIMUOffset(o)
      case Ok(d) => Ok(IMUOffset(d))
      case Err(e) => Err(e)
  }

  /** An object holding the nine offsets as floats decodes to exactly
      those offsets. */
  lemma DecodeIMUOffsetFloats(o: map<string, Json>, gx: Num, gy: Num, gz: Num,
                              ax: Num, ay: Num, az: Num, cx: Num, cy: Num, cz: Num)
    requires "gx" in o && o["gx"] == JFloat(gx) && "gy" in o && o["gy"] == JFloat(gy)
    requires "gz" in o && o["gz"] == JFloat(gz) && "ax" in o && o["ax"] == JFloat(ax)
    requires "ay" in o && o["ay"] == JFloat(ay) && "az" in o && o["az"] == JFloat(az)
    requires "cx" in o && o["cx"] == JFloat(cx) && "cy" in o && o["cy"] == JFloat(cy)
    requires "cz" in o && o["cz"] == JFloat(cz)
    ensures DecodeIMUOffset(o) == Ok(IMUOffsetData(gx, gy, gz, ax, ay, az, cx, cy, cz))
  {
    assert Conforms(o, IMUOffsetSchema);
    DecodeIMUOffsetSlots(o);
    var s := Slots(o, IMUOffsetSchema);
    assert s[0] == Some(gx) && s[1] == Some(gy) && s[2] == Some(gz);
    assert s[3] == Some(ax) && s[4] == Some(ay) && s[5] == Some(az);
    assert s[6] == Some(cx) && s[7] == Some(cy) && s[8] == Some(cz);
  }

  /** The selected schema decode succeeds exactly when the object conforms
      to that schema, and otherwise fails with the schema's error. */
  lemma DecodeSchemaConforms(t: int, o: map<string, Json>)
    requires IsKnownTag(t)
    ensures DecodeSchema(t, o).Ok? <==> Conforms(o, SchemaFor(t))
    ensures DecodeSchema(t, o).Err? ==> SchemaError(o, SchemaFor(t)) == Some(DecodeSchema(t, o).error)
  {
    if t == BASE_INFO_TAG {
      assert SchemaFor(t) == BaseInfoSchema;
    } else if t == IMU_TAG {
      assert SchemaFor(t) == IMUSchema;
    } else {
      assert SchemaFor(t) == IMUOffsetSchema;
    }
  }

  /** A decoded message holds, field by field, the numbers under its
      schema's keys. */
  lemma DecodeSchemaSlots(t: int, o: map<string, Json>)
    requires IsKnownTag(t)
    requires DecodeSchema(t, o).Ok?
    ensures MessageSlots(DecodeSchema(t, o).value) == Slots(o, SchemaFor(t))
  {
    if t == BASE_INFO_TAG {
      DecodeBaseInfoSlots(o);
    } else if t == IMU_TAG {
      DecodeIMUSlots(o);
    } else {
      DecodeIMUOffsetSlots(o);
    }
  }

  /** The tag as the decoder peeks at it: "T" of an object, as an i64. */
  function TagOf(v: Json): (r: Option<int>)
    ensures r.Some? ==> v.JObj? && "T" in v.fields && v.fields["T"] == JInt(r.value)
    ensures r.None? <==> !v.JObj? || "T" !in v.fields || AsI64(v.fields["T"]).None?
  {
    match Get(v, "T")
    case None => None
    case Some(t) => AsI64(t)
  }

  /** FeedbackMessage's Deserialize: peek at the tag, then decode the schema
      it selects. A value with no integer tag is rejected with InvalidTag
      before any schema is tried; an unknown integer tag panics; a known tag
      decodes its own schema, so the message's kind always matches the tag. */
  function Decode(v: Json): (r: Outcome)
    ensures r == Rejected(InvalidTag) <==> TagOf(v).None?
    ensures r.Panicked? <==> TagOf(v).Some? && !IsKnownTag(TagOf(v).value)
    ensures r.Panicked? ==> r.tag == TagOf(v).value
    ensures r.Decoded? ==> TagOf(v) == Some(MessageTag(r.msg))
    ensures TagOf(v).Some? && IsKnownTag(TagOf(v).value) ==>
      (r.Decoded? <==> Conforms(v.fields, SchemaFor(TagOf(v).value)))
    ensures TagOf(v).Some? && IsKnownTag(TagOf(v).value) && r.Rejected? ==>
      SchemaError(v.fields, SchemaFor(TagOf(v).value)) == Some(r.error)
  {
    match TagOf(v)
    case None => Rejected(InvalidTag)
    case Some(t) =>
      if IsKnownTag(t) then
        DecodeSchemaConforms(t, v.fields);
        match DecodeSchema(t, v.fields)
        case Ok(m) => Decoded(m)
        case Err(e) => Rejected(e)
      else
        Panicked(t)
  }

  // ----- Properties -----

  /** A decoded message holds the numbers of the object it came from, field
      by field in its schema's order. */
  lemma DecodedFieldsComeFromObject(v: Json)
    requires Decode(v).Decoded?
    ensures v.JObj?
    ensures MessageSlots(Decode(v).msg) == Slots(v.fields, SchemaFor(MessageTag(Decode(v).msg)))
  {
    DecodeSchemaSlots(TagOf(v).value, v.fields);
  }

  /** The keys a schema reads. */
  predicate SameAt(o1: map<string, Json>, o2: map<string, Json>, k: string) {
    (k in o1 <==> k in o2) && (k in o1 ==> o1[k] == o2[k])
  }

  predicate AgreeOn(o1: map<string, Json>, o2: map<string, Json>, fs: seq<Field>) {
    forall i :: 0 <= i < |fs| ==> SameAt(o1, o2, fs[i].key)
  }

  lemma {:induction false} SchemaErrorDependsOnSchemaKeys(o1: map<string, Json>, o2: map<string, Json>, fs: seq<Field>)
    requires AgreeOn(o1, o2, fs)
    ensures FirstMistyped(o1, fs) == FirstMistyped(o2, fs)
    ensures FirstMissing(o1, fs) == FirstMissing(o2, fs)
    ensures SchemaError(o1, fs) == SchemaError(o2, fs)
    decreases |fs|
  {
    if fs != [] {
      assert SameAt(o1, o2, fs[0].key);
      assert AgreeOn(o1, o2, fs[1..]) by {
        forall i | 0 <= i < |fs[1..]| ensures SameAt(o1, o2, fs[1..][i].key) {
          assert fs[1..][i] == fs[i + 1];
        }
      }
      SchemaErrorDependsOnSchemaKeys(o1, o2, fs[1..]);
    }
  }

  lemma SlotsDependOnSchemaKeys(o1: map<string, Json>, o2: map<string, Json>, fs: seq<Field>)
    requires AgreeOn(o1, o2, fs)
    ensures Slots(o1, fs) == Slots(o2, fs)
  {
    forall i | 0 <= i < |fs| ensures Slots(o1, fs)[i] == Slots(o2, fs)[i] {
      assert SameAt(o1, o2, fs[i].key);
    }
  }

  /** A schema decode sees an object only through its schema error and its
      slots. */
  lemma DecodeSchemaCongruent(t: int, o1: map<string, Json>, o2: map<string, Json>)
    requires IsKnownTag(t)
    requires SchemaError(o1, SchemaFor(t)) == SchemaError(o2, SchemaFor(t))
    requires Slots(o1, SchemaFor(t)) == Slots(o2, SchemaFor(t))
    ensures DecodeSchema(t, o1) == DecodeSchema(t, o2)
  {
    if t == BASE_INFO_TAG {
      DecodeBaseInfoCongruent(o1, o2);
    } else if t == IMU_TAG {
      DecodeIMUCongruent(o1, o2);
    } else {
      DecodeIMUOffsetCongruent(o1, o2);
    }
  }

  lemma DecodeBaseInfoCongruent(o1: map<string, Json>, o2: map<string, Json>)
    requires SchemaError(o1, BaseInfoSchema) == SchemaError(o2, BaseInfoSchema)
    requires Slots(o1, BaseInfoSchema) == Slots(o2, BaseInfoSchema)
    ensures DecodeBaseInfo(o1) == DecodeBaseInfo(o2)
  {
    if SchemaError(o1, BaseInfoSchema).None? {
      ConformsFillsRequired(o1, BaseInfoSchema);
      BaseInfoOptionalAt();
      var s := Slots(o1, BaseInfoSchema);
      assert DecodeBaseInfo(o1) == Ok(BaseInfoFromSlots(s));
      assert DecodeBaseInfo(o2) == Ok(BaseInfoFromSlots(s));
    }
  }

  lemma DecodeIMUCongruent(o1: map<string, Json>, o2: map<string, Json>)
    requires SchemaError(o1, IMUSchema) == SchemaError(o2, IMUSchema)
    requires Slots(o1, IMUSchema) == Slots(o2, IMUSchema)
    ensures DecodeIMU(o1) == DecodeIMU(o2)
  {
  }

  lemma DecodeIMUOffsetCongruent(o1: map<string, Json>, o2: map<string, Json>)
    requires SchemaError(o1, IMUOffsetSchema) == SchemaError(o2, IMUOffsetSchema)
    requires Slots(o1, IMUOffsetSchema) == Slots(o2, IMUOffsetSchema)
    ensures DecodeIMUOffset(o1) == DecodeIMUOffset(o2)
  {
  }

  /** Keys the schema does not declare, "T" among them, change nothing. */
  lemma SchemaIgnoresOtherKeys(t: int, o1: map<string, Json>, o2: map<string, Json>)
    requires IsKnownTag(t)
    requires AgreeOn(o1, o2, SchemaFor(t))
    ensures DecodeSchema(t, o1) == DecodeSchema(t, o2)
  {
    var fs := SchemaFor(t);
    SchemaErrorDependsOnSchemaKeys(o1, o2, fs);
    SlotsDependOnSchemaKeys(o1, o2, fs);
    DecodeSchemaCongruent(t, o1, o2);
  }

  /** Two objects that agree on "T" and on every schema key decode alike:
      keys outside the schemas are ignored. */
  lemma DecodeIgnoresUnknownKeys(o1: map<string, Json>, o2: map<string, Json>)
    requires SameAt(o1, o2, "T")
    requires AgreeOn(o1, o2, BaseInfoSchema)
    requires AgreeOn(o1, o2, IMUSchema)
    requires AgreeOn(o1, o2, IMUOffsetSchema)
    ensures Decode(JObj(o1)) == Decode(JObj(o2))
  {
    var t := TagOf(JObj(o1));
    assert TagOf(JObj(o2)) == t;
    if t.Some? && IsKnownTag(t.value) {
      SchemaIgnoresOtherKeys(t.value, o1, o2);
    }
  }

  /** The tag key is not a field of any schema, so removing it from an
      object leaves its schema decoding unchanged. */
  lemma SchemaIgnoresTagKey(t: int, o: map<string, Json>)
    requires IsKnownTag(t)
    ensures DecodeSchema(t, o) == DecodeSchema(t, o - {"T"})
  {
    var fs := SchemaFor(t);
    forall i | 0 <= i < |fs| ensures SameAt(o, o - {"T"}, fs[i].key) {
      assert fs[i].key != "T";
    }
    SchemaIgnoresOtherKeys(t, o, o - {"T"});
  }

  /** A required field of the selected schema that is absent or not a number
      makes the decode fail, with an error that names a schema field. */
  lemma RequiredFieldIsEnforced(o: map<string, Json>, i: int)
    requires TagOf(JObj(o)).Some? && IsKnownTag(TagOf(JObj(o)).value)
    requires 0 <= i < |SchemaFor(TagOf(JObj(o)).value)|
    requires !SchemaFor(TagOf(JObj(o)).value)[i].optional
    requires var k := SchemaFor(TagOf(JObj(o)).value)[i].key; k !in o || !IsNumber(o[k])
    ensures Decode(JObj(o)).Rejected?
    ensures Decode(JObj(o)).error.MissingField? || Decode(JObj(o)).error.InvalidType?
  {
    var fs := SchemaFor(TagOf(JObj(o)).value);
    assert Mistyped(o, fs[i]) || Missing(o, fs[i]);
  }

  /** The i-th field of a decoded BaseInfo is the value under the i-th key. */
  lemma DecodedBaseInfoAt(o: map<string, Json>, d: BaseInfoData, i: int)
    requires Decode(JObj(o)) == Decoded(BaseInfo(d))
    requires 0 <= i < |BaseInfoSchema|
    ensures BaseInfoSlots(d)[i] == Slot(o, BaseInfoSchema[i])
  {
    DecodedFieldsComeFromObject(JObj(o));
  }

  /** An optional field that is absent or null decodes to None, and one that
      holds a number decodes to Some of that number. */
  lemma OptionalFieldDefaultsToNone(o: map<string, Json>, d: BaseInfoData, i: int)
    requires Decode(JObj(o)) == Decoded(BaseInfo(d))
    requires 0 <= i < |BaseInfoSchema| && BaseInfoSchema[i].optional
    ensures var k := BaseInfoSchema[i].key;
      (k !in o || o[k] == JNull) ==> BaseInfoSlots(d)[i] == None
    ensures var k := BaseInfoSchema[i].key;
      k in o && IsNumber(o[k]) ==> BaseInfoSlots(d)[i] == Some(NumOf(o[k]))
  {
    DecodedBaseInfoAt(o, d, i);
  }

  /** Keys are case-sensitive: "R" is the right wheel speed, "r" the roll. */
  lemma WheelSpeedIsNotRoll(o: map<string, Json>, d: BaseInfoData)
    requires Decode(JObj(o)) == Decoded(BaseInfo(d))
    ensures "R" in o && IsNumber(o["R"]) && d.r == NumOf(o["R"])
    ensures "r" in o && IsNumber(o["r"]) && d.rAngle == NumOf(o["r"])
  {
    DecodedBaseInfoAt(o, d, 1);
    DecodedBaseInfoAt(o, d, 8);
    SlotsOfRAndr(o, d);
  }

  lemma SlotsOfRAndr(o: map<string, Json>, d: BaseInfoData)
    requires BaseInfoSlots(d)[1] == Slot(o, BaseInfoSchema[1])
    requires BaseInfoSlots(d)[8] == Slot(o, BaseInfoSchema[8])
    ensures "R" in o && IsNumber(o["R"]) && d.r == NumOf(o["R"])
    ensures "r" in o && IsNumber(o["r"]) && d.rAngle == NumOf(o["r"])
  {
    assert BaseInfoSchema[1].key == "R" && BaseInfoSchema[8].key == "r";
  }

  /** A record is determined by its slots. */
  lemma BaseInfoSlotsInjective(d1: BaseInfoData, d2: BaseInfoData)
    requires BaseInfoSlots(d1) == BaseInfoSlots(d2)
    ensures d1 == d2
  {
    var s1, s2 := BaseInfoSlots(d1), BaseInfoSlots(d2);
    assert s1[0] == s2[0] && s1[1] == s2[1] && s1[2] == s2[2] && s1[3] == s2[3];
    assert s1[4] == s2[4] && s1[5] == s2[5] && s1[6] == s2[6] && s1[7] == s2[7];
    assert s1[8] == s2[8] && s1[9] == s2[9] && s1[10] == s2[10] && s1[11] == s2[11];
    assert s1[12] == s2[12] && s1[13] == s2[13] && s1[14] == s2[14] && s1[15] == s2[15];
    assert s1[16] == s2[16] && s1[17] == s2[17] && s1[18] == s2[18] && s1[19] == s2[19];
    assert s1[20] == s2[20] && s1[21] == s2[21] && s1[22] == s2[22] && s1[23] == s2[23];
    assert s1[24] == s2[24] && s1[25] == s2[25] && s1[26] == s2[26] && s1[27] == s2[27];
  }

  /** Conversely to DecodedFieldsComeFromObject: a BaseInfo-tagged object
      that conforms decodes to the record holding its numbers. */
  lemma BaseInfoDecodesTo(o: map<string, Json>, d: BaseInfoData)
    requires "T" in o && o["T"] == JInt(BASE_INFO_TAG)
    requires Conforms(o, BaseInfoSchema)
    requires Slots(o, BaseInfoSchema) == BaseInfoSlots(d)
    ensures Decode(JObj(o)) == Decoded(BaseInfo(d))
  {
    var m := Decode(JObj(o)).msg;
    DecodedFieldsComeFromObject(JObj(o));
    BaseInfoSlotsInjective(m.base, d);
  }

  /** A value that is not an object, or whose "T" is missing, a float or a
      string, is rejected with InvalidTag before any schema is tried. */
  lemma NonIntegerTagIsInvalid(v: Json)
    requires !v.JObj? || "T" !in v.fields || v.fields["T"].JFloat? || v.fields["T"].JStr?
    ensures Decode(v) == Rejected(InvalidTag)
  {
  }

  /** An integer tag outside {1001, 1002, 129} never yields a message or an
      error: the decoder panics with that tag. */
  lemma UnknownTagPanics(o: map<string, Json>, t: int)
    requires "T" in o && o["T"] == JInt(t) && I64_MIN <= t <= I64_MAX
    requires !IsKnownTag(t)
    ensures Decode(JObj(o)) == Panicked(t)
  {
  }
}
