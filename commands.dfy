/** Outbound commands: the closed set of command variants, their fixed
    opcodes, and their encoding as one flat JSON object carrying the opcode
    under "T" beside the renamed payload fields (src/messages.rs). */
module Commands {
  import opened JsonValues

  /** Rust's i16, the type of opcodes and of the integer payload fields. */
  newtype i16 = x: int | -0x8000 <= x < 0x8000

  // Payload records. Each tag() ignores its receiver: the opcode belongs to
  // the record type, not to the values it carries.

  datatype SpeedArgs = SpeedArgs(l: Num, r: Num) {
    function Tag(): i16 { 1 }
  }

  datatype PWMArgs = PWMArgs(l: i16, r: i16) {
    function Tag(): i16 { 11 }
  }

  datatype RosCtrlArgs = RosCtrlArgs(x: Num, z: Num) {
    function Tag(): i16 { 13 }
  }

  datatype MotorPIDArgs = MotorPIDArgs(p: Num, i: Num, d: Num, l: Num) {
    function Tag(): i16 { 2 }
  }

  datatype OLEDScreenControlArgs = OLEDScreenControlArgs(text: string) {
    function Tag(): i16 { 3 }
  }

  datatype BaseFeedbackFlowArgs = BaseFeedbackFlowArgs(cmd: i16) {
    function Tag(): i16 { 131 }
  }

  datatype IMUOffsetArgs = IMUOffsetArgs(
    gx: Num, gy: Num, gz: Num,
    ax: Num, ay: Num, az: Num,
    cx: Num, cy: Num, cz: Num)
  {
    function Tag(): i16 { 129 }
  }

  datatype CommandMessage =
    | EmergencyStop
    | Speed(speed: SpeedArgs)
    | PWM(pwm: PWMArgs)
    | RosCtrl(rosCtrl: RosCtrlArgs)
    | MotorPID(pid: MotorPIDArgs)
    | OLEDScreenControl(screen: OLEDScreenControlArgs)
    | OLEDScreenRestore
    | GetIMUData
    | CalibrateIMU
    | GetIMUOffset
    | SetIMUOffset(offset: IMUOffsetArgs)
    | GetBaseFeedback
    | SetBaseFeedbackFlow(flow: BaseFeedbackFlowArgs)

  /** The variant of a command, with its payload forgotten. */
  datatype Variant =
    | EmergencyStopVariant
    | SpeedVariant
    | PWMVariant
    | RosCtrlVariant
    | MotorPIDVariant
    | OLEDScreenControlVariant
    | OLEDScreenRestoreVariant
    | GetIMUDataVariant
    | CalibrateIMUVariant
    | GetIMUOffsetVariant
    | SetIMUOffsetVariant
    | GetBaseFeedbackVariant
    | SetBaseFeedbackFlowVariant

  function VariantOf(c: CommandMessage): Variant {
    match c
    case EmergencyStop => EmergencyStopVariant
    case Speed(_) => SpeedVariant
    case PWM(_) => PWMVariant
    case RosCtrl(_) => RosCtrlVariant
    case MotorPID(_) => MotorPIDVariant
    case OLEDScreenControl(_) => OLEDScreenControlVariant
    case OLEDScreenRestore => OLEDScreenRestoreVariant
    case GetIMUData => GetIMUDataVariant
    case CalibrateIMU => CalibrateIMUVariant
    case GetIMUOffset => GetIMUOffsetVariant
    case SetIMUOffset(_) => SetIMUOffsetVariant
    case GetBaseFeedback => GetBaseFeedbackVariant
    case SetBaseFeedbackFlow(_) => SetBaseFeedbackFlowVariant
  }

  /** The opcode table, one opcode per variant: the literals of the
      serializer's match (src/messages.rs:147-159) and the payload records'
      tag() values (src/messages.rs:11-93). */
  function OpcodeTable(v: Variant): i16 {
    match v
    case EmergencyStopVariant => 0
    case SpeedVariant => 1
    case MotorPIDVariant => 2
    case OLEDScreenControlVariant => 3
    case PWMVariant => 11
    case RosCtrlVariant => 13
    case GetIMUDataVariant => 126
    case CalibrateIMUVariant => 127
    case GetIMUOffsetVariant => 128
    case SetIMUOffsetVariant => 129
    case GetBaseFeedbackVariant => 130
    case SetBaseFeedbackFlowVariant => 131
    case OLEDScreenRestoreVariant => -3
  }

  /** The table read backwards: which variant, if any, owns an opcode. */
  function VariantOfOpcode(op: int): Option<Variant> {
    if op == 0 then Some(EmergencyStopVariant)
    else if op == 1 then Some(SpeedVariant)
    else if op == 2 then Some(MotorPIDVariant)
    else if op == 3 then Some(OLEDScreenControlVariant)
    else if op == 11 then Some(PWMVariant)
    else if op == 13 then Some(RosCtrlVariant)
    else if op == 126 then Some(GetIMUDataVariant)
    else if op == 127 then Some(CalibrateIMUVariant)
    else if op == 128 then Some(GetIMUOffsetVariant)
    else if op == 129 then Some(SetIMUOffsetVariant)
    else if op == 130 then Some(GetBaseFeedbackVariant)
    else if op == 131 then Some(SetBaseFeedbackFlowVariant)
    else if op == -3 then Some(OLEDScreenRestoreVariant)
    else None
  }

  /** The opcode placed under "T", as the serializer's match chooses it:
      the payload's tag() where there is a payload, a literal otherwise.
      It is the table's entry for the command's variant. */
  function Opcode(c: CommandMessage): (op: i16)
    ensures op == OpcodeTable(VariantOf(c))
  {
    match c
    case EmergencyStop => 0
    case Speed(t) => t.Tag()
    case PWM(t) => t.Tag()
    case RosCtrl(t) => t.Tag()
    case MotorPID(t) => t.Tag()
    case OLEDScreenControl(t) => t.Tag()
    case OLEDScreenRestore => -3
    case GetIMUData => 126
    case CalibrateIMU => 127
    case GetIMUOffset => 128
    case SetIMUOffset(t) => t.Tag()
    case GetBaseFeedback => 130
    case SetBaseFeedbackFlow(t) => t.Tag()
  }

  /** Whether a variant carries a payload record. */
  predicate HasPayload(v: Variant) {
    v in {SpeedVariant, PWMVariant, RosCtrlVariant, MotorPIDVariant,
          OLEDScreenControlVariant, SetIMUOffsetVariant, SetBaseFeedbackFlowVariant}
  }

  /** The wire keys of each variant's payload fields, as renamed. */
  function WireKeys(v: Variant): set<string> {
    match v
    case SpeedVariant => {"L", "R"}
    case PWMVariant => {"L", "R"}
    case RosCtrlVariant => {"X", "Z"}
    case MotorPIDVariant => {"P", "I", "D", "L"}
    case OLEDScreenControlVariant => {"Text"}
    case SetIMUOffsetVariant => {"gx", "gy", "gz", "ax", "ay", "az", "cx", "cy", "cz"}
    case SetBaseFeedbackFlowVariant => {"cmd"}
    case _ => {}
  }

  /** The payload record's own serialisation: its renamed fields, one JSON
      scalar each. Unit variants serialise to no fields at all. */
  function Payload(c: CommandMessage): map<string, Json> {
    match c
    case Speed(a) => map["L" := JFloat(a.l), "R" := JFloat(a.r)]
    case PWM(a) => map["L" := JInt(a.l as int), "R" := JInt(a.r as int)]
    case RosCtrl(a) => map["X" := JFloat(a.x), "Z" := JFloat(a.z)]
    case MotorPID(a) =>
      map["P" := JFloat(a.p), "I" := JFloat(a.i), "D" := JFloat(a.d), "L" := JFloat(a.l)]
    case OLEDScreenControl(a) => map["Text" := JStr(a.text)]
    case SetIMUOffset(a) =>
      map["gx" := JFloat(a.gx), "gy" := JFloat(a.gy), "gz" := JFloat(a.gz),
          "ax" := JFloat(a.ax), "ay" := JFloat(a.ay), "az" := JFloat(a.az),
          "cx" := JFloat(a.cx), "cy" := JFloat(a.cy), "cz" := JFloat(a.cz)]
    case SetBaseFeedbackFlow(a) => map["cmd" := JInt(a.cmd as int)]
    case _ => map[]
  }

  /** A payload's keys are exactly its variant's wire keys, and each holds
      a float, an integer or a string. */
  lemma PayloadShape(c: CommandMessage)
    ensures Payload(c).Keys == WireKeys(VariantOf(c))
    ensures forall k :: k in Payload(c) ==>
      Payload(c)[k].JFloat? || Payload(c)[k].JInt? || Payload(c)[k].JStr?
  {
  }

  /** The TypedMessage wrapper: the opcode under "T" and, flattened beside
      it, the payload's fields. The result is one flat object whose keys are
      "T" and exactly the variant's wire keys, and whose "T" holds the
      variant's opcode. */
  function Encode(c: CommandMessage): (r: Json)
    ensures r.JObj?
    ensures r.fields.Keys == {"T"} + WireKeys(VariantOf(c))
    ensures r.fields["T"] == JInt(OpcodeTable(VariantOf(c)) as int)
    ensures forall k :: k in r.fields ==> IsScalar(r.fields[k])
  {
    JObj(Payload(c)["T" := JInt(Opcode(c) as int)])
  }

  // ----- Reference inverse of the encoding (not part of the crate) -----

  function FloatAt(o: map<string, Json>, k: string): Option<Num> {
    if k in o && o[k].JFloat? then Some(o[k].x) else None
  }

  function I16At(o: map<string, Json>, k: string): Option<i16> {
    if k in o && o[k].JInt? && -0x8000 <= o[k].i < 0x8000 then Some(o[k].i as i16) else None
  }

  function TextAt(o: map<string, Json>, k: string): Option<string> {
    if k in o && o[k].JStr? then Some(o[k].s) else None
  }

  /** Reads a command back from its wire object, as the board does: the
      opcode selects the variant, whose payload is read from its wire keys. */
  function CommandOf(v: Json): Option<CommandMessage> {
    if !v.JObj? || "T" !in v.fields || !v.fields["T"].JInt? then None
    else
      var o := v.fields;
      match VariantOfOpcode(o["T"].i)
      case None => None
      case Some(variant) =>
        match variant
        case EmergencyStopVariant => Some(EmergencyStop)
        case SpeedVariant =>
          var l :- FloatAt(o, "L"); var r :- FloatAt(o, "R");
          Some(Speed(SpeedArgs(l, r)))
        case PWMVariant =>
          var l :- I16At(o, "L"); var r :- I16At(o, "R");
          Some(PWM(PWMArgs(l, r)))
        case RosCtrlVariant =>
          var x :- FloatAt(o, "X"); var z :- FloatAt(o, "Z");
          Some(RosCtrl(RosCtrlArgs(x, z)))
        case MotorPIDVariant =>
          var p :- FloatAt(o, "P"); var i :- FloatAt(o, "I");
          var d :- FloatAt(o, "D"); var l :- FloatAt(o, "L");
          Some(MotorPID(MotorPIDArgs(p, i, d, l)))
        case OLEDScreenControlVariant =>
          var text :- TextAt(o, "Text");
          Some(OLEDScreenControl(OLEDScreenControlArgs(text)))
        case OLEDScreenRestoreVariant => Some(OLEDScreenRestore)
        case GetIMUDataVariant => Some(GetIMUData)
        case CalibrateIMUVariant => Some(CalibrateIMU)
        case GetIMUOffsetVariant => Some(GetIMUOffset)
        case SetIMUOffsetVariant =>
          var gx :- FloatAt(o, "gx"); var gy :- FloatAt(o, "gy"); var gz :- FloatAt(o, "gz");
          var ax :- FloatAt(o, "ax"); var ay :- FloatAt(o, "ay"); var az :- FloatAt(o, "az");
          var cx :- FloatAt(o, "cx"); var cy :- FloatAt(o, "cy"); var cz :- FloatAt(o, "cz");
          Some(SetIMUOffset(IMUOffsetArgs(gx, gy, gz, ax, ay, az, cx, cy, cz)))
        case GetBaseFeedbackVariant => Some(GetBaseFeedback)
        case SetBaseFeedbackFlowVariant =>
          var cmd :- I16At(o, "cmd");
          Some(SetBaseFeedbackFlow(BaseFeedbackFlowArgs(cmd)))
  }

  // ----- Properties -----

  /** Each payload record's tag() is its variant's entry in the opcode
      table, whatever the record holds. */
  lemma PayloadTagsFollowTable(s: SpeedArgs, p: PWMArgs, r: RosCtrlArgs, m: MotorPIDArgs,
                               o: OLEDScreenControlArgs, f: BaseFeedbackFlowArgs, i: IMUOffsetArgs)
    ensures s.Tag() == OpcodeTable(SpeedVariant) && p.Tag() == OpcodeTable(PWMVariant)
    ensures r.Tag() == OpcodeTable(RosCtrlVariant) && m.Tag() == OpcodeTable(MotorPIDVariant)
    ensures o.Tag() == OpcodeTable(OLEDScreenControlVariant)
    ensures f.Tag() == OpcodeTable(SetBaseFeedbackFlowVariant)
    ensures i.Tag() == OpcodeTable(SetIMUOffsetVariant)
  {
  }

  /** Commands of the same variant get the same opcode, whatever their
      payloads hold. */
  lemma OpcodeIgnoresPayload(c1: CommandMessage, c2: CommandMessage)
    requires VariantOf(c1) == VariantOf(c2)
    ensures Opcode(c1) == Opcode(c2)
  {
  }

  /** The opcode table is injective, and VariantOfOpcode is its inverse:
      an opcode belongs to a variant exactly when the table gives it that
      opcode. */
  lemma OpcodeTableInverse(v: Variant, op: int)
    ensures VariantOfOpcode(op) == Some(v) <==> OpcodeTable(v) as int == op
  {
  }

  lemma OpcodeInjective(c1: CommandMessage, c2: CommandMessage)
    ensures Opcode(c1) == Opcode(c2) <==> VariantOf(c1) == VariantOf(c2)
  {
    OpcodeTableInverse(VariantOf(c1), Opcode(c2) as int);
    OpcodeTableInverse(VariantOf(c2), Opcode(c2) as int);
  }

  /** No payload field is renamed to "T", so flattening never hides or
      duplicates the opcode; payload-free variants are exactly those whose
      wire keys are empty. */
  lemma WireKeysAvoidTag(v: Variant)
    ensures "T" !in WireKeys(v)
    ensures HasPayload(v) <==> WireKeys(v) != {}
  {
    match v
    case SpeedVariant => assert "L" in WireKeys(v);
    case PWMVariant => assert "L" in WireKeys(v);
    case RosCtrlVariant => assert "X" in WireKeys(v);
    case MotorPIDVariant => assert "P" in WireKeys(v);
    case OLEDScreenControlVariant => assert "Text" in WireKeys(v);
    case SetIMUOffsetVariant => assert "gx" in WireKeys(v);
    case SetBaseFeedbackFlowVariant => assert "cmd" in WireKeys(v);
    case _ =>
  }

  /** A command without payload encodes to the object {"T": opcode} alone. */
  lemma PayloadFreeEncodesTagOnly(c: CommandMessage)
    requires !HasPayload(VariantOf(c))
    ensures Encode(c) == JObj(map["T" := JInt(OpcodeTable(VariantOf(c)) as int)])
  {
    WireKeysAvoidTag(VariantOf(c));
    var e := Encode(c).fields;
    var m := map["T" := JInt(OpcodeTable(VariantOf(c)) as int)];
    assert e.Keys == m.Keys;
  }

  /** The encoding loses nothing: reading the object back gives the command. */
  lemma {:induction false} EncodeRoundTrip(c: CommandMessage)
    ensures CommandOf(Encode(c)) == Some(c)
  {
    var o := Encode(c).fields;
    OpcodeTableInverse(VariantOf(c), Opcode(c) as int);
    assert VariantOfOpcode(o["T"].i) == Some(VariantOf(c));
    match c
    case Speed(a) =>
      assert FloatAt(o, "L") == Some(a.l) && FloatAt(o, "R") == Some(a.r);
    case PWM(a) =>
      assert I16At(o, "L") == Some(a.l) && I16At(o, "R") == Some(a.r);
    case RosCtrl(a) =>
      assert FloatAt(o, "X") == Some(a.x) && FloatAt(o, "Z") == Some(a.z);
    case MotorPID(a) =>
      assert FloatAt(o, "P") == Some(a.p) && FloatAt(o, "I") == Some(a.i);
      assert FloatAt(o, "D") == Some(a.d) && FloatAt(o, "L") == Some(a.l);
    case OLEDScreenControl(a) =>
      assert TextAt(o, "Text") == Some(a.text);
    case SetIMUOffset(a) =>
      SetIMUOffsetRoundTrip(a);
    case SetBaseFeedbackFlow(a) =>
      assert I16At(o, "cmd") == Some(a.cmd);
    case _ =>
  }

  lemma SetIMUOffsetRoundTrip(a: IMUOffsetArgs)
    ensures CommandOf(Encode(SetIMUOffset(a))) == Some(SetIMUOffset(a))
  {
    var o := Encode(SetIMUOffset(a)).fields;
    assert VariantOfOpcode(o["T"].i) == Some(SetIMUOffsetVariant);
    IMUOffsetGyroAt(a);
    IMUOffsetAccelAt(a);
    IMUOffsetCompassAt(a);
  }

  lemma IMUOffsetGyroAt(a: IMUOffsetArgs)
    ensures var o := Encode(SetIMUOffset(a)).fields;
      FloatAt(o, "gx") == Some(a.gx) && FloatAt(o, "gy") == Some(a.gy) && FloatAt(o, "gz") == Some(a.gz)
  {
  }

  lemma IMUOffsetAccelAt(a: IMUOffsetArgs)
    ensures var o := Encode(SetIMUOffset(a)).fields;
      FloatAt(o, "ax") == Some(a.ax) && FloatAt(o, "ay") == Some(a.ay) && FloatAt(o, "az") == Some(a.az)
  {
  }

  lemma IMUOffsetCompassAt(a: IMUOffsetArgs)
    ensures var o := Encode(SetIMUOffset(a)).fields;
      FloatAt(o, "cx") == Some(a.cx) && FloatAt(o, "cy") == Some(a.cy) && FloatAt(o, "cz") == Some(a.cz)
  {
  }

  /** Distinct commands have distinct encodings. */
  lemma EncodeInjective(c1: CommandMessage, c2: CommandMessage)
    requires Encode(c1) == Encode(c2)
    ensures c1 == c2
  {
    EncodeRoundTrip(c1);
    EncodeRoundTrip(c2);
  }

  /** The wire object of a Speed command with both wheels at 0.5. */
  lemma SpeedExample()
    ensures Encode(Speed(SpeedArgs(0.5, 0.5)))
         == JObj(map["T" := JInt(1), "L" := JFloat(0.5), "R" := JFloat(0.5)])
  {
  }
}
