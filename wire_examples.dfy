/** Worked instances of the decoder: the telemetry line of the crate's read
    test (src/lib.rs), and a line with two mistyped fields. */
module WireExamples {
  import opened JsonValues
  import opened Feedback

  /** The telemetry line of the read test, as a JSON object: "0" with no
      decimal point is an integer, the rest are floats. It has no "pan" and
      no "tilt". */
  const SampleLine: map<string, Json> := map[
    "T" := JInt(1001), "L" := JFloat(0.2), "R" := JFloat(0.6),
    "gx" := JFloat(0.3), "gy" := JFloat(0.4), "gz" := JInt(0),
    "ax" := JInt(0), "ay" := JInt(0), "az" := JInt(0),
    "r" := JInt(0), "p" := JInt(0), "y" := JInt(0),
    "q0" := JFloat(1.0), "q1" := JInt(0), "q2" := JInt(0), "q3" := JInt(0),
    "odl" := JInt(0), "odr" := JInt(0), "v" := JFloat(11.0)]

  lemma SampleValuesAreNumbers()
    ensures forall k :: k in SampleLine ==> IsNumber(SampleLine[k])
  {
  }

  lemma SampleNothingMistyped()
    ensures forall j :: 0 <= j < |BaseInfoSchema| ==> !Mistyped(SampleLine, BaseInfoSchema[j])
  {
    SampleValuesAreNumbers();
  }

  lemma SampleHasFieldsBeforePan()
    ensures forall j :: 0 <= j < 26 ==> !Missing(SampleLine, BaseInfoSchema[j])
  {
  }

  /** A BaseInfo object whose fields up to "pan" are all there and whose
      values are all numbers is rejected for lacking "pan". */
  lemma BaseInfoLackingPan(o: map<string, Json>)
    requires "T" in o && o["T"] == JInt(BASE_INFO_TAG)
    requires forall j :: 0 <= j < |BaseInfoSchema| ==> !Mistyped(o, BaseInfoSchema[j])
    requires forall j :: 0 <= j < 26 ==> !Missing(o, BaseInfoSchema[j])
    requires "pan" !in o
    ensures Decode(JObj(o)) == Rejected(MissingField("pan"))
  {
    SchemaErrorNamesFirstMissing(o, BaseInfoSchema, 26);
  }

  /** The sample line leaves out two required fields; the decoder reports
      the first of them in declaration order. */
  lemma SampleLineLacksPan()
    ensures Decode(JObj(SampleLine)) == Rejected(MissingField("pan"))
  {
    SampleNothingMistyped();
    SampleHasFieldsBeforePan();
    BaseInfoLackingPan(SampleLine);
  }

  /** The sample line with the two fields the struct requires added. */
  const CompletedLine: map<string, Json> := SampleLine["pan" := JInt(0)]["tilt" := JInt(0)]

  /** The record the read test expects, with the wrappers of the current
      struct: gx..az, rAngle, pAngle and q0..q3, odl, odr are plain numbers,
      pan and tilt are 0. */
  const CompletedRecord: BaseInfoData := BaseInfoData(
    0.2, 0.6, 0.3, 0.4, 0.0, 0.0, 0.0, 0.0,
    0.0, 0.0, Some(0.0),
    1.0, 0.0, 0.0, 0.0,
    0.0, 0.0, 11.0,
    None, None, None, None, None, None, None, None,
    0.0, 0.0)

  lemma CompletedValuesAreNumbers()
    ensures forall k :: k in CompletedLine ==> IsNumber(CompletedLine[k])
  {
  }

  lemma CompletedNothingMistyped()
    ensures forall j :: 0 <= j < |BaseInfoSchema| ==> !Mistyped(CompletedLine, BaseInfoSchema[j])
  {
    CompletedValuesAreNumbers();
  }

  lemma CompletedNothingMissing()
    ensures forall j :: 0 <= j < |BaseInfoSchema| ==> !Missing(CompletedLine, BaseInfoSchema[j])
  {
  }

  /** The line with "pan" and "tilt" added conforms to BaseInfo. */
  lemma CompletedConforms()
    ensures Conforms(CompletedLine, BaseInfoSchema)
  {
    CompletedNothingMistyped();
    CompletedNothingMissing();
  }

  lemma CompletedSlotsFrom0()
    ensures forall j :: 0 <= j < 4 ==>
      Slots(CompletedLine, BaseInfoSchema)[j] == BaseInfoSlots(CompletedRecord)[j]
  {
  }

  lemma CompletedSlotsFrom4()
    ensures forall j :: 4 <= j < 8 ==>
      Slots(CompletedLine, BaseInfoSchema)[j] == BaseInfoSlots(CompletedRecord)[j]
  {
  }

  lemma CompletedSlotsFrom8()
    ensures forall j :: 8 <= j < 12 ==>
      Slots(CompletedLine, BaseInfoSchema)[j] == BaseInfoSlots(CompletedRecord)[j]
  {
  }

  lemma CompletedSlotsFrom12()
    ensures forall j :: 12 <= j < 16 ==>
      Slots(CompletedLine, BaseInfoSchema)[j] == BaseInfoSlots(CompletedRecord)[j]
  {
  }

  lemma CompletedSlotsFrom16()
    ensures forall j :: 16 <= j < 20 ==>
      Slots(CompletedLine, BaseInfoSchema)[j] == BaseInfoSlots(CompletedRecord)[j]
  {
  }

  lemma CompletedSlotsFrom20()
    ensures forall j :: 20 <= j < 24 ==>
      Slots(CompletedLine, BaseInfoSchema)[j] == BaseInfoSlots(CompletedRecord)[j]
  {
  }

  lemma CompletedSlotsFrom24()
    ensures forall j :: 24 <= j < 28 ==>
      Slots(CompletedLine, BaseInfoSchema)[j] == BaseInfoSlots(CompletedRecord)[j]
  {
  }

  lemma CompletedSlots()
    ensures Slots(CompletedLine, BaseInfoSchema) == BaseInfoSlots(CompletedRecord)
  {
    CompletedSlotsFrom0();
    CompletedSlotsFrom4();
    CompletedSlotsFrom8();
    CompletedSlotsFrom12();
    CompletedSlotsFrom16();
    CompletedSlotsFrom20();
    CompletedSlotsFrom24();
  }

  /** With "pan" and "tilt" present the line decodes: the wheel speeds, the
      gyro and the voltage are the line's numbers, the integer zeros become
      0.0, and every optional field the line leaves out is None. */
  lemma CompletedLineDecodes()
    ensures Decode(JObj(CompletedLine)) == Decoded(BaseInfo(CompletedRecord))
  {
    CompletedConforms();
    CompletedSlots();
    BaseInfoDecodesTo(CompletedLine, CompletedRecord);
  }

  /** An IMU line with two fields of the wrong type. */
  const TwoMistyped: map<string, Json> := map["T" := JInt(IMU_TAG), "gx" := JStr("a"), "ax" := JStr("b")]

  /** Of two mistyped fields, the error raised is the one for the value
      under the least key: "ax" comes before "gx" in the object, though gx
      is declared first. */
  lemma LeastMistypedKeyIsReported()
    ensures Decode(JObj(TwoMistyped)) == Rejected(InvalidType("ax"))
  {
    var o := TwoMistyped;
    KeyBeforeIrreflexive("ax");
    assert forall j :: 0 <= j < |IMUSchema| && Mistyped(o, IMUSchema[j]) ==> j == 0 || j == 3;
    SchemaErrorNamesFirstMistyped(o, IMUSchema, 3);
    assert TagOf(JObj(o)) == Some(IMU_TAG);
  }
}
