/** The line framer (src/lib.rs): read_feedback takes one newline-terminated
    line from a buffered byte stream and decodes it; write_command encodes a
    command and writes it followed by one newline.

    The text layer (serde_json::to_string and serde_json::from_str, UTF-8
    included) is passed in as two functions: `serialize` turns a JSON value
    into bytes or fails, `parse` turns one line of bytes into a JSON value or
    fails. */
module Framing {
  import opened JsonValues
  import opened Commands
  import opened Feedback

  newtype byte = b: int | 0 <= b < 256

  const NEWLINE: byte := 10

  // ----- Lines -----

  /** The number of bytes one read_line takes from the front of s: up to and
      including the first newline, or all of s when it has none. */
  function LineLength(s: seq<byte>): (n: nat)
    ensures n <= |s|
    ensures n == 0 <==> s == []
    ensures 0 < n ==> s[n - 1] == NEWLINE || n == |s|
    ensures forall i :: 0 <= i < n - 1 ==> s[i] != NEWLINE
    decreases |s|
  {
    if s == [] then 0
    else if s[0] == NEWLINE then 1
    else
      var n := 1 + LineLength(s[1..]);
      assert forall i :: 1 <= i < n - 1 ==> s[i] == s[1..][i - 1];
      n
  }

  /** The properties of LineLength determine it. */
  lemma LineLengthUnique(s: seq<byte>, n: nat)
    requires n <= |s|
    requires n == 0 <==> s == []
    requires 0 < n ==> s[n - 1] == NEWLINE || n == |s|
    requires forall i :: 0 <= i < n - 1 ==> s[i] != NEWLINE
    ensures n == LineLength(s)
  {
  }

  /** A body without newlines, then a newline: one line, whatever follows. */
  lemma FramedLineLength(body: seq<byte>, rest: seq<byte>)
    requires NEWLINE !in body
    ensures LineLength(body + [NEWLINE] + rest) == |body| + 1
  {
    var s := body + [NEWLINE] + rest;
    assert s[|body|] == NEWLINE;
    assert forall i :: 0 <= i < |body| ==> s[i] == body[i];
    LineLengthUnique(s, |body| + 1);
  }

  // ----- Reading -----

  /** What one read_feedback call returns. NoData is the zero-byte read;
      Unparsable a line that is not one JSON value; Read carries the
      decoder's outcome, a message, an error or a panic. */
  datatype ReadResult =
    | NoData
    | Unparsable
    | Read(outcome: Outcome)

  /** serde_json::from_str::<FeedbackMessage> on one line. */
  function DecodeLine(line: seq<byte>, parse: seq<byte> -> Option<Json>): (r: ReadResult)
    ensures r != NoData
    ensures r == Unparsable <==> parse(line).None?
  {
    match parse(line)
    case None => Unparsable
    case Some(v) => Read(Decode(v))
  }

  /** What read_feedback returns when the unread part of the stream is rest. */
  function ReadOutcome(rest: seq<byte>, parse: seq<byte> -> Option<Json>): ReadResult {
    var n := LineLength(rest);
    if n == 0 then NoData else DecodeLine(rest[..n], parse)
  }

  /** A buffered reader over an in-memory stream: data is what the stream
      will ever deliver, pos how much of it has been consumed. */
  class FeedbackReader {
    const data: seq<byte>
    var pos: nat

    ghost predicate Valid()
      reads this
    {
      pos <= |data|
    }

    /** The bytes not yet consumed. */
    function Unread(): seq<byte>
      reads this
      requires Valid()
    {
      data[pos..]
    }

    constructor (data: seq<byte>)
      ensures Valid() && this.data == data && pos == 0
    {
      this.data := data;
      pos := 0;
    }

    /** read_line: consumes and returns the next line, terminator included,
        or the rest of the stream when no newline is left. */
    method ReadLine() returns (line: seq<byte>)
      requires Valid()
      modifies this
      ensures Valid()
      ensures line == old(Unread())[..LineLength(old(Unread()))]
      ensures pos == old(pos) + |line|
    {
      var i := pos;
      while i < |data| && data[i] != NEWLINE
        invariant pos <= i <= |data|
        invariant forall j :: pos <= j < i ==> data[j] != NEWLINE
      {
        i := i + 1;
      }
      if i < |data| {
        i := i + 1;
      }
      LineLengthUnique(data[pos..], i - pos);
      line := data[pos..i];
      pos := i;
    }

    /** read_feedback: reads one line, rejects a zero-byte read, and decodes
        the line. The line is consumed whether or not it decodes. */
    method ReadFeedback(parse: seq<byte> -> Option<Json>) returns (r: ReadResult)
      requires Valid()
      modifies this
      ensures Valid()
      ensures pos == old(pos) + LineLength(old(Unread()))
      ensures r == ReadOutcome(old(Unread()), parse)
    {
      var line := ReadLine();
      if |line| == 0 {
        return NoData;
      }
      r := DecodeLine(line, parse);
    }
  }

  /** A read yields NoData exactly when the stream has nothing left; a
      non-empty line is always decoded (into a message, an error or a panic). */
  lemma NoDataOnlyAtEnd(rest: seq<byte>, parse: seq<byte> -> Option<Json>)
    ensures ReadOutcome(rest, parse) == NoData <==> rest == []
  {
  }

  /** One call reads exactly one line: a newline-terminated line at the front
      of the stream decodes the same whatever follows it, and exactly its
      bytes are consumed. */
  lemma OneLinePerRead(body: seq<byte>, rest: seq<byte>, parse: seq<byte> -> Option<Json>)
    requires NEWLINE !in body
    ensures LineLength(body + [NEWLINE] + rest) == |body| + 1
    ensures ReadOutcome(body + [NEWLINE] + rest, parse) == DecodeLine(body + [NEWLINE], parse)
  {
    FramedLineLength(body, rest);
    assert (body + [NEWLINE] + rest)[..|body| + 1] == body + [NEWLINE];
  }

  // ----- Writing -----

  /** What write_command returns: the byte count written, or the
      serialisation error (in which case nothing was written). */
  datatype WriteResult =
    | Written(count: nat)
    | SerializeFailed

  /** A writer that appends to an in-memory buffer, as Cursor<Vec<u8>> does
      when it is written from the end. Every write is a full write. */
  class CommandWriter {
    var buf: seq<byte>

    constructor ()
      ensures buf == []
    {
      buf := [];
    }

    /** One write call: appends all the bytes and reports how many. */
    method Write(bytes: seq<byte>) returns (n: nat)
      modifies this
      ensures buf == old(buf) + bytes
      ensures n == |bytes|
    {
      buf := buf + bytes;
      n := |bytes|;
    }

    /** write_command: serialises the command; on failure writes nothing,
        otherwise writes the body, then one newline, and returns the sum of
        the two counts, which is how much the buffer grew. */
    method WriteCommand(msg: CommandMessage, serialize: Json -> Option<seq<byte>>) returns (r: WriteResult)
      modifies this
      ensures serialize(Encode(msg)).None? ==> r == SerializeFailed && buf == old(buf)
      ensures serialize(Encode(msg)).Some? ==>
        var body := serialize(Encode(msg)).value;
        buf == old(buf) + body + [NEWLINE] && r == Written(|body| + 1)
      ensures r.Written? ==> |buf| == |old(buf)| + r.count
    {
      var json := serialize(Encode(msg));
      if json.None? {
        return SerializeFailed;
      }
      var bytesBody := Write(json.value);
      var bytesTerminator := Write([NEWLINE]);
      r := Written(bytesBody + bytesTerminator);
    }
  }

  // ----- Writing then reading back -----

  /** The text layer is compact and faithful for one value: its serialisation
      holds no raw newline and parses back, terminator and all, to the value. */
  predicate CompactFor(serialize: Json -> Option<seq<byte>>, parse: seq<byte> -> Option<Json>, v: Json) {
    serialize(v).Some? ==>
      NEWLINE !in serialize(v).value && parse(serialize(v).value + [NEWLINE]) == Some(v)
  }

  /** Writes a command into a fresh buffer and reads the buffer back: the
      one read takes exactly the written line, and a second read finds the
      stream at its end. When serialisation fails nothing is written and the
      first read finds no data. */
  method WriteThenRead(msg: CommandMessage, serialize: Json -> Option<seq<byte>>,
                       parse: seq<byte> -> Option<Json>)
    returns (written: WriteResult, line: seq<byte>, first: ReadResult, second: ReadResult)
    requires serialize(Encode(msg)).Some? ==> NEWLINE !in serialize(Encode(msg)).value
    ensures serialize(Encode(msg)).None? ==>
      written == SerializeFailed && line == [] && first == NoData
    ensures serialize(Encode(msg)).Some? ==>
      var body := serialize(Encode(msg)).value;
      written == Written(|body| + 1) && line == body + [NEWLINE] &&
      first == DecodeLine(body + [NEWLINE], parse)
    ensures second == NoData
    ensures CompactFor(serialize, parse, Encode(msg)) && written.Written? ==>
      first == Read(Decode(Encode(msg)))
  {
    var writer := new CommandWriter();
    written := writer.WriteCommand(msg, serialize);
    var reader := new FeedbackReader(writer.buf);
    if written.Written? {
      OneLinePerRead(serialize(Encode(msg)).value, [], parse);
      assert writer.buf == serialize(Encode(msg)).value + [NEWLINE] + [];
    }
    line := reader.data[..LineLength(reader.data)];
    first := reader.ReadFeedback(parse);
    assert reader.pos == |reader.data|;
    second := reader.ReadFeedback(parse);
  }

  /** The board's command table and the feedback table are distinct: a
      command line read back as feedback never decodes, except that the
      SetIMUOffset opcode 129 is also the IMUOffset tag, under which the same
      nine offsets are read. Every other command's opcode is an unknown
      feedback tag, on which the decoder panics. */
  lemma CommandReadAsFeedback(c: CommandMessage)
    ensures c.SetIMUOffset? ==>
      var a := c.offset;
      Decode(Encode(c)) == Decoded(IMUOffset(IMUOffsetData(a.gx, a.gy, a.gz, a.ax, a.ay, a.az, a.cx, a.cy, a.cz)))
    ensures !c.SetIMUOffset? ==> Decode(Encode(c)) == Panicked(Opcode(c) as int)
  {
    var v := Encode(c);
    assert TagOf(v) == Some(OpcodeTable(VariantOf(c)) as int);
    if c.SetIMUOffset? {
      SetIMUOffsetReadAsFeedback(c.offset);
    }
  }

  lemma SetIMUOffsetReadAsFeedback(a: IMUOffsetArgs)
    ensures Decode(Encode(SetIMUOffset(a)))
         == Decoded(IMUOffset(IMUOffsetData(a.gx, a.gy, a.gz, a.ax, a.ay, a.az, a.cx, a.cy, a.cz)))
  {
    var v := Encode(SetIMUOffset(a));
    IMUOffsetGyroAt(a);
    IMUOffsetAccelAt(a);
    IMUOffsetCompassAt(a);
    DecodeIMUOffsetFloats(v.fields, a.gx, a.gy, a.gz, a.ax, a.ay, a.az, a.cx, a.cy, a.cz);
    assert TagOf(v) == Some(IMU_OFFSET_TAG);
  }
}
