/**
 * The get/set exchange with an HDHomeRun device: the fields of a request,
 * and the walk over the tags of the reply that finds the value, the device's
 * error message, or nothing.
 *
 * HDHomeRunPacket is not part of this model. Its wire format is taken to be
 * that of the HDHomeRun control protocol: a big-endian 16-bit packet type and
 * 16-bit payload length, then tag-length-value fields whose length is one
 * byte below 128 and otherwise two bytes, low seven bits first. The reply
 * buffer is a fixed-size array that is not zeroed between exchanges.
 */
module HDHomeRunGetSet {
  import opened JavaText

  const TYPE_GETSET_REQ: byte := 4
  const TYPE_GETSET_RPY: byte := 5
  const TAG_GETSET_NAME: byte := 0x03
  const TAG_GETSET_VALUE: byte := 0x04
  const TAG_ERROR_MESSAGE: byte := 0x05
  const TAG_GETSET_LOCKKEY: byte := 0x15

  // ---------------------------------------------------------------- requests

  datatype Field = NameField(key: string) | ValueField(value: string) | LockKeyField(lockkey: int)

  /** The fields of a request, in the order they are put: name, then value, then lock key. */
  function Request(key: string, value: Option<string>, lockkey: int): (r: seq<Field>)
    ensures |r| == 1 + (if value.Some? then 1 else 0) + (if lockkey != 0 then 1 else 0)
    ensures r[0] == NameField(key)
    ensures value.None? ==> forall k :: 0 <= k < |r| ==> !r[k].ValueField?
    ensures value.Some? ==> r[1] == ValueField(value.value)
    ensures lockkey == 0 ==> forall k :: 0 <= k < |r| ==> !r[k].LockKeyField?
    ensures lockkey != 0 ==> r[|r| - 1] == LockKeyField(lockkey)
  {
    [NameField(key)]
    + (if value.Some? then [ValueField(value.value)] else [])
    + (if lockkey != 0 then [LockKeyField(lockkey)] else [])
  }

  /** getVariable is setVariable with no value and lock key 0: the request names the key only. */
  lemma GetRequestNamesOnly(key: string)
    ensures Request(key, None, 0) == [NameField(key)]
  {
  }

  // ---------------------------------------------------------------- replies

  /** What setVariable gives back: a value, a GetSetException, null, or an unchecked exception. */
  datatype Outcome = Value(bytes: seq<byte>) | DeviceError(message: seq<byte>) | NoValue | Failure

  function U16(buf: seq<byte>, i: nat): int
    requires i + 2 <= |buf|
  {
    buf[i] as int * 256 + buf[i + 1] as int
  }

  /** A field length and the position after it. */
  function ReadLength(buf: seq<byte>, pos: nat): (r: (nat, nat))
    requires pos + 2 <= |buf|
    ensures pos + 1 <= r.1 <= pos + 2 && r.0 < 0x8000
  {
    if buf[pos] < 128 then (buf[pos], pos + 1)
    else (buf[pos] as int - 128 + buf[pos + 1] as int * 128, pos + 2)
  }

  /**
   * The tag walk from pos to limit. It goes on while more than four bytes
   * remain; a length that runs past the limit gives null; the first value
   * or error message ends it; a name or any other tag is skipped.
   */
  function Walk(buf: seq<byte>, pos: nat, limit: nat): (r: Outcome)
    requires pos <= limit <= |buf|
    ensures r.Value? || r.DeviceError? ==> pos + 4 < limit
    ensures r != Failure
    decreases limit - pos
  {
    if limit - pos <= 4 then NoValue
    else
      var tag := buf[pos];
      var (length, at) := ReadLength(buf, pos + 1);
      if at + length > limit then NoValue
      else if tag == TAG_GETSET_VALUE then Value(buf[at..at + length])
      else if tag == TAG_ERROR_MESSAGE then DeviceError(buf[at..at + length])
      else Walk(buf, at + length, limit)
  }

  /**
   * The reply after `received` bytes came in: nothing received is null; a
   * header cut short is a buffer underflow; a type other than GETSET_RPY is
   * null; a declared length that does not fit the buffer is an illegal
   * limit; otherwise the tags up to the declared length + 4 are walked.
   */
  function ParseReply(buf: seq<byte>, received: nat): (r: Outcome)
    requires received <= |buf|
    ensures received == 0 ==> r == NoValue
    ensures r.Value? || r.DeviceError? ==> 4 <= received && U16(buf, 0) == TYPE_GETSET_RPY as int
  {
    if received == 0 then NoValue
    else if received < 2 then Failure
    else if U16(buf, 0) != TYPE_GETSET_RPY as int then NoValue
    else if received < 4 then Failure
    else
      var limit := U16(buf, 2) + 4;
      if limit > |buf| then Failure
      else Walk(buf, 4, limit)
  }

  /** The tag walk as the loop over the buffer position. */
  method WalkTags(rx: array<byte>, limit: nat) returns (r: Outcome)
    requires 4 <= limit <= rx.Length
    ensures r == Walk(rx[..], 4, limit)
  {
    var pos := 4;
    while limit - pos > 4
      invariant 4 <= pos <= limit
      invariant Walk(rx[..], pos, limit) == Walk(rx[..], 4, limit)
      decreases limit - pos
    {
      var tag := rx[pos];
      var length: int;
      var at: int;
      if rx[pos + 1] < 128 {
        length, at := rx[pos + 1], pos + 2;
      } else {
        length, at := rx[pos + 1] as int - 128 + rx[pos + 2] as int * 128, pos + 3;
      }
      if at + length > limit {
        return NoValue;
      }
      if tag == TAG_GETSET_VALUE {
        return Value(rx[at..at + length]);
      } else if tag == TAG_ERROR_MESSAGE {
        return DeviceError(rx[at..at + length]);
      }
      pos := at + length;
    }
    return NoValue;
  }

  /**
   * setVariable after the exchange: the request it sent and the reply it
   * read from the first `received` bytes of the receive buffer.
   */
  method SetVariable(key: string, value: Option<string>, lockkey: int, rx: array<byte>, received: nat)
    returns (request: seq<Field>, r: Outcome)
    requires received <= rx.Length
    ensures request == Request(key, value, lockkey)
    ensures r == ParseReply(rx[..], received)
  {
    request := [NameField(key)];
    if value.Some? {
      request := request + [ValueField(value.value)];
    }
    if lockkey != 0 {
      request := request + [LockKeyField(lockkey)];
    }
    if received == 0 {
      return request, NoValue;
    } else if received < 2 {
      return request, Failure;
    }
    var packetType := rx[0] as int * 256 + rx[1] as int;
    if packetType != TYPE_GETSET_RPY as int {
      return request, NoValue;
    } else if received < 4 {
      return request, Failure;
    }
    var limit := rx[2] as int * 256 + rx[3] as int + 4;
    if limit > rx.Length {
      return request, Failure;
    }
    r := WalkTags(rx, limit);
  }

  method GetVariable(key: string, rx: array<byte>, received: nat) returns (request: seq<Field>, r: Outcome)
    requires received <= rx.Length
    ensures request == [NameField(key)]
    ensures r == ParseReply(rx[..], received)
  {
    request, r := SetVariable(key, None, 0, rx, received);
  }

  // ---------------------------------------------------------------- reply encoding

  /** The length prefix of a field. */
  function LengthBytes(n: nat): (b: seq<byte>)
    requires n < 0x8000
    ensures 1 <= |b| <= 2
  {
    if n < 128 then [n] else [n % 128 + 128, n / 128]
  }

  function Tlv(tag: byte, data: seq<byte>): (t: seq<byte>)
    requires |data| < 0x8000
    ensures |t| == 1 + |LengthBytes(|data|)| + |data|
  {
    [tag] + LengthBytes(|data|) + data
  }

  /** A reply packet: GETSET_RPY, the payload length, the payload. */
  function ReplyPacket(payload: seq<byte>): (p: seq<byte>)
    requires |payload| < 0x1_0000
    ensures |p| == 4 + |payload|
  {
    [0, TYPE_GETSET_RPY, |payload| / 256, |payload| % 256] + payload
  }

  /** A length prefix reads back as the length, wherever it sits. */
  lemma ReadLengthRoundTrip(buf: seq<byte>, pos: nat, n: nat)
    requires n < 0x8000 && pos + 2 <= |buf|
    requires buf[pos] == LengthBytes(n)[0]
    requires |LengthBytes(n)| == 2 ==> buf[pos + 1] == LengthBytes(n)[1]
    ensures ReadLength(buf, pos) == (n, pos + |LengthBytes(n)|)
  {
  }

  /** One skipped or final field of a walk, located inside the buffer. */
  lemma FieldAt(buf: seq<byte>, pos: nat, tag: byte, data: seq<byte>, limit: nat)
    requires |data| < 0x8000 && pos <= limit <= |buf| && pos + |Tlv(tag, data)| <= limit
    requires buf[pos..pos + |Tlv(tag, data)|] == Tlv(tag, data)
    requires limit - pos > 4
    ensures buf[pos] == tag
    ensures ReadLength(buf, pos + 1) == (|data|, pos + 1 + |LengthBytes(|data|)|)
    ensures buf[pos + 1 + |LengthBytes(|data|)|..pos + |Tlv(tag, data)|] == data
  {
    var t := Tlv(tag, data);
    var lb := LengthBytes(|data|);
    var w := buf[pos..pos + |t|];
    assert t[1..1 + |lb|] == lb;
    assert t[1 + |lb|..] == data;
    assert buf[pos] == w[0] == t[0];
    assert buf[pos + 1] == w[1] == lb[0];
    if |lb| == 2 {
      assert buf[pos + 2] == w[2] == lb[1];
    }
    ReadLengthRoundTrip(buf, pos + 1, |data|);
    assert buf[pos + 1 + |lb|..pos + |t|] == w[1 + |lb|..];
  }

  /** A reply packet followed by stale bytes parses as the walk over its payload. */
  lemma PacketWalk(payload: seq<byte>, stale: seq<byte>)
    requires |payload| < 0x1_0000
    ensures var buf := ReplyPacket(payload) + stale;
            buf[4..4 + |payload|] == payload
            && ParseReply(buf, |ReplyPacket(payload)|) == Walk(buf, 4, |ReplyPacket(payload)|)
  {
    var buf := ReplyPacket(payload) + stale;
    assert U16(buf, 0) == TYPE_GETSET_RPY as int;
    assert U16(buf, 2) + 4 == |ReplyPacket(payload)|;
  }

  /** The two fields of a two-field payload, located in the received buffer. */
  lemma PayloadParts(t1: seq<byte>, t2: seq<byte>, stale: seq<byte>)
    requires |t1 + t2| < 0x1_0000
    ensures var buf := ReplyPacket(t1 + t2) + stale;
            buf[4..4 + |t1|] == t1 && buf[4 + |t1|..4 + |t1| + |t2|] == t2
  {
    var buf := ReplyPacket(t1 + t2) + stale;
    assert buf[4..4 + |t1|] == (t1 + t2)[..|t1|];
    assert buf[4 + |t1|..4 + |t1| + |t2|] == (t1 + t2)[|t1|..];
  }

  /** The walk passes over a field whose tag is neither a value nor an error message. */
  lemma WalkSkips(buf: seq<byte>, pos: nat, tag: byte, data: seq<byte>, limit: nat)
    requires |data| < 0x8000 && pos <= limit <= |buf| && pos + |Tlv(tag, data)| <= limit
    requires buf[pos..pos + |Tlv(tag, data)|] == Tlv(tag, data)
    requires limit - pos > 4 && tag != TAG_GETSET_VALUE && tag != TAG_ERROR_MESSAGE
    ensures Walk(buf, pos, limit) == Walk(buf, pos + |Tlv(tag, data)|, limit)
  {
    FieldAt(buf, pos, tag, data, limit);
  }

  /** The walk stops at a value field and gives its data. */
  lemma WalkFindsValue(buf: seq<byte>, pos: nat, data: seq<byte>, limit: nat)
    requires |data| < 0x8000 && pos <= limit <= |buf| && pos + |Tlv(TAG_GETSET_VALUE, data)| <= limit
    requires buf[pos..pos + |Tlv(TAG_GETSET_VALUE, data)|] == Tlv(TAG_GETSET_VALUE, data)
    requires limit - pos > 4
    ensures Walk(buf, pos, limit) == Value(data)
  {
    FieldAt(buf, pos, TAG_GETSET_VALUE, data, limit);
  }

  /**
   * A reply echoing the name and carrying a value of three or more bytes
   * gives that value back, whatever stale bytes follow it in the buffer.
   */
  lemma NameThenValueReadsValue(name: seq<byte>, value: seq<byte>, stale: seq<byte>)
    requires |name| < 0x100 && 3 <= |value| < 0x100
    ensures var payload := Tlv(TAG_GETSET_NAME, name) + Tlv(TAG_GETSET_VALUE, value);
            var buf := ReplyPacket(payload) + stale;
            ParseReply(buf, |ReplyPacket(payload)|) == Value(value)
  {
    var t1 := Tlv(TAG_GETSET_NAME, name);
    var t2 := Tlv(TAG_GETSET_VALUE, value);
    var payload := t1 + t2;
    var buf := ReplyPacket(payload) + stale;
    var limit := |ReplyPacket(payload)|;
    PacketWalk(payload, stale);
    PayloadParts(t1, t2, stale);
    SkipThenValue(buf, 4, TAG_GETSET_NAME, name, value, limit);
  }

  /** A skipped field followed by a value field that ends at the limit gives that value. */
  lemma SkipThenValue(buf: seq<byte>, pos: nat, tag: byte, skipped: seq<byte>, value: seq<byte>, limit: nat)
    requires |skipped| < 0x8000 && |value| < 0x8000 && 3 <= |value|
    requires tag != TAG_GETSET_VALUE && tag != TAG_ERROR_MESSAGE
    requires limit == pos + |Tlv(tag, skipped)| + |Tlv(TAG_GETSET_VALUE, value)| <= |buf|
    requires buf[pos..pos + |Tlv(tag, skipped)|] == Tlv(tag, skipped)
    requires buf[pos + |Tlv(tag, skipped)|..limit] == Tlv(TAG_GETSET_VALUE, value)
    ensures Walk(buf, pos, limit) == Value(value)
  {
    var p2 := pos + |Tlv(tag, skipped)|;
    WalkSkips(buf, pos, tag, skipped, limit);
    WalkFindsValue(buf, p2, value, limit);
  }

  /** A value field of four bytes or fewer at the end of the payload is never read: the walk stops first. */
  lemma ShortLastValueIsMissed(value: seq<byte>, stale: seq<byte>)
    requires |value| <= 2
    ensures var buf := ReplyPacket(Tlv(TAG_GETSET_VALUE, value)) + stale;
            ParseReply(buf, |ReplyPacket(Tlv(TAG_GETSET_VALUE, value))|) == NoValue
  {
    var packet := ReplyPacket(Tlv(TAG_GETSET_VALUE, value));
    var buf := packet + stale;
    assert U16(buf, 0) == TYPE_GETSET_RPY as int;
    assert U16(buf, 2) + 4 == |packet|;
  }

  /** An error message field before any value raises the device's error. */
  lemma ErrorMessageRaises(message: seq<byte>, stale: seq<byte>)
    requires 3 <= |message| < 0x100
    ensures var buf := ReplyPacket(Tlv(TAG_ERROR_MESSAGE, message)) + stale;
            ParseReply(buf, |ReplyPacket(Tlv(TAG_ERROR_MESSAGE, message))|) == DeviceError(message)
  {
    var t := Tlv(TAG_ERROR_MESSAGE, message);
    var packet := ReplyPacket(t);
    var buf := packet + stale;
    assert U16(buf, 0) == TYPE_GETSET_RPY as int;
    assert U16(buf, 2) + 4 == |packet|;
    assert buf[4..4 + |t|] == t;
    FieldAt(buf, 4, TAG_ERROR_MESSAGE, message, |packet|);
  }
}
