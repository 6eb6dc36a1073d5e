/** The MQTT wire format: remaining lengths (section 2.2.3 of MQTT Version 3.1.1) and PUBLISH packets
    (section 3.3), as written by a subscription and as read by the connection loop. */
module Mqtt {
  import opened Messages
  import opened Bytes

  const PACKET_PUBLISH := 3
  const MAX_PACKET_SIZE := 0x20_0000
  const MAX_REMAINING_LENGTH := 268435455

  datatype Read<+T> = Read(value: T, rest: seq<Byte>) | Failed

  // ---------------------------------------------------------------------------
  // Remaining length
  // ---------------------------------------------------------------------------

  /** Seven bits to a byte, the least significant first; the top bit says that more follow. */
  function EncodeLength(value: nat): seq<Byte> {
    if value < 128 then [value as Byte] else [(128 + value % 128) as Byte] + EncodeLength(value / 128)
  }

  /** A value read so far, and what a multiplier makes of the rest. */
  function Scaled(value: nat, multiplier: nat, r: Read<nat>): Read<nat> {
    match r
    case Failed => Failed
    case Read(v, rest) => Read(value + multiplier * v, rest)
  }

  /** A length in at most `k` bytes. */
  function DecodeLength(s: seq<Byte>, k: nat): Read<nat> {
    if k == 0 || s == [] then Failed
    else if s[0] < 128 then Read(s[0] as nat, s[1..])
    else Scaled(s[0] as nat - 128, 128, DecodeLength(s[1..], k - 1))
  }

  function Pow128(k: nat): nat {
    if k == 0 then 1 else 128 * Pow128(k - 1)
  }

  lemma Pow128Values()
    ensures Pow128(1) == 128 && Pow128(2) == 16384 && Pow128(3) == 2097152 && Pow128(4) == MAX_REMAINING_LENGTH + 1
  {
    assert Pow128(1) == 128 && Pow128(2) == 16384 && Pow128(3) == 2097152;
  }

  /** A value that fits in `k` groups of seven bits is read back from `k` bytes, a larger one is not. */
  lemma {:induction false} LengthRoundTripIn(value: nat, k: nat, rest: seq<Byte>)
    requires k > 0
    ensures DecodeLength(EncodeLength(value) + rest, k) == if value < Pow128(k) then Read(value, rest) else Failed
    ensures value < Pow128(k) <==> |EncodeLength(value)| <= k
  {
    var s := EncodeLength(value) + rest;
    if value < 128 {
      assert s[1..] == rest && s[0] as nat == value;
      PowAtLeast(k);
    } else {
      var first := (128 + value % 128) as Byte;
      assert s == [first] + (EncodeLength(value / 128) + rest);
      assert s[1..] == EncodeLength(value / 128) + rest;
      if k == 1 {
        LengthNotEmpty(value / 128);
      } else {
        LengthRoundTripIn(value / 128, k - 1, rest);
        assert value < Pow128(k) <==> value / 128 < Pow128(k - 1);
      }
    }
  }

  lemma {:induction false} PowAtLeast(k: nat)
    requires k > 0
    ensures Pow128(k) >= 128
  {
    if k > 1 { PowAtLeast(k - 1); }
  }

  lemma LengthNotEmpty(value: nat)
    ensures |EncodeLength(value)| >= 1
  {
  }

  /** Reading a written remaining length gives the value back and leaves what follows untouched, in one to four
      bytes, exactly for the values up to 268435455. */
  lemma RemainingLengthRoundTrip(value: nat, rest: seq<Byte>)
    ensures DecodeLength(EncodeLength(value) + rest, 4) ==
            if value <= 268435455 then Read(value, rest) else Failed
    ensures 1 <= |EncodeLength(value)| && (|EncodeLength(value)| <= 4 <==> value <= 268435455)
  {
    Pow128Values();
    LengthRoundTripIn(value, 4, rest);
    LengthNotEmpty(value);
  }

  /** The number without its lowest `i` groups of seven bits. */
  function Groups(value: nat, i: nat): nat {
    if i == 0 then value else Groups(value / 128, i - 1)
  }

  /** Section 2.2.3 of MQTT Version 3.1.1: byte `i` carries the `i`-th group of seven bits from the lowest, and its top
      bit is set exactly while there are more. */
  lemma {:induction false} LengthBytes(value: nat, i: nat)
    requires i < |EncodeLength(value)|
    ensures EncodeLength(value)[i] as nat ==
            Groups(value, i) % 128 + if i + 1 < |EncodeLength(value)| then 128 else 0
    ensures i + 1 == |EncodeLength(value)| <==> Groups(value, i) < 128
  {
    if value >= 128 {
      LengthNotEmpty(value / 128);
      if i > 0 {
        LengthBytes(value / 128, i - 1);
      }
    }
  }

  method WriteRemainingLength(value: nat) returns (buf: seq<Byte>)
    ensures buf == EncodeLength(value)
  {
    buf := [];
    var left := value;
    while true
      invariant EncodeLength(value) == buf + EncodeLength(left)
      decreases left
    {
      var encodedByte := left % 128;
      var more := left / 128;
      if more > 0 {
        encodedByte := encodedByte + 128;
      }
      buf := buf + [encodedByte as Byte];
      if more <= 0 { break; }
      left := more;
    }
  }

  lemma ScaledTwice(value: nat, multiplier: nat, b: nat, r: Read<nat>)
    ensures Scaled(value, multiplier, Scaled(b, 128, r)) == Scaled(value + b * multiplier, multiplier * 128, r)
  {
    if r.Read? {
      assert multiplier * (b + 128 * r.value) == b * multiplier + (multiplier * 128) * r.value;
    }
  }

  method ReadRemainingLength(s: seq<Byte>) returns (r: Read<nat>)
    ensures r == DecodeLength(s, 4)
  {
    var multiplier, value: nat := 1, 0;
    var at := s;
    assert Scaled(0, 1, DecodeLength(s, 4)) == DecodeLength(s, 4);
    for i := 0 to 4
      invariant DecodeLength(s, 4) == Scaled(value, multiplier, DecodeLength(at, 4 - i))
    {
      if at == [] { return Failed; }
      var encodedByte := at[0] as nat;
      if encodedByte < 128 {
        return Read(value + multiplier * encodedByte, at[1..]);
      }
      assert DecodeLength(at, 4 - i) == Scaled(encodedByte - 128, 128, DecodeLength(at[1..], 3 - i));
      ScaledTwice(value, multiplier, encodedByte - 128, DecodeLength(at[1..], 3 - i));
      value := value + (encodedByte - 128) * multiplier;
      multiplier := multiplier * 128;
      at := at[1..];
    }
    return Failed;
  }

  // ---------------------------------------------------------------------------
  // Strings and packets
  // ---------------------------------------------------------------------------

  /** A length-prefixed string at an offset, and the offset after it. */
  function StringAt(buf: seq<Byte>, offset: nat): Read<nat> {
    if offset + 2 > |buf| then Failed
    else
      var length := FromBigEndian(buf[offset..offset + 2]);
      if offset + 2 + length > |buf| then Failed
      else Read(offset + 2 + length, buf[offset + 2..offset + 2 + length])
  }

  method ReadString(buf: seq<Byte>, offset: nat) returns (ok: bool, str: seq<Byte>, next: nat)
    ensures ok == StringAt(buf, offset).Read?
    ensures ok ==> StringAt(buf, offset) == Read(next, str)
  {
    next, str := offset, [];
    if next + 2 > |buf| { return false, str, next; }
    var length := buf[next] as nat * 256 + buf[next + 1] as nat;
    TwoBytes(buf[next], buf[next + 1]);
    assert buf[next..next + 2] == [buf[next], buf[next + 1]];
    next := next + 2;
    if next + length > |buf| { return false, str, next; }
    str := buf[next..next + length];
    next := next + length;
    return true, str, next;
  }

  /** A PUBLISH as a subscription sends it: quality of service 0, so that no packet id is present. */
  function PublishBody(topic: seq<Byte>, payload: seq<Byte>): seq<Byte> {
    [LowByte(|topic| / 256), LowByte(|topic|)] + topic + payload
  }

  function PublishPacket(topic: seq<Byte>, payload: seq<Byte>): seq<Byte> {
    [(16 * PACKET_PUBLISH) as Byte] + EncodeLength(|PublishBody(topic, payload)|) + PublishBody(topic, payload)
  }

  method BuildPublish(topic: seq<Byte>, payload: seq<Byte>) returns (packet: seq<Byte>)
    ensures packet == PublishPacket(topic, payload)
  {
    var varHeader: seq<Byte> := [];
    varHeader := varHeader + [LowByte(|topic| / 256), LowByte(|topic|)];
    varHeader := varHeader + topic;
    var totalPayload := varHeader + payload;
    var remLenBytes := WriteRemainingLength(|totalPayload|);
    packet := [(16 * PACKET_PUBLISH) as Byte] + remLenBytes;
    packet := packet + totalPayload;
  }

  datatype Packet = Packet(kind: nat, flags: nat, body: seq<Byte>)

  /** The connection loop's next packet; a connection that sends one too long, or ends early, is dropped. */
  function NextPacket(s: seq<Byte>): Read<Packet> {
    if s == [] then Failed
    else match DecodeLength(s[1..], 4)
      case Failed => Failed
      case Read(length, rest) =>
        if length > MAX_PACKET_SIZE || length > |rest| then Failed
        else Read(Packet(s[0] as nat / 16, s[0] as nat % 16, rest[..length]), rest[length..])
  }

  datatype Published = Published(topic: seq<Byte>, payload: seq<Byte>, packetId: Option<nat>) | Refused

  /** The topic and payload that a PUBLISH hands to the broker. */
  function ParsePublish(flags: nat, body: seq<Byte>): Published {
    match StringAt(body, 0)
    case Failed => Refused
    case Read(offset, topic) =>
      var qos := flags / 2 % 4;
      if qos > 0 && offset + 2 > |body| then Refused
      else if qos == 2 then Refused
      else if qos > 0 then Published(topic, body[offset + 2..], Some(FromBigEndian(body[offset..offset + 2])))
      else if offset <= |body| then Published(topic, body[offset..], None)
      else Refused
  }

  lemma TopicLength(n: nat)
    ensures FromBigEndian([LowByte(n / 256), LowByte(n)]) == n % 65536
  {
    TwoBytes(LowByte(n / 256), LowByte(n));
  }

  /** The topic comes back as far as two length bytes reach; the rest of it goes to the payload. */
  lemma ParseBody(topic: seq<Byte>, payload: seq<Byte>)
    ensures var k := |topic| % 65536;
            ParsePublish(0, PublishBody(topic, payload)) == Published(topic[..k], topic[k..] + payload, None)
  {
    var body, k := PublishBody(topic, payload), |topic| % 65536;
    assert body[0..2] == [LowByte(|topic| / 256), LowByte(|topic|)];
    TopicLength(|topic|);
    assert body[2..2 + k] == topic[..k] && body[2 + k..] == topic[k..] + payload;
  }

  lemma Regroup<T>(a: seq<T>, b: seq<T>, c: seq<T>, d: seq<T>)
    ensures a + b + c + d == a + (b + (c + d))
  {
  }

  lemma BodyAfterLength(first: Byte, length: seq<Byte>, body: seq<Byte>, rest: seq<Byte>)
    requires DecodeLength(length + (body + rest), 4) ==
             if |body| <= MAX_REMAINING_LENGTH then Read(|body|, body + rest) else Failed
    ensures NextPacket([first] + length + body + rest) ==
            if |body| <= MAX_PACKET_SIZE then Read(Packet(first as nat / 16, first as nat % 16, body), rest) else Failed
  {
    var tail := length + (body + rest);
    Regroup([first], length, body, rest);
    assert ([first] + tail)[1..] == tail;
    assert (body + rest)[..|body|] == body && (body + rest)[|body|..] == rest;
  }

  /** Any packet within the size limit is read as it was sent: its type from the upper half of the first byte, its
      flags from the lower half, its body, and what follows left alone; a longer one ends the connection. */
  lemma AnyPacketIsRead(first: Byte, body: seq<Byte>, rest: seq<Byte>)
    ensures NextPacket([first] + EncodeLength(|body|) + body + rest) ==
            if |body| <= 2 * 1024 * 1024 then Read(Packet(first as nat / 16, first as nat % 16, body), rest) else Failed
  {
    var length := EncodeLength(|body|);
    RemainingLengthRoundTrip(|body|, body + rest);
    BodyAfterLength(first, length, body, rest);
  }

  /** A packet sent is the next packet read, with what follows it left alone, exactly when it is within the
      size limit. */
  lemma PacketRoundTrip(topic: seq<Byte>, payload: seq<Byte>, rest: seq<Byte>)
    ensures var body := PublishBody(topic, payload);
            NextPacket(PublishPacket(topic, payload) + rest) ==
            if |body| <= 2 * 1024 * 1024 then Read(Packet(3, 0, body), rest) else Failed
  {
    AnyPacketIsRead(0x30, PublishBody(topic, payload), rest);
  }

  /** What a reader of the stream makes of the first packet. */
  function ReceivePublish(s: seq<Byte>): Published {
    match NextPacket(s)
    case Failed => Refused
    case Read(p, _) => if p.kind == PACKET_PUBLISH then ParsePublish(p.flags, p.body) else Refused
  }

  /** An outbound PUBLISH is received with its topic and payload exactly when the topic fits its two length bytes
      and the packet is within the size limit. */
  lemma PublishRoundTrip(topic: seq<Byte>, payload: seq<Byte>, rest: seq<Byte>)
    ensures ReceivePublish(PublishPacket(topic, payload) + rest) == Published(topic, payload, None) <==>
            |topic| <= 65535 && 2 + |topic| + |payload| <= 2 * 1024 * 1024
  {
    PacketRoundTrip(topic, payload, rest);
    ParseBody(topic, payload);
    if |topic| <= 65535 {
      assert topic[..|topic|] == topic && topic[|topic|..] + payload == payload;
    } else {
      assert |topic[..|topic| % 65536]| < |topic|;
    }
  }

  /** Section 3.3 of MQTT Version 3.1.1: the type in the upper half of the first byte with all flags clear, the
      remaining length, the length of the topic with its high byte first, the topic and the payload. */
  lemma PublishLayout(topic: seq<Byte>, payload: seq<Byte>)
    requires |topic| <= 65535
    ensures var packet, length := PublishPacket(topic, payload), EncodeLength(2 + |topic| + |payload|);
            var at := 1 + |length|;
            && |packet| == at + 2 + |topic| + |payload|
            && packet[0] == 0x30 && packet[1..at] == length
            && packet[at] as nat * 256 + packet[at + 1] as nat == |topic|
            && packet[at + 2..at + 2 + |topic|] == topic && packet[at + 2 + |topic|..] == payload
  {
    var length := EncodeLength(2 + |topic| + |payload|);
    var head, size := [0x30 as Byte] + length, [LowByte(|topic| / 256), LowByte(|topic|)];
    assert PublishPacket(topic, payload) == head + (size + (topic + payload));
  }

  /** A PUBLISH of a client, its topic length high byte first and, above quality of service 0, its packet id too. */
  function ClientPublish(topic: seq<Byte>, id: seq<Byte>, payload: seq<Byte>): seq<Byte> {
    BigEndian(|topic|, 2) + topic + id + payload
  }

  /** The broker takes topic, packet id and payload from where they are, for quality of service 0 without an id and 1
      with one, and refuses 2. */
  lemma ClientPublishIsParsed(topic: seq<Byte>, hi: Byte, lo: Byte, payload: seq<Byte>)
    requires |topic| <= 65535
    ensures ParsePublish(0, ClientPublish(topic, [], payload)) == Published(topic, payload, None)
    ensures ParsePublish(2, ClientPublish(topic, [hi, lo], payload)) ==
            Published(topic, payload, Some(hi as nat * 256 + lo as nat))
    ensures ParsePublish(4, ClientPublish(topic, [hi, lo], payload)) == Refused
  {
    TopicAt(topic, [] + payload);
    TopicAt(topic, [hi, lo] + payload);
    TwoBytes(hi, lo);
    var body := ClientPublish(topic, [hi, lo], payload);
    assert ClientPublish(topic, [], payload) == BigEndian(|topic|, 2) + topic + ([] + payload);
    assert body == BigEndian(|topic|, 2) + topic + ([hi, lo] + payload);
    assert [] + payload == payload && ([hi, lo] + payload)[..2] == [hi, lo] && ([hi, lo] + payload)[2..] == payload;
    assert body[2 + |topic|..2 + |topic| + 2] == [hi, lo] && body[2 + |topic| + 2..] == payload;
  }

  lemma TopicAt(topic: seq<Byte>, more: seq<Byte>)
    requires |topic| <= 65535
    ensures var body := BigEndian(|topic|, 2) + topic + more;
            StringAt(body, 0) == Read(2 + |topic|, topic) && body[2 + |topic|..] == more
  {
    var body := BigEndian(|topic|, 2) + topic + more;
    Pow256Values();
    BigEndianRoundTrip(|topic|, 2);
    assert body[0..2] == BigEndian(|topic|, 2) && body[2..2 + |topic|] == topic;
  }
}
