/** WebSocket framing (sections 5.2 and 5.3 of RFC 6455): the client's masked writer and the server's unmasked
    one, the server's read loop and the client's frame reader. A stream is the sequence of bytes still to come;
    running out of bytes is how a read fails. */
module WebSocket {
  import opened Messages
  import opened Bytes

  const OP_TEXT := 1
  const OP_CLOSE := 8
  const OP_PING := 9
  const OP_PONG := 10
  const SERVER_LIMIT := 0x20_0000
  const CLIENT_LIMIT := 0x100_0000

  /** Lengths are machine integers. */
  const MAX_LENGTH := 0x7FFF_FFFF_FFFF_FFFF

  // ---------------------------------------------------------------------------
  // Writing
  // ---------------------------------------------------------------------------

  /** The seven-bit length code and the extended length that follows it. */
  function LengthCode(n: nat): nat {
    if n <= 125 then n else if n <= 65535 then 126 else 127
  }

  function LengthExtension(n: nat): seq<Byte> {
    if n <= 125 then [] else if n <= 65535 then BigEndian(n, 2) else BigEndian(n, 8)
  }

  /** The payload as it goes over the wire. */
  function Body(payload: seq<Byte>, key: seq<Byte>): seq<Byte>
    requires key == [] || |key| == 4
  {
    if key == [] then payload else Masked(payload, key)
  }

  /** A final text frame; `key` is empty for a frame that is not masked. */
  function TextFrame(payload: seq<Byte>, key: seq<Byte>): seq<Byte>
    requires key == [] || |key| == 4
  {
    [0x81 as Byte, (LengthCode(|payload|) + (if key == [] then 0 else 128)) as Byte]
    + LengthExtension(|payload|) + key + Body(payload, key)
  }

  method WriteFrame(payload: seq<Byte>, maskKey: seq<Byte>) returns (out: seq<Byte>)
    requires |payload| <= MAX_LENGTH && |maskKey| == 4
    ensures out == TextFrame(payload, maskKey)
  {
    var length := |payload|;
    var header: seq<Byte> := [0x81];
    if length <= 125 {
      header := header + [(length + 0x80) as Byte];
    } else if length <= 65535 {
      header := header + [(126 + 0x80) as Byte];
      header := header + [LowByte(length / 256), LowByte(length)];
      assert BigEndian(length, 2) == [LowByte(length / 256), LowByte(length)] by {
        assert BigEndian(length / 256, 1) == BigEndian(length / 256 / 256, 0) + [LowByte(length / 256)];
      }
    } else {
      header := header + [(127 + 0x80) as Byte];
      var ext := AppendBigEndian(length);
      header := header + ext;
    }
    assert header == [0x81, (LengthCode(length) + 128) as Byte] + LengthExtension(length);
    header := header + maskKey;
    var masked := MaskPayload(payload, maskKey);
    out := header + masked;
  }

  method MaskPayload(payload: seq<Byte>, maskKey: seq<Byte>) returns (masked: seq<Byte>)
    requires |maskKey| == 4
    ensures masked == Masked(payload, maskKey)
  {
    masked := [];
    for i := 0 to |payload|
      invariant masked == Masked(payload, maskKey)[..i]
    {
      masked := masked + [Xor(payload[i], maskKey[i % 4])];
    }
  }

  /** The eight length bytes, shifted out from the top. */
  method AppendBigEndian(length: nat) returns (ext: seq<Byte>)
    ensures ext == BigEndian(length, 8)
  {
    ext := [];
    var i: nat := 8;
    while i > 0
      invariant 0 <= i <= 8
      invariant ext == BigEndian(ShiftRight(length, i), 8 - i)
    {
      i := i - 1;
      ext := ext + [LowByte(ShiftRight(length, i))];
    }
  }

  method SendMessage(payload: seq<Byte>) returns (out: seq<Byte>)
    requires |payload| <= MAX_LENGTH
    ensures out == TextFrame(payload, [])
  {
    var length := |payload|;
    var header: seq<Byte> := [(0x80 + OP_TEXT) as Byte];
    if length <= 125 {
      header := header + [length as Byte];
    } else if length <= 65535 {
      header := header + [126];
      header := header + BigEndian(length, 2);
    } else {
      header := header + [127];
      header := header + BigEndian(length, 8);
    }
    out := header + payload;
  }

  // ---------------------------------------------------------------------------
  // Reading one frame
  // ---------------------------------------------------------------------------

  /** A frame and the bytes after it, or a failure and the bytes it left unread. */
  datatype Read = Frame(op: nat, payload: seq<Byte>, rest: seq<Byte>) | Failed(unread: seq<Byte>)

  function ExtensionSize(code: nat): nat {
    if code == 126 then 2 else if code == 127 then 8 else 0
  }

  /** The rest of a frame whose header ends before `at` and gave `length`. */
  function ParseBody(s: seq<Byte>, at: nat, masked: bool, length: nat): (r: Read)
    requires 2 <= at <= |s|
    ensures r.Frame? ==> |r.rest| + 2 <= |s|
  {
    var from := at + if masked then 4 else 0;
    if |s| < from + length then Failed([])
    else
      var body := s[from..from + length];
      Frame(s[0] as nat % 16, if masked then Masked(body, s[at..from]) else body, s[from + length..])
  }

  /** The rest of a frame whose second byte gave `masked` and `code`. */
  function ParseAfterHeader(s: seq<Byte>, limit: nat, masked: bool, code: nat): (r: Read)
    requires |s| >= 2
    ensures r.Frame? ==> |r.rest| + 2 <= |s|
  {
    var ext := ExtensionSize(code);
    if |s| < 2 + ext then Failed([])
    else
      var length := if ext == 0 then code else FromBigEndian(s[2..2 + ext]);
      if length > limit then Failed(s[2 + ext..]) else ParseBody(s, 2 + ext, masked, length)
  }

  /** The first frame of a stream: it fails when the stream ends early, which uses it up, or when the length
      exceeds the limit, which leaves what comes after the length. */
  function ParseFrame(s: seq<Byte>, limit: nat): (r: Read)
    ensures r.Frame? ==> |r.rest| + 2 <= |s|
  {
    if |s| < 2 then Failed([]) else ParseAfterHeader(s, limit, s[1] >= 128, s[1] as nat % 128)
  }

  lemma LengthRoundTrip(n: nat)
    requires n <= MAX_LENGTH
    ensures LengthCode(n) < 128 && |LengthExtension(n)| == ExtensionSize(LengthCode(n))
    ensures n == if ExtensionSize(LengthCode(n)) == 0 then LengthCode(n) else FromBigEndian(LengthExtension(n))
  {
    Pow256Values();
    if 125 < n <= 65535 {
      BigEndianRoundTrip(n, 2);
    } else if n > 65535 {
      BigEndianRoundTrip(n, 8);
    }
  }

  lemma ConcatSlices<T>(a: seq<T>, b: seq<T>, c: seq<T>, d: seq<T>, e: seq<T>)
    ensures var s := a + b + c + d + e;
            var i, j, k := |a| + |b|, |a| + |b| + |c|, |a| + |b| + |c| + |d|;
            && |s| == k + |e| && s[..|a|] == a && s[|a|..i] == b && s[i..j] == c && s[j..k] == d && s[k..] == e
  {
  }

  /** The bytes of a frame followed by others, piece by piece. */
  lemma FramePieces(payload: seq<Byte>, key: seq<Byte>, rest: seq<Byte>)
    requires (key == [] || |key| == 4) && |payload| <= MAX_LENGTH
    ensures var s := TextFrame(payload, key) + rest;
            var ext := ExtensionSize(LengthCode(|payload|));
            var at := 2 + ext + |key|;
            && |s| == at + |payload| + |rest|
            && s[0] == 0x81 && s[1] as nat == LengthCode(|payload|) + (if key == [] then 0 else 128)
            && s[2..2 + ext] == LengthExtension(|payload|) && s[2 + ext..at] == key
            && s[at..at + |payload|] == Body(payload, key) && s[at + |payload|..] == rest
  {
    LengthRoundTrip(|payload|);
    var start := [0x81 as Byte, (LengthCode(|payload|) + (if key == [] then 0 else 128)) as Byte];
    var s := TextFrame(payload, key) + rest;
    ConcatSlices(start, LengthExtension(|payload|), key, Body(payload, key), rest);
    assert s == start + LengthExtension(|payload|) + key + Body(payload, key) + rest;
    assert s[0] == s[..2][0] && s[1] == s[..2][1];
  }

  /** The extended length holds the number with its high byte first. */
  lemma LengthField(n: nat)
    requires n <= MAX_LENGTH
    ensures var ext := LengthExtension(n);
            && |ext| == (if n <= 125 then 0 else if n <= 65535 then 2 else 8)
            && (|ext| == 2 ==> ext[0] as nat * 256 + ext[1] as nat == n)
            && (|ext| == 8 ==> forall i | 0 <= i < 8 :: ext[i] as nat == ShiftRight(n, 7 - i) % 256)
  {
    var ext := LengthExtension(n);
    LengthRoundTrip(n);
    if |ext| == 2 {
      assert ext == [ext[0], ext[1]];
      TwoBytes(ext[0], ext[1]);
    } else if |ext| == 8 {
      forall i | 0 <= i < 8
        ensures ext[i] as nat == ShiftRight(n, 7 - i) % 256
      {
        BigEndianDigit(n, 8, i);
      }
    }
  }

  /** Section 5.2 of RFC 6455: a final text frame, the mask bit set exactly with a key, and the length in seven bits,
      or in two or eight bytes, whichever is the first to hold it. */
  lemma FrameLayout(payload: seq<Byte>, key: seq<Byte>)
    requires (key == [] || |key| == 4) && |payload| <= MAX_LENGTH
    ensures var s, n := TextFrame(payload, key), |payload|;
            var at := 2 + |LengthExtension(n)|;
            && |s| == at + |key| + n && s[0] == 0x81 && (s[1] >= 128 <==> key != [])
            && s[1] as nat % 128 == (if n <= 125 then n else if n <= 65535 then 126 else 127)
            && s[2..at] == LengthExtension(n) && s[at..at + |key|] == key
            && s[at + |key|..at + |key| + n] == if key == [] then payload else Masked(payload, key)
  {
    var s := TextFrame(payload, key);
    LengthRoundTrip(|payload|);
    FramePieces(payload, key, []);
    assert s + [] == s;
    SecondByte(s[1], LengthCode(|payload|), key != []);
  }

  lemma Regroup<T>(a: seq<T>, b: seq<T>, c: seq<T>, d: seq<T>, e: seq<T>)
    ensures a + b + c + d + e == (a + b) + (c + d + e)
  {
  }

  lemma DropHead<T>(head: seq<T>, tail: seq<T>)
    ensures (head + tail)[|head|..] == tail
  {
  }

  lemma FrameTail(payload: seq<Byte>, key: seq<Byte>, rest: seq<Byte>)
    requires (key == [] || |key| == 4) && |payload| <= MAX_LENGTH
    ensures var s := TextFrame(payload, key) + rest;
            var at := 2 + ExtensionSize(LengthCode(|payload|));
            |s| >= at && s[at..] == key + Body(payload, key) + rest
  {
    LengthRoundTrip(|payload|);
    var start := [0x81 as Byte, (LengthCode(|payload|) + (if key == [] then 0 else 128)) as Byte];
    Regroup(start, LengthExtension(|payload|), key, Body(payload, key), rest);
    DropHead(start + LengthExtension(|payload|), key + Body(payload, key) + rest);
  }

  lemma SecondByte(b: Byte, code: nat, masked: bool)
    requires code < 128 && b as nat == code + (if masked then 128 else 0)
    ensures b as nat % 128 == code && (b >= 128) == masked
  {
  }

  /** The header of a written frame, read back. */
  lemma HeaderRoundTrip(payload: seq<Byte>, key: seq<Byte>, rest: seq<Byte>, limit: nat)
    requires (key == [] || |key| == 4) && |payload| <= MAX_LENGTH
    ensures var s := TextFrame(payload, key) + rest;
            var at := 2 + ExtensionSize(LengthCode(|payload|));
            && 2 <= at <= |s|
            && ParseFrame(s, limit) ==
               if |payload| <= limit then ParseBody(s, at, key != [], |payload|) else Failed(s[at..])
  {
    var s, code := TextFrame(payload, key) + rest, LengthCode(|payload|);
    LengthRoundTrip(|payload|);
    FramePieces(payload, key, rest);
    SecondByte(s[1], code, key != []);
    assert ParseFrame(s, limit) == ParseAfterHeader(s, limit, key != [], code);
    HeaderGives(s, limit, key != [], code, |payload|);
  }

  lemma HeaderGives(s: seq<Byte>, limit: nat, masked: bool, code: nat, length: nat)
    requires |s| >= 2 + ExtensionSize(code)
    requires length == if ExtensionSize(code) == 0 then code else FromBigEndian(s[2..2 + ExtensionSize(code)])
    ensures var at := 2 + ExtensionSize(code);
            ParseAfterHeader(s, limit, masked, code) ==
            if length > limit then Failed(s[at..]) else ParseBody(s, at, masked, length)
  {
  }

  lemma ShortHeader(s: seq<Byte>, limit: nat, masked: bool, code: nat)
    requires 2 <= |s| < 2 + ExtensionSize(code)
    ensures ParseAfterHeader(s, limit, masked, code) == Failed([])
  {
  }

  /** The rest of a frame, given its pieces. */
  lemma BodyGives(s: seq<Byte>, at: nat, payload: seq<Byte>, key: seq<Byte>, rest: seq<Byte>)
    requires (key == [] || |key| == 4) && 2 <= at && |s| == at + |key| + |payload| + |rest| && s[0] == 0x81
    requires s[at..at + |key|] == key && s[at + |key|..at + |key| + |payload|] == Body(payload, key)
    requires s[at + |key| + |payload|..] == rest
    ensures ParseBody(s, at, key != [], |payload|) == Frame(OP_TEXT, payload, rest)
  {
    assert s[0] as nat % 16 == OP_TEXT;
    if key != [] {
      MaskedTwice(payload, key);
    }
  }

  /** A written frame is read back, with what follows it left alone, exactly when it is within the limit. */
  lemma FrameRoundTrip(payload: seq<Byte>, key: seq<Byte>, rest: seq<Byte>, limit: nat)
    requires (key == [] || |key| == 4) && |payload| <= MAX_LENGTH
    ensures ParseFrame(TextFrame(payload, key) + rest, limit) ==
            if |payload| <= limit then Frame(OP_TEXT, payload, rest) else Failed(key + Body(payload, key) + rest)
  {
    HeaderRoundTrip(payload, key, rest, limit);
    if |payload| <= limit {
      FramePieces(payload, key, rest);
      BodyGives(TextFrame(payload, key) + rest, 2 + ExtensionSize(LengthCode(|payload|)), payload, key, rest);
    } else {
      FrameTail(payload, key, rest);
    }
  }

  /** The masking of a received buffer undone where it lies. */
  method UnmaskInPlace(payload: array<Byte>, maskKey: seq<Byte>)
    requires |maskKey| == 4
    modifies payload
    ensures payload[..] == Masked(old(payload[..]), maskKey)
  {
    for i := 0 to payload.Length
      invariant forall k | 0 <= k < i :: payload[k] == Xor(old(payload[k]), maskKey[k % 4])
      invariant forall k | i <= k < payload.Length :: payload[k] == old(payload[k])
    {
      payload[i] := Xor(payload[i], maskKey[i % 4]);
    }
  }

  /** The bytes of a payload, read into a buffer and unmasked there. */
  method TakePayload(bytes: seq<Byte>, isMasked: bool, maskKey: seq<Byte>) returns (payload: seq<Byte>)
    requires isMasked ==> |maskKey| == 4
    ensures payload == if isMasked then Masked(bytes, maskKey) else bytes
  {
    var buffer := new Byte[|bytes|](i requires 0 <= i < |bytes| => bytes[i]);
    assert buffer[..] == bytes;
    if isMasked {
      UnmaskInPlace(buffer, maskKey);
    }
    return buffer[..];
  }

  /** The eight bytes of a long length, shifted in one by one. */
  method ReadLongLength(extended: seq<Byte>) returns (length: nat)
    requires |extended| == 8
    ensures length == FromBigEndian(extended)
  {
    length := 0;
    for i := 0 to 8
      invariant length == FromBigEndian(extended[..i])
    {
      assert extended[..i + 1][..i] == extended[..i];
      length := length * 256 + extended[i] as nat;
    }
    assert extended[..8] == extended;
  }

  method ReadLength(s: seq<Byte>) returns (ok: bool, length: nat, at: nat)
    requires |s| >= 2
    ensures var code := s[1] as nat % 128;
            var ext := ExtensionSize(code);
            && ok == (|s| >= 2 + ext)
            && (ok ==> at == 2 + ext && length == if ext == 0 then code else FromBigEndian(s[2..2 + ext]))
  {
    length, at := s[1] as nat % 128, 2;
    if length == 126 {
      if |s| < 4 { return false, length, at; }
      TwoBytes(s[2], s[3]);
      assert s[2..4] == [s[2], s[3]];
      length, at := s[2] as nat * 256 + s[3] as nat, 4;
    } else if length == 127 {
      if |s| < 10 { return false, length, at; }
      length := ReadLongLength(s[2..10]);
      at := 10;
    }
    return true, length, at;
  }

  /** The key, if there is one, and the payload. */
  method ReadBody(s: seq<Byte>, start: nat, isMasked: bool, length: nat) returns (r: Read)
    requires 2 <= start <= |s|
    ensures r == ParseBody(s, start, isMasked, length)
  {
    var at, maskKey := start, [];
    if isMasked {
      if |s| < at + 4 { return Failed([]); }
      maskKey := s[at..at + 4];
      at := at + 4;
    }
    if |s| < at + length { return Failed([]); }
    var payload := TakePayload(s[at..at + length], isMasked, maskKey);
    return Frame(s[0] as nat % 16, payload, s[at + length..]);
  }

  method ReadFrame(s: seq<Byte>) returns (r: Read)
    ensures r == ParseFrame(s, CLIENT_LIMIT)
  {
    if |s| < 2 { return Failed([]); }
    var ok, length, at := ReadLength(s);
    if !ok {
      ShortHeader(s, CLIENT_LIMIT, s[1] >= 128, s[1] as nat % 128);
      return Failed([]);
    }
    HeaderGives(s, CLIENT_LIMIT, s[1] >= 128, s[1] as nat % 128, length);
    if length > CLIENT_LIMIT { return Failed(s[at..]); }
    r := ReadBody(s, at, s[1] >= 128, length);
  }

  // ---------------------------------------------------------------------------
  // Reading a stream
  // ---------------------------------------------------------------------------

  /** What the server's read loop makes of a stream: the text payloads handled, the pongs sent, and the bytes
      left unread. */
  datatype Pumped = Pumped(handled: seq<seq<Byte>>, pongs: nat, unread: seq<Byte>)

  function Pump(s: seq<Byte>): Pumped
    decreases |s|
  {
    if |s| < 2 then Pumped([], 0, [])
    else
      var op := s[0] as nat % 16;
      if op == OP_CLOSE then Pumped([], 0, s[2..])
      else if op == OP_PING then var p := Pump(s[2..]); p.(pongs := p.pongs + 1)
      else if op == OP_PONG then Pump(s[2..])
      else match ParseFrame(s, SERVER_LIMIT)
        case Failed(unread) => Pumped([], 0, unread)
        case Frame(_, payload, rest) =>
          var p := Pump(rest);
          if op == OP_TEXT then p.(handled := [payload] + p.handled) else p
  }

  method ReadPayloadLength(s: seq<Byte>) returns (ok: bool, payloadLen: nat, at: nat)
    requires |s| >= 2
    ensures var code := s[1] as nat % 128;
            var ext := ExtensionSize(code);
            && ok == (|s| >= 2 + ext)
            && (ok ==> at == 2 + ext && payloadLen == if ext == 0 then code else FromBigEndian(s[2..2 + ext]))
  {
    payloadLen, at := s[1] as nat % 128, 2;
    if payloadLen == 126 {
      if |s| < 4 { return false, payloadLen, at; }
      payloadLen, at := FromBigEndian(s[2..4]), 4;
    } else if payloadLen == 127 {
      if |s| < 10 { return false, payloadLen, at; }
      payloadLen, at := FromBigEndian(s[2..10]), 10;
    }
    return true, payloadLen, at;
  }

  /** The server's decoding of a frame whose two header bytes are there. */
  method ReadPayload(s: seq<Byte>) returns (r: Read)
    requires |s| >= 2
    ensures r == ParseFrame(s, SERVER_LIMIT)
  {
    var ok, payloadLen, at := ReadPayloadLength(s);
    if !ok {
      ShortHeader(s, SERVER_LIMIT, s[1] >= 128, s[1] as nat % 128);
      return Failed([]);
    }
    HeaderGives(s, SERVER_LIMIT, s[1] >= 128, s[1] as nat % 128, payloadLen);
    if payloadLen > SERVER_LIMIT { return Failed(s[at..]); }
    r := ReadBody(s, at, s[1] >= 128, payloadLen);
  }

  /** What has been handled so far and what is still to come make up the whole. */
  ghost predicate SoFar(whole: Pumped, handled: seq<seq<Byte>>, pongs: nat, unread: seq<Byte>) {
    var p := Pump(unread);
    whole == Pumped(handled + p.handled, pongs + p.pongs, p.unread)
  }

  lemma EndsHere(whole: Pumped, handled: seq<seq<Byte>>, pongs: nat, unread: seq<Byte>, left: seq<Byte>)
    requires SoFar(whole, handled, pongs, unread) && Pump(unread) == Pumped([], 0, left)
    ensures whole == Pumped(handled, pongs, left)
  {
  }

  lemma ControlGoesOn(whole: Pumped, handled: seq<seq<Byte>>, pongs: nat, unread: seq<Byte>)
    requires SoFar(whole, handled, pongs, unread) && |unread| >= 2 && unread[0] as nat % 16 in {OP_PING, OP_PONG}
    ensures SoFar(whole, handled, pongs + if unread[0] as nat % 16 == OP_PING then 1 else 0, unread[2..])
  {
  }

  lemma DataGoesOn(whole: Pumped, handled: seq<seq<Byte>>, pongs: nat, unread: seq<Byte>, r: Read)
    requires SoFar(whole, handled, pongs, unread) && |unread| >= 2 && r == ParseFrame(unread, SERVER_LIMIT) && r.Frame?
    requires unread[0] as nat % 16 !in {OP_CLOSE, OP_PING, OP_PONG}
    ensures SoFar(whole, handled + if unread[0] as nat % 16 == OP_TEXT then [r.payload] else [], pongs, r.rest)
  {
    var p := Pump(r.rest);
    assert handled + ([r.payload] + p.handled) == (handled + [r.payload]) + p.handled;
  }

  method ReadPump(stream: seq<Byte>) returns (handled: seq<seq<Byte>>, pongs: nat, unread: seq<Byte>)
    ensures Pumped(handled, pongs, unread) == Pump(stream)
  {
    handled, pongs, unread := [], 0, stream;
    while true
      invariant SoFar(Pump(stream), handled, pongs, unread)
      decreases |unread|
    {
      if |unread| < 2 {
        EndsHere(Pump(stream), handled, pongs, unread, []);
        unread := [];
        return;
      }
      var opCode := unread[0] as nat % 16;
      if opCode == OP_CLOSE {
        EndsHere(Pump(stream), handled, pongs, unread, unread[2..]);
        unread := unread[2..];
        return;
      }
      if opCode == OP_PING {
        ControlGoesOn(Pump(stream), handled, pongs, unread);
        pongs := pongs + 1;
        unread := unread[2..];
        continue;
      }
      if opCode == OP_PONG {
        ControlGoesOn(Pump(stream), handled, pongs, unread);
        unread := unread[2..];
        continue;
      }
      var frame := ReadPayload(unread);
      if frame.Failed? {
        EndsHere(Pump(stream), handled, pongs, unread, frame.unread);
        unread := frame.unread;
        return;
      }
      DataGoesOn(Pump(stream), handled, pongs, unread, frame);
      handled := handled + if opCode == OP_TEXT then [frame.payload] else [];
      unread := frame.rest;
    }
  }

  /** The frames the client's read loop sees before a read fails. */
  function ReadFrames(s: seq<Byte>): seq<(nat, seq<Byte>)>
    decreases |s|
  {
    match ParseFrame(s, CLIENT_LIMIT)
    case Failed(_) => []
    case Frame(op, payload, rest) => [(op, payload)] + ReadFrames(rest)
  }

  datatype Text = Text(payload: seq<Byte>, key: seq<Byte>)

  ghost predicate Sendable(texts: seq<Text>) {
    forall i | 0 <= i < |texts| :: |texts[i].payload| <= MAX_LENGTH && (texts[i].key == [] || |texts[i].key| == 4)
  }

  /** The frames of several messages, one after the other, masked or not. */
  ghost function Stream(texts: seq<Text>): seq<Byte>
    requires Sendable(texts)
  {
    if texts == [] then [] else TextFrame(texts[0].payload, texts[0].key) + Stream(texts[1..])
  }

  /** The payloads up to the first that exceeds the limit. */
  function Within(texts: seq<Text>, limit: nat): seq<seq<Byte>> {
    if texts == [] || |texts[0].payload| > limit then [] else [texts[0].payload] + Within(texts[1..], limit)
  }

  predicate AllWithin(texts: seq<Text>, limit: nat) {
    forall i | 0 <= i < |texts| :: |texts[i].payload| <= limit
  }

  /** The read loop takes a text frame within the limit and goes on with what follows; one over it stops it. */
  lemma PumpTextFrame(payload: seq<Byte>, key: seq<Byte>, rest: seq<Byte>)
    requires (key == [] || |key| == 4) && |payload| <= MAX_LENGTH
    ensures var s := TextFrame(payload, key) + rest;
            Pump(s) == if |payload| <= SERVER_LIMIT then Pump(rest).(handled := [payload] + Pump(rest).handled)
                       else Pumped([], 0, key + Body(payload, key) + rest)
    ensures TextFrame(payload, key) != []
  {
    FramePieces(payload, key, rest);
    FrameRoundTrip(payload, key, rest, SERVER_LIMIT);
    PumpText(TextFrame(payload, key) + rest);
  }

  lemma PumpText(s: seq<Byte>)
    requires |s| >= 2 && s[0] as nat % 16 == OP_TEXT
    ensures Pump(s) == match ParseFrame(s, SERVER_LIMIT)
                       case Failed(unread) => Pumped([], 0, unread)
                       case Frame(_, payload, rest) => Pump(rest).(handled := [payload] + Pump(rest).handled)
  {
  }

  function Payloads(texts: seq<Text>): seq<seq<Byte>> {
    seq(|texts|, i requires 0 <= i < |texts| => texts[i].payload)
  }

  lemma AllWithinTail(texts: seq<Text>, limit: nat)
    requires texts != []
    ensures AllWithin(texts, limit) <==> |texts[0].payload| <= limit && AllWithin(texts[1..], limit)
  {
    assert texts == [texts[0]] + texts[1..];
  }

  /** What is within the limit is a prefix, and all there is exactly when every payload is within the limit. */
  lemma {:induction false} AllOfThem(texts: seq<Text>, limit: nat)
    ensures Within(texts, limit) <= Payloads(texts)
    ensures Within(texts, limit) == Payloads(texts) <==> AllWithin(texts, limit)
  {
    if texts == [] {
    } else {
      AllOfThem(texts[1..], limit);
      AllWithinTail(texts, limit);
      assert Payloads(texts) == [texts[0].payload] + Payloads(texts[1..]);
    }
  }

  /** The server handles the payloads sent, in order, up to the first over its limit: all of them, and with them
      the last byte of the stream, exactly when there is none. */
  lemma {:induction false} ServerReadsWhatIsSent(texts: seq<Text>)
    requires Sendable(texts)
    ensures var p := Pump(Stream(texts));
            && p.handled == Within(texts, SERVER_LIMIT) <= Payloads(texts) && p.pongs == 0
            && (p.handled == Payloads(texts) <==> AllWithin(texts, 2 * 1024 * 1024))
            && (p.unread == [] <==> AllWithin(texts, 2 * 1024 * 1024))
  {
    AllOfThem(texts, SERVER_LIMIT);
    if texts == [] {
    } else {
      ServerReadsWhatIsSent(texts[1..]);
      PumpTextFrame(texts[0].payload, texts[0].key, Stream(texts[1..]));
      AllWithinTail(texts, SERVER_LIMIT);
    }
  }

  function TextsOnly(payloads: seq<seq<Byte>>): (r: seq<(nat, seq<Byte>)>)
    ensures |r| == |payloads|
  {
    if payloads == [] then [] else [(OP_TEXT, payloads[0])] + TextsOnly(payloads[1..])
  }

  /** The client reads the payloads sent, in order, up to the first over its limit: all of them exactly when there
      is none. */
  lemma {:induction false} ClientReadsWhatIsSent(texts: seq<Text>)
    requires Sendable(texts)
    ensures ReadFrames(Stream(texts)) == TextsOnly(Within(texts, CLIENT_LIMIT))
    ensures ReadFrames(Stream(texts)) == TextsOnly(Payloads(texts)) <==> AllWithin(texts, 16 * 1024 * 1024)
  {
    AllOfThem(texts, CLIENT_LIMIT);
    if texts == [] {
    } else {
      ClientReadsWhatIsSent(texts[1..]);
      FrameRoundTrip(texts[0].payload, texts[0].key, Stream(texts[1..]), CLIENT_LIMIT);
    }
  }

  // ---------------------------------------------------------------------------
  // Masked pings
  // ---------------------------------------------------------------------------

  /** A masked ping, as the client sends it to keep the connection alive: two bytes and a key. */
  function PingFrame(key: seq<Byte>): seq<Byte> {
    [0x89, 0x80] + key
  }

  /** The opcodes of frames that are read and ignored. */
  predicate Ignored(op: nat) { op != 1 && op != 8 && op != 9 && op != 10 }

  /** Two bytes that the server reads over: a ping, a pong, or an empty frame that it ignores. */
  predicate ReadOver(a: Byte, b: Byte) {
    var op := a as nat % 16;
    op == 9 || op == 10 || (Ignored(op) && b == 0)
  }

  /** A key whose bytes happen to be two such pairs, or one ignored frame of exactly four bytes. */
  predicate Harmless(key: seq<Byte>)
    requires |key| == 4
  {
    || (ReadOver(key[0], key[1]) && ReadOver(key[2], key[3]))
    || (Ignored(key[0] as nat % 16) && (key[1] == 2 || (key[1] == 126 && key[2] == 0 && key[3] == 0)))
  }

  lemma PumpControl(s: seq<Byte>)
    requires |s| >= 2 && s[0] as nat % 16 in {OP_PING, OP_PONG}
    ensures Pump(s).handled == Pump(s[2..]).handled
  {
  }

  lemma PumpClose(s: seq<Byte>)
    requires |s| >= 2 && s[0] as nat % 16 == OP_CLOSE
    ensures Pump(s).handled == []
  {
  }

  lemma PumpIgnored(s: seq<Byte>)
    requires |s| >= 2 && Ignored(s[0] as nat % 16)
    ensures Pump(s).handled == match ParseFrame(s, SERVER_LIMIT)
                               case Failed(_) => []
                               case Frame(_, _, rest) => Pump(rest).handled
  {
  }

  lemma PumpShort(s: seq<Byte>)
    requires |s| < 2
    ensures Pump(s).handled == []
  {
  }

  /** The server leaves the key of a masked ping in the stream and takes it for the start of the next frame. */
  lemma PingLeavesKey(key: seq<Byte>, rest: seq<Byte>)
    requires |key| == 4
    ensures Pump(PingFrame(key) + rest).handled == Pump(key + rest).handled
  {
    var s := PingFrame(key) + rest;
    assert s[0] == 0x89 && s[2..] == key + rest;
    PumpControl(s);
  }

  /** Where a frame that is read lies in the stream. */
  lemma FrameAccounts(s: seq<Byte>, limit: nat)
    requires |s| >= 2 && ParseFrame(s, limit).Frame?
    ensures var r, code := ParseFrame(s, limit), s[1] as nat % 128;
            var at := 2 + ExtensionSize(code) + if s[1] >= 128 then 4 else 0;
            && at + |r.payload| <= |s| && r.rest == s[at + |r.payload|..]
            && |r.payload| == if ExtensionSize(code) == 0 then code else FromBigEndian(s[2..2 + ExtensionSize(code)])
  {
  }

  /** Two bytes read over leave what follows to be read. */
  lemma ReadOverSkips(a: Byte, b: Byte, rest: seq<Byte>)
    requires ReadOver(a, b)
    ensures Pump([a, b] + rest).handled == Pump(rest).handled
  {
    var s := [a, b] + rest;
    assert s[0] == a && s[1] == b && s[2..] == rest;
    if Ignored(a as nat % 16) {
      PumpIgnored(s);
      assert ParseFrame(s, SERVER_LIMIT) == Frame(a as nat % 16, [], s[2..]);
    } else {
      PumpControl(s);
    }
  }

  lemma FourByteFrame(key: seq<Byte>, rest: seq<Byte>)
    requires |key| == 4 && (key[1] == 2 || (key[1] == 126 && key[2] == 0 && key[3] == 0))
    ensures var r := ParseFrame(key + rest, SERVER_LIMIT); r.Frame? && r.rest == rest
  {
    var s := key + rest;
    assert s[1] == key[1] && s[4..] == rest && s[2..4] == [key[2], key[3]];
    TwoBytes(key[2], key[3]);
    assert ParseFrame(s, SERVER_LIMIT) == ParseAfterHeader(s, SERVER_LIMIT, false, key[1] as nat);
  }

  lemma IgnoredFourBytes(key: seq<Byte>, rest: seq<Byte>)
    requires |key| == 4 && Ignored(key[0] as nat % 16)
    requires key[1] == 2 || (key[1] == 126 && key[2] == 0 && key[3] == 0)
    ensures Pump(key + rest).handled == Pump(rest).handled
  {
    assert (key + rest)[0] == key[0];
    FourByteFrame(key, rest);
    PumpIgnored(key + rest);
  }

  lemma HarmlessIsReadOver(key: seq<Byte>, rest: seq<Byte>)
    requires |key| == 4 && Harmless(key)
    ensures Pump(key + rest).handled == Pump(rest).handled
  {
    if ReadOver(key[0], key[1]) && ReadOver(key[2], key[3]) {
      assert key + rest == [key[0], key[1]] + ([key[2], key[3]] + rest);
      ReadOverSkips(key[0], key[1], [key[2], key[3]] + rest);
      ReadOverSkips(key[2], key[3], rest);
    } else {
      IgnoredFourBytes(key, rest);
    }
  }

  /** The empty text, as the server would be sent it. */
  const EMPTY_TEXT: seq<Byte> := [0x81, 0]

  lemma EmptyTextIsRead()
    ensures EMPTY_TEXT == TextFrame([], []) && Pump(EMPTY_TEXT).handled == [[]]
  {
    assert TextFrame([], []) == EMPTY_TEXT;
    assert EMPTY_TEXT + [] == EMPTY_TEXT;
    PumpTextFrame([], [], []);
    PumpShort([]);
  }

  /** A text frame at the front of the stream that is not empty, or not there in full, is not the empty text. */
  lemma TextIsNotEmpty(s: seq<Byte>)
    requires |s| >= 2 && s[0] as nat % 16 == OP_TEXT
    requires ParseFrame(s, SERVER_LIMIT).Frame? ==> ParseFrame(s, SERVER_LIMIT).payload != []
    ensures Pump(s).handled != [[]]
  {
    var r := ParseFrame(s, SERVER_LIMIT);
    PumpText(s);
    if r.Frame? { FirstDiffers(r.payload, Pump(r.rest).handled); }
  }

  lemma FirstDiffers(payload: seq<Byte>, more: seq<seq<Byte>>)
    requires payload != []
    ensures [payload] + more != [[]]
  {
    assert ([payload] + more)[0] == payload;
  }

  /** An ignored frame that leaves at most one byte leaves nothing to handle. */
  lemma IgnoredSwallows(s: seq<Byte>)
    requires |s| >= 2 && Ignored(s[0] as nat % 16)
    requires ParseFrame(s, SERVER_LIMIT).Frame? ==> |ParseFrame(s, SERVER_LIMIT).rest| < 2
    ensures Pump(s).handled == []
  {
    PumpIgnored(s);
    if ParseFrame(s, SERVER_LIMIT).Frame? {
      PumpShort(ParseFrame(s, SERVER_LIMIT).rest);
    }
  }

  /** A frame that starts two bytes before the empty text takes part of it. */
  lemma PairTakes(a: Byte, b: Byte)
    requires b != 0 && ParseFrame([a, b] + EMPTY_TEXT, SERVER_LIMIT).Frame?
    ensures var r := ParseFrame([a, b] + EMPTY_TEXT, SERVER_LIMIT); r.payload != [] && |r.rest| < 2
  {
    var s := [a, b] + EMPTY_TEXT;
    assert s[1] == b && |s| == 4 && s[2..4] == EMPTY_TEXT;
    TwoBytes(0x81, 0);
    FrameAccounts(s, SERVER_LIMIT);
  }

  /** Two bytes that are not read over spoil the empty text after them, or make up a text of their own. */
  lemma PairSpoils(a: Byte, b: Byte) returns (rest: seq<Byte>)
    requires !ReadOver(a, b)
    ensures rest in {[], EMPTY_TEXT} && Pump([a, b] + rest).handled != Pump(rest).handled
  {
    var op := a as nat % 16;
    EmptyTextIsRead();
    if op == OP_TEXT && b == 0 {
      rest := [];
      EmptyTextPair(a);
    } else {
      rest := EMPTY_TEXT;
      var s := [a, b] + rest;
      assert s[0] == a;
      if op == OP_CLOSE {
        PumpClose(s);
      } else {
        if ParseFrame(s, SERVER_LIMIT).Frame? { PairTakes(a, b); }
        if op == OP_TEXT { TextIsNotEmpty(s); } else { IgnoredSwallows(s); }
      }
    }
  }

  lemma EmptyTextPair(a: Byte)
    requires a as nat % 16 == OP_TEXT
    ensures Pump([a, 0] + []).handled != Pump([]).handled
  {
    var s := [a, 0];
    assert s + [] == s;
    PumpText(s);
    PumpShort([]);
    assert ParseFrame(s, SERVER_LIMIT) == Frame(OP_TEXT, [], []);
  }

  /** A text that starts with a key, and needs more than that, is not empty unless masked. */
  lemma TextKeyTakes(key: seq<Byte>)
    requires |key| == 4 && key[1] != 128 && ParseFrame(key, SERVER_LIMIT).Failed?
    requires ParseFrame(key + EMPTY_TEXT, SERVER_LIMIT).Frame?
    ensures ParseFrame(key + EMPTY_TEXT, SERVER_LIMIT).payload != []
  {
    var s := key + EMPTY_TEXT;
    assert |s| == 6 && s[1] == key[1] && s[2..4] == key[2..4];
    FrameAccounts(s, SERVER_LIMIT);
  }

  /** A key that is a text frame, or starts one. */
  lemma TextKeySpoils(key: seq<Byte>) returns (rest: seq<Byte>)
    requires |key| == 4 && key[0] as nat % 16 == OP_TEXT
    ensures rest in {[], EMPTY_TEXT, TextFrame([0], [])} && Pump(key + rest).handled != Pump(rest).handled
  {
    if ParseFrame(key, SERVER_LIMIT).Frame? {
      rest := [];
      assert key + rest == key;
      PumpText(key);
      PumpShort([]);
    } else if key[1] == 128 {
      rest := TextFrame([0], []);
      EmptyMaskedKey(key);
    } else {
      rest := EMPTY_TEXT;
      assert (key + rest)[0] == key[0];
      EmptyTextIsRead();
      if ParseFrame(key + rest, SERVER_LIMIT).Frame? { TextKeyTakes(key); }
      TextIsNotEmpty(key + rest);
    }
  }

  /** A key that starts an empty masked text takes half of its own key from the frame that follows. */
  lemma EmptyMaskedKey(key: seq<Byte>)
    requires |key| == 4 && key[0] as nat % 16 == OP_TEXT && key[1] == 128
    ensures Pump(key + TextFrame([0], [])).handled != Pump(TextFrame([0], [])).handled
  {
    var frame := TextFrame([0], []);
    assert frame == [0x81, 1, 0];
    assert frame + [] == frame;
    PumpTextFrame([0], [], []);
    PumpShort([]);
    var s := key + frame;
    assert |s| == 7 && s[0] == key[0] && s[1] == key[1];
    PumpText(s);
    assert ParseFrame(s, SERVER_LIMIT).Frame?;
    FrameAccounts(s, SERVER_LIMIT);
    PumpShort(ParseFrame(s, SERVER_LIMIT).rest);
    assert Pump(s).handled[0] == [] && Pump(frame).handled[0] == [0];
  }

  /** Three bytes, the last two those of the empty text: it is never read. */
  lemma ShiftedText(a: Byte)
    ensures Pump([a] + EMPTY_TEXT).handled == []
  {
    var s, op := [a] + EMPTY_TEXT, a as nat % 16;
    assert s[0] == a && s[1] == 0x81 && |s| == 3;
    if op == OP_CLOSE {
      PumpClose(s);
    } else if op == OP_PING || op == OP_PONG {
      PumpControl(s);
      PumpShort(s[2..]);
    } else if op == OP_TEXT {
      PumpText(s);
    } else {
      PumpIgnored(s);
    }
  }

  /** How much of the empty text an ignored frame leaves that starts four bytes before it. */
  lemma IgnoredKeyTakes(key: seq<Byte>)
    requires |key| == 4 && key[1] != 0 && key[1] != 2 && !(key[1] == 126 && key[2] == 0 && key[3] == 0)
    requires ParseFrame(key + EMPTY_TEXT, SERVER_LIMIT).Frame?
    ensures var rest := ParseFrame(key + EMPTY_TEXT, SERVER_LIMIT).rest;
            if key[1] == 1 then rest == [key[3]] + EMPTY_TEXT else |rest| < 2
  {
    var s := key + EMPTY_TEXT;
    assert |s| == 6 && s[1] == key[1] && s[2..4] == [key[2], key[3]] && s[3..] == [key[3]] + EMPTY_TEXT;
    TwoBytes(key[2], key[3]);
    FrameAccounts(s, SERVER_LIMIT);
  }

  /** A key that is an ignored frame, or starts one, and is not exactly one. */
  lemma IgnoredKeySpoils(key: seq<Byte>)
    requires |key| == 4 && Ignored(key[0] as nat % 16) && key[1] != 0 && !Harmless(key)
    ensures Pump(key + EMPTY_TEXT).handled == []
  {
    var s := key + EMPTY_TEXT;
    assert s[0] == key[0] && |s| == 6;
    if ParseFrame(s, SERVER_LIMIT).Frame? { IgnoredKeyTakes(key); }
    if ParseFrame(s, SERVER_LIMIT).Frame? && key[1] == 1 {
      PumpIgnored(s);
      ShiftedText(key[3]);
    } else {
      IgnoredSwallows(s);
    }
  }

  /** For any other key there is a text that is lost, or one handled that nobody sent. */
  lemma OtherKeysSpoil(key: seq<Byte>) returns (rest: seq<Byte>)
    requires |key| == 4 && !Harmless(key)
    ensures rest in {[], TextFrame([], []), TextFrame([0], [])}
    ensures Pump(PingFrame(key) + rest).handled != Pump(rest).handled
  {
    EmptyTextIsRead();
    var op := key[0] as nat % 16;
    if op == OP_CLOSE {
      rest := EMPTY_TEXT;
      PumpClose(key + rest);
    } else if op == OP_TEXT {
      rest := TextKeySpoils(key);
    } else if ReadOver(key[0], key[1]) {
      rest := PairSpoils(key[2], key[3]);
      assert key + rest == [key[0], key[1]] + ([key[2], key[3]] + rest);
      ReadOverSkips(key[0], key[1], [key[2], key[3]] + rest);
    } else {
      rest := EMPTY_TEXT;
      IgnoredKeySpoils(key);
    }
    PingLeavesKey(key, rest);
  }

  /** A masked ping leaves the stream intact for the server exactly when its key is harmless. */
  lemma PingIsHarmlessExactlyWhen(key: seq<Byte>)
    requires |key| == 4
    ensures Harmless(key) <==> forall rest :: Pump(PingFrame(key) + rest).handled == Pump(rest).handled
  {
    if Harmless(key) {
      forall rest
        ensures Pump(PingFrame(key) + rest).handled == Pump(rest).handled
      {
        PingLeavesKey(key, rest);
        HarmlessIsReadOver(key, rest);
      }
    } else {
      var rest := OtherKeysSpoil(key);
    }
  }
}
