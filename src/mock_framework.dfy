/** The mock test framework (`app/.../test/MockFramework.kt`): the WebSocket
    frame encoder and decoder of its WebSocket mock (section 5.2 of RFC 6455
    for the layout, section 5.3 for masking), rule matching in the HTTP,
    WebSocket and UDP mocks, and the framework's registry of services and
    rules. Sockets, threads, the opening handshake and logging are left out. */
module MockFramework {
  import opened Wrappers
  import opened Text
  import opened Seqs
  import opened Sorting
  import opened Arith

  /** An unsigned byte; Kotlin's `b.toInt() and 0xFF`. */
  newtype byte = x: int | 0 <= x < 256

  /** Bitwise exclusive or of the low `bits` bits, lowest bit first. */
  function XorBits(a: nat, b: nat, bits: nat): (r: nat)
    requires a < Pow2(bits) && b < Pow2(bits)
    ensures r < Pow2(bits)
  {
    if bits == 0 then 0
    else (if a % 2 == b % 2 then 0 else 1) + 2 * XorBits(a / 2, b / 2, bits - 1)
  }

  /** Exclusive or with the same value twice gives the value back. */
  lemma {:induction false} XorBitsTwice(a: nat, k: nat, bits: nat)
    requires a < Pow2(bits) && k < Pow2(bits)
    ensures XorBits(XorBits(a, k, bits), k, bits) == a
  {
    if bits > 0 {
      var low, high := (if a % 2 == k % 2 then 0 else 1), XorBits(a / 2, k / 2, bits - 1);
      LowBitAndRest(low, high);
      XorBitsTwice(a / 2, k / 2, bits - 1);
    }
  }

  /** A bit and the number above it, put together and taken apart. */
  lemma LowBitAndRest(low: nat, high: nat)
    requires low < 2
    ensures (low + 2 * high) % 2 == low && (low + 2 * high) / 2 == high
  {
  }

  /** `(a.toInt() xor b.toInt()).toByte()`: the sign extension of both
      operands cancels in the low eight bits, which are all that is kept. */
  function Xor(a: byte, b: byte): (r: byte)
  {
    assert Pow2(8) == 256;
    XorBits(a as nat, b as nat, 8) as byte
  }

  lemma XorTwice(a: byte, k: byte)
    ensures Xor(Xor(a, k), k) == a
  {
    assert Pow2(8) == 256;
    XorBitsTwice(a as nat, k as nat, 8);
  }

  const TWO_31: int := 0x8000_0000
  const TWO_32: int := 0x1_0000_0000

  /** Kotlin `Int` arithmetic: the 32-bit two's-complement value of `x`. */
  function Int32(x: int): (r: int)
    ensures -TWO_31 <= r < TWO_31
    ensures -TWO_31 <= x < TWO_31 ==> r == x
    ensures (r - x) % TWO_32 == 0
  {
    (x + TWO_31) % TWO_32 - TWO_31
  }

  // ---------------------------------------------------------------------------
  // Frames

  /** Masking and unmasking: byte `i` is xor-ed with key byte `i mod 4`. */
  function Unmask(data: seq<byte>, key: seq<byte>): (r: seq<byte>)
    requires |key| == 4
    ensures |r| == |data|
    ensures forall i :: 0 <= i < |data| ==> r[i] == Xor(data[i], key[i % 4])
  {
    seq(|data|, i requires 0 <= i < |data| => Xor(data[i], key[i % 4]))
  }

  /** Masking is its own inverse. */
  lemma UnmaskTwice(data: seq<byte>, key: seq<byte>)
    requires |key| == 4
    ensures Unmask(Unmask(data, key), key) == data
  {
    forall i | 0 <= i < |data| ensures Unmask(Unmask(data, key), key)[i] == data[i] {
      XorTwice(data[i], key[i % 4]);
    }
  }

  /** The length field after the first two bytes, and the offset just past
      it: the 7-bit length, or a 16-bit big-endian length after 126, or,
      after 127, the low four bytes of the 64-bit length read as a Kotlin
      `Int` (the high four bytes are skipped unread). `None` when the
      extended length does not fit in the first `length` bytes. */
  function LengthField(b: seq<byte>): (r: Option<(int, nat)>)
    requires |b| >= 2
    ensures r.Some? ==> r.value.1 <= |b|
    ensures r.None? <==> (b[1] % 128 == 126 && |b| < 4) || (b[1] % 128 == 127 && |b| < 10)
    ensures b[1] % 128 < 126 ==> r == Some(((b[1] % 128) as int, 2))
    ensures b[1] % 128 == 126 && |b| >= 4 ==> r == Some((b[2] as int * 256 + b[3] as int, 4))
  {
    var len7 := (b[1] % 128) as int;
    if len7 == 126 then
      if 2 + 1 >= |b| then None else Some((b[2] as int * 256 + b[3] as int, 4))
    else if len7 == 127 then
      if 2 + 7 >= |b| then None
      else Some((Int32(b[6] as int * 0x100_0000 + b[7] as int * 0x1_0000 + b[8] as int * 0x100 + b[9] as int), 10))
    else Some((len7, 2))
  }

  /** `parseWebSocketFrame` on the bytes read, as a value: the payload of a
      text frame (opcode 1) with at least one payload byte available,
      unmasked when the mask bit is set and cut to the bytes present; `None`
      (the source's `null`) for anything else. */
  function ParseFrame(b: seq<byte>): (r: Option<seq<byte>>)
  {
    if |b| < 2 then None
    else
      var field := LengthField(b);
      if field.None? then None
      else
        var payload := FramePayload(b, b[1] >= 128, field.value.0, field.value.1);
        if payload.Some? && b[0] % 16 == 1 then payload else None
  }

  /** The rest of `parseWebSocketFrame` once the length field is read: the
      mask key, then the payload bytes present, unmasked; `None` when the key
      is cut off or no payload byte is present. The sums use Kotlin `Int`
      arithmetic. */
  function FramePayload(b: seq<byte>, masked: bool, payloadLength: int, offset: nat): (r: Option<seq<byte>>)
    requires offset <= |b|
  {
    if masked && offset + 3 >= |b| then None
    else
      var key := if masked then b[offset..offset + 4] else [];
      var dataStart := if masked then offset + 4 else offset;
      var sum := Int32(dataStart + payloadLength);
      var dataEnd := if sum <= |b| then sum else |b|;
      var actualDataLength := Int32(dataEnd - dataStart);
      if actualDataLength <= 0 then None
      else
        // `dataStart until dataEnd` is empty when the end lies before the start
        var data := if dataStart <= dataEnd then b[dataStart..dataEnd] else [];
        Some(if masked then Unmask(data, key) else data)
  }

  /** `parseWebSocketFrame` as evidently intended: the end of the payload is
      the smaller of `dataStart + payloadLength` and the bytes read, computed
      without 32-bit wrap-around, so a text frame yields a message exactly
      when at least one payload byte is present, and that message is the
      (unmasked) bytes present. */
  function ParseFrameChecked(b: seq<byte>): (r: Option<seq<byte>>)
    ensures r.Some? ==> 0 < |r.value| <= |b|
    ensures r.Some? ==> b[0] % 16 == 1
  {
    if |b| < 2 then None
    else
      var opcode := b[0] % 16;
      var masked := b[1] >= 128;
      var field := LengthField(b);
      if field.None? then None
      else
        var (payloadLength, offset) := field.value;
        if masked && offset + 3 >= |b| then None
        else
          var key := if masked then b[offset..offset + 4] else [];
          var dataStart := if masked then offset + 4 else offset;
          var dataEnd := Min(dataStart + payloadLength, |b|);
          if dataEnd - dataStart <= 0 then None
          else
            var data := b[dataStart..dataEnd];
            var decoded := if masked then Unmask(data, key) else data;
            if opcode == 1 then Some(decoded) else None
  }

  /** While the declared length plus the bytes read stays below 2^31 no sum
      wraps, and the source's parse and the intended one agree. */
  lemma ParseFrameCheckedAgrees(b: seq<byte>)
    requires |b| >= 2 && |b| + 4 < TWO_31
    requires LengthField(b).Some? ==> LengthField(b).value.0 + |b| + 4 < TWO_31
    ensures ParseFrame(b) == ParseFrameChecked(b)
  {
  }

  /** The wrap-around: a 12-byte text frame announcing 2^31 - 1 payload bytes
      and carrying "AB" parses to the empty message instead of "AB". */
  lemma ParseFrameOverflow()
    ensures var b: seq<byte> := [0x81, 0x7F, 0, 0, 0, 0, 0x7F, 0xFF, 0xFF, 0xFF, 0x41, 0x42];
      ParseFrame(b) == Some([]) && ParseFrameChecked(b) == Some([0x41, 0x42])
  {
    var b: seq<byte> := [0x81, 0x7F, 0, 0, 0, 0, 0x7F, 0xFF, 0xFF, 0xFF, 0x41, 0x42];
    assert LengthField(b) == Some((TWO_31 - 1, 10));
    assert Int32(10 + (TWO_31 - 1)) == 9 - TWO_31;
    assert Int32(9 - TWO_31 - 10) == TWO_31 - 1;
    assert b[10..12] == [0x41, 0x42];
  }

  /** `parseWebSocketFrame(buffer, length)`: reads the header with a moving
      offset, copies the payload and unmasks it in place. */
  method ParseWebSocketFrame(buffer: array<byte>, length: int) returns (message: Option<seq<byte>>)
    requires length <= buffer.Length
    ensures message == ParseFrame(buffer[..Max(length, 0)])
  {
    if length < 2 {
      return None;
    }
    var opcode := buffer[0] % 16;
    var mask := buffer[1] >= 128;
    var field := ReadLength(buffer, length);
    if field.None? {
      return None;
    }
    var payload := ReadPayload(buffer, length, mask, field.value.0, field.value.1);
    if payload.Some? && opcode == 1 {
      return payload;
    }
    return None;
  }

  /** From the mask key on: reads the key, computes the payload's end with
      Kotlin `Int` sums, copies and unmasks. */
  method ReadPayload(buffer: array<byte>, length: int, mask: bool, payloadLength: int, offset: nat)
    returns (payload: Option<seq<byte>>)
    requires offset <= length <= buffer.Length
    ensures payload == FramePayload(buffer[..length], mask, payloadLength, offset)
  {
    ghost var b := buffer[..length];
    var start := offset;
    var maskKey: seq<byte> := [];
    if mask {
      if start + 3 >= length {
        return None;
      }
      maskKey := buffer[start..start + 4];
      assert maskKey == b[start..start + 4];
      start := start + 4;
    }
    var dataStart := start;
    var dataEnd := if Int32(dataStart + payloadLength) <= length then Int32(dataStart + payloadLength) else length;
    var actualDataLength := Int32(dataEnd - dataStart);
    if actualDataLength <= 0 {
      return None;
    }
    var n := if dataStart <= dataEnd then dataEnd - dataStart else 0;
    var data := ExtractPayload(buffer, dataStart, n, mask, maskKey);
    assert (if dataStart <= dataEnd then b[dataStart..dataEnd] else []) == buffer[dataStart..dataStart + n] by {
      if dataStart <= dataEnd {
        assert b[dataStart..dataEnd] == buffer[..length][dataStart..dataEnd];
      }
    }
    return Some(data);
  }

  /** The length field as the source reads it, byte by byte from offset 2. */
  method ReadLength(buffer: array<byte>, length: int) returns (field: Option<(int, nat)>)
    requires 2 <= length <= buffer.Length
    ensures field == LengthField(buffer[..length])
  {
    var offset := 1;
    var payloadLength := (buffer[offset] % 128) as int;
    offset := offset + 1;
    if payloadLength == 126 {
      if offset + 1 >= length {
        return None;
      }
      payloadLength := buffer[offset] as int * 256 + buffer[offset + 1] as int;
      offset := offset + 2;
    } else if payloadLength == 127 {
      if offset + 7 >= length {
        return None;
      }
      offset := offset + 4;  // the high four bytes
      payloadLength := Int32(buffer[offset] as int * 0x100_0000 + buffer[offset + 1] as int * 0x1_0000
                             + buffer[offset + 2] as int * 0x100 + buffer[offset + 3] as int);
      offset := offset + 4;
    }
    return Some((payloadLength, offset));
  }

  /** `buffer.sliceArray(dataStart until dataStart + n)`, then, for a masked
      frame, the in-place loop `data[i] = data[i] xor maskKey[i % 4]`. */
  method ExtractPayload(buffer: array<byte>, dataStart: nat, n: nat, mask: bool, maskKey: seq<byte>) returns (payload: seq<byte>)
    requires dataStart + n <= buffer.Length
    requires mask ==> |maskKey| == 4
    ensures !mask ==> payload == buffer[dataStart..dataStart + n]
    ensures mask ==> payload == Unmask(buffer[dataStart..dataStart + n], maskKey)
  {
    var data := new byte[n];
    forall i | 0 <= i < n {
      data[i] := buffer[dataStart + i];
    }
    if mask {
      var i := 0;
      while i < n
        invariant 0 <= i <= n
        invariant forall j :: 0 <= j < i ==> data[j] == Xor(buffer[dataStart + j], maskKey[j % 4])
        invariant forall j :: i <= j < n ==> data[j] == buffer[dataStart + j]
      {
        data[i] := Xor(data[i], maskKey[i % 4]);
        i := i + 1;
      }
    }
    payload := data[..];
  }

  /** The header `createWebSocketFrame` writes for an `n`-byte payload: FIN
      and the opcode, then the length in the shortest of the three forms,
      big-endian, each byte the low eight bits of Kotlin's `toByte()`. */
  function FrameHeader(n: nat, opcode: byte): (h: seq<byte>)
    requires n < TWO_31
    ensures |h| == (if n < 126 then 2 else if n <= 0xFFFF then 4 else 10)
  {
    var first := ((0x80 as bv8 | opcode as bv8) as byte);
    if n < 126 then [first, n as byte]
    else if n <= 0xFFFF then [first, 126, (n / 0x100) as byte, (n % 0x100) as byte]
    else [first, 127, 0, 0, 0, 0, ((n / 0x100_0000) % 0x100) as byte, ((n / 0x1_0000) % 0x100) as byte,
          ((n / 0x100) % 0x100) as byte, (n % 0x100) as byte]
  }

  /** The frame `createWebSocketFrame(payload, opcode)` returns: the header,
      then the payload, unmasked. A Kotlin array holds fewer than 2^31 bytes. */
  function EncodeFrame(payload: seq<byte>, opcode: byte): (f: seq<byte>)
    requires |payload| < TWO_31
    ensures |f| == |FrameHeader(|payload|, opcode)| + |payload|
    ensures f[|f| - |payload|..] == payload
  {
    FrameHeader(|payload|, opcode) + payload
  }

  /** `createWebSocketFrame`: appends header and payload bytes to a list. */
  method CreateWebSocketFrame(payload: array<byte>, opcode: byte) returns (frame: seq<byte>)
    requires payload.Length < TWO_31
    ensures frame == EncodeFrame(payload[..], opcode)
  {
    var size := payload.Length;
    var first := (0x80 as bv8 | opcode as bv8) as byte;
    frame := [first];
    if size < 126 {
      frame := frame + [size as byte];
    } else if size <= 0xFFFF {
      frame := frame + [126];
      frame := frame + [(size / 0x100) as byte];
      frame := frame + [(size % 0x100) as byte];
    } else {
      frame := frame + [127];
      var i := 0;
      while i < 4
        invariant 0 <= i <= 4
        invariant frame == [first, 127] + seq(i, _ => 0 as byte)
      {
        frame := frame + [0];
        i := i + 1;
      }
      frame := frame + [((size / 0x100_0000) % 0x100) as byte];
      frame := frame + [((size / 0x1_0000) % 0x100) as byte];
      frame := frame + [((size / 0x100) % 0x100) as byte];
      frame := frame + [(size % 0x100) as byte];
    }
    assert frame == FrameHeader(size, opcode);
    var j := 0;
    while j < size
      invariant 0 <= j <= size
      invariant frame == FrameHeader(size, opcode) + payload[..j]
    {
      frame := frame + [payload[j]];
      assert payload[..j + 1] == payload[..j] + [payload[j]];
      j := j + 1;
    }
    assert payload[..size] == payload[..];
  }

  /** A frame shorter than two bytes, or whose extended length or mask key
      is cut off, parses to `None`. */
  lemma ParseFrameTruncated(b: seq<byte>)
    ensures |b| < 2 ==> ParseFrame(b) == None
    ensures |b| >= 2 && b[1] % 128 == 126 && |b| < 4 ==> ParseFrame(b) == None
    ensures |b| >= 2 && b[1] % 128 == 127 && |b| < 10 ==> ParseFrame(b) == None
    ensures |b| >= 2 && b[1] >= 128 && b[1] % 128 < 126 && |b| < 6 ==> ParseFrame(b) == None
    ensures |b| >= 4 && b[1] >= 128 && b[1] % 128 == 126 && |b| < 8 ==> ParseFrame(b) == None
  {
  }

  /** A short masked text frame decodes byte `i` of its payload as the
      received byte xor key byte `i mod 4`, cut to the bytes present. */
  lemma ParseMaskedShortFrame(b: seq<byte>)
    requires |b| >= 6 && b[0] % 16 == 1 && b[1] >= 128 && b[1] % 128 < 126
    ensures var n := (b[1] % 128) as int;
      var data := b[6..Min(6 + n, |b|)];
      ParseFrame(b) == if |data| > 0 then Some(Unmask(data, b[2..6])) else None
  {
  }

  /** Only text frames carry a message: any other opcode parses to `None`. */
  lemma ParseFrameTextOnly(b: seq<byte>)
    requires |b| >= 1 && b[0] % 16 != 1
    ensures ParseFrame(b) == None
  {
  }

  /** The first header byte keeps the opcode in its low four bits. */
  lemma FirstByteOpcode(opcode: byte)
    requires opcode < 16
    ensures ((0x80 as bv8 | opcode as bv8) as byte) % 16 == opcode
    ensures ((0x80 as bv8 | opcode as bv8) as byte) >= 128
  {
    var o := opcode as bv8;
    assert (0x80 | o) as int == 128 + o as int;
  }

  /** Encoder and decoder agree: a text frame of a non-empty payload parses
      back to that payload, in each of the three length forms. */
  lemma TextFrameRoundTrip(p: seq<byte>)
    requires 0 < |p| && |p| + 10 < TWO_31
    ensures ParseFrame(EncodeFrame(p, 1)) == Some(p)
    ensures ParseFrameChecked(EncodeFrame(p, 1)) == Some(p)
  {
    FirstByteOpcode(1);
    if |p| < 126 {
      ShortFrameRoundTrip(p);
    } else if |p| <= 0xFFFF {
      MediumFrameRoundTrip(p);
    } else {
      LongFrameRoundTrip(p);
    }
  }

  /** The payload of an unmasked frame whose header is `h`, when the header
      announces exactly the payload's length. */
  lemma UnmaskedPayload(h: seq<byte>, p: seq<byte>, offset: nat)
    requires |h| == offset && |h| >= 2 && 0 < |p| && offset + |p| < TWO_31
    requires h[0] % 16 == 1 && h[1] < 128
    requires LengthField(h + p) == Some((|p|, offset))
    ensures ParseFrame(h + p) == Some(p)
    ensures ParseFrameChecked(h + p) == Some(p)
  {
    var f := h + p;
    assert f[0] == h[0] && f[1] == h[1];
    assert f[offset..offset + |p|] == p by {
      assert offset + |p| == |f|;
    }
    assert Int32(offset + |p|) == offset + |p|;
    assert Int32(|p|) == |p|;
    assert FramePayload(f, false, |p|, offset) == Some(p);
  }

  lemma ShortFrameRoundTrip(p: seq<byte>)
    requires 0 < |p| < 126
    ensures ParseFrame(EncodeFrame(p, 1)) == Some(p)
    ensures ParseFrameChecked(EncodeFrame(p, 1)) == Some(p)
  {
    FirstByteOpcode(1);
    var h := FrameHeader(|p|, 1);
    var f := h + p;
    assert f[1] == |p| as byte;
    UnmaskedPayload(h, p, 2);
  }

  lemma MediumFrameRoundTrip(p: seq<byte>)
    requires 126 <= |p| <= 0xFFFF
    ensures ParseFrame(EncodeFrame(p, 1)) == Some(p)
    ensures ParseFrameChecked(EncodeFrame(p, 1)) == Some(p)
  {
    FirstByteOpcode(1);
    var n := |p|;
    var h := FrameHeader(n, 1);
    var f := h + p;
    assert f[1] == 126 && f[2] == (n / 0x100) as byte && f[3] == (n % 0x100) as byte;
    assert f[2] as int * 256 + f[3] as int == n;
    UnmaskedPayload(h, p, 4);
  }

  lemma LongFrameRoundTrip(p: seq<byte>)
    requires 0xFFFF < |p| && |p| + 10 < TWO_31
    ensures ParseFrame(EncodeFrame(p, 1)) == Some(p)
    ensures ParseFrameChecked(EncodeFrame(p, 1)) == Some(p)
  {
    FirstByteOpcode(1);
    var n := |p|;
    var h := FrameHeader(n, 1);
    var f := h + p;
    assert f[1] == 127;
    assert f[6] == ((n / 0x100_0000) % 0x100) as byte && f[7] == ((n / 0x1_0000) % 0x100) as byte;
    assert f[8] == ((n / 0x100) % 0x100) as byte && f[9] == (n % 0x100) as byte;
    BigEndian4(n);
    assert LengthField(f) == Some((n, 10));
    UnmaskedPayload(h, p, 10);
  }

  /** The four low bytes of a number below 2^31, big-endian, read back. */
  lemma BigEndian4(n: nat)
    requires n < TWO_31
    ensures ((n / 0x100_0000) % 0x100) * 0x100_0000 + ((n / 0x1_0000) % 0x100) * 0x1_0000
            + ((n / 0x100) % 0x100) * 0x100 + n % 0x100 == n
  {
    var q1, q2, q3 := n / 0x100, n / 0x1_0000, n / 0x100_0000;
    assert n == q1 * 0x100 + n % 0x100;
    assert q2 == q1 / 0x100 && q1 == q2 * 0x100 + q1 % 0x100;
    assert q3 == q2 / 0x100 && q2 == q3 * 0x100 + q2 % 0x100;
    assert q3 < 0x100;
  }

  /** A frame with any other opcode, or with an empty payload, carries no
      message. */
  lemma EncodeFrameNoMessage(p: seq<byte>, opcode: byte)
    requires |p| + 10 < TWO_31 && opcode < 16
    requires opcode != 1 || |p| == 0
    ensures ParseFrame(EncodeFrame(p, opcode)) == None
  {
    var f := EncodeFrame(p, opcode);
    FirstByteOpcode(opcode);
    assert f[0] == FrameHeader(|p|, opcode)[0];
    if opcode == 1 {
      var h := FrameHeader(0, opcode);
      assert f == h;
    }
  }

  // ---------------------------------------------------------------------------
  // Rules

  datatype Protocol = HTTP | WEBSOCKET | UDP | TCP

  /** `protocol.name.lowercase()`, the name of the service for a protocol. */
  function ServiceNameOf(p: Protocol): string
  {
    match p
    case HTTP => "http"
    case WEBSOCKET => "websocket"
    case UDP => "udp"
    case TCP => "tcp"
  }

  /** `MockResponse`; `body` is the UTF-8 text of `body?.toString()`, and the
      callback and headers are left out. */
  datatype MockResponse = MockResponse(statusCode: int, body: Option<seq<byte>>, delay: int)

  /** `MockRule`; the conditions are carried but never evaluated by the source. */
  datatype MockRule = MockRule(id: string, protocol: Protocol, path: string, httpMethod: string,
                               response: MockResponse, priority: int, enabled: bool)

  /** The parts of a `MockRequest` the matchers read. */
  datatype MockRequest = MockRequest(protocol: Protocol, path: string, httpMethod: string, body: Option<seq<byte>>)

  function Priority(r: MockRule): int { r.priority }

  /** Kotlin `equals(other, ignoreCase = true)` on ASCII text. */
  predicate EqualsIgnoreCase(a: string, b: string)
  {
    |a| == |b| && ToUpper(a) == ToUpper(b)
  }

  datatype ServiceKind = HttpService | WebSocketService | UdpService

  /** `getServiceName()` */
  function NameOf(kind: ServiceKind): (name: string)
    ensures name in {"http", "websocket", "udp"}
  {
    match kind
    case HttpService => "http"
    case WebSocketService => "websocket"
    case UdpService => "udp"
  }

  /** The condition each service's `findMatchingRule` tests after sorting:
      HTTP needs the protocol, the method ignoring case and the exact path;
      the WebSocket and UDP mocks only look at the protocol. */
  predicate Matches(kind: ServiceKind, rule: MockRule, req: MockRequest)
  {
    match kind
    case HttpService => rule.protocol == HTTP && EqualsIgnoreCase(rule.httpMethod, req.httpMethod) && rule.path == req.path
    case WebSocketService => rule.protocol == WEBSOCKET
    case UdpService => rule.protocol == UDP
  }

  function Candidate(kind: ServiceKind, req: MockRequest): MockRule -> bool
  {
    (rule: MockRule) => rule.enabled && Matches(kind, rule, req)
  }

  /** `findMatchingRule`: enabled rules, sorted by descending priority (a
      stable sort), first match. That is the earliest enabled matching rule
      of greatest priority, or `None` when no enabled rule matches. */
  function FindMatchingRule(kind: ServiceKind, rules: seq<MockRule>, req: MockRequest): (r: Option<MockRule>)
    ensures var k := BestIndex(rules, Priority, Candidate(kind, req));
      (r.None? <==> k.None?) && (k.Some? ==> r == Some(rules[k.value]))
  {
    var enabled := Filter(rules, (rule: MockRule) => rule.enabled);
    var found := FirstWhere(SortBy(enabled, Priority, true), (rule: MockRule) => Matches(kind, rule, req));
    FirstOfSortedIsBest(enabled, Priority, (rule: MockRule) => Matches(kind, rule, req));
    BestOfFilter(rules, (rule: MockRule) => rule.enabled, Priority, (rule: MockRule) => Matches(kind, rule, req),
                 Candidate(kind, req));
    found
  }

  /** What the HTTP mock answers: no enabled HTTP rule for the method and
      path means no rule, and any rule found is enabled, matches, and has the
      greatest priority of all matching rules, the earliest of them on a tie. */
  lemma HttpRuleChoice(rules: seq<MockRule>, req: MockRequest)
    ensures var r := FindMatchingRule(HttpService, rules, req);
      (r.None? <==> forall i :: 0 <= i < |rules| ==>
                     !(rules[i].enabled && rules[i].protocol == HTTP && EqualsIgnoreCase(rules[i].httpMethod, req.httpMethod) && rules[i].path == req.path))
      && (r.Some? ==> r.value.enabled && r.value.protocol == HTTP && r.value.path == req.path
                      && EqualsIgnoreCase(r.value.httpMethod, req.httpMethod))
      && (r.Some? ==> forall i :: 0 <= i < |rules| && Candidate(HttpService, req)(rules[i]) ==> rules[i].priority <= r.value.priority)
  {
    var k := BestIndex(rules, Priority, Candidate(HttpService, req));
    if k.Some? {
      assert Candidate(HttpService, req)(rules[k.value]);
    }
  }

  /** The reply the WebSocket mock sends for one read: a text frame of the
      rule's body (or "{}") when the frame carries a message and an enabled
      WebSocket rule exists. The received frame is read with the parse as
      written, 32-bit wrap-around included. */
  function WebSocketReply(rules: seq<MockRule>, received: seq<byte>): (reply: Option<seq<byte>>)
    ensures reply.Some? ==> ParseFrame(received).Some?
    ensures reply.Some? ==> FindMatchingRule(WebSocketService, rules, MockRequest(WEBSOCKET, "/", "MESSAGE", ParseFrame(received))).Some?
    ensures ParseFrame(received).Some? ==>
      var rule := FindMatchingRule(WebSocketService, rules, MockRequest(WEBSOCKET, "/", "MESSAGE", ParseFrame(received)));
      rule.Some? && |rule.value.response.body.GetOr(['{' as byte, '}' as byte])| < TWO_31 ==>
        reply == Some(EncodeFrame(rule.value.response.body.GetOr(['{' as byte, '}' as byte]), 1))
  {
    var message := ParseFrame(received);
    if message.None? then None
    else
      var rule := FindMatchingRule(WebSocketService, rules, MockRequest(WEBSOCKET, "/", "MESSAGE", message));
      if rule.None? then None
      else
        var body := rule.value.response.body.GetOr(['{' as byte, '}' as byte]);
        if |body| < TWO_31 then Some(EncodeFrame(body, 1)) else None
  }

  /** A client reading the reply with the same parse gets the rule's body
      back. */
  lemma WebSocketReplyReadable(rules: seq<MockRule>, received: seq<byte>)
    requires WebSocketReply(rules, received).Some?
    ensures var rule := FindMatchingRule(WebSocketService, rules, MockRequest(WEBSOCKET, "/", "MESSAGE", ParseFrame(received))).value;
      var body := rule.response.body.GetOr(['{' as byte, '}' as byte]);
      |body| > 0 && |body| + 10 < TWO_31 ==> ParseFrame(WebSocketReply(rules, received).value) == Some(body)
  {
    var rule := FindMatchingRule(WebSocketService, rules, MockRequest(WEBSOCKET, "/", "MESSAGE", ParseFrame(received))).value;
    var body := rule.response.body.GetOr(['{' as byte, '}' as byte]);
    if |body| > 0 && |body| + 10 < TWO_31 {
      TextFrameRoundTrip(body);
    }
  }

  // ---------------------------------------------------------------------------
  // The registry

  /** A mock service's state: its kind, its own rule list and `isRunning`. */
  datatype MockService = MockService(kind: ServiceKind, rules: seq<MockRule>, running: bool)

  /** `removeIf { it.id == ruleId }` */
  function WithoutId(rules: seq<MockRule>, id: string): (r: seq<MockRule>)
    ensures forall i :: 0 <= i < |r| ==> r[i].id != id && r[i] in rules
    ensures forall i :: 0 <= i < |rules| && rules[i].id != id ==> rules[i] in r
  {
    Filter(rules, (rule: MockRule) => rule.id != id)
  }

  class Framework {
    /** `mockServices`, by service name. */
    var services: map<string, MockService>
    /** `mockRules`, keyed by protocol (the source keys by the protocol's name). */
    var globalRules: map<Protocol, seq<MockRule>>
    var isInitialized: bool

    ghost predicate Valid()
      reads this
    {
      forall n :: n in services ==> NameOf(services[n].kind) == n
    }

    constructor ()
      ensures Valid() && services == map[] && globalRules == map[] && !isInitialized
    {
      services := map[];
      globalRules := map[];
      isInitialized := false;
    }

    /** `initialize()`: only the first call (compare-and-set) registers the
        three default services, each with no rules and not running. */
    method Initialize()
      requires Valid()
      modifies this
      ensures Valid() && isInitialized && globalRules == old(globalRules)
      ensures old(isInitialized) ==> services == old(services)
      ensures !old(isInitialized) ==>
        services == old(services)["http" := MockService(HttpService, [], false)]
                                 ["websocket" := MockService(WebSocketService, [], false)]
                                 ["udp" := MockService(UdpService, [], false)]
    {
      if !isInitialized {
        isInitialized := true;
        RegisterMockService(MockService(HttpService, [], false));
        RegisterMockService(MockService(WebSocketService, [], false));
        RegisterMockService(MockService(UdpService, [], false));
      }
    }

    /** `registerMockService(service)`: stored under its own name, replacing
        any service of that name. */
    method RegisterMockService(service: MockService)
      requires Valid()
      modifies this`services
      ensures Valid()
      ensures services == old(services)[NameOf(service.kind) := service]
    {
      services := services[NameOf(service.kind) := service];
    }

    /** `getMockService(name)` */
    function GetMockService(name: string): (s: Option<MockService>)
      reads this
      requires Valid()
      ensures s.Some? <==> name in services
      ensures s.Some? ==> s.value == services[name] && NameOf(s.value.kind) == name
    {
      if name in services then Some(services[name]) else None
    }

    /** `addMockRule(rule)`: the rule is appended to the service named after
        its protocol and to the global list for the protocol; with no such
        service (always the case for TCP), nothing changes. */
    method AddMockRule(rule: MockRule)
      requires Valid()
      modifies this`services, this`globalRules
      ensures Valid()
      ensures ServiceNameOf(rule.protocol) !in old(services) ==> services == old(services) && globalRules == old(globalRules)
      ensures ServiceNameOf(rule.protocol) in old(services) ==>
        var name := ServiceNameOf(rule.protocol);
        services == old(services)[name := old(services)[name].(rules := old(services)[name].rules + [rule])]
        && globalRules == old(globalRules)[rule.protocol := (if rule.protocol in old(globalRules) then old(globalRules)[rule.protocol] else []) + [rule]]
    {
      var name := ServiceNameOf(rule.protocol);
      var service := GetMockService(name);
      if service.Some? {
        services := services[name := service.value.(rules := service.value.rules + [rule])];
        var list := if rule.protocol in globalRules then globalRules[rule.protocol] else [];
        globalRules := globalRules[rule.protocol := list + [rule]];
      }
    }

    /** `removeMockRule(id)`: the id disappears from every service and every
        global list; all other rules stay. */
    method RemoveMockRule(id: string)
      requires Valid()
      modifies this`services, this`globalRules
      ensures Valid()
      ensures services.Keys == old(services).Keys && globalRules.Keys == old(globalRules).Keys
      ensures forall n :: n in services ==>
        services[n] == old(services)[n].(rules := WithoutId(old(services)[n].rules, id))
      ensures forall p :: p in globalRules ==> globalRules[p] == WithoutId(old(globalRules)[p], id)
    {
      services := map n | n in services :: services[n].(rules := WithoutId(services[n].rules, id));
      globalRules := map p | p in globalRules :: WithoutId(globalRules[p], id);
    }

    /** `clearAllMockRules()` */
    method ClearAllMockRules()
      requires Valid()
      modifies this`services, this`globalRules
      ensures Valid() && globalRules == map[]
      ensures services.Keys == old(services).Keys
      ensures forall n :: n in services ==> services[n] == old(services)[n].(rules := [])
    {
      services := map n | n in services :: services[n].(rules := []);
      globalRules := map[];
    }

    /** `startAllMockServices()` / `stopAllMockServices()`: every service's
        running flag is set to `running`; binding the sockets is left out. */
    method SetAllRunning(running: bool)
      requires Valid()
      modifies this`services
      ensures Valid()
      ensures services.Keys == old(services).Keys
      ensures forall n :: n in services ==> services[n] == old(services)[n].(running := running)
    {
      services := map n | n in services :: services[n].(running := running);
    }

    /** `shutdown()`: services stopped, then both registries emptied and the
        framework marked uninitialised, so `initialize` works again. */
    method Shutdown()
      requires Valid()
      modifies this
      ensures Valid() && services == map[] && globalRules == map[] && !isInitialized
    {
      SetAllRunning(false);
      services := map[];
      globalRules := map[];
      isInitialized := false;
    }
  }

  /** After `removeMockRule(id)` no service can match a rule with that id. */
  lemma RemovedRuleNeverMatches(kind: ServiceKind, rules: seq<MockRule>, id: string, req: MockRequest)
    ensures var r := FindMatchingRule(kind, WithoutId(rules, id), req); r.Some? ==> r.value.id != id && r.value in rules
  {
    var rs := WithoutId(rules, id);
    var k := BestIndex(rs, Priority, Candidate(kind, req));
    if k.Some? {
      assert rs[k.value] in rs;
    }
  }
}
