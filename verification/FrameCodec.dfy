/** WebSocket frames (sections 5.2 and 5.3 of RFC 6455) as the two probes write and read them: one
    encoder, and two decoders that take a frame off the front of the bytes received so far. */
module FrameCodec {
  import opened Options
  import opened BigEndian

  const MAX_LENGTH: nat := 0x1_0000_0000_0000_0000

  // ---- the encoder ----

  /** The length byte, with `flag` in its top bit, and the extended length it announces. */
  function LengthField(flag: Byte, n: nat): Bytes
    requires n < MAX_LENGTH
  {
    if n < 126 then [flag | ToByte(n)]
    else if n < 65536 then [flag | 126] + BE(n, 2)
    else [flag | 127] + BE(n, 8)
  }

  function Masked(payload: Bytes, mask: Bytes): Bytes
    requires |mask| == 4
  {
    seq(|payload|, i requires 0 <= i < |payload| => payload[i] ^ mask[i % 4])
  }

  lemma MaskTwice(payload: Bytes, mask: Bytes)
    requires |mask| == 4
    ensures Masked(Masked(payload, mask), mask) == payload
  {
    forall i | 0 <= i < |payload| ensures Masked(Masked(payload, mask), mask)[i] == payload[i] {
      XorTwice(payload[i], mask[i % 4]);
    }
  }

  lemma XorTwice(b: Byte, m: Byte)
    ensures (b ^ m) ^ m == b
  {
  }

  /** A final text frame from a client: masked, in the shortest length form. */
  function EncodeText(payload: Bytes, mask: Bytes): Bytes
    requires |mask| == 4 && |payload| < MAX_LENGTH
  {
    [0x81] + LengthField(0x80, |payload|) + mask + Masked(payload, mask)
  }

  /** An unmasked frame from a server, `b1` carrying its flags and opcode. */
  function EncodeServer(b1: Byte, payload: Bytes): Bytes
    requires |payload| < MAX_LENGTH
  {
    [b1] + LengthField(0, |payload|) + payload
  }

  /** The length byte and the extended length, appended to a header of the flags alone. */
  method AppendLength(header: Bytes, length: nat) returns (longer: Bytes)
    requires length < MAX_LENGTH
    ensures longer == header + LengthField(0x80, length)
  {
    hide BE, ToByte;
    if length < 126 {
      longer := header + [0x80 | ToByte(length)];
    } else if length < 65536 {
      longer := header + [0x80 | 126];
      longer := longer + BE(length, 2);
    } else {
      longer := header + [0x80 | 127];
      longer := longer + BE(length, 8);
    }
  }

  /** `_send_text_frame` and `send_text`: the header grows piece by piece. */
  method SendTextFrame(payload: Bytes, mask: Bytes) returns (wire: Bytes)
    requires |mask| == 4 && |payload| < MAX_LENGTH
    ensures wire == EncodeText(payload, mask)
  {
    hide LengthField;
    var header := AppendLength([0x81], |payload|);
    header := header + mask;
    var masked: Bytes := [];
    for i := 0 to |payload|
      invariant masked == Masked(payload, mask)[..i]
    {
      masked := masked + [payload[i] ^ mask[i % 4]];
    }
    wire := header + masked;
  }

  // ---- the first decoder ----

  datatype Frame = Frame(opcode: Byte, payload: Bytes, closeCode: Option<nat>)
  datatype Parse = MaskedFrame | Partial(data: Bytes) | Parsed(frame: Frame, rest: Bytes)

  function MakeFrame(opcode: Byte, payload: Bytes): Frame {
    Frame(opcode, payload, if opcode == 8 && |payload| >= 2 then Some(FromBE(payload[..2])) else None)
  }

  datatype Header = Short | MaskBit | Header(opcode: Byte, idx: nat, length: nat)

  /** The header at the front of the data: where the payload starts and how long it is. */
  function ReadHeader(data: Bytes): Header {
    if |data| < 2 then Short else
    var opcode := data[0] & 0x0F;
    if data[1] & 0x80 != 0 then MaskBit else
    var length := Value(data[1] & 0x7F);
    if length == 126 then
      if |data| < 4 then Short else Header(opcode, 4, FromBE(data[2..4]))
    else if length == 127 then
      if |data| < 10 then Short else Header(opcode, 10, FromBE(data[2..10]))
    else Header(opcode, 2, length)
  }

  /** `_try_parse_frame`: a frame and the bytes after it, or the data unchanged while it is
      incomplete, or a refusal of a masked server frame. */
  function TryParse(data: Bytes): Parse {
    match ReadHeader(data)
    case Short => Partial(data)
    case MaskBit => MaskedFrame
    case Header(opcode, idx, length) =>
      if |data| < idx + length then Partial(data)
      else Parsed(MakeFrame(opcode, data[idx..idx + length]), data[idx + length..])
  }

  // ---- the second decoder ----

  datatype Received = Waiting | Got(opcode: Byte, payload: Bytes, rest: Bytes)

  /** The payload's length and the header's size. There is no case for an extended length still
      arriving: the marker 126 or 127 then stands for the length, and the buffer is too short. */
  function ReceivedHeader(data: Bytes): (nat, nat)
    requires |data| >= 2
  {
    var short := Value(data[1] & 0x7F);
    if short == 126 && |data| >= 4 then (FromBE(data[2..4]), 4)
    else if short == 127 && |data| >= 10 then (FromBE(data[2..10]), 10)
    else (short, 2)
  }

  /** One pass of `recv_frame` over its buffer. */
  function ParseReceived(data: Bytes): Received {
    if |data| < 2 then Waiting else
    var op := data[0] & 0x0F;
    var masked := data[1] & 0x80 != 0;
    var (ln, i) := ReceivedHeader(data);
    if masked && |data| >= i + 4 + ln then
      Got(op, Masked(data[i + 4..i + 4 + ln], data[i..i + 4]), data[i + 4 + ln..])
    else if !masked && |data| >= i + ln then Got(op, data[i..i + ln], data[i + ln..])
    else Waiting
  }

  // ---- what the header bytes say ----

  lemma HeaderBits(flag: Byte, n: Byte)
    requires n < 128 && (flag == 0 || flag == 0x80)
    ensures (flag | n) & 0x7F == n && (flag | n) & 0x80 == flag
  {
  }

  /** The length field is read back to the length it was written for, by either decoder. */
  lemma LengthFieldReads(flag: Byte, n: nat, tail: Bytes)
    requires n < MAX_LENGTH && (flag == 0 || flag == 0x80)
    ensures var f := LengthField(flag, n) + tail;
            && f[0] & 0x80 == flag
            && match |LengthField(flag, n)|
               case 1 => Value(f[0] & 0x7F) == n < 126
               case 3 => Value(f[0] & 0x7F) == 126 && FromBE(f[1..3]) == n
               case 9 => Value(f[0] & 0x7F) == 127 && FromBE(f[1..9]) == n
               case _ => false
  {
    var f := LengthField(flag, n) + tail;
    Powers();
    if n < 126 {
      ByteRoundTrip(n);
      HeaderBits(flag, ToByte(n));
    } else if n < 65536 {
      HeaderBits(flag, 126);
      assert f[1..3] == BE(n, 2);
      BERoundTrip(n, 2);
    } else {
      HeaderBits(flag, 127);
      assert f[1..9] == BE(n, 8);
      BERoundTrip(n, 8);
    }
  }

  // ---- round trips ----

  lemma TextHeader(payload: Bytes, mask: Bytes, tail: Bytes)
    requires |mask| == 4 && |payload| < MAX_LENGTH
    ensures var data := EncodeText(payload, mask) + tail;
            && |data| >= 2 && data[0] == 0x81 && data[1] & 0x80 == 0x80
            && ReceivedHeader(data) == (|payload|, 1 + |LengthField(0x80, |payload|)|)
  {
    hide LengthField, ReceivedHeader, Masked;
    var body := mask + Masked(payload, mask) + tail;
    FieldReceived(0x81, |payload|, body);
    assert EncodeText(payload, mask) + tail == [0x81] + (LengthField(0x80, |payload|) + body);
  }

  lemma FieldReceived(b1: Byte, n: nat, body: Bytes)
    requires n < MAX_LENGTH
    ensures var data := [b1] + (LengthField(0x80, n) + body);
            && |data| >= 2 && data[0] == b1 && data[1] & 0x80 == 0x80
            && ReceivedHeader(data) == (n, 1 + |LengthField(0x80, n)|)
  {
    var f := LengthField(0x80, n) + body;
    LengthFieldReads(0x80, n, body);
    hide LengthField, FromBE, Value;
    var data := [b1] + f;
    assert data[1] == f[0] && data[0] == b1;
    assert |LengthField(0x80, n)| == 3 ==> data[2..4] == f[1..3];
    assert |LengthField(0x80, n)| == 9 ==> data[2..10] == f[1..9];
  }

  /** Decoding a masked text frame gives opcode 1, the payload and exactly the bytes that follow,
      for every payload, every mask and every continuation. */
  lemma TextRoundTrip(payload: Bytes, mask: Bytes, tail: Bytes)
    requires |mask| == 4 && |payload| < MAX_LENGTH
    ensures ParseReceived(EncodeText(payload, mask) + tail) == Got(1, payload, tail)
  {
    TextHeader(payload, mask, tail);
    MaskTwice(payload, mask);
    assert 0x81 & 0x0F == 1 as Byte;
    var data, i, n := EncodeText(payload, mask) + tail, 1 + |LengthField(0x80, |payload|)|, |payload|;
    assert |Masked(payload, mask)| == n;
    hide ReceivedHeader, LengthField, Masked;
    Slices([0x81] + LengthField(0x80, n), mask, Masked(payload, mask), tail);
  }

  lemma Slices(a: Bytes, b: Bytes, c: Bytes, d: Bytes)
    ensures var all, i, j := a + b + c + d, |a| + |b|, |a| + |b| + |c|;
            && |all| >= j && all[|a|..i] == b && all[i..j] == c && all[j..] == d
  {}

  lemma Grouped(a: Bytes, b: Bytes, c: Bytes, d: Bytes)
    ensures a + b + c + d == a + (b + (c + d)) && a + b + c + d == a + b + (c + d)
  {}

  lemma ServerHeader(b1: Byte, payload: Bytes, tail: Bytes)
    requires |payload| < MAX_LENGTH
    ensures ReadHeader(EncodeServer(b1, payload) + tail)
         == Header(b1 & 0x0F, 1 + |LengthField(0, |payload|)|, |payload|)
  {
    hide LengthField, ReadHeader;
    FieldHeader(b1, |payload|, payload + tail);
    assert EncodeServer(b1, payload) + tail == [b1] + (LengthField(0, |payload|) + (payload + tail));
  }

  lemma FieldHeader(b1: Byte, n: nat, body: Bytes)
    requires n < MAX_LENGTH
    ensures ReadHeader([b1] + (LengthField(0, n) + body)) == Header(b1 & 0x0F, 1 + |LengthField(0, n)|, n)
  {
    var f := LengthField(0, n) + body;
    LengthFieldReads(0, n, body);
    hide LengthField, FromBE, Value;
    var data := [b1] + f;
    assert data[1] == f[0] && data[0] == b1;
    assert |LengthField(0, n)| == 3 ==> data[2..4] == f[1..3];
    assert |LengthField(0, n)| == 9 ==> data[2..10] == f[1..9];
  }

  /** The code a close frame carries in its first two bytes (section 5.5.1 of RFC 6455). */
  function CodeIn(opcode: Byte, payload: Bytes): Option<nat> {
    if opcode == 8 && |payload| >= 2 then Some(Value(payload[0]) * 256 + Value(payload[1])) else None
  }

  /** A server's frame is taken off the front whole, and nothing else. */
  lemma ServerRoundTrip(b1: Byte, payload: Bytes, tail: Bytes)
    requires |payload| < MAX_LENGTH
    ensures TryParse(EncodeServer(b1, payload) + tail)
         == Parsed(Frame(b1 & 0x0F, payload, CodeIn(b1 & 0x0F, payload)), tail)
  {
    ServerHeader(b1, payload, tail);
    CodeIsRead(b1 & 0x0F, payload);
    hide ReadHeader, LengthField, MakeFrame;
    var data := EncodeServer(b1, payload) + tail;
    var i := 1 + |LengthField(0, |payload|)|;
    assert data[i..i + |payload|] == payload;
    assert data[i + |payload|..] == tail;
  }

  lemma CodeIsRead(opcode: Byte, payload: Bytes)
    ensures MakeFrame(opcode, payload) == Frame(opcode, payload, CodeIn(opcode, payload))
  {
    if |payload| >= 2 { TwoBytes(payload[..2]); }
    hide FromBE, Value;
  }

  /** Whatever code a server closes with, the decoder reads that code. */
  lemma CloseCodeRoundTrip(code: nat, reason: Bytes, tail: Bytes)
    requires code < 65536 && |reason| + 2 < MAX_LENGTH
    ensures var payload := BE(code, 2) + reason;
            TryParse(EncodeServer(0x88, payload) + tail) == Parsed(Frame(8, payload, Some(code)), tail)
  {
    var payload := BE(code, 2) + reason;
    assert 0x88 & 0x0F == 8 as Byte;
    Powers();
    BERoundTrip(code, 2);
    assert payload[..2] == BE(code, 2);
    TwoBytes(payload[..2]);
    hide BE, FromBE, Value, EncodeServer, TryParse;
    ServerRoundTrip(0x88, payload, tail);
  }

  /** The bytes of a client's text frame, one by one: final and text, masked with the shortest length
      form, the mask, and the payload under it. */
  lemma TextFrameLayout(payload: Bytes, mask: Bytes)
    requires |mask| == 4 && |payload| < MAX_LENGTH
    ensures var (w, n) := (EncodeText(payload, mask), |payload|);
            var h := if n < 126 then 2 else if n < 65536 then 4 else 10;
            && |w| == h + 4 + n && w[0] == 0x81 && w[1] & 0x80 == 0x80
            && (if n < 126 then Value(w[1] & 0x7F) == n
                else if n < 65536 then Value(w[1] & 0x7F) == 126 && Value(w[2]) * 256 + Value(w[3]) == n
                else Value(w[1] & 0x7F) == 127 && FromBE(w[2..10]) == n)
            && w[h..h + 4] == mask && forall i :: 0 <= i < n ==> w[h + 4 + i] == payload[i] ^ mask[i % 4]
  {
    var (w, n, field) := (EncodeText(payload, mask), |payload|, LengthField(0x80, |payload|));
    var body := mask + Masked(payload, mask);
    HeaderLayout(n, body);
    FieldSize(n);
    BodyLayout([0x81] + field, payload, mask);
    hide LengthField, FromBE, Value, Masked;
    Grouped([0x81], field, mask, Masked(payload, mask));
  }

  lemma HeaderLayout(n: nat, body: Bytes)
    requires n < MAX_LENGTH
    ensures var w := [0x81] + (LengthField(0x80, n) + body);
            && |w| >= (if n < 126 then 2 else if n < 65536 then 4 else 10)
            && w[0] == 0x81 && w[1] & 0x80 == 0x80
            && (if n < 126 then Value(w[1] & 0x7F) == n
                else if n < 65536 then Value(w[1] & 0x7F) == 126 && Value(w[2]) * 256 + Value(w[3]) == n
                else Value(w[1] & 0x7F) == 127 && FromBE(w[2..10]) == n)
  {
    LengthFieldReads(0x80, n, body);
    FieldSize(n);
    hide LengthField, FromBE, Value;
    var f := LengthField(0x80, n) + body;
    var w := [0x81] + f;
    assert w[1] == f[0];
    if 126 <= n < 65536 {
      assert w[2] == f[1] && w[3] == f[2];
      assert f[1..3] == [f[1], f[2]];
      TwoBytes(f[1..3]);
    } else if n >= 65536 {
      assert w[2..10] == f[1..9];
    }
  }

  lemma BodyLayout(front: Bytes, payload: Bytes, mask: Bytes)
    requires |mask| == 4
    ensures var (w, h) := (front + (mask + Masked(payload, mask)), |front|);
            && |w| == h + 4 + |payload| && w[h..h + 4] == mask
            && forall i :: 0 <= i < |payload| ==> w[h + 4 + i] == payload[i] ^ mask[i % 4]
  {}

  lemma FieldSize(n: nat)
    requires n < MAX_LENGTH
    ensures |LengthField(0x80, n)| == if n < 126 then 1 else if n < 65536 then 3 else 9
  {}

  /** No masked frame that decodes to a payload is shorter than the one the encoder sends. */
  lemma EncodingIsMinimal(data: Bytes, mask: Bytes)
    requires |mask| == 4 && ParseReceived(data).Got? && data[1] & 0x80 != 0
    requires |ParseReceived(data).payload| < MAX_LENGTH
    ensures |EncodeText(ParseReceived(data).payload, mask)| <= |data| - |ParseReceived(data).rest|
  {
    SevenBits(data[1]);
    if |data| >= 4 { FromBEBound(data[2..4]); }
    Powers();
  }

  lemma SevenBits(b: Byte)
    ensures Value(b & 0x7F) < 128
  {
    assert b & 0x7F < 128;
  }

  // ---- agreement ----

  /** On every input that is not masked the two decoders agree, incomplete headers included; on a
      masked one the first refuses. */
  lemma DecodersAgree(data: Bytes)
    ensures match TryParse(data)
            case MaskedFrame => |data| >= 2 && data[1] & 0x80 != 0
            case Partial(same) => same == data && ParseReceived(data) == Waiting
            case Parsed(f, rest) => ParseReceived(data) == Got(f.opcode, f.payload, rest)
  {
  }

  // ---- prefixes and extensions ----

  lemma HeaderExtends(data: Bytes, more: Bytes)
    requires !ReadHeader(data).Short?
    ensures ReadHeader(data + more) == ReadHeader(data)
    ensures ReadHeader(data).Header? ==> 2 <= ReadHeader(data).idx <= |data|
  {
    hide FromBE;
    assert |data| >= 4 ==> (data + more)[2..4] == data[2..4];
    assert |data| >= 10 ==> (data + more)[2..10] == data[2..10];
  }

  /** More input never changes a frame already found, nor a refusal. */
  lemma ParseExtends(data: Bytes, more: Bytes)
    ensures match TryParse(data)
            case MaskedFrame => TryParse(data + more) == MaskedFrame
            case Partial(same) => same == data
            case Parsed(f, rest) => TryParse(data + more) == Parsed(f, rest + more)
  {
    hide ReadHeader, MakeFrame;
    if !TryParse(data).Partial? { HeaderExtends(data, more); }
    if TryParse(data).Parsed? {
      var i, used := ReadHeader(data).idx, ReadHeader(data).idx + ReadHeader(data).length;
      assert (data + more)[i..used] == data[i..used];
      assert (data + more)[used..] == data[used..] + more;
    }
  }

  lemma HeaderOfPrefix(data: Bytes, k: nat)
    requires ReadHeader(data).Header? && k <= |data|
    ensures ReadHeader(data[..k]) == if k < ReadHeader(data).idx then Short else ReadHeader(data)
  {
    hide FromBE;
    var pre := data[..k];
    assert k >= 4 ==> pre[2..4] == data[2..4];
    assert k >= 10 ==> pre[2..10] == data[2..10];
  }

  /** A frame found ends exactly where the rest begins: its own bytes alone give that frame. */
  lemma ParseOwnBytes(data: Bytes)
    requires TryParse(data).Parsed?
    ensures var used := |data| - |TryParse(data).rest|;
            && 2 <= used && data == data[..used] + TryParse(data).rest
            && TryParse(data[..used]) == Parsed(TryParse(data).frame, [])
  {
    HeaderExtends(data, []);
    var i, used := ReadHeader(data).idx, ReadHeader(data).idx + ReadHeader(data).length;
    HeaderOfPrefix(data, used);
    hide ReadHeader, MakeFrame;
    assert data[..used][i..used] == data[i..used];
  }

  /** No proper prefix of a frame's own bytes gives anything but itself back. */
  lemma PrefixWaits(data: Bytes, k: nat)
    requires TryParse(data).Parsed? && k < |data| - |TryParse(data).rest|
    ensures TryParse(data[..k]) == Partial(data[..k])
  {
    HeaderOfPrefix(data, k);
    hide ReadHeader, MakeFrame;
  }
}
