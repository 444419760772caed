/** Frames out of a byte stream that arrives in arbitrary pieces: the iterated decoder, the
    readiness probe's session with its carried-over bytes, and the version probe's read loop. */
module FrameStream {
  import opened Options
  import opened BigEndian
  import opened FrameCodec

  // ---- the iterated decoder ----

  datatype Tail = Carry(bytes: Bytes) | Refused
  datatype Stream = Stream(frames: seq<Frame>, tail: Tail)

  /** Every frame the data holds, and what is left when no more can be taken. */
  function Drain(data: Bytes): Stream
    decreases |data|
  {
    match TryParse(data)
    case MaskedFrame => Stream([], Refused)
    case Partial(same) => Stream([], Carry(same))
    case Parsed(f, rest) =>
      ParseOwnBytes(data);
      var s := Drain(rest);
      Stream([f] + s.frames, s.tail)
  }

  /** The decoder with its leftover, given one more chunk. */
  function Feed(s: Stream, chunk: Bytes): Stream {
    if s.tail.Refused? then s else
    var t := Drain(s.tail.bytes + chunk);
    Stream(s.frames + t.frames, t.tail)
  }

  function FeedAll(s: Stream, chunks: seq<Bytes>): Stream
    decreases |chunks|
  {
    if chunks == [] then s else FeedAll(Feed(s, chunks[0]), chunks[1..])
  }

  function Concat(chunks: seq<Bytes>): Bytes {
    if chunks == [] then [] else chunks[0] + Concat(chunks[1..])
  }

  lemma {:induction false} DrainThenFeed(a: Bytes, b: Bytes)
    ensures Feed(Drain(a), b) == Drain(a + b)
    decreases |a|
  {
    hide TryParse;
    ParseExtends(a, b);
    match TryParse(a)
    case MaskedFrame =>
    case Partial(_) =>
    case Parsed(f, rest) =>
      ParseOwnBytes(a);
      DrainThenFeed(rest, b);
      if Drain(rest).tail.Carry? {
        assert ([f] + Drain(rest).frames) + Drain(Drain(rest).tail.bytes + b).frames
            == [f] + Drain(rest + b).frames;
      }
  }

  lemma {:induction false} FeedAllFromDrain(data: Bytes, chunks: seq<Bytes>)
    ensures FeedAll(Drain(data), chunks) == Drain(data + Concat(chunks))
    decreases |chunks|
  {
    if chunks == [] {
      assert data + [] == data;
    } else {
      DrainThenFeed(data, chunks[0]);
      FeedAllFromDrain(data + chunks[0], chunks[1..]);
      assert data + chunks[0] + Concat(chunks[1..]) == data + Concat(chunks);
    }
  }

  /** However the bytes are cut into chunks, the frames, the refusal and the leftover are those of
      the whole. */
  lemma ChunkIndependence(chunks: seq<Bytes>)
    ensures FeedAll(Stream([], Carry([])), chunks) == Drain(Concat(chunks))
  {
    assert [] + Concat(chunks) == Concat(chunks);
    FeedAllFromDrain([], chunks);
  }

  /** No byte is lost or counted twice: the leftover is a suffix of the input, and the bytes before
      it decode to the same frames with nothing over. */
  lemma {:induction false} DrainSplitsInput(data: Bytes)
    requires Drain(data).tail.Carry?
    ensures var left := Drain(data).tail.bytes;
            && |left| <= |data| && data == data[..|data| - |left|] + left
            && Drain(data[..|data| - |left|]) == Stream(Drain(data).frames, Carry([]))
            && Drain(left) == Stream([], Carry(left))
    decreases |data|
  {
    hide TryParse, Drain;
    if TryParse(data).Parsed? {
      var f, rest := TryParse(data).frame, TryParse(data).rest;
      DrainFirst(data);
      DrainSplitsInput(rest);
      var own, left := data[..|data| - |rest|], Drain(rest).tail.bytes;
      var inner := rest[..|rest| - |left|];
      assert data[..|data| - |left|] == own + inner;
      DrainOneMore(own, f, inner);
    } else {
      DrainNothing(data);
      NothingParses();
      DrainNothing([]);
      assert data[..0] == [];
    }
  }

  lemma DrainFirst(data: Bytes)
    requires TryParse(data).Parsed?
    ensures var own := data[..|data| - |TryParse(data).rest|];
            && |own| >= 2 && data == own + TryParse(data).rest
            && TryParse(own) == Parsed(TryParse(data).frame, [])
            && Drain(data) == Stream([TryParse(data).frame] + Drain(TryParse(data).rest).frames,
                                     Drain(TryParse(data).rest).tail)
  {
    hide TryParse;
    ParseOwnBytes(data);
  }

  lemma NothingParses()
    ensures TryParse([]) == Partial([])
  {}

  lemma DrainNothing(data: Bytes)
    requires !TryParse(data).Parsed?
    ensures Drain(data) == Stream([], if TryParse(data) == MaskedFrame then Refused else Carry(data))
  {
    hide TryParse;
    ParseExtends(data, []);
  }

  lemma DrainOneMore(own: Bytes, f: Frame, rest: Bytes)
    requires TryParse(own) == Parsed(f, [])
    ensures Drain(own + rest) == Stream([f] + Drain(rest).frames, Drain(rest).tail)
  {
    hide TryParse;
    ParseExtends(own, rest);
    assert [] + rest == rest;
    DrainsFirst(own + rest, f, rest);
    hide Drain;
  }

  /** What a server sends: flag-and-opcode bytes with their payloads. */
  datatype Sent = Sent(b1: Byte, payload: Bytes)

  predicate Sendable(sent: seq<Sent>) {
    forall i :: 0 <= i < |sent| ==> |sent[i].payload| < MAX_LENGTH
  }

  function Wire(sent: seq<Sent>): Bytes
    requires Sendable(sent)
  {
    if sent == [] then [] else EncodeServer(sent[0].b1, sent[0].payload) + Wire(sent[1..])
  }

  /** What a server frame says: its opcode, its payload, and the code if it is a close. */
  function FrameOf(s: Sent): Frame {
    Frame(s.b1 & 0x0F, s.payload, CodeIn(s.b1 & 0x0F, s.payload))
  }

  function Frames(sent: seq<Sent>): seq<Frame> {
    seq(|sent|, i requires 0 <= i < |sent| => FrameOf(sent[i]))
  }

  lemma {:induction false} WireDrains(sent: seq<Sent>, tail: Bytes)
    requires Sendable(sent)
    ensures Drain(Wire(sent) + tail) == Stream(Frames(sent) + Drain(tail).frames, Drain(tail).tail)
    decreases |sent|
  {
    hide Drain, Wire, Frames, FrameOf, Sendable;
    if sent == [] {
      NoWire(sent);
      assert [] + tail == tail;
      assert [] + Drain(tail).frames == Drain(tail).frames;
    } else {
      WireFront(sent, tail);
      WireDrains(sent[1..], tail);
      var f := FrameOf(sent[0]);
      assert [f] + (Frames(sent[1..]) + Drain(tail).frames) == [f] + Frames(sent[1..]) + Drain(tail).frames;
    }
  }

  lemma NoWire(sent: seq<Sent>)
    requires sent == []
    ensures Sendable(sent) && Wire(sent) == [] && Frames(sent) == []
  {}

  /** The first frame on the wire comes off first. */
  lemma WireFront(sent: seq<Sent>, tail: Bytes)
    requires sent != [] && Sendable(sent)
    ensures Sendable(sent[1..])
    ensures var (f, rest) := (FrameOf(sent[0]), Drain(Wire(sent[1..]) + tail));
            && Frames(sent) == [f] + Frames(sent[1..])
            && Drain(Wire(sent) + tail) == Stream([f] + rest.frames, rest.tail)
  {
    hide TryParse, EncodeServer, CodeIn, Drain;
    var (b1, payload, more) := (sent[0].b1, sent[0].payload, Wire(sent[1..]) + tail);
    assert Wire(sent) + tail == EncodeServer(b1, payload) + more;
    ServerRoundTrip(b1, payload, more);
    DrainsFirst(Wire(sent) + tail, FrameOf(sent[0]), more);
  }

  lemma DrainsFirst(data: Bytes, f: Frame, rest: Bytes)
    requires TryParse(data) == Parsed(f, rest)
    ensures Drain(data) == Stream([f] + Drain(rest).frames, Drain(rest).tail)
  {
    hide TryParse;
  }

  /** Every sequence of server frames comes out as sent, with nothing over, in every chunking. */
  lemma StreamRoundTrip(sent: seq<Sent>, chunks: seq<Bytes>)
    requires Sendable(sent) && Concat(chunks) == Wire(sent)
    ensures FeedAll(Stream([], Carry([])), chunks) == Stream(Frames(sent), Carry([]))
  {
    ChunkIndependence(chunks);
    WireDrains(sent, []);
    assert Wire(sent) + [] == Wire(sent);
  }

  // ---- the readiness probe's call ----

  datatype Failure = Continuation | ServerClosed(code: Option<nat>) | ServerMasked | TimedOut | EndOfStream
  /** How a call ends: with a text payload, the carried-over bytes and the chunks not yet read, or
      with an exception. */
  datatype CallEnd = Reply(payload: Bytes, leftover: Bytes, unread: seq<Bytes>) | Raised(failure: Failure)

  /** What a frame means to a call that waits for a reply; any other opcode is skipped. */
  predicate Skipped(f: Frame) {
    f.opcode != 0 && f.opcode != 1 && f.opcode != 8
  }

  function Verdict(f: Frame, rest: Bytes, unread: seq<Bytes>): CallEnd
    requires !Skipped(f)
  {
    if f.opcode == 0 then Raised(Continuation)
    else if f.opcode == 8 then Raised(ServerClosed(f.closeCode))
    else Reply(f.payload, rest, unread)
  }

  /** `WSSession.call` on the bytes in hand, the chunks the socket will deliver (an empty one, or
      none, is the end of the stream) and the number of reads left before the deadline. After a
      skipped frame it reads again before it looks at the bytes already in hand. */
  function Call(data: Bytes, inbox: seq<Bytes>, patience: nat): CallEnd
    decreases |inbox|
  {
    match TryParse(data)
    case MaskedFrame => Raised(ServerMasked)
    case Parsed(f, rest) =>
      if !Skipped(f) then Verdict(f, rest, inbox)
      else if patience == 0 then Raised(TimedOut)
      else if inbox == [] || inbox[0] == [] then Raised(EndOfStream)
      else Call(rest + inbox[0], inbox[1..], patience - 1)
    case Partial(same) =>
      if patience == 0 then Raised(TimedOut)
      else if inbox == [] || inbox[0] == [] then Raised(EndOfStream)
      else Call(same + inbox[0], inbox[1..], patience - 1)
  }

  /** The answer the whole stream calls for, wherever its chunks begin and end. */
  datatype Answer = Answered(payload: Bytes, rest: Bytes) | Fails(failure: Failure) | Starved

  function Ideal(stream: Bytes): Answer
    decreases |stream|
  {
    match TryParse(stream)
    case MaskedFrame => Fails(ServerMasked)
    case Partial(_) => Starved
    case Parsed(f, rest) =>
      ParseOwnBytes(stream);
      if Skipped(f) then Ideal(rest)
      else if f.opcode == 0 then Fails(Continuation)
      else if f.opcode == 8 then Fails(ServerClosed(f.closeCode))
      else Answered(f.payload, rest)
  }

  /** The ideal answer of a call's outcome, when it has one. */
  predicate Meets(end: CallEnd, answer: Answer) {
    match end
    case Reply(payload, leftover, unread) => answer == Answered(payload, leftover + Concat(unread))
    case Raised(failure) => failure == TimedOut || failure == EndOfStream || answer == Fails(failure)
  }

  /** Whatever the chunking, a call never invents, skips or loses anything: if it replies, the
      payload is the first reply of the whole stream, and the carried-over bytes and unread chunks
      are exactly what follows it; if it raises, the stream calls for that, or the call ran out
      of time or of input. */
  lemma {:induction false} CallIsSound(data: Bytes, inbox: seq<Bytes>, patience: nat)
    ensures Meets(Call(data, inbox, patience), Ideal(data + Concat(inbox)))
    decreases |inbox|
  {
    hide TryParse;
    var stream := data + Concat(inbox);
    ParseExtends(data, Concat(inbox));
    match TryParse(data)
    case MaskedFrame =>
    case Parsed(f, rest) =>
      if Skipped(f) && patience > 0 && inbox != [] && inbox[0] != [] {
        CallIsSound(rest + inbox[0], inbox[1..], patience - 1);
        assert rest + inbox[0] + Concat(inbox[1..]) == rest + Concat(inbox);
      }
    case Partial(same) =>
      if patience > 0 && inbox != [] && inbox[0] != [] {
        CallIsSound(data + inbox[0], inbox[1..], patience - 1);
        assert data + inbox[0] + Concat(inbox[1..]) == stream;
      }
  }

  predicate AllNonEmpty(chunks: seq<Bytes>) {
    forall i :: 0 <= i < |chunks| ==> chunks[i] != []
  }

  /** When the first frame of the stream is not one the call skips, it meets the ideal outright in
      every chunking it has the time to read. */
  lemma {:induction false} CallIsCompleteWithoutSkips(data: Bytes, inbox: seq<Bytes>, patience: nat)
    requires AllNonEmpty(inbox) && |inbox| <= patience
    requires var p := TryParse(data + Concat(inbox)); p.Parsed? && !Skipped(p.frame)
    ensures var p := TryParse(data + Concat(inbox));
            match Call(data, inbox, patience)
            case Reply(payload, leftover, unread) =>
              p.frame.opcode == 1 && payload == p.frame.payload && leftover + Concat(unread) == p.rest
              && |unread| <= |inbox| && unread == inbox[|inbox| - |unread|..]
            case Raised(failure) => p.frame.opcode != 1 && Ideal(data + Concat(inbox)) == Fails(failure)
    decreases |inbox|
  {
    ParseExtends(data, Concat(inbox));
    if TryParse(data).Partial? {
      assert data + [] == data;
      if inbox != [] {
        assert data + inbox[0] + Concat(inbox[1..]) == data + Concat(inbox);
        CallIsCompleteWithoutSkips(data + inbox[0], inbox[1..], patience - 1);
        var end := Call(data, inbox, patience);
        if end.Reply? {
          assert inbox[1..][|inbox| - 1 - |end.unread|..] == inbox[|inbox| - |end.unread|..];
        }
      }
    } else {
      assert inbox == inbox[0..];
    }
  }

  /** What a call makes of a server frame at the front of its stream, in every chunking it has the time
      to read: a text is the reply, a continuation and a close are failures, the close with its code. */
  lemma CallAnswersFirstFrame(data: Bytes, inbox: seq<Bytes>, patience: nat, b1: Byte, payload: Bytes, tail: Bytes)
    requires |payload| < MAX_LENGTH && data + Concat(inbox) == EncodeServer(b1, payload) + tail
    requires AllNonEmpty(inbox) && |inbox| <= patience
    ensures var (op, end) := (b1 & 0x0F, Call(data, inbox, patience));
            && (op == 0 ==> end == Raised(Continuation))
            && (op == 1 ==> end.Reply? && end.payload == payload && end.leftover + Concat(end.unread) == tail)
            && (op == 8 ==> end == Raised(ServerClosed(CodeIn(8, payload))))
  {
    hide TryParse, EncodeServer, CodeIn, Call, Concat;
    ServerRoundTrip(b1, payload, tail);
    if (b1 & 0x0F) in {0, 1, 8} { CallIsCompleteWithoutSkips(data, inbox, patience); }
  }

  /** So a server that closes with a code is reported with that code. */
  lemma CallReportsCloseCode(data: Bytes, inbox: seq<Bytes>, patience: nat, code: nat, reason: Bytes, tail: Bytes)
    requires code < 65536 && |reason| + 2 < MAX_LENGTH
    requires data + Concat(inbox) == EncodeServer(0x88, BE(code, 2) + reason) + tail
    requires AllNonEmpty(inbox) && |inbox| <= patience
    ensures Call(data, inbox, patience) == Raised(ServerClosed(Some(code)))
  {
    var payload := BE(code, 2) + reason;
    CloseCodeRoundTrip(code, reason, tail);
    assert 0x88 & 0x0F == 8 as Byte;
    hide TryParse, EncodeServer, CodeIn, Call, Concat, BE;
    ServerRoundTrip(0x88, payload, tail);
    CallAnswersFirstFrame(data, inbox, patience, 0x88, payload, tail);
  }

  /** A frame with any other opcode, in hand at the front, is dropped and costs a read. */
  lemma CallSkipsOthers(b1: Byte, payload: Bytes, tail: Bytes, inbox: seq<Bytes>, patience: nat)
    requires |payload| < MAX_LENGTH && (b1 & 0x0F) !in {0, 1, 8}
    ensures Call(EncodeServer(b1, payload) + tail, inbox, patience)
         == if patience == 0 then Raised(TimedOut)
            else if inbox == [] || inbox[0] == [] then Raised(EndOfStream)
            else Call(tail + inbox[0], inbox[1..], patience - 1)
  {
    hide TryParse, EncodeServer, CodeIn;
    ServerRoundTrip(b1, payload, tail);
  }

  /** A call that gives up does so for the right reason: out of time once it has used up its reads,
      out of input once it has used up what there was. */
  lemma {:induction false} CallGivesUpFor(data: Bytes, inbox: seq<Bytes>, patience: nat)
    requires AllNonEmpty(inbox)
    ensures Call(data, inbox, patience) == Raised(TimedOut) ==> patience <= |inbox|
    ensures Call(data, inbox, patience) == Raised(EndOfStream) ==> patience > |inbox|
    decreases |inbox|
  {
    hide TryParse;
    if inbox != [] && patience > 0 {
      match TryParse(data)
      case MaskedFrame =>
      case Parsed(f, rest) => CallGivesUpFor(rest + inbox[0], inbox[1..], patience - 1);
      case Partial(same) => CallGivesUpFor(same + inbox[0], inbox[1..], patience - 1);
    }
  }

  /** With everything already in hand, a call replies if and only if the very first frame in hand
      is the reply: one skipped frame in front of it is enough to make the call read past its end. */
  lemma BufferedReplyNeedsFirstPlace(data: Bytes, patience: nat)
    ensures Call(data, [], patience).Reply? <==> TryParse(data).Parsed? && TryParse(data).frame.opcode == 1
  {
  }

  /** A ping with the reply right behind it, received together: the stream answers, the call
      does not. */
  lemma PingHidesBufferedReply(payload: Bytes)
    requires |payload| < MAX_LENGTH
    ensures var data := EncodeServer(0x89, []) + EncodeServer(0x81, payload);
            Ideal(data) == Answered(payload, []) && Call(data, [], 1) == Raised(EndOfStream)
  {
    var ping, text := EncodeServer(0x89, []), EncodeServer(0x81, payload);
    ServerRoundTrip(0x89, [], text);
    ServerRoundTrip(0x81, payload, []);
    assert text + [] == text;
    assert 0x89 & 0x0F == 9 as Byte && 0x81 & 0x0F == 1 as Byte;
    hide EncodeServer;
  }

  // ---- exactly when a call gets to its reply ----

  /** Frame `j` of the stream is whole in hand after `n` reads. */
  predicate Whole(data: Bytes, inbox: seq<Bytes>, n: nat, j: nat)
    requires n <= |inbox|
  {
    j < |Drain(data + Concat(inbox[..n])).frames|
  }

  /** Frame `j` was whole `k - j` reads before the `t`-th. */
  predicate Ready(data: Bytes, inbox: seq<Bytes>, k: nat, t: nat, j: nat)
    requires k <= t <= |inbox| && j <= k
  {
    Whole(data, inbox, t - (k - j), j)
  }

  /** The reply, frame `k` of the stream, can be handed out after `t` reads: each frame before it
      costs a read of its own. */
  ghost predicate InTime(data: Bytes, inbox: seq<Bytes>, k: nat, t: nat)
    requires t <= |inbox|
  {
    k <= t && forall j: nat :: j <= k ==> Ready(data, inbox, k, t, j)
  }

  ghost predicate Reachable(data: Bytes, inbox: seq<Bytes>, patience: nat, k: nat) {
    exists t: nat :: t <= |inbox| && t <= patience && InTime(data, inbox, k, t)
  }

  /** The first frame of the stream that is not skipped is frame `k`, and it is a reply. */
  ghost predicate RepliesAt(stream: Bytes, k: nat) {
    var frames := Drain(stream).frames;
    k < |frames| && frames[k].opcode == 1 && forall j: nat | j < k :: Skipped(frames[j])
  }

  /** A call hands out the reply if and only if some read within its patience comes late enough for
      every skipped frame in front of the reply to have had a read to itself. */
  lemma {:induction false} CallRepliesIff(data: Bytes, inbox: seq<Bytes>, patience: nat, k: nat)
    requires AllNonEmpty(inbox) && RepliesAt(data + Concat(inbox), k)
    ensures Call(data, inbox, patience).Reply? <==> Reachable(data, inbox, patience, k)
    decreases |inbox|
  {
    hide TryParse, Drain, InTime, Reachable, RepliesAt;
    ParseExtends(data, Concat(inbox));
    FirstInHand(data, inbox, k);
    if TryParse(data).Parsed? && k == 0 {
      AtOnce(data, inbox, patience);
    } else if inbox == [] || patience == 0 {
      NeverWithoutReading(data, inbox, patience, k);
    } else {
      var skip := TryParse(data).Parsed?;
      var next, later := (if skip then TryParse(data).rest else data) + inbox[0], if skip then k - 1 else k;
      OneReadOn(data, inbox, k);
      CallRepliesIff(next, inbox[1..], patience - 1, later);
      ReachableOneReadOn(data, inbox, patience, k);
    }
  }

  lemma FirstInHand(data: Bytes, inbox: seq<Bytes>, k: nat)
    requires RepliesAt(data + Concat(inbox), k)
    ensures TryParse(data) != MaskedFrame
    ensures TryParse(data).Parsed? ==>
              (k == 0 <==> TryParse(data).frame.opcode == 1) && (k > 0 <==> Skipped(TryParse(data).frame))
    ensures TryParse(data).Partial? ==> TryParse(data).data == data && inbox != []
  {
    hide TryParse;
    ParseExtends(data, Concat(inbox));
    if inbox == [] { assert data + Concat(inbox) == data; }
    if TryParse(data).Parsed? {
      DrainFirst(data + Concat(inbox));
      hide Drain;
      assert Drain(data + Concat(inbox)).frames[0] == TryParse(data).frame;
    }
  }

  lemma AtOnce(data: Bytes, inbox: seq<Bytes>, patience: nat)
    requires TryParse(data).Parsed?
    ensures Reachable(data, inbox, patience, 0)
  {
    hide TryParse;
    assert data + Concat(inbox[..0]) == data;
    assert Whole(data, inbox, 0, 0);
    assert InTime(data, inbox, 0, 0);
  }

  lemma NeverWithoutReading(data: Bytes, inbox: seq<Bytes>, patience: nat, k: nat)
    requires !(TryParse(data).Parsed? && k == 0) && (inbox == [] || patience == 0)
    ensures !Reachable(data, inbox, patience, k)
  {
    hide TryParse;
    if Reachable(data, inbox, patience, k) {
      assert InTime(data, inbox, k, 0);
      assert data + Concat(inbox[..0]) == data;
      assert Ready(data, inbox, k, 0, 0);
      DrainNothing(data);
    }
  }

  /** After one read the rest of the stream is as it was, short of the frame just skipped. */
  lemma OneReadOn(data: Bytes, inbox: seq<Bytes>, k: nat)
    requires inbox != [] && RepliesAt(data + Concat(inbox), k) && (TryParse(data).Parsed? ==> k > 0)
    ensures var skip := TryParse(data).Parsed?;
            var next := (if skip then TryParse(data).rest else data) + inbox[0];
            RepliesAt(next + Concat(inbox[1..]), if skip then k - 1 else k)
  {
    assert Concat(inbox) == inbox[0] + Concat(inbox[1..]);
    hide TryParse, Concat, Drain, Skipped;
    ParseExtends(data, Concat(inbox));
    if TryParse(data).Parsed? {
      var rest := TryParse(data).rest;
      DrainFirst(data + Concat(inbox));
      assert rest + inbox[0] + Concat(inbox[1..]) == rest + Concat(inbox);
      var all, fewer := Drain(data + Concat(inbox)).frames, Drain(rest + Concat(inbox)).frames;
      forall j: nat | j < |fewer| ensures fewer[j] == all[j + 1] {}
    } else {
      assert data + inbox[0] + Concat(inbox[1..]) == data + Concat(inbox);
    }
  }

  lemma WholeOneReadOn(data: Bytes, inbox: seq<Bytes>, n: nat, j: nat)
    requires n < |inbox|
    ensures TryParse(data).Parsed? ==>
      (Whole(TryParse(data).rest + inbox[0], inbox[1..], n, j) <==> Whole(data, inbox, n + 1, j + 1))
    ensures Whole(data + inbox[0], inbox[1..], n, j) <==> Whole(data, inbox, n + 1, j)
  {
    hide TryParse, Drain;
    var seen := Concat(inbox[..n + 1]);
    assert inbox[..n + 1][1..] == inbox[1..][..n];
    assert data + inbox[0] + Concat(inbox[1..][..n]) == data + seen;
    if TryParse(data).Parsed? {
      var rest := TryParse(data).rest;
      ParseExtends(data, seen);
      DrainFirst(data + seen);
      assert rest + inbox[0] + Concat(inbox[1..][..n]) == rest + seen;
    }
  }

  lemma ReachableOneReadOn(data: Bytes, inbox: seq<Bytes>, patience: nat, k: nat)
    requires inbox != [] && patience > 0 && (TryParse(data).Parsed? ==> k > 0)
    ensures var skip := TryParse(data).Parsed?;
            var next := (if skip then TryParse(data).rest else data) + inbox[0];
            Reachable(data, inbox, patience, k)
            <==> Reachable(next, inbox[1..], patience - 1, if skip then k - 1 else k)
  {
    hide TryParse, Whole, InTime;
    var skip := TryParse(data).Parsed?;
    var next, later := (if skip then TryParse(data).rest else data) + inbox[0], if skip then k - 1 else k;
    forall t: nat | t <= |inbox|
      ensures InTime(data, inbox, k, t) <==> t > 0 && InTime(next, inbox[1..], later, t - 1)
    {
      InTimeOneReadOn(data, inbox, k, t);
    }
    if t: nat :| t <= |inbox[1..]| && t <= patience - 1 && InTime(next, inbox[1..], later, t) {
      assert InTime(data, inbox, k, t + 1);
    }
  }

  lemma InTimeOneReadOn(data: Bytes, inbox: seq<Bytes>, k: nat, t: nat)
    requires inbox != [] && t <= |inbox| && (TryParse(data).Parsed? ==> k > 0)
    ensures var skip := TryParse(data).Parsed?;
            var next := (if skip then TryParse(data).rest else data) + inbox[0];
            InTime(data, inbox, k, t) <==> t > 0 && InTime(next, inbox[1..], if skip then k - 1 else k, t - 1)
  {
    hide TryParse, Whole, Drain;
    FirstWhole(data, inbox);
    forall n: nat, j: nat | n < |inbox| ensures
      && (TryParse(data).Parsed? ==>
           (Whole(TryParse(data).rest + inbox[0], inbox[1..], n, j) <==> Whole(data, inbox, n + 1, j + 1)))
      && (Whole(data + inbox[0], inbox[1..], n, j) <==> Whole(data, inbox, n + 1, j))
    {
      WholeOneReadOn(data, inbox, n, j);
    }
    var skip := TryParse(data).Parsed?;
    var next, later := (if skip then TryParse(data).rest else data) + inbox[0], if skip then k - 1 else k;
    var unread := inbox[1..];
    if InTime(data, inbox, k, t) {
      assert Ready(data, inbox, k, t, 0);
      var s := t - 1;
      forall j: nat | j <= later ensures Ready(next, unread, later, s, j) {
        assert Ready(data, inbox, k, t, if skip then j + 1 else j);
      }
    } else if t > 0 && InTime(next, unread, later, t - 1) {
      forall j: nat | j <= k ensures Ready(data, inbox, k, t, j) {
        if !skip { assert Ready(next, unread, later, t - 1, j); }
        else if j > 0 { assert Ready(next, unread, later, t - 1, j - 1); }
      }
    }
  }

  /** Before the first read, frame 0 is whole exactly when the data in hand begins with one. */
  lemma FirstWhole(data: Bytes, inbox: seq<Bytes>)
    ensures Whole(data, inbox, 0, 0) <==> TryParse(data).Parsed?
    ensures forall n: nat | n <= |inbox| && TryParse(data).Parsed? :: Whole(data, inbox, n, 0)
  {
    hide TryParse, Drain;
    assert data + Concat(inbox[..0]) == data;
    if TryParse(data).Parsed? {
      forall n: nat | n <= |inbox| ensures Whole(data, inbox, n, 0) {
        ParseExtends(data, Concat(inbox[..n]));
        DrainFirst(data + Concat(inbox[..n]));
      }
    } else {
      DrainNothing(data);
    }
  }

  function Texts(payloads: seq<Bytes>): seq<Sent> {
    seq(|payloads|, i requires 0 <= i < |payloads| => Sent(0x81, payloads[i]))
  }

  /** Before a pipelined reply, a call gives exactly that reply and leaves the rest to be read. */
  lemma NextReply(data: Bytes, inbox: seq<Bytes>, payloads: seq<Bytes>, patience: nat)
    requires payloads != [] && Sendable(Texts(payloads)) && data + Concat(inbox) == Wire(Texts(payloads))
    requires AllNonEmpty(inbox) && |inbox| <= patience
    ensures Sendable(Texts(payloads[1..]))
    ensures var end := Call(data, inbox, patience);
            && end.Reply? && end.payload == payloads[0]
            && end.leftover + Concat(end.unread) == Wire(Texts(payloads[1..]))
            && AllNonEmpty(end.unread) && |end.unread| <= patience
  {
    hide TryParse, EncodeServer, Call, Concat;
    var sent := Texts(payloads);
    assert sent[1..] == Texts(payloads[1..]);
    ServerRoundTrip(0x81, payloads[0], Wire(sent[1..]));
    assert 0x81 & 0x0F == 1 as Byte;
    CallIsCompleteWithoutSkips(data, inbox, patience);
  }

  lemma FirstMoves(done: seq<Bytes>, rest: seq<Bytes>)
    requires rest != []
    ensures done + [rest[0]] + rest[1..] == done + rest
  {}

  lemma NothingSent(payloads: seq<Bytes>)
    requires payloads == []
    ensures Sendable(Texts(payloads)) && Wire(Texts(payloads)) == []
  {}

  // ---- the upgrade ----

  const SEPARATOR: Bytes := [13, 10, 13, 10]
  const MAX_HEADER: nat := 16384

  predicate SeparatorAt(buf: Bytes, i: nat) {
    i + 4 <= |buf| && buf[i..i + 4] == [13, 10, 13, 10]
  }

  /** Where the first blank line of the buffer begins. */
  ghost predicate FirstSeparator(buf: Bytes, i: nat) {
    SeparatorAt(buf, i) && forall j: nat :: j < i ==> !SeparatorAt(buf, j)
  }

  ghost predicate NoSeparator(buf: Bytes) {
    forall j: nat :: !SeparatorAt(buf, j)
  }

  method FindSeparator(buf: Bytes) returns (at: Option<nat>)
    ensures at.Some? ==> FirstSeparator(buf, at.value)
    ensures at == None ==> NoSeparator(buf)
  {
    var i := 0;
    while i + 4 <= |buf|
      invariant forall j: nat :: j < i ==> !SeparatorAt(buf, j)
    {
      if buf[i..i + 4] == SEPARATOR {
        return Some(i);
      }
      i := i + 1;
    }
    at := None;
  }

  /** More bytes never move the first blank line. */
  lemma SeparatorStays(buf: Bytes, more: Bytes, i: nat)
    requires FirstSeparator(buf, i)
    ensures FirstSeparator(buf + more, i)
  {
    forall j: nat | j <= i ensures SeparatorAt(buf + more, j) == SeparatorAt(buf, j) {
      assert (buf + more)[j..j + 4] == buf[j..j + 4];
    }
  }

  /** The upgrade succeeds if the first blank line arrives before the stream ends and before the
      buffer outgrows its limit, and the header before it is acceptable. */
  ghost predicate Upgrades(buf: Bytes, inbox: seq<Bytes>, accepts: Bytes -> bool)
    decreases |inbox|
  {
    if exists i: nat :: FirstSeparator(buf, i) then
      exists i: nat :: FirstSeparator(buf, i) && accepts(buf[..i])
    else
      && inbox != [] && inbox[0] != [] && |buf + inbox[0]| <= MAX_HEADER
      && Upgrades(buf + inbox[0], inbox[1..], accepts)
  }

  lemma UpgradeDecided(buf: Bytes, inbox: seq<Bytes>, accepts: Bytes -> bool, i: nat)
    requires FirstSeparator(buf, i)
    ensures i + 4 <= |buf| && (Upgrades(buf, inbox, accepts) <==> accepts(buf[..i]))
    ensures buf == buf[..i] + SEPARATOR + buf[i + 4..]
  {
    forall j: nat | FirstSeparator(buf, j) ensures j == i {}
  }

  lemma UpgradeWaits(buf: Bytes, inbox: seq<Bytes>, accepts: Bytes -> bool)
    requires NoSeparator(buf)
    ensures Upgrades(buf, inbox, accepts)
            <==> && inbox != [] && inbox[0] != [] && |buf + inbox[0]| <= MAX_HEADER
                 && Upgrades(buf + inbox[0], inbox[1..], accepts)
  {
    assert !exists i: nat :: FirstSeparator(buf, i);
  }

  /** The first blank line comes with the `n`-th read, none of the reads before it being empty or
      taking the buffer over 16384 bytes, and the header in front of it is acceptable. */
  ghost predicate UpgradedAfter(buf: Bytes, inbox: seq<Bytes>, accepts: Bytes -> bool, n: nat)
    requires n <= |inbox|
  {
    && (exists i: nat :: FirstSeparator(buf + Concat(inbox[..n]), i) && accepts((buf + Concat(inbox[..n]))[..i]))
    && forall m :: 0 <= m < n ==> Fruitless(buf, inbox, m)
  }

  /** After `m` reads there is no blank line yet, and the next read goes through. */
  ghost predicate Fruitless(buf: Bytes, inbox: seq<Bytes>, m: nat)
    requires m < |inbox|
  {
    NoSeparator(buf + Concat(inbox[..m])) && inbox[m] != [] && |buf + Concat(inbox[..m + 1])| <= 16384
  }

  /** The upgrade succeeds exactly when some read completes an acceptable header in this way. */
  lemma {:induction false} UpgradesIff(buf: Bytes, inbox: seq<Bytes>, accepts: Bytes -> bool)
    ensures Upgrades(buf, inbox, accepts)
            <==> exists n: nat :: n <= |inbox| && UpgradedAfter(buf, inbox, accepts, n)
    decreases |inbox|
  {
    assert buf + Concat(inbox[..0]) == buf;
    if i: nat :| FirstSeparator(buf, i) {
      UpgradeDecided(buf, inbox, accepts, i);
      SeparatorEndsWait(buf, inbox, accepts, i);
    } else {
      SomeOrNone(buf);
      UpgradeWaits(buf, inbox, accepts);
      if inbox == [] || inbox[0] == [] || |buf + inbox[0]| > 16384 {
        WaitsInVain(buf, inbox, accepts);
      } else {
        UpgradesIff(buf + inbox[0], inbox[1..], accepts);
        hide Upgrades, UpgradedAfter, Fruitless, FirstSeparator, NoSeparator;
        forall n: nat | n < |inbox|
          ensures UpgradedAfter(buf + inbox[0], inbox[1..], accepts, n) <==> UpgradedAfter(buf, inbox, accepts, n + 1)
        {
          OneReadLater(buf, inbox, accepts, n);
        }
        NotAtOnce(buf, inbox, accepts);
        if n: nat :| n <= |inbox| && UpgradedAfter(buf, inbox, accepts, n) {
          assert UpgradedAfter(buf + inbox[0], inbox[1..], accepts, n - 1);
        }
        if n: nat :| n <= |inbox[1..]| && UpgradedAfter(buf + inbox[0], inbox[1..], accepts, n) {
          assert UpgradedAfter(buf, inbox, accepts, n + 1);
        }
      }
    }
  }

  lemma SeparatorEndsWait(buf: Bytes, inbox: seq<Bytes>, accepts: Bytes -> bool, i: nat)
    requires FirstSeparator(buf, i)
    ensures accepts(buf[..i]) <==> exists n: nat :: n <= |inbox| && UpgradedAfter(buf, inbox, accepts, n)
  {
    assert buf + Concat(inbox[..0]) == buf;
    if accepts(buf[..i]) { assert UpgradedAfter(buf, inbox, accepts, 0); }
    forall n: nat | n <= |inbox| ensures UpgradedAfter(buf, inbox, accepts, n) ==> accepts(buf[..i]) {
      if n == 0 {
        forall j: nat | FirstSeparator(buf, j) ensures j == i {}
      } else {
        assert SeparatorAt(buf, i) && !NoSeparator(buf);
        assert !Fruitless(buf, inbox, 0);
      }
    }
  }

  lemma {:induction false} FirstOf(buf: Bytes, i: nat) returns (k: nat)
    requires SeparatorAt(buf, i)
    ensures FirstSeparator(buf, k)
    decreases i
  {
    k := i;
    if j: nat :| j < i && SeparatorAt(buf, j) { k := FirstOf(buf, j); }
  }

  lemma SomeOrNone(buf: Bytes)
    ensures (exists i: nat :: FirstSeparator(buf, i)) || NoSeparator(buf)
  {
    hide SeparatorAt, FirstSeparator;
    if !NoSeparator(buf) {
      var i: nat :| SeparatorAt(buf, i);
      var k := FirstOf(buf, i);
    }
  }

  lemma WaitsInVain(buf: Bytes, inbox: seq<Bytes>, accepts: Bytes -> bool)
    requires NoSeparator(buf) && (inbox == [] || inbox[0] == [] || |buf + inbox[0]| > 16384)
    ensures forall n: nat :: n <= |inbox| ==> !UpgradedAfter(buf, inbox, accepts, n)
  {
    NotAtOnce(buf, inbox, accepts);
    if inbox != [] { FirstReadFails(buf, inbox); }
    hide Fruitless, NoSeparator, FirstSeparator;
  }

  lemma FirstReadFails(buf: Bytes, inbox: seq<Bytes>)
    requires inbox != [] && (inbox[0] == [] || |buf + inbox[0]| > 16384)
    ensures !Fruitless(buf, inbox, 0)
  {
    SameSeen(buf, inbox, 0);
    assert buf + inbox[0] + [] == buf + inbox[0];
    hide NoSeparator;
  }

  lemma NotAtOnce(buf: Bytes, inbox: seq<Bytes>, accepts: Bytes -> bool)
    requires NoSeparator(buf)
    ensures !UpgradedAfter(buf, inbox, accepts, 0)
  {
    assert buf + Concat(inbox[..0]) == buf;
  }

  lemma SameSeen(buf: Bytes, inbox: seq<Bytes>, n: nat)
    requires inbox != [] && n < |inbox|
    ensures buf + inbox[0] + Concat(inbox[1..][..n]) == buf + Concat(inbox[..n + 1])
  {
    assert inbox[..n + 1][1..] == inbox[1..][..n];
  }

  lemma OneReadLater(buf: Bytes, inbox: seq<Bytes>, accepts: Bytes -> bool, n: nat)
    requires inbox != [] && n < |inbox| && NoSeparator(buf) && inbox[0] != [] && |buf + inbox[0]| <= 16384
    ensures UpgradedAfter(buf + inbox[0], inbox[1..], accepts, n) <==> UpgradedAfter(buf, inbox, accepts, n + 1)
  {
    hide Concat, FirstSeparator, NoSeparator;
    SameSeen(buf, inbox, n);
    forall m | 0 <= m < n ensures Fruitless(buf + inbox[0], inbox[1..], m) <==> Fruitless(buf, inbox, m + 1) {
      SameSeen(buf, inbox, m);
      SameSeen(buf, inbox, m + 1);
    }
    FirstIsFruitless(buf, inbox);
    hide Fruitless;
    if UpgradedAfter(buf + inbox[0], inbox[1..], accepts, n) {
      forall m | 0 <= m < n + 1 ensures Fruitless(buf, inbox, m) {
        if m > 0 { assert Fruitless(buf + inbox[0], inbox[1..], m - 1); }
      }
    }
  }

  lemma FirstIsFruitless(buf: Bytes, inbox: seq<Bytes>)
    requires inbox != [] && NoSeparator(buf) && inbox[0] != [] && |buf + inbox[0]| <= 16384
    ensures Fruitless(buf, inbox, 0)
  {
    hide NoSeparator;
    assert buf + Concat(inbox[..0]) == buf;
    SameSeen(buf, inbox, 0);
    assert buf + inbox[0] + [] == buf + inbox[0];
  }

  // ---- the version probe's read loop ----

  const RECV_LIMIT: nat := 50

  datatype RecvEnd = FrameRead(opcode: Byte, payload: Bytes, rest: Bytes, unread: seq<Bytes>) | RecvClosed | Exhausted

  /** `recv_frame` with `left` reads to go: the read that uses up the last one is never looked at. */
  function Recv(data: Bytes, inbox: seq<Bytes>, left: nat): RecvEnd
    requires left > 0
    decreases left
  {
    match ParseReceived(data)
    case Got(op, payload, rest) => FrameRead(op, payload, rest, inbox)
    case Waiting =>
      if inbox == [] || inbox[0] == [] then RecvClosed
      else if left == 1 then Exhausted
      else Recv(data + inbox[0], inbox[1..], left - 1)
  }

  lemma OneRead(data: Bytes, inbox: seq<Bytes>, left: nat)
    requires left > 0
    ensures Recv(data, inbox, left)
         == match ParseReceived(data)
            case Got(op, payload, rest) => FrameRead(op, payload, rest, inbox)
            case Waiting =>
              if inbox == [] || inbox[0] == [] then RecvClosed
              else if left == 1 then Exhausted
              else Recv(data + inbox[0], inbox[1..], left - 1)
  {
    hide ParseReceived;
  }

  method RecvFrame(leftover: Bytes, inbox: seq<Bytes>) returns (end: RecvEnd)
    ensures end == Recv(leftover, inbox, 50)
  {
    hide ParseReceived, Recv;
    var data, unread, left := leftover, inbox, RECV_LIMIT;
    while true
      invariant left > 0 && Recv(data, unread, left) == Recv(leftover, inbox, RECV_LIMIT)
      decreases left
    {
      OneRead(data, unread, left);
      match ParseReceived(data) {
        case Got(op, payload, rest) => return FrameRead(op, payload, rest, unread);
        case Waiting =>
      }
      if unread == [] || unread[0] == [] {
        return RecvClosed;
      }
      data := data + unread[0];
      unread := unread[1..];
      left := left - 1;
      if left == 0 {
        return Exhausted;
      }
    }
  }

  lemma MaskedHeaderExtends(data: Bytes, more: Bytes)
    requires ParseReceived(data).Got? && data[1] & 0x80 != 0
    ensures ReceivedHeader(data + more) == ReceivedHeader(data)
    ensures var (ln, i) := ReceivedHeader(data); |data| >= i + 4 + ln && i >= 2
  {
    hide FromBE, Masked;
    assert |data| >= 4 ==> (data + more)[2..4] == data[2..4];
    assert |data| >= 10 ==> (data + more)[2..10] == data[2..10];
  }

  /** Masked or not, a frame the second decoder has found is not changed by more input. */
  lemma ReceivedExtends(data: Bytes, more: Bytes)
    requires ParseReceived(data).Got?
    ensures var g := ParseReceived(data);
            ParseReceived(data + more) == Got(g.opcode, g.payload, g.rest + more)
  {
    if data[1] & 0x80 == 0 {
      PlainReceivedExtends(data, more);
    } else {
      MaskedReceivedExtends(data, more);
    }
  }

  lemma PlainReceivedExtends(data: Bytes, more: Bytes)
    requires ParseReceived(data).Got? && data[1] & 0x80 == 0
    ensures var g := ParseReceived(data);
            ParseReceived(data + more) == Got(g.opcode, g.payload, g.rest + more)
  {
    NotRefused(data);
    hide ParseReceived, TryParse;
    DecodersAgree(data);
    ParseExtends(data, more);
    DecodersAgree(data + more);
  }

  lemma NotRefused(data: Bytes)
    requires |data| >= 2 && data[1] & 0x80 == 0
    ensures TryParse(data) != MaskedFrame
  {}

  lemma MaskedReceivedExtends(data: Bytes, more: Bytes)
    requires ParseReceived(data).Got? && data[1] & 0x80 != 0
    ensures var g := ParseReceived(data);
            ParseReceived(data + more) == Got(g.opcode, g.payload, g.rest + more)
  {
    hide ParseReceived, ReceivedHeader, Masked;
    MaskedHeaderExtends(data, more);
    var (ln, i) := ReceivedHeader(data);
    ReceivedMasked(data, ln, i);
    FirstTwo(data, more);
    ReceivedMasked(data + more, ln, i);
    SlicesExtend(data, more, i, i + 4);
    SlicesExtend(data, more, i + 4, i + 4 + ln);
  }

  lemma FirstTwo(data: Bytes, more: Bytes)
    requires |data| >= 2
    ensures (data + more)[0] == data[0] && (data + more)[1] == data[1]
  {}

  lemma ReceivedMasked(data: Bytes, ln: nat, i: nat)
    requires |data| >= 2 && data[1] & 0x80 != 0 && ReceivedHeader(data) == (ln, i) && |data| >= i + 4 + ln
    ensures ParseReceived(data)
         == Got(data[0] & 0x0F, Masked(data[i + 4..i + 4 + ln], data[i..i + 4]), data[i + 4 + ln..])
  {
    hide ReceivedHeader, Masked;
  }

  lemma SlicesExtend(data: Bytes, more: Bytes, from: nat, to: nat)
    requires from <= to <= |data|
    ensures (data + more)[from..to] == data[from..to] && (data + more)[to..] == data[to..] + more
  {}

  /** What is read is the first frame of the stream, whatever its chunks, with nothing lost. */
  lemma {:induction false} RecvIsSound(data: Bytes, inbox: seq<Bytes>, left: nat)
    requires left > 0 && Recv(data, inbox, left).FrameRead?
    ensures var r := Recv(data, inbox, left);
            ParseReceived(data + Concat(inbox)) == Got(r.opcode, r.payload, r.rest + Concat(r.unread))
    decreases left
  {
    hide ParseReceived;
    if ParseReceived(data).Got? {
      ReceivedExtends(data, Concat(inbox));
    } else {
      RecvIsSound(data + inbox[0], inbox[1..], left - 1);
      assert data + inbox[0] + Concat(inbox[1..]) == data + Concat(inbox);
    }
  }

  /** A frame is read if and only if it is complete after fewer than `left` chunks: after 49 in the
      probe's own loop, so a frame completed by the 50th is given up on although it is there. */
  lemma {:induction false} RecvReadsIffInTime(data: Bytes, inbox: seq<Bytes>, left: nat)
    requires left > 0 && AllNonEmpty(inbox)
    ensures Recv(data, inbox, left).FrameRead?
       <==> ParseReceived(data + Concat(inbox[..if |inbox| < left then |inbox| else left - 1])).Got?
    decreases left
  {
    hide ParseReceived;
    var k := if |inbox| < left then |inbox| else left - 1;
    var seen := Concat(inbox[..k]);
    if ParseReceived(data).Got? {
      ReceivedExtends(data, seen);
    } else if k == 0 {
      assert data + seen == data;
    } else {
      assert inbox[..k][1..] == inbox[1..][..k - 1];
      assert data + inbox[0] + Concat(inbox[1..][..k - 1]) == data + seen;
      RecvReadsIffInTime(data + inbox[0], inbox[1..], left - 1);
    }
  }

  /** A read loop that gives up says why: its reads are used up, or the stream has ended. */
  lemma {:induction false} RecvGivesUpFor(data: Bytes, inbox: seq<Bytes>, left: nat)
    requires left > 0 && AllNonEmpty(inbox) && !Recv(data, inbox, left).FrameRead?
    ensures Recv(data, inbox, left) == if |inbox| >= left then Exhausted else RecvClosed
    decreases left
  {
    hide ParseReceived;
    if inbox != [] && left > 1 { RecvGivesUpFor(data + inbox[0], inbox[1..], left - 1); }
  }

  // ---- the session ----

  /** The readiness probe's connection, with the bytes it carries from one call to the next and
      the chunks its socket has still to deliver. */
  class WSSession {
    var leftover: Bytes
    var inbox: seq<Bytes>

    constructor (inbox: seq<Bytes>)
      ensures leftover == [] && this.inbox == inbox
    {
      leftover := [];
      this.inbox := inbox;
    }

    /** Everything that will still be read, in order. */
    ghost function Remaining(): Bytes
      reads this
    {
      leftover + Concat(inbox)
    }

    method Recv() returns (chunk: Bytes)
      modifies this`inbox
      ensures if old(inbox) == [] then chunk == [] && inbox == []
              else chunk == old(inbox)[0] && inbox == old(inbox)[1..]
    {
      if inbox == [] {
        chunk := [];
      } else {
        chunk := inbox[0];
        inbox := inbox[1..];
      }
    }

    /** The reading part of `_handshake`: up to the blank line that ends the response header, whose
        text `accepts` judges. What came after it is carried over. */
    method Handshake(accepts: Bytes -> bool) returns (ok: bool, header: Bytes)
      modifies this
      ensures ok <==> Upgrades(old(leftover), old(inbox), accepts)
      ensures ok ==> accepts(header) && FirstSeparator(old(Remaining()), |header|)
      ensures ok ==> old(Remaining()) == header + SEPARATOR + Remaining()
    {
      hide Upgrades, FirstSeparator, SeparatorAt, NoSeparator;
      var buf := leftover;
      ok, header := false, [];
      var at := FindSeparator(buf);
      while at == None
        invariant leftover == old(leftover) && buf + Concat(inbox) == old(Remaining())
        invariant Upgrades(buf, inbox, accepts) <==> Upgrades(old(leftover), old(inbox), accepts)
        invariant at.Some? ==> FirstSeparator(buf, at.value)
        invariant at == None ==> NoSeparator(buf)
        decreases |inbox|, at == None
      {
        UpgradeWaits(buf, inbox, accepts);
        var chunk := Recv();
        if chunk == [] { return; }
        buf := buf + chunk;
        if |buf| > MAX_HEADER { return; }
        at := FindSeparator(buf);
      }
      var i := at.value;
      UpgradeDecided(buf, inbox, accepts, i);
      SeparatorStays(buf, Concat(inbox), i);
      header := buf[..i];
      leftover := buf[i + 4..];
      assert buf == header + SEPARATOR + leftover;
      ok := accepts(header);
    }

    /** The receive loop of `call`, up to the text frame it hands to the JSON parser. A failed call
        leaves the carried-over bytes as they were. */
    method Receive(patience: nat) returns (end: CallEnd)
      modifies this
      ensures end == Call(old(leftover), old(inbox), patience)
      ensures end.Reply? ==> leftover == end.leftover && inbox == end.unread
      ensures end.Raised? ==> leftover == old(leftover)
    {
      var data := leftover;
      var budget := patience;
      while true
        invariant leftover == old(leftover)
        invariant Call(data, inbox, budget) == Call(old(leftover), old(inbox), patience)
        decreases |inbox|, budget
      {
        match TryParse(data) {
          case MaskedFrame => return Raised(ServerMasked);
          case Parsed(f, rest) =>
            if f.opcode == 0 { return Raised(Continuation); }
            if f.opcode == 8 { return Raised(ServerClosed(f.closeCode)); }
            if f.opcode == 1 {
              leftover := rest;
              return Reply(f.payload, rest, inbox);
            }
            data := rest;
          case Partial(_) =>
        }
        if budget == 0 { return Raised(TimedOut); }
        var chunk := Recv();
        if chunk == [] { return Raised(EndOfStream); }
        data := data + chunk;
        budget := budget - 1;
      }
    }

    /** Pipelined replies come out one per call, in order, however their bytes were cut up. */
    method ReceiveAll(ghost payloads: seq<Bytes>, n: nat, patience: nat) returns (replies: seq<Bytes>)
      requires n == |payloads| && Sendable(Texts(payloads))
      requires Remaining() == Wire(Texts(payloads)) && AllNonEmpty(inbox) && |inbox| <= patience
      modifies this
      ensures replies == payloads && Remaining() == []
    {
      hide TryParse, EncodeServer, Call, Concat, Wire, Texts, Sendable, AllNonEmpty;
      replies := [];
      ghost var rest := payloads;
      for i := 0 to n
        invariant |rest| == n - i && payloads == replies + rest && Sendable(Texts(rest))
        invariant Remaining() == Wire(Texts(rest)) && AllNonEmpty(inbox) && |inbox| <= patience
      {
        NextReply(leftover, inbox, rest, patience);
        var end := Receive(patience);
        FirstMoves(replies, rest);
        replies := replies + [end.payload];
        rest := rest[1..];
      }
      NothingSent(rest);
    }
  }
}
