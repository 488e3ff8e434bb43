/** Messages as frames on a byte stream that may be delivered in any pieces
    (common/connection.cpp, common/protocol.hpp). */
module Frames {

  import opened Basics
  import opened Octets
  import opened Wire
  import opened Messages

  const HEADER_SIZE: nat := 8

  datatype Message = Message(kind: u16, payload: Bytes)

  predicate Sendable(m: Message) {
    |m.payload| <= MAX_PAYLOAD
  }

  function Frame(m: Message): Bytes
    requires Sendable(m)
  {
    (PutU16(m.kind) + PutU16(0) + PutU32(|m.payload|)) + m.payload
  }

  datatype Received = Framed(msg: Message, rest: Bytes) | Broken

  function Kind(header: Bytes): u16
    requires |header| == HEADER_SIZE
  {
    (header[0] as int) * 0x100 + header[1]
  }

  function Length(header: Bytes): u32
    requires |header| == HEADER_SIZE
  {
    ((header[4] as int) * 0x100 + header[5]) * TWO_16 + (header[6] as int) * 0x100 + header[7]
  }

  /** The first frame of a stream and what follows it; `Broken` if the stream ends early or
      announces too much. The reserved field is ignored. */
  function ParseFrame(stream: Bytes): Received {
    if |stream| < HEADER_SIZE then Broken
    else
      var header, body := stream[..HEADER_SIZE], stream[HEADER_SIZE..];
      if Length(header) > MAX_PAYLOAD || Length(header) > |body| then Broken
      else Framed(Message(Kind(header), body[..Length(header)]), body[Length(header)..])
  }

  /** Two bytes for the kind, two zeros and four bytes for the payload's length. */
  lemma HeaderLayout(m: Message)
    requires Sendable(m)
    ensures var frame := Frame(m);
      && |frame| == 8 + |m.payload| && frame[8..] == m.payload && frame[2..4] == [0, 0]
      && NumberOf(frame[..2]) == m.kind && NumberOf(frame[4..8]) == |m.payload|
  {
    var frame, kind, length := Frame(m), PutU16(m.kind), PutU32(|m.payload|);
    BigEndian(m.kind);
    BigEndian(|m.payload|);
    assert frame == (kind + [0, 0] + length) + m.payload;
    assert frame[..2] == kind && frame[4..8] == length;
  }

  /** Whatever arrives, a message is never longer than the limit, and takes exactly its header
      and its payload from the stream. */
  lemma ReceivedFits(stream: Bytes)
    ensures var r := ParseFrame(stream);
      r.Framed? ==> |r.msg.payload| <= 1024 * 1024 && |stream| >= 8 && stream[8..] == r.msg.payload + r.rest
  {
    var r := ParseFrame(stream);
    if r.Framed? { assert stream[8..] == stream[8..][..|r.msg.payload|] + stream[8..][|r.msg.payload|..]; }
  }

  /** A header that announces more than the limit is refused, whatever follows it. */
  lemma TooLongIsRefused(stream: Bytes)
    requires |stream| >= 8 && NumberOf(stream[4..8]) > 1024 * 1024
    ensures ParseFrame(stream) == Broken
  {
    var header := stream[..HEADER_SIZE];
    assert stream[4..8] == [] + [header[4], header[5]] + [header[6], header[7]];
    NumberOfTwo([], header[4], header[5]);
    NumberOfTwo([] + [header[4], header[5]], header[6], header[7]);
  }

  lemma HeaderReadsBack(m: Message)
    requires Sendable(m)
    ensures var header := PutU16(m.kind) + PutU16(0) + PutU32(|m.payload|);
      |header| == HEADER_SIZE && Kind(header) == m.kind && Length(header) == |m.payload|
  {
  }

  /** A frame is read back as its message, whatever follows it. */
  lemma FrameReadsBack(m: Message, rest: Bytes)
    requires Sendable(m)
    ensures ParseFrame(Frame(m) + rest) == Framed(m, rest)
  {
    var header := PutU16(m.kind) + PutU16(0) + PutU32(|m.payload|);
    HeaderReadsBack(m);
    var stream := Frame(m) + rest;
    assert stream[..HEADER_SIZE] == header && stream[HEADER_SIZE..] == m.payload + rest;
    assert (m.payload + rest)[..|m.payload|] == m.payload && (m.payload + rest)[|m.payload|..] == rest;
  }

  /** Part of a frame is never taken for a message. */
  lemma CutFrameIsBroken(m: Message, k: nat)
    requires Sendable(m) && k < |Frame(m)|
    ensures ParseFrame(Frame(m)[..k]) == Broken
  {
    var header := PutU16(m.kind) + PutU16(0) + PutU32(|m.payload|);
    HeaderReadsBack(m);
    if k >= HEADER_SIZE { assert Frame(m)[..k][..HEADER_SIZE] == header; }
  }

  predicate AllSendable(msgs: seq<Message>) {
    forall m :: m in msgs ==> Sendable(m)
  }

  function FramesOf(msgs: seq<Message>): Bytes
    requires AllSendable(msgs)
  {
    if msgs == [] then [] else Frame(msgs[0]) + FramesOf(msgs[1..])
  }

  datatype AllReceived = AllFramed(msgs: seq<Message>, rest: Bytes) | SomeBroken

  /** What `n` receives in a row yield. */
  function ParseFrames(stream: Bytes, n: nat): AllReceived {
    if n == 0 then AllFramed([], stream)
    else match ParseFrame(stream)
      case Broken => SomeBroken
      case Framed(m, rest) =>
        match ParseFrames(rest, n - 1)
        case SomeBroken => SomeBroken
        case AllFramed(msgs, rest') => AllFramed([m] + msgs, rest')
  }

  lemma FramesStep(msgs: seq<Message>)
    requires AllSendable(msgs) && msgs != []
    ensures Sendable(msgs[0]) && AllSendable(msgs[1..])
    ensures FramesOf(msgs) == Frame(msgs[0]) + FramesOf(msgs[1..])
  {
  }

  lemma ParseStep(stream: Bytes, m: Message, after: Bytes, n: nat, more: seq<Message>, rest: Bytes)
    requires ParseFrame(stream) == Framed(m, after) && ParseFrames(after, n) == AllFramed(more, rest)
    ensures ParseFrames(stream, n + 1) == AllFramed([m] + more, rest)
  {
  }

  lemma FirstReadsBack(msgs: seq<Message>, rest: Bytes)
    requires AllSendable(msgs) && msgs != []
    ensures AllSendable(msgs[1..])
    ensures ParseFrame(FramesOf(msgs) + rest) == Framed(msgs[0], FramesOf(msgs[1..]) + rest)
  {
    FramesStep(msgs);
    Regroup(Frame(msgs[0]), FramesOf(msgs[1..]), rest);
    FrameReadsBack(msgs[0], FramesOf(msgs[1..]) + rest);
  }

  /** Any sequence of messages is received as the same sequence, and the stream is left just
      past it. */
  lemma {:induction false} FramesReadBack(msgs: seq<Message>, rest: Bytes)
    requires AllSendable(msgs)
    ensures ParseFrames(FramesOf(msgs) + rest, |msgs|) == AllFramed(msgs, rest)
  {
    if msgs == [] {
      assert FramesOf(msgs) + rest == rest;
    } else {
      FirstReadsBack(msgs, rest);
      FramesReadBack(msgs[1..], rest);
      ParseStep(FramesOf(msgs) + rest, msgs[0], FramesOf(msgs[1..]) + rest, |msgs| - 1, msgs[1..], rest);
      assert msgs == [msgs[0]] + msgs[1..];
    }
  }

  /** After `msgs`, parsing goes on at `left`. */
  ghost predicate ParsesOn(stream: Bytes, n: nat, msgs: seq<Message>, left: Bytes) {
    |msgs| <= n && ParseFrames(stream, n) == After(msgs, ParseFrames(left, n - |msgs|))
  }

  function After(msgs: seq<Message>, r: AllReceived): AllReceived {
    match r
    case SomeBroken => SomeBroken
    case AllFramed(more, rest) => AllFramed(msgs + more, rest)
  }

  lemma NoneParsed(stream: Bytes, n: nat)
    ensures ParsesOn(stream, n, [], stream)
  {
    var all := ParseFrames(stream, n);
    if all.AllFramed? { assert [] + all.msgs == all.msgs; }
  }

  lemma OneMoreParsed(stream: Bytes, n: nat, msgs: seq<Message>, before: Bytes, m: Message, left: Bytes)
    requires ParsesOn(stream, n, msgs, before) && |msgs| < n && ParseFrame(before) == Framed(m, left)
    ensures ParsesOn(stream, n, msgs + [m], left)
  {
    assert |msgs + [m]| == |msgs| + 1;
    var more := ParseFrames(left, n - |msgs| - 1);
    if more.AllFramed? { Regroup(msgs, [m], more.msgs); }
  }

  lemma ParseStops(stream: Bytes, n: nat, msgs: seq<Message>, before: Bytes)
    requires ParsesOn(stream, n, msgs, before) && |msgs| < n && ParseFrame(before) == Broken
    ensures ParseFrames(stream, n) == SomeBroken
  {
  }

  lemma AllParsed(stream: Bytes, n: nat, msgs: seq<Message>, left: Bytes)
    requires ParsesOn(stream, n, msgs, left) && |msgs| == n
    ensures ParseFrames(stream, n) == AllFramed(msgs, left)
  {
    assert msgs + [] == msgs;
  }

  datatype IoStatus = Arrived | TimedOut | Lost

  datatype RecvStatus = Ok | Timeout | Closed

  /** `after` is what is left of `before` once some bytes were read. */
  predicate Consumed(before: Bytes, after: Bytes) {
    |after| <= |before| && after == before[|before| - |after|..]
  }

  /** The bytes from `at` on are overwritten. */
  function Overwritten(buf: Bytes, at: nat, data: Bytes): Bytes
    requires at + |data| <= |buf|
  {
    buf[..at] + data + buf[at + |data|..]
  }

  lemma OverwrittenTwice(buf: Bytes, at: nat, first: Bytes, second: Bytes)
    requires at + |first| + |second| <= |buf|
    ensures Overwritten(Overwritten(buf, at, first), at + |first|, second) == Overwritten(buf, at, first + second)
  {
  }

  /** The first `total` bytes of the stream have been put into the buffer. */
  ghost predicate ReadSoFar(stream: Bytes, was: Bytes, at: nat, total: nat, left: Bytes, now: Bytes) {
    && total <= |stream| && left == stream[total..]
    && at + total <= |was| && now == Overwritten(was, at, stream[..total])
  }

  lemma ReadConsumes(was: Bytes, at: nat, stream: Bytes, total: nat, left: Bytes, now: Bytes)
    requires ReadSoFar(stream, was, at, total, left, now)
    ensures Consumed(stream, left)
  {
  }

  lemma NothingReadYet(was: Bytes, at: nat, stream: Bytes)
    requires at <= |was|
    ensures ReadSoFar(stream, was, at, 0, stream, was)
  {
  }

  lemma ReadFurther(was: Bytes, at: nat, stream: Bytes, total: nat, got: nat, left: Bytes, now: Bytes, left': Bytes, now': Bytes)
    requires ReadSoFar(stream, was, at, total, left, now) && got <= |left| && at + total + got <= |was|
    requires left' == left[got..] && now' == Overwritten(now, at + total, left[..got])
    ensures ReadSoFar(stream, was, at, total + got, left', now')
  {
    assert stream[..total] + left[..got] == stream[..total + got];
    OverwrittenTwice(was, at, stream[..total], left[..got]);
  }

  method CopyInto(buf: array<byte>, at: nat, data: Bytes)
    requires at + |data| <= buf.Length
    modifies buf
    ensures buf[..] == Overwritten(old(buf[..]), at, data)
  {
    forall i | 0 <= i < |data| {
      buf[at + i] := data[i];
    }
  }

  class Connection {
    /** The bytes that will still arrive before the peer closes. */
    var incoming: Bytes
    var outgoing: Bytes
    /** No read or write fails or times out unless the peer has closed. */
    const steady: bool

    constructor (incoming: Bytes, steady: bool)
      ensures this.incoming == incoming && outgoing == [] && this.steady == steady
    {
      this.incoming, outgoing, this.steady := incoming, [], steady;
    }

    /** read_some: any non-empty piece of what is still to arrive. */
    method ReadSome(buf: array<byte>, at: nat, size: nat) returns (status: IoStatus, got: nat)
      requires 0 < size && at + size <= buf.Length
      modifies this`incoming, buf
      ensures status.Arrived? ==> 0 < got <= size && got <= |old(incoming)|
      ensures status.Arrived? ==> incoming == old(incoming)[got..]
      ensures status.Arrived? ==> buf[..] == Overwritten(old(buf[..]), at, old(incoming)[..got])
      ensures !status.Arrived? ==> incoming == old(incoming) && buf[..] == old(buf[..])
      ensures steady ==> status == if old(incoming) == [] then Lost else Arrived
    {
      var fault, late: bool := *, *;
      got := 0;
      if fault && !steady { return if late then TimedOut else Lost, 0; }
      if incoming == [] { return Lost, 0; }
      got :| 0 < got <= size && got <= |incoming|;
      CopyInto(buf, at, incoming[..got]);
      incoming := incoming[got..];
      status := Arrived;
    }

    /** One round of read_exact's loop; 0 if it fails. */
    method ReadPiece(buf: array<byte>, at: nat, size: nat, total: nat, ghost stream: Bytes, ghost was: Bytes) returns (got: nat)
      requires total < size && at + size <= buf.Length && ReadSoFar(stream, was, at, total, incoming, buf[..])
      modifies this`incoming, buf
      ensures got <= size - total && ReadSoFar(stream, was, at, total + got, incoming, buf[..])
      ensures steady && got == 0 ==> incoming == []
    {
      ghost var left, now := incoming, buf[..];
      var status;
      status, got := ReadSome(buf, at + total, size - total);
      if !status.Arrived? { return 0; }
      ReadFurther(was, at, stream, total, got, left, now, incoming, buf[..]);
    }

    /** read_exact: `size` bytes, in as many pieces as it takes. */
    method ReadExact(buf: array<byte>, at: nat, size: nat) returns (ok: bool)
      requires at + size <= buf.Length
      modifies this`incoming, buf
      ensures ok ==> size <= |old(incoming)| && incoming == old(incoming)[size..]
      ensures ok ==> buf[..] == Overwritten(old(buf[..]), at, old(incoming)[..size])
      ensures steady ==> (ok <==> size <= |old(incoming)|)
      ensures Consumed(old(incoming), incoming)
    {
      var total := 0;
      ghost var stream, was := incoming, buf[..];
      NothingReadYet(was, at, stream);
      while total < size
        invariant total <= size && ReadSoFar(stream, was, at, total, incoming, buf[..])
      {
        var got := ReadPiece(buf, at, size, total, stream, was);
        if got == 0 {
          ReadConsumes(was, at, stream, total, incoming, buf[..]);
          return false;
        }
        total := total + got;
      }
      ReadConsumes(was, at, stream, total, incoming, buf[..]);
      return true;
    }

    /** The first part of recv. Once a byte has arrived, the rest must follow. */
    method RecvHeader() returns (status: RecvStatus, header: Bytes)
      modifies this`incoming
      ensures status.Ok? ==> HEADER_SIZE == |header| <= |old(incoming)|
      ensures status.Ok? ==> header == old(incoming)[..HEADER_SIZE] && incoming == old(incoming)[HEADER_SIZE..]
      ensures status.Timeout? ==> incoming == old(incoming)
      ensures steady ==> status == if HEADER_SIZE <= |old(incoming)| then Ok else Closed
      ensures Consumed(old(incoming), incoming)
    {
      ghost var stream := incoming;
      var buf := new byte[HEADER_SIZE];
      var first, got := ReadSome(buf, 0, HEADER_SIZE);
      if first.TimedOut? { return Timeout, []; }
      if first.Lost? { return Closed, []; }
      ghost var was := buf[..];
      var ok := ReadExact(buf, got, HEADER_SIZE - got);
      if !ok { return Closed, []; }
      assert buf[..] == was[..got] + stream[got..][..HEADER_SIZE - got] == stream[..HEADER_SIZE];
      return Ok, buf[..];
    }

    method RecvPayload(length: nat) returns (ok: bool, payload: Bytes)
      modifies this`incoming
      ensures ok ==> length <= |old(incoming)|
      ensures ok ==> payload == old(incoming)[..length] && incoming == old(incoming)[length..]
      ensures steady ==> (ok <==> length <= |old(incoming)|)
      ensures Consumed(old(incoming), incoming)
    {
      var buf := new byte[length];
      ok := true;
      if length > 0 { ok := ReadExact(buf, 0, length); }
      payload := buf[..];
    }

    /** recv. */
    method Recv() returns (status: RecvStatus, msg: Message)
      modifies this`incoming
      ensures status.Ok? ==> ParseFrame(old(incoming)) == Framed(msg, incoming)
      ensures status.Timeout? ==> incoming == old(incoming)
      ensures steady ==> status == if ParseFrame(old(incoming)).Framed? then Ok else Closed
      ensures Consumed(old(incoming), incoming)
    {
      msg := Message(0, []);
      var header;
      status, header := RecvHeader();
      if !status.Ok? { return; }
      msg := msg.(kind := Kind(header));
      if Length(header) > MAX_PAYLOAD { return Closed, msg; }
      var ok, payload := RecvPayload(Length(header));
      if !ok { return Closed, msg; }
      msg := msg.(payload := payload);
    }

    /** `n` receives in a row, as the loops over a connection do them. */
    method RecvMany(n: nat) returns (ok: bool, msgs: seq<Message>)
      modifies this`incoming
      ensures ok ==> ParseFrames(old(incoming), n) == AllFramed(msgs, incoming)
      ensures steady ==> (ok <==> ParseFrames(old(incoming), n).AllFramed?)
    {
      msgs := [];
      ghost var stream := incoming;
      NoneParsed(stream, n);
      while |msgs| < n
        invariant ParsesOn(stream, n, msgs, incoming)
      {
        ghost var before := incoming;
        var status, msg := Recv();
        if !status.Ok? {
          if steady { ParseStops(stream, n, msgs, before); }
          return false, msgs;
        }
        OneMoreParsed(stream, n, msgs, before, msg, incoming);
        msgs := msgs + [msg];
      }
      AllParsed(stream, n, msgs, incoming);
      ok := true;
    }

    /** However the stream is split into pieces on the way, what was sent is what is received,
        and what follows it is left. */
    method RecvSent(ghost sent: seq<Message>, ghost rest: Bytes, n: nat) returns (msgs: seq<Message>)
      requires AllSendable(sent) && n == |sent| && incoming == FramesOf(sent) + rest && steady
      modifies this`incoming
      ensures msgs == sent && incoming == rest
    {
      FramesReadBack(sent, rest);
      var ok;
      ok, msgs := RecvMany(n);
    }

    /** write_all: on failure some of the data may have gone out. */
    method WriteAll(data: Bytes) returns (ok: bool)
      modifies this`outgoing
      ensures ok ==> outgoing == old(outgoing) + data
      ensures !ok ==> !steady && old(outgoing) <= outgoing < old(outgoing) + data
    {
      var sent := 0;
      while sent < |data|
        invariant sent <= |data| && outgoing == old(outgoing) + data[..sent]
      {
        var fault: bool := *;
        if fault && !steady { return false; }
        var n: nat :| 0 < n <= |data| - sent;
        assert data[..sent] + data[sent..sent + n] == data[..sent + n];
        outgoing := outgoing + data[sent..sent + n];
        sent := sent + n;
      }
      return true;
    }

    /** send_locked. */
    method SendLocked(m: Message) returns (ok: bool)
      modifies this`outgoing
      ensures ok ==> Sendable(m) && outgoing == old(outgoing) + Frame(m)
      ensures !ok && Sendable(m) ==> old(outgoing) <= outgoing < old(outgoing) + Frame(m)
      ensures !Sendable(m) ==> !ok && outgoing == old(outgoing)
      ensures steady ==> (ok <==> Sendable(m))
    {
      if |m.payload| > MAX_PAYLOAD { return false; }
      var header := new Writer();
      header.U16(m.kind);
      header.U16(0);
      header.U32(|m.payload|);
      assert header.buf == PutU16(m.kind) + PutU16(0) + PutU32(|m.payload|);
      assert header.buf + m.payload == Frame(m);
      ok := WriteAll(header.buf + m.payload);
    }
  }
}
