/** File bodies: chunks of a file sent after a header that announces its size, and the
    receiver that puts them back together (common/files.cpp). */
module Transfer {

  import opened Basics
  import opened Octets
  import opened Fnv
  import opened Wire
  import opened Messages
  import opened Frames

  const FILE_DATA: u16 := 40
  const FILE_END: u16 := 41
  const FILE_ABORT: u16 := 42

  datatype TransferResult = Done | NotSent | FileError | ConnectionLost | Thrown

  datatype Disk = Absent | Present(data: Bytes)

  /* ----------------------------------------------------------------- what is sent */

  function ChunkAt(size: nat, pos: nat): nat
    requires pos < size
  {
    if size - pos < FILE_CHUNK_SIZE then size - pos else FILE_CHUNK_SIZE
  }

  /** The messages after the header, from position `pos` on; `file` is what the open file
      yields. They end in an abort if it turns out shorter than announced. */
  function Body(file: Bytes, size: nat, pos: nat): (msgs: seq<Message>)
    requires pos <= size
    ensures AllSendable(msgs)
    decreases size - pos
  {
    if pos == size then [Message(FILE_END, [])]
    else
      var next := pos + ChunkAt(size, pos);
      if next > |file| then [Message(FILE_ABORT, [])]
      else [Message(FILE_DATA, file[pos..next])] + Body(file, size, next)
  }

  /** A file goes out in pieces of 64 KiB; only the last may be shorter, and none is empty. */
  lemma {:induction false} PiecesAreFull(file: Bytes, size: nat, pos: nat, i: nat)
    requires pos <= size && i < |Body(file, size, pos)| && Body(file, size, pos)[i].kind == FILE_DATA
    ensures var msgs := Body(file, size, pos);
      1 <= |msgs[i].payload| <= 65536 && (|msgs[i].payload| < 65536 ==> i + 2 == |msgs| && msgs[i + 1].kind == FILE_END)
    decreases size - pos
  {
    var next := pos + ChunkAt(size, pos);
    if i > 0 {
      PiecesAreFull(file, size, next, i - 1);
      assert Body(file, size, pos)[i] == Body(file, size, next)[i - 1];
    }
  }

  function FirstMessage(kind: u16, prefix: Bytes, name: Text, size: u64, mtime: i64): Message {
    Message(kind, prefix + PutFileHeader(FileInfo(name, size, mtime, 0)))
  }

  /** send_file. `found` is false where the file cannot be opened or is no regular one. */
  method SendFile(conn: Connection, kind: u16, prefix: Bytes, name: Bytes, found: bool, file: Bytes, size: u64, mtime: i64)
    returns (result: TransferResult)
    modifies conn`outgoing
    ensures result.NotSent? <==> !found
    ensures result.Thrown? <==> found && |name| > MAX_TEXT
    ensures result.NotSent? || result.Thrown? ==> conn.outgoing == old(conn.outgoing)
    ensures found && |name| <= MAX_TEXT ==>
      SentWhole(conn.steady, FirstMessage(kind, prefix, name, size, mtime), file, size, result, old(conn.outgoing), conn.outgoing)
  {
    if !found { return NotSent; }
    var header := new Writer();
    var fits := header.WriteFileHeader(FileInfo(name, size, mtime, 0));
    if !fits { return Thrown; }
    assert header.buf == PutFileHeader(FileInfo(name, size, mtime, 0));
    result := SendMessages(conn, Message(kind, prefix + header.buf), file, size);
  }

  method SendMessages(conn: Connection, first: Message, file: Bytes, size: nat) returns (result: TransferResult)
    modifies conn`outgoing
    ensures SentWhole(conn.steady, first, file, size, result, old(conn.outgoing), conn.outgoing)
  {
    var ok := conn.SendLocked(first);
    if |first.payload| > MAX_PAYLOAD { return ConnectionLost; }
    ghost var start, frame, body := old(conn.outgoing), Frame(first), FramesOf(Body(file, size, 0));
    FirstThenBody(first, file, size);
    assert SentUpTo(start, start, frame + body, frame + body);
    if !ok {
      SentPart(start, start, conn.outgoing, frame, body, frame + body);
      return ConnectionLost;
    }
    result := SendBody(conn, file, size);
    Regroup(start, frame, body);
  }

  /** The header message and the whole body went out, or a proper part of them before the
      connection broke; a header that is too long is not sent at all. */
  ghost predicate SentWhole(steady: bool, first: Message, file: Bytes, size: nat, result: TransferResult, before: Bytes, after: Bytes) {
    if !Sendable(first) then result.ConnectionLost? && after == before
    else
      var whole := FramesOf([first] + Body(file, size, 0));
      if result.ConnectionLost? then !steady && before <= after < before + whole
      else result == (if size <= |file| then Done else FileError) && after == before + whole
  }

  lemma {:induction false} WholeBodyHasNoAbort(file: Bytes, pos: nat)
    requires pos <= |file|
    ensures forall m :: m in Body(file, |file|, pos) ==> m.kind != FILE_ABORT
    decreases |file| - pos
  {
    if pos < |file| { WholeBodyHasNoAbort(file, pos + ChunkAt(|file|, pos)); }
  }

  /** A stored file is only ever replaced by a rename, so an open one keeps the size that is
      announced for it: such a transfer is never aborted. */
  lemma StoredFileIsNotAborted(steady: bool, first: Message, file: Bytes, result: TransferResult, before: Bytes, after: Bytes)
    requires SentWhole(steady, first, file, |file|, result, before, after)
    ensures !result.FileError?
    ensures forall m :: m in Body(file, |file|, 0) ==> m.kind != FILE_ABORT
  {
    WholeBodyHasNoAbort(file, 0);
  }

  lemma FirstThenBody(first: Message, file: Bytes, size: nat)
    requires Sendable(first)
    ensures AllSendable([first] + Body(file, size, 0))
    ensures FramesOf([first] + Body(file, size, 0)) == Frame(first) + FramesOf(Body(file, size, 0))
  {
    assert ([first] + Body(file, size, 0))[1..] == Body(file, size, 0);
  }

  /** The rest of send_file: exactly the announced size, in chunks, and a terminator. */
  method SendBody(conn: Connection, file: Bytes, size: nat) returns (result: TransferResult)
    modifies conn`outgoing
    ensures result.Done? || result.FileError? || result.ConnectionLost?
    ensures !result.ConnectionLost? ==> conn.outgoing == old(conn.outgoing) + FramesOf(Body(file, size, 0))
    ensures !result.ConnectionLost? ==> result == if size <= |file| then Done else FileError
    ensures result.ConnectionLost? ==>
      !conn.steady && old(conn.outgoing) <= conn.outgoing < old(conn.outgoing) + FramesOf(Body(file, size, 0))
  {
    ghost var start, whole := conn.outgoing, FramesOf(Body(file, size, 0));
    var pos := 0;
    while pos < size
      invariant BodySent(file, size, pos, start, conn.outgoing, whole)
    {
      var next := pos + ChunkAt(size, pos);
      LeftOfBody(file, size, pos, start, conn.outgoing, whole);
      if next > |file| {
        result := SendLast(conn, FILE_ABORT, start, whole);
        return;
      }
      var ok := SendNext(conn, Message(FILE_DATA, file[pos..next]), start, FramesOf(Body(file, size, next)), whole);
      if !ok { return ConnectionLost; }
      pos := next;
    }
    LeftOfBody(file, size, pos, start, conn.outgoing, whole);
    result := SendLast(conn, FILE_END, start, whole);
  }

  /** The body up to `pos` went out. */
  ghost predicate BodySent(file: Bytes, size: nat, pos: nat, start: Bytes, out: Bytes, whole: Bytes) {
    pos <= size && (pos <= |file| || pos == 0) && SentUpTo(start, out, FramesOf(Body(file, size, pos)), whole)
  }

  lemma LeftOfBody(file: Bytes, size: nat, pos: nat, start: Bytes, out: Bytes, whole: Bytes)
    requires BodySent(file, size, pos, start, out, whole)
    ensures pos == size ==> SentUpTo(start, out, Frame(Message(FILE_END, [])), whole)
    ensures pos < size && pos + ChunkAt(size, pos) > |file| ==> SentUpTo(start, out, Frame(Message(FILE_ABORT, [])), whole)
    ensures pos < size && pos + ChunkAt(size, pos) <= |file| ==>
      var next := pos + ChunkAt(size, pos);
      var chunk := Message(FILE_DATA, file[pos..next]);
      Sendable(chunk) && SentUpTo(start, out, Frame(chunk) + FramesOf(Body(file, size, next)), whole)
  {
    if pos == size || pos + ChunkAt(size, pos) > |file| {
      LastOfBody(file, size, pos);
    } else {
      MoreOfBody(file, size, pos);
    }
  }

  method SendNext(conn: Connection, m: Message, ghost start: Bytes, ghost after: Bytes, ghost whole: Bytes) returns (ok: bool)
    requires Sendable(m) && SentUpTo(start, conn.outgoing, Frame(m) + after, whole)
    modifies conn`outgoing
    ensures ok ==> SentUpTo(start, conn.outgoing, after, whole)
    ensures !ok ==> !conn.steady && start <= conn.outgoing < start + whole
  {
    ghost var before := conn.outgoing;
    ok := conn.SendLocked(m);
    if ok {
      SentMore(start, before, Frame(m), after, whole);
    } else {
      SentPart(start, before, conn.outgoing, Frame(m), after, whole);
    }
  }

  /** The end of send_file. */
  method SendLast(conn: Connection, kind: u16, ghost start: Bytes, ghost whole: Bytes) returns (result: TransferResult)
    requires SentUpTo(start, conn.outgoing, Frame(Message(kind, [])), whole)
    modifies conn`outgoing
    ensures result == ConnectionLost || result == if kind == FILE_END then Done else FileError
    ensures !result.ConnectionLost? ==> conn.outgoing == start + whole
    ensures result.ConnectionLost? ==> !conn.steady && start <= conn.outgoing < start + whole
  {
    assert Frame(Message(kind, [])) == Frame(Message(kind, [])) + [];
    var ok := SendNext(conn, Message(kind, []), start, [], whole);
    if !ok { return ConnectionLost; }
    assert conn.outgoing == conn.outgoing + [];
    return if kind == FILE_END then Done else FileError;
  }

  lemma MoreOfBody(file: Bytes, size: nat, pos: nat)
    requires pos < size && pos + ChunkAt(size, pos) <= |file|
    ensures var next := pos + ChunkAt(size, pos);
      && Sendable(Message(FILE_DATA, file[pos..next]))
      && FramesOf(Body(file, size, pos)) == Frame(Message(FILE_DATA, file[pos..next])) + FramesOf(Body(file, size, next))
  {
    var next := pos + ChunkAt(size, pos);
    assert Body(file, size, pos)[1..] == Body(file, size, next);
  }

  /** What went out since `start` and what is left make up the whole. */
  ghost predicate SentUpTo(start: Bytes, out: Bytes, left: Bytes, whole: Bytes) {
    start <= out && out + left == start + whole
  }

  lemma SentMore(start: Bytes, out: Bytes, frame: Bytes, left: Bytes, whole: Bytes)
    requires SentUpTo(start, out, frame + left, whole)
    ensures SentUpTo(start, out + frame, left, whole)
  {
    assert (out + frame) + left == out + (frame + left);
  }

  lemma SentPart(start: Bytes, out: Bytes, out': Bytes, frame: Bytes, left: Bytes, whole: Bytes)
    requires SentUpTo(start, out, frame + left, whole) && out <= out' < out + frame
    ensures start <= out' < start + whole
  {
    assert (out + frame) + left == out + (frame + left);
  }

  /* ------------------------------------------------------------- what is received */

  /** How a body reads: complete, given up by the sender, or not to be trusted. */
  datatype Outcome = Ended(data: Bytes, rest: Bytes) | Aborted(rest: Bytes) | Bad

  function ParseBody(stream: Bytes, size: nat, got: Bytes): (r: Outcome)
    ensures r.Ended? ==> |r.data| == size
    decreases |stream|
  {
    match ParseFrame(stream)
    case Broken => Bad
    case Framed(m, rest) =>
      if m.kind == FILE_DATA then
        if size < |got| + |m.payload| then Bad else ParseBody(rest, size, got + m.payload)
      else if m.kind == FILE_END then
        if |got| == size then Ended(got, rest) else Bad
      else if m.kind == FILE_ABORT then Aborted(rest)
      else Bad
  }

  /** recv_file_body. `sound`: the destination can be opened and every write succeeds. */
  method RecvFileBody(conn: Connection, size: nat, sound: bool) returns (result: TransferResult, dest: Disk, hash: nat)
    modifies conn`incoming
    ensures result.Done? || result.FileError? || result.ConnectionLost?
    ensures result.Done? ==> dest.Present? && |dest.data| == size && hash == Hash(dest.data)
    ensures result.Done? ==> ParseBody(old(conn.incoming), size, []) == Ended(dest.data, conn.incoming)
    ensures !result.Done? ==> dest == Absent
    ensures result.FileError? ==> GivenUp(ParseBody(old(conn.incoming), size, []), conn.incoming, sound)
    ensures conn.steady ==> (result.ConnectionLost? <==> ParseBody(old(conn.incoming), size, []).Bad?)
    ensures conn.steady && sound ==> (result.Done? <==> ParseBody(old(conn.incoming), size, []).Ended?)
  {
    var fnv := new Fnv1a();
    var opens: bool := *;
    var received, writeOk, data: Bytes := 0, sound || opens, [];
    ghost var stream, got: Bytes := conn.incoming, [];
    while true
      invariant received == |got| <= size && fnv.hash == Hash(got)
      invariant ParseBody(stream, size, []) == ParseBody(conn.incoming, size, got)
      invariant (writeOk ==> data == got) && (sound ==> writeOk)
      decreases |conn.incoming|
    {
      var status, msg := conn.Recv();
      if !status.Ok? { return ConnectionLost, Absent, 0; }
      if msg.kind == FILE_DATA {
        if size - received < |msg.payload| { return ConnectionLost, Absent, 0; }
        if writeOk {
          var written: bool := *;
          writeOk := sound || written;
          if writeOk { data := data + msg.payload; }
        }
        UpdatedSplits(START, got, msg.payload);
        fnv.Update(msg.payload);
        received := received + |msg.payload|;
        got := got + msg.payload;
      } else if msg.kind == FILE_END {
        if received != size { return ConnectionLost, Absent, 0; }
        if !writeOk { return FileError, Absent, 0; }
        return Done, Present(data), fnv.hash;
      } else if msg.kind == FILE_ABORT {
        return FileError, Absent, 0;
      } else {
        return ConnectionLost, Absent, 0;
      }
    }
  }

  /** The body was read to its end, whatever became of the file. */
  predicate GivenUp(outcome: Outcome, left: Bytes, sound: bool) {
    outcome == Aborted(left) || (outcome.Ended? && outcome.rest == left && !sound)
  }

  lemma ParseChunk(piece: Bytes, after: Bytes, size: nat, got: Bytes)
    requires Sendable(Message(FILE_DATA, piece))
    ensures ParseBody(Frame(Message(FILE_DATA, piece)) + after, size, got)
         == if size < |got| + |piece| then Bad else ParseBody(after, size, got + piece)
  {
    FrameReadsBack(Message(FILE_DATA, piece), after);
  }

  lemma ParseLast(last: Message, rest: Bytes, size: nat, got: Bytes)
    requires last == Message(FILE_END, []) || last == Message(FILE_ABORT, [])
    ensures ParseBody(Frame(last) + rest, size, got) ==
      if last.kind == FILE_ABORT then Aborted(rest) else if |got| == size then Ended(got, rest) else Bad
  {
    FrameReadsBack(last, rest);
  }

  lemma LastOfBody(file: Bytes, size: nat, pos: nat)
    requires pos <= size && (pos < size ==> pos + ChunkAt(size, pos) > |file|)
    ensures FramesOf(Body(file, size, pos)) == Frame(Message(if pos == size then FILE_END else FILE_ABORT, []))
  {
    var last := Message(if pos == size then FILE_END else FILE_ABORT, []);
    assert FramesOf([last]) == Frame(last);
  }

  /** From `pos` on the body reads as the whole file, or as given up. */
  ghost predicate Arrives(file: Bytes, size: nat, pos: nat, rest: Bytes)
    requires pos <= size && pos <= |file|
  {
    ParseBody(FramesOf(Body(file, size, pos)) + rest, size, file[..pos])
    == if size <= |file| then Ended(file[..size], rest) else Aborted(rest)
  }

  lemma BodyEnds(file: Bytes, size: nat, pos: nat, rest: Bytes)
    requires pos <= size && pos <= |file| && (pos < size ==> pos + ChunkAt(size, pos) > |file|)
    ensures Arrives(file, size, pos, rest)
  {
    LastOfBody(file, size, pos);
    ParseLast(Message(if pos == size then FILE_END else FILE_ABORT, []), rest, size, file[..pos]);
  }

  lemma BodyGoesOn(file: Bytes, size: nat, pos: nat, rest: Bytes)
    requires pos < size && pos + ChunkAt(size, pos) <= |file|
    ensures Arrives(file, size, pos + ChunkAt(size, pos), rest) ==> Arrives(file, size, pos, rest)
  {
    var next := pos + ChunkAt(size, pos);
    var piece, after := file[pos..next], FramesOf(Body(file, size, next));
    MoreOfBody(file, size, pos);
    Regroup(Frame(Message(FILE_DATA, piece)), after, rest);
    ParseChunk(piece, after + rest, size, file[..pos]);
    Glue(file, pos, next);
  }

  /** Every file arrives as the same bytes; one that shrank is given up. Either way the
      stream is left just past the terminator. */
  lemma {:induction false} BodyArrives(file: Bytes, size: nat, pos: nat, rest: Bytes)
    requires pos <= size && pos <= |file|
    ensures Arrives(file, size, pos, rest)
    decreases size - pos
  {
    if pos == size || pos + ChunkAt(size, pos) > |file| {
      BodyEnds(file, size, pos, rest);
    } else {
      BodyArrives(file, size, pos + ChunkAt(size, pos), rest);
      BodyGoesOn(file, size, pos, rest);
    }
  }

  lemma CutFirst(m: Message, after: Bytes, k: nat)
    requires Sendable(m) && k <= |Frame(m) + after|
    ensures k < |Frame(m)| ==> ParseFrame((Frame(m) + after)[..k]) == Broken
    ensures k >= |Frame(m)| ==> (Frame(m) + after)[..k] == Frame(m) + after[..k - |Frame(m)|]
  {
    if k < |Frame(m)| {
      assert (Frame(m) + after)[..k] == Frame(m)[..k];
      CutFrameIsBroken(m, k);
    }
  }

  lemma CutChunk(piece: Bytes, after: Bytes, k: nat, size: nat, got: Bytes)
    requires Sendable(Message(FILE_DATA, piece)) && k <= |Frame(Message(FILE_DATA, piece)) + after|
    ensures var frame := Frame(Message(FILE_DATA, piece));
      ParseBody((frame + after)[..k], size, got)
      == if k < |frame| || size < |got| + |piece| then Bad else ParseBody(after[..k - |frame|], size, got + piece)
  {
    var frame := Frame(Message(FILE_DATA, piece));
    CutFirst(Message(FILE_DATA, piece), after, k);
    if k >= |frame| { ParseChunk(piece, after[..k - |frame|], size, got); }
  }

  lemma CutEnd(file: Bytes, size: nat, pos: nat, k: nat)
    requires pos <= size && pos <= |file| && (pos < size ==> pos + ChunkAt(size, pos) > |file|)
    requires k < |FramesOf(Body(file, size, pos))|
    ensures ParseBody(FramesOf(Body(file, size, pos))[..k], size, file[..pos]) == Bad
  {
    LastOfBody(file, size, pos);
    CutFrameIsBroken(Message(if pos == size then FILE_END else FILE_ABORT, []), k);
  }

  lemma CutGoesOn(file: Bytes, size: nat, pos: nat, k: nat)
    requires pos < size && pos + ChunkAt(size, pos) <= |file| && k < |FramesOf(Body(file, size, pos))|
    ensures var next := pos + ChunkAt(size, pos);
      var n := |Frame(Message(FILE_DATA, file[pos..next]))|;
      && (k >= n ==> k - n < |FramesOf(Body(file, size, next))|)
      && ParseBody(FramesOf(Body(file, size, pos))[..k], size, file[..pos])
      == if k < n then Bad else ParseBody(FramesOf(Body(file, size, next))[..k - n], size, file[..next])
  {
    var next := pos + ChunkAt(size, pos);
    MoreOfBody(file, size, pos);
    CutChunk(file[pos..next], FramesOf(Body(file, size, next)), k, size, file[..pos]);
    Glue(file, pos, next);
  }

  /** A body that is cut off anywhere is never taken for a file. */
  lemma {:induction false} CutBodyIsBad(file: Bytes, size: nat, pos: nat, k: nat)
    requires pos <= size && pos <= |file| && k < |FramesOf(Body(file, size, pos))|
    ensures ParseBody(FramesOf(Body(file, size, pos))[..k], size, file[..pos]) == Bad
    decreases size - pos
  {
    if pos == size || pos + ChunkAt(size, pos) > |file| {
      CutEnd(file, size, pos, k);
    } else {
      CutGoesOn(file, size, pos, k);
      var next := pos + ChunkAt(size, pos);
      var n := |Frame(Message(FILE_DATA, file[pos..next]))|;
      if k >= n { CutBodyIsBad(file, size, next, k - n); }
    }
  }

  function Joined(pieces: seq<Bytes>): Bytes {
    if pieces == [] then [] else pieces[0] + Joined(pieces[1..])
  }

  function Pieces(pieces: seq<Bytes>, last: Message): seq<Message> {
    seq(|pieces|, i requires 0 <= i < |pieces| => Message(FILE_DATA, pieces[i])) + [last]
  }

  lemma PiecesStep(pieces: seq<Bytes>, last: Message)
    requires pieces != [] && AllSendable(Pieces(pieces, last))
    ensures AllSendable(Pieces(pieces[1..], last)) && Sendable(Message(FILE_DATA, pieces[0]))
    ensures FramesOf(Pieces(pieces, last)) == Frame(Message(FILE_DATA, pieces[0])) + FramesOf(Pieces(pieces[1..], last))
  {
    var msgs := Pieces(pieces, last);
    assert msgs[0] == Message(FILE_DATA, pieces[0]) && msgs[1..] == Pieces(pieces[1..], last);
  }

  /** Whatever pieces the data comes in, and whatever message comes after it: it is accepted
      exactly if it has the announced size and the terminator follows, and never beyond that
      size; anything but a terminator or an abort is not to be trusted. */
  lemma {:induction false} AnyPieces(pieces: seq<Bytes>, last: Message, size: nat, got: Bytes, rest: Bytes)
    requires last.kind != FILE_DATA && AllSendable(Pieces(pieces, last)) && |got| <= size
    ensures ParseBody(FramesOf(Pieces(pieces, last)) + rest, size, got) ==
      var all := got + Joined(pieces);
      if |all| > size || (last.kind == FILE_END && |all| < size) then Bad
      else if last.kind == FILE_END then Ended(all, rest)
      else if last.kind == FILE_ABORT then Aborted(rest)
      else Bad
  {
    if pieces == [] {
      assert Pieces(pieces, last) == [last] && FramesOf([last]) == Frame(last);
      assert got + Joined(pieces) == got;
      FrameReadsBack(last, rest);
    } else {
      PiecesStep(pieces, last);
      var frame, after := Frame(Message(FILE_DATA, pieces[0])), FramesOf(Pieces(pieces[1..], last));
      Regroup(frame, after, rest);
      ParseChunk(pieces[0], after + rest, size, got);
      Regroup(got, pieces[0], Joined(pieces[1..]));
      if |got + pieces[0]| <= size { AnyPieces(pieces[1..], last, size, got + pieces[0], rest); }
    }
  }

  /** The receiver reads the file's name, size and time from the first message, after what was
      put before them. */
  lemma FirstMessageIsRead(kind: u16, prefix: Bytes, name: Text, size: u64, mtime: i64)
    ensures var m := FirstMessage(kind, prefix, name, size, mtime);
      && m.kind == kind && |prefix| <= |m.payload| && m.payload[..|prefix|] == prefix
      && GetFileHeader(m.payload[|prefix|..]) == Got(FileInfo(name, size, mtime, 0), [])
  {
    var info := FileInfo(name, size, mtime, 0);
    var m := FirstMessage(kind, prefix, name, size, mtime);
    assert m.payload[|prefix|..] == PutFileHeader(info) == PutFileHeader(info) + [];
    FileHeaderExact(info, PutFileHeader(info), []);
  }

  /** An upload's first message, whose prefix says where the change came from. */
  lemma UploadIsRead(kind: u16, origin: byte, name: Text, size: u64, mtime: i64)
    ensures GetUpload(FirstMessage(kind, [origin], name, size, mtime).payload) == Got((origin, FileInfo(name, size, mtime, 0)), [])
  {
    var info := FileInfo(name, size, mtime, 0);
    var payload := FirstMessage(kind, [origin], name, size, mtime).payload;
    assert payload == PutUpload(origin, info) + [];
    UploadExact(origin, info, payload, []);
  }
}
