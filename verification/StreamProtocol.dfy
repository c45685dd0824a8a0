/** A stream or message buffer with one writer and one reader.  A step is a single
    load or store, so the reader runs between any two stores of the writer. */
module StreamProtocol {
  import opened Basics
  import opened Arithmetic

  const LENGTH_BYTES: nat := 4   // sbBYTES_TO_STORE_MESSAGE_LENGTH

  datatype Writer =
    | Idle
    | Sampling(data: seq<Byte>)                                  // about to load xTail
    | Again(data: seq<Byte>, tail: nat, at: nat)                 // about to load it again
    | Space(data: seq<Byte>, tail: nat, used: nat, at: nat)      // about to load xHead
    | Confirm(data: seq<Byte>, tail: nat, space: nat, at: nat)   // about to compare xTail
    | Storing(bytes: seq<Byte>, done: nat, keep: bool)           // copying into the buffer

  datatype Reader =
    | Resting
    | Counting(room: nat)                                        // about to load xHead
    | Heading(room: nat, avail: nat, got: seq<Byte>)             // copying a message length
    | Loading(skip: nat, count: nat, got: seq<Byte>)             // copying bytes out

  datatype Buffer = Buffer(
    length: nat,           // xLength
    messages: bool,        // sbFLAGS_IS_MESSAGE_BUFFER
    mem: seq<Byte>,        // pucBuffer
    head: nat,             // xHead
    tail: nat,             // xTail
    writer: Writer,
    reader: Reader,
    sent: seq<Byte>,       // history: all bytes published
    read: nat,             // history: how many of them were consumed
    received: seq<Byte>,           // history: all bytes handed to readers
    accepted: seq<seq<Byte>>,      // history: the messages written ...
    delivered: seq<seq<Byte>>      // ... and read
  )

  // ---------------------------------------------------------------- arithmetic

  /** xStreamBufferSpacesAvailable */
  function Spaces(length: nat, head: nat, tail: nat): nat
    requires head < length && tail < length
  {
    var space := length + tail - head - 1;
    if space >= length then space - length else space
  }

  /** prvBytesInBuffer */
  function Bytes(length: nat, head: nat, tail: nat): nat
    requires head < length && tail < length
  {
    var count := length + head - tail;
    if count >= length then count - length else count
  }

  /** In terms of the bytes ever written and consumed. */
  lemma SpaceIsExact(length: nat, written: nat, consumed: nat)
    requires consumed <= written < consumed + length
    ensures Spaces(length, written % length, consumed % length) == length - 1 - (written - consumed)
    ensures Bytes(length, written % length, consumed % length) == written - consumed
    ensures Spaces(length, written % length, consumed % length) + Bytes(length, written % length, consumed % length) ==
            length - 1
  {
    AddMod(consumed, written - consumed, length);
  }

  /** Advancing an index as prvWriteBytesToBuffer and prvReadBytesFromBuffer do. */
  function Advance(length: nat, index: nat, count: nat): nat
    requires index < length && count < length
  {
    if index + count >= length then index + count - length else index + count
  }

  lemma AdvanceIsMod(length: nat, i: nat, count: nat)
    requires count < length
    ensures Advance(length, i % length, count) == (i + count) % length
  {
    AddMod(i, count, length);
  }

  // --------------------------------------------------------------------- steps

  /** The message length as stored, least significant byte first. */
  function Encode(n: nat): (bs: seq<Byte>)
    requires n < 0x1_0000_0000
    ensures |bs| == LENGTH_BYTES
  {
    var a := n / 256;
    var b := a / 256;
    [n % 256, a % 256, b % 256, b / 256]
  }

  function Decode(bs: seq<Byte>): nat
    requires |bs| == LENGTH_BYTES
  {
    var a: int, b: int, c: int, d: int := bs[0], bs[1], bs[2], bs[3];
    a + 256 * (b + 256 * (c + 256 * d))
  }

  lemma DecodeEncode(n: nat)
    requires n < 0x1_0000_0000
    ensures Decode(Encode(n)) == n
  {
  }

  function Min(a: nat, b: nat): nat { if a < b then a else b }

  /** What prvWriteMessageToBuffer copies, given the space it was told of. */
  function Plan(messages: bool, data: seq<Byte>, space: nat): (w: Writer)
    requires |data| < 0x1_0000_0000
  {
    if !messages then
      var n := Min(|data|, space);
      if n == 0 then Idle else Storing(data[..n], 0, true)
    else if space >= |data| + LENGTH_BYTES then Storing(Encode(|data|) + data, 0, data != [])
    else Idle
  }

  datatype Event =
    | Send(data: seq<Byte>) | Write    // a call, and the next access of the writer
    | WaitForSpace                     // the writer samples again instead of writing
    | Receive(room: nat) | Read        // a call, and the next access of the reader

  predicate Enabled(b: Buffer, e: Event) {
    match e
    case Send(data) => b.writer == Idle && |data| < 0x1_0000_0000
    case Write => b.writer != Idle
    case WaitForSpace => b.writer.Confirm?
    case Receive(_) => b.reader == Resting
    case Read => b.reader != Resting
  }

  predicate Shaped(b: Buffer) {
    && 0 < b.length == |b.mem| && b.head < b.length && b.tail < b.length
    && (b.writer.Space? ==> b.writer.used < b.length)
    && (b.writer.Sampling? || b.writer.Again? || b.writer.Space? || b.writer.Confirm? ==>
        |b.writer.data| < 0x1_0000_0000)
    && (b.writer.Storing? ==> b.writer.done <= |b.writer.bytes| < b.length)
    && (b.writer.Storing? && b.messages && b.writer.keep ==> LENGTH_BYTES < |b.writer.bytes|)
    && (b.reader.Heading? ==> LENGTH_BYTES < b.reader.avail < b.length && |b.reader.got| <= LENGTH_BYTES)
    && (b.reader.Loading? ==> |b.reader.got| <= b.reader.count && b.reader.skip + b.reader.count < b.length)
  }

  function WriteStep(b: Buffer): Buffer
    requires Shaped(b) && b.writer != Idle
  {
    match b.writer
    case Sampling(d) => b.(writer := Again(d, b.tail, b.read))
    case Again(d, t, _) => b.(writer := Space(d, t, b.tail, b.read))
    case Space(d, t, used, at) => b.(writer := Confirm(d, t, Spaces(b.length, b.head, used), at))
    case Confirm(d, t, space, _) => b.(writer := if t == b.tail then Plan(b.messages, d, space) else Sampling(d))
    case Storing(bs, k, keep) =>
      if k < |bs| then b.(mem := b.mem[Advance(b.length, b.head, k) := bs[k]], writer := Storing(bs, k + 1, keep))
      else if !keep then b.(writer := Idle)
      else b.(head := Advance(b.length, b.head, |bs|), sent := b.sent + bs, writer := Idle,
              accepted := if b.messages then b.accepted + [bs[LENGTH_BYTES..]] else b.accepted)
  }

  function ReadStep(b: Buffer): Buffer
    requires Shaped(b) && b.reader != Resting
  {
    match b.reader
    case Counting(room) =>
      var avail := Bytes(b.length, b.head, b.tail);
      if b.messages then b.(reader := if avail > LENGTH_BYTES then Heading(room, avail, []) else Resting)
      else b.(reader := if Min(room, avail) > 0 then Loading(0, Min(room, avail), []) else Resting)
    case Heading(room, avail, got) =>
      if |got| < LENGTH_BYTES then b.(reader := Heading(room, avail, got + [b.mem[Advance(b.length, b.tail, |got|)]]))
      else
        var next := Decode(got);
        var count := Min(if next > room then 0 else next, avail - LENGTH_BYTES);
        b.(reader := if count > 0 then Loading(LENGTH_BYTES, count, []) else Resting)
    case Loading(skip, count, got) =>
      if |got| < count then b.(reader := Loading(skip, count, got + [b.mem[Advance(b.length, b.tail, skip + |got|)]]))
      else b.(tail := Advance(b.length, b.tail, skip + count), read := b.read + skip + count, reader := Resting,
              received := b.received + got, delivered := if b.messages then b.delivered + [got] else b.delivered)
  }

  function Next(b: Buffer, e: Event): Buffer
    requires Shaped(b) && Enabled(b, e)
  {
    match e
    case Send(data) => b.(writer := Sampling(data))
    case Write => WriteStep(b)
    case WaitForSpace => b.(writer := Sampling(b.writer.data))
    case Receive(room) => b.(reader := Counting(room))
    case Read => ReadStep(b)
  }

  // ---------------------------------------------------------------- invariants

  /** Positions, and the bytes published but not yet consumed. */
  ghost predicate Layout(length: nat, mem: seq<Byte>, head: nat, tail: nat, sent: seq<Byte>, read: nat) {
    && 0 < length == |mem| && head == |sent| % length && tail == read % length && read <= |sent| < read + length
    && forall i :: read <= i < |sent| ==> mem[i % length] == sent[i]
  }

  /** What the writer believes is no more than the truth, and what it has stored so
      far lies just behind the published bytes. */
  ghost predicate WriterOk(w: Writer, length: nat, mem: seq<Byte>, sent: nat, read: nat)
    requires 0 < length == |mem|
  {
    match w
    case Idle => true
    case Sampling(d) => |d| < 0x1_0000_0000
    case Again(d, t, at) => |d| < 0x1_0000_0000 && at <= read && sent < at + length && t == at % length
    case Space(d, t, used, at) => |d| < 0x1_0000_0000 && at <= read && sent < at + length && used == at % length
    case Confirm(d, t, space, at) => |d| < 0x1_0000_0000 && at <= read <= sent < at + length
        && space == length - 1 - (sent - at)
    case Storing(bs, done, keep) =>
      && done <= |bs| && sent + |bs| < read + length
      && forall k :: 0 <= k < done ==> mem[(sent + k) % length] == bs[k]
  }

  ghost predicate ReaderOk(r: Reader, sent: seq<Byte>, read: nat)
    requires read <= |sent|
  {
    match r
    case Resting => true
    case Counting(_) => true
    case Heading(_, avail, got) =>
      LENGTH_BYTES < avail <= |sent| - read && |got| <= LENGTH_BYTES && got == sent[read..read + |got|]
    case Loading(skip, count, got) =>
      read + skip + count <= |sent| && |got| <= count && got == sent[read + skip..read + skip + |got|]
  }

  ghost predicate Good(b: Buffer) {
    && Layout(b.length, b.mem, b.head, b.tail, b.sent, b.read)
    && WriterOk(b.writer, b.length, b.mem, |b.sent|, b.read)
    && ReaderOk(b.reader, b.sent, b.read)
    && (b.writer.Storing? && b.messages && b.writer.keep ==> LENGTH_BYTES < |b.writer.bytes|)
  }

  lemma GoodIsShaped(b: Buffer)
    requires Good(b)
    ensures Shaped(b)
  {
  }

  // -------------------------------------------------------------- preservation

  /** A store behind the published bytes disturbs none of them. */
  lemma StoreKeeps(length: nat, mem: seq<Byte>, head: nat, tail: nat, sent: seq<Byte>, read: nat, bs: seq<Byte>, k: nat,
                   keep: bool)
    requires Layout(length, mem, head, tail, sent, read) && k < |bs|
    requires WriterOk(Storing(bs, k, keep), length, mem, |sent|, read)
    ensures Advance(length, head, k) == (|sent| + k) % length
    ensures var mem' := mem[Advance(length, head, k) := bs[k]];
            Layout(length, mem', head, tail, sent, read)
                && WriterOk(Storing(bs, k + 1, keep), length, mem', |sent|, read)
  {
    AdvanceIsMod(length, |sent|, k);
    var p := (|sent| + k) % length;
    var mem' := mem[p := bs[k]];
    forall i | read <= i < |sent| ensures mem'[i % length] == sent[i] {
      DistinctMod(i, |sent| + k, length);
    }
    forall j | 0 <= j < k + 1 ensures mem'[(|sent| + j) % length] == bs[j] {
      if j < k { DistinctMod(|sent| + j, |sent| + k, length); }
    }
  }

  lemma PublishKeeps(length: nat, mem: seq<Byte>, head: nat, tail: nat, sent: seq<Byte>, read: nat, bs: seq<Byte>,
                     keep: bool)
    requires Layout(length, mem, head, tail, sent, read) && WriterOk(Storing(bs, |bs|, keep), length, mem, |sent|, read)
    ensures Layout(length, mem, Advance(length, head, |bs|), tail, sent + bs, read)
  {
    AdvanceIsMod(length, |sent|, |bs|);
    forall i | read <= i < |sent + bs| ensures mem[i % length] == (sent + bs)[i] {
      if i >= |sent| {
        var k := i - |sent|;
        assert mem[(|sent| + k) % length] == bs[k];
      }
    }
  }

  lemma ReaderSeesMore(r: Reader, sent: seq<Byte>, more: seq<Byte>, read: nat)
    requires read <= |sent| && ReaderOk(r, sent, read)
    ensures ReaderOk(r, sent + more, read)
  {
    if r.Heading? { assert (sent + more)[read..read + |r.got|] == sent[read..read + |r.got|]; }
    if r.Loading? {
      assert (sent + more)[read + r.skip..read + r.skip + |r.got|] == sent[read + r.skip..read + r.skip + |r.got|];
    }
  }

  /** A load from the unconsumed bytes returns the byte that was sent. */
  lemma LoadIsSent(length: nat, mem: seq<Byte>, head: nat, tail: nat, sent: seq<Byte>, read: nat, k: nat)
    requires Layout(length, mem, head, tail, sent, read) && read + k < |sent|
    ensures k < length && mem[Advance(length, tail, k)] == sent[read + k]
  {
    AdvanceIsMod(length, read, k);
  }

  lemma ConsumeKeeps(length: nat, mem: seq<Byte>, head: nat, tail: nat, sent: seq<Byte>, read: nat, n: nat, w: Writer)
    requires Layout(length, mem, head, tail, sent, read) && read + n <= |sent| && WriterOk(w, length, mem, |sent|, read)
    ensures n < length && Layout(length, mem, head, Advance(length, tail, n), sent, read + n)
    ensures WriterOk(w, length, mem, |sent|, read + n)
  {
    AdvanceIsMod(length, read, n);
  }

  lemma PlanFits(messages: bool, data: seq<Byte>, space: nat, length: nat, mem: seq<Byte>, sent: nat, read: nat)
    requires 0 < length == |mem| && |data| < 0x1_0000_0000 && sent + space < read + length
    ensures var w := Plan(messages, data, space);
            && WriterOk(w, length, mem, sent, read) && (w.Storing? && messages && w.keep ==> LENGTH_BYTES < |w.bytes|)
  {
  }

  lemma WriteKeeps(b: Buffer)
    requires Good(b) && b.writer != Idle
    ensures Shaped(b) && Good(WriteStep(b))
  {
    GoodIsShaped(b);
    match b.writer
    case Storing(bs, k, keep) =>
      if k < |bs| {
        StoreKeeps(b.length, b.mem, b.head, b.tail, b.sent, b.read, bs, k, keep);
      } else if keep {
        PublishKeeps(b.length, b.mem, b.head, b.tail, b.sent, b.read, bs, keep);
        ReaderSeesMore(b.reader, b.sent, bs, b.read);
      }
      hide Layout, WriterOk, ReaderOk;
    case Confirm(d, t, space, at) =>
      PlanFits(b.messages, d, space, b.length, b.mem, |b.sent|, b.read);
      hide Layout, Plan, ReaderOk;
    case Space(d, t, used, at) =>
      SpaceIsExact(b.length, |b.sent|, at);
      hide Layout, ReaderOk;
    case _ =>
      hide ReaderOk;
  }

  lemma CountKeeps(b: Buffer)
    requires Good(b) && b.reader.Counting?
    ensures Shaped(b) && Good(ReadStep(b))
  {
    hide WriterOk;
    assert Shaped(b) by { GoodIsShaped(b); }
    SpaceIsExact(b.length, |b.sent|, b.read);
  }

  lemma OneMore(s: seq<Byte>, from: nat, n: nat)
    requires from + n < |s|
    ensures s[from..from + n] + [s[from + n]] == s[from..from + n + 1]
  {
  }

  lemma HeadKeeps(b: Buffer)
    requires Good(b) && b.reader.Heading?
    ensures Shaped(b) && Good(ReadStep(b))
  {
    hide WriterOk, Layout, Decode;
    assert Shaped(b) && b.read <= |b.sent| by { GoodIsShaped(b); InOrder(b); }
    var got := b.reader.got;
    if |got| < LENGTH_BYTES {
      LoadIsSent(b.length, b.mem, b.head, b.tail, b.sent, b.read, |got|);
      OneMore(b.sent, b.read, |got|);
    }
  }

  lemma LoadedOne(sent: seq<Byte>, read: nat, skip: nat, count: nat, got: seq<Byte>, x: Byte)
    requires read <= |sent| && ReaderOk(Loading(skip, count, got), sent, read) && |got| < count
    requires x == sent[read + skip + |got|]
    ensures ReaderOk(Loading(skip, count, got + [x]), sent, read)
  {
    OneMore(sent, read + skip, |got|);
  }

  lemma LoadKeeps(b: Buffer)
    requires Good(b) && b.reader.Loading? && |b.reader.got| < b.reader.count
    ensures Shaped(b) && Good(ReadStep(b))
  {
    hide WriterOk, Layout;
    assert Shaped(b) && b.read <= |b.sent| by { GoodIsShaped(b); InOrder(b); }
    var skip, count, got := b.reader.skip, b.reader.count, b.reader.got;
    LoadIsSent(b.length, b.mem, b.head, b.tail, b.sent, b.read, skip + |got|);
    LoadedOne(b.sent, b.read, skip, count, got, b.sent[b.read + skip + |got|]);
    hide ReaderOk, Advance;
  }

  lemma TailKeeps(b: Buffer)
    requires Good(b) && b.reader.Loading? && |b.reader.got| == b.reader.count
    ensures Shaped(b) && Good(ReadStep(b))
  {
    hide WriterOk, Layout;
    assert Shaped(b) && b.read <= |b.sent| by { GoodIsShaped(b); InOrder(b); }
    ConsumeKeeps(b.length, b.mem, b.head, b.tail, b.sent, b.read, b.reader.skip + b.reader.count, b.writer);
    hide Advance;
  }

  lemma InOrder(b: Buffer)
    requires Good(b)
    ensures b.read <= |b.sent|
  {
  }

  lemma NextKeeps(b: Buffer, e: Event)
    requires Good(b) && Enabled(b, e)
    ensures Shaped(b) && Good(Next(b, e))
  {
    hide Layout;
    assert Shaped(b) && b.read <= |b.sent| by { GoodIsShaped(b); InOrder(b); }
    match e
    case Write => WriteKeeps(b);
    case Read =>
      if b.reader.Counting? { CountKeeps(b); } else if b.reader.Heading? { HeadKeeps(b); }
      else if |b.reader.got| < b.reader.count { LoadKeeps(b); } else { TailKeeps(b); }
    case _ =>
  }

  // ----------------------------------------------------------- what is received

  /** A stream hands out what was sent, in order, from the beginning. */
  ghost predicate StreamOk(b: Buffer) {
    !b.messages ==>
      && b.read <= |b.sent| && b.received == b.sent[..b.read]
      && !b.reader.Heading? && (b.reader.Loading? ==> b.reader.skip == 0)
  }

  lemma NextStream(b: Buffer, e: Event)
    requires Good(b) && Enabled(b, e) && StreamOk(b) && !b.messages
    ensures Shaped(b) && StreamOk(Next(b, e))
  {
    hide Layout, WriterOk, ReaderOk;
    GoodIsShaped(b);
    match e
    case Write =>
      if b.writer.Storing? { assert (b.sent + b.writer.bytes)[..b.read] == b.sent[..b.read]; }
    case Read =>
      if b.reader.Loading? && |b.reader.got| == b.reader.count { StreamRead(b); }
      hide Advance;
    case _ =>
  }

  lemma StreamRead(b: Buffer)
    requires Good(b) && StreamOk(b) && !b.messages && b.reader.Loading? && |b.reader.got| == b.reader.count
    ensures b.read + b.reader.count <= |b.sent| && b.received + b.reader.got == b.sent[..b.read + b.reader.count]
  {
    hide Layout, WriterOk;
    assert b.sent[..b.read] + b.sent[b.read..b.read + b.reader.count] == b.sent[..b.read + b.reader.count];
  }

  function Frame(m: seq<Byte>): seq<Byte>
    requires |m| < 0x1_0000_0000
  {
    Encode(|m|) + m
  }

  ghost predicate Sized(ms: seq<seq<Byte>>) { forall i :: 0 <= i < |ms| ==> 0 < |ms[i]| < 0x1_0000_0000 }

  ghost function Frames(ms: seq<seq<Byte>>): seq<Byte>
    requires Sized(ms)
  {
    if ms == [] then [] else Frames(ms[..|ms| - 1]) + Frame(ms[|ms| - 1])
  }

  /** The n-th message lies behind the first n, whatever follows. */
  lemma {:induction false} FrameAt(ms: seq<seq<Byte>>, n: nat)
    requires Sized(ms) && n < |ms|
    ensures Sized(ms[..n])
    ensures var from := |Frames(ms[..n])|;
            from + LENGTH_BYTES + |ms[n]| <= |Frames(ms)|
                && Frames(ms)[from..from + LENGTH_BYTES + |ms[n]|] == Frame(ms[n])
    decreases |ms|
  {
    var rest := ms[..|ms| - 1];
    if n == |ms| - 1 {
    } else {
      assert rest[..n] == ms[..n] && rest[n] == ms[n];
      FrameAt(rest, n);
      var from := |Frames(ms[..n])|;
      assert Frames(ms)[from..from + LENGTH_BYTES + |ms[n]|] == Frames(rest)[from..from + LENGTH_BYTES + |ms[n]|];
    }
  }

  /** Messages are read whole and in the order they were written. */
  ghost predicate MessagesOk(b: Buffer) {
    b.messages ==>
      && Sized(b.accepted) && b.sent == Frames(b.accepted)
      && |b.delivered| <= |b.accepted| && b.delivered == b.accepted[..|b.delivered|] && Sized(b.delivered)
      && b.read == |Frames(b.delivered)|
      && (b.writer.Storing? && b.writer.keep ==>
            && LENGTH_BYTES < |b.writer.bytes| < 0x1_0000_0000 + LENGTH_BYTES
            && b.writer.bytes == Frame(b.writer.bytes[LENGTH_BYTES..]))
      && (b.reader.Heading? ==>
            && |b.delivered| < |b.accepted|
            && b.reader.avail >= LENGTH_BYTES + |b.accepted[|b.delivered|]|)
      && (b.reader.Loading? ==>
            && |b.delivered| < |b.accepted| && b.reader.skip == LENGTH_BYTES
            && b.reader.count == |b.accepted[|b.delivered|]|)
  }

  lemma WriteMessages(b: Buffer)
    requires Good(b) && b.messages && MessagesOk(b) && b.writer != Idle
    ensures Shaped(b) && MessagesOk(WriteStep(b))
  {
    GoodIsShaped(b);
    hide Layout, WriterOk, ReaderOk;
    match b.writer
    case Storing(bs, k, keep) =>
      if k >= |bs| && keep {
        var all := b.accepted + [bs[LENGTH_BYTES..]];
        assert all[..|all| - 1] == b.accepted && all[..|b.delivered|] == b.accepted[..|b.delivered|];
      }
    case Confirm(d, t, space, at) =>
      assert (Encode(|d|) + d)[LENGTH_BYTES..] == d;
    case _ =>
  }

  /** Having read the length, the reader takes the whole message or, if its buffer is
      too small, nothing. */
  lemma HeadingDone(b: Buffer)
    requires Good(b) && b.messages && MessagesOk(b) && b.reader.Heading? && |b.reader.got| == LENGTH_BYTES
    ensures Shaped(b) && |b.delivered| < |b.accepted|
    ensures var n := |b.accepted[|b.delivered|]|;
            ReadStep(b) == b.(reader := if n <= b.reader.room then Loading(LENGTH_BYTES, n, []) else Resting)
  {
    GoodIsShaped(b);
    hide Layout, WriterOk;
    var d, m := |b.delivered|, b.accepted[|b.delivered|];
    FrameAt(b.accepted, d);
    assert b.reader.got == Frame(m)[..LENGTH_BYTES] == Encode(|m|);
    DecodeEncode(|m|);
  }

  /** Everything not yet read starts with the whole of the oldest message. */
  lemma CountMessages(b: Buffer)
    requires Good(b) && b.messages && MessagesOk(b) && b.reader.Counting?
    ensures Shaped(b) && MessagesOk(ReadStep(b))
  {
    hide WriterOk, ReaderOk, Frame, Frames;
    assert Shaped(b) by { GoodIsShaped(b); }
    var d := |b.delivered|;
    SpaceIsExact(b.length, |b.sent|, b.read);
    if d < |b.accepted| { FrameAt(b.accepted, d); } else { assert b.accepted[..d] == b.accepted; }
  }

  lemma ReadMessages(b: Buffer)
    requires Good(b) && b.messages && MessagesOk(b) && b.reader != Resting
    ensures Shaped(b) && MessagesOk(ReadStep(b))
  {
    hide Layout, WriterOk, ReaderOk, Frame, Frames, Decode;
    GoodIsShaped(b);
    match b.reader
    case Counting(room) => CountMessages(b);
    case Heading(room, avail, got) => if |got| == LENGTH_BYTES { HeadingDone(b); }
    case Loading(skip, count, got) => if |got| == count { MessageDone(b); }
  }

  lemma MessageDone(b: Buffer)
    requires Good(b) && b.messages && MessagesOk(b) && b.reader.Loading? && |b.reader.got| == b.reader.count
    ensures b.reader.got == b.accepted[|b.delivered|]
    ensures var ds := b.delivered + [b.reader.got];
            ds == b.accepted[..|ds|] && Sized(ds) && |Frames(ds)| == b.read + LENGTH_BYTES + b.reader.count
  {
    hide Layout, WriterOk;
    var d, m, r := |b.delivered|, b.accepted[|b.delivered|], b.read;
    FrameAt(b.accepted, d);
    assert b.sent[r..r + LENGTH_BYTES + |m|][LENGTH_BYTES..] == b.sent[r + LENGTH_BYTES..r + LENGTH_BYTES + |m|];
    var ds := b.delivered + [b.reader.got];
    assert ds[..|ds| - 1] == b.delivered;
  }

  lemma NextMessages(b: Buffer, e: Event)
    requires Good(b) && Enabled(b, e) && MessagesOk(b) && b.messages
    ensures Shaped(b) && MessagesOk(Next(b, e))
  {
    hide Layout, WriterOk, ReaderOk;
    GoodIsShaped(b);
    match e
    case Write => WriteMessages(b);
    case Read => ReadMessages(b);
    case _ =>
  }

  // --------------------------------------------------------------------- runs

  ghost predicate AllOk(b: Buffer) { Good(b) && StreamOk(b) && MessagesOk(b) }

  lemma NextAll(b: Buffer, e: Event)
    requires AllOk(b) && Enabled(b, e)
    ensures Shaped(b) && AllOk(Next(b, e))
  {
    hide Good;
    NextKeeps(b, e);
    if b.messages { NextMessages(b, e); } else { NextStream(b, e); }
    ModeStays(b, e);
    hide Next;
  }

  lemma ModeStays(b: Buffer, e: Event)
    requires Shaped(b) && Enabled(b, e)
    ensures Next(b, e).messages == b.messages
  {
  }

  ghost predicate Runs(b: Buffer, es: seq<Event>)
    requires AllOk(b)
    decreases |es|
  {
    es == [] || (Enabled(b, es[0]) && (NextAll(b, es[0]); Runs(Next(b, es[0]), es[1..])))
  }

  ghost function Run(b: Buffer, es: seq<Event>): (b': Buffer)
    requires AllOk(b) && Runs(b, es)
    ensures AllOk(b')
    decreases |es|
  {
    if es == [] then b else NextAll(b, es[0]); Run(Next(b, es[0]), es[1..])
  }

  predicate Fresh(b: Buffer) {
    && 0 < b.length == |b.mem| && b.head == 0 && b.tail == 0 && b.writer == Idle && b.reader == Resting
    && b.sent == [] && b.read == 0 && b.received == [] && b.accepted == [] && b.delivered == []
  }

  lemma FreshIsOk(b: Buffer)
    requires Fresh(b)
    ensures AllOk(b)
  {
  }

  /** A run from the start. */
  ghost predicate FromFresh(b: Buffer, es: seq<Event>) { Fresh(b) && (FreshIsOk(b); Runs(b, es)) }

  ghost predicate ReadInOrder(b: Buffer) { if b.messages then b.delivered <= b.accepted else b.received <= b.sent }

  lemma StaysInOrder(b: Buffer, es: seq<Event>)
    requires AllOk(b) && Runs(b, es)
    ensures ReadInOrder(Run(b, es))
  {
    hide Good, Run;
  }

  /** In every interleaving what readers got is a prefix of what was accepted, byte
      by byte for a stream and message by message for a message buffer. */
  lemma FirstInFirstOut(b: Buffer, es: seq<Event>)
    requires FromFresh(b, es)
    ensures AllOk(b) && Runs(b, es) && ReadInOrder(Run(b, es))
  {
    hide AllOk, ReadInOrder, Runs;
    FreshIsOk(b);
    StaysInOrder(b, es);
  }

  /** What either side computes from its own view never exceeds the truth: the bytes
      the writer is about to copy fit behind those not yet consumed, and the bytes the
      reader is about to copy have been published. */
  lemma NeverTooMuch(b: Buffer, es: seq<Event>)
    requires AllOk(b) && Runs(b, es)
    ensures var b' := Run(b, es);
            && (b'.writer.Confirm? ==> b'.writer.space <= b'.length - 1 - (|b'.sent| - b'.read))
            && (b'.writer.Storing? ==> |b'.writer.bytes| <= b'.length - 1 - (|b'.sent| - b'.read))
            && (b'.reader.Heading? ==> b'.reader.avail <= |b'.sent| - b'.read)
            && (b'.reader.Loading? ==> b'.reader.skip + b'.reader.count <= |b'.sent| - b'.read)
            && Spaces(b'.length, b'.head, b'.tail) + Bytes(b'.length, b'.head, b'.tail) == b'.length - 1
  {
    hide Run;
    var b' := Run(b, es);
    SpaceIsExact(b'.length, |b'.sent|, b'.read);
  }

  /** Without room for the whole message, length included, nothing is written. */
  lemma NoRoomNothingWritten(b: Buffer)
    requires Good(b) && b.messages && b.writer.Confirm? && b.writer.tail == b.tail
    ensures Shaped(b) && (WriteStep(b) == b.(writer := Idle) <==> b.writer.space < |b.writer.data| + LENGTH_BYTES)
  {
    GoodIsShaped(b);
  }
}
