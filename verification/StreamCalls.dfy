/** What a buffer accepts is what its writers' calls offered, in every interleaving. */
module StreamCalls {
  import opened Basics
  import opened StreamProtocol

  type Data = seq<Byte>

  function Last<T>(s: seq<T>): T
    requires s != []
  {
    s[|s| - 1]
  }

  function ButLast<T>(s: seq<T>): seq<T>
    requires s != []
  {
    s[..|s| - 1]
  }

  /** The data of the calls, in order. */
  function Offers(es: seq<Event>): seq<Data> {
    if es == [] then []
    else (if es[0].Send? then [es[0].data] else []) + Offers(es[1..])
  }

  /** The bytes are a beginning of each of the offers, one after the other. */
  ghost predicate Beginnings(bytes: seq<Byte>, offers: seq<Data>)
    decreases |offers|
  {
    if offers == [] then bytes == []
    else exists n: nat :: EndsWith(bytes, Last(offers), n) && Beginnings(bytes[..|bytes| - n], ButLast(offers))
  }

  predicate EndsWith(bytes: seq<Byte>, offer: Data, n: nat) {
    n <= |bytes| && n <= |offer| && bytes[|bytes| - n..] == offer[..n]
  }

  /** The messages are some of the offers, in their order. */
  ghost predicate SomeOf(messages: seq<Data>, offers: seq<Data>)
    decreases |offers|
  {
    if offers == [] then messages == []
    else || SomeOf(messages, ButLast(offers))
         || (messages != [] && Last(messages) == Last(offers) && SomeOf(ButLast(messages), ButLast(offers)))
  }

  ghost predicate Accepted(b: Buffer, offers: seq<Data>) {
    if b.messages then SomeOf(b.accepted, offers) else Beginnings(b.sent, offers)
  }

  /** The writer is at work on this offer: a beginning of it, or all of it with its length. */
  predicate WorksOn(messages: bool, w: Writer, d: Data) {
    match w
    case Idle => true
    case Sampling(x) => x == d
    case Again(x, _, _) => x == d
    case Space(x, _, _, _) => x == d
    case Confirm(x, _, _, _) => x == d
    case Storing(bs, _, keep) =>
      if messages then |d| < 0x1_0000_0000 && bs == Frame(d) && keep == (d != []) else bs <= d
  }

  ghost predicate Accounted(b: Buffer, offers: seq<Data>) {
    if b.writer == Idle then Accepted(b, offers)
    else offers != [] && Accepted(b, ButLast(offers)) && WorksOn(b.messages, b.writer, Last(offers))
  }

  lemma NothingTaken(b: Buffer, offers: seq<Data>)
    requires offers != [] && Accepted(b, ButLast(offers))
    ensures Accepted(b, offers)
  {
    hide SomeOf, Beginnings;
    if b.messages {
      SkipOne(b.accepted, offers);
    } else {
      TakeBeginning(b.sent, [], offers);
      assert b.sent + [] == b.sent;
    }
  }

  lemma SkipOne(messages: seq<Data>, offers: seq<Data>)
    requires offers != [] && SomeOf(messages, ButLast(offers))
    ensures SomeOf(messages, offers)
  {
  }

  lemma TakeOne(messages: seq<Data>, offers: seq<Data>)
    requires offers != [] && SomeOf(messages, ButLast(offers))
    ensures SomeOf(messages + [Last(offers)], offers)
  {
    assert ButLast(messages + [Last(offers)]) == messages;
  }

  lemma TakeBeginning(bytes: seq<Byte>, bs: seq<Byte>, offers: seq<Data>)
    requires offers != [] && Beginnings(bytes, ButLast(offers)) && bs <= Last(offers)
    ensures Beginnings(bytes + bs, offers)
  {
    assert (bytes + bs)[..|bytes + bs| - |bs|] == bytes;
    assert EndsWith(bytes + bs, Last(offers), |bs|);
  }

  lemma StoreCounts(b: Buffer, offers: seq<Data>)
    requires Shaped(b) && b.writer.Storing? && Accounted(b, offers)
    ensures Accounted(WriteStep(b), offers)
  {
    hide SomeOf, Beginnings;
    var bs := b.writer.bytes;
    NothingTaken(b, offers);
    if b.writer.done == |bs| && b.writer.keep {
      if b.messages {
        TakeOne(b.accepted, offers);
        assert bs[LENGTH_BYTES..] == Last(offers);
      } else {
        TakeBeginning(b.sent, bs, offers);
      }
    }
  }

  lemma WriteCounts(b: Buffer, offers: seq<Data>)
    requires Shaped(b) && b.writer != Idle && Accounted(b, offers)
    ensures Accounted(WriteStep(b), offers)
  {
    hide SomeOf, Beginnings, Encode;
    if b.writer.Storing? { StoreCounts(b, offers); } else { NothingTaken(b, offers); }
  }

  function Offered(offers: seq<Data>, e: Event): seq<Data> { if e.Send? then offers + [e.data] else offers }

  lemma OffersMore(offers: seq<Data>, es: seq<Event>)
    ensures es == [] ==> offers + Offers(es) == offers
    ensures es != [] ==> offers + Offers(es) == Offered(offers, es[0]) + Offers(es[1..])
  {
  }

  lemma NextCounts(b: Buffer, e: Event, offers: seq<Data>)
    requires Shaped(b) && Enabled(b, e) && Accounted(b, offers)
    ensures Accounted(Next(b, e), Offered(offers, e))
  {
    hide SomeOf, Beginnings, WriteStep;
    if e.Write? {
      WriteCounts(b, offers);
    } else if e.Send? {
      assert ButLast(offers + [e.data]) == offers;
    }
  }

  lemma {:induction false} RunCounts(b: Buffer, es: seq<Event>, offers: seq<Data>)
    requires AllOk(b) && Runs(b, es) && Accounted(b, offers)
    ensures Accounted(Run(b, es), offers + Offers(es))
    decreases |es|
  {
    hide Good, StreamOk, MessagesOk, Accounted, Next, Enabled, Offers, Offered;
    OffersMore(offers, es);
    if es != [] {
      NextAll(b, es[0]);
      NextCounts(b, es[0], offers);
      RunCounts(Next(b, es[0]), es[1..], Offered(offers, es[0]));
    }
  }

  /** From a new buffer: the bytes of a stream are beginnings of what was offered, call
      after call, and the messages of a message buffer are some of those offered, whole
      and in order. */
  lemma AcceptedWasOffered(b: Buffer, es: seq<Event>)
    requires FromFresh(b, es)
    ensures AllOk(b) && Runs(b, es) && Accepted(Run(b, es), Offers(es))
  {
    hide AllOk, Runs, Run, Accepted;
    FreshIsOk(b);
    FreshCounts(b);
    RunCounts(b, es, []);
    assert [] + Offers(es) == Offers(es);
    if Run(b, es).writer != Idle { NothingTaken(Run(b, es), Offers(es)); }
  }

  lemma FreshCounts(b: Buffer)
    requires Fresh(b)
    ensures Accounted(b, [])
  {
  }

  /** A stream takes as much of the offer as fits. */
  lemma TakesWhatFits(b: Buffer)
    requires Good(b) && !b.messages && b.writer.Confirm? && b.writer.tail == b.tail
    ensures Shaped(b)
    ensures var d, room, w := b.writer.data, b.writer.space, WriteStep(b).writer;
            if d == [] || room == 0 then w == Idle
            else w.Storing? && w.done == 0 && w.keep && w.bytes <= d && |w.bytes| <= room
                 && (|w.bytes| == room || w.bytes == d)
  {
    GoodIsShaped(b);
  }

  /** A read takes as much of what is there as it has room for, and of messages the
      length of the oldest, if there is one. */
  lemma ReadsWhatIsThere(b: Buffer)
    requires AllOk(b) && b.reader.Counting?
    ensures Shaped(b) && b.read <= |b.sent|
    ensures var room, avail, r := b.reader.room, |b.sent| - b.read, ReadStep(b).reader;
            if b.messages then if b.delivered == b.accepted then r == Resting else r == Heading(room, avail, [])
            else if room == 0 || avail == 0 then r == Resting
            else r.Loading? && r.skip == 0 && r.got == [] && r.count <= room && r.count <= avail
                 && (r.count == room || r.count == avail)
  {
    hide WriterOk, ReaderOk, Frame, Frames;
    assert Shaped(b) by { GoodIsShaped(b); }
    SpaceIsExact(b.length, |b.sent|, b.read);
    if b.messages {
      var d := |b.delivered|;
      if d < |b.accepted| { FrameAt(b.accepted, d); } else { assert b.accepted[..d] == b.accepted; }
    }
  }
}
