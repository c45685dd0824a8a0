/** A stream or message buffer as one task sees it: the copies of stream_buffer.c on
    the byte array, proved against the sequence of unread bytes. */
module StreamObject {
  import opened Basics
  import opened StreamProtocol

  class StreamBuffer {
    const length: nat
    const messages: bool
    const buffer: array<Byte>
    var head: nat
    var tail: nat

    ghost predicate Valid()
      reads this
    {
      0 < length == buffer.Length && head < length && tail < length
    }

    /** The bytes written and not yet read. */
    ghost function Unread(): (s: seq<Byte>)
      reads this, buffer
      requires Valid()
      ensures |s| == Bytes(length, head, tail)
    {
      From(buffer[..], tail, Bytes(length, head, tail))
    }

    constructor (length: nat, messages: bool)
      requires length > 0
      ensures Valid() && Unread() == [] && this.length == length && this.messages == messages && fresh(buffer)
    {
      this.length, this.messages, head, tail := length, messages, 0, 0;
      buffer := new Byte[length](_ => 0);
    }

    /** prvWriteBytesToBuffer: one copy up to the end, the rest at the start. */
    method WriteBytes(data: seq<Byte>, at: nat) returns (next: nat)
      requires Valid() && at < length && 0 < |data| < length
      modifies buffer
      ensures next == Advance(length, at, |data|) < length
      ensures From(buffer[..], at, |data|) == data
      ensures forall i :: 0 <= i < length && !Between(length, at, |data|, i) ==> buffer[i] == old(buffer[i])
    {
      var first := Min(length - at, |data|);
      forall i | 0 <= i < first {
        buffer[at + i] := data[i];
      }
      if |data| > first {
        forall i | 0 <= i < |data| - first {
          buffer[i] := data[first + i];
        }
      }
      next := at + |data|;
      if next >= length {
        next := next - length;
      }
    }

    /** prvReadBytesFromBuffer */
    method ReadBytes(count: nat, at: nat) returns (data: seq<Byte>, next: nat)
      requires Valid() && at < length && 0 < count < length
      ensures data == From(buffer[..], at, count) && next == Advance(length, at, count) < length
    {
      var first := Min(length - at, count);
      data := buffer[at..at + first];
      if count > first {
        data := data + buffer[..count - first];
      }
      next := at + count;
      if next >= length {
        next := next - length;
      }
    }

    /** prvWriteMessageToBuffer with the space there is: a stream takes what fits, a
        message buffer all or nothing.  Messages of length zero vanish. */
    method Write(data: seq<Byte>) returns (n: nat)
      requires Valid() && |data| < 0x1_0000_0000
      modifies this`head, buffer
      ensures Valid()
      ensures var free := length - 1 - |old(Unread())|;
              if !messages then n == Min(|data|, free) && Unread() == old(Unread()) + data[..n]
              else if data != [] && |data| + LENGTH_BYTES <= free then n == |data|
                  && Unread() == old(Unread()) + Frame(data)
              else n == 0 && Unread() == old(Unread())
    {
      hide From, Advance, Bytes, Spaces, Encode, Between;
      var space := Spaces(length, head, tail);
      ghost var was, used := buffer[..], Bytes(length, head, tail);
      Counted(length, head, tail);
      var next := head;
      n := |data|;
      if messages {
        if space >= |data| + LENGTH_BYTES {
          next := WriteBytes(Encode(|data|), head);
          Unpublished(was, buffer[..], tail, used, head, LENGTH_BYTES);
        } else {
          n := 0;
        }
      } else {
        n := Min(|data|, space);
      }
      if n != 0 {
        ghost var mid := buffer[..];
        var after := WriteBytes(data[..n], next);
        if messages {
          MessageWritten(was, mid, buffer[..], tail, used, head, data);
        } else {
          Unpublished(was, buffer[..], tail, used, head, n);
          Published(was, buffer[..], tail, used, head, data[..n]);
        }
        head := after;
      }
    }

    /** prvReadMessageFromBuffer with the bytes there are. */
    method Read(room: nat) returns (data: seq<Byte>)
      requires Valid()
      modifies this`tail
      ensures Valid()
      ensures !messages ==> data == old(Unread())[..Min(room, |old(Unread())|)] && Unread() == old(Unread())[|data|..]
      ensures messages && |old(Unread())| > LENGTH_BYTES ==>
                var want := Decode(old(Unread())[..LENGTH_BYTES]);
                var n := Min(if want > room then 0 else want, |old(Unread())| - LENGTH_BYTES);
                if n == 0 then data == [] && Unread() == old(Unread())
                else (&& data == old(Unread())[LENGTH_BYTES..LENGTH_BYTES + n]
                      && Unread() == old(Unread())[LENGTH_BYTES + n..])
      ensures messages && |old(Unread())| <= LENGTH_BYTES ==> data == [] && Unread() == old(Unread())
    {
      hide From, Advance, Bytes, Decode;
      var avail := Bytes(length, head, tail);
      Counted(length, head, tail);
      data := [];
      var next, want := tail, room;
      if messages {
        if avail <= LENGTH_BYTES {
          return;
        }
        var prefix;
        prefix, next := ReadBytes(LENGTH_BYTES, tail);
        Prefix(buffer[..], tail, avail, LENGTH_BYTES);
        want := Decode(prefix);
        avail := avail - LENGTH_BYTES;
        if want > room {
          want := 0;
        }
      }
      var count := Min(want, avail);
      if count != 0 {
        Consumed(buffer[..], head, tail, if messages then LENGTH_BYTES else 0, count);
        data, tail := ReadBytes(count, next);
      }
    }
  }

  /** `count` bytes from index `at` on, around the end. */
  ghost function From(bytes: seq<Byte>, at: nat, count: nat): (s: seq<Byte>)
    requires at < |bytes| && count < |bytes|
    ensures |s| == count
  {
    seq(count, i requires 0 <= i < count => bytes[Advance(|bytes|, at, i)])
  }

  /** Index i is among the `count` from `at` on. */
  predicate Between(length: nat, at: nat, count: nat, i: nat)
    requires at < length && count < length
  {
    at <= i < at + count || i + length < at + count
  }

  lemma AdvanceTwice(length: nat, at: nat, a: nat, b: nat)
    requires at < length && a + b < length
    ensures Advance(length, Advance(length, at, a), b) == Advance(length, at, a + b)
  {
  }

  lemma Joined(bytes: seq<Byte>, at: nat, a: nat, b: nat)
    requires at < |bytes| && a + b < |bytes|
    ensures From(bytes, at, a + b) == From(bytes, at, a) + From(bytes, Advance(|bytes|, at, a), b)
  {
    forall i | 0 <= i < b ensures From(bytes, at, a + b)[a + i] == From(bytes, Advance(|bytes|, at, a), b)[i] {
      AdvanceTwice(|bytes|, at, a, i);
    }
  }

  /** Writing m bytes from offset k on leaves n bytes before them alone. */
  lemma Undisturbed(was: seq<Byte>, bytes: seq<Byte>, at: nat, n: nat, k: nat, m: nat)
    requires |was| == |bytes| && at < |bytes| && n <= k && k + m < |bytes|
    requires forall i :: 0 <= i < |bytes| && !Between(|bytes|, Advance(|bytes|, at, k), m, i) ==> bytes[i] == was[i]
    ensures From(bytes, at, n) == From(was, at, n)
  {
    forall i | 0 <= i < n ensures From(bytes, at, n)[i] == From(was, at, n)[i] {
      assert !Between(|bytes|, Advance(|bytes|, at, k), m, Advance(|bytes|, at, i));
    }
  }

  /** Where the indices are, in terms of what is unread. */
  lemma Counted(length: nat, head: nat, tail: nat)
    requires head < length && tail < length
    ensures Spaces(length, head, tail) + Bytes(length, head, tail) == length - 1
    ensures head == Advance(length, tail, Bytes(length, head, tail)) && Advance(length, tail, 0) == tail
  {
  }

  /** Bytes stored behind the unread ones leave those alone. */
  lemma Unpublished(was: seq<Byte>, bytes: seq<Byte>, tail: nat, used: nat, head: nat, m: nat)
    requires |was| == |bytes| && tail < |bytes| && head < |bytes| && used + m < |bytes|
    requires head == Advance(|bytes|, tail, used)
    requires forall i :: 0 <= i < |bytes| && !Between(|bytes|, head, m, i) ==> bytes[i] == was[i]
    ensures From(bytes, tail, used) == From(was, tail, used)
  {
    Undisturbed(was, bytes, tail, used, used, m);
  }

  lemma Published(was: seq<Byte>, bytes: seq<Byte>, tail: nat, used: nat, head: nat, chunk: seq<Byte>)
    requires |was| == |bytes| && tail < |bytes| && head < |bytes| && used + |chunk| < |bytes|
    requires head == Advance(|bytes|, tail, used)
    requires From(bytes, tail, used) == From(was, tail, used) && From(bytes, head, |chunk|) == chunk
    ensures var head' := Advance(|bytes|, head, |chunk|);
            Bytes(|bytes|, head', tail) == used + |chunk|
                && From(bytes, tail, used + |chunk|) == From(was, tail, used) + chunk
  {
    Joined(bytes, tail, used, |chunk|);
  }

  lemma MessageWritten(was: seq<Byte>, mid: seq<Byte>, bytes: seq<Byte>, tail: nat, used: nat, head: nat,
                       data: seq<Byte>)
    requires |was| == |mid| == |bytes| && tail < |bytes| && head < |bytes| && |data| < 0x1_0000_0000
    requires used + LENGTH_BYTES + |data| < |bytes| && head == Advance(|bytes|, tail, used)
    requires From(mid, tail, used) == From(was, tail, used) && From(mid, head, LENGTH_BYTES) == Encode(|data|)
    requires var next := Advance(|bytes|, head, LENGTH_BYTES);
             && From(bytes, next, |data|) == data
             && forall i :: 0 <= i < |bytes| && !Between(|bytes|, next, |data|, i) ==> bytes[i] == mid[i]
    ensures var head' := Advance(|bytes|, Advance(|bytes|, head, LENGTH_BYTES), |data|);
            var n := used + LENGTH_BYTES + |data|;
            Bytes(|bytes|, head', tail) == n && From(bytes, tail, n) == From(was, tail, used) + Frame(data)
  {
    hide From, Encode, Between;
    var next := Advance(|bytes|, head, LENGTH_BYTES);
    AdvanceTwice(|bytes|, tail, used, LENGTH_BYTES);
    AdvanceTwice(|bytes|, head, LENGTH_BYTES, |data|);
    Undisturbed(mid, bytes, tail, used, used + LENGTH_BYTES, |data|);
    Undisturbed(mid, bytes, head, LENGTH_BYTES, LENGTH_BYTES, |data|);
    Joined(bytes, head, LENGTH_BYTES, |data|);
    Published(was, bytes, tail, used, head, Frame(data));
  }

  lemma Prefix(bytes: seq<Byte>, at: nat, n: nat, k: nat)
    requires at < |bytes| && n < |bytes| && k <= n
    ensures From(bytes, at, n)[..k] == From(bytes, at, k)
  {
  }

  /** Moving the tail on drops what was read from the front. */
  lemma Consumed(bytes: seq<Byte>, head: nat, tail: nat, skip: nat, count: nat)
    requires head < |bytes| && tail < |bytes| && skip + count <= Bytes(|bytes|, head, tail)
    ensures var n, next := Bytes(|bytes|, head, tail), Advance(|bytes|, tail, skip);
            var tail' := Advance(|bytes|, next, count);
            && Bytes(|bytes|, head, tail') == n - skip - count
            && From(bytes, next, count) == From(bytes, tail, n)[skip..skip + count]
            && From(bytes, tail', n - skip - count) == From(bytes, tail, n)[skip + count..]
  {
    hide From;
    var n := Bytes(|bytes|, head, tail);
    Joined(bytes, tail, skip, n - skip);
    Joined(bytes, Advance(|bytes|, tail, skip), count, n - skip - count);
  }
}
