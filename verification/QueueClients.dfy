/** What comes out of a queue: in order when sent to the back, in reverse when sent to
    the front. */
module QueueClients {
  import opened Basics
  import opened QueueSides
  import opened QueueStorage
  import opened QueueObject

  function Backwards(xs: seq<Item>): seq<Item> {
    if xs == [] then [] else [xs[|xs| - 1]] + Backwards(xs[..|xs| - 1])
  }

  lemma BackwardsMore(xs: seq<Item>, i: nat)
    requires i < |xs|
    ensures Backwards(xs[..i + 1]) == [xs[i]] + Backwards(xs[..i])
  {
    assert xs[..i + 1][..i] == xs[..i];
  }

  lemma {:induction false} BackwardsAt(xs: seq<Item>, i: nat)
    requires i < |xs|
    ensures |Backwards(xs)| == |xs| && Backwards(xs)[i] == xs[|xs| - 1 - i]
    decreases |xs|
  {
    if |xs| > 1 { BackwardsAt(xs[..|xs| - 1], if i > 0 then i - 1 else 0); }
  }

  /** Nobody is between locking and unlocking the queue. */
  ghost predicate Free(q: Queue)
    reads q, q.storage
  {
    q.Valid() && q.txLock == q.rxLock == UNLOCKED
  }

  lemma PutUnlocked(q: P.Queue)
    requires q.rx.lock == UNLOCKED
    ensures P.Next(q, P.PutISR).rx.lock == UNLOCKED
  {
  }

  lemma GetUnlocked(q: P.Queue)
    requires q.tx.lock == UNLOCKED
    ensures P.Next(q, P.GetISR).tx.lock == UNLOCKED
  {
  }

  method SendOne(q: Queue, x: Item, front: bool, tasks: nat)
    requires Free(q) && tasks == |q.known| <= INT8_MAX && |x| == q.itemSize && |q.Items()| < q.length
    modifies q, q.storage
    ensures Free(q) && q.known == old(q.known)
    ensures q.Items() == if front then [x] + old(q.Items()) else old(q.Items()) + [x]
  {
    hide Queue.Items, Contents, Slots, P.Next;
    q.Fits();
    PutUnlocked(q.View());
    var ok := q.SendFromISR(x, if front then Front else Back, tasks);
  }

  method SendAll(q: Queue, xs: seq<Item>, front: bool, tasks: nat)
    requires Free(q) && q.Items() == [] && tasks == |q.known| <= INT8_MAX
    requires |xs| <= q.length && forall x :: x in xs ==> |x| == q.itemSize
    modifies q, q.storage
    ensures Free(q) && q.known == old(q.known) && q.Items() == if front then Backwards(xs) else xs
  {
    hide Queue.Items, Contents, Slots, Backwards;
    assert Backwards([]) == [] by { NoneBackwards(); }
    for i := 0 to |xs|
      invariant Free(q) && q.known == old(q.known) && |q.Items()| == i
      invariant q.Items() == if front then Backwards(xs[..i]) else xs[..i]
    {
      BackwardsMore(xs, i);
      SendOne(q, xs[i], front, tasks);
      assert xs[..i + 1] == xs[..i] + [xs[i]];
    }
    assert xs[..|xs|] == xs;
  }

  lemma NoneBackwards()
    ensures Backwards([]) == []
  {
  }

  method ReceiveOne(q: Queue, tasks: nat) returns (x: Option<Item>)
    requires Free(q) && tasks == |q.known| <= INT8_MAX
    modifies q
    ensures Free(q) && q.known == old(q.known)
    ensures if old(q.Items()) == [] then x == None && q.Items() == []
            else x == Some(old(q.Items())[0]) && q.Items() == old(q.Items())[1..]
  {
    hide Queue.Items, Contents, Slots, P.Next;
    GetUnlocked(q.View());
    x := q.ReceiveFromISR(tasks);
    if x.Some? { HeadAndTail(x.value, q.Items()); }
  }

  lemma HeadAndTail(x: Item, rest: seq<Item>)
    ensures ([x] + rest)[0] == x && ([x] + rest)[1..] == rest
  {
  }

  lemma OneMoved(all: seq<Item>, i: nat)
    requires i < |all|
    ensures all[..i] + [all[i]] == all[..i + 1] && all[i..][1..] == all[i + 1..] && all[i..][0] == all[i]
  {
  }

  method ReceiveAll(q: Queue, tasks: nat) returns (out: seq<Item>)
    requires Free(q) && tasks == |q.known| <= INT8_MAX
    modifies q
    ensures Free(q) && q.Items() == [] && out == old(q.Items())
  {
    hide Queue.Items, Contents, Slots;
    ghost var all := q.Items();
    out := [];
    var more := true;
    while more
      invariant Free(q) && q.known == old(q.known) && |out| <= |all| && out == all[..|out|] && q.Items() == all[|out|..]
      invariant !more ==> |out| == |all|
      decreases more, |all| - |out|
    {
      var x := ReceiveOne(q, tasks);
      if x.Some? {
        OneMoved(all, |out|);
        out := out + [x.value];
      } else {
        more := false;
      }
    }
  }

  /** Items sent to the back come out in the order in which they went in, and items
      sent to the front the other way round. */
  method PassOn(q: Queue, xs: seq<Item>, front: bool, tasks: nat) returns (out: seq<Item>)
    requires Free(q) && q.Items() == [] && tasks == |q.known| <= INT8_MAX
    requires |xs| <= q.length && forall x :: x in xs ==> |x| == q.itemSize
    modifies q, q.storage
    ensures Free(q) && q.Items() == [] && |out| == |xs|
    ensures forall i :: 0 <= i < |xs| ==> out[i] == xs[if front then |xs| - 1 - i else i]
  {
    hide Queue.Items, Contents, Slots, Backwards;
    SendAll(q, xs, front, tasks);
    out := ReceiveAll(q, tasks);
    if xs == [] { NoneBackwards(); }
    forall i | 0 <= i < |xs| ensures |Backwards(xs)| == |xs| && Backwards(xs)[i] == xs[|xs| - 1 - i] {
      BackwardsAt(xs, i);
    }
    assert xs != [] ==> |Backwards(xs)| == |xs| by { if xs != [] { BackwardsAt(xs, 0); } }
  }
}
