/** The byte ring inside a queue, and the bounded deque of items it stands for. */
module QueueStorage {
  import opened Basics
  import opened Arithmetic

  type Item = seq<Byte>

  // ------------------------------------------------------------ slots of a ring

  /** k reduced into 0..length-1, for k below three lengths. */
  function Slot(length: nat, k: nat): nat
    requires length > 0
  {
    if k < length then k else if k < 2 * length then k - length else k - 2 * length
  }

  lemma SlotIsMod(length: nat, k: nat)
    requires 0 < length && k < 3 * length
    ensures Slot(length, k) == k % length
  {
    Remainder(k, length, if k < length then 0 else if k < 2 * length then 1 else 2, Slot(length, k));
  }

  /** The items of a ring whose last read slot is `last`: the slots after it. */
  function Contents(slots: seq<Item>, last: nat, count: nat): (items: seq<Item>)
    requires last < |slots| && count <= |slots|
    ensures |items| == count
  {
    seq(count, i requires 0 <= i < count => slots[Slot(|slots|, last + 1 + i)])
  }

  lemma WriteBack(slots: seq<Item>, last: nat, count: nat, x: Item)
    requires last < |slots| && count < |slots|
    ensures Contents(slots[Slot(|slots|, last + 1 + count) := x], last, count + 1) == Contents(slots, last, count) + [x]
    ensures Slot(|slots|, last + 2 + count) == After(|slots|, Slot(|slots|, last + 1 + count))
  {
    var slots' := slots[Slot(|slots|, last + 1 + count) := x];
    forall i | 0 <= i < count + 1
      ensures Contents(slots', last, count + 1)[i] == (Contents(slots, last, count) + [x])[i]
    {
      ContentsAt(slots', last, count + 1, i);
    }
  }

  function After(length: nat, k: nat): nat
    requires k < length
  {
    if k + 1 == length then 0 else k + 1
  }

  function Before(length: nat, k: nat): nat
    requires k < length
  {
    if k == 0 then length - 1 else k - 1
  }

  lemma ContentsAt(slots: seq<Item>, last: nat, count: nat, i: nat)
    requires last < |slots| && count <= |slots| && i < count
    ensures Contents(slots, last, count)[i] == slots[Slot(|slots|, last + 1 + i)]
  {
  }

  lemma WriteFront(slots: seq<Item>, last: nat, count: nat, x: Item)
    requires last < |slots| && count < |slots|
    ensures Contents(slots[last := x], Before(|slots|, last), count + 1) == [x] + Contents(slots, last, count)
    ensures Slot(|slots|, Before(|slots|, last) + 2 + count) == Slot(|slots|, last + 1 + count)
  {
    var slots', last' := slots[last := x], Before(|slots|, last);
    forall i | 0 <= i < count + 1
      ensures Contents(slots', last', count + 1)[i] == ([x] + Contents(slots, last, count))[i]
    {
      ContentsAt(slots', last', count + 1, i);
      if i > 0 {
        ContentsAt(slots, last, count, i - 1);
        assert Slot(|slots|, last' + 1 + i) == Slot(|slots|, last + i);
      }
    }
  }

  lemma ReadFront(slots: seq<Item>, last: nat, count: nat)
    requires last < |slots| && 0 < count <= |slots|
    ensures var next := Slot(|slots|, last + 1);
            && next == After(|slots|, last)
            && slots[next] == Contents(slots, last, count)[0]
            && Contents(slots, next, count - 1) == Contents(slots, last, count)[1..]
            && Slot(|slots|, next + 1 + (count - 1)) == Slot(|slots|, last + 1 + count)
  {
    var next := Slot(|slots|, last + 1);
    forall i | 0 <= i < count - 1 ensures Contents(slots, next, count - 1)[i] == Contents(slots, last, count)[1..][i] {
      ContentsAt(slots, next, count - 1, i);
      ContentsAt(slots, last, count, i + 1);
      assert Slot(|slots|, next + 1 + i) == Slot(|slots|, last + 1 + (i + 1));
    }
  }

  // -------------------------------------------------------- slots inside bytes

  lemma Scale(k: nat, length: nat, size: nat)
    requires k < length
    ensures 0 <= k * size && k * size + size == (k + 1) * size <= length * size
  {
    assert length * size == (k + 1) * size + (length - k - 1) * size;
  }

  /** The bytes of slot k. */
  function BytesOf(bytes: seq<Byte>, k: nat, size: nat): Item
    requires k * size + size <= |bytes|
  {
    bytes[k * size..k * size + size]
  }

  function Slots(bytes: seq<Byte>, length: nat, size: nat): (slots: seq<Item>)
    requires |bytes| == length * size
    ensures |slots| == length
  {
    seq(length, k requires 0 <= k < length => Scale(k, length, size); BytesOf(bytes, k, size))
  }

  /** Copying an item over slot k changes that slot and no other. */
  lemma CopyIntoSlot(was: seq<Byte>, bytes: seq<Byte>, length: nat, size: nat, k: nat, x: Item)
    requires |was| == |bytes| == length * size && k < length && |x| == size
    requires forall i :: 0 <= i < |was| && !(k * size <= i < k * size + size) ==> bytes[i] == was[i]
    requires forall i :: 0 <= i < size && k * size + i < |bytes| ==> bytes[k * size + i] == x[i]
    ensures Slots(bytes, length, size) == Slots(was, length, size)[k := x]
  {
    forall j | 0 <= j < length ensures Slots(bytes, length, size)[j] == Slots(was, length, size)[k := x][j] {
      Scale(j, length, size);
      Scale(k, length, size);
      if j < k { Apart(j, k, size); } else if k < j { Apart(k, j, size); }
    }
  }
}
