/** list.c on the heap: circular, doubly linked, with an end marker inside the
    list and a rotating pxIndex.  Each method is proved against the value-level
    function of module Rings. */
module IntrusiveList {
  import opened Rings
  import opened Ticks

  class ListItem {
    var value: nat            // xItemValue
    var next: ListItem?       // pxNext
    var previous: ListItem?   // pxPrevious
    var container: List?      // pxContainer
    const owner: nat          // pvOwner

    constructor (owner: nat, value: nat)
      requires value <= MAX_DELAY
      ensures this.owner == owner && this.value == value && container == null
    {
      this.owner, this.value := owner, value;
      next, previous, container := null, null, null;
    }
  }

  ghost function Splice(s: seq<ListItem>, k: nat, x: ListItem): seq<ListItem>
    requires k < |s|
  {
    s[..k+1] + [x] + s[k+1..]
  }

  ghost function Unsplice(s: seq<ListItem>, k: nat): seq<ListItem>
    requires k < |s|
  {
    s[..k] + s[k+1..]
  }

  lemma SpliceDistinct(s: seq<ListItem>, k: nat, x: ListItem)
    requires k < |s| && NoDuplicates(s) && x !in s
    ensures NoDuplicates(Splice(s, k, x))
  {
    var t := Splice(s, k, x);
    assert forall i :: 0 <= i <= k ==> t[i] == s[i];
    assert forall i :: k + 1 < i < |t| ==> t[i] == s[i-1];
  }

  lemma UnspliceDistinct(s: seq<ListItem>, k: nat)
    requires k < |s| && NoDuplicates(s)
    ensures NoDuplicates(Unsplice(s, k)) && s[k] !in Unsplice(s, k)
  {
    var t := Unsplice(s, k);
    assert forall i :: 0 <= i < k ==> t[i] == s[i];
    assert forall i :: k <= i < |t| ==> t[i] == s[i+1];
  }

  lemma Grown(end: ListItem, items: seq<ListItem>, k: nat, at: nat, x: ListItem)
    requires k <= |items| && at <= |items| && NoDuplicates([end] + items) && x !in [end] + items
    ensures var s, more := [end] + items, items[..k] + [x] + items[k..];
            && [end] + more == Splice(s, k, x) && NoDuplicates([end] + more)
            && (forall y :: y in more ==> y in items || y == x)
            && ([end] + more)[if at > k then at + 1 else at] == s[at]
  {
    var s, more := [end] + items, items[..k] + [x] + items[k..];
    assert [end] + more == Splice(s, k, x);
    SpliceDistinct(s, k, x);
  }

  lemma Shrunk(end: ListItem, items: seq<ListItem>, k: nat, at: nat)
    requires k < |items| && at <= |items| && NoDuplicates([end] + items)
    ensures var s, rest := [end] + items, items[..k] + items[k+1..];
            && [end] + rest == Unsplice(s, k + 1) && NoDuplicates([end] + rest)
            && (forall y :: y in rest ==> y in items && y != items[k])
            && ([end] + rest)[if at > k then at - 1 else at] == s[if at == k + 1 then k else at]
            && (s[at] == items[k] <==> at == k + 1)
  {
    var s, rest := [end] + items, items[..k] + items[k+1..];
    assert s[k+1] == items[k];
    assert [end] + rest == Unsplice(s, k + 1);
    UnspliceDistinct(s, k + 1);
    assert forall y :: y in rest ==> y in [end] + rest;
  }

  /** The links run through `s` and back to its first element, both ways. */
  ghost predicate Linked(s: seq<ListItem>)
    reads s`next, s`previous
  {
    && (forall i :: 0 <= i < |s| - 1 ==> s[i].next == s[i+1])
    && (forall i :: 0 < i < |s| ==> s[i].previous == s[i-1])
    && (|s| > 0 ==> s[|s|-1].next == s[0] && s[0].previous == s[|s|-1])
  }

  /** The node after node k. */
  ghost function After(s: seq<ListItem>, k: nat): ListItem
    requires k < |s|
  {
    if k + 1 < |s| then s[k+1] else s[0]
  }

  /** Linked, but for the next link of node k and the previous link of the node after it. */
  ghost predicate LinkedButAt(s: seq<ListItem>, k: nat)
    requires k < |s|
    reads s
  {
    && (forall i :: 0 <= i < |s| - 1 && i != k ==> s[i].next == s[i+1])
    && (forall i :: 0 < i < |s| && i != k + 1 ==> s[i].previous == s[i-1])
    && (k != |s| - 1 ==> s[|s|-1].next == s[0] && s[0].previous == s[|s|-1])
  }

  /** Four pointer writes put `x` between node k and the node after it. */
  lemma Spliced(s: seq<ListItem>, k: nat, x: ListItem)
    requires k < |s| && LinkedButAt(s, k)
    requires s[k].next == x && x.previous == s[k] && x.next == After(s, k) && After(s, k).previous == x
    ensures Linked(Splice(s, k, x))
  {
    var t := Splice(s, k, x);
    assert forall i :: 0 <= i <= k ==> t[i] == s[i];
    assert forall i :: k + 1 < i < |t| ==> t[i] == s[i-1];
    forall i | 0 <= i < |s| ensures t[i].next == t[i+1] {
      if k + 1 < i { assert s[i-1].next == s[i]; }
    }
    forall i | 0 < i <= |s| ensures t[i].previous == t[i-1] {
      if k + 2 < i { assert s[i-1].previous == s[i-2]; }
    }
  }

  /** Two pointer writes bypass node k, which is not the first. */
  lemma Unspliced(s: seq<ListItem>, k: nat)
    requires 0 < k < |s|
    requires forall i :: 0 <= i < |s| - 1 && i != k - 1 ==> s[i].next == s[i+1]
    requires forall i :: 0 < i < |s| && i != k + 1 ==> s[i].previous == s[i-1]
    requires s[k-1].next == After(s, k) && After(s, k).previous == s[k-1]
    requires k != |s| - 1 ==> s[|s|-1].next == s[0] && s[0].previous == s[|s|-1]
    ensures Linked(Unsplice(s, k))
  {
    var t := Unsplice(s, k);
    assert forall i :: 0 <= i < k ==> t[i] == s[i];
    assert forall i :: k <= i < |t| ==> t[i] == s[i+1];
    forall i | 0 <= i < |t| - 1 ensures t[i].next == t[i+1] {
      if k <= i { assert s[i+1].next == s[i+2]; }
    }
    forall i | 0 < i < |t| ensures t[i].previous == t[i-1] {
      if k < i { assert s[i+1].previous == s[i]; }
    }
  }

  /** The pointer writes shared by vListInsert and vListInsertEnd. */
  method LinkBetween(ghost s: seq<ListItem>, ghost k: nat, p: ListItem, x: ListItem, q: ListItem)
    requires k < |s| && NoDuplicates(s) && Linked(s) && x !in s && p == s[k] && q == After(s, k)
    modifies p`next, x`next, x`previous, q`previous
    ensures Linked(Splice(s, k, x))
  {
    x.next := q;
    x.previous := p;
    p.next := x;
    q.previous := x;
    forall i | 0 <= i < |s| && i != k ensures s[i] != s[k] {}
    forall i | 0 <= i < |s| && i != k + 1 && !(i == 0 && k + 1 == |s|) ensures s[i] != q {}
    assert LinkedButAt(s, k);
    Spliced(s, k, x);
  }

  /** The pointer writes of uxListRemove. */
  method Bypass(ghost s: seq<ListItem>, ghost k: nat, p: ListItem, q: ListItem)
    requires 0 < k < |s| && NoDuplicates(s) && Linked(s) && p == s[k-1] && q == After(s, k)
    modifies p`next, q`previous
    ensures Linked(Unsplice(s, k))
  {
    q.previous := p;
    p.next := q;
    forall i | 0 <= i < |s| && i != k - 1 ensures s[i] != p {}
    forall i | 0 <= i < |s| && i != k + 1 && !(i == 0 && k + 1 == |s|) ensures s[i] != q {}
    Unspliced(s, k);
  }

  class List {
    const end: ListItem       // xListEnd
    var index: ListItem       // pxIndex
    var count: nat            // uxNumberOfItems
    ghost var items: seq<ListItem>
    ghost var at: nat         // where pxIndex is: 0 the end marker, k member k - 1

    ghost function Nodes(): seq<ListItem>
      reads this
    {
      [end] + items
    }

    ghost predicate Valid()
      reads this, end, items
    {
      && NoDuplicates(Nodes())
      && Linked(Nodes())
      && at <= |items| && index == Nodes()[at]
      && count == |items|
      && end.value == MAX_DELAY && end.container == null
      && forall y :: y in items ==> y.container == this && y.value <= MAX_DELAY
    }

    /** The list as a value. */
    ghost function View(): Ring<ListItem>
      reads this
    {
      Ring(items, at)
    }

    /** vListInitialise */
    constructor ()
      ensures Valid() && fresh(end) && View() == Ring([], 0)
    {
      var marker := new ListItem(0, MAX_DELAY);
      end, index := marker, marker;
      count, items, at := 0, [], 0;
      new;
      marker.next := marker;
      marker.previous := marker;
    }

    /** vListInsertEnd */
    method InsertEnd(x: ListItem)
      requires Valid() && x.container == null && x != end && x.value <= MAX_DELAY
      modifies this, x`next, x`previous, x`container, Nodes()`next, Nodes()`previous
      ensures Valid() && View() == Rings.InsertEnd(old(View()), x)
    {
      ghost var s := Nodes();
      ghost var k: nat := if at == 0 then |items| else at - 1;
      assert index.previous == s[k] && After(s, k) == index;
      LinkBetween(s, k, index.previous, x, index);
      Adopt(s, k, x);
    }

    /** Where vListInsert links the new item: after the node it returns.  The loop
        ends on any list, sorted or not, and a value equal to the end marker's
        goes last. */
    method Search(v: nat) returns (cursor: ListItem, k: nat)
      requires Valid() && v <= MAX_DELAY
      ensures k <= |items| && cursor == Nodes()[k] && cursor.next == After(Nodes(), k)
      ensures forall i :: 0 <= i < k ==> items[i].value <= v
      ensures k < |items| ==> items[k].value > v
    {
      ghost var s := Nodes();
      cursor, k := end, 0;
      if v == MAX_DELAY {
        cursor, k := end.previous, count;
      } else {
        while cursor.next.value <= v
          invariant k <= |items| && cursor == s[k] && cursor.next == After(s, k)
          invariant forall i :: 0 <= i < k ==> items[i].value <= v
          decreases |items| - k
        {
          assert s[k+1] == items[k];
          cursor := cursor.next;
          k := k + 1;
        }
        assert k < |items| ==> s[k+1] == items[k];
      }
    }

    /** The search of vListInsert and the links it sets, on any list. */
    method Place(x: ListItem) returns (ghost k: nat)
      requires Valid() && x.container == null && x != end && x.value <= MAX_DELAY
      modifies this, x`next, x`previous, x`container, Nodes()`next, Nodes()`previous
      ensures Valid()
      ensures k <= |old(items)| && View() == InsertAt(old(View()), k, x)
      ensures forall i :: 0 <= i < k ==> old(items)[i].value <= x.value
      ensures k < |old(items)| ==> old(items)[k].value > x.value
    {
      ghost var s := Nodes();
      var cursor, position := Search(x.value);
      k := position;
      LinkBetween(s, k, cursor, x, cursor.next);
      Adopt(s, k, x);
    }

    /** vListInsert is the insertion of Rings, with `value` for the item values: the
        new item is behind every smaller or equal one, and a sorted list stays sorted. */
    method Insert(x: ListItem, ghost value: map<ListItem, nat>) returns (ghost k: nat)
      requires Valid() && x.container == null && x != end && x.value <= MAX_DELAY
      requires At(value, x) == x.value && forall y :: y in items ==> At(value, y) == y.value
      modifies this, x`next, x`previous, x`container, Nodes()`next, Nodes()`previous
      ensures Valid()
      ensures k <= |old(items)| && View() == InsertAt(old(View()), k, x)
      ensures (forall i :: 0 <= i < k ==> old(items)[i].value <= x.value)
      ensures k < |old(items)| ==> old(items)[k].value > x.value
      ensures items == InsertSorted(old(items), x, value)
      ensures Sorted(old(items), value) ==> Splits(old(items), k, At(value, x), value) && Sorted(items, value)
    {
      hide Valid, InsertSorted, Sorted, Splits;
      ghost var was := items;
      k := Place(x);
      InsertedAt(was, x, value, k);
    }

    /** The rest of an insertion: container, member count, and the ghost view. */
    method Adopt(ghost s: seq<ListItem>, ghost k: nat, x: ListItem)
      requires s == Nodes() && NoDuplicates(s) && k <= |items| && x !in s && x.value <= MAX_DELAY
      requires Linked(Splice(s, k, x)) && at <= |items| && index == s[at] && count == |items|
      requires end.value == MAX_DELAY && end.container == null
      requires forall y :: y in items ==> y.container == this && y.value <= MAX_DELAY
      modifies this, x`container
      ensures Valid() && View() == InsertAt(old(View()), k, x)
    {
      hide Linked, NoDuplicates, Splice;
      Grown(end, items, k, at, x);
      x.container := this;
      count, items, at := count + 1, items[..k] + [x] + items[k..], if at > k then at + 1 else at;
    }

    /** uxListRemove on the list that contains the item. */
    method Drop(x: ListItem, ghost k: nat) returns (left: nat)
      requires Valid() && k < |items| && items[k] == x
      modifies this, x`container, Nodes()`next, Nodes()`previous
      ensures Valid() && View() == RemoveAt(old(View()), k) && left == |items| && x.container == null
    {
      ghost var s := Nodes();
      assert s[k+1] == x && x.previous == s[k] && x.next == After(s, k + 1);
      var before := x.previous;
      Bypass(s, k + 1, before, x.next);
      left := Disown(s, k, x, before);
    }

    /** The rest of a removal: pxIndex, container, member count, and the ghost view. */
    method Disown(ghost s: seq<ListItem>, ghost k: nat, x: ListItem, before: ListItem) returns (left: nat)
      requires s == Nodes() && NoDuplicates(s) && k < |items| && x == items[k] && before == s[k]
      requires Linked(Unsplice(s, k + 1)) && at <= |items| && index == s[at] && count == |items|
      requires end.value == MAX_DELAY && end.container == null
      requires forall y :: y in items ==> y.container == this && y.value <= MAX_DELAY
      modifies this, x`container
      ensures Valid() && View() == RemoveAt(old(View()), k) && left == |items| && x.container == null
    {
      hide Linked, NoDuplicates, Unsplice;
      Shrunk(end, items, k, at);
      x.container := null;
      index, count, items, at := if index == x then before else index, count - 1,
        items[..k] + items[k+1..], if at > k then at - 1 else at;
      left := count;
    }

    /** listGET_OWNER_OF_HEAD_ENTRY and listGET_ITEM_VALUE_OF_HEAD_ENTRY */
    method Head() returns (owner: nat, value: nat)
      requires Valid() && count > 0
      ensures owner == items[0].owner && value == items[0].value
    {
      assert Nodes()[0].next == Nodes()[1] == items[0];
      owner, value := end.next.owner, end.next.value;
    }

    /** listGET_OWNER_OF_NEXT_ENTRY */
    method Next() returns (owner: nat)
      requires Valid() && count > 0
      modifies this`index, this`at
      ensures Valid() && View() == Advance(old(View())) && owner == Owner(View()).owner
    {
      ghost var s := Nodes();
      assert s[at].next == After(s, at) && s[0].next == After(s, 0);
      index := index.next;
      at := if at == |items| then 0 else at + 1;
      if index == end {
        assert at == 0;
        index := end.next;
        at := 1;
      }
      owner := index.owner;
    }
  }

  /** uxListRemove: the item finds its list through its container. */
  method Remove(x: ListItem) returns (left: nat, ghost k: nat)
    requires x.container != null && x.container.Valid() && x in x.container.items
    modifies x.container, x`container, x.container.Nodes()`next, x.container.Nodes()`previous
    ensures x.container == null
    ensures var l := old(x.container);
            && l.Valid() && left == |l.items|
            && k < |old(l.items)| && old(l.items)[k] == x && l.View() == RemoveAt(old(l.View()), k)
  {
    var l := x.container;
    k :| k < |l.items| && l.items[k] == x;
    left := l.Drop(x, k);
  }
}
