/** Lists of tasks on the heap: each task has one list item, which is in one of a fixed
    number of lists or in none.  The operations are those of Rings, task by task. */
module ListBanks {
  import opened Basics
  import opened Rings
  import opened Ticks
  import opened IntrusiveList

  function Owners(xs: seq<ListItem>): (ts: seq<Task>)
    ensures |ts| == |xs| && forall i :: 0 <= i < |xs| ==> ts[i] == xs[i].owner
  {
    seq(|xs|, i requires 0 <= i < |xs| => xs[i].owner)
  }

  lemma OwnersInsert(xs: seq<ListItem>, k: nat, x: ListItem)
    requires k <= |xs|
    ensures Owners(xs[..k] + [x] + xs[k..]) == Owners(xs)[..k] + [x.owner] + Owners(xs)[k..]
  {
  }

  lemma OwnersRemove(xs: seq<ListItem>, k: nat)
    requires k < |xs|
    ensures Owners(xs[..k] + xs[k+1..]) == Owners(xs)[..k] + Owners(xs)[k+1..]
  {
  }

  /** A list is valid as long as nobody writes to it or its nodes. */
  twostate lemma Untouched(l: List)
    requires old(l.Valid()) && unchanged(l) && unchanged(l.end) && forall y :: y in old(l.items) ==> unchanged(y)
    ensures l.Valid() && l.items == old(l.items) && l.at == old(l.at)
  {
    var s := l.Nodes();
    assert s == old(l.Nodes());
    forall i | 0 <= i < |s| ensures s[i].next == old(s[i].next) && s[i].previous == old(s[i].previous) {
      if i > 0 { assert s[i] == l.items[i - 1] && s[i] in old(l.items); }
    }
    assert old(Linked(s));
  }

  function TaskRing(r: Ring<ListItem>): Ring<Task> { Ring(Owners(r.items), r.index) }

  lemma EndOwners(r: Ring<ListItem>, x: ListItem)
    requires WellFormed(r)
    ensures WellFormed(TaskRing(r)) && TaskRing(Rings.InsertEnd(r, x)) == Rings.InsertEnd(TaskRing(r), x.owner)
  {
    OwnersInsert(r.items, if r.index == 0 then |r.items| else r.index - 1, x);
    hide Owners;
  }

  lemma EndGrows(r: Ring<ListItem>, x: ListItem)
    requires WellFormed(r)
    ensures WellFormed(TaskRing(r)) && TaskRing(Rings.InsertEnd(r, x)) == Rings.InsertEnd(TaskRing(r), x.owner)
    ensures forall y :: y in Rings.InsertEnd(r, x).items <==> y in r.items || y == x
  {
    EndOwners(r, x);
    hide Owners;
  }

  lemma {:induction false} FirstIndex(ts: seq<Task>, k: nat)
    requires k < |ts| && NoDuplicates(ts)
    ensures IndexOf(ts, ts[k]) == k
    decreases k
  {
    if k > 0 {
      assert ts[1..][k - 1] == ts[k];
      FirstIndex(ts[1..], k - 1);
    }
  }

  lemma CutOwners(r: Ring<ListItem>, k: nat)
    requires WellFormed(r) && k < |r.items| && NoDuplicates(Owners(r.items))
    ensures TaskRing(RemoveAt(r, k)) == Rings.Drop(TaskRing(r), r.items[k].owner)
  {
    OwnersRemove(r.items, k);
    FirstIndex(Owners(r.items), k);
    hide IndexOf;
  }

  lemma SortedOwners(xs: seq<ListItem>, x: ListItem, k: nat, value: map<Task, nat>)
    requires k <= |xs| && (forall i :: 0 <= i < k ==> At(value, xs[i].owner) <= At(value, x.owner))
    requires k < |xs| ==> At(value, xs[k].owner) > At(value, x.owner)
    ensures Owners(xs[..k] + [x] + xs[k..]) == InsertSorted(Owners(xs), x.owner, value)
  {
    OwnersInsert(xs, k, x);
    InsertedAt(Owners(xs), x.owner, value, k);
  }

  lemma Turned(r: Ring<ListItem>)
    requires WellFormed(r) && r.items != []
    ensures WellFormed(TaskRing(r)) && TaskRing(r).items != [] && TaskRing(Advance(r)) == Advance(TaskRing(r))
    ensures Owner(Advance(TaskRing(r))) == Owner(Advance(r)).owner
  {
  }

  function Empty(n: nat): seq<Ring<Task>> { seq(n, _ => Ring([], 0)) }

  ghost predicate Free(v: seq<Ring<Task>>, t: Task) { forall i :: 0 <= i < |v| ==> t !in v[i].items }

  /** Well-formed lists of known tasks, each task on one at most. */
  ghost predicate OneEach(v: seq<Ring<Task>>, tasks: set<Task>) {
    && (forall i :: 0 <= i < |v| ==> WellFormed(v[i]) && NoDuplicates(v[i].items))
    && (forall i, t :: 0 <= i < |v| && t in v[i].items ==> t in tasks)
    && (forall i, j, t :: 0 <= i < |v| && 0 <= j < |v| && t in v[i].items && t in v[j].items ==> i == j)
  }

  ghost predicate Distinct(xs: seq<ListItem>) { NoDuplicates(xs) && NoDuplicates(Owners(xs)) }

  lemma Cut(r: Ring<ListItem>, k: nat)
    requires WellFormed(r) && k < |r.items| && Distinct(r.items)
    ensures TaskRing(RemoveAt(r, k)) == Rings.Drop(TaskRing(r), r.items[k].owner)
    ensures r.items[k].owner in Owners(r.items)
    ensures forall y :: y in RemoveAt(r, k).items <==> y in r.items && y != r.items[k]
  {
    CutOwners(r, k);
    CutAt(r.items, k);
    assert Owners(r.items)[k] == r.items[k].owner;
  }

  method MakeLists(n: nat) returns (ls: seq<List>, ghost r: set<object>)
    ensures |ls| == n && fresh(r) && forall l :: l in ls ==> l in r && l.end in r
    ensures forall l :: l in ls ==> l.Valid() && l.View() == Ring([], 0)
    ensures forall i, j :: 0 <= i < j < n ==> ls[i] != ls[j] && ls[i].end != ls[j].end
  {
    ls, r := [], {};
    while |ls| < n
      invariant |ls| <= n && fresh(r) && forall l :: l in ls ==> l in r && l.end in r
      invariant forall l :: l in ls ==> l.Valid() && l.View() == Ring([], 0)
      invariant forall i, j :: 0 <= i < j < |ls| ==> ls[i] != ls[j] && ls[i].end != ls[j].end
    {
      var l := new List();
      ls, r := ls + [l], r + {l, l.end};
    }
  }

  method MakeItems(tasks: seq<Task>, value: map<Task, nat>) returns (item: map<Task, ListItem>, ghost r: set<object>)
    requires forall t :: t in value ==> value[t] <= MAX_DELAY
    ensures (forall t :: t in item <==> t in tasks) && fresh(r) && forall t :: t in item ==> item[t] in r
    ensures forall t :: t in item ==>
              item[t].owner == t && item[t].container == null && item[t].value == At(value, t) <= MAX_DELAY
  {
    item, r := map[], {};
    for k := 0 to |tasks|
      invariant (forall t :: t in item <==> t in tasks[..k]) && fresh(r) && forall t :: t in item ==> item[t] in r
      invariant forall t :: t in item ==>
                  item[t].owner == t && item[t].container == null && item[t].value == At(value, t) <= MAX_DELAY
    {
      var x := new ListItem(tasks[k], At(value, tasks[k]));
      item, r := item[tasks[k] := x], r + {x};
    }
  }

  class ListBank {
    const lists: seq<List>
    const item: map<Task, ListItem>
    ghost const repr: set<object>   // the lists, their end markers and the items

    /** `n` empty lists, and an item for each task, with the value given for it or zero. */
    constructor (n: nat, tasks: seq<Task>, value: map<Task, nat>)
      requires forall t :: t in value ==> value[t] <= MAX_DELAY
      ensures Valid() && Separate() && fresh(repr) && |lists| == n && (forall t :: t in item <==> t in tasks)
      ensures View() == Empty(n) && forall t :: t in item ==> At(Values(), t) == At(value, t)
    {
      hide Linked, NoDuplicates, List.Valid, Valid, Separate, Items, View, Values, Empty;
      var ls, r := MakeLists(n);
      var its, r' := MakeItems(tasks, value);
      lists, item, repr := ls, its, r + r';
      new;
      Built();
      AllEmpty(value);
    }

    lemma Built()
      requires (forall l :: l in lists ==> l in repr && l.end in repr) && (forall t :: t in item ==> item[t] in repr)
      requires forall i, j :: 0 <= i < j < |lists| ==> lists[i] != lists[j] && lists[i].end != lists[j].end
      requires forall t :: t in item ==> item[t].owner == t
      requires forall t, l :: t in item && l in lists ==> item[t] != l.end
      ensures Separate()
    {
    }

    lemma AllEmpty(value: map<Task, nat>)
      requires Separate() && (forall l :: l in lists ==> l.Valid() && l.View() == Ring([], 0))
      requires forall t :: t in item ==> item[t].container == null && item[t].value == At(value, t) <= MAX_DELAY
      ensures Valid() && View() == Empty(|lists|) && forall t :: t in item ==> At(Values(), t) == At(value, t)
    {
      hide Linked, NoDuplicates, List.Valid;
    }

    ghost function Item(t: Task): (x: ListItem)
      requires t in item
      ensures x in Items()
    {
      item[t]
    }

    ghost function Ends(): set<ListItem> { set l | l in lists :: l.end }

    ghost function Items(): set<ListItem> { item.Values }

    ghost function Nodes(): set<ListItem> { Ends() + Items() }

    /** The nodes are all different. */
    ghost predicate Separate() {
      && (forall l :: l in lists ==> l in repr) && (forall x :: x in Nodes() ==> x in repr)
      && (forall i, j :: 0 <= i < j < |lists| ==> lists[i] != lists[j] && lists[i].end != lists[j].end)
      && (forall t :: t in item ==> item[t].owner == t && item[t] !in Ends())
    }

    ghost predicate Mine(l: List)
      reads l
    {
      forall x :: x in l.items ==> x in Items() && x.owner in item && item[x.owner] == x
    }

    ghost predicate Homed(x: ListItem)
      reads x`container, lists
    {
      x.container == null || (x.container in lists && x in x.container.items)
    }

    ghost predicate Valid()
      reads repr
    {
      && Separate()
      && (forall l :: l in lists ==> Mine(l) && l.end in Ends() && l.Valid())
      && (forall x :: x in Items() ==> Homed(x) && x.value <= MAX_DELAY)
    }

    /** List i as a ring of tasks. */
    ghost function Tasks(i: nat): (r: Ring<Task>)
      requires i < |lists|
      reads lists[i]
    {
      TaskRing(lists[i].View())
    }

    ghost function Values(): map<Task, nat>
      requires Separate()
      reads repr
    {
      map t | t in item :: item[t].value
    }

    /** Lists keep their nodes to themselves, and an item in no list is in none. */
    lemma NodesApart(a: List, b: List, x: ListItem)
      requires Valid() && a in lists && b in lists && a != b && x in Items()
      requires x.container == null || x.container == a
      ensures x !in b.Nodes() && forall y :: y in a.Nodes() ==> y !in b.Nodes()
    {
      hide Mine, Homed, Linked;
      assert a.Valid() && b.Valid();
      EndsApart(a, b);
    }

    lemma EndsApart(a: List, b: List)
      requires Separate() && a in lists && b in lists && a != b
      ensures a.end != b.end && forall x :: x in Items() ==> x != a.end && x != b.end
    {
      var i, j :| 0 <= i < |lists| && lists[i] == a && 0 <= j < |lists| && lists[j] == b;
      assert i < j || j < i;
    }

    /** The bank after the item of `t` joined a list. */
    twostate lemma Joined(t: Task)
      requires old(Valid()) && t in item && item[t].container in lists && forall b :: b in lists ==> b.Valid()
      requires forall b :: b in lists && b != item[t].container ==> b.items == old(b.items)
      requires var l := item[t].container; forall y :: y in l.items <==> y in old(l.items) || y == item[t]
      requires forall y :: y in Items() ==> y.value == old(y.value)
      requires forall y :: y in Items() && y != item[t] ==> y.container == old(y.container)
      ensures Valid()
    {
      hide Linked, NoDuplicates;
      forall b | b in lists ensures Mine(b) && b.end in Ends() && b.Valid() { assert old(Mine(b)); }
      forall y | y in Items() ensures Homed(y) && y.value <= MAX_DELAY { assert old(Homed(y)); }
    }

    /** The bank after a list was turned. */
    twostate lemma SameMembers()
      requires old(Valid()) && forall b :: b in lists ==> b.Valid()
      requires forall b :: b in lists ==> b.items == old(b.items)
      requires forall y :: y in Items() ==> y.value == old(y.value)
      requires forall y :: y in Items() ==> y.container == old(y.container)
      ensures Valid()
    {
      hide Linked, NoDuplicates;
      forall b | b in lists ensures Mine(b) && b.end in Ends() && b.Valid() { assert old(Mine(b)); }
      forall y | y in Items() ensures Homed(y) && y.value <= MAX_DELAY { assert old(Homed(y)); }
    }

    /** The bank after the item of `t` left its list. */
    twostate lemma Parted(t: Task)
      requires old(Valid()) && t in item && old(item[t].container) in lists && forall b :: b in lists ==> b.Valid()
      requires forall b :: b in lists && b != old(item[t].container) ==> b.items == old(b.items)
      requires var l := old(item[t].container); forall y :: y in l.items <==> y in old(l.items) && y != item[t]
      requires item[t].container == null && forall y :: y in Items() ==> y.value == old(y.value)
      requires forall y :: y in Items() && y != item[t] ==> y.container == old(y.container)
      ensures Valid()
    {
      hide Linked, NoDuplicates;
      forall b | b in lists ensures Mine(b) && b.end in Ends() && b.Valid() { assert old(Mine(b)); }
      forall y | y in Items() ensures Homed(y) && y.value <= MAX_DELAY { assert old(Homed(y)); }
    }

    lemma EndNotItem(l: List, x: ListItem)
      requires Separate() && l in lists && x in Items()
      ensures x != l.end && x.owner in item && item[x.owner] == x
    {
    }

    lemma Inside(l: List)
      requires Valid() && l in lists
      ensures l.Valid() && WellFormed(l.View()) && forall y :: y in l.Nodes() ==> y in Nodes()
    {
      hide Homed;
      assert Mine(l) && l.end in Ends();
    }

    ghost predicate Misses(b: List, x: ListItem, nodes: seq<ListItem>)
      reads b
    {
      b.end !in nodes && b.end != x && forall y :: y in b.items ==> y !in nodes && y != x
    }

    /** No write to the nodes of `l` or to an item in no list reaches another list. */
    lemma Shielded(l: List, x: ListItem, nodes: seq<ListItem>)
      requires Valid() && l in lists && x in Items() && (x.container == null || x.container == l) && nodes == l.Nodes()
      ensures x != l.end && forall b :: b in lists && b != l ==> Misses(b, x, nodes)
    {
      hide Mine, Homed, Linked, NoDuplicates;
      EndNotItem(l, x);
      forall b | b in lists && b != l ensures Misses(b, x, nodes) {
        NodesApart(l, b, x);
      }
    }

    /** vListInsertEnd, as far as the lists are concerned. */
    method LinkEnd(i: nat, t: Task)
      requires Valid() && i < |lists| && t in item && item[t].container == null
      modifies lists[i], Item(t)`container, Nodes()`next, Nodes()`previous
      ensures old(lists[i] in lists && lists[i].Valid())
      ensures lists[i].View() == Rings.InsertEnd(old(lists[i].View()), item[t]) && item[t].container == lists[i]
      ensures forall b :: b in lists ==> b.Valid()
    {
      hide Mine, Homed, Linked, NoDuplicates, Separate, List.Valid;
      var l, x := lists[i], item[t];
      Inside(l);
      ghost var nodes := l.Nodes();
      Shielded(l, x, nodes);
      assert forall b :: b in lists ==> b.Valid();
      l.InsertEnd(x);
      forall b | b in lists && b != l ensures b.Valid() {
        assert old(Misses(b, item[t], nodes));
        Untouched(b);
      }
    }

    /** vListInsert, as far as the lists are concerned. */
    method LinkSorted(i: nat, t: Task) returns (ghost k: nat)
      requires Valid() && i < |lists| && t in item && item[t].container == null
      modifies lists[i], Item(t)`container, Nodes()`next, Nodes()`previous
      ensures old(lists[i] in lists && lists[i].Valid()) && k <= old(|lists[i].items|)
      ensures lists[i].View() == InsertAt(old(lists[i].View()), k, item[t]) && item[t].container == lists[i]
      ensures forall j :: 0 <= j < k ==> old(lists[i].items)[j].value <= item[t].value
      ensures k < old(|lists[i].items|) ==> old(lists[i].items)[k].value > item[t].value
      ensures forall b :: b in lists ==> b.Valid()
    {
      hide Mine, Homed, Linked, NoDuplicates, Separate, List.Valid;
      var l, x := lists[i], item[t];
      Inside(l);
      ghost var nodes := l.Nodes();
      Shielded(l, x, nodes);
      assert forall b :: b in lists ==> b.Valid();
      k := l.Place(x);
      forall b | b in lists && b != l ensures b.Valid() {
        assert old(Misses(b, item[t], nodes));
        Untouched(b);
      }
    }

    /** uxListRemove, as far as the lists are concerned. */
    method Unlink(t: Task) returns (left: nat, ghost i: nat, ghost k: nat)
      requires Valid() && t in item && item[t].container != null
      modifies item[t].container, Item(t)`container, Nodes()`next, Nodes()`previous
      ensures i < |lists| && lists[i] == old(item[t].container) && old(lists[i] in lists && lists[i].Valid())
      ensures k < old(|lists[i].items|) && old(lists[i].items)[k] == item[t]
      ensures lists[i].View() == RemoveAt(old(lists[i].View()), k)
      ensures item[t].container == null && left == |lists[i].items|
      ensures forall b :: b in lists ==> b.Valid()
    {
      hide Mine, Linked, NoDuplicates, Separate, List.Valid;
      var x := item[t];
      ghost var l := x.container;
      assert Homed(x);
      i :| 0 <= i < |lists| && lists[i] == l;
      Inside(l);
      ghost var nodes := l.Nodes();
      Shielded(l, x, nodes);
      assert forall b :: b in lists ==> b.Valid();
      left, k := IntrusiveList.Remove(x);
      forall b | b in lists && b != l ensures b.Valid() {
        assert old(Misses(b, item[t], nodes));
        Untouched(b);
      }
    }

    /** vListInsertEnd of the item of `t` into list i. */
    method AppendTo(i: nat, t: Task)
      requires Valid() && i < |lists| && t in item && item[t].container == null
      modifies lists[i], Item(t)`container, Nodes()`next, Nodes()`previous
      ensures Valid() && item[t].container == lists[i]
      ensures WellFormed(old(Tasks(i))) && Tasks(i) == Rings.InsertEnd(old(Tasks(i)), t)
      ensures forall j :: 0 <= j < |lists| && j != i ==> Tasks(j) == old(Tasks(j))
    {
      hide Mine, Homed, Linked, NoDuplicates, Owners, List.Valid, Separate;
      Apart(i);
      LinkEnd(i, t);
      EndGrows(old(lists[i].View()), item[t]);
      Joined(t);
    }

    /** vListInsert of the item of `t` into list i, by its value. */
    method InsertTo(i: nat, t: Task)
      requires Valid() && i < |lists| && t in item && item[t].container == null
      modifies lists[i], Item(t)`container, Nodes()`next, Nodes()`previous
      ensures Valid() && item[t].container == lists[i]
      ensures Tasks(i).items == InsertSorted(old(Tasks(i)).items, t, Values())
      ensures old(Tasks(i)).index == 0 ==> Tasks(i).index == 0
      ensures forall j :: 0 <= j < |lists| && j != i ==> Tasks(j) == old(Tasks(j))
    {
      hide Mine, Homed, Linked, NoDuplicates, Owners, List.Valid, Separate, InsertSorted;
      Apart(i);
      ghost var xs := lists[i].items;
      Known(lists[i]);
      ghost var k := LinkSorted(i, t);
      SortedOwners(xs, item[t], k, Values());
      Joined(t);
    }

    /** uxListRemove of the item of `t`, from whatever list it is in. */
    method RemoveFrom(t: Task) returns (left: nat, ghost i: nat)
      requires Valid() && t in item && item[t].container != null
      modifies item[t].container, Item(t)`container, Nodes()`next, Nodes()`previous
      ensures Valid() && item[t].container == null
      ensures i < |lists| && old(item[t].container) == lists[i] && t in old(Tasks(i)).items && left == |Tasks(i).items|
      ensures WellFormed(old(Tasks(i))) && Tasks(i) == Rings.Drop(old(Tasks(i)), t)
      ensures forall j :: 0 <= j < |lists| && j != i ==> Tasks(j) == old(Tasks(j))
    {
      hide Mine, Homed, Linked, NoDuplicates, Owners, List.Valid, Separate, Rings.Drop;
      ghost var k: nat;
      AllApart();
      left, i, k := Unlink(t);
      Cut(old(lists[i].View()), k);
      Parted(t);
    }

    /** listSET_LIST_ITEM_VALUE; an item in a list stays where it is. */
    method SetValue(t: Task, v: nat)
      requires Valid() && t in item && v <= MAX_DELAY
      modifies Item(t)`value
      ensures Valid() && Values() == old(Values())[t := v]
    {
      hide Homed, Linked, NoDuplicates;
      forall b | b in lists ensures item[t] != b.end { EndNotItem(b, item[t]); }
      AllApart();
      item[t].value := v;
      forall b | b in lists ensures Mine(b) && b.end in Ends() && b.Valid() { assert old(b.Valid() && Mine(b)); }
      forall y | y in Items() ensures Homed(y) && y.value <= MAX_DELAY { assert old(Homed(y)); }
    }

    /** listGET_OWNER_OF_NEXT_ENTRY of list i. */
    method AdvanceIn(i: nat) returns (t: Task)
      requires Valid() && i < |lists| && Tasks(i).items != []
      modifies lists[i]
      ensures Valid() && WellFormed(old(Tasks(i)))
      ensures Tasks(i) == Rings.Advance(old(Tasks(i))) && t == Owner(Tasks(i))
      ensures forall j :: 0 <= j < |lists| && j != i ==> Tasks(j) == old(Tasks(j))
    {
      hide Mine, Homed, Linked, NoDuplicates, Separate, List.Valid, Owners;
      Apart(i);
      assert forall b :: b in lists ==> b.Valid();
      t := lists[i].Next();
      forall b | b in lists && b != lists[i] ensures b.Valid() { Untouched(b); }
      SameMembers();
      Turned(old(lists[i].View()));
    }

    /** listGET_OWNER_OF_HEAD_ENTRY and its value, of list i. */
    method HeadOf(i: nat) returns (t: Task, v: nat)
      requires Valid() && i < |lists| && Tasks(i).items != []
      ensures t == Tasks(i).items[0] && t in item && v == Values()[t]
    {
      hide Homed, Linked, NoDuplicates, Separate;
      assert lists[i] in lists && Mine(lists[i]);
      Apart(i);
      t, v := lists[i].Head();
    }

    /** listCURRENT_LIST_LENGTH of list i. */
    method LengthOf(i: nat) returns (n: nat)
      requires Valid() && i < |lists|
      ensures n == |Tasks(i).items|
    {
      Apart(i);
      n := lists[i].count;
    }

    /** A task is on a list exactly if the list contains its item. */
    lemma Where(t: Task)
      requires Valid() && t in item
      ensures forall i :: 0 <= i < |lists| ==> (t in Tasks(i).items <==> item[t].container == lists[i])
    {
      hide Linked, NoDuplicates;
      forall i | 0 <= i < |lists| ensures t in Tasks(i).items <==> item[t].container == lists[i] {
        var l := lists[i];
        assert l in lists && Mine(l) && l.Valid() && Homed(item[t]);
        if t in Tasks(i).items {
          var k :| 0 <= k < |l.items| && Owners(l.items)[k] == t;
          assert l.items[k] in l.items;
        }
        if item[t].container == l {
          var k :| 0 <= k < |l.items| && l.items[k] == item[t];
          assert Owners(l.items)[k] == t;
        }
      }
    }

    lemma AllApart()
      requires Valid()
      ensures forall i, j :: 0 <= i < |lists| && 0 <= j < |lists| && j != i ==> lists[j] != lists[i]
      ensures forall i :: 0 <= i < |lists| ==> lists[i].Valid() && Distinct(lists[i].items)
      ensures forall t :: t in item ==> item[t].owner == t
    {
      hide Mine, Homed, Linked, NoDuplicates, List.Valid;
      forall i | 0 <= i < |lists| ensures lists[i].Valid() && Distinct(lists[i].items) {
        assert lists[i] in lists;
        Known(lists[i]);
      }
      forall i, j | 0 <= i < |lists| && 0 <= j < |lists| && j != i ensures lists[j] != lists[i] {
        assert i < j || j < i;
      }
    }

    lemma Known(l: List)
      requires Valid() && l in lists
      ensures forall y :: y in l.items ==> y.owner in item && item[y.owner] == y
      ensures Distinct(l.items)
    {
      hide Homed, Linked;
      assert Mine(l) && l.Valid();
      forall i, j | 0 <= i < j < |l.items|
        ensures l.items[i] != l.items[j] && Owners(l.items)[i] != Owners(l.items)[j]
      {
        assert l.Nodes()[i + 1] == l.items[i] && l.Nodes()[j + 1] == l.items[j];
      }
    }

    lemma Apart(i: nat)
      requires Valid() && i < |lists|
      ensures lists[i].Valid() && forall j :: 0 <= j < |lists| && j != i ==> lists[j] != lists[i]
      ensures forall t :: t in item ==> item[t].owner == t
    {
      assert lists[i] in lists;
    }

    // ------------------------------------------------------------ as seen by the kernel

    /** All lists, as values. */
    ghost function View(): (v: seq<Ring<Task>>)
      requires Separate()
      reads repr
      ensures |v| == |lists| && forall i :: 0 <= i < |lists| ==> v[i] == Tasks(i)
    {
      seq(|lists|, i requires 0 <= i < |lists| reads lists => Tasks(i))
    }

    /** The item of `t` is in no list exactly if `t` is on none. */
    lemma FreeIff(t: Task)
      requires Valid() && t in item
      ensures Free(View(), t) <==> item[t].container == null
      ensures !Free(View(), t) ==> item[t].container in lists
    {
      hide Linked, NoDuplicates, Mine, List.Valid, Separate;
      Where(t);
      assert Homed(item[t]);
    }

    lemma Within()
      requires Valid()
      ensures Separate() && (forall l :: l in lists ==> l in repr) && (forall x :: x in Nodes() ==> x in repr)
    {
    }

    lemma OneList(i: nat, t: Task)
      requires Valid() && i < |lists|
      ensures WellFormed(View()[i]) && NoDuplicates(View()[i].items)
      ensures t in View()[i].items ==> t in item && item[t].container == lists[i]
    {
      hide Linked, NoDuplicates, Homed, Separate;
      Apart(i);
      Known(lists[i]);
      if t in View()[i].items {
        var k :| 0 <= k < |lists[i].items| && Owners(lists[i].items)[k] == t;
        assert lists[i].items[k] in lists[i].items;
      }
    }

    /** Every list is well formed, and a task is on one list at most. */
    lemma Lists()
      requires Valid()
      ensures OneEach(View(), item.Keys)
    {
      Within();
      hide Valid, Separate;
      var v := View();
      forall i | 0 <= i < |v| ensures WellFormed(v[i]) && NoDuplicates(v[i].items) { OneList(i, 0); }
      forall i, t | 0 <= i < |v| && t in v[i].items ensures t in item.Keys { OneList(i, t); }
      forall i, j, t | 0 <= i < |v| && 0 <= j < |v| && t in v[i].items && t in v[j].items ensures i == j {
        Apart(i);
        OneList(i, t);
        OneList(j, t);
      }
    }

    method Append(i: nat, t: Task)
      requires Valid() && i < |lists| && t in item && Free(View(), t)
      modifies repr
      ensures Valid() && Values() == old(Values())
      ensures WellFormed(old(View())[i]) && View() == old(View())[i := Rings.InsertEnd(old(View())[i], t)]
    {
      hide Valid, Owners, Free;
      FreeIff(t);
      Within();
      AppendTo(i, t);
    }

    method Insert(i: nat, t: Task)
      requires Valid() && i < |lists| && t in item && Free(View(), t)
      modifies repr
      ensures Valid() && Values() == old(Values())
      ensures View() == old(View())[i := View()[i]] && (old(View())[i].index == 0 ==> View()[i].index == 0)
      ensures View()[i].items == InsertSorted(old(View())[i].items, t, Values())
    {
      hide Valid, Owners, Free, InsertSorted;
      FreeIff(t);
      Within();
      InsertTo(i, t);
    }

    method Remove(t: Task) returns (left: nat, ghost i: nat)
      requires Valid() && t in item && !Free(View(), t)
      modifies repr
      ensures Valid() && Values() == old(Values())
      ensures i < |lists| && t in old(View())[i].items && left == |View()[i].items|
      ensures WellFormed(old(View())[i]) && View() == old(View())[i := Rings.Drop(old(View())[i], t)]
    {
      hide Valid, Owners, Free, Rings.Drop;
      FreeIff(t);
      Within();
      left, i := RemoveFrom(t);
    }

    method Advance(i: nat) returns (t: Task)
      requires Valid() && i < |lists| && View()[i].items != []
      modifies repr
      ensures Valid() && Values() == old(Values()) && WellFormed(old(View())[i])
      ensures View() == old(View())[i := Rings.Advance(old(View())[i])] && t == Owner(View()[i])
    {
      hide Valid, Owners, Rings.Advance;
      Within();
      t := AdvanceIn(i);
    }

    method Head(i: nat) returns (t: Task, v: nat)
      requires Valid() && i < |lists| && View()[i].items != []
      ensures t == View()[i].items[0] && t in item && v == At(Values(), t)
    {
      hide Valid, Owners;
      t, v := HeadOf(i);
    }

    method Length(i: nat) returns (n: nat)
      requires Valid() && i < |lists|
      ensures n == |View()[i].items|
    {
      hide Valid, Owners;
      n := LengthOf(i);
    }

    /** listSET_LIST_ITEM_VALUE */
    method Set(t: Task, v: nat)
      requires Valid() && t in item && v <= MAX_DELAY
      modifies repr
      ensures Valid() && View() == old(View()) && Values() == old(Values())[t := v]
    {
      hide Valid, Owners;
      Within();
      SetValue(t, v);
    }

    /** listGET_LIST_ITEM_VALUE */
    method ValueOf(t: Task) returns (v: nat)
      requires Valid() && t in item
      ensures v == At(Values(), t) <= MAX_DELAY
    {
      hide Linked, NoDuplicates, Mine, Homed, List.Valid;
      v := item[t].value;
    }

    /** listLIST_ITEM_CONTAINER is not NULL. */
    method Listed(t: Task) returns (found: bool)
      requires Valid() && t in item
      ensures found <==> !Free(View(), t)
    {
      hide Valid, Owners, Free;
      FreeIff(t);
      found := item[t].container != null;
    }

    /** listIS_CONTAINED_WITHIN */
    method Contains(i: nat, t: Task) returns (found: bool)
      requires Valid() && i < |lists| && t in item
      ensures found <==> t in View()[i].items
    {
      hide Valid, Owners;
      Where(t);
      found := item[t].container == lists[i];
    }
  }
}
