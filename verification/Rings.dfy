/** List_t seen as a value: the members in pxNext order from the end marker,
    and the position of pxIndex.  Index 0 is the end marker, index k > 0 is
    member k - 1.  The heap lists of IntrusiveList refine these functions, and
    the kernel model builds on them. */
module Rings {

  datatype Ring<T> = Ring(items: seq<T>, index: nat)

  ghost predicate WellFormed<T>(r: Ring<T>) {
    r.index <= |r.items|
  }

  /** listGET_OWNER_OF_NEXT_ENTRY returns the members in this order. */
  function VisitOrder<T>(r: Ring<T>): (order: seq<T>)
    requires WellFormed(r)
    ensures |order| == |r.items|
  {
    r.items[r.index..] + r.items[..r.index]
  }

  /** The members with `x` put in at position k; pxIndex keeps its member. */
  function InsertAt<T>(r: Ring<T>, k: nat, x: T): (r': Ring<T>)
    requires WellFormed(r) && k <= |r.items|
    ensures WellFormed(r')
  {
    Ring(r.items[..k] + [x] + r.items[k..], if r.index > k then r.index + 1 else r.index)
  }

  /** vListInsertEnd: just before the member pxIndex rests on. */
  function InsertEnd<T>(r: Ring<T>, x: T): (r': Ring<T>)
    requires WellFormed(r)
    ensures WellFormed(r')
  {
    InsertAt(r, if r.index == 0 then |r.items| else r.index - 1, x)
  }

  /** uxListRemove of member k: a pxIndex resting on it steps back. */
  function RemoveAt<T>(r: Ring<T>, k: nat): (r': Ring<T>)
    requires WellFormed(r) && k < |r.items|
    ensures WellFormed(r')
  {
    Ring(r.items[..k] + r.items[k+1..], if r.index > k then r.index - 1 else r.index)
  }

  /** listGET_OWNER_OF_NEXT_ENTRY: one step of pxIndex, skipping the end marker. */
  function Advance<T>(r: Ring<T>): (r': Ring<T>)
    requires WellFormed(r) && r.items != []
    ensures WellFormed(r') && r'.items == r.items && r'.index > 0
  {
    r.(index := if r.index == |r.items| then 1 else r.index + 1)
  }

  function Owner<T>(r: Ring<T>): (x: T)
    requires WellFormed(r) && r.index > 0
    ensures x in r.items
  {
    r.items[r.index - 1]
  }

  /** The owners returned by n successive next-entry steps. */
  function Visits<T>(r: Ring<T>, n: nat): (owners: seq<T>)
    requires WellFormed(r) && r.items != []
    ensures |owners| == n
    decreases n
  {
    if n == 0 then [] else [Owner(Advance(r))] + Visits(Advance(r), n - 1)
  }

  lemma AdvanceRotates<T>(r: Ring<T>)
    requires WellFormed(r) && r.items != []
    ensures Owner(Advance(r)) == VisitOrder(r)[0]
    ensures VisitOrder(Advance(r)) == VisitOrder(r)[1..] + VisitOrder(r)[..1]
  {
    if r.index == |r.items| {
      assert r.items[..1] == [r.items[0]];
    } else {
      assert r.items[..r.index+1] == r.items[..r.index] + [r.items[r.index]];
    }
  }

  /** Any n steps return the first n entries of the visiting order, wrapping round. */
  lemma {:induction false} VisitsFollowOrder<T>(r: Ring<T>, n: nat)
    requires WellFormed(r) && r.items != [] && n <= |r.items|
    ensures Visits(r, n) == VisitOrder(r)[..n]
    decreases n
  {
    if n > 0 {
      AdvanceRotates(r);
      VisitsFollowOrder(Advance(r), n - 1);
      var o := VisitOrder(r);
      assert VisitOrder(Advance(r))[..n-1] == o[1..n];
    }
  }

  /** Time slicing is fair: as many steps as members visit every member exactly
      as often as it is on the list. */
  lemma EachMemberOnce<T>(r: Ring<T>)
    requires WellFormed(r) && r.items != []
    ensures multiset(Visits(r, |r.items|)) == multiset(r.items)
  {
    hide Visits;
    VisitsFollowOrder(r, |r.items|);
    assert VisitOrder(r)[..|r.items|] == VisitOrder(r);
    Rotated(r.items, r.index);
  }

  lemma Rotated<T>(s: seq<T>, k: nat)
    requires k <= |s|
    ensures multiset(s[k..] + s[..k]) == multiset(s)
  {
    assert s == s[..k] + s[k..];
  }

  /** The new member is visited after all the others but the one pxIndex rests
      on, which stays the last of the round. */
  lemma InsertEndOrder<T>(r: Ring<T>, x: T)
    requires WellFormed(r)
    ensures var o := VisitOrder(r); var o' := VisitOrder(InsertEnd(r, x));
            if r.index == 0 then o' == o + [x]
            else o' == o[..|o|-1] + [x] + [Owner(r)] && o[|o|-1] == Owner(r)
  {
    var r' := InsertEnd(r, x);
    if r.index > 0 {
      var i := r.index;
      assert r'.items[i+1..] == r.items[i..];
      assert r'.items[..i+1] == r.items[..i-1] + [x] + [r.items[i-1]];
    }
  }

  /** The header promises that an end-inserted item is the last one returned.
      That holds exactly when pxIndex is on the end marker, or on a member equal
      to the new one. */
  lemma InsertEndIsLastIff<T>(r: Ring<T>, x: T)
    requires WellFormed(r)
    ensures VisitOrder(InsertEnd(r, x))[|r.items|] == x <==> r.index == 0 || Owner(r) == x
  {
    InsertEndOrder(r, x);
  }

  /** With pxIndex on 1, the new member 3 comes before it: 2, 3, 1. */
  lemma InsertEndNotLast()
    ensures VisitOrder(InsertEnd(Ring([1, 2], 1), 3)) == [2, 3, 1]
  {
  }

  lemma RemoveAhead<T>(r: Ring<T>, k: nat)
    requires WellFormed(r) && r.index <= k < |r.items|
    ensures var o, j := VisitOrder(r), k - r.index;
            o[j] == r.items[k] && VisitOrder(RemoveAt(r, k)) == o[..j] + o[j+1..]
  {
    var r' := RemoveAt(r, k);
    assert r'.items[r.index..] == r.items[r.index..k] + r.items[k+1..];
    assert r'.items[..r.index] == r.items[..r.index];
  }

  lemma RemoveBehind<T>(r: Ring<T>, k: nat)
    requires WellFormed(r) && k < r.index
    ensures var o, j := VisitOrder(r), k + |r.items| - r.index;
            o[j] == r.items[k] && VisitOrder(RemoveAt(r, k)) == o[..j] + o[j+1..]
  {
    var r' := RemoveAt(r, k);
    assert r'.items[r.index-1..] == r.items[r.index..];
    assert r'.items[..r.index-1] == r.items[..k] + r.items[k+1..r.index];
  }

  /** Removal keeps the visiting order of the rest, wherever pxIndex rests. */
  lemma RemoveKeepsOrder<T>(r: Ring<T>, k: nat)
    requires WellFormed(r) && k < |r.items|
    ensures exists j :: 0 <= j < |r.items| && VisitOrder(r)[j] == r.items[k]
              && VisitOrder(RemoveAt(r, k)) == VisitOrder(r)[..j] + VisitOrder(r)[j+1..]
  {
    if k >= r.index { RemoveAhead(r, k); } else { RemoveBehind(r, k); }
  }

  // ------------------------------------------------- membership and sorting

  ghost predicate NoDuplicates<T>(s: seq<T>) {
    forall i, j :: 0 <= i < j < |s| ==> s[i] != s[j]
  }

  function IndexOf<T(==)>(s: seq<T>, x: T): (k: nat)
    requires x in s
    ensures k < |s| && s[k] == x
  {
    if s[0] == x then 0 else 1 + IndexOf(s[1..], x)
  }

  lemma CutAt<T>(s: seq<T>, k: nat)
    requires NoDuplicates(s) && k < |s|
    ensures NoDuplicates(s[..k] + s[k+1..])
    ensures forall y :: y in s[..k] + s[k+1..] <==> y != s[k] && y in s
  {
    var t := s[..k] + s[k+1..];
    assert forall a :: 0 <= a < k ==> t[a] == s[a];
    assert forall a :: k <= a < |t| ==> t[a] == s[a+1];
    assert s == s[..k] + [s[k]] + s[k+1..];
  }

  lemma SpliceAt<T>(s: seq<T>, k: nat, x: T)
    requires NoDuplicates(s) && k <= |s| && x !in s
    ensures NoDuplicates(s[..k] + [x] + s[k..])
    ensures forall y :: y in s[..k] + [x] + s[k..] <==> y == x || y in s
  {
    var t := s[..k] + [x] + s[k..];
    forall i, j | 0 <= i < j < |t| ensures t[i] != t[j] {
      assert i != k ==> t[i] == s[if i < k then i else i - 1];
      assert j != k ==> t[j] == s[if j < k then j else j - 1];
    }
    forall y | y in s ensures y in t {
      var i :| 0 <= i < |s| && s[i] == y;
      assert t[if i < k then i else i + 1] == y;
    }
  }

  /** uxListRemove of a member wherever it is; no change for a non-member. */
  function Drop<T(==)>(r: Ring<T>, x: T): (r': Ring<T>)
    requires WellFormed(r)
    ensures WellFormed(r')
  {
    if x in r.items then RemoveAt(r, IndexOf(r.items, x)) else r
  }

  function Without<T(==)>(s: seq<T>, x: T): (s': seq<T>)
  {
    if x in s then var k := IndexOf(s, x); s[..k] + s[k+1..] else s
  }

  function At<T(==)>(value: map<T, nat>, x: T): nat {
    if x in value then value[x] else 0
  }

  ghost predicate Sorted<T>(s: seq<T>, value: map<T, nat>) {
    forall i, j :: 0 <= i < j < |s| ==> At(value, s[i]) <= At(value, s[j])
  }

  /** Where vListInsert stops: before the first member with a larger value. */
  function InsertPosition<T(==)>(s: seq<T>, value: map<T, nat>, v: nat): (k: nat)
    ensures k <= |s|
    ensures forall i :: 0 <= i < k ==> At(value, s[i]) <= v
    ensures k < |s| ==> At(value, s[k]) > v
  {
    if s == [] || At(value, s[0]) > v then 0 else 1 + InsertPosition(s[1..], value, v)
  }

  /** vListInsert */
  function InsertSorted<T(==)>(s: seq<T>, x: T, value: map<T, nat>): (s': seq<T>) {
    var k := InsertPosition(s, value, At(value, x));
    s[..k] + [x] + s[k..]
  }

  lemma SortedSplice<T>(s: seq<T>, k: nat, x: T, value: map<T, nat>)
    requires Sorted(s, value) && k <= |s|
    requires k > 0 ==> At(value, s[k-1]) <= At(value, x)
    requires k < |s| ==> At(value, x) <= At(value, s[k])
    ensures Sorted(s[..k] + [x] + s[k..], value)
  {
    var t := s[..k] + [x] + s[k..];
    forall i, j | 0 <= i < j < |t| ensures At(value, t[i]) <= At(value, t[j]) {
      var i' := if i <= k then i else i - 1;
      var j' := if j <= k then j else j - 1;
      assert i != k ==> t[i] == s[i'];
      assert j != k ==> t[j] == s[j'];
      if i == k {
        assert At(value, s[k]) <= At(value, s[j']);
      } else if j == k {
        assert At(value, s[i']) <= At(value, s[k-1]);
      }
    }
  }

  /** On a sorted list the new member ends up after every member of smaller or
      equal value and before every member of larger value: sorted and stable. */
  lemma InsertSortedStable<T>(s: seq<T>, x: T, value: map<T, nat>)
    requires Sorted(s, value)
    ensures var k := InsertPosition(s, value, At(value, x));
            && InsertSorted(s, x, value) == s[..k] + [x] + s[k..]
            && (forall i :: 0 <= i < k ==> At(value, s[i]) <= At(value, x))
            && (forall i :: k <= i < |s| ==> At(value, s[i]) > At(value, x))
    ensures Sorted(InsertSorted(s, x, value), value)
  {
    SortedSplice(s, InsertPosition(s, value, At(value, x)), x, value);
  }

  /** The members before k have values up to `v`, the others larger ones. */
  ghost predicate Splits<T>(s: seq<T>, k: nat, v: nat, value: map<T, nat>) {
    && (forall i :: 0 <= i < k && i < |s| ==> At(value, s[i]) <= v)
    && (forall i :: k <= i < |s| ==> At(value, s[i]) > v)
  }

  /** There is only one place where the search can stop. */
  lemma InsertedAt<T>(s: seq<T>, x: T, value: map<T, nat>, k: nat)
    requires k <= |s| && (forall i :: 0 <= i < k ==> At(value, s[i]) <= At(value, x))
    requires k < |s| ==> At(value, s[k]) > At(value, x)
    ensures InsertSorted(s, x, value) == s[..k] + [x] + s[k..]
    ensures Sorted(s, value) ==> Splits(s, k, At(value, x), value) && Sorted(s[..k] + [x] + s[k..], value)
  {
    if Sorted(s, value) { InsertSortedStable(s, x, value); }
  }

  lemma CutSorted<T>(s: seq<T>, k: nat, value: map<T, nat>)
    requires Sorted(s, value) && k < |s|
    ensures Sorted(s[..k] + s[k + 1..], value)
  {
    var t := s[..k] + s[k + 1..];
    forall i, j | 0 <= i < j < |t| ensures At(value, t[i]) <= At(value, t[j]) {
      var i', j' := if i < k then i else i + 1, if j < k then j else j + 1;
      assert t[i] == s[i'] && t[j] == s[j'] && i' < j';
    }
  }

  lemma WithoutSorted<T>(s: seq<T>, x: T, value: map<T, nat>)
    requires Sorted(s, value)
    ensures Sorted(Without(s, x), value)
  {
    hide Sorted;
    if x in s { CutSorted(s, IndexOf(s, x), value); }
  }

  lemma CutCons<T>(s: seq<T>, k: nat)
    requires k + 1 < |s|
    ensures s[..k + 1] + s[k + 2..] == [s[0]] + (s[1..][..k] + s[1..][k + 1..])
  {
  }

  /** Without, element by element. */
  lemma WithoutCons<T>(s: seq<T>, x: T)
    requires s != []
    ensures Without(s, x) == if s[0] == x then s[1..] else [s[0]] + Without(s[1..], x)
  {
    assert s == [s[0]] + s[1..];
    if s[0] == x {
      assert s[..0] + s[1..] == s[1..];
    } else if x in s[1..] {
      CutCons(s, IndexOf(s[1..], x));
    }
  }

  lemma WithoutSubset<T>(s: seq<T>, x: T)
    ensures forall y :: y in Without(s, x) ==> y in s
  {
  }

  lemma WithoutMembers<T>(s: seq<T>, x: T)
    requires NoDuplicates(s)
    ensures NoDuplicates(Without(s, x))
    ensures forall y :: y in Without(s, x) <==> y != x && y in s
    ensures |Without(s, x)| == if x in s then |s| - 1 else |s|
  {
    if x in s { CutAt(s, IndexOf(s, x)); }
  }

  lemma InsertMembers<T>(s: seq<T>, x: T, value: map<T, nat>)
    requires NoDuplicates(s) && x !in s
    ensures NoDuplicates(InsertSorted(s, x, value))
    ensures forall y :: y in InsertSorted(s, x, value) <==> y == x || y in s
  {
    SpliceAt(s, InsertPosition(s, value, At(value, x)), x);
  }

  lemma DropMembers<T>(r: Ring<T>, x: T)
    requires WellFormed(r) && NoDuplicates(r.items)
    ensures NoDuplicates(Drop(r, x).items)
    ensures forall y :: y in Drop(r, x).items <==> y != x && y in r.items
  {
    if x in r.items { CutAt(r.items, IndexOf(r.items, x)); }
  }

  lemma InsertEndMembers<T>(r: Ring<T>, x: T)
    requires WellFormed(r) && NoDuplicates(r.items) && x !in r.items
    ensures NoDuplicates(InsertEnd(r, x).items)
    ensures forall y :: y in InsertEnd(r, x).items <==> y == x || y in r.items
  {
    SpliceAt(r.items, if r.index == 0 then |r.items| else r.index - 1, x);
  }
}
