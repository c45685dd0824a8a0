/** The transmit and receive descriptor rings shared by the CPU and the Ethernet DMA.
    The DMA takes descriptors in ring order and touches only those it owns. */
module EthernetRings {
  import opened Basics
  import opened Arithmetic

  type Frame = seq<Byte>

  const BUFFER_SIZE: nat := 1536   // ETHERNET_BUFFER_SIZE
  const CRC_SIZE: nat := 4

  /** Items lo .. hi-1 of a history lie in the slots of a ring, each at its number
      modulo the ring size; `mine` marks exactly their slots. */
  ghost predicate Window<T>(slots: seq<T>, mine: seq<bool>, history: seq<T>, lo: nat) {
    && 0 < |slots| == |mine| && lo <= |history| <= lo + |slots|
    && (forall i :: lo <= i < |history| ==> mine[i % |slots|] && slots[i % |slots|] == history[i])
    && (forall i :: |history| <= i < lo + |slots| ==> !mine[i % |slots|])
  }

  /** Filling the next free slot extends the window. */
  lemma Fill<T>(slots: seq<T>, mine: seq<bool>, history: seq<T>, lo: nat, x: T)
    requires Window(slots, mine, history, lo) && !mine[|history| % |slots|]
    ensures |history| < lo + |slots|
    ensures var k := |history| % |slots|; Window(slots[k := x], mine[k := true], history + [x], lo)
  {
    var n, h := |slots|, |history|;
    if h == lo + n {
      NextTurn(lo, n);
    } else {
      var k, slots', mine' := h % n, slots[h % n := x], mine[h % n := true];
      forall i | lo <= i < h ensures mine'[i % n] && slots'[i % n] == history[i] {
        DistinctMod(i, h, n);
      }
      forall i | h + 1 <= i < lo + n ensures !mine'[i % n] {
        DistinctMod(h, i, n);
      }
    }
  }

  /** The slot at the lower end is marked exactly while something is in the window. */
  lemma Oldest<T>(slots: seq<T>, mine: seq<bool>, history: seq<T>, lo: nat)
    requires Window(slots, mine, history, lo)
    ensures mine[lo % |slots|] <==> lo < |history|
  {
    if lo < |history| { assert mine[lo % |slots|]; } else { assert !mine[lo % |slots|]; }
  }

  /** The next slot to fill is marked exactly while the ring is full. */
  lemma Newest<T>(slots: seq<T>, mine: seq<bool>, history: seq<T>, lo: nat)
    requires Window(slots, mine, history, lo)
    ensures mine[|history| % |slots|] <==> |history| == lo + |slots|
    ensures lo <= |history| <= lo + |slots|
  {
    if |history| == lo + |slots| {
      NextTurn(lo, |slots|);
      assert mine[lo % |slots|];
    } else {
      assert !mine[|history| % |slots|];
    }
  }

  lemma NextTurn(i: nat, n: nat)
    requires n > 0
    ensures (i + n) % n == i % n
  {
    Remainder(i + n, n, i / n + 1, i % n);
  }

  /** Emptying the oldest slot shortens it from below. */
  lemma Empty<T>(slots: seq<T>, mine: seq<bool>, history: seq<T>, lo: nat)
    requires Window(slots, mine, history, lo) && mine[lo % |slots|]
    ensures lo < |history| && slots[lo % |slots|] == history[lo]
    ensures Window(slots, mine[lo % |slots| := false], history, lo + 1)
  {
    var n := |slots|;
    if lo < |history| {
      var mine' := mine[lo % n := false];
      forall i | lo + 1 <= i < |history| ensures mine'[i % n] {
        DistinctMod(lo, i, n);
      }
      NextTurn(lo, n);
    }
  }

  /** Writing to a slot outside the window disturbs nothing in it. */
  lemma Scribble<T>(slots: seq<T>, mine: seq<bool>, history: seq<T>, lo: nat, k: nat, x: T)
    requires Window(slots, mine, history, lo) && k < |slots| && !mine[k]
    ensures Window(slots[k := x], mine, history, lo)
  {
  }

  lemma Step(i: nat, n: nat)
    requires n > 0
    ensures (i % n + 1) % n == (i + 1) % n
  {
    if n == 1 {
      Remainder(i + 1, 1, i + 1, 0);
      Remainder(i % 1 + 1, 1, i % 1 + 1, 0);
    } else {
      AddMod(i, 1, n);
      AddMod(i % n, 1, n);
      Remainder(i % n, n, 0, i % n);
    }
  }
}
