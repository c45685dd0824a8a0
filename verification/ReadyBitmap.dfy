/** The ready priorities kept as bits of a 32-bit word (portmacro.h), and the two
    ways tasks.c has of finding the most urgent ready list. */
module ReadyBitmap {
  import opened Scheduler

  /** `1UL << p` for the priorities of this configuration, spelled out. */
  function Mask(p: nat): bv32
    requires p < MAX_PRIORITIES
  {
    if p == 0 then 1 else if p == 1 then 2 else if p == 2 then 4 else if p == 3 then 8 else 16
  }

  lemma MaskIsShift(p: nat)
    requires p < MAX_PRIORITIES
    ensures Mask(p) == (1 as bv32) << p
  {
  }

  function Masked(w: bv32, mask: bv32): bv32 { w & mask }

  predicate Bit(w: bv32, p: nat) { p < MAX_PRIORITIES && Masked(w, Mask(p)) != 0 }

  /** The priorities recorded in the word. */
  ghost function Recorded(w: bv32): set<nat> { set p: nat | p < MAX_PRIORITIES && Bit(w, p) }

  /** No bit above those of the priorities. */
  predicate Fits(w: bv32) { w < 32 }

  function SetBits(w: bv32, mask: bv32): bv32 { w | mask }

  function ClearBits(w: bv32, mask: bv32): bv32 { w & !mask }

  /** portRECORD_READY_PRIORITY */
  function Record(w: bv32, p: nat): bv32
    requires p < MAX_PRIORITIES
  {
    SetBits(w, Mask(p))
  }

  /** portRESET_READY_PRIORITY */
  function Reset(w: bv32, p: nat): bv32
    requires p < MAX_PRIORITIES
  {
    ClearBits(w, Mask(p))
  }

  lemma OtherBit(w: bv32, m: bv32, n: bv32)
    requires m & n == 0
    ensures Masked(SetBits(w, m), n) == Masked(w, n)
    ensures Masked(ClearBits(w, m), n) == Masked(w, n)
  {
    Apart(w, m, n);
  }

  lemma Apart(w: bv32, m: bv32, n: bv32)
    requires m & n == 0
    ensures (w | m) & n == w & n && (w & !m) & n == w & n
  {
  }

  lemma SameBit(w: bv32, m: bv32)
    ensures Masked(SetBits(w, m), m) == m && Masked(ClearBits(w, m), m) == 0
  {
  }

  lemma MasksApart(p: nat, q: nat)
    requires p < MAX_PRIORITIES && q < MAX_PRIORITIES
    ensures Mask(p) != 0 && (p != q ==> Mask(p) & Mask(q) == 0)
  {
  }

  /** Recording or resetting one priority leaves the other bits alone. */
  lemma OneBit(w: bv32, p: nat, q: nat)
    requires p < MAX_PRIORITIES && q < MAX_PRIORITIES
    ensures Bit(Record(w, p), q) <==> p == q || Bit(w, q)
    ensures Bit(Reset(w, p), q) <==> p != q && Bit(w, q)
  {
    hide Mask, Masked, SetBits, ClearBits;
    MasksApart(p, q);
    if p == q { SameBit(w, Mask(p)); } else { OtherBit(w, Mask(p), Mask(q)); }
  }

  lemma StillFits(w: bv32, p: nat)
    requires p < MAX_PRIORITIES && Fits(w)
    ensures Fits(Record(w, p)) && Fits(Reset(w, p))
  {
  }

  /** The word behaves as the set of priorities recorded in it. */
  lemma RecordedSet(w: bv32, p: nat)
    requires p < MAX_PRIORITIES
    ensures Recorded(Record(w, p)) == Recorded(w) + {p}
    ensures Recorded(Reset(w, p)) == Recorded(w) - {p}
  {
    hide Bit, Record, Reset;
    forall q: nat | q < MAX_PRIORITIES
      ensures (Bit(Record(w, p), q) <==> p == q || Bit(w, q)) && (Bit(Reset(w, p), q) <==> p != q && Bit(w, q))
    {
      OneBit(w, p, q);
    }
  }

  /** Number of significant bits; the CLZ instruction returns 32 less this. */
  function BitLength(w: bv32): nat
    decreases w
  {
    if w == 0 then 0 else 1 + BitLength(w >> 1)
  }

  function CountLeadingZeros(w: bv32): int { 32 - BitLength(w) }

  lemma {:induction false} LengthOf(w: bv32, p: nat)
    requires p < MAX_PRIORITIES && Mask(p) <= w < 2 * Mask(p)
    ensures BitLength(w) == p + 1
    decreases p
  {
    if p > 0 {
      LengthOf(w >> 1, p - 1);
    }
  }

  lemma HighestBit(w: bv32, p: nat, q: nat)
    requires p < MAX_PRIORITIES && Mask(p) <= w < 2 * Mask(p) && q < MAX_PRIORITIES
    ensures Bit(w, p) && (Bit(w, q) ==> q <= p)
  {
  }

  lemma TopBit(w: bv32) returns (p: nat)
    requires Fits(w) && w != 0
    ensures p < MAX_PRIORITIES && Mask(p) <= w < 2 * Mask(p)
  {
    p := if w < 2 then 0 else if w < 4 then 1 else if w < 8 then 2 else if w < 16 then 3 else 4;
  }

  /** portGET_HIGHEST_PRIORITY finds the largest priority recorded. */
  lemma GetHighest(w: bv32)
    requires Fits(w) && w != 0
    ensures var p := 31 - CountLeadingZeros(w);
            0 <= p < MAX_PRIORITIES && Bit(w, p) && forall q: nat :: q < MAX_PRIORITIES && Bit(w, q) ==> q <= p
  {
    var p := TopBit(w);
    LengthOf(w, p);
    HighestBit(w, p, p);
    forall q: nat | q < MAX_PRIORITIES && Bit(w, q) ensures q <= p {
      HighestBit(w, p, q);
    }
    hide Bit, Mask;
  }

  lemma ZeroRecordsNone(p: nat)
    ensures !Bit(0, p)
  {
  }

  /** The port's choice is the largest element of the recorded set. */
  lemma HighestRecorded(w: bv32, q: nat)
    requires Fits(w) && q in Recorded(w)
    ensures w != 0 && 31 - CountLeadingZeros(w) == Highest(Recorded(w), MAX_PRIORITIES)
  {
    hide Bit, CountLeadingZeros, Fits;
    ZeroRecordsNone(q);
    GetHighest(w);
    var p, h := 31 - CountLeadingZeros(w), Highest(Recorded(w), MAX_PRIORITIES);
    assert p in Recorded(w) && h in Recorded(w);
  }

  lemma NothingRecorded()
    ensures Recorded(0) == {} && Fits(0)
  {
    forall p: nat | p < MAX_PRIORITIES ensures !Bit(0, p) { ZeroRecordsNone(p); }
  }
}
