/** The bits of a 32-bit value, and what setting and clearing some does to one of them. */
module WordBits {
  import opened Ticks

  function ToWord(v: nat): bv32
    requires v < WRAP
  {
    v as bv32
  }

  function FromWord(b: bv32): (v: nat)
    ensures v < WRAP
  {
    b as nat
  }

  function Join(a: bv32, b: bv32): bv32 { a | b }

  function Cut(a: bv32, b: bv32): bv32 { a & !b }

  function Or(v: nat, x: nat): (r: nat)
    requires v < WRAP && x < WRAP
    ensures r < WRAP
  {
    FromWord(Join(ToWord(v), ToWord(x)))
  }

  function ClearBits(v: nat, x: nat): (r: nat)
    requires v < WRAP && x < WRAP
    ensures r < WRAP
  {
    FromWord(Cut(ToWord(v), ToWord(x)))
  }

  predicate Hit(b: bv32, flag: bv32) { b & flag != 0 }

  /** A single bit. */
  predicate IsFlag(flag: bv32) { flag != 0 && flag & (flag - 1) == 0 }

  predicate Up(v: nat, flag: bv32) { v < WRAP && Hit(ToWord(v), flag) }

  lemma BackAndForth(b: bv32)
    ensures ToWord(FromWord(b)) == b
  {
  }

  lemma JoinMissed(a: bv32, b: bv32, flag: bv32)
    requires a & flag == 0 && b & flag == 0
    ensures Join(a, b) & flag == 0
  {
  }

  lemma JoinMore(a: bv32, b: bv32, flag: bv32)
    requires Join(a, b) & flag == 0
    ensures a & flag == 0 && b & flag == 0
  {
  }

  lemma JoinHits(a: bv32, b: bv32, flag: bv32)
    ensures Hit(Join(a, b), flag) <==> Hit(a, flag) || Hit(b, flag)
  {
    hide Join;
    if Hit(Join(a, b), flag) {
      if !Hit(a, flag) && !Hit(b, flag) { JoinMissed(a, b, flag); }
    } else {
      JoinMore(a, b, flag);
    }
  }

  lemma AllOrNothing(b: bv32, flag: bv32)
    requires IsFlag(flag) && Hit(b, flag)
    ensures b & flag == flag
  {
  }

  lemma CutSome(a: bv32, b: bv32, flag: bv32)
    requires b & flag == flag
    ensures Cut(a, b) & flag == 0
  {
  }

  lemma CutNone(a: bv32, b: bv32, flag: bv32)
    requires b & flag == 0
    ensures Cut(a, b) & flag == a & flag
  {
  }

  lemma CutHits(a: bv32, b: bv32, flag: bv32)
    requires IsFlag(flag)
    ensures Hit(Cut(a, b), flag) <==> Hit(a, flag) && !Hit(b, flag)
  {
    hide IsFlag, Cut;
    if Hit(b, flag) {
      AllOrNothing(b, flag);
      CutSome(a, b, flag);
    } else {
      CutNone(a, b, flag);
    }
  }

  lemma FlagOf(v: nat, x: nat, flag: bv32)
    requires v < WRAP && x < WRAP && IsFlag(flag)
    ensures Up(Or(v, x), flag) <==> Up(v, flag) || Up(x, flag)
    ensures Up(ClearBits(v, x), flag) <==> Up(v, flag) && !Up(x, flag)
  {
    hide IsFlag, Hit, Join, Cut, FromWord, ToWord;
    BackAndForth(Join(ToWord(v), ToWord(x)));
    BackAndForth(Cut(ToWord(v), ToWord(x)));
    JoinHits(ToWord(v), ToWord(x), flag);
    CutHits(ToWord(v), ToWord(x), flag);
  }

  lemma NoneUp(flag: bv32)
    ensures !Up(0, flag)
  {
  }
}
