/** The 32-bit task masks of the semaphore and the mutex, read as sets of task ids. */
module TaskMask {

  const MAX_TASKS: nat := 32

  /** The mask of one task: 1 doubled `id` times, which `BitIsTheShift` equates with `1UL << id`. */
  function Bit(id: nat): bv32
    requires id < MAX_TASKS
  {
    if id == 0 then 1 else Bit(id - 1) + Bit(id - 1)
  }

  predicate Has(mask: bv32, id: nat)
    requires id < MAX_TASKS
  {
    mask & Bit(id) != 0
  }

  function Members(mask: bv32): set<nat> {
    set id: nat | id < MAX_TASKS && Has(mask, id)
  }

  /** `(mask & task_mask) != 0U` */
  method Test(mask: bv32, id: nat) returns (present: bool)
    requires id < MAX_TASKS
    ensures present <==> id in Members(mask)
  {
    present := mask & Bit(id) != 0;
  }

  /** `mask |= task_mask` */
  method With(mask: bv32, id: nat) returns (mask': bv32)
    requires id < MAX_TASKS
    ensures Members(mask') == Members(mask) + {id}
  {
    var bit := Bit(id);
    mask' := mask | bit;
    forall j: nat | j < MAX_TASKS
      ensures Has(mask', j) <==> Has(mask, j) || j == id
    {
      if j == id {
        SetSame(mask, id, bit, mask');
      } else {
        SetOther(mask, id, j, bit, Bit(j), mask');
      }
    }
  }

  /** `mask &= ~task_mask` */
  method Without(mask: bv32, id: nat) returns (mask': bv32)
    requires id < MAX_TASKS
    ensures Members(mask') == Members(mask) - {id}
  {
    var bit := Bit(id);
    mask' := mask & !bit;
    forall j: nat | j < MAX_TASKS
      ensures Has(mask', j) <==> Has(mask, j) && j != id
    {
      if j == id {
        ClearSame(mask, id, bit, mask');
      } else {
        ClearOther(mask, id, j, bit, Bit(j), mask');
      }
    }
  }

  lemma ZeroIsEmpty()
    ensures Members(0) == {}
  {
  }

  // ---------------------------------------------------------------------------
  // Bits
  // ---------------------------------------------------------------------------

  lemma {:induction false} BitIsTheShift(id: nat)
    requires id < MAX_TASKS
    ensures Bit(id) == (1 as bv32) << id
  {
    if id == 0 {
    } else {
      BitIsTheShift(id - 1);
      ShiftDoubles(id);
    }
  }

  lemma ShiftDoubles(id: nat)
    requires 0 < id < MAX_TASKS
    ensures ((1 as bv32) << (id - 1)) + ((1 as bv32) << (id - 1)) == (1 as bv32) << id
  {
  }

  lemma {:induction false} BitIsNotZero(id: nat)
    requires id < MAX_TASKS
    ensures Bit(id) != 0
    decreases MAX_TASKS - id
  {
    if id < MAX_TASKS - 1 {
      BitIsNotZero(id + 1);
    } else {
      HighestBit();
    }
  }

  lemma HighestBit()
    ensures Bit(31) == 0x8000_0000
  {
    assert Bit(8) == 0x100;
    assert Bit(16) == 0x1_0000;
    assert Bit(24) == 0x100_0000;
  }

  lemma {:induction false} BitsAreIndependent(i: nat, j: nat)
    requires i < j < MAX_TASKS
    ensures Bit(i) & Bit(j) == 0
  {
    if i == 0 {
      LowestBitOfDouble(Bit(j - 1));
    } else {
      BitsAreIndependent(i - 1, j - 1);
      DoublesStayApart(Bit(i - 1), Bit(j - 1));
    }
  }

  lemma SetSame(mask: bv32, id: nat, b: bv32, mask': bv32)
    requires id < MAX_TASKS && b == Bit(id) && mask' == mask | b
    ensures Has(mask', id)
  {
    BitIsNotZero(id);
    OrSame(mask, b);
  }

  lemma SetOther(mask: bv32, id: nat, j: nat, b: bv32, c: bv32, mask': bv32)
    requires id < MAX_TASKS && j < MAX_TASKS && id != j && b == Bit(id) && c == Bit(j)
    requires mask' == mask | b
    ensures Has(mask', j) <==> Has(mask, j)
  {
    assert mask' & c == mask & c by {
      TwoBits(id, j, b, c);
      OrOther(mask, b, c);
    }
    SameTest(mask, j, c, mask');
  }

  lemma ClearSame(mask: bv32, id: nat, b: bv32, mask': bv32)
    requires id < MAX_TASKS && b == Bit(id) && mask' == mask & !b
    ensures !Has(mask', id)
  {
  }

  lemma ClearOther(mask: bv32, id: nat, j: nat, b: bv32, c: bv32, mask': bv32)
    requires id < MAX_TASKS && j < MAX_TASKS && id != j && b == Bit(id) && c == Bit(j)
    requires mask' == mask & !b
    ensures Has(mask', j) <==> Has(mask, j)
  {
    assert mask' & c == mask & c by {
      TwoBits(id, j, b, c);
      AndNotOther(mask, b, c);
    }
    SameTest(mask, j, c, mask');
  }

  lemma SameTest(mask: bv32, j: nat, c: bv32, mask': bv32)
    requires j < MAX_TASKS && c == Bit(j)
    requires mask' & c == mask & c
    ensures Has(mask', j) <==> Has(mask, j)
  {
  }

  lemma TwoBits(i: nat, j: nat, b: bv32, c: bv32)
    requires i < MAX_TASKS && j < MAX_TASKS && i != j && b == Bit(i) && c == Bit(j)
    ensures b & c == 0
  {
    if i < j {
      BitsAreIndependent(i, j);
    } else {
      BitsAreIndependent(j, i);
    }
  }

  lemma LowestBitOfDouble(b: bv32)
    ensures 1 & (b + b) == 0
  {
  }

  lemma DoublesStayApart(b: bv32, c: bv32)
    requires b & c == 0
    ensures (b + b) & (c + c) == 0
  {
  }

  lemma OrSame(m: bv32, b: bv32)
    ensures (m | b) & b == b
  {
  }

  lemma OrOther(m: bv32, b: bv32, c: bv32)
    requires b & c == 0
    ensures (m | b) & c == m & c
  {
  }

  lemma AndNotOther(m: bv32, b: bv32, c: bv32)
    requires b & c == 0
    ensures (m & !b) & c == m & c
  {
  }

}
