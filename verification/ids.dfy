/** The store's identifier generator: a process-wide counter that every call
    increments, combined with the clock reading and a random suffix as
    `<now>-<counter>-<suffix>`. The clock reading and the suffix are
    parameters; the model proves that the counter alone makes every issued
    identifier new. */
module Ids {
  import opened Types
  import opened Decimal

  /** The identifier issued with clock reading `now`, counter value `counter`
      and random suffix `salt`. */
  function UniqueId(now: Time, counter: nat, salt: string): Id {
    NatToDecimal(now) + "-" + NatToDecimal(counter) + "-" + salt
  }

  /** Two strings that each start with a dash-free prefix followed by a dash
      split at the same place. */
  lemma SplitAtFirstDash(x1: string, r1: string, x2: string, r2: string)
    requires '-' !in x1 && '-' !in x2
    requires x1 + "-" + r1 == x2 + "-" + r2
    ensures x1 == x2 && r1 == r2
  {
    var w := x1 + "-" + r1;
    DashPosition(x1, r1, x2, r2);
    DashPosition(x2, r2, x1, r1);
    assert x1 == w[..|x1|] == x2;
    assert r1 == w[|x1| + 1..] == r2;
  }

  /** Where the first string has its dash, a longer prefix of the second one
      has a dash too. */
  lemma DashPosition(x1: string, r1: string, x2: string, r2: string)
    requires x1 + "-" + r1 == x2 + "-" + r2
    ensures |x1| < |x2| ==> x2[|x1|] == '-'
  {
    if |x1| < |x2| {
      var w := x1 + "-" + r1;
      assert w[|x1|] == '-';
    }
  }

  lemma NoDashInDecimal(n: nat)
    ensures '-' !in NatToDecimal(n)
  {
    assert !IsDigit('-');
  }

  /** An issued identifier determines the clock reading, the counter value and
      the suffix it was built from. */
  lemma UniqueIdInjective(t1: Time, c1: nat, s1: string, t2: Time, c2: nat, s2: string)
    requires UniqueId(t1, c1, s1) == UniqueId(t2, c2, s2)
    ensures t1 == t2 && c1 == c2 && s1 == s2
  {
    NoDashInDecimal(t1);
    NoDashInDecimal(t2);
    NoDashInDecimal(c1);
    NoDashInDecimal(c2);
    assert UniqueId(t1, c1, s1) == NatToDecimal(t1) + "-" + (NatToDecimal(c1) + "-" + s1);
    assert UniqueId(t2, c2, s2) == NatToDecimal(t2) + "-" + (NatToDecimal(c2) + "-" + s2);
    SplitAtFirstDash(NatToDecimal(t1), NatToDecimal(c1) + "-" + s1, NatToDecimal(t2), NatToDecimal(c2) + "-" + s2);
    SplitAtFirstDash(NatToDecimal(c1), s1, NatToDecimal(c2), s2);
    NatToDecimalInjective(t1, t2);
    NatToDecimalInjective(c1, c2);
  }

  /** The module-level counter behind `generateUniqueId`. `issued` records
      every identifier handed out so far. */
  class IdGenerator {
    var counter: nat
    ghost var issued: set<Id>

    /** Every issued identifier carries a counter value no larger than the
        current one. */
    ghost predicate Valid()
      reads this
    {
      forall t: Time, c: nat, s: string :: UniqueId(t, c, s) in issued ==> c <= counter
    }

    constructor ()
      ensures Valid() && counter == 0 && issued == {}
    {
      counter := 0;
      issued := {};
    }

    /** `generateUniqueId`: pre-increments the counter and builds the
        identifier from the clock reading, the new counter and the suffix. */
    method Next(now: Time, salt: string) returns (id: Id)
      requires Valid()
      modifies this
      ensures Valid()
      ensures counter == old(counter) + 1
      ensures id == UniqueId(now, counter, salt)
      ensures id !in old(issued)
      ensures issued == old(issued) + {id}
    {
      counter := counter + 1;
      id := UniqueId(now, counter, salt);
      issued := issued + {id};
      forall t: Time, c: nat, s: string | UniqueId(t, c, s) in issued
        ensures c <= counter
      {
        if UniqueId(t, c, s) == id {
          UniqueIdInjective(t, c, s, now, counter, salt);
        }
      }
    }
  }
}
