/**
 * The instance-id generator used by a cloud image. Its Java class is not part
 * of this model; it is modelled as a counter whose n-th id is the decimal
 * rendering of n, which is enough to show that no id is ever handed out twice.
 */
module IdGeneration {

  /** The character of one decimal digit. */
  function DigitChar(d: nat): (c: char)
    requires d < 10
    ensures '0' <= c <= '9'
  {
    ('0' as int + d) as char
  }

  /** The decimal rendering of `n`, most significant digit first. */
  function Decimal(n: nat): (s: string)
    ensures |s| >= 1
    ensures n < 10 <==> |s| == 1
    ensures forall i :: 0 <= i < |s| ==> '0' <= s[i] <= '9'
    decreases n
  {
    if n < 10 then [DigitChar(n)] else Decimal(n / 10) + [DigitChar(n % 10)]
  }

  /** Different counter values never render to the same id. */
  lemma {:induction false} DecimalInjective(a: nat, b: nat)
    requires Decimal(a) == Decimal(b)
    ensures a == b
    decreases a
  {
    var s := Decimal(a);
    if a < 10 {
      assert b < 10;
      assert DigitChar(a) == s[0] == DigitChar(b);
    } else {
      assert b >= 10;
      assert Decimal(a / 10) == s[..|s| - 1] == Decimal(b / 10);
      DecimalInjective(a / 10, b / 10);
      assert DigitChar(a % 10) == s[|s| - 1] == DigitChar(b % 10);
    }
  }

  class IdGenerator {
    /** How many ids have been handed out so far. */
    var count: nat

    /** The ids handed out so far. */
    ghost function Issued(): set<string>
      reads this
    {
      set k: nat | k < count :: Decimal(k)
    }

    constructor ()
      ensures count == 0 && Issued() == {}
    {
      count := 0;
    }

    /** Hands out an id that differs from every id handed out before. */
    method Next() returns (id: string)
      modifies this
      ensures count == old(count) + 1
      ensures id == Decimal(old(count))
      ensures id !in old(Issued())
      ensures Issued() == old(Issued()) + {id}
    {
      ghost var before := Issued();
      id := Decimal(count);
      forall k: nat | k < count
        ensures Decimal(k) != id
      {
        if Decimal(k) == id {
          DecimalInjective(k, count);
        }
      }
      count := count + 1;
      assert Issued() == before + {id} by {
        forall x | x in Issued() ensures x in before + {id} {
          var k: nat :| k < count && x == Decimal(k);
          if k < count - 1 { assert x in before; }
        }
      }
    }
  }
}
