/**
 * Race-state arithmetic of `updateCatPosition` and `updateLeaderCrown`:
 * where a cat stands on the track, whether it is advancing, who wears the crown.
 */
module Race {
  import opened Config

  function Min(x: real, y: real): real { if x <= y then x else y }
  function Max(x: real, y: real): real { if x >= y then x else y }

  /** This cat's share of all signatures; one half while nobody has signed. */
  function Share(count: nat, antiCount: nat, proCount: nat): real {
    var total := antiCount + proCount;
    if total > 0 then count as real / total as real else 0.5
  }

  /** The steady-state position: the share mapped onto [MIN_POSITION, MAX_POSITION]. */
  function BasePosition(count: nat, antiCount: nat, proCount: nat): real {
    MIN_POSITION + Share(count, antiCount, proCount) * (MAX_POSITION - MIN_POSITION)
  }

  /**
   * A cat advances when its count went up since the last observation and that
   * observation was not the first (a last count of 0 means "never seen").
   */
  predicate Advancing(count: nat, lastCount: nat) {
    count > lastCount && lastCount > 0
  }

  /** `Math.min(Math.max(x, MIN_POSITION), CONFIG.MAX_POSITION_PERCENT)`. */
  function Clamp(x: real): (r: real)
    ensures MIN_POSITION <= r <= MAX_POSITION_PERCENT
    ensures MIN_POSITION <= x <= MAX_POSITION_PERCENT ==> r == x
    ensures x < MIN_POSITION ==> r == MIN_POSITION
    ensures x > MAX_POSITION_PERCENT ==> r == MAX_POSITION_PERCENT
  {
    Min(Max(x, MIN_POSITION), MAX_POSITION_PERCENT)
  }

  /** The position written to the cat's `left` style: base, plus the bump when advancing, clamped. */
  function FinalPosition(count: nat, antiCount: nat, proCount: nat, lastCount: nat): (r: real)
    ensures MIN_POSITION <= r <= MAX_POSITION_PERCENT
  {
    var base := BasePosition(count, antiCount, proCount);
    Clamp(if Advancing(count, lastCount) then base + ADVANCE_BUMP else base)
  }

  lemma DivisionBounds(x: real, t: real)
    requires 0.0 <= x <= t && t > 0.0
    ensures 0.0 <= x / t <= 1.0
  {
    assert x / t * t == x;
  }

  lemma DivisionStrict(x: real, y: real, t: real)
    requires x < y && t > 0.0
    ensures x / t < y / t
  {
    assert x / t * t == x && y / t * t == y;
  }

  lemma SharesSumToOne(a: real, p: real)
    requires a >= 0.0 && p >= 0.0 && a + p > 0.0
    ensures a / (a + p) + p / (a + p) == 1.0
  {
    var t := a + p;
    assert a / t * t == a && p / t * t == p;
    assert (a / t + p / t) * t == a / t * t + p / t * t;
  }

  /** A cat whose count is part of the total stays between the track bounds before clamping. */
  lemma BasePositionBounds(count: nat, antiCount: nat, proCount: nat)
    requires count <= antiCount + proCount
    ensures MIN_POSITION <= BasePosition(count, antiCount, proCount) <= MAX_POSITION
  {
    var total := antiCount + proCount;
    if total > 0 {
      DivisionBounds(count as real, total as real);
    }
  }

  /** Equal counts, including 0 against 0, put both cats at the midpoint 65. */
  lemma EqualCountsMidpoint(c: nat)
    ensures BasePosition(c, c, c) == 65.0
    ensures FinalPosition(c, c, c, 0) == 65.0
  {
    if c > 0 {
      var x := c as real;
      assert x / (x + x) == 0.5 by {
        assert 0.5 * (x + x) == x;
      }
    }
  }

  /** The two shares add up to one, so the two base positions add up to 50 + 80 = 130. */
  lemma ComplementaryPositions(antiCount: nat, proCount: nat)
    ensures BasePosition(antiCount, antiCount, proCount) + BasePosition(proCount, antiCount, proCount) == 130.0
  {
    var total := antiCount + proCount;
    if total > 0 {
      var a, p, t := antiCount as real, proCount as real, total as real;
      assert t == a + p;
      SharesSumToOne(a, p);
    }
  }

  lemma QuotientAntitone(c: real, d1: real, d2: real)
    requires c >= 0.0 && 0.0 < d1 <= d2
    ensures c / d2 <= c / d1
  {
    var q1, q2 := c / d1, c / d2;
    assert q1 * d1 == c && q2 * d2 == c;
    assert q2 >= 0.0;
    assert q2 * d1 <= q2 * d2;
    if q2 > q1 {
      assert q2 * d1 > q1 * d1;
    }
  }

  lemma ShareMonotone(a1: nat, a2: nat, b: nat)
    requires a1 <= a2
    ensures Share(a1, a1, b) <= Share(a2, a2, b)
  {
    if a1 + b > 0 {
      var x, y, c := a1 as real, a2 as real, b as real;
      assert (a1 + b) as real == x + c && (a2 + b) as real == y + c;
      // x / (x + c) == 1 - c / (x + c), and c / (x + c) shrinks as x grows
      SharesSumToOne(x, c);
      SharesSumToOne(y, c);
      QuotientAntitone(c, x + c, y + c);
    } else {
      assert a1 == 0 && b == 0;
      if a2 > 0 {
        assert Share(a2, a2, b) == 1.0;
      }
    }
  }

  /** More signatures for one side, the other side fixed, never move that side's cat back. */
  lemma BasePositionMonotone(a1: nat, a2: nat, b: nat)
    requires a1 <= a2
    ensures BasePosition(a1, a1, b) <= BasePosition(a2, a2, b)
    ensures BasePosition(a1, b, a1) <= BasePosition(a2, b, a2)
  {
    ShareMonotone(a1, a2, b);
    assert Share(a1, b, a1) == Share(a1, a1, b);
    assert Share(a2, b, a2) == Share(a2, a2, b);
  }

  /** Without an advance, a cat rests at its base position (the clamp changes nothing). */
  lemma SettledPosition(count: nat, antiCount: nat, proCount: nat, lastCount: nat)
    requires count <= antiCount + proCount
    requires !Advancing(count, lastCount)
    ensures FinalPosition(count, antiCount, proCount, lastCount) == BasePosition(count, antiCount, proCount)
  {
    BasePositionBounds(count, antiCount, proCount);
  }

  /** An advancing cat is bumped two points forward, but never past the finish bound. */
  lemma AdvancingPosition(count: nat, antiCount: nat, proCount: nat, lastCount: nat)
    requires count <= antiCount + proCount
    requires Advancing(count, lastCount)
    ensures FinalPosition(count, antiCount, proCount, lastCount)
            == Min(BasePosition(count, antiCount, proCount) + ADVANCE_BUMP, MAX_POSITION_PERCENT)
    ensures FinalPosition(count, antiCount, proCount, lastCount) >= BasePosition(count, antiCount, proCount)
  {
    BasePositionBounds(count, antiCount, proCount);
  }

  /** A first observation (last count 0) or a count that did not go up never advances. */
  lemma NoAdvanceWithoutIncrease(count: nat, lastCount: nat)
    requires lastCount == 0 || count <= lastCount
    ensures !Advancing(count, lastCount)
  {
  }

  /** Who wears the crown. */
  datatype Leader = AntiLeads | ProLeads | NoLeader {
    function Mirror(): Leader {
      match this
      case AntiLeads => ProLeads
      case ProLeads => AntiLeads
      case NoLeader => NoLeader
    }
  }

  function LeaderOf(antiCount: nat, proCount: nat): Leader {
    if antiCount > proCount then AntiLeads
    else if proCount > antiCount then ProLeads
    else NoLeader
  }

  /** The crown goes to the strictly larger count; a tie crowns nobody. */
  lemma LeaderIsStrict(antiCount: nat, proCount: nat)
    ensures LeaderOf(antiCount, proCount) == AntiLeads <==> antiCount > proCount
    ensures LeaderOf(antiCount, proCount) == ProLeads <==> proCount > antiCount
    ensures LeaderOf(antiCount, proCount) == NoLeader <==> antiCount == proCount
    ensures LeaderOf(proCount, antiCount) == LeaderOf(antiCount, proCount).Mirror()
  {
  }

  /** The crowned cat stands strictly further along the track than the other one. */
  lemma LeaderIsAhead(antiCount: nat, proCount: nat)
    ensures LeaderOf(antiCount, proCount) == AntiLeads
            ==> BasePosition(antiCount, antiCount, proCount) > BasePosition(proCount, antiCount, proCount)
    ensures LeaderOf(antiCount, proCount) == ProLeads
            ==> BasePosition(proCount, antiCount, proCount) > BasePosition(antiCount, antiCount, proCount)
    ensures LeaderOf(antiCount, proCount) == NoLeader
            ==> BasePosition(proCount, antiCount, proCount) == BasePosition(antiCount, antiCount, proCount)
  {
    var total := antiCount + proCount;
    if total > 0 {
      var a, p, t := antiCount as real, proCount as real, total as real;
      if a > p {
        DivisionStrict(p, a, t);
      } else if p > a {
        DivisionStrict(a, p, t);
      }
    }
  }

  /** anti 8000 (was 7000) against pro 2000 (was 1000): both advance, anti at 76, pro at 58, anti crowned. */
  lemma BothAdvanceScenario()
    ensures FinalPosition(8000, 8000, 2000, 7000) == 76.0
    ensures FinalPosition(2000, 8000, 2000, 1000) == 58.0
    ensures BasePosition(2000, 8000, 2000) == 56.0
    ensures LeaderOf(8000, 2000) == AntiLeads
  {
    assert Share(8000, 8000, 2000) == 0.8;
    assert Share(2000, 8000, 2000) == 0.2;
  }
}
