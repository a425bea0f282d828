/**
 * Splitting one day's purchase total across the channels: every channel but
 * the last gets its weighted share rounded half to even, and the last one
 * (Organic) gets what remains, never less than zero.
 */
module ChannelAllocation {
  import opened Basics
  import opened Rounding
  import opened Channels

  /** `int(round(total * weight))` with the weight in hundredths, on exact rationals. */
  function RoundedShare(total: nat, weight: nat): (r: nat)
    ensures 100 * r <= total * weight + 50
    ensures total * weight <= 100 * r + 50
    ensures IsHalfEvenRounding((total * weight) as real / 100.0, r)
  {
    RoundHalfEven((total * weight) as real / 100.0)
  }

  /**
   * Exact ties are rounded to the even neighbour, as Python's `round` does:
   * 5 * 0.10 = 0.5 goes to 0, 10 * 0.15 = 1.5 and 25 * 0.22 = 5.5 go up.
   */
  lemma TiesGoToEven()
    ensures RoundedShare(5, 10) == 0
    ensures RoundedShare(10, 15) == 2
    ensures RoundedShare(25, 22) == 6
  {
  }

  /** The shares handed to the channels before the last, in channel order. */
  function LeadingShares(total: nat): seq<int>
  {
    seq(|All| - 1, k requires 0 <= k < |All| - 1 => RoundedShare(total, Weight(All[k])))
  }

  /** Purchases per channel, in channel order: leading shares, then the clamped remainder. */
  function Allocation(total: nat): seq<int>
  {
    var lead := LeadingShares(total);
    lead + [Max(0, total - Sum(lead))]
  }

  /**
   * The allocation loop: a running remainder starts at the total, each
   * leading channel takes its rounded share out of it, and the last channel
   * takes `max(0, remaining)`.
   */
  method Allocate(total: nat) returns (alloc: seq<int>)
    ensures |alloc| == |All|
    ensures forall k :: 0 <= k < |All| - 1 ==> alloc[k] == RoundedShare(total, Weight(All[k]))
    ensures alloc[|All| - 1] == Max(0, total - Sum(alloc[..|All| - 1]))
    ensures alloc == Allocation(total)
  {
    alloc := [];
    var remaining: int := total;
    var i := 0;
    while i < |All|
      invariant 0 <= i <= |All|
      invariant |alloc| == i
      invariant i < |All| ==> alloc == LeadingShares(total)[..i]
      invariant i < |All| ==> remaining == total - Sum(alloc)
      invariant i == |All| ==> alloc == Allocation(total)
    {
      if i < |All| - 1 {
        var val := RoundedShare(total, Weight(All[i]));
        SumAppend(alloc, val);
        assert LeadingShares(total)[..i + 1] == LeadingShares(total)[..i] + [val];
        alloc := alloc + [val];
        remaining := remaining - val;
      } else {
        assert alloc == LeadingShares(total);
        alloc := alloc + [Max(0, remaining)];
      }
      i := i + 1;
    }
    assert alloc[..|All| - 1] == LeadingShares(total);
  }

  /** With these weights the leading shares never exceed the total, for any total. */
  lemma RemainderNeverNegative(total: nat)
    ensures Sum(LeadingShares(total)) <= total
  {
    var s := LeadingShares(total);
    SumOfFour(s);
    var a, b, c, d := s[0], s[1], s[2], s[3];
    assert 100 * a <= 28 * total + 50;
    assert 100 * b <= 22 * total + 50;
    assert 100 * c <= 15 * total + 50;
    assert 100 * d <= 10 * total + 50;
    if total < 8 {
      assert a <= 2 && b <= 2 && c <= 1 && d <= 1;
    }
  }

  /** The five allocations are non-negative and add up to exactly the day's total. */
  lemma AllocationConserves(total: nat)
    ensures |Allocation(total)| == |All|
    ensures forall k :: 0 <= k < |All| ==> Allocation(total)[k] >= 0
    ensures Sum(Allocation(total)) == total
    ensures Allocation(total)[|All| - 1] == total - Sum(LeadingShares(total))
  {
    var lead := LeadingShares(total);
    RemainderNeverNegative(total);
    SumAppend(lead, total - Sum(lead));
  }

  /**
   * Organic takes the remainder rather than its own rounded share, yet stays
   * within two purchases of its nominal 25% of the total.
   */
  lemma OrganicNearNominalShare(total: nat)
    ensures Weight(Organic) * total <= 100 * Allocation(total)[|All| - 1] + 200
    ensures 100 * Allocation(total)[|All| - 1] <= Weight(Organic) * total + 200
  {
    var s := LeadingShares(total);
    AllocationConserves(total);
    SumOfFour(s);
    var a, b, c, d := s[0], s[1], s[2], s[3];
    assert 100 * a <= 28 * total + 50 && 28 * total <= 100 * a + 50;
    assert 100 * b <= 22 * total + 50 && 22 * total <= 100 * b + 50;
    assert 100 * c <= 15 * total + 50 && 15 * total <= 100 * c + 50;
    assert 100 * d <= 10 * total + 50 && 10 * total <= 100 * d + 50;
    var organic := total - (a + b + c + d);
    assert Allocation(total)[|All| - 1] == organic;
    assert 25 * total <= 100 * organic + 200 <= 25 * total + 400;
  }

  /** A day without purchases gives every channel zero purchases. */
  lemma ZeroTotalAllocatesNothing()
    ensures Allocation(0) == [0, 0, 0, 0, 0]
  {
    var lead := LeadingShares(0);
    SumOfFour(lead);
  }
}
