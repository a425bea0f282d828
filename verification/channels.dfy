/** The five marketing channels, their labels, purchase weights and spend kinds. */
module Channels {

  datatype Channel = PaidSearch | PaidSocial | Email | Affiliate | Organic

  /** The fixed iteration order, used both for allocation and for emitting rows. */
  const All: seq<Channel> := [PaidSearch, PaidSocial, Email, Affiliate, Organic]

  /** The label written to the `channel` column. */
  function Label(c: Channel): string
  {
    match c
    case PaidSearch => "Paid Search"
    case PaidSocial => "Paid Social"
    case Email => "Email"
    case Affiliate => "Affiliate"
    case Organic => "Organic"
  }

  /** Share of the day's purchases, in hundredths (0.28 is 28). */
  function Weight(c: Channel): nat
  {
    match c
    case PaidSearch => 28
    case PaidSocial => 22
    case Email => 15
    case Affiliate => 10
    case Organic => 25
  }

  /** Channels whose spend is bought per click. */
  predicate IsPaid(c: Channel)
  {
    c == PaidSearch || c == PaidSocial || c == Affiliate
  }

  /** Every channel appears exactly once in `All`, Organic last, and labels tell channels apart. */
  lemma ChannelOrder()
    ensures |All| == 5 && All[|All| - 1] == Organic
    ensures forall c: Channel :: c in All
    ensures forall i, j :: 0 <= i < j < |All| ==> All[i] != All[j]
    ensures forall c, c' :: Label(c) == Label(c') ==> c == c'
  {
    forall c: Channel
      ensures c in All
    {
      match c
      case PaidSearch => assert All[0] == c;
      case PaidSocial => assert All[1] == c;
      case Email => assert All[2] == c;
      case Affiliate => assert All[3] == c;
      case Organic => assert All[4] == c;
    }
  }
}
