/**
 * Synthetic funnel and spend figures for one channel on one day. The random
 * draws of the generator arrive as a `Draws` record; `InRange` states the
 * intervals the draws are taken from.
 */
module Synthesis {
  import opened Basics
  import opened Rounding
  import opened Channels

  /** One row's random draws; spend draws a channel does not use are ignored. */
  datatype Draws = Draws(
    leadRate: real,
    closeRate: real,
    leadNoise: real,
    sessionNoise: real,
    cpc: real,
    spendNoise: real,
    emailSpend: real)

  /** The half-open intervals `np.random.uniform` draws each value from. */
  predicate InRange(d: Draws)
  {
    && 0.02 <= d.leadRate < 0.08
    && 0.05 <= d.closeRate < 0.18
    && 0.95 <= d.leadNoise < 1.10
    && 0.95 <= d.sessionNoise < 1.15
    && 0.5 <= d.cpc < 2.5
    && 0.6 <= d.spendNoise < 1.2
    && 20.0 <= d.emailSpend < 120.0
  }

  datatype FunnelRow = FunnelRow(date: int, channel: Channel, sessions: int, leads: int, purchases: int)

  datatype SpendRow = SpendRow(date: int, channel: Channel, spend: real)

  /** The pair of rows emitted for one (day, channel). */
  datatype ChannelDay = ChannelDay(funnel: FunnelRow, spend: SpendRow)

  /** 0.85 on Saturday and Sunday (weekday 5 and 6, Monday being 0), 1.0 otherwise. */
  function WeekendFactor(weekday: int): real
  {
    if weekday >= 5 then 0.85 else 1.0
  }

  /** `int(x * factor)`: scale a count and truncate it back to an integer. */
  function Dampen(x: int, factor: real): int
  {
    Trunc(x as real * factor)
  }

  /** `count / max(rate, 0.01)`: the count needed upstream to convert into `count` at `rate`. */
  function BackDerive(count: int, rate: real): (r: real)
    ensures 0 <= count ==> 0.0 <= r
  {
    count as real / RealMax(rate, 0.01)
  }

  /** Leads back-derived from purchases at the drawn close rate, with noise, rounded up. */
  function RawLeads(purchases: int, d: Draws): int
  {
    Ceil(BackDerive(purchases, d.closeRate) * d.leadNoise)
  }

  /** Sessions back-derived from leads at the drawn lead rate, with noise, rounded up. */
  function RawSessions(leads: int, d: Draws): int
  {
    Ceil(BackDerive(leads, d.leadRate) * d.sessionNoise)
  }

  /** Leads after weekend dampening, before the clamp at zero. */
  function Leads(purchases: int, factor: real, d: Draws): int
  {
    Dampen(RawLeads(purchases, d), factor)
  }

  /** Sessions after weekend dampening, before the clamp at zero; spend is derived from these. */
  function Sessions(purchases: int, factor: real, d: Draws): int
  {
    Dampen(RawSessions(RawLeads(purchases, d), d), factor)
  }

  /** Spend by channel kind, scaled by the weekend factor, before clamping and rounding to cents. */
  function SpendBeforeRounding(ch: Channel, sessions: int, factor: real, d: Draws): real
  {
    var spend :=
      if IsPaid(ch) then sessions as real * d.cpc * d.spendNoise
      else if ch == Email then d.emailSpend
      else 0.0;
    spend * factor
  }

  /** The funnel row and spend row for one channel on one day. */
  function Synthesize(date: int, ch: Channel, purchases: int, factor: real, d: Draws): (r: ChannelDay)
    ensures r.funnel.date == date && r.funnel.channel == ch
    ensures r.spend.date == date && r.spend.channel == ch
    ensures r.funnel.sessions >= 0 && r.funnel.leads >= 0 && r.funnel.purchases >= 0
    ensures r.spend.spend >= 0.0
    ensures ch == Organic ==> r.spend.spend == 0.0
  {
    var sessions := Sessions(purchases, factor, d);
    var leads := Leads(purchases, factor, d);
    var funnel := FunnelRow(date, ch, Max(sessions, 0), Max(leads, 0), Max(purchases, 0));
    var spend := RoundCents(RealMax(SpendBeforeRounding(ch, sessions, factor, d), 0.0));
    ChannelDay(funnel, SpendRow(date, ch, spend))
  }

  lemma MulLeftMono(q: real, a: real, b: real)
    requires 0.0 <= q && a <= b
    ensures q * a <= q * b
  {
  }

  /** The weekend factor is 0.85 exactly on weekdays 5 and 6 of a Monday-based week. */
  lemma WeekendFactorOnWeekends(weekday: int)
    requires 0 <= weekday < 7
    ensures WeekendFactor(weekday) == 0.85 <==> weekday == 5 || weekday == 6
    ensures WeekendFactor(weekday) == 1.0 <==> weekday < 5
  {
  }

  /** Dampening a non-negative count keeps it between zero and the count; on weekdays it is exact. */
  lemma DampenBounds(x: int, weekday: int)
    requires 0 <= x
    ensures 0 <= Dampen(x, WeekendFactor(weekday)) <= x
    ensures weekday < 5 ==> Dampen(x, WeekendFactor(weekday)) == x
  {
    if weekday >= 5 {
      assert 0.0 <= x as real * 0.85 <= x as real;
    } else {
      assert x as real * 1.0 == x as real;
    }
  }

  /** A count within one step above `q` times a noise factor from `[lo, hi)` lies between `q * lo` and `q * hi + 1`. */
  lemma NoisyBounds(q: real, u: real, lo: real, hi: real, n: real)
    requires 0.0 <= q && 0.0 <= lo <= u < hi
    requires q * u <= n < q * u + 1.0
    ensures q * lo <= n < q * hi + 1.0
    ensures 0.0 <= n
  {
    MulLeftMono(q, 0.0, lo);
    MulLeftMono(q, lo, u);
    MulLeftMono(q, u, hi);
  }

  /** Leads land between 0.95 and 1.10 times purchases over the close rate (plus the ceiling's step). */
  lemma LeadsWithinNoise(purchases: int, d: Draws)
    requires 0 <= purchases && InRange(d)
    ensures BackDerive(purchases, d.closeRate) * 0.95 <= RawLeads(purchases, d) as real
    ensures RawLeads(purchases, d) as real < BackDerive(purchases, d.closeRate) * 1.10 + 1.0
    ensures 0 <= RawLeads(purchases, d)
  {
    var q := BackDerive(purchases, d.closeRate);
    var n := RawLeads(purchases, d);
    assert q * d.leadNoise <= n as real < q * d.leadNoise + 1.0;
    NoisyBounds(q, d.leadNoise, 0.95, 1.10, n as real);
  }

  /** Sessions land between 0.95 and 1.15 times leads over the lead rate (plus the ceiling's step). */
  lemma SessionsWithinNoise(leads: int, d: Draws)
    requires 0 <= leads && InRange(d)
    ensures BackDerive(leads, d.leadRate) * 0.95 <= RawSessions(leads, d) as real
    ensures RawSessions(leads, d) as real < BackDerive(leads, d.leadRate) * 1.15 + 1.0
    ensures 0 <= RawSessions(leads, d)
  {
    var q := BackDerive(leads, d.leadRate);
    var n := RawSessions(leads, d);
    assert q * d.sessionNoise <= n as real < q * d.sessionNoise + 1.0;
    NoisyBounds(q, d.sessionNoise, 0.95, 1.15, n as real);
  }

  /**
   * With identical draws, a weekend day never has more sessions or leads than
   * a weekday, and its purchases are the same: purchases are not dampened.
   */
  lemma WeekendNeverExceedsWeekday(date: int, ch: Channel, purchases: int, weekday: int, d: Draws)
    requires 0 <= purchases && InRange(d)
    ensures var weekend := Synthesize(date, ch, purchases, WeekendFactor(weekday), d).funnel;
      var plain := Synthesize(date, ch, purchases, 1.0, d).funnel;
      && weekend.sessions <= plain.sessions
      && weekend.leads <= plain.leads
      && weekend.purchases == plain.purchases == purchases
  {
    LeadsWithinNoise(purchases, d);
    SessionsWithinNoise(RawLeads(purchases, d), d);
    DampenBounds(RawLeads(purchases, d), weekday);
    DampenBounds(RawSessions(RawLeads(purchases, d), d), weekday);
    DampenBounds(RawLeads(purchases, d), 0);
    DampenBounds(RawSessions(RawLeads(purchases, d), d), 0);
  }

  /** A channel with no purchases gets no leads and no sessions, whatever the draws. */
  lemma ZeroPurchasesEmptyFunnel(date: int, ch: Channel, factor: real, d: Draws)
    ensures var r := Synthesize(date, ch, 0, factor, d);
      r.funnel.sessions == 0 && r.funnel.leads == 0 && r.funnel.purchases == 0
    ensures IsPaid(ch) ==> Synthesize(date, ch, 0, factor, d).spend.spend == 0.0
  {
    assert RawLeads(0, d) == 0;
    assert RawSessions(0, d) == 0;
  }

  /**
   * Email spend is one draw scaled by the weekend factor, whatever the
   * sessions; it stays within 17.00 and 120.00.
   */
  lemma EmailSpendIsFlat(date: int, purchases: int, purchases': int, weekday: int, d: Draws)
    requires InRange(d)
    ensures var f := WeekendFactor(weekday);
      var s := Synthesize(date, Email, purchases, f, d).spend.spend;
      && s == RoundCents(d.emailSpend * f)
      && s == Synthesize(date, Email, purchases', f, d).spend.spend
      && 17.0 <= s <= 120.0
  {
    var f := WeekendFactor(weekday);
    var x := d.emailSpend * f;
    assert 17.0 <= x < 120.0;
    var n := RoundHalfEven(x * 100.0);
    assert 1700 <= n <= 12000;
  }

  /** Dampening the sessions and then the spend scales a per-click spend by at most 0.85 twice. */
  lemma TwiceDampenedBound(raw: real, s: real, cpc: real, noise: real)
    requires 0.0 <= s <= raw * 0.85 && 0.0 < cpc && 0.0 < noise
    ensures 0.0 <= s * cpc * noise * 0.85 <= 0.7225 * (raw * cpc * noise * 1.0)
  {
    var k := cpc * noise;
    assert 0.0 < k;
    assert s * cpc * noise == s * k;
    assert raw * cpc * noise == raw * k;
    MulLeftMono(k, s, raw * 0.85);
    MulLeftMono(k, 0.0, s);
  }

  /**
   * Paid-channel spend is derived from the already dampened sessions and then
   * scaled by the weekend factor again, so with identical draws a weekend day
   * spends at most 0.85 * 0.85 of the weekday amount.
   */
  lemma PaidSpendDampenedTwice(ch: Channel, purchases: int, d: Draws)
    requires IsPaid(ch) && 0 <= purchases && InRange(d)
    ensures var weekend := SpendBeforeRounding(ch, Sessions(purchases, 0.85, d), 0.85, d);
      var plain := SpendBeforeRounding(ch, Sessions(purchases, 1.0, d), 1.0, d);
      0.0 <= weekend <= 0.7225 * plain
  {
    var raw := RawSessions(RawLeads(purchases, d), d);
    LeadsWithinNoise(purchases, d);
    SessionsWithinNoise(RawLeads(purchases, d), d);
    var s := Sessions(purchases, 0.85, d);
    DampenBounds(raw, 0);
    assert Sessions(purchases, 1.0, d) == raw;
    assert 0 <= s && s as real <= raw as real * 0.85;
    assert SpendBeforeRounding(ch, s, 0.85, d) == s as real * d.cpc * d.spendNoise * 0.85;
    assert SpendBeforeRounding(ch, raw, 1.0, d) == raw as real * d.cpc * d.spendNoise * 1.0;
    TwiceDampenedBound(raw as real, s as real, d.cpc, d.spendNoise);
  }
}
