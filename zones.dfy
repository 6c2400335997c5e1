/// The zone guard of src/bot/zones/mod.rs: price bands with a side, and a
/// per-zone breaker that disables a zone after a run of losing trades.
module ZoneGuard {
  import opened Wrappers

  datatype Side = Long | Short

  /// A price band `[low, high]` on one side of the market.
  datatype Zone = Zone(low: real, high: real, side: Side)
  {
    /// The band holds `price`, both ends included; an inverted band holds
    /// nothing.
    predicate Contains(price: real)
      ensures Contains(price) ==> low <= high
      ensures low <= high && (price == low || price == high) ==> Contains(price)
    {
      low <= price <= high
    }

    /// The centre of the band.
    function Midpoint(): (m: real)
      ensures m - low == high - m
      ensures low <= high ==> low <= m <= high
    {
      (low + high) / 2.0
    }

    /// The midpoints of the two bands lie less than `minDistance` apart.
    predicate OverlapsOrTooClose(other: Zone, minDistance: real)
      ensures minDistance <= 0.0 ==> !OverlapsOrTooClose(other, minDistance)
      ensures Midpoint() == other.Midpoint() ==> (OverlapsOrTooClose(other, minDistance) <==> minDistance > 0.0)
    {
      Abs(Midpoint() - other.Midpoint()) < minDistance
    }
  }

  function Abs(x: real): (r: real)
    ensures r >= 0.0 && (r == x || r == -x)
  {
    if x < 0.0 then -x else x
  }

  /// An inverted band holds no price at all.
  lemma InvertedZoneHoldsNothing(z: Zone, price: real)
    requires z.high < z.low
    ensures !z.Contains(price)
  {
  }

  /// Proximity does not depend on the order of the two bands, and two
  /// bands are too close exactly when their midpoints are within the
  /// distance on either side.
  lemma OverlapSymmetric(a: Zone, b: Zone, minDistance: real)
    ensures a.OverlapsOrTooClose(b, minDistance) <==> b.OverlapsOrTooClose(a, minDistance)
    ensures a.OverlapsOrTooClose(b, minDistance) <==>
            (a.Midpoint() - b.Midpoint() < minDistance && b.Midpoint() - a.Midpoint() < minDistance)
  {
  }

  /// Two bands that share a price are too close for any distance above half
  /// their combined width.
  lemma SharedPriceIsTooClose(a: Zone, b: Zone, price: real, minDistance: real)
    requires a.Contains(price) && b.Contains(price)
    requires minDistance > ((a.high - a.low) + (b.high - b.low)) / 2.0
    ensures a.OverlapsOrTooClose(b, minDistance)
  {
  }

  /// `ZoneId::from_zone`: the hash of the side tag (1 for Long, 2 for Short)
  /// and the two bounds. The hash function itself is not modelled; the id
  /// stands for the hashed inputs.
  datatype ZoneId = ZoneId(tag: nat, low: real, high: real)

  function FromZone(z: Zone): (id: ZoneId)
    ensures id.tag == (if z.side == Long then 1 else 2)
    ensures id.low == z.low && id.high == z.high
  {
    ZoneId(if z.side == Long then 1 else 2, z.low, z.high)
  }

  /// The id depends only on the side and the two bounds.
  lemma FromZoneDependsOnlyOnKey(a: Zone, b: Zone)
    requires a.side == b.side && a.low == b.low && a.high == b.high
    ensures FromZone(a) == FromZone(b)
  {
  }

  /// Width of the loss counter: a `u8`.
  const LossCounterRange: nat := 256

  /// `ZoneStats`: the run of losses, whether the zone is switched off, and
  /// until when.
  datatype ZoneStats = ZoneStats(consecutiveLosses: nat, disabled: bool, cooldownUntil: Option<nat>)

  predicate StatsValid(s: ZoneStats)
  {
    s.consecutiveLosses < LossCounterRange
  }

  /// `ZoneStats::default`.
  function DefaultStats(): (s: ZoneStats)
    ensures StatsValid(s) && !s.disabled
  {
    ZoneStats(0, false, None)
  }

  /// What the store holds under a zone's key: a record that parses, or one
  /// that does not.
  datatype StoredStats = Parsed(stats: ZoneStats, ttl: nat) | Unparseable

  /// TTL written with a record when it has no cooldown: 12 hours.
  const DefaultTtl: nat := 60 * 60 * 12

  /// `get_trade_result`: the stored record of a zone, or the default
  /// statistics when it is missing or does not parse.
  function LoadedStats(store: map<ZoneId, StoredStats>, id: ZoneId): (s: ZoneStats)
    ensures id in store && store[id].Parsed? ==> s == store[id].stats
    ensures !(id in store && store[id].Parsed?) ==> s == DefaultStats()
  {
    if id in store && store[id].Parsed? then store[id].stats else DefaultStats()
  }

  /// One trade result applied to a zone's statistics. A loss lengthens the
  /// run (the `u8` counter wraps at 256) and switches the zone off with a
  /// cooldown once the run reaches `maxLosses`; a win or break-even resets
  /// the run and leaves the switch and the cooldown alone.
  function Recorded(s: ZoneStats, pnl: real, maxLosses: nat, cooldownSecs: nat, now: nat): (r: ZoneStats)
    requires StatsValid(s)
    ensures StatsValid(r)
    ensures pnl >= 0.0 ==> r == s.(consecutiveLosses := 0)
    ensures pnl < 0.0 && s.consecutiveLosses + 1 < LossCounterRange ==>
              r.consecutiveLosses == s.consecutiveLosses + 1
    ensures pnl < 0.0 ==>
              (if r.consecutiveLosses >= maxLosses
               then r.disabled && r.cooldownUntil == Some(now + cooldownSecs)
               else r.disabled == s.disabled && r.cooldownUntil == s.cooldownUntil)
  {
    if pnl < 0.0 then
      var losses := (s.consecutiveLosses + 1) % LossCounterRange;
      if losses >= maxLosses then ZoneStats(losses, true, Some(now + cooldownSecs))
      else s.(consecutiveLosses := losses)
    else
      s.(consecutiveLosses := 0)
  }

  /// The statistics after `n` losses in a row from `s`.
  function LossRun(s: ZoneStats, n: nat, maxLosses: nat, cooldownSecs: nat, now: nat): (r: ZoneStats)
    requires StatsValid(s)
    ensures StatsValid(r)
  {
    if n == 0 then s else Recorded(LossRun(s, n - 1, maxLosses, cooldownSecs, now), -1.0, maxLosses, cooldownSecs, now)
  }

  /// From a fresh zone, `n` losses (fewer than the counter's range) leave a
  /// run of `n`, and the zone is off exactly when at least one loss was
  /// recorded and the run reached `maxLosses`.
  lemma {:induction false} BreakerTrips(n: nat, maxLosses: nat, cooldownSecs: nat, now: nat)
    requires n < LossCounterRange
    ensures LossRun(DefaultStats(), n, maxLosses, cooldownSecs, now).consecutiveLosses == n
    ensures LossRun(DefaultStats(), n, maxLosses, cooldownSecs, now).disabled <==> (n >= 1 && n >= maxLosses)
  {
    if n > 0 {
      BreakerTrips(n - 1, maxLosses, cooldownSecs, now);
    }
  }

  /// Once off, a zone stays off: no later trade result switches it back on.
  lemma StaysDisabled(s: ZoneStats, pnl: real, maxLosses: nat, cooldownSecs: nat, now: nat)
    requires StatsValid(s) && s.disabled
    ensures Recorded(s, pnl, maxLosses, cooldownSecs, now).disabled
  {
  }

  /// `ZoneGuard`: the in-memory statistics map, and the store it writes
  /// each result through to.
  class ZoneGuard {
    var zones: map<ZoneId, ZoneStats>
    const maxLosses: nat
    const cooldownSecs: nat
    /// The store's `zone_stats::<id>` records.
    var store: map<ZoneId, StoredStats>

    predicate Valid()
      reads this
    {
      maxLosses < LossCounterRange && forall id :: id in zones ==> StatsValid(zones[id])
    }

    /// `ZoneGuard::new`: no statistics in memory.
    constructor (maxLosses: nat, cooldownSecs: nat, store: map<ZoneId, StoredStats>)
      requires maxLosses < LossCounterRange
      ensures Valid()
      ensures zones == map[] && this.store == store
      ensures this.maxLosses == maxLosses && this.cooldownSecs == cooldownSecs
    {
      zones := map[];
      this.maxLosses := maxLosses;
      this.cooldownSecs := cooldownSecs;
      this.store := store;
    }

    /// `can_trade`: a zone is open unless its in-memory statistics say it is
    /// switched off; a zone never seen is open.
    predicate CanTrade(id: ZoneId)
      reads this
      ensures id !in zones ==> CanTrade(id)
      ensures !CanTrade(id) ==> id in zones && zones[id].disabled
      ensures id in zones && zones[id] == DefaultStats() ==> CanTrade(id)
    {
      id !in zones || !zones[id].disabled
    }

    /// `get_trade_result`: read the zone's record from the store.
    method GetTradeResult(id: ZoneId) returns (stats: ZoneStats)
      ensures stats == LoadedStats(store, id)
    {
      if id in store && store[id].Parsed? {
        stats := store[id].stats;
      } else {
        stats := DefaultStats();
      }
    }

    /// `record_trade_result`: apply one result to the zone's entry (created
    /// with the default statistics when missing) and write it through to
    /// the store. The record's TTL is the cooldown timestamp when there is
    /// one, else 12 hours.
    method RecordTradeResult(id: ZoneId, pnl: real, now: nat)
      modifies this
      requires Valid()
      ensures Valid()
      ensures var before := if id in old(zones) then old(zones)[id] else DefaultStats();
              zones == old(zones)[id := Recorded(before, pnl, maxLosses, cooldownSecs, now)]
      ensures store == old(store)[id := Parsed(zones[id], zones[id].cooldownUntil.UnwrapOr(DefaultTtl))]
      ensures LoadedStats(store, id) == zones[id]
      ensures forall other :: other != id ==> (CanTrade(other) <==> old(CanTrade(other)))
      ensures CanTrade(id) <==> !zones[id].disabled
    {
      var stats := if id in zones then zones[id] else DefaultStats();
      if pnl < 0.0 {
        stats := stats.(consecutiveLosses := (stats.consecutiveLosses + 1) % LossCounterRange);
        if stats.consecutiveLosses >= maxLosses {
          stats := stats.(disabled := true, cooldownUntil := Some(now + cooldownSecs));
        }
      } else {
        stats := stats.(consecutiveLosses := 0);
      }
      zones := zones[id := stats];
      store := store[id := Parsed(stats, stats.cooldownUntil.UnwrapOr(DefaultTtl))];
    }
  }
}
