/// The swing-structure engine of src/trackers/smart_money_concepts/mod.rs:
/// it takes bars one at a time, finds centred pivots, sweeps of earlier
/// pivots and breaks of structure, and reports a strong low or high when a
/// break follows a sweep. `smc_main` turns the strong levels into trading
/// zones.
module Smc {
  import opened Wrappers
  import Bot

  /// A price bar; the volume columns are not used by the engine.
  datatype Bar = Bar(time: int, open: real, high: real, low: real, close: real)

  datatype PivotKind = HighPivot | LowPivot

  datatype Pivot = Pivot(kind: PivotKind, price: real, time: int, index: nat)

  datatype SmcEvent =
    | PivotHigh(price: real, time: int, index: nat)
    | PivotLow(price: real, time: int, index: nat)
    | SweepHigh(price: real, time: int, index: nat)
    | SweepLow(price: real, time: int, index: nat)
    | BullishBos(level: real, time: int, index: nat)
    | BearishBos(level: real, time: int, index: nat)
    | StrongLow(price: real, time: int, index: nat)
    | StrongHigh(price: real, time: int, index: nat)

  /// Everything the engine updates.
  datatype SmcState = SmcState(
    bars: seq<Bar>,
    lastPivotHigh: Option<Pivot>,
    lastPivotLow: Option<Pivot>,
    pendingSweepLow: Option<Pivot>,
    pendingSweepHigh: Option<Pivot>,
    lastBullishBosLevel: Option<real>,
    lastBearishBosLevel: Option<real>)

  function InitialState(): SmcState
  {
    SmcState([], None, None, None, None, None, None)
  }

  /// First index of the left window: `cand - left`, saturating at zero.
  function LeftStart(cand: nat, left: nat): (r: nat)
    ensures r <= cand
    ensures cand >= left ==> r == cand - left
  {
    if cand >= left then cand - left else 0
  }

  /// Bar `cand` is a pivot high: its high is strictly above every high in
  /// the `left` bars before it and the `right` bars after it.
  predicate PivotHighAt(bars: seq<Bar>, cand: nat, left: nat, right: nat)
    requires cand + right < |bars|
  {
    (forall i :: LeftStart(cand, left) <= i < cand ==> bars[i].high < bars[cand].high) &&
    (forall i :: cand < i <= cand + right ==> bars[i].high < bars[cand].high)
  }

  /// Bar `cand` is a pivot low: the mirror image with lows and `>`.
  predicate PivotLowAt(bars: seq<Bar>, cand: nat, left: nat, right: nat)
    requires cand + right < |bars|
  {
    (forall i :: LeftStart(cand, left) <= i < cand ==> bars[i].low > bars[cand].low) &&
    (forall i :: cand < i <= cand + right ==> bars[i].low > bars[cand].low)
  }

  /// Pivot-low handling: report the pivot, report a sweep when it undercuts
  /// the previous pivot low (and keep it as the pending sweep), and make it
  /// the last pivot low.
  function LowPhase(s: SmcState, cand: nat, isLow: bool): (r: (SmcState, seq<SmcEvent>))
    requires cand < |s.bars|
    ensures !isLow ==> r == (s, [])
    ensures isLow ==> r.0.lastPivotLow == Some(Pivot(LowPivot, s.bars[cand].low, s.bars[cand].time, cand))
    ensures isLow ==> |r.1| >= 1 && r.1[0] == PivotLow(s.bars[cand].low, s.bars[cand].time, cand)
    ensures (exists e :: e in r.1 && e.SweepLow?) <==>
            (isLow && s.lastPivotLow.Some? && s.bars[cand].low < s.lastPivotLow.value.price)
    ensures r.0 == s.(lastPivotLow := r.0.lastPivotLow, pendingSweepLow := r.0.pendingSweepLow)
  {
    if !isLow then (s, [])
    else
      var p := Pivot(LowPivot, s.bars[cand].low, s.bars[cand].time, cand);
      var sweep := s.lastPivotLow.Some? && p.price < s.lastPivotLow.value.price;
      var events := if sweep then [PivotLow(p.price, p.time, cand), SweepLow(p.price, p.time, cand)]
                    else [PivotLow(p.price, p.time, cand)];
      assert sweep ==> events[1] in events && events[1].SweepLow?;
      (s.(pendingSweepLow := if sweep then Some(p) else s.pendingSweepLow, lastPivotLow := Some(p)), events)
  }

  /// Pivot-high handling, the mirror image of `LowPhase`.
  function HighPhase(s: SmcState, cand: nat, isHigh: bool): (r: (SmcState, seq<SmcEvent>))
    requires cand < |s.bars|
    ensures !isHigh ==> r == (s, [])
    ensures isHigh ==> r.0.lastPivotHigh == Some(Pivot(HighPivot, s.bars[cand].high, s.bars[cand].time, cand))
    ensures isHigh ==> |r.1| >= 1 && r.1[0] == PivotHigh(s.bars[cand].high, s.bars[cand].time, cand)
    ensures (exists e :: e in r.1 && e.SweepHigh?) <==>
            (isHigh && s.lastPivotHigh.Some? && s.bars[cand].high > s.lastPivotHigh.value.price)
    ensures r.0 == s.(lastPivotHigh := r.0.lastPivotHigh, pendingSweepHigh := r.0.pendingSweepHigh)
  {
    if !isHigh then (s, [])
    else
      var p := Pivot(HighPivot, s.bars[cand].high, s.bars[cand].time, cand);
      var sweep := s.lastPivotHigh.Some? && p.price > s.lastPivotHigh.value.price;
      var events := if sweep then [PivotHigh(p.price, p.time, cand), SweepHigh(p.price, p.time, cand)]
                    else [PivotHigh(p.price, p.time, cand)];
      assert sweep ==> events[1] in events && events[1].SweepHigh?;
      (s.(pendingSweepHigh := if sweep then Some(p) else s.pendingSweepHigh, lastPivotHigh := Some(p)), events)
  }

  /// The close of bar `idx` breaks above the last pivot high, at a level
  /// not already reported.
  predicate CrossedUp(s: SmcState, idx: nat)
    requires idx < |s.bars|
  {
    s.lastPivotHigh.Some? && s.bars[idx].close > s.lastPivotHigh.value.price &&
    (s.lastBullishBosLevel.None? || s.lastBullishBosLevel.value != s.lastPivotHigh.value.price)
  }

  /// The close of bar `idx` breaks below the last pivot low, at a level not
  /// already reported.
  predicate CrossedDown(s: SmcState, idx: nat)
    requires idx < |s.bars|
  {
    s.lastPivotLow.Some? && s.bars[idx].close < s.lastPivotLow.value.price &&
    (s.lastBearishBosLevel.None? || s.lastBearishBosLevel.value != s.lastPivotLow.value.price)
  }

  /// Bullish break of structure: report it and record its level; a pending
  /// sweep low becomes a strong low and is cleared.
  function BullishPhase(s: SmcState, idx: nat): (r: (SmcState, seq<SmcEvent>))
    requires idx < |s.bars|
    ensures !CrossedUp(s, idx) ==> r == (s, [])
    ensures CrossedUp(s, idx) ==>
              r.0 == s.(lastBullishBosLevel := Some(s.lastPivotHigh.value.price), pendingSweepLow := None) &&
              |r.1| >= 1 && r.1[0] == BullishBos(s.lastPivotHigh.value.price, s.bars[idx].time, idx)
    ensures (exists e :: e in r.1 && e.StrongLow?) <==> CrossedUp(s, idx) && s.pendingSweepLow.Some?
  {
    if !CrossedUp(s, idx) then (s, [])
    else
      var level := s.lastPivotHigh.value.price;
      var time := s.bars[idx].time;
      var events := if s.pendingSweepLow.Some?
                    then [BullishBos(level, time, idx), StrongLow(s.pendingSweepLow.value.price, time, idx)]
                    else [BullishBos(level, time, idx)];
      assert s.pendingSweepLow.Some? ==> events[1] in events && events[1].StrongLow?;
      (s.(lastBullishBosLevel := Some(level), pendingSweepLow := None), events)
  }

  /// Bearish break of structure, the mirror image of `BullishPhase`.
  function BearishPhase(s: SmcState, idx: nat): (r: (SmcState, seq<SmcEvent>))
    requires idx < |s.bars|
    ensures !CrossedDown(s, idx) ==> r == (s, [])
    ensures CrossedDown(s, idx) ==>
              r.0 == s.(lastBearishBosLevel := Some(s.lastPivotLow.value.price), pendingSweepHigh := None) &&
              |r.1| >= 1 && r.1[0] == BearishBos(s.lastPivotLow.value.price, s.bars[idx].time, idx)
    ensures (exists e :: e in r.1 && e.StrongHigh?) <==> CrossedDown(s, idx) && s.pendingSweepHigh.Some?
  {
    if !CrossedDown(s, idx) then (s, [])
    else
      var level := s.lastPivotLow.value.price;
      var time := s.bars[idx].time;
      var events := if s.pendingSweepHigh.Some?
                    then [BearishBos(level, time, idx), StrongHigh(s.pendingSweepHigh.value.price, time, idx)]
                    else [BearishBos(level, time, idx)];
      assert s.pendingSweepHigh.Some? ==> events[1] in events && events[1].StrongHigh?;
      (s.(lastBearishBosLevel := Some(level), pendingSweepHigh := None), events)
  }

  /// The structure updates of a bar whose pivot candidate `cand` was
  /// found to be a pivot low (`isLow`) and/or high (`isHigh`).
  function Detect(s: SmcState, cand: nat, isLow: bool, isHigh: bool): (r: (SmcState, seq<SmcEvent>))
    requires cand < |s.bars|
    ensures r.0.bars == s.bars
  {
    var idx := |s.bars| - 1;
    var r1 := LowPhase(s, cand, isLow);
    var r2 := HighPhase(r1.0, cand, isHigh);
    var r3 := BullishPhase(r2.0, idx);
    var r4 := BearishPhase(r3.0, idx);
    (r4.0, r1.1 + r2.1 + r3.1 + r4.1)
  }

  /// `process_bar` as a function of the engine state.
  function Step(s: SmcState, bar: Bar, left: nat, right: nat): (r: (SmcState, seq<SmcEvent>))
    ensures r.0.bars == s.bars + [bar]
  {
    var s0 := s.(bars := s.bars + [bar]);
    if |s0.bars| - 1 < left + right then (s0, [])
    else
      var cand := |s0.bars| - 1 - right;
      Detect(s0, cand, PivotLowAt(s0.bars, cand, left, right), PivotHighAt(s0.bars, cand, left, right))
  }

  /// Until the window is full, a bar is only buffered.
  lemma WarmupIsSilent(s: SmcState, bar: Bar, left: nat, right: nat)
    requires |s.bars| < left + right
    ensures Step(s, bar, left, right) == (s.(bars := s.bars + [bar]), [])
  {
  }

  /// The four phases `Detect` chains, with the events each contributes.
  lemma DetectPhases(s: SmcState, cand: nat, isLow: bool, isHigh: bool)
    returns (r1: (SmcState, seq<SmcEvent>), r2: (SmcState, seq<SmcEvent>),
             r3: (SmcState, seq<SmcEvent>), r4: (SmcState, seq<SmcEvent>))
    requires cand < |s.bars|
    ensures Detect(s, cand, isLow, isHigh) == (r4.0, r1.1 + r2.1 + r3.1 + r4.1)
    ensures forall e :: e in r1.1 ==> e.PivotLow? || e.SweepLow?
    ensures forall e :: e in r2.1 ==> e.PivotHigh? || e.SweepHigh?
    ensures |r3.1| <= 2 && forall e :: e in r3.1 ==> e.BullishBos? || e.StrongLow?
    ensures |r4.1| <= 2 && forall e :: e in r4.1 ==> e.BearishBos? || e.StrongHigh?
    ensures r3.1 != [] ==> r3.1[0].BullishBos? && r3.0.pendingSweepLow.None? && r3.0.lastBullishBosLevel.Some?
    ensures r4.1 != [] ==> r4.1[0].BearishBos? && r4.0.pendingSweepHigh.None? && r4.0.lastBearishBosLevel.Some?
    ensures r4.0.pendingSweepLow == r3.0.pendingSweepLow && r4.0.lastBullishBosLevel == r3.0.lastBullishBosLevel
  {
    var idx := |s.bars| - 1;
    r1 := LowPhase(s, cand, isLow);
    r2 := HighPhase(r1.0, cand, isHigh);
    r3 := BullishPhase(r2.0, idx);
    r4 := BearishPhase(r3.0, idx);
  }

  /// A strong low is reported only together with a bullish break, and a
  /// bullish break always leaves no sweep low pending.
  lemma StrongLowNeedsBreak(s: SmcState, cand: nat, isLow: bool, isHigh: bool)
    requires cand < |s.bars|
    ensures var r := Detect(s, cand, isLow, isHigh);
      ((exists e :: e in r.1 && e.StrongLow?) ==> (exists e :: e in r.1 && e.BullishBos?)) &&
      ((exists e :: e in r.1 && e.BullishBos?) ==> r.0.pendingSweepLow.None? && r.0.lastBullishBosLevel.Some?)
  {
    var r1, r2, r3, r4 := DetectPhases(s, cand, isLow, isHigh);
    var events := r1.1 + r2.1 + r3.1 + r4.1;
    if r3.1 == [] {
      forall e | e in events
        ensures !e.StrongLow? && !e.BullishBos?
      {
        assert e in r1.1 || e in r2.1 || e in r4.1;
      }
    } else {
      assert r3.1[0] in events;
    }
  }

  /// A strong high is reported only together with a bearish break, and a
  /// bearish break always leaves no sweep high pending.
  lemma StrongHighNeedsBreak(s: SmcState, cand: nat, isLow: bool, isHigh: bool)
    requires cand < |s.bars|
    ensures var r := Detect(s, cand, isLow, isHigh);
      ((exists e :: e in r.1 && e.StrongHigh?) ==> (exists e :: e in r.1 && e.BearishBos?)) &&
      ((exists e :: e in r.1 && e.BearishBos?) ==> r.0.pendingSweepHigh.None? && r.0.lastBearishBosLevel.Some?)
  {
    var r1, r2, r3, r4 := DetectPhases(s, cand, isLow, isHigh);
    var events := r1.1 + r2.1 + r3.1 + r4.1;
    if r4.1 == [] {
      forall e | e in events
        ensures !e.StrongHigh? && !e.BearishBos?
      {
        assert e in r1.1 || e in r2.1 || e in r3.1;
      }
    } else {
      assert r4.1[0] in events;
    }
  }

  /// The engine state and all events after feeding `bars` in order.
  function Run(s: SmcState, bars: seq<Bar>, left: nat, right: nat): (r: (SmcState, seq<SmcEvent>))
    ensures r.0.bars == s.bars + bars
  {
    if bars == [] then (s, [])
    else
      var before := Run(s, bars[..|bars| - 1], left, right);
      var last := Step(before.0, bars[|bars| - 1], left, right);
      assert bars[..|bars| - 1] + [bars[|bars| - 1]] == bars;
      (last.0, before.1 + last.1)
  }

  /// `SmcEngine`, updated in place by `process_bar`.
  class SmcEngine {
    const pivotLeft: nat
    const pivotRight: nat
    var bars: seq<Bar>
    var lastPivotHigh: Option<Pivot>
    var lastPivotLow: Option<Pivot>
    var pendingSweepLow: Option<Pivot>
    var pendingSweepHigh: Option<Pivot>
    var lastBullishBosLevel: Option<real>
    var lastBearishBosLevel: Option<real>

    function State(): SmcState
      reads this
    {
      SmcState(bars, lastPivotHigh, lastPivotLow, pendingSweepLow, pendingSweepHigh,
               lastBullishBosLevel, lastBearishBosLevel)
    }

    /// `SmcEngine::new`: empty buffer, nothing seen.
    constructor (pivotLeft: nat, pivotRight: nat)
      ensures State() == InitialState()
      ensures this.pivotLeft == pivotLeft && this.pivotRight == pivotRight
    {
      this.pivotLeft := pivotLeft;
      this.pivotRight := pivotRight;
      bars := [];
      lastPivotHigh := None;
      lastPivotLow := None;
      pendingSweepLow := None;
      pendingSweepHigh := None;
      lastBullishBosLevel := None;
      lastBearishBosLevel := None;
    }

    /// The scan for a pivot high at `cand`: left window, then right window.
    method IsPivotHigh(cand: nat) returns (ok: bool)
      requires cand + pivotRight < |bars|
      ensures ok == PivotHighAt(bars, cand, pivotLeft, pivotRight)
    {
      var candHigh := bars[cand].high;
      var leftStart := if cand >= pivotLeft then cand - pivotLeft else 0;
      for i := leftStart to cand
        invariant forall j :: leftStart <= j < i ==> bars[j].high < candHigh
      {
        if bars[i].high >= candHigh {
          return false;
        }
      }
      for i := cand + 1 to cand + pivotRight + 1
        invariant forall j :: cand < j < i ==> bars[j].high < candHigh
      {
        if bars[i].high >= candHigh {
          return false;
        }
      }
      return true;
    }

    /// The scan for a pivot low at `cand`.
    method IsPivotLow(cand: nat) returns (ok: bool)
      requires cand + pivotRight < |bars|
      ensures ok == PivotLowAt(bars, cand, pivotLeft, pivotRight)
    {
      var candLow := bars[cand].low;
      var leftStart := if cand >= pivotLeft then cand - pivotLeft else 0;
      for i := leftStart to cand
        invariant forall j :: leftStart <= j < i ==> bars[j].low > candLow
      {
        if bars[i].low <= candLow {
          return false;
        }
      }
      for i := cand + 1 to cand + pivotRight + 1
        invariant forall j :: cand < j < i ==> bars[j].low > candLow
      {
        if bars[i].low <= candLow {
          return false;
        }
      }
      return true;
    }

    /// Pivot-low part of `process_bar`.
    method ApplyLow(cand: nat, isLow: bool) returns (lowEvents: seq<SmcEvent>)
      modifies this
      requires cand < |bars|
      ensures State() == LowPhase(old(State()), cand, isLow).0
      ensures lowEvents == LowPhase(old(State()), cand, isLow).1
    {
      lowEvents := [];
      if isLow {
        var p := Pivot(LowPivot, bars[cand].low, bars[cand].time, cand);
        lowEvents := [PivotLow(p.price, p.time, p.index)];
        if lastPivotLow.Some? && p.price < lastPivotLow.value.price {
          pendingSweepLow := Some(p);
          lowEvents := lowEvents + [SweepLow(p.price, p.time, p.index)];
        }
        lastPivotLow := Some(p);
      }
    }

    /// Pivot-high part of `process_bar`.
    method ApplyHigh(cand: nat, isHigh: bool) returns (highEvents: seq<SmcEvent>)
      modifies this
      requires cand < |bars|
      ensures State() == HighPhase(old(State()), cand, isHigh).0
      ensures highEvents == HighPhase(old(State()), cand, isHigh).1
    {
      highEvents := [];
      if isHigh {
        var p := Pivot(HighPivot, bars[cand].high, bars[cand].time, cand);
        highEvents := [PivotHigh(p.price, p.time, p.index)];
        if lastPivotHigh.Some? && p.price > lastPivotHigh.value.price {
          pendingSweepHigh := Some(p);
          highEvents := highEvents + [SweepHigh(p.price, p.time, p.index)];
        }
        lastPivotHigh := Some(p);
      }
    }

    /// Bullish-break part of `process_bar`.
    method ApplyBullish(idx: nat) returns (bullEvents: seq<SmcEvent>)
      modifies this
      requires idx < |bars|
      ensures State() == BullishPhase(old(State()), idx).0
      ensures bullEvents == BullishPhase(old(State()), idx).1
    {
      bullEvents := [];
      if lastPivotHigh.Some? {
        var pHigh := lastPivotHigh.value;
        var close := bars[idx].close;
        var crossedUp := close > pHigh.price &&
                         (lastBullishBosLevel.None? || lastBullishBosLevel.value != pHigh.price);
        if crossedUp {
          bullEvents := [BullishBos(pHigh.price, bars[idx].time, idx)];
          lastBullishBosLevel := Some(pHigh.price);
          if pendingSweepLow.Some? {
            bullEvents := bullEvents + [StrongLow(pendingSweepLow.value.price, bars[idx].time, idx)];
            pendingSweepLow := None;
          }
        }
      }
    }

    /// Bearish-break part of `process_bar`.
    method ApplyBearish(idx: nat) returns (bearEvents: seq<SmcEvent>)
      modifies this
      requires idx < |bars|
      ensures State() == BearishPhase(old(State()), idx).0
      ensures bearEvents == BearishPhase(old(State()), idx).1
    {
      bearEvents := [];
      if lastPivotLow.Some? {
        var pLow := lastPivotLow.value;
        var close := bars[idx].close;
        var crossedDown := close < pLow.price &&
                           (lastBearishBosLevel.None? || lastBearishBosLevel.value != pLow.price);
        if crossedDown {
          bearEvents := [BearishBos(pLow.price, bars[idx].time, idx)];
          lastBearishBosLevel := Some(pLow.price);
          if pendingSweepHigh.Some? {
            bearEvents := bearEvents + [StrongHigh(pendingSweepHigh.value.price, bars[idx].time, idx)];
            pendingSweepHigh := None;
          }
        }
      }
    }

    /// `process_bar`: buffer the bar and report what it reveals.
    method ProcessBar(bar: Bar) returns (events: seq<SmcEvent>)
      modifies this
      ensures (State(), events) == Step(old(State()), bar, pivotLeft, pivotRight)
    {
      bars := bars + [bar];
      var idx := |bars| - 1;
      events := [];
      if idx < pivotLeft + pivotRight {
        return;
      }
      ghost var s0 := State();
      var cand := idx - pivotRight;
      var isPivotHigh := IsPivotHigh(cand);
      var isPivotLow := IsPivotLow(cand);
      assert Step(old(State()), bar, pivotLeft, pivotRight) == Detect(s0, cand, isPivotLow, isPivotHigh);
      ghost var r1 := LowPhase(s0, cand, isPivotLow);
      var lowEvents := ApplyLow(cand, isPivotLow);
      ghost var r2 := HighPhase(r1.0, cand, isPivotHigh);
      var highEvents := ApplyHigh(cand, isPivotHigh);
      ghost var r3 := BullishPhase(r2.0, idx);
      var bullEvents := ApplyBullish(idx);
      ghost var r4 := BearishPhase(r3.0, idx);
      var bearEvents := ApplyBearish(idx);
      assert State() == r4.0;
      events := lowEvents + highEvents + bullEvents + bearEvents;
      assert Detect(s0, cand, isPivotLow, isPivotHigh) == (r4.0, r1.1 + r2.1 + r3.1 + r4.1);
    }
  }

  /// Width of a strong-level zone, as a fraction of the level.
  const ZoneWidth: real := 0.00075

  /// The zones `smc_main` collects from a list of events: a strong low at
  /// `p` gives the long zone `[p - p * ZoneWidth, p]`, a strong high the
  /// short zone `[p, p + p * ZoneWidth]`, in the order of the events.
  function LongZonesOf(events: seq<SmcEvent>): (r: seq<Bot.Zone>)
    ensures |r| <= |events|
  {
    if events == [] then []
    else
      var rest := LongZonesOf(events[..|events| - 1]);
      var e := events[|events| - 1];
      if e.StrongLow? then rest + [Bot.Zone(e.price - e.price * ZoneWidth, e.price)] else rest
  }

  function ShortZonesOf(events: seq<SmcEvent>): (r: seq<Bot.Zone>)
    ensures |r| <= |events|
  {
    if events == [] then []
    else
      var rest := ShortZonesOf(events[..|events| - 1]);
      var e := events[|events| - 1];
      if e.StrongHigh? then rest + [Bot.Zone(e.price, e.price + e.price * ZoneWidth)] else rest
  }

  /// A zone built from a positive level is a proper band whose edge is the
  /// level itself.
  lemma StrongZonesHoldTheirLevel(p: real)
    requires p > 0.0
    ensures var z := Bot.Zone(p - p * ZoneWidth, p); z.low < z.high && z.Contains(p)
    ensures var z := Bot.Zone(p, p + p * ZoneWidth); z.low < z.high && z.Contains(p)
  {
  }

  /// One more event adds at most its own zone.
  lemma ZonesOfSnoc(seen: seq<SmcEvent>, e: SmcEvent)
    ensures LongZonesOf(seen + [e]) ==
            LongZonesOf(seen) + (if e.StrongLow? then [Bot.Zone(e.price - e.price * ZoneWidth, e.price)] else [])
    ensures ShortZonesOf(seen + [e]) ==
            ShortZonesOf(seen) + (if e.StrongHigh? then [Bot.Zone(e.price, e.price + e.price * ZoneWidth)] else [])
  {
    assert (seen + [e])[..|seen + [e]| - 1] == seen;
  }

  /// The inner loop of `smc_main`: the zones of one bar's events added to
  /// those collected so far.
  method AddZones(ghost seen: seq<SmcEvent>, lows: seq<Bot.Zone>, highs: seq<Bot.Zone>, events: seq<SmcEvent>)
    returns (sweepLows: seq<Bot.Zone>, sweepHighs: seq<Bot.Zone>)
    requires lows == LongZonesOf(seen) && highs == ShortZonesOf(seen)
    ensures sweepLows == LongZonesOf(seen + events) && sweepHighs == ShortZonesOf(seen + events)
  {
    sweepLows, sweepHighs := lows, highs;
    assert seen + events[..0] == seen;
    for k := 0 to |events|
      invariant sweepLows == LongZonesOf(seen + events[..k]) && sweepHighs == ShortZonesOf(seen + events[..k])
    {
      ghost var prefix := seen + events[..k];
      var e := events[k];
      assert seen + events[..k + 1] == prefix + [e];
      ZonesOfSnoc(prefix, e);
      if e.StrongLow? {
        sweepLows := sweepLows + [Bot.Zone(e.price - e.price * ZoneWidth, e.price)];
      } else if e.StrongHigh? {
        sweepHighs := sweepHighs + [Bot.Zone(e.price, e.price + e.price * ZoneWidth)];
      }
    }
    assert events[..|events|] == events;
  }

  /// Bars in order of time.
  predicate SortedByTime(bars: seq<Bar>)
  {
    forall i, j :: 0 <= i < j < |bars| ==> bars[i].time <= bars[j].time
  }

  /// Inserts `b` into `sorted` after every bar that is not later than it,
  /// so that bars of equal time keep their order.
  function InsertByTime(b: Bar, sorted: seq<Bar>): (r: seq<Bar>)
    requires SortedByTime(sorted)
    ensures SortedByTime(r)
    ensures multiset(r) == multiset(sorted) + multiset{b}
    ensures forall i :: 0 <= i < |r| ==> r[i].time <= b.time || r[i] in sorted
    decreases |sorted|
  {
    if sorted == [] then [b]
    else
      var last := sorted[|sorted| - 1];
      var init := sorted[..|sorted| - 1];
      assert sorted == init + [last];
      if last.time <= b.time then sorted + [b]
      else
        var r := InsertByTime(b, init);
        AppendLater(r, init, b, last);
        r + [last]
  }

  lemma AppendLater(r: seq<Bar>, init: seq<Bar>, b: Bar, last: Bar)
    requires SortedByTime(r) && SortedByTime(init + [last]) && b.time < last.time
    requires forall i :: 0 <= i < |r| ==> r[i].time <= b.time || r[i] in init
    ensures SortedByTime(r + [last])
  {
    forall i | 0 <= i < |r|
      ensures r[i].time <= last.time
    {
      if r[i] in init {
        var k :| 0 <= k < |init| && init[k] == r[i];
        assert (init + [last])[k] == init[k] && (init + [last])[|init|] == last;
      }
    }
  }

  /// `sort_by_key(|s| s.time)`: a stable sort of the bars by time.
  function SortByTime(bars: seq<Bar>): (r: seq<Bar>)
    ensures SortedByTime(r)
    ensures multiset(r) == multiset(bars)
    decreases |bars|
  {
    if bars == [] then []
    else
      var init := bars[..|bars| - 1];
      assert bars == init + [bars[|bars| - 1]];
      InsertByTime(bars[|bars| - 1], SortByTime(init))
  }

  /// The prefix of a sorted list is sorted, and the last bar is not
  /// earlier than any of it, so inserting it appends it.
  lemma SortedPrefix(init: seq<Bar>, last: Bar)
    requires SortedByTime(init + [last])
    ensures SortedByTime(init)
    ensures InsertByTime(last, init) == init + [last]
  {
    assert forall i :: 0 <= i < |init| ==> (init + [last])[i] == init[i];
    if init != [] {
      assert (init + [last])[|init|] == last;
    }
  }

  /// Bars already in order of time are left as they are.
  lemma {:induction false} SortKeepsSorted(bars: seq<Bar>)
    requires SortedByTime(bars)
    ensures SortByTime(bars) == bars
    decreases |bars|
  {
    if bars != [] {
      var init := bars[..|bars| - 1];
      var last := bars[|bars| - 1];
      assert bars == init + [last];
      SortedPrefix(init, last);
      SortKeepsSorted(init);
      assert SortByTime(bars) == InsertByTime(last, init);
    }
  }

  /// The engine loop of `smc_main`: the bars sorted by time, then fed to a
  /// fresh (3, 3) engine, with the strong lows and highs turned into zones.
  method CollectZones(bars: seq<Bar>) returns (sweepLows: seq<Bot.Zone>, sweepHighs: seq<Bot.Zone>)
    ensures sweepLows == LongZonesOf(Run(InitialState(), SortByTime(bars), 3, 3).1)
    ensures sweepHighs == ShortZonesOf(Run(InitialState(), SortByTime(bars), 3, 3).1)
  {
    var sampleBars := SortByTime(bars);
    var eng := new SmcEngine(3, 3);
    sweepLows := [];
    sweepHighs := [];
    ghost var all: seq<SmcEvent> := [];
    for n := 0 to |sampleBars|
      invariant eng.pivotLeft == 3 && eng.pivotRight == 3
      invariant eng.State() == Run(InitialState(), sampleBars[..n], 3, 3).0
      invariant all == Run(InitialState(), sampleBars[..n], 3, 3).1
      invariant sweepLows == LongZonesOf(all) && sweepHighs == ShortZonesOf(all)
    {
      var events := eng.ProcessBar(sampleBars[n]);
      assert sampleBars[..n + 1][..n] == sampleBars[..n];
      sweepLows, sweepHighs := AddZones(all, sweepLows, sweepHighs, events);
      all := all + events;
    }
    assert sampleBars[..|sampleBars|] == sampleBars;
  }

  /// The long zone of `smc_main`: the first zone of lowest `low`.
  function LowestZone(zones: seq<Bot.Zone>): (r: Option<nat>)
    ensures r.None? <==> zones == []
    ensures r.Some? ==> (r.value < |zones| &&
              (forall j :: 0 <= j < |zones| ==> zones[r.value].low <= zones[j].low) &&
              (forall j :: 0 <= j < r.value ==> zones[r.value].low < zones[j].low))
  {
    if zones == [] then None
    else
      var rest := LowestZone(zones[..|zones| - 1]);
      if rest.Some? && zones[rest.value].low <= zones[|zones| - 1].low then rest
      else if rest.Some? then Some(|zones| - 1)
      else Some(0)
  }

  /// The short zone of `smc_main`: the last zone of highest `high` (a
  /// maximum search keeps the later of equal elements).
  function HighestZone(zones: seq<Bot.Zone>): (r: Option<nat>)
    ensures r.None? <==> zones == []
    ensures r.Some? ==> (r.value < |zones| &&
              (forall j :: 0 <= j < |zones| ==> zones[j].high <= zones[r.value].high) &&
              (forall j :: r.value < j < |zones| ==> zones[j].high < zones[r.value].high))
  {
    if zones == [] then None
    else
      var rest := HighestZone(zones[..|zones| - 1]);
      if rest.Some? && zones[rest.value].high > zones[|zones| - 1].high then rest
      else Some(|zones| - 1)
  }

  /// The zones `smc_main` stores: one long and one short zone, or nothing
  /// when either side has no zone or its pick has a zero edge.
  function ChooseZones(sweepLows: seq<Bot.Zone>, sweepHighs: seq<Bot.Zone>): (r: Option<Bot.Zones>)
    ensures r.Some? ==> |r.value.longZones| == 1 && |r.value.shortZones| == 1
    ensures r.Some? ==> r.value.longZones[0] in sweepLows && r.value.shortZones[0] in sweepHighs
    ensures r.Some? ==> forall z :: z in sweepLows ==> r.value.longZones[0].low <= z.low
    ensures r.Some? ==> forall z :: z in sweepHighs ==> z.high <= r.value.shortZones[0].high
    ensures sweepLows == [] || sweepHighs == [] ==> r.None?
    ensures r.Some? <==>
              sweepLows != [] && sweepHighs != [] &&
              sweepLows[LowestZone(sweepLows).value].low != 0.0 &&
              sweepLows[LowestZone(sweepLows).value].high != 0.0 &&
              sweepHighs[HighestZone(sweepHighs).value].low != 0.0 &&
              sweepHighs[HighestZone(sweepHighs).value].high != 0.0
    ensures r.Some? ==>
              r.value == Bot.Zones([sweepLows[LowestZone(sweepLows).value]], [sweepHighs[HighestZone(sweepHighs).value]])
  {
    var longZone := match LowestZone(sweepLows) case Some(i) => sweepLows[i] case None => Bot.Zone(0.0, 0.0);
    if longZone.low == 0.0 || longZone.high == 0.0 then None
    else
      var shortZone := match HighestZone(sweepHighs) case Some(i) => sweepHighs[i] case None => Bot.Zone(0.0, 0.0);
      if shortZone.low == 0.0 || shortZone.high == 0.0 then None
      else Some(Bot.Zones([longZone], [shortZone]))
  }
}
