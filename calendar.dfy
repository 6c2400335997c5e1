/// The macro calendar of src/calendar/mod.rs: economic events, the
/// no-trade windows around critical high-impact ones, and the checks that
/// keep entries out of those windows. Times are seconds since the epoch.
module Calendar {
  import opened Wrappers
  import opened Text

  datatype ImpactLevel = Low | Medium | High

  /// A calendar entry as it appears in the data file.
  datatype CalendarEvent = CalendarEvent(date: string, time: string, zone: string,
                                         importance: Option<string>, event: string)

  /// An event with its time resolved.
  datatype EconomicEvent = EconomicEvent(timestampUtc: int, country: string, event: string, impact: ImpactLevel)

  /// The importance column: "high", "medium" and "low" name their level;
  /// anything else, a missing value included, counts as Low.
  function ParseImpact(importance: Option<string>): (r: ImpactLevel)
    ensures r == High <==> importance == Some("high")
    ensures r == Medium <==> importance == Some("medium")
    ensures importance.None? ==> r == Low
  {
    match importance
    case Some(s) =>
      if s == "high" then High
      else if s == "medium" then Medium
      else Low
    case None => Low
  }

  /// The time column: an all-day entry, in any letter case, is read as
  /// midnight.
  function TimePart(time: string): (r: string)
    ensures ToLower(time) == "all day" ==> r == "00:00"
    ensures ToLower(time) != "all day" ==> r == time
  {
    if ToLower(time) == "all day" then "00:00" else time
  }

  lemma AllDayIsMidnight()
    ensures TimePart("All Day") == "00:00"
    ensures TimePart("ALL DAY") == "00:00"
    ensures TimePart("14:45") == "14:45"
  {
    LowerAllDay("All Day");
    LowerAllDay("ALL DAY");
    assert |ToLower("14:45")| != |"all day"|;
  }

  /// Both spellings of an all-day entry lower-case to "all day".
  lemma LowerAllDay(s: string)
    requires s == "All Day" || s == "ALL DAY"
    ensures ToLower(s) == "all day"
  {
    var r := ToLower(s);
    var want := "all day";
    forall i | 0 <= i < |want|
      ensures r[i] == want[i]
    {
      assert r[i] == LowerChar(s[i]);
    }
  }

  /// `EconomicEvent::try_from`: join date and time and parse them with the
  /// `%d/%m/%Y %H:%M` parser `parseDateTime` (the calendar library, not
  /// modelled), keep zone and name, and map the importance.
  function TryFrom(raw: CalendarEvent, parseDateTime: string -> Option<int>): (r: Result<EconomicEvent, string>)
    ensures r.Err? <==> parseDateTime(raw.date + " " + TimePart(raw.time)).None?
    ensures r.Ok? ==> r.value == EconomicEvent(parseDateTime(raw.date + " " + TimePart(raw.time)).value,
                                                raw.zone, raw.event, ParseImpact(raw.importance))
  {
    var dtStr := raw.date + " " + TimePart(raw.time);
    match parseDateTime(dtStr)
    case None => Err("Failed to parse date/time")
    case Some(ts) => Ok(EconomicEvent(ts, raw.zone, raw.event, ParseImpact(raw.importance)))
  }

  /// `sub` occurs in `s` starting at index `i`.
  predicate OccursAt(s: string, sub: string, i: int)
  {
    0 <= i && i + |sub| <= |s| && s[i..i + |sub|] == sub
  }

  /// `sub` occurs in `s`.
  ghost predicate HasSubstring(s: string, sub: string)
  {
    exists i :: OccursAt(s, sub, i)
  }

  /// The substring search `str::contains`, scanning from the left.
  function ContainsFrom(s: string, sub: string, from: nat): (r: bool)
    requires from <= |s| + 1
    ensures r <==> exists i :: from <= i && OccursAt(s, sub, i)
    decreases |s| + 1 - from
  {
    if from + |sub| > |s| then false
    else if s[from..from + |sub|] == sub then assert OccursAt(s, sub, from); true
    else
      var rest := ContainsFrom(s, sub, from + 1);
      assert !OccursAt(s, sub, from);
      rest
  }

  function Contains(s: string, sub: string): (r: bool)
    ensures r <==> HasSubstring(s, sub)
  {
    ContainsFrom(s, sub, 0)
  }

  /// The names that mark a macro event as critical.
  const CriticalMarkers: seq<string> := ["Consumer Price Index (CPI)", "Core CPI", "Non Farm Payrolls",
                                          "Fed Interest Rate Decision", "FOMC", "GDP Growth Rate"]

  /// `is_critical_macro_event`.
  function IsCriticalMacroEvent(e: EconomicEvent): (r: bool)
    ensures r <==> exists k :: 0 <= k < |CriticalMarkers| && HasSubstring(e.event, CriticalMarkers[k])
  {
    var s := e.event;
    Contains(s, CriticalMarkers[0]) || Contains(s, CriticalMarkers[1]) || Contains(s, CriticalMarkers[2]) ||
    Contains(s, CriticalMarkers[3]) || Contains(s, CriticalMarkers[4]) || Contains(s, CriticalMarkers[5])
  }

  /// A window in which no position may be opened, both ends included.
  datatype NoTradeWindow = NoTradeWindow(start: int, end: int)

  predicate InWindow(now: int, w: NoTradeWindow)
  {
    w.start <= now <= w.end
  }

  /// An event that opens a window: high impact and critical.
  predicate Blocks(e: EconomicEvent)
  {
    e.impact == High && IsCriticalMacroEvent(e)
  }

  function WindowOf(e: EconomicEvent, preBuffer: int, postBuffer: int): NoTradeWindow
  {
    NoTradeWindow(e.timestampUtc - preBuffer, e.timestampUtc + postBuffer)
  }

  /// `build_no_trade_windows`: one window `[t - pre, t + post]` per blocking
  /// event, in the order of the events.
  function BuildNoTradeWindows(events: seq<EconomicEvent>, preBuffer: int, postBuffer: int): (r: seq<NoTradeWindow>)
    ensures |r| <= |events|
  {
    if events == [] then []
    else
      var rest := BuildNoTradeWindows(events[1..], preBuffer, postBuffer);
      if Blocks(events[0]) then [WindowOf(events[0], preBuffer, postBuffer)] + rest else rest
  }

  /// Each window is that of a blocking event, and every blocking event has
  /// its window.
  lemma {:induction false} WindowsOfBlockingEvents(events: seq<EconomicEvent>, preBuffer: int, postBuffer: int)
    ensures forall w :: w in BuildNoTradeWindows(events, preBuffer, postBuffer) ==>
              exists e :: e in events && Blocks(e) && w == WindowOf(e, preBuffer, postBuffer)
    ensures forall e :: e in events && Blocks(e) ==>
              WindowOf(e, preBuffer, postBuffer) in BuildNoTradeWindows(events, preBuffer, postBuffer)
  {
    if events != [] {
      var rest := BuildNoTradeWindows(events[1..], preBuffer, postBuffer);
      var r := BuildNoTradeWindows(events, preBuffer, postBuffer);
      WindowsOfBlockingEvents(events[1..], preBuffer, postBuffer);
      assert r == (if Blocks(events[0]) then [WindowOf(events[0], preBuffer, postBuffer)] else []) + rest;
      forall w | w in r
        ensures exists e :: e in events && Blocks(e) && w == WindowOf(e, preBuffer, postBuffer)
      {
        if w !in rest {
          assert events[0] in events;
        } else {
          var e :| e in events[1..] && Blocks(e) && w == WindowOf(e, preBuffer, postBuffer);
          assert e in events;
        }
      }
      forall e | e in events && Blocks(e)
        ensures WindowOf(e, preBuffer, postBuffer) in r
      {
        if e != events[0] {
          var k :| 0 <= k < |events| && events[k] == e;
          assert events[1..][k - 1] == e;
        }
      }
    }
  }

  /// The windows follow the order of their events: building over two
  /// lists one after the other is building over each and concatenating.
  lemma {:induction false} WindowsOfConcat(a: seq<EconomicEvent>, b: seq<EconomicEvent>, preBuffer: int, postBuffer: int)
    ensures BuildNoTradeWindows(a + b, preBuffer, postBuffer) ==
            BuildNoTradeWindows(a, preBuffer, postBuffer) + BuildNoTradeWindows(b, preBuffer, postBuffer)
  {
    if a != [] {
      assert (a + b)[0] == a[0];
      assert (a + b)[1..] == a[1..] + b;
      WindowsOfConcat(a[1..], b, preBuffer, postBuffer);
    } else {
      assert a + b == b;
    }
  }

  /// `is_trading_allowed`: `now` lies in none of the windows.
  function IsTradingAllowed(now: int, windows: seq<NoTradeWindow>): (r: bool)
    ensures r <==> forall i :: 0 <= i < |windows| ==> !InWindow(now, windows[i])
    ensures windows == [] ==> r
  {
    if windows == [] then true
    else !InWindow(now, windows[0]) && IsTradingAllowed(now, windows[1..])
  }

  /// `macro_trading_allowed`, whose body is that of `is_trading_allowed`.
  function MacroTradingAllowed(now: int, windows: seq<NoTradeWindow>): (r: bool)
    ensures r <==> forall i :: 0 <= i < |windows| ==> !InWindow(now, windows[i])
  {
    IsTradingAllowed(now, windows)
  }

  /// Trading is allowed at `now` exactly when no blocking event lies within
  /// `pre` after or `post` before it.
  lemma {:induction false} AllowedIffNoBlockingEventNear(now: int, events: seq<EconomicEvent>, preBuffer: int, postBuffer: int)
    ensures IsTradingAllowed(now, BuildNoTradeWindows(events, preBuffer, postBuffer)) <==>
            forall e :: e in events && Blocks(e) ==> !(e.timestampUtc - preBuffer <= now <= e.timestampUtc + postBuffer)
  {
    var windows := BuildNoTradeWindows(events, preBuffer, postBuffer);
    WindowsOfBlockingEvents(events, preBuffer, postBuffer);
    if IsTradingAllowed(now, windows) {
      forall e | e in events && Blocks(e)
        ensures !(e.timestampUtc - preBuffer <= now <= e.timestampUtc + postBuffer)
      {
        var w := WindowOf(e, preBuffer, postBuffer);
        var i :| 0 <= i < |windows| && windows[i] == w;
        assert !InWindow(now, windows[i]);
      }
    } else {
      var i :| 0 <= i < |windows| && InWindow(now, windows[i]);
      assert windows[i] in windows;
      var e :| e in events && Blocks(e) && windows[i] == WindowOf(e, preBuffer, postBuffer);
    }
  }

  /// The test `filter_events` applies: same country ignoring case, same
  /// impact.
  predicate MatchesFilter(e: EconomicEvent, country: string, importance: ImpactLevel)
  {
    ToLower(country) == ToLower(e.country) && importance == e.impact
  }

  function FilterMatching(events: seq<EconomicEvent>, country: string, importance: ImpactLevel): (r: seq<EconomicEvent>)
    ensures |r| <= |events|
    ensures forall e :: e in r <==> e in events && MatchesFilter(e, country, importance)
  {
    if events == [] then []
    else
      var rest := FilterMatching(events[1..], country, importance);
      assert forall e :: e in events <==> e == events[0] || e in events[1..];
      if MatchesFilter(events[0], country, importance) then [events[0]] + rest else rest
  }

  /// The filter keeps the order of the events.
  lemma {:induction false} FilterOfConcat(a: seq<EconomicEvent>, b: seq<EconomicEvent>, country: string, importance: ImpactLevel)
    ensures FilterMatching(a + b, country, importance) ==
            FilterMatching(a, country, importance) + FilterMatching(b, country, importance)
  {
    if a != [] {
      assert (a + b)[0] == a[0];
      assert (a + b)[1..] == a[1..] + b;
      FilterOfConcat(a[1..], b, country, importance);
    } else {
      assert a + b == b;
    }
  }

  /// `filter_events`: fails when the backup data file is missing; otherwise
  /// the matching events of those fetched.
  function FilterEvents(fileExists: bool, events: seq<EconomicEvent>, country: string, importance: ImpactLevel): (r: Result<seq<EconomicEvent>, string>)
    ensures r.Err? <==> !fileExists
    ensures r.Ok? ==> r.value == FilterMatching(events, country, importance)
  {
    if !fileExists then Err("File data/calendar_data.json not found")
    else Ok(FilterMatching(events, country, importance))
  }

  /// Twelve hours, the buffer on each side of a macro event.
  const MacroBuffer: int := 12 * 60 * 60

  /// `MacroGuard`: the windows built from the high-impact United States
  /// events.
  datatype MacroGuard = MacroGuard(windows: seq<NoTradeWindow>)
  {
    /// `allow_entry`: no window holds `now`.
    predicate AllowEntry(now: int)
      ensures AllowEntry(now) <==> forall i :: 0 <= i < |windows| ==> !InWindow(now, windows[i])
      ensures windows == [] ==> AllowEntry(now)
    {
      TradingAllowed(now, windows)
    }
  }

  /// `MacroGuard::trading_allowed`, whose body is that of `is_trading_allowed`.
  function TradingAllowed(now: int, windows: seq<NoTradeWindow>): (r: bool)
    ensures r <==> forall i :: 0 <= i < |windows| ==> !InWindow(now, windows[i])
  {
    MacroTradingAllowed(now, windows)
  }

  /// The country the guard watches.
  const UnitedStates: string := "united states"

  /// `MacroGuard::new`.
  function NewMacroGuard(fileExists: bool, events: seq<EconomicEvent>): (r: Result<MacroGuard, string>)
    ensures r.Err? <==> !fileExists
    ensures r.Ok? ==>
              r.value.windows == BuildNoTradeWindows(FilterMatching(events, UnitedStates, High), MacroBuffer, MacroBuffer)
  {
    match FilterEvents(fileExists, events, UnitedStates, High)
    case Err(e) => Err(e)
    case Ok(filtered) => Ok(MacroGuard(BuildNoTradeWindows(filtered, MacroBuffer, MacroBuffer)))
  }

  /// A guard built from the calendar refuses entries exactly within twelve
  /// hours of a critical high-impact United States event (country compared
  /// ignoring case).
  lemma GuardBlocksNearCriticalEvents(events: seq<EconomicEvent>, now: int)
    ensures var g := NewMacroGuard(true, events).value;
      g.AllowEntry(now) <==>
      forall e :: e in events && ToLower(e.country) == ToLower(UnitedStates) && e.impact == High && IsCriticalMacroEvent(e) ==>
                    !(e.timestampUtc - MacroBuffer <= now <= e.timestampUtc + MacroBuffer)
  {
    var filtered := FilterMatching(events, UnitedStates, High);
    var windows := BuildNoTradeWindows(filtered, MacroBuffer, MacroBuffer);
    assert NewMacroGuard(true, events).value.windows == windows;
    assert NewMacroGuard(true, events).value.AllowEntry(now) == IsTradingAllowed(now, windows);
    AllowedIffNoBlockingEventNear(now, filtered, MacroBuffer, MacroBuffer);
    forall e
      ensures (e in filtered && Blocks(e)) <==>
              (e in events && ToLower(e.country) == ToLower(UnitedStates) && e.impact == High && IsCriticalMacroEvent(e))
    {
    }
  }
}
