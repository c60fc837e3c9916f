/**
 * The forecast snapshot (src/weather.rs): classifying a list of provider
 * condition codes into rain, snow and thunder flags, picking the five slots
 * of the snapshot out of a provider response, the "unknown" placeholder, and
 * the fetch cycle's rule for what is sent and how long to wait.
 */
module Weather {
  import opened Wrappers
  import opened Owm

  // ---------------------------------------------------------------------------
  // Condition codes (src/weather.rs:12-23)
  // ---------------------------------------------------------------------------

  /** Rust's `/` on integers: the quotient is truncated toward zero. */
  function RustDiv(a: int, b: int): int
    requires b > 0
  {
    if a >= 0 then a / b else -((-a) / b)
  }

  /** The rain search's test: `id / 100` is 5, 2 or 3. */
  predicate IsRainId(id: int)
  {
    RustDiv(id, 100) == 5 || RustDiv(id, 100) == 2 || RustDiv(id, 100) == 3
  }

  /** The thunder search's test: `id / 100 == 2`. */
  predicate IsThunderId(id: int)
  {
    RustDiv(id, 100) == 2
  }

  /** The snow search's test: `id / 100 == 6`. */
  predicate IsSnowId(id: int)
  {
    RustDiv(id, 100) == 6
  }

  /** The three tests as ranges of codes: thunderstorms are 2xx, drizzle 3xx,
      rain 5xx and snow 6xx; 4xx and every negative code match nothing. */
  lemma IdClassesAsRanges(id: int)
    ensures IsRainId(id) <==> 200 <= id < 400 || 500 <= id < 600
    ensures IsThunderId(id) <==> 200 <= id < 300
    ensures IsSnowId(id) <==> 600 <= id < 700
  {
    if id < 0 {
      assert RustDiv(id, 100) <= 0;
    }
  }

  /** The three searches `RainSituation::from` runs, in this order. */
  datatype Search = RainSearch | ThunderSearch | SnowSearch

  predicate Satisfies(k: Search, w: Weather)
  {
    match k
    case RainSearch => IsRainId(w.id)
    case ThunderSearch => IsThunderId(w.id)
    case SnowSearch => IsSnowId(w.id)
  }

  /** Position of the first element at or after `from` that passes search
      `k`, or `|ws|` when there is none. */
  function FirstMatch(ws: seq<Weather>, from: nat, k: Search): (r: nat)
    requires from <= |ws|
    ensures from <= r <= |ws|
    ensures r < |ws| ==> Satisfies(k, ws[r])
    decreases |ws| - from
  {
    if from == |ws| then from
    else if Satisfies(k, ws[from]) then from
    else FirstMatch(ws, from + 1, k)
  }

  /** No element between `from` and the first match passes the search. */
  lemma {:induction false} FirstMatchIsFirst(ws: seq<Weather>, from: nat, k: Search)
    requires from <= |ws|
    ensures forall j :: from <= j < FirstMatch(ws, from, k) ==> !Satisfies(k, ws[j])
    decreases |ws| - from
  {
    if from < |ws| && !Satisfies(k, ws[from]) {
      FirstMatchIsFirst(ws, from + 1, k);
    }
  }

  /** What `Iterator::any` returns and where it leaves the iterator. */
  datatype AnyStep = AnyStep(found: bool, next: nat)

  /** `Iterator::any` on an iterator standing at `from`: whether some element
      passes search `k`, and the position just past the first one that does,
      or the end of the list. */
  function AnyFrom(ws: seq<Weather>, from: nat, k: Search): (s: AnyStep)
    requires from <= |ws|
    ensures from <= s.next <= |ws|
    ensures s.found ==> from < s.next
    ensures !s.found ==> s.next == |ws|
  {
    var r := FirstMatch(ws, from, k);
    if r < |ws| then AnyStep(true, r + 1) else AnyStep(false, |ws|)
  }

  /** `any` answers whether some remaining element matches, and consumes the
      elements up to and including the first match, none of which before it
      matches. */
  lemma AnyFromConsumes(ws: seq<Weather>, from: nat, k: Search)
    requires from <= |ws|
    ensures AnyFrom(ws, from, k).found <==> exists j :: from <= j < |ws| && Satisfies(k, ws[j])
    ensures AnyFrom(ws, from, k).found ==> Satisfies(k, ws[AnyFrom(ws, from, k).next - 1])
    ensures forall j :: from <= j < AnyFrom(ws, from, k).next - 1 ==> !Satisfies(k, ws[j])
  {
    FirstMatchIsFirst(ws, from, k);
  }

  /** The three flags derived from one condition list. */
  datatype RainSituation = RainSituation(rain: bool, snow: bool, thunder: bool)

  /** Where the shared iterator stands after the rain search. */
  function RainStop(ws: seq<Weather>): nat
  {
    AnyFrom(ws, 0, RainSearch).next
  }

  /** Where the shared iterator stands after the thunder search. */
  function ThunderStop(ws: seq<Weather>): (p: nat)
    ensures RainStop(ws) <= p <= |ws|
  {
    AnyFrom(ws, RainStop(ws), ThunderSearch).next
  }

  /** `RainSituation::from`: three `any` calls on one iterator, so each
      search resumes where the previous one stopped. */
  function Classify(ws: seq<Weather>): RainSituation
  {
    var rain := AnyFrom(ws, 0, RainSearch);
    var thunder := AnyFrom(ws, rain.next, ThunderSearch);
    var snow := AnyFrom(ws, thunder.next, SnowSearch);
    RainSituation(rain.found, snow.found, thunder.found)
  }

  /** Rain is set exactly when some code is 2xx, 3xx or 5xx. */
  lemma ClassifyRain(ws: seq<Weather>)
    ensures Classify(ws).rain <==>
            exists i :: 0 <= i < |ws| && (200 <= ws[i].id < 400 || 500 <= ws[i].id < 600)
  {
    AnyFromConsumes(ws, 0, RainSearch);
    if Classify(ws).rain {
      var i :| 0 <= i < |ws| && IsRainId(ws[i].id);
      IdClassesAsRanges(ws[i].id);
    }
    if exists i :: 0 <= i < |ws| && (200 <= ws[i].id < 400 || 500 <= ws[i].id < 600) {
      var i :| 0 <= i < |ws| && (200 <= ws[i].id < 400 || 500 <= ws[i].id < 600);
      IdClassesAsRanges(ws[i].id);
      assert Satisfies(RainSearch, ws[i]);
    }
  }

  /** Thunder is set exactly when a 2xx code comes strictly after the first
      rain-class code; the code the rain search stopped on is not looked at
      again. */
  lemma ClassifyThunder(ws: seq<Weather>)
    ensures RainStop(ws) ==
            if FirstMatch(ws, 0, RainSearch) < |ws| then FirstMatch(ws, 0, RainSearch) + 1 else |ws|
    ensures Classify(ws).thunder <==>
            exists j :: RainStop(ws) <= j < |ws| && 200 <= ws[j].id < 300
  {
    var from := RainStop(ws);
    AnyFromConsumes(ws, 0, RainSearch);
    AnyFromConsumes(ws, from, ThunderSearch);
    if Classify(ws).thunder {
      var j :| from <= j < |ws| && IsThunderId(ws[j].id);
      IdClassesAsRanges(ws[j].id);
    }
    if exists j :: from <= j < |ws| && 200 <= ws[j].id < 300 {
      var j :| from <= j < |ws| && 200 <= ws[j].id < 300;
      IdClassesAsRanges(ws[j].id);
      assert Satisfies(ThunderSearch, ws[j]);
    }
  }

  /** Snow is set exactly when a 6xx code comes after the position where the
      thunder search stopped: just past its match, or the end of the list. */
  lemma ClassifySnow(ws: seq<Weather>)
    ensures Classify(ws).snow <==>
            exists k :: ThunderStop(ws) <= k < |ws| && 600 <= ws[k].id < 700
  {
    var from := ThunderStop(ws);
    AnyFromConsumes(ws, from, SnowSearch);
    if Classify(ws).snow {
      var k :| from <= k < |ws| && IsSnowId(ws[k].id);
      IdClassesAsRanges(ws[k].id);
    }
    if exists k :: from <= k < |ws| && 600 <= ws[k].id < 700 {
      var k :| from <= k < |ws| && 600 <= ws[k].id < 700;
      IdClassesAsRanges(ws[k].id);
      assert Satisfies(SnowSearch, ws[k]);
    }
  }

  /** A search that fails exhausts the iterator, so the later searches find
      nothing: snow implies thunder, and thunder implies rain. */
  lemma ClassifyNesting(ws: seq<Weather>)
    ensures Classify(ws).snow ==> Classify(ws).thunder
    ensures Classify(ws).thunder ==> Classify(ws).rain
    ensures ws == [] ==> Classify(ws) == RainSituation(false, false, false)
  {
  }

  /** Where the shared iterator departs from "any 2xx means thunder, any 6xx
      means snow": a lone thunderstorm code sets only rain, a lone snow code
      sets nothing, and a 4xx code is not rain. */
  lemma ClassifyExamples()
    ensures Classify([Weather(200)]) == RainSituation(true, false, false)
    ensures Classify([Weather(600)]) == RainSituation(false, false, false)
    ensures Classify([Weather(401)]) == RainSituation(false, false, false)
  {
    assert IsRainId(200) && !IsRainId(600) && !IsRainId(401);
    assert !IsThunderId(600) && !IsThunderId(401) && !IsSnowId(401);
  }

  /** Later codes are looked at only after earlier searches stop: thunder
      after rain, snow after thunder. */
  lemma ClassifySharedCursorExamples()
    ensures Classify([Weather(200), Weather(211)]) == RainSituation(true, false, true)
    ensures Classify([Weather(500), Weather(201), Weather(601)]) == RainSituation(true, true, true)
  {
    assert IsRainId(200) && IsRainId(500) && IsThunderId(211) && IsThunderId(201) && IsSnowId(601);
  }


  /** `Iterator::any` on the shared iterator: advances the cursor past the
      first element that passes search `k`, or to the end of the list. */
  method Any(ws: seq<Weather>, cursor: nat, k: Search) returns (found: bool, next: nat)
    requires cursor <= |ws|
    ensures AnyStep(found, next) == AnyFrom(ws, cursor, k)
  {
    next := cursor;
    while next < |ws|
      invariant cursor <= next <= |ws|
      invariant forall j :: cursor <= j < next ==> !Satisfies(k, ws[j])
    {
      var w := ws[next];
      next := next + 1;
      if Satisfies(k, w) {
        FirstMatchIsFirst(ws, cursor, k);
        return true, next;
      }
    }
    return false, next;
  }

  /** `RainSituation::from` as the source runs it: one cursor shared by the
      rain, thunder and snow searches. */
  method RainSituationFrom(ws: seq<Weather>) returns (rs: RainSituation)
    ensures rs == Classify(ws)
  {
    var cursor: nat := 0;
    var rain, thunder, snow;
    rain, cursor := Any(ws, cursor, RainSearch);
    thunder, cursor := Any(ws, cursor, ThunderSearch);
    snow, cursor := Any(ws, cursor, SnowSearch);
    rs := RainSituation(rain, snow, thunder);
  }

  // ---------------------------------------------------------------------------
  // Entries and the snapshot (src/weather.rs:25-99)
  // ---------------------------------------------------------------------------

  /** Rust's `i8`. */
  newtype I8 = x: int | -128 <= x < 128

  /** `as i8` applied to an already rounded value: Rust's float-to-integer
      cast saturates at the ends of the range. */
  function SaturatingI8(x: int): (r: I8)
    ensures -128 <= x < 128 ==> r as int == x
    ensures x < -128 ==> r == -128
    ensures x > 127 ==> r == 127
  {
    if x < -128 then -128 else if x > 127 then 127 else x as I8
  }

  /** The saturated value is the `i8` nearest to the input. */
  lemma SaturatingI8Nearest(x: int, y: I8)
    ensures var d := x - SaturatingI8(x) as int; var e := x - y as int;
            (if d < 0 then -d else d) <= (if e < 0 then -e else e)
  {
  }

  datatype WeatherEntry = WeatherEntry(temperature: I8, rainSituation: RainSituation, labelText: string)

  /** The temperature of the "unknown" placeholder. */
  const PlaceholderTemperature: I8 := -17

  /** `WeatherEntry::default()`: the "unknown" placeholder, temperature -17,
      every flag set and no label. */
  function DefaultEntry(): (e: WeatherEntry)
    ensures e.temperature == PlaceholderTemperature && e.labelText == ""
    ensures e.rainSituation.rain && e.rainSituation.snow && e.rainSituation.thunder
  {
    WeatherEntry(PlaceholderTemperature, RainSituation(true, true, true), "")
  }

  /** Exactly five slots, as the Rust array `[WeatherEntry; 5]`. */
  type Entries = es: seq<WeatherEntry> | |es| == 5
    witness [WeatherEntry(0, RainSituation(false, false, false), ""),
             WeatherEntry(0, RainSituation(false, false, false), ""),
             WeatherEntry(0, RainSituation(false, false, false), ""),
             WeatherEntry(0, RainSituation(false, false, false), ""),
             WeatherEntry(0, RainSituation(false, false, false), "")]

  /** The snapshot the fetcher sends and the composer stores. */
  datatype WeatherData = WeatherData(entries: Entries)

  /** The slot labels, in slot order. */
  const SlotLabels: seq<string> := ["now", "+2h", "+4h", "+6h", "tmr"]

  /** The provider response has the entries the snapshot indexes. */
  predicate HasSlots(root: Root)
  {
    |root.hourly| >= 7 && |root.daily| >= 2
  }

  /** The rounded feels-like value slot `i` reads: the current one, the
      hourly one two hours apart per slot, or tomorrow's daytime value. */
  function SlotFeelsLike(root: Root, i: nat): int
    requires HasSlots(root) && i < 5
  {
    if i == 0 then root.current.feelsLike
    else if i < 4 then root.hourly[2 * i].feelsLike
    else root.daily[1].feelsLike.day
  }

  /** The condition list slot `i` reads. */
  function SlotWeather(root: Root, i: nat): seq<Weather>
    requires HasSlots(root) && i < 5
  {
    if i == 0 then root.current.weather
    else if i < 4 then root.hourly[2 * i].weather
    else root.daily[1].weather
  }

  function Entry(feelsLike: int, weather: seq<Weather>, labelText: string): WeatherEntry
  {
    WeatherEntry(SaturatingI8(feelsLike), Classify(weather), labelText)
  }

  /** `WeatherData::from(Root)`: the five slots now, +2h, +4h, +6h and
      tomorrow, read from `current`, `hourly[2]`, `hourly[4]`, `hourly[6]`
      and `daily[1]`. The source indexes without checking, so a shorter
      response panics; here that is the precondition. */
  function FromRoot(root: Root): (d: WeatherData)
    requires HasSlots(root)
    ensures forall i :: 0 <= i < 5 ==> d.entries[i].labelText == SlotLabels[i]
  {
    var current := Entry(root.current.feelsLike, root.current.weather, "now");
    var hour1 := Entry(root.hourly[2].feelsLike, root.hourly[2].weather, "+2h");
    var hour2 := Entry(root.hourly[4].feelsLike, root.hourly[4].weather, "+4h");
    var hour3 := Entry(root.hourly[6].feelsLike, root.hourly[6].weather, "+6h");
    var tomorrow := Entry(root.daily[1].feelsLike.day, root.daily[1].weather, "tmr");
    WeatherData([current, hour1, hour2, hour3, tomorrow])
  }

  /** Slot `i` of the snapshot is built from the provider record that slot
      reads: its temperature saturated to `i8`, its conditions classified,
      and the slot's label. */
  lemma FromRootSlot(root: Root, i: nat)
    requires HasSlots(root) && i < 5
    ensures FromRoot(root).entries[i] == Entry(SlotFeelsLike(root, i), SlotWeather(root, i), SlotLabels[i])
  {
    var es := FromRoot(root).entries;
    if i == 0 {
      assert es[0] == Entry(root.current.feelsLike, root.current.weather, "now");
    } else if i == 1 {
      assert es[1] == Entry(root.hourly[2].feelsLike, root.hourly[2].weather, "+2h");
    } else if i == 2 {
      assert es[2] == Entry(root.hourly[4].feelsLike, root.hourly[4].weather, "+4h");
    } else if i == 3 {
      assert es[3] == Entry(root.hourly[6].feelsLike, root.hourly[6].weather, "+6h");
    } else {
      assert es[4] == Entry(root.daily[1].feelsLike.day, root.daily[1].weather, "tmr");
    }
  }

  /** `WeatherData::zero()`: five placeholder entries. */
  function Zero(): (d: WeatherData)
    ensures forall i :: 0 <= i < 5 ==> d.entries[i] == DefaultEntry()
  {
    WeatherData([DefaultEntry(), DefaultEntry(), DefaultEntry(), DefaultEntry(), DefaultEntry()])
  }

  /** The placeholder can never be mistaken for fetched data: a snapshot
      built from a response carries the five slot labels, the placeholder
      none. */
  lemma FromRootIsNeverZero(root: Root)
    requires HasSlots(root)
    ensures FromRoot(root) != Zero()
    ensures forall i :: 0 <= i < 5 ==> FromRoot(root).entries[i].labelText == SlotLabels[i] != ""
  {
    assert FromRoot(root).entries[0].labelText == "now";
  }

  // ---------------------------------------------------------------------------
  // The fetch cycle (src/weather.rs:134-162)
  // ---------------------------------------------------------------------------

  /** What the provider call returned: a decoded response or an error. */
  datatype FetchResult = Fetched(root: Root) | FetchFailed

  /** The outcome of one `Tick`: what was sent to the subscriber and how
      long the actor sleeps before sending itself the next `Tick`, or a
      panic of the spawned future (a response too short to index), after
      which nothing is sent and no further `Tick` comes. */
  datatype TickOutcome = Rescheduled(sent: Option<WeatherData>, delaySeconds: nat) | Panicked

  /** Seconds to wait after a successful fetch. */
  const RefreshSeconds: nat := 3600

  /** Seconds to wait after a failed fetch. */
  const RetrySeconds: nat := 10

  /** `Handler<Tick>::handle` for `Weather`, as a step: success sends one
      snapshot and waits an hour, failure sends nothing and waits ten
      seconds; either way exactly one new `Tick` follows. */
  function HandleTick(fetched: FetchResult): (o: TickOutcome)
    ensures o.Panicked? <==> fetched.Fetched? && !HasSlots(fetched.root)
    ensures o.Rescheduled? && o.sent.Some? <==> fetched.Fetched? && HasSlots(fetched.root)
    ensures o.Rescheduled? && o.sent.Some? ==> o.sent.value == FromRoot(fetched.root) && o.delaySeconds == RefreshSeconds
    ensures fetched.FetchFailed? ==> o == Rescheduled(None, RetrySeconds)
  {
    match fetched
    case FetchFailed => Rescheduled(None, RetrySeconds)
    case Fetched(root) =>
      if HasSlots(root) then Rescheduled(Some(FromRoot(root)), RefreshSeconds) else Panicked
  }

  /** What a run of fetch cycles has produced: the snapshots sent, in order,
      the seconds slept, the number of provider calls, and whether the actor
      stopped on a panic. */
  datatype Trace = Trace(sent: seq<WeatherData>, elapsed: nat, calls: nat, halted: bool)

  /** The cycles driven by successive provider results, starting from the
      `Tick` the actor sends itself when it starts. */
  function Run(results: seq<FetchResult>): (t: Trace)
    ensures t.calls <= |results|
    ensures !t.halted ==> t.calls == |results|
    ensures |t.sent| <= t.calls
  {
    if results == [] then Trace([], 0, 0, false)
    else
      var rest := Run(results[..|results| - 1]);
      if rest.halted then rest
      else
        match HandleTick(results[|results| - 1])
        case Panicked => Trace(rest.sent, rest.elapsed, rest.calls + 1, true)
        case Rescheduled(sent, delay) =>
          var sends := if sent.Some? then rest.sent + [sent.value] else rest.sent;
          Trace(sends, rest.elapsed + delay, rest.calls + 1, false)
  }

  /** Number of successful fetches among `results`. */
  function Successes(results: seq<FetchResult>): nat
  {
    if results == [] then 0
    else Successes(results[..|results| - 1]) + (if results[|results| - 1].Fetched? then 1 else 0)
  }

  /** While every response is complete, the cycles never halt, send one
      snapshot per success, and sleep an hour per success and ten seconds per
      failure. */
  lemma {:induction false} RunCounts(results: seq<FetchResult>)
    requires forall i :: 0 <= i < |results| && results[i].Fetched? ==> HasSlots(results[i].root)
    ensures !Run(results).halted
    ensures |Run(results).sent| == Successes(results)
    ensures Run(results).elapsed ==
            RefreshSeconds * Successes(results) + RetrySeconds * (|results| - Successes(results))
  {
    if results != [] {
      var init := results[..|results| - 1];
      assert forall i :: 0 <= i < |init| ==> init[i] == results[i];
      RunCounts(init);
      assert Successes(init) <= |init| by { SuccessesBound(init); }
    }
  }

  lemma {:induction false} SuccessesBound(results: seq<FetchResult>)
    ensures Successes(results) <= |results|
  {
    if results != [] {
      SuccessesBound(results[..|results| - 1]);
    }
  }

  /** Consecutive failures send nothing and are retried every ten seconds:
      after `n` of them there have been `n` calls, ten seconds apart. */
  lemma {:induction false} RunFailures(n: nat)
    ensures var t := Run(seq(n, _ => FetchFailed));
            t.sent == [] && t.calls == n && t.elapsed == RetrySeconds * n && !t.halted
  {
    if n > 0 {
      var results := seq(n, _ => FetchFailed);
      assert results[..n - 1] == seq(n - 1, _ => FetchFailed);
      RunFailures(n - 1);
    }
  }

  /** One more cycle after an unhalted prefix: a panic halts the run and
      sends nothing, otherwise the outcome's snapshot, if any, is appended. */
  lemma RunStep(results: seq<FetchResult>, i: nat)
    requires i < |results| && !Run(results[..i]).halted
    ensures HandleTick(results[i]).Panicked? ==>
              Run(results[..i + 1]).halted && Run(results[..i + 1]).sent == Run(results[..i]).sent
    ensures HandleTick(results[i]).Rescheduled? ==>
              !Run(results[..i + 1]).halted &&
              Run(results[..i + 1]).sent ==
                if HandleTick(results[i]).sent.Some? then Run(results[..i]).sent + [HandleTick(results[i]).sent.value]
                else Run(results[..i]).sent
  {
    assert results[..i + 1][..i] == results[..i];
  }

  /** After a panic no further cycle runs: a halted prefix is the whole run. */
  lemma {:induction false} RunHaltedPrefix(results: seq<FetchResult>, n: nat)
    requires n <= |results|
    requires Run(results[..n]).halted
    ensures Run(results) == Run(results[..n])
    decreases |results|
  {
    if n < |results| {
      var init := results[..|results| - 1];
      assert init[..n] == results[..n];
      RunHaltedPrefix(init, n);
    } else {
      assert results[..n] == results;
    }
  }
}
