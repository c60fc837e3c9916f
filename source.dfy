/**
 * The display composer (src/source.rs): it keeps the latest forecast
 * snapshot and, on every tick, renders it with the clock into the four rows
 * of a `Text`. The clock row is an input here; the wall clock and its
 * formatting are not part of this model.
 */
module Source {
  import opened Wrappers
  import opened Clock
  import opened Weather
  import opened Format

  // ---------------------------------------------------------------------------
  // Condition flags (src/source.rs:30-45)
  // ---------------------------------------------------------------------------

  /** `space_or`: the marker when the flag is set, a blank otherwise. */
  function SpaceOr(value: bool, c: char): (r: char)
    ensures r == c || r == ' '
    ensures c != ' ' ==> (r == c <==> value)
  {
    if value then c else ' '
  }

  /** The flags a four-column group shows: 'R' in the first column, 'S' in
      the second, 'T' in the third. */
  function FlagsOf(group: string): RainSituation
    requires |group| >= 3
  {
    RainSituation(group[0] == 'R', group[1] == 'S', group[2] == 'T')
  }

  /** `display_rain_situation`: rain, snow and thunder markers and a
      separating blank, four ASCII characters from which the three flags can
      be read back. */
  function DisplayRainSituation(we: WeatherEntry): (r: string)
    ensures |r| == 4 && r[3] == ' ' && IsAscii(r)
    ensures r[0] in {'R', ' '} && r[1] in {'S', ' '} && r[2] in {'T', ' '}
    ensures FlagsOf(r) == we.rainSituation
  {
    var rs := we.rainSituation;
    [SpaceOr(rs.rain, 'R'), SpaceOr(rs.snow, 'S'), SpaceOr(rs.thunder, 'T'), ' ']
  }

  // ---------------------------------------------------------------------------
  // Rows (src/source.rs:60-99)
  // ---------------------------------------------------------------------------

  /** Width every `{:3}` field is padded to. */
  const FieldWidth: nat := 3

  /** The five temperatures, in slot order. */
  function Temperatures(d: WeatherData): (ts: seq<I8>)
    ensures |ts| == 5
    ensures forall i :: 0 <= i < 5 ==> ts[i] == d.entries[i].temperature
  {
    [d.entries[0].temperature, d.entries[1].temperature, d.entries[2].temperature,
     d.entries[3].temperature, d.entries[4].temperature]
  }

  /** `{:3}` on an `i8`: right-aligned in three ASCII columns; only a value
      of -100 or below needs a fourth. */
  function TemperatureField(t: I8): (s: string)
    ensures |s| == if t <= -100 then 4 else 3
    ensures IsAscii(s)
  {
    var digits := IntToString(t as int);
    TemperatureDigits(t);
    PadLeftAscii(digits, FieldWidth);
    PadLeft(digits, FieldWidth)
  }

  /** An `i8` renders in at most three characters, except a value of -100
      or below, which takes four. */
  lemma TemperatureDigits(t: I8)
    ensures t <= -100 ==> |IntToString(t as int)| == 4
    ensures t > -100 ==> |IntToString(t as int)| <= 3
  {
    NatToStringLength(if t < 0 then -(t as int) else t as int);
  }

  /** The field loses nothing: trimming its padding gives Rust's rendering
      of the value, and reading that gives the value back. */
  lemma TemperatureFieldReadsBack(t: I8)
    ensures TrimStart(TemperatureField(t)) == IntToString(t as int)
    ensures ParseInt(TrimStart(TemperatureField(t))) == t as int
  {
    TrimStartPadLeft(IntToString(t as int), FieldWidth);
    ParseIntToString(t as int);
  }

  function TemperatureFields(ts: seq<I8>): (fs: seq<string>)
    ensures |fs| == |ts|
    ensures forall i :: 0 <= i < |ts| ==> fs[i] == TemperatureField(ts[i])
  {
    seq(|ts|, i requires 0 <= i < |ts| => TemperatureField(ts[i]))
  }

  /** How many of `ts` are -100 or below, i.e. render four columns wide. */
  function WideCount(ts: seq<I8>): (n: nat)
    ensures n <= |ts|
  {
    if ts == [] then 0 else (if ts[0] <= -100 then 1 else 0) + WideCount(ts[1..])
  }

  /** The temperature row: `"{:3} {:3} {:3} {:3} {:3}"` over the five
      temperatures. */
  function TemperatureRow(d: WeatherData): string
  {
    SpaceJoin(TemperatureFields(Temperatures(d)))
  }

  /** The labels row: `"{:3} {:3} {:3} {:3} {:3}"` over the five labels. */
  function LabelsRow(d: WeatherData): string
  {
    var es := d.entries;
    SpaceJoin([PadRight(es[0].labelText, FieldWidth), PadRight(es[1].labelText, FieldWidth),
               PadRight(es[2].labelText, FieldWidth), PadRight(es[3].labelText, FieldWidth),
               PadRight(es[4].labelText, FieldWidth)])
  }

  /** The groups of the conditions row, in slot order. */
  function ConditionGroups(d: WeatherData): (gs: seq<string>)
    ensures |gs| == 5
    ensures forall i :: 0 <= i < 5 ==> gs[i] == DisplayRainSituation(d.entries[i])
  {
    var es := d.entries;
    [DisplayRainSituation(es[0]), DisplayRainSituation(es[1]), DisplayRainSituation(es[2]),
     DisplayRainSituation(es[3]), DisplayRainSituation(es[4])]
  }

  /** The conditions row: `"{}{}{}{}{}"` over the five flag groups. */
  function ConditionsRow(d: WeatherData): string
  {
    Concat(ConditionGroups(d))
  }

  lemma {:induction false} TemperatureFieldsLength(ts: seq<I8>)
    ensures TotalLength(TemperatureFields(ts)) == 3 * |ts| + WideCount(ts)
    decreases |ts|
  {
    if ts != [] {
      assert TemperatureFields(ts)[1..] == TemperatureFields(ts[1..]);
      TemperatureFieldsLength(ts[1..]);
    }
  }

  /** Joined temperature fields take four columns per value, one fewer for
      the missing final separator, and one more per value of -100 or below. */
  lemma JoinedTemperatureFields(ts: seq<I8>)
    requires ts != []
    ensures |SpaceJoin(TemperatureFields(ts))| == 4 * |ts| - 1 + WideCount(ts)
    ensures IsAscii(SpaceJoin(TemperatureFields(ts)))
  {
    var fs := TemperatureFields(ts);
    SpaceJoinLength(fs);
    TemperatureFieldsLength(ts);
    SpaceJoinAscii(fs);
  }

  /** The temperature row is 19 ASCII characters plus one for every
      temperature of -100 or below. */
  lemma TemperatureRowLength(d: WeatherData)
    ensures |TemperatureRow(d)| == 19 + WideCount(Temperatures(d))
    ensures ByteLen(TemperatureRow(d)) == |TemperatureRow(d)|
  {
    var row := TemperatureRow(d);
    JoinedTemperatureFields(Temperatures(d));
    ByteLenVersusChars(row);
  }

  /** Joined fields of values above -100 are three columns each: value `i`
      sits in columns `4 * i` to `4 * i + 2`. */
  lemma TemperatureFieldColumns(ts: seq<I8>, i: nat)
    requires WideCount(ts) == 0
    requires i < |ts|
    ensures |SpaceJoin(TemperatureFields(ts))| == 4 * |ts| - 1
    ensures SpaceJoin(TemperatureFields(ts))[4 * i .. 4 * i + 3] == TemperatureField(ts[i])
  {
    var fs := TemperatureFields(ts);
    forall j | 0 <= j < |ts| ensures |fs[j]| == 3 {
      if ts[j] <= -100 {
        WideCountPositive(ts, j);
      }
    }
    SpaceJoinColumns(fs, i);
  }

  /** While no temperature needs a fourth column, temperature `i` sits in
      columns `4 * i` to `4 * i + 2`, and trimming those columns gives its
      rendering, which `ParseIntToString` reads back as the value. */
  lemma TemperatureRowColumns(d: WeatherData, i: nat)
    requires WideCount(Temperatures(d)) == 0
    requires i < 5
    ensures |TemperatureRow(d)| == 19
    ensures TrimStart(TemperatureRow(d)[4 * i .. 4 * i + 3]) == IntToString(d.entries[i].temperature as int)
  {
    var ts := Temperatures(d);
    TemperatureFieldColumns(ts, i);
    TemperatureFieldReadsBack(ts[i]);
  }

  /** No temperature of -100 or below, no wide field. */
  lemma {:induction false} WideCountZero(ts: seq<I8>)
    requires forall j :: 0 <= j < |ts| ==> ts[j] > -100
    ensures WideCount(ts) == 0
    decreases |ts|
  {
    if ts != [] {
      WideCountZero(ts[1..]);
    }
  }

  lemma {:induction false} WideCountPositive(ts: seq<I8>, j: nat)
    requires j < |ts| && ts[j] <= -100
    ensures WideCount(ts) > 0
    decreases |ts|
  {
    if j > 0 {
      WideCountPositive(ts[1..], j - 1);
    }
  }

  /** The conditions row is always 20 ASCII characters, slot `i`'s flags in
      columns `4 * i` to `4 * i + 3`, each readable back. */
  lemma ConditionsRowColumns(d: WeatherData, i: nat)
    requires i < 5
    ensures |ConditionsRow(d)| == 20 && ByteLen(ConditionsRow(d)) == 20
    ensures ConditionsRow(d)[4 * i .. 4 * i + 4] == DisplayRainSituation(d.entries[i])
    ensures FlagsOf(ConditionsRow(d)[4 * i .. 4 * i + 4]) == d.entries[i].rainSituation
  {
    ConcatColumns(ConditionGroups(d), i);
    ConcatAscii(ConditionGroups(d));
    ByteLenVersusChars(ConditionsRow(d));
  }

  /** Every label is ASCII and at most three characters long, as the slot
      labels and the placeholder's empty label are. */
  predicate ShortLabels(d: WeatherData)
  {
    forall i :: 0 <= i < 5 ==> |d.entries[i].labelText| <= FieldWidth && IsAscii(d.entries[i].labelText)
  }

  /** With short labels the labels row is 19 ASCII characters, label `i`
      padded in columns `4 * i` to `4 * i + 2`. */
  lemma LabelsRowColumns(d: WeatherData, i: nat)
    requires ShortLabels(d)
    requires i < 5
    ensures |LabelsRow(d)| == 19 && ByteLen(LabelsRow(d)) == 19
    ensures LabelsRow(d)[4 * i .. 4 * i + 3] == PadRight(d.entries[i].labelText, FieldWidth)
  {
    var es := d.entries;
    var fs := [PadRight(es[0].labelText, FieldWidth), PadRight(es[1].labelText, FieldWidth),
               PadRight(es[2].labelText, FieldWidth), PadRight(es[3].labelText, FieldWidth),
               PadRight(es[4].labelText, FieldWidth)];
    forall j | 0 <= j < 5 ensures IsAscii(fs[j]) {
      var l := es[j].labelText;
      assert IsAscii(l);
      forall k | 0 <= k < |fs[j]| ensures fs[j][k] as int < 0x80 {
        if k < |l| {
          assert fs[j][..|l|] == l;
          assert fs[j][k] == l[k];
        }
      }
    }
    SpaceJoinColumns(fs, i);
    SpaceJoinAscii(fs);
    ByteLenVersusChars(LabelsRow(d));
  }

  /** The temperature row fits the display exactly when at most one
      temperature is -100 or below. */
  lemma TemperatureRowFits(d: WeatherData)
    ensures ByteLen(TemperatureRow(d)) <= MaxRowBytes <==> WideCount(Temperatures(d)) < 2
  {
    TemperatureRowLength(d);
  }

  /** The conditions row always fills the display exactly. */
  lemma ConditionsRowFits(d: WeatherData)
    ensures ByteLen(ConditionsRow(d)) == MaxRowBytes
  {
    ConditionsRowColumns(d, 0);
  }

  // ---------------------------------------------------------------------------
  // Composing the text (src/source.rs:60-99)
  // ---------------------------------------------------------------------------

  /** The `unwrap` that panics when a row is longer than 20 bytes, in the
      order the handler parses the rows. */
  datatype Panic = TemperatureTooLong | ConditionsTooLong | LabelsTooLong

  /** The handler's three `parse().unwrap()` calls, in order: temperature
      row, conditions row, labels row; the first row over 20 bytes panics,
      and when all fit they form the `Text` under the clock row. */
  function ParseRows(datetime: LimitedString, labels: string, temperature: string, conditions: string): (r: Result<Text, Panic>)
    ensures r.Ok? <==> ByteLen(temperature) <= MaxRowBytes && ByteLen(conditions) <= MaxRowBytes && ByteLen(labels) <= MaxRowBytes
    ensures r == Err(TemperatureTooLong) <==> ByteLen(temperature) > MaxRowBytes
    ensures r == Err(ConditionsTooLong) <==> ByteLen(temperature) <= MaxRowBytes && ByteLen(conditions) > MaxRowBytes
    ensures r.Ok? ==> r.value.rows == [datetime, labels, temperature, conditions]
  {
    match FromStr(temperature)
    case Err(_) => Err(TemperatureTooLong)
    case Ok(t) =>
      match FromStr(conditions)
      case Err(_) => Err(ConditionsTooLong)
      case Ok(c) =>
        match FromStr(labels)
        case Err(_) => Err(LabelsTooLong)
        case Ok(l) => Ok(Text([datetime, l, t, c]))
  }

  /** The `Text` a tick sends for snapshot `d`, or the failed `unwrap`:
      two or more temperatures of -100 or below fail at the temperature row,
      the conditions row always fits, and otherwise the labels row decides. */
  function ComposeText(d: WeatherData, datetime: LimitedString): (r: Result<Text, Panic>)
    ensures r.Ok? <==>
            WideCount(Temperatures(d)) < 2 && ByteLen(LabelsRow(d)) <= MaxRowBytes
    ensures r == Err(TemperatureTooLong) <==> WideCount(Temperatures(d)) >= 2
    ensures r != Err(ConditionsTooLong)
    ensures r.Ok? ==> r.value.rows == [datetime, LabelsRow(d), TemperatureRow(d), ConditionsRow(d)]
  {
    TemperatureRowFits(d);
    ConditionsRowFits(d);
    ParseRows(datetime, LabelsRow(d), TemperatureRow(d), ConditionsRow(d))
  }

  /** For snapshots with short labels (every snapshot the fetcher or the
      placeholder produces) composing fails exactly when two or more
      temperatures are -100 or below. */
  lemma ComposeTextShortLabels(d: WeatherData, datetime: LimitedString)
    requires ShortLabels(d)
    ensures ComposeText(d, datetime).Ok? <==> WideCount(Temperatures(d)) < 2
    ensures ComposeText(d, datetime).Err? ==> ComposeText(d, datetime).error == TemperatureTooLong
  {
    LabelsRowColumns(d, 0);
  }

  /** The slot labels give the labels row "now +2h +4h +6h tmr". */
  lemma SlotLabelsRow(d: WeatherData)
    requires forall i :: 0 <= i < 5 ==> d.entries[i].labelText == SlotLabels[i]
    ensures ShortLabels(d)
    ensures LabelsRow(d) == "now +2h +4h +6h tmr"
  {
    var es := d.entries;
    var fs := [PadRight(es[0].labelText, FieldWidth), PadRight(es[1].labelText, FieldWidth),
               PadRight(es[2].labelText, FieldWidth), PadRight(es[3].labelText, FieldWidth),
               PadRight(es[4].labelText, FieldWidth)];
    forall i | 0 <= i < 5 ensures fs[i] == SlotLabels[i] && IsAscii(SlotLabels[i]) {
      assert es[i].labelText == SlotLabels[i];
    }
    JoinSlotLabels(fs);
  }

  /** Five fields equal to the slot labels join to the labels row. */
  lemma JoinSlotLabels(fs: seq<string>)
    requires |fs| == 5 && forall i :: 0 <= i < 5 ==> fs[i] == SlotLabels[i]
    ensures SpaceJoin(fs) == "now +2h +4h +6h tmr"
  {
    SpaceJoinFive(fs);
  }

  /** A snapshot built from a response shows the labels "now +2h +4h +6h
      tmr" and composes exactly when fewer than two of its temperatures are
      -100 or below. */
  lemma FromRootRows(root: Owm.Root, datetime: LimitedString)
    requires HasSlots(root)
    ensures LabelsRow(FromRoot(root)) == "now +2h +4h +6h tmr"
    ensures ComposeText(FromRoot(root), datetime).Ok? <==> WideCount(Temperatures(FromRoot(root))) < 2
  {
    var d := FromRoot(root);
    SlotLabelsRow(d);
    ComposeTextShortLabels(d, datetime);
  }

  /** Every slot holds the placeholder entry, as in `WeatherData::zero()`. */
  predicate AllPlaceholders(d: WeatherData)
  {
    forall i :: 0 <= i < 5 ==> d.entries[i] == DefaultEntry()
  }

  /** Holding five placeholder entries is holding `WeatherData::zero()`. */
  lemma AllPlaceholdersIsZero(d: WeatherData)
    ensures AllPlaceholders(d) <==> d == Zero()
  {
    if AllPlaceholders(d) {
      assert d.entries == Zero().entries;
    }
  }

  /** The placeholder's labels row: 19 blanks. */
  lemma ZeroLabelsRow(d: WeatherData)
    requires AllPlaceholders(d)
    ensures ShortLabels(d)
    ensures LabelsRow(d) == "                   "
  {
    PlaceholderLabels(d);
    var es := d.entries;
    var fs := [PadRight(es[0].labelText, FieldWidth), PadRight(es[1].labelText, FieldWidth),
               PadRight(es[2].labelText, FieldWidth), PadRight(es[3].labelText, FieldWidth),
               PadRight(es[4].labelText, FieldWidth)];
    assert PadRight("", FieldWidth) == "   ";
    JoinBlankFields(fs);
  }

  /** Placeholder entries carry the empty label. */
  lemma PlaceholderLabels(d: WeatherData)
    requires AllPlaceholders(d)
    ensures forall i :: 0 <= i < 5 ==> d.entries[i].labelText == ""
  {
  }

  /** Five blank three-column fields join to 19 blanks. */
  lemma JoinBlankFields(fs: seq<string>)
    requires |fs| == 5 && forall i :: 0 <= i < 5 ==> fs[i] == "   "
    ensures SpaceJoin(fs) == "                   "
  {
    SpaceJoinFive(fs);
  }

  /** The placeholder's temperature row: five -17s. */
  lemma ZeroTemperatureRow(d: WeatherData)
    requires AllPlaceholders(d)
    ensures WideCount(Temperatures(d)) == 0
    ensures TemperatureRow(d) == "-17 -17 -17 -17 -17"
  {
    var ts := Temperatures(d);
    PlaceholderTemperatures(d);
    WideCountZero(ts);
    PlaceholderFieldsRow(ts);
  }

  /** Placeholder entries carry the placeholder temperature. */
  lemma PlaceholderTemperatures(d: WeatherData)
    requires AllPlaceholders(d)
    ensures forall i :: 0 <= i < 5 ==> Temperatures(d)[i] == PlaceholderTemperature
  {
  }

  /** Five placeholder temperatures render as five -17 fields joined by
      blanks. */
  lemma PlaceholderFieldsRow(ts: seq<I8>)
    requires |ts| == 5 && forall i :: 0 <= i < 5 ==> ts[i] == PlaceholderTemperature
    ensures SpaceJoin(TemperatureFields(ts)) == "-17 -17 -17 -17 -17"
  {
    var fs := TemperatureFields(ts);
    forall i | 0 <= i < 5 ensures fs[i] == "-17" {
      PlaceholderField();
    }
    JoinPlaceholderFields(fs);
  }

  /** Five "-17" fields join to the placeholder temperature row. */
  lemma JoinPlaceholderFields(fs: seq<string>)
    requires |fs| == 5 && forall i :: 0 <= i < 5 ==> fs[i] == "-17"
    ensures SpaceJoin(fs) == "-17 -17 -17 -17 -17"
  {
    SpaceJoinFive(fs);
  }

  /** The placeholder temperature fills its field exactly. */
  lemma PlaceholderField()
    ensures TemperatureField(PlaceholderTemperature) == "-17"
  {
    assert IntToString(-17) == "-17";
  }

  /** The placeholder's conditions row: every flag set in every slot. */
  lemma ZeroConditionsRow(d: WeatherData)
    requires AllPlaceholders(d)
    ensures ConditionsRow(d) == "RST RST RST RST RST "
  {
    assert DisplayRainSituation(DefaultEntry()) == "RST ";
    ConcatFullGroups(ConditionGroups(d));
  }

  /** Five groups with every flag set concatenate to the placeholder
      conditions row. */
  lemma ConcatFullGroups(gs: seq<string>)
    requires |gs| == 5 && forall i :: 0 <= i < 5 ==> gs[i] == "RST "
    ensures Concat(gs) == "RST RST RST RST RST "
  {
    ConcatFive(gs);
  }

  /** Before any snapshot arrives the rows are the clock, 19 blanks, five
      -17s and five groups with every flag set. */
  lemma ComposeTextZero(d: WeatherData, datetime: LimitedString)
    requires AllPlaceholders(d)
    ensures ComposeText(d, datetime).Ok?
    ensures ComposeText(d, datetime).value.rows ==
            [datetime, "                   ", "-17 -17 -17 -17 -17", "RST RST RST RST RST "]
  {
    ZeroLabelsRow(d);
    ZeroTemperatureRow(d);
    ZeroConditionsRow(d);
    ComposeTextShortLabels(d, datetime);
  }

  // ---------------------------------------------------------------------------
  // The composer's state (src/source.rs:8-19, 108, 112-117)
  // ---------------------------------------------------------------------------

  /** Seconds between two ticks of the composer. */
  const TickSeconds: nat := 10

  /** What one tick of the composer does: sends the composed `Text` and
      schedules the next tick, or panics on an over-long row before either. */
  datatype TickStep = Emit(text: Text, nextTickSeconds: nat) | Crash(panic: Panic)

  class Source {
    /** The latest snapshot received. */
    var weatherData: WeatherData

    /** `Source::with_subscriber`: starts from the placeholder snapshot. The
        subscriber is where `HandleTick`'s text goes; it is not modelled. */
    constructor WithSubscriber()
      ensures AllPlaceholders(weatherData)
    {
      weatherData := Zero();
    }

    /** `Handler<WeatherData>`: the new snapshot replaces the old one
        wholesale; nothing else changes. */
    method HandleWeatherData(wd: WeatherData)
      modifies this
      ensures weatherData == wd
    {
      weatherData := wd;
    }

    /** `Handler<Tick>`: composes the rows from the stored snapshot and the
        given clock row; on success sends them and schedules the next tick
        ten seconds later. The state is not changed. */
    method HandleTick(datetime: LimitedString) returns (step: TickStep)
      ensures ComposeText(weatherData, datetime).Ok? ==>
              step == Emit(ComposeText(weatherData, datetime).value, TickSeconds)
      ensures ComposeText(weatherData, datetime).Err? ==>
              step == Crash(ComposeText(weatherData, datetime).error)
    {
      var text := ComposeText(weatherData, datetime);
      match text
      case Ok(t) => step := Emit(t, TickSeconds);
      case Err(p) => step := Crash(p);
    }
  }

  /** A fresh composer's first tick shows the placeholder: five -17s and
      every flag set. */
  method FirstTick(datetime: LimitedString) returns (step: TickStep)
    ensures step.Emit? && step.nextTickSeconds == TickSeconds
    ensures step.text.rows[0] == datetime
    ensures step.text.rows[2] == "-17 -17 -17 -17 -17"
    ensures step.text.rows[3] == "RST RST RST RST RST "
  {
    var source := new Source.WithSubscriber();
    ComposeTextZero(source.weatherData, datetime);
    step := source.HandleTick(datetime);
  }

  // ---------------------------------------------------------------------------
  // The fetcher feeding the composer (src/weather.rs:146-157, src/source.rs:115-117)
  // ---------------------------------------------------------------------------

  /** The snapshot held after receiving `sent` in order, starting from
      `init`: each arrival replaces what was held. */
  function Replay(init: WeatherData, sent: seq<WeatherData>): WeatherData
    decreases |sent|
  {
    if sent == [] then init else Replay(sent[0], sent[1..])
  }

  /** Last writer wins: the held snapshot is the last one received, or the
      initial one when none arrived. */
  lemma {:induction false} ReplayIsLast(init: WeatherData, sent: seq<WeatherData>)
    ensures Replay(init, sent) == if sent == [] then init else sent[|sent| - 1]
    decreases |sent|
  {
    if sent != [] {
      ReplayIsLast(sent[0], sent[1..]);
    }
  }

  /** Runs the fetch cycles driven by `results` and hands every snapshot
      sent to `source`, stopping where the fetcher panics. */
  method DeliverCycles(source: Source, results: seq<FetchResult>)
    modifies source
    ensures source.weatherData == Replay(old(source.weatherData), Run(results).sent)
  {
    ghost var init := source.weatherData;
    var i := 0;
    while i < |results|
      invariant 0 <= i <= |results|
      invariant !Run(results[..i]).halted
      invariant source.weatherData == Replay(init, Run(results[..i]).sent)
    {
      ghost var before := Run(results[..i]).sent;
      RunStep(results, i);
      var outcome := HandleTick(results[i]);
      if outcome.Panicked? {
        RunHaltedPrefix(results, i + 1);
        return;
      }
      if outcome.sent.Some? {
        source.HandleWeatherData(outcome.sent.value);
        ReplayIsLast(init, before + [outcome.sent.value]);
      }
      i := i + 1;
    }
    assert results[..i] == results;
  }

  /** The provider fails three times and then answers: the composer keeps
      the placeholder through the first three cycles, thirty seconds in all,
      and holds the fetched snapshot after the fourth. */
  lemma ThreeFailuresThenSuccess(root: Owm.Root)
    requires HasSlots(root)
    ensures var results := [FetchFailed, FetchFailed, FetchFailed, Fetched(root)];
            (forall n :: 0 <= n <= 3 ==> Replay(Zero(), Run(results[..n]).sent) == Zero())
            && Run(results[..3]).elapsed == 30
            && Replay(Zero(), Run(results).sent) == FromRoot(root)
  {
    var results := [FetchFailed, FetchFailed, FetchFailed, Fetched(root)];
    forall n | 0 <= n <= 3 ensures Replay(Zero(), Run(results[..n]).sent) == Zero() {
      assert results[..n] == seq(n, _ => FetchFailed);
      RunFailures(n);
    }
    assert results[..3] == seq(3, _ => FetchFailed);
    RunFailures(3);
    assert results[..|results| - 1] == results[..3];
    ReplayIsLast(Zero(), Run(results).sent);
  }
}
