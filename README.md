# weather-clock: forecast snapshot and display rows, in Dafny

This project models the pure core of weather-clock. A small device fetches an
OpenWeatherMap "one call" response every hour and condenses it into a
five-slot forecast: now, +2h, +4h, +6h and tomorrow. It then renders that
forecast, with a clock, into four rows of at most 20 bytes for a 20x4
character display.

The model covers three source files:

- `src/weather.rs` is modelled in `weather.dfy`, module `Weather`.
  - `RainSituation::from` turns a list of condition codes into rain, snow and thunder flags.
  - `WeatherData::from` picks the five slots from a response.
  - `WeatherEntry::default` and `WeatherData::zero` build the "unknown" placeholder.
  - The fetch actor's tick rule sends one snapshot and waits 3600 s on success, or sends nothing and waits 10 s on failure.
- `src/source.rs` is modelled in `source.dfy`, module `Source`.
  - `space_or` and `display_rain_situation` build the flag groups.
  - The tick handler builds the labels, temperature and conditions rows and parses each into a `LimitedString` with `unwrap`.
  - The `Source` actor keeps the latest snapshot. It is a class whose `weatherData` field each `WeatherData` message overwrites.
- `src/main.rs` is modelled in `clock.dfy`, module `Clock`.
  - `LimitedString` holds at most 20 UTF-8 bytes.
  - `Text` holds four rows.
  - `ClockOperator::from(Config)` converts the configuration.

The other files hold helpers:

- `format.dfy` (module `Format`) models the parts of Rust's `format!` that the rows use. Integers print in decimal with a leading `-`. `{:3}` pads numbers on the left and strings on the right, and never truncates. `"{:3} {:3} …"` joins fields with single spaces.
- `owm.dfy` (module `Owm`) declares only the response fields the snapshot reads.
- `wrappers.dfy` holds `Option` and `Result`.

Points where the code does something other than its natural reading suggests:

- **Condition codes.** The natural reading "any 2xx code means thunder and rain, any 6xx code means snow" does not hold: the code calls `any` three times on one shared iterator (src/weather.rs:13-16), and the model follows the code.
  - Thunder is only found after the first rain-class code.
  - Snow is only found after the point where the thunder search stopped.
  - So `[200]` gives only rain, `[600]` gives nothing, and 4xx codes are never rain (`ClassifyExamples`).
  - The method `RainSituationFrom` keeps an explicit cursor shared by three `Any` loops. It is proved equal to the function `Classify`, and `ClassifyRain`, `ClassifyThunder` and `ClassifySnow` characterise `Classify` exactly.
- **Row overflow.** Over-long rows are not truncated: the code parses every row with `.parse().unwrap()` (src/source.rs:72-73, 83-84, 94-95), which panics when a row is longer than 20 bytes. `ComposeText` returns that panic as an error value.
  - `{:3}` never truncates, and an `i8` of -100 or below takes four columns. The temperature row is therefore 19 characters plus one per such value (`TemperatureRowLength`).
  - For labels of at most three characters, as every snapshot the program builds has, composing fails exactly when two or more temperatures are -100 or below (`ComposeTextShortLabels`). In general `ComposeText` also fails when the labels row is longer than 20 bytes.
- **Short responses.** The code indexes `hourly[2]`, `hourly[4]`, `hourly[6]` and `daily[1]` without checking the lengths. `FromRoot` therefore requires at least 7 hourly and 2 daily entries. In the fetch cycle, a shorter response is the outcome `Panicked`: nothing is sent and no further `Tick` follows.
- **Temperature range.** Temperatures are `i8`. The rounded feels-like value is converted with Rust's saturating `as i8` (`SaturatingI8`).

## Model

| member | source | states |
|---|---|---|
| Weather.IdClassesAsRanges | src/weather.rs:14-16 | with Rust's truncating `/`, `id / 100` in {5,2,3} holds iff id is in [200,400) or [500,600); `== 2` iff [200,300); `== 6` iff [600,700); negative and 4xx ids match nothing |
| Weather.FirstMatch | src/weather.rs:14-16 | the first position at or after the cursor whose code passes the search, or the end of the list; the code there passes |
| Weather.FirstMatchIsFirst | src/weather.rs:14-16 | no code between the cursor and the first match passes the search |
| Weather.AnyFrom | src/weather.rs:14-16 | `Iterator::any` leaves the cursor within the list, past the cursor when it found something, at the end when it did not |
| Weather.AnyFromConsumes | src/weather.rs:14-16 | `any` is true iff some remaining code passes; it consumes exactly the codes up to and including the first match |
| Weather.Any | src/weather.rs:14-16 | the cursor loop of one `any` call returns exactly what `AnyFrom` specifies |
| Weather.RainSituationFrom | src/weather.rs:12-23 | three `any` calls sharing one cursor compute `Classify` |
| Weather.ClassifyRain | src/weather.rs:14 | rain is true iff some code is in [200,400) or [500,600) |
| Weather.ClassifyThunder | src/weather.rs:14-15 | the rain search stops just past the first rain-class code, or at the end; thunder is true iff a 2xx code lies after that point, so the code the rain search matched is not looked at again |
| Weather.ThunderStop | src/weather.rs:15 | the thunder search stops at or after the rain search's stopping point |
| Weather.ClassifySnow | src/weather.rs:15-16 | snow is true iff a 6xx code lies after the point where the thunder search stopped |
| Weather.ClassifyNesting | src/weather.rs:13-16 | a failed search exhausts the iterator: snow implies thunder, thunder implies rain, and an empty list gives all three false |
| Weather.ClassifyExamples | src/weather.rs:13-16 | `[200]` gives rain only, and `[600]` and `[401]` give nothing |
| Weather.ClassifySharedCursorExamples | src/weather.rs:13-16 | `[200,211]` gives rain and thunder, and `[500,201,601]` gives all three |
| Weather.SaturatingI8 | src/weather.rs:55 | `as i8` keeps in-range values and saturates below -128 and above 127 |
| Weather.SaturatingI8Nearest | src/weather.rs:55 | the saturated value is the `i8` closest to the rounded temperature |
| Weather.DefaultEntry | src/weather.rs:32-43 | the placeholder entry has temperature -17, rain, snow and thunder set, and an empty label |
| Weather.FromRoot | src/weather.rs:52-90 | the snapshot's five labels are "now", "+2h", "+4h", "+6h", "tmr" in this order; it requires at least 7 hourly and 2 daily entries |
| Weather.FromRootSlot | src/weather.rs:54-88 | slot i comes from `current` (i = 0), `hourly[2i]` (i = 1..3) or `daily[1]` with `feels_like.day` (i = 4): the feels-like value saturated to i8, the classified conditions, and the slot label |
| Weather.Zero | src/weather.rs:93-98 | `zero()` has five placeholder entries |
| Weather.FromRootIsNeverZero | src/weather.rs:52-98 | a snapshot built from a response always carries the five non-empty labels, so it never equals the placeholder |
| Weather.HandleTick | src/weather.rs:146-157 | a complete response sends `FromRoot` of it and waits 3600 s; a failed fetch sends nothing and waits 10 s; a response too short to index panics; every other outcome issues exactly one new `Tick` |
| Weather.Run | src/weather.rs:129-157 | over successive fetch results, the calls made never exceed the results given, and equal them unless a panic halted the actor; sends never exceed calls |
| Weather.RunCounts | src/weather.rs:146-157 | with complete responses the actor never halts; it sends one snapshot per success and sleeps 3600 s per success plus 10 s per failure |
| Weather.RunFailures | src/weather.rs:152-156 | n consecutive failures make n calls, send nothing and take 10·n seconds |
| Weather.RunStep | src/weather.rs:145-157 | one more cycle after a run that has not halted: a panic halts it and sends nothing; otherwise the outcome's snapshot, if any, is appended to what was sent |
| Weather.RunHaltedPrefix | src/weather.rs:145-157 | after a panic nothing else happens: the run equals its halted prefix |
| Source.SpaceOr | src/source.rs:30-35 | the result is `c` or a blank, and for a non-blank `c` it is `c` exactly when the flag is set |
| Source.DisplayRainSituation | src/source.rs:37-45 | four ASCII characters: 'R' or blank, 'S' or blank, 'T' or blank, then a blank; the three flags read back from it unchanged |
| Source.TemperatureDigits | src/source.rs:65 | an `i8` renders in at most three characters, or four when it is -100 or below |
| Source.TemperatureField | src/source.rs:65 | `{:3}` on an i8 gives three ASCII columns, or four for a value of -100 or below |
| Source.TemperatureFieldReadsBack | src/source.rs:65 | trimming a temperature field's padding gives the value's decimal rendering, which parses back to the value |
| Source.WideCount | src/source.rs:64-71 | the number of temperatures needing four columns is at most the number of temperatures |
| Source.TemperatureFieldsLength | src/source.rs:64-71 | the fields take 3 columns each plus one per value of -100 or below |
| Source.JoinedTemperatureFields | src/source.rs:64-71 | the space-joined fields are ASCII and 4·n − 1 plus the number of wide values long |
| Source.TemperatureRowLength | src/source.rs:64-73 | the temperature row is 19 bytes plus one per temperature of -100 or below |
| Source.WideCountZero | src/source.rs:64-71 | with no temperature of -100 or below, no field is wide |
| Source.TemperatureFieldColumns | src/source.rs:64-71 | with no wide value, value i sits in columns 4i to 4i+2 |
| Source.TemperatureRowColumns | src/source.rs:64-73 | with no temperature of -100 or below, the row is 19 characters, and columns 4i to 4i+2 trim to slot i's rendered temperature |
| Source.ConditionsRowColumns | src/source.rs:75-84 | the conditions row is always 20 ASCII bytes, slot i's group in columns 4i to 4i+3, and its flags read back unchanged |
| Source.LabelsRowColumns | src/source.rs:86-95 | with labels of at most three ASCII characters, the labels row is 19 bytes with label i padded in columns 4i to 4i+2 |
| Source.TemperatureRowFits | src/source.rs:64-73 | the temperature row fits 20 bytes iff at most one temperature is -100 or below |
| Source.ConditionsRowFits | src/source.rs:75-84 | the conditions row is always exactly 20 bytes |
| Source.ParseRows | src/source.rs:73-99 | the three `unwrap`s in order: an over-long temperature row panics first, then the conditions row, then the labels row; when all three fit, the `Text` is [clock, labels, temperatures, conditions] |
| Source.ComposeText | src/source.rs:60-99 | the tick succeeds iff fewer than two temperatures are -100 or below and the labels row fits 20 bytes; two or more such temperatures fail at the temperature `unwrap`; the conditions `unwrap` never fails; on success the rows are [clock, labels, temperatures, conditions] |
| Source.ComposeTextShortLabels | src/source.rs:64-95 | with short ASCII labels, composing fails exactly when two or more temperatures are -100 or below, and then only at the temperature row |
| Source.SlotLabelsRow | src/source.rs:86-95 | the slot labels render as "now +2h +4h +6h tmr" |
| Source.FromRootRows | src/source.rs:60-99 | a fetched snapshot shows "now +2h +4h +6h tmr" and composes iff fewer than two of its temperatures are -100 or below |
| Source.AllPlaceholdersIsZero | src/weather.rs:93-98 | a snapshot has five placeholder entries iff it is `WeatherData::zero()` |
| Source.ZeroLabelsRow | src/source.rs:86-95 | the placeholder's labels row is 19 blanks |
| Source.ZeroTemperatureRow | src/source.rs:64-73 | the placeholder's temperature row is "-17 -17 -17 -17 -17" |
| Source.ZeroConditionsRow | src/source.rs:75-84 | the placeholder's conditions row is "RST RST RST RST RST " |
| Source.ComposeTextZero | src/source.rs:14-19 | from the placeholder snapshot, composing gives [clock, 19 blanks, "-17 -17 -17 -17 -17", "RST RST RST RST RST "] |
| Source.Source.WithSubscriber | src/source.rs:14-19 | a new `Source` holds five placeholder entries, which is `WeatherData::zero()` by `AllPlaceholdersIsZero` |
| Source.Source.HandleWeatherData | src/source.rs:115-117 | the message replaces the stored snapshot wholesale, and nothing else changes |
| Source.Source.HandleTick | src/source.rs:60-109 | a tick emits `ComposeText`'s rows and schedules the next tick in 10 s, or panics at the failing `unwrap`; the stored snapshot is not changed |
| Source.FirstTick | src/source.rs:14-19 | a fresh composer's first tick emits the clock row, "-17 -17 -17 -17 -17" and "RST RST RST RST RST ", and reschedules in 10 s |
| Source.ReplayIsLast | src/source.rs:115-117 | last writer wins: after a series of updates the composer holds the last one, or its initial snapshot when none came |
| Source.DeliverCycles | src/weather.rs:146-157 | feeding each cycle's snapshot to the composer leaves it holding the replay of everything the fetcher sent |
| Source.ThreeFailuresThenSuccess | src/weather.rs:146-157 | three failed fetches keep the placeholder for 30 s; the fourth, successful, fetch installs the fetched snapshot |
| Format.IntToString | src/source.rs:65 | an integer renders in ASCII with a leading '-' exactly when it is negative, followed by digits |
| Format.ParseIntToString | src/source.rs:65 | the decimal rendering of an integer parses back to it |
| Format.NatToStringLength | src/source.rs:65 | numbers below 10, 100 and 1000 take 1, 2 and 3 digits |
| Format.PadLeftAscii | src/source.rs:65 | padding ASCII text gives ASCII text |
| Format.PadLeft | src/source.rs:65 | `{:3}` on a number: blanks, then the text, to at least the width; a longer text is kept whole |
| Format.PadRight | src/source.rs:87 | `{:3}` on a string: the text, then blanks, to at least the width; a longer text is kept whole |
| Format.TrimStartPadLeft | src/source.rs:65 | left padding is undone by trimming leading blanks |
| Format.SpaceJoinFive | src/source.rs:65 | joining five fields is the format string "{} {} {} {} {}" |
| Format.ConcatFive | src/source.rs:75-82 | five adjacent `{}` placeholders concatenate the five fields |
| Format.SpaceJoinLength | src/source.rs:64-71 | joining adds one separator per gap |
| Format.SpaceJoinColumns | src/source.rs:86-93 | with three-column fields, field i sits at columns 4i to 4i+2, followed by a blank unless it is the last |
| Format.ConcatColumns | src/source.rs:75-82 | with four-column groups, group i sits at columns 4i to 4i+3 |
| Clock.ByteLenVersusChars | src/main.rs:25 | a string's UTF-8 byte length is at least its character count, and equal to it exactly when the string is ASCII |
| Clock.FromStr | src/main.rs:24-30 | `from_str` fails iff the string is longer than 20 bytes; on success the wrapped string is the input |
| Clock.AsStr | src/main.rs:13-15 | `as_str` returns a string of at most 20 bytes |
| Clock.Display | src/main.rs:33-37 | `Display` appends exactly the wrapped string to what the formatter holds |
| Clock.DefaultLimitedString | src/main.rs:9-10 | the default `LimitedString` is empty |
| Clock.FromStrDisplayRoundTrip | src/main.rs:24-37 | an accepted string displays as itself, and every `LimitedString` parses back from its display |
| Clock.FromStrCountsBytes | src/main.rs:25 | the limit counts bytes: 20 characters including an 'é' are rejected |
| Clock.DefaultText | src/main.rs:45-49 | `Text::default()` is four empty rows |
| Clock.OperatorFromConfig | src/main.rs:73-86 | the operator always runs in LCD mode on the configured bus and address, and latitude, longitude, appid and units are copied unchanged |
| Clock.OperatorFromConfigInjective | src/main.rs:73-86 | the conversion loses nothing: equal operators come from equal configurations |

## Left out

- HTTP fetch and JSON decoding (src/owm.rs): both are library calls. A fetch is an input: a decoded `Root` holding only the fields read, or a failure.
- `f64::round` of feels-like temperatures: floating point is not modelled. The model takes the rounded value as an integer, so the NaN case of `as i8`, which gives 0, is not covered.
- SaturatingI8: models `as i8` on integers only; it does not model the float rounding that precedes it.
- The clock row (src/source.rs:61-62, wall clock at UTC+2 and the `time` crate's format description): it is an input `LimitedString`. The format always gives 19 ASCII characters, so its `unwrap` cannot fail.
- The actor runtime: `notify`, `notify_later`, `spawn`, `wait`, mailboxes and the asynchronous sends. A handler becomes a step that returns what it would send and the delay before its next tick. Message interleaving and timing are not modelled.
- The `dbg!(e)` logging of a failed fetch (src/weather.rs:153): it writes to standard error only; the model keeps the failure's effect (nothing sent, retry in 10 s) and drops the message.
- Subscribers (`Recipient<Text>`, `Recipient<WeatherData>`) and the ignored result of each send: `HandleTick` and `Weather.HandleTick` return what is sent rather than sending it.
- `Weather::with_subscriber` (src/weather.rs:111-123) only formats the request URL from the configuration; URL building is not modelled.
- Renderers (src/lcd.rs, src/lcd_renderer.rs, src/stdout_renderer.rs) and `Into<ratatui::text::Text>` for `LimitedString` (src/main.rs:39-43): device and terminal I/O.
- Shutdown monitors (src/shutdown_monitor.rs): key polling, OS signals and channel handoff.
- Bootstrap in src/main.rs: loading the configuration file, `run_terminal` / `run_lcd` actor wiring, and stopping the system.
