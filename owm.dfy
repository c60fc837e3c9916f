/**
 * The part of the OpenWeatherMap "one call" response (src/owm.rs) that the
 * forecast snapshot reads. The HTTP fetch and the JSON decoding are not part
 * of this model; every field the snapshot does not read is left out.
 *
 * Feels-like temperatures arrive as `f64` and are rounded with `f64::round`
 * before use; here they are given already rounded, as integers.
 */
module Owm {

  /** One element of a `weather` list; only its condition code is read. */
  datatype Weather = Weather(id: int)

  /** The `current` block: rounded `feels_like` and its condition list. */
  datatype Current = Current(feelsLike: int, weather: seq<Weather>)

  /** One element of the `hourly` array. */
  datatype Hourly = Hourly(feelsLike: int, weather: seq<Weather>)

  /** The `feels_like` object of a daily forecast; only `day` is read. */
  datatype FeelsLike = FeelsLike(day: int)

  /** One element of the `daily` array; index 0 is today. */
  datatype Daily = Daily(feelsLike: FeelsLike, weather: seq<Weather>)

  /** The decoded response. */
  datatype Root = Root(current: Current, hourly: seq<Hourly>, daily: seq<Daily>)
}
