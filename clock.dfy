/**
 * The crate root (src/main.rs): the length-limited display string, the
 * four-row `Text` message that the composer sends to a renderer, and the
 * conversion of the loaded configuration into a `ClockOperator`.
 */
module Clock {
  import opened Wrappers

  // ---------------------------------------------------------------------------
  // Byte length of a string, as Rust's `str::len` measures it
  // ---------------------------------------------------------------------------

  /** Number of bytes in the UTF-8 encoding of `c` (a Unicode scalar value). */
  function Utf8Width(c: char): (n: nat)
    ensures 1 <= n <= 4
    ensures n == 1 <==> c as int < 0x80
  {
    if c as int < 0x80 then 1
    else if c as int < 0x800 then 2
    else if c as int < 0x1_0000 then 3
    else 4
  }

  /** Length in bytes of the UTF-8 encoding of `s`. */
  function ByteLen(s: string): nat
  {
    if s == [] then 0 else Utf8Width(s[0]) + ByteLen(s[1..])
  }

  /** Every character of `s` is ASCII, so it takes one byte. */
  predicate IsAscii(s: string)
  {
    forall i :: 0 <= i < |s| ==> s[i] as int < 0x80
  }

  /** A string takes at least one byte per character, and exactly one per
      character precisely when it is ASCII. */
  lemma {:induction false} ByteLenVersusChars(s: string)
    ensures ByteLen(s) >= |s|
    ensures ByteLen(s) == |s| <==> IsAscii(s)
  {
    if s != [] {
      ByteLenVersusChars(s[1..]);
      if IsAscii(s[1..]) && s[0] as int < 0x80 {
        assert forall i :: 0 <= i < |s| ==> s[i] as int < 0x80 by {
          forall i | 0 < i < |s| ensures s[i] as int < 0x80 {
            assert s[i] == s[1..][i - 1];
          }
        }
      }
      if IsAscii(s) {
        assert forall i :: 0 <= i < |s| - 1 ==> s[1..][i] as int < 0x80 by {
          forall i | 0 <= i < |s| - 1 ensures s[1..][i] as int < 0x80 {
            assert s[1..][i] == s[i + 1];
          }
        }
      }
    }
  }

  /** Byte length adds up over concatenation. */
  lemma {:induction false} ByteLenAppend(a: string, b: string)
    ensures ByteLen(a + b) == ByteLen(a) + ByteLen(b)
  {
    if a == [] {
      assert a + b == b;
    } else {
      assert (a + b)[0] == a[0];
      assert (a + b)[1..] == a[1..] + b;
      ByteLenAppend(a[1..], b);
    }
  }

  // ---------------------------------------------------------------------------
  // LimitedString (src/main.rs:9-37)
  // ---------------------------------------------------------------------------

  /** The display is 20 columns wide. */
  const MaxRowBytes: nat := 20

  /** A string whose UTF-8 encoding is at most 20 bytes long. The field of
      the Rust type is private to the crate root and so visible to every
      module of the crate; the bound holds because no module builds a
      `LimitedString(..)` directly, leaving `from_str`, `Default` and
      `Clone` as the only sources of values. Here that bound is the subset
      type's constraint. */
  type LimitedString = s: string | ByteLen(s) <= MaxRowBytes witness ""

  /** `LimitedString::from_str`: rejects a string longer than 20 bytes,
      otherwise wraps it unchanged. The test is on bytes, not characters. */
  function FromStr(s: string): (r: Result<LimitedString, ()>)
    ensures r.Ok? <==> ByteLen(s) <= MaxRowBytes
    ensures r.Ok? ==> AsStr(r.value) == s
  {
    if ByteLen(s) > MaxRowBytes then Err(()) else var l: LimitedString := s; Ok(l)
  }

  /** `LimitedString::as_str`: the wrapped text. */
  function AsStr(l: LimitedString): (s: string)
    ensures ByteLen(s) <= MaxRowBytes
  {
    l
  }

  /** `impl Display for LimitedString`: writes the wrapped text after what
      the formatter `out` already holds. */
  function Display(l: LimitedString, out: string): (r: string)
    ensures |r| == |out| + |AsStr(l)|
    ensures r[..|out|] == out && r[|out|..] == AsStr(l)
  {
    out + l
  }

  /** `LimitedString::default()`: the empty string. */
  function DefaultLimitedString(): (l: LimitedString)
    ensures AsStr(l) == ""
  {
    ""
  }

  /** Parsing and displaying are inverse: every accepted string displays as
      itself, and every `LimitedString` parses back from its display. */
  lemma FromStrDisplayRoundTrip(s: string, l: LimitedString)
    ensures FromStr(s).Ok? ==> Display(FromStr(s).value, "") == s
    ensures FromStr(Display(l, "")) == Ok(l)
  {
    assert Display(l, "") == l;
  }

  /** The byte test differs from a character count: twenty characters one
      of which is not ASCII are rejected. */
  lemma FromStrCountsBytes()
    ensures var s := "é" + "0123456789012345678";
            |s| == 20 && FromStr(s).Err?
  {
    var s := "é" + "0123456789012345678";
    ByteLenAppend("é", "0123456789012345678");
    ByteLenVersusChars("0123456789012345678");
  }

  // ---------------------------------------------------------------------------
  // Text (src/main.rs:45-49)
  // ---------------------------------------------------------------------------

  /** The four rows of the display, in order: clock, labels, temperatures,
      condition flags. */
  type Rows = rows: seq<LimitedString> | |rows| == 4 witness ["", "", "", ""]

  /** The message a composer sends to a renderer. */
  datatype Text = Text(rows: Rows)

  /** `Text::default()`: four empty rows. */
  function DefaultText(): (t: Text)
    ensures |t.rows| == 4
    ensures forall i :: 0 <= i < 4 ==> AsStr(t.rows[i]) == AsStr(DefaultLimitedString())
  {
    Text([DefaultLimitedString(), DefaultLimitedString(), DefaultLimitedString(), DefaultLimitedString()])
  }

  // ---------------------------------------------------------------------------
  // Configuration and ClockOperator (src/main.rs:51-102)
  // ---------------------------------------------------------------------------

  /** Rust's `u8`. */
  newtype U8 = x: int | 0 <= x < 0x100

  /** Rust's `u16`. */
  newtype U16 = x: int | 0 <= x < 0x1_0000

  /** The loaded configuration: the fields `ClockOperator::from` reads. */
  datatype Config = Config(
    latitude: string, longitude: string, appid: string, units: string, bus: U8, addr: U16)

  /** Where the clock renders: an I2C character display or the terminal. */
  datatype RunMode = Lcd(bus: U8, addr: U16) | Terminal

  datatype ClockOperator = ClockOperator(
    latitude: string, longitude: string, appid: string, units: string, runMode: RunMode)

  /** `ClockOperator::from(Config)`: always the LCD mode on the configured
      bus and address; location, key and units are copied unchanged. */
  function OperatorFromConfig(c: Config): (o: ClockOperator)
    ensures !o.runMode.Terminal?
    ensures o.runMode == Lcd(c.bus, c.addr)
    ensures o.latitude == c.latitude && o.longitude == c.longitude
    ensures o.appid == c.appid && o.units == c.units
  {
    ClockOperator(c.latitude, c.longitude, c.appid, c.units, Lcd(c.bus, c.addr))
  }

  /** The conversion loses nothing: distinct configurations give distinct
      operators, so the configuration can be read back from the operator. */
  lemma OperatorFromConfigInjective(c1: Config, c2: Config)
    requires OperatorFromConfig(c1) == OperatorFromConfig(c2)
    ensures c1 == c2
  {
    var o := OperatorFromConfig(c1);
    assert o.runMode.bus == c1.bus && o.runMode.bus == c2.bus;
  }
}
