/**
 * The pieces of Rust's `format!` that the display rows use (src/source.rs):
 * decimal rendering of integers, `{:3}` padding (numbers right-aligned,
 * strings left-aligned, to a minimum width, never truncated), joining fields
 * with single spaces, and plain concatenation. Parsers for the rendered
 * forms are given beside them so that the renderings can be shown lossless.
 */
module Format {
  import opened Clock

  // ---------------------------------------------------------------------------
  // Padding
  // ---------------------------------------------------------------------------

  /** `n` spaces. */
  function Spaces(n: nat): (r: string)
    ensures |r| == n
    ensures forall i :: 0 <= i < n ==> r[i] == ' '
  {
    if n == 0 then "" else " " + Spaces(n - 1)
  }

  /** `{:width}` on a string: the text first, then spaces up to `width`
      characters; a longer text is kept whole. */
  function PadRight(s: string, width: nat): (r: string)
    ensures |r| == if |s| < width then width else |s|
    ensures r[..|s|] == s
    ensures forall i :: |s| <= i < |r| ==> r[i] == ' '
  {
    if |s| < width then s + Spaces(width - |s|) else s
  }

  /** `{:width}` on a number: spaces up to `width` characters, then the
      digits; a longer rendering is kept whole. */
  function PadLeft(s: string, width: nat): (r: string)
    ensures |r| == if |s| < width then width else |s|
    ensures r[|r| - |s|..] == s
    ensures forall i :: 0 <= i < |r| - |s| ==> r[i] == ' '
  {
    if |s| < width then Spaces(width - |s|) + s else s
  }

  /** Padding ASCII text gives ASCII text. */
  lemma PadLeftAscii(s: string, width: nat)
    requires IsAscii(s)
    ensures IsAscii(PadLeft(s, width))
  {
    var r := PadLeft(s, width);
    forall i | 0 <= i < |r| ensures r[i] as int < 0x80 {
      if i >= |r| - |s| {
        assert r[i] == r[|r| - |s|..][i - (|r| - |s|)];
      }
    }
  }

  /** `s` without its leading spaces. */
  function TrimStart(s: string): (r: string)
    ensures r == [] || r[0] != ' '
    decreases |s|
  {
    if s != [] && s[0] == ' ' then TrimStart(s[1..]) else s
  }

  /** Padding on the left is undone by trimming, as long as the padded text
      does not itself start with a space. */
  lemma {:induction false} TrimStartPadLeft(s: string, width: nat)
    requires s == [] || s[0] != ' '
    ensures TrimStart(PadLeft(s, width)) == s
  {
    if |s| < width {
      TrimStartSpaces(width - |s|, s);
    }
  }

  lemma {:induction false} TrimStartSpaces(n: nat, s: string)
    requires s == [] || s[0] != ' '
    ensures TrimStart(Spaces(n) + s) == s
  {
    if n > 0 {
      assert (Spaces(n) + s)[1..] == Spaces(n - 1) + s;
      TrimStartSpaces(n - 1, s);
    }
  }

  // ---------------------------------------------------------------------------
  // Decimal rendering of integers (Rust's `Display` for integer types)
  // ---------------------------------------------------------------------------

  predicate IsDigit(c: char)
  {
    '0' <= c <= '9'
  }

  function DigitChar(d: nat): (c: char)
    requires d < 10
    ensures IsDigit(c)
  {
    "0123456789"[d]
  }

  function DigitValue(c: char): nat
    requires IsDigit(c)
  {
    c as int - '0' as int
  }

  /** The decimal digits of `n`, most significant first, with no leading
      zero. */
  function NatToString(n: nat): (s: string)
    ensures |s| >= 1
    ensures forall i :: 0 <= i < |s| ==> IsDigit(s[i])
    decreases n
  {
    if n < 10 then [DigitChar(n)] else NatToString(n / 10) + [DigitChar(n % 10)]
  }

  /** An integer as Rust displays it: a minus sign before the digits of a
      negative number, nothing before those of any other. */
  function IntToString(n: int): (s: string)
    ensures |s| >= 1 && IsAscii(s)
    ensures s[0] == '-' <==> n < 0
    ensures forall i :: 0 <= i < |s| ==> (i == 0 && s[i] == '-') || IsDigit(s[i])
  {
    var s := if n < 0 then "-" + NatToString(-n) else NatToString(n);
    assert forall i :: 0 <= i < |s| ==> s[i] == '-' || IsDigit(s[i]);
    s
  }

  /** The value of a string of decimal digits. */
  function ParseNat(s: string): nat
    requires forall i :: 0 <= i < |s| ==> IsDigit(s[i])
  {
    if s == [] then 0 else 10 * ParseNat(s[..|s| - 1]) + DigitValue(s[|s| - 1])
  }

  /** The value of an optional minus sign followed by decimal digits. */
  function ParseInt(s: string): int
    requires s != []
    requires forall i :: 0 <= i < |s| ==> (i == 0 && s[i] == '-') || IsDigit(s[i])
  {
    if s[0] == '-' then 0 - ParseNat(s[1..]) as int else ParseNat(s)
  }

  /** Reading the digits back gives the number. */
  lemma {:induction false} ParseNatToString(n: nat)
    ensures ParseNat(NatToString(n)) == n
    decreases n
  {
    if n >= 10 {
      var s := NatToString(n);
      assert s[..|s| - 1] == NatToString(n / 10);
      ParseNatToString(n / 10);
    }
  }

  /** Reading the rendering back gives the integer. */
  lemma ParseIntToString(n: int)
    ensures ParseInt(IntToString(n)) == n
  {
    if n < 0 {
      ParseNegativeToString(n);
    } else {
      ParseNonNegativeToString(n);
    }
  }

  /** A negative number: a minus sign, then the digits of its magnitude. */
  lemma ParseNegativeToString(n: int)
    requires n < 0
    ensures ParseInt(IntToString(n)) == n
  {
    var m: nat := -n;
    var digits := NatToString(m);
    assert IntToString(n) == "-" + digits;
    assert ParseInt("-" + digits) == n by {
      ParseNatToString(m);
      ParseIntSigned(digits);
    }
  }

  /** Any other number: its digits alone. */
  lemma ParseNonNegativeToString(n: nat)
    ensures ParseInt(IntToString(n)) == n
  {
    var digits := NatToString(n);
    ParseNatToString(n);
    ParseIntUnsigned(digits);
    assert IntToString(n) == digits;
  }

  /** A leading minus sign negates the value of the digits after it. */
  lemma ParseIntSigned(digits: string)
    requires digits != [] && forall i :: 0 <= i < |digits| ==> IsDigit(digits[i])
    ensures ParseInt("-" + digits) == 0 - ParseNat(digits) as int
  {
    assert ("-" + digits)[1..] == digits;
  }

  /** Without a sign, the value is that of the digits. */
  lemma ParseIntUnsigned(digits: string)
    requires digits != [] && forall i :: 0 <= i < |digits| ==> IsDigit(digits[i])
    ensures ParseInt(digits) == ParseNat(digits)
  {
    assert digits[0] != '-';
  }

  /** Numbers below a thousand take one, two or three digits. */
  lemma NatToStringLength(n: nat)
    requires n < 1000
    ensures |NatToString(n)| == if n < 10 then 1 else if n < 100 then 2 else 3
  {
    if n >= 10 {
      assert |NatToString(n)| == |NatToString(n / 10)| + 1;
      if n >= 100 {
        assert |NatToString(n / 10)| == |NatToString(n / 100)| + 1;
      }
    }
  }

  // ---------------------------------------------------------------------------
  // Joining fields
  // ---------------------------------------------------------------------------

  /** Total number of characters in `fs`. */
  function TotalLength(fs: seq<string>): nat
  {
    if fs == [] then 0 else |fs[0]| + TotalLength(fs[1..])
  }

  /** The fields separated by single spaces, as a format string of `{}`
      placeholders separated by single spaces renders them. */
  function SpaceJoin(fs: seq<string>): string
    decreases |fs|
  {
    if fs == [] then "" else if |fs| == 1 then fs[0] else fs[0] + " " + SpaceJoin(fs[1..])
  }

  /** The fields one after the other, as a format string of adjacent `{}`
      placeholders renders them. */
  function Concat(fs: seq<string>): string
    decreases |fs|
  {
    if fs == [] then "" else fs[0] + Concat(fs[1..])
  }

  /** For five fields, joining is the format string `"{} {} {} {} {}"`. */
  lemma SpaceJoinFive(fs: seq<string>)
    requires |fs| == 5
    ensures SpaceJoin(fs) == fs[0] + " " + fs[1] + " " + fs[2] + " " + fs[3] + " " + fs[4]
  {
    assert fs[1..][1..] == fs[2..];
    assert fs[2..][1..] == fs[3..];
    assert fs[3..][1..] == fs[4..];
    assert SpaceJoin(fs[4..]) == fs[4];
    assert SpaceJoin(fs[3..]) == fs[3] + " " + fs[4];
    assert SpaceJoin(fs[2..]) == fs[2] + " " + fs[3] + " " + fs[4];
  }

  /** For five fields, concatenation is the format string `"{}{}{}{}{}"`. */
  lemma ConcatFive(fs: seq<string>)
    requires |fs| == 5
    ensures Concat(fs) == fs[0] + fs[1] + fs[2] + fs[3] + fs[4]
  {
    assert fs[1..][1..] == fs[2..];
    assert fs[2..][1..] == fs[3..];
    assert fs[3..][1..] == fs[4..];
    assert fs[4..][1..] == [];
    assert Concat(fs[4..]) == fs[4];
    assert Concat(fs[3..]) == fs[3] + fs[4];
    assert Concat(fs[2..]) == fs[2] + fs[3] + fs[4];
  }

  /** Joining adds one character per gap between fields. */
  lemma {:induction false} SpaceJoinLength(fs: seq<string>)
    requires fs != []
    ensures |SpaceJoin(fs)| == TotalLength(fs) + |fs| - 1
    decreases |fs|
  {
    if |fs| > 1 {
      SpaceJoinLength(fs[1..]);
    }
  }

  /** Joining ASCII fields gives ASCII text. */
  lemma {:induction false} SpaceJoinAscii(fs: seq<string>)
    requires forall i :: 0 <= i < |fs| ==> IsAscii(fs[i])
    ensures IsAscii(SpaceJoin(fs))
    decreases |fs|
  {
    if |fs| > 1 {
      SpaceJoinAscii(fs[1..]);
      var rest := SpaceJoin(fs[1..]);
      assert SpaceJoin(fs) == fs[0] + " " + rest;
      assert IsAscii(fs[0]);
      forall i | 0 <= i < |SpaceJoin(fs)| ensures SpaceJoin(fs)[i] as int < 0x80 {
        if i < |fs[0]| {
          assert SpaceJoin(fs)[i] == fs[0][i];
        } else if i > |fs[0]| {
          assert SpaceJoin(fs)[i] == rest[i - |fs[0]| - 1];
        }
      }
    }
  }

  /** With every field three characters wide, field `i` occupies columns
      `4 * i` to `4 * i + 2`, and a space follows it unless it is the last. */
  lemma {:induction false} SpaceJoinColumns(fs: seq<string>, i: nat)
    requires forall j :: 0 <= j < |fs| ==> |fs[j]| == 3
    requires i < |fs|
    ensures |SpaceJoin(fs)| == 4 * |fs| - 1
    ensures SpaceJoin(fs)[4 * i .. 4 * i + 3] == fs[i]
    ensures i + 1 < |fs| ==> SpaceJoin(fs)[4 * i + 3] == ' '
    decreases |fs|
  {
    if |fs| > 1 {
      var rest := SpaceJoin(fs[1..]);
      SpaceJoinColumns(fs[1..], if i == 0 then 0 else i - 1);
      assert SpaceJoin(fs) == fs[0] + " " + rest;
      if i > 0 {
        assert SpaceJoin(fs)[4 * i .. 4 * i + 3] == rest[4 * (i - 1) .. 4 * (i - 1) + 3];
        if i + 1 < |fs| {
          assert SpaceJoin(fs)[4 * i + 3] == rest[4 * (i - 1) + 3];
        }
      }
    }
  }

  /** With every field four characters wide, field `i` occupies columns
      `4 * i` to `4 * i + 3`. */
  lemma {:induction false} ConcatColumns(fs: seq<string>, i: nat)
    requires forall j :: 0 <= j < |fs| ==> |fs[j]| == 4
    requires i < |fs|
    ensures |Concat(fs)| == 4 * |fs|
    ensures Concat(fs)[4 * i .. 4 * i + 4] == fs[i]
    decreases |fs|
  {
    var rest := Concat(fs[1..]);
    if |fs| > 1 {
      ConcatColumns(fs[1..], if i == 0 then 0 else i - 1);
    } else {
      assert rest == [];
    }
    assert Concat(fs) == fs[0] + rest;
    if i > 0 {
      assert Concat(fs)[4 * i .. 4 * i + 4] == rest[4 * (i - 1) .. 4 * (i - 1) + 4];
    }
  }

  /** Concatenating ASCII fields gives ASCII text. */
  lemma {:induction false} ConcatAscii(fs: seq<string>)
    requires forall i :: 0 <= i < |fs| ==> IsAscii(fs[i])
    ensures IsAscii(Concat(fs))
    decreases |fs|
  {
    if fs != [] {
      ConcatAscii(fs[1..]);
      var rest := Concat(fs[1..]);
      assert IsAscii(fs[0]);
      forall i | 0 <= i < |Concat(fs)| ensures Concat(fs)[i] as int < 0x80 {
        if i < |fs[0]| {
          assert Concat(fs)[i] == fs[0][i];
        } else {
          assert Concat(fs)[i] == rest[i - |fs[0]|];
        }
      }
    }
  }
}
