/**
 * The name of a recording file: the recording folder joined with
 * `recording_<seconds>.avi`, where `<seconds>` is the whole-second wall
 * clock written in decimal (app.py lines 21 and 98).
 */
module Naming {
  import opened Common

  const Folder: string := "Recording"
  const Stem: string := "recording_"
  const Extension: string := ".avi"

  /** Everything in a recording name before the timestamp: the folder, a path separator, the stem. */
  const NamePrefix: string := Folder + "/" + Stem

  predicate IsDigit(c: char)
  {
    '0' <= c <= '9'
  }

  predicate AllDigits(s: string)
  {
    forall i :: 0 <= i < |s| ==> IsDigit(s[i])
  }

  /** The decimal digit for `d`. */
  function DigitChar(d: nat): (c: char)
    requires d < 10
    ensures IsDigit(c) && (c as int) - ('0' as int) == d
  {
    (('0' as int) + d) as char
  }

  /** The value of a decimal digit. */
  function DigitValue(c: char): (d: nat)
    requires IsDigit(c)
    ensures d < 10
  {
    (c as int) - ('0' as int)
  }

  /** `n` in decimal, as Python's `str` writes a non-negative int. */
  function Decimal(n: nat): (s: string)
    ensures |s| >= 1 && AllDigits(s)
    ensures s[0] == '0' ==> n == 0 && s == "0"
  {
    if n < 10 then [DigitChar(n)] else Decimal(n / 10) + [DigitChar(n % 10)]
  }

  /** Reads a string of decimal digits, most significant first. */
  function ParseDecimal(s: string): nat
    requires AllDigits(s)
  {
    if s == [] then 0 else 10 * ParseDecimal(s[..|s| - 1]) + DigitValue(s[|s| - 1])
  }

  /** Reading back what `Decimal` wrote gives the number again. */
  lemma {:induction false} ParseDecimalOfDecimal(n: nat)
    ensures ParseDecimal(Decimal(n)) == n
  {
    var s := Decimal(n);
    if n < 10 {
      assert s[..0] == [];
    } else {
      ParseDecimalOfDecimal(n / 10);
      assert s[..|s| - 1] == Decimal(n / 10);
    }
  }

  /** The file a recording started at whole second `seconds` is written to. */
  function RecordingName(seconds: nat): (name: string)
    ensures |name| > |NamePrefix| + |Extension|
    ensures name[..|NamePrefix|] == NamePrefix
    ensures name[|name| - |Extension|..] == Extension
    ensures AllDigits(name[|NamePrefix|..|name| - |Extension|])
    ensures name[|NamePrefix|..|name| - |Extension|] == Decimal(seconds)
  {
    NamePrefix + Decimal(seconds) + Extension
  }

  /** The whole second a recording name was built from, if it is one. */
  function TimestampOf(name: string): (t: Option<nat>)
  {
    if |name| > |NamePrefix| + |Extension|
       && name[..|NamePrefix|] == NamePrefix
       && name[|name| - |Extension|..] == Extension
       && AllDigits(name[|NamePrefix|..|name| - |Extension|])
    then Some(ParseDecimal(name[|NamePrefix|..|name| - |Extension|]))
    else None
  }

  /** The timestamp can be read back from every recording name. */
  lemma {:induction false} TimestampOfRecordingName(seconds: nat)
    ensures TimestampOf(RecordingName(seconds)) == Some(seconds)
  {
    ParseDecimalOfDecimal(seconds);
  }

  /**
   * Two recordings get the same file name exactly when they start in the
   * same whole second: distinct seconds never collide, and a second
   * recording started within the same second reuses the name.
   */
  lemma RecordingNameCollision(a: nat, b: nat)
    ensures RecordingName(a) == RecordingName(b) <==> a == b
  {
    if RecordingName(a) == RecordingName(b) {
      TimestampOfRecordingName(a);
      TimestampOfRecordingName(b);
    }
  }
}
