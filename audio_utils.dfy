/**
 * Audio helpers: `formatDuration`, the `mm:ss` display of a duration, and
 * `isTextTooLong`. Durations are whole seconds here.
 */
module AudioUtils {
  import opened Wrappers
  import opened JsBuiltins

  /** The number handed to `formatDuration`; `undefined`, `null` and `NaN` are told apart from numbers. */
  datatype Seconds = Undefined | Null | NaN | Whole(n: int)

  const Placeholder: string := "--:--"

  /** JavaScript's `a % b` for `b > 0`: the remainder takes the sign of `a`. */
  function JsRem(a: int, b: int): (r: int)
    requires b > 0
    ensures a >= 0 ==> r == a % b
    ensures a < 0 ==> -b < r <= 0 && r == -((-a) % b)
  {
    if a >= 0 then a % b else -((-a) % b)
  }

  /**
   * `formatDuration(seconds)`: the placeholder exactly for a value that is not a number;
   * a number gives a minutes field of at least two characters, a colon and a seconds field.
   */
  function FormatDuration(seconds: Seconds): (r: string)
    ensures r == Placeholder <==> !seconds.Whole?
    ensures seconds.Whole? ==> |r| >= 5 && IsDigit(r[1]) && ':' in r
  {
    match seconds
    case Whole(n) =>
      var mins := n / 60;           // Math.floor(n / 60): Dafny's division floors for a positive divisor
      var secs := JsRem(n, 60);     // Math.floor(n % 60) of a whole number
      var mm := PadStart2(IntToString(mins));
      assert IsDigit(mm[1]) by {
        if mins >= 0 && |IntToString(mins)| < 2 {
          assert mm[1] == IntToString(mins)[0];
        }
      }
      var r := mm + ":" + PadStart2(IntToString(secs));
      assert r[1] == mm[1] && Placeholder[1] == '-';
      r
    case _ => Placeholder
  }

  /** A two-digit field reads back as the number it pads. */
  lemma PaddedValue(m: nat)
    requires m < 100
    ensures |PadStart2(NatToString(m))| == 2
    ensures forall i | 0 <= i < 2 :: IsDigit(PadStart2(NatToString(m))[i])
    ensures DigitsValue(PadStart2(NatToString(m))) == m
  {
    NatToStringLength(m);
    NatToStringRoundTrip(m);
    var d := NatToString(m);
    if m < 10 {
      var p := PadStart2(d);
      assert p == "0" + d;
      assert p[..1] == "0";
      assert DigitsValue("0") == 0 by { assert "0"[..0] == []; }
    }
  }

  /** Below 100 minutes the display is `mm:ss` and reads back as the duration. */
  lemma FormatDurationRoundTrip(n: nat)
    requires n < 6000
    ensures var r := FormatDuration(Whole(n));
            && |r| == 5 && r[2] == ':'
            && (forall i | 0 <= i < 5 && i != 2 :: IsDigit(r[i]))
            && 60 * DigitsValue(r[..2]) + DigitsValue(r[3..]) == n && DigitsValue(r[3..]) < 60
  {
    PaddedValue(n / 60);
    PaddedValue(n % 60);
    var mm := PadStart2(NatToString(n / 60));
    var ss := PadStart2(NatToString(n % 60));
    assert JsRem(n, 60) == n % 60;
    assert IntToString(n / 60) == NatToString(n / 60) && IntToString(n % 60) == NatToString(n % 60);
    var r := FormatDuration(Whole(n));
    assert r == mm + ":" + ss;
    assert r[..2] == mm && r[3..] == ss;
    forall i | 0 <= i < 5 && i != 2
      ensures IsDigit(r[i])
    {
      if i < 2 {
        assert r[i] == mm[i];
      } else {
        assert r[i] == ss[i - 3];
      }
    }
  }

  /**
   * From 100 minutes on the minutes are printed in full (padding never truncates),
   * and the display still reads back as the duration.
   */
  lemma FormatDurationLong(n: nat)
    requires n >= 6000
    ensures var r := FormatDuration(Whole(n));
            && |r| == |NatToString(n / 60)| + 3 >= 6
            && r[..|r| - 3] == NatToString(n / 60) && r[|r| - 3] == ':'
            && (forall i | 0 <= i < |r| && i != |r| - 3 :: IsDigit(r[i]))
            && DigitsValue(r[|r| - 2..]) == n % 60 < 60
            && 60 * DigitsValue(r[..|r| - 3]) + DigitsValue(r[|r| - 2..]) == n
  {
    NatToStringLength(n / 60);
    NatToStringRoundTrip(n / 60);
    PaddedValue(n % 60);
    var mm := NatToString(n / 60);
    var ss := PadStart2(NatToString(n % 60));
    assert JsRem(n, 60) == n % 60;
    assert IntToString(n / 60) == mm && IntToString(n % 60) == NatToString(n % 60);
    assert PadStart2(mm) == mm;
    var r := FormatDuration(Whole(n));
    assert r == mm + ":" + ss;
    assert r[..|r| - 3] == mm && r[|r| - 2..] == ss;
    forall i | 0 <= i < |r| && i != |r| - 3
      ensures IsDigit(r[i])
    {
      if i < |r| - 3 {
        assert r[i] == mm[i];
      } else {
        assert r[i] == ss[i - (|r| - 2)];
      }
    }
  }

  /** Zero seconds is `00:00`, not the placeholder. */
  lemma FormatDurationZero()
    ensures FormatDuration(Whole(0)) == "00:00"
    ensures FormatDuration(Undefined) == FormatDuration(Null) == FormatDuration(NaN) == Placeholder
  {
  }

  /** `isTextTooLong(text, maxLength)`, as a truthiness: `text && text.length > maxLength`. */
  function IsTextTooLong(text: Option<string>, maxLength: int): (tooLong: bool)
    ensures text.None? || text.value == "" ==> !tooLong
    ensures maxLength >= 0 ==> (tooLong <==> text.Some? && |text.value| > maxLength)
  {
    text.Some? && text.value != "" && |text.value| > maxLength
  }
}
