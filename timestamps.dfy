/**
 * `parse_timestamp` (app/utils.py:77-114): the string rewrite that prepares an
 * RFC 3339 date-time for Python's `datetime.fromisoformat`, and the parse
 * itself with `fromisoformat` taken as an abstract partial parser.
 */
module Timestamps {
  import opened Wrappers
  import opened Text

  /** Number of fractional-second digits the rewrite keeps (microseconds). */
  const FractionDigits: nat := 6

  /**
   * A parsed `datetime`. `micros` orders instants of the same kind:
   * UTC microseconds for an offset-aware value, wall-clock microseconds for a
   * naive one. Python refuses to order a naive value against an aware one.
   */
  datatype Instant = Instant(micros: int, offsetAware: bool)

  /** Step one: every `Z` becomes `+00:00`. */
  function WithUtcOffset(s: string): (r: string)
    ensures 'Z' !in r
    ensures 'Z' !in s ==> r == s
  {
    Replace(s, 'Z', "+00:00")
  }

  /** The fraction cut to its first six characters and right-padded with `0` to six. */
  function Microseconds(fraction: string): (r: string)
    ensures |r| == FractionDigits
    ensures |fraction| >= FractionDigits ==> r == fraction[..FractionDigits]
    ensures |fraction| < FractionDigits ==> r[..|fraction|] == fraction
    ensures forall i :: |fraction| <= i < FractionDigits ==> r[i] == '0'
  {
    LeftJustify(Prefix(fraction, FractionDigits), FractionDigits, '0')
  }

  /**
   * The text `parse_timestamp` hands to `fromisoformat` (`Ok`), or the text
   * named in its `ValueError` when unpacking a split fails first (`Err`).
   */
  function Normalise(s: string): (r: Result<string>)
    ensures '.' !in WithUtcOffset(s) ==> r == Ok(WithUtcOffset(s))
    ensures r.Err? ==> r.error == WithUtcOffset(s) && '.' in WithUtcOffset(s) && '+' in WithUtcOffset(s)
  {
    var t := WithUtcOffset(s);
    if '.' !in t then Ok(t)
    else
      match RSplit(t, '+')
      case Some((datetimePart, offset)) =>
        (match RSplit(datetimePart, '.')
         case Some((dateTime, fraction)) => Ok(dateTime + "." + Microseconds(fraction) + "+" + offset)
         case None => Err(t))
      case None =>
        var (dateTime, fraction) := RSplit(t, '.').value;
        Ok(dateTime + "." + Microseconds(fraction))
  }

  /** The message of the `ValueError` that `parse_timestamp` raises. */
  function InvalidFormat(t: string): string {
    "Invalid timestamp format: " + t
  }

  /**
   * `parse_timestamp(s)`: the rewritten text parsed by `fromIso`, or the
   * `ValueError` it re-raises naming the text as far as it was rewritten.
   */
  function ParseTimestamp(s: string, fromIso: string -> Option<Instant>): (r: Result<Instant>)
    ensures r.Ok? <==> Normalise(s).Ok? && fromIso(Normalise(s).value).Some?
    ensures r.Ok? ==> fromIso(Normalise(s).value) == Some(r.value)
    ensures r.Err? ==> exists t :: r.error == InvalidFormat(t) && 'Z' !in t
  {
    var t := WithUtcOffset(s);
    match Normalise(s)
    case Err(u) =>
      NormaliseHasNoZ(s);
      Err(InvalidFormat(u))
    case Ok(u) =>
      NormaliseHasNoZ(s);
      match fromIso(u)
      case Some(i) => Ok(i)
      case None => Err(InvalidFormat(u))
  }

  /** No `Z` survives the rewrite, on either path. */
  lemma NormaliseHasNoZ(s: string)
    ensures Normalise(s).Ok? ==> 'Z' !in Normalise(s).value
    ensures Normalise(s).Err? ==> 'Z' !in Normalise(s).error
  {
    var t := WithUtcOffset(s);
    if '.' in t {
      match RSplit(t, '+') {
        case Some((datetimePart, offset)) =>
          match RSplit(datetimePart, '.') {
            case Some((dateTime, fraction)) => MicrosecondsAvoids(fraction, 'Z');
            case None =>
          }
        case None =>
          var (dateTime, fraction) := RSplit(t, '.').value;
          MicrosecondsAvoids(fraction, 'Z');
      }
    }
  }

  /** A character other than `0` that is not in the fraction is not in its six-digit form. */
  lemma MicrosecondsAvoids(fraction: string, d: char)
    requires d !in fraction && d != '0'
    ensures d !in Microseconds(fraction)
  {
    var r := Microseconds(fraction);
    forall i | 0 <= i < |r| ensures r[i] != d {
      if i < |fraction| {
        assert r[i] == Prefix(fraction, FractionDigits)[i] == fraction[i];
      }
    }
  }

  /** Without a `.`, the only change before parsing is `Z` to `+00:00`. */
  lemma NoFractionOnlyOffsetRewritten(s: string)
    requires '.' !in s
    ensures Normalise(s) == Ok(WithUtcOffset(s))
  {
    ReplaceAvoids(s, 'Z', "+00:00", '.');
  }

  /**
   * With a `+` offset: the date-time before the last `.` and the offset after
   * the last `+` are kept verbatim; only the fraction changes.
   */
  lemma PositiveOffsetKept(s: string, dateTime: string, fraction: string, offset: string)
    requires WithUtcOffset(s) == dateTime + "." + fraction + "+" + offset
    requires '.' !in fraction && '+' !in offset
    ensures Normalise(s) == Ok(dateTime + "." + Microseconds(fraction) + "+" + offset)
  {
    var t := WithUtcOffset(s);
    assert t == (dateTime + "." + fraction) + ['+'] + offset;
    RSplitAt(dateTime + "." + fraction, '+', offset);
    assert dateTime + "." + fraction == dateTime + ['.'] + fraction;
    RSplitAt(dateTime, '.', fraction);
    assert t[|dateTime|] == '.';
  }

  /**
   * With a `.` but no `+` (a naive time, or a negative offset such as
   * `-05:00`), everything after the last `.` counts as the fraction, so an
   * offset there is cut by the six-character truncation.
   */
  lemma NoPlusEverythingAfterDotIsFraction(s: string, dateTime: string, fraction: string)
    requires WithUtcOffset(s) == dateTime + "." + fraction
    requires '.' !in fraction && '+' !in WithUtcOffset(s)
    ensures Normalise(s) == Ok(dateTime + "." + Microseconds(fraction))
  {
    var t := WithUtcOffset(s);
    assert t == dateTime + ['.'] + fraction;
    RSplitAt(dateTime, '.', fraction);
    assert t[|dateTime|] == '.';
  }

  /**
   * With a `.` and a `+` but no `.` before the last `+`, `rsplit('.', 1)`
   * yields one part and unpacking it raises `ValueError`; the error names the
   * text with `Z` already rewritten.
   */
  lemma NoDotBeforeOffsetFails(s: string, datetimePart: string, offset: string)
    requires WithUtcOffset(s) == datetimePart + "+" + offset
    requires '+' !in offset && '.' !in datetimePart && '.' in offset
    ensures Normalise(s) == Err(WithUtcOffset(s))
  {
    var t := WithUtcOffset(s);
    assert t == datetimePart + ['+'] + offset;
    RSplitAt(datetimePart, '+', offset);
    assert '.' in t by {
      var k :| 0 <= k < |offset| && offset[k] == '.';
      assert t[|datetimePart| + 1 + k] == '.';
    }
  }

  /** A trailing `Z` after a fraction: the fraction is fixed to six digits and `Z` becomes `+00:00`. */
  lemma UtcDesignatorAfterFraction(dateTime: string, fraction: string)
    requires 'Z' !in dateTime
    requires 'Z' !in fraction && '.' !in fraction && '+' !in fraction
    ensures Normalise(dateTime + "." + fraction + "Z") == Ok(dateTime + "." + Microseconds(fraction) + "+00:00")
  {
    var body := dateTime + "." + fraction;
    var s := dateTime + "." + fraction + "Z";
    var m := Microseconds(fraction);
    assert s == body + "Z";
    assert dateTime + "." + m + "+" + "00:00" == dateTime + "." + m + "+00:00";
    assert WithUtcOffset(s) == dateTime + "." + fraction + "+" + "00:00" by {
      assert 'Z' !in body;
      ReplaceConcat(body, "Z", 'Z', "+00:00");
      assert Replace("Z", 'Z', "+00:00") == "+00:00" + Replace([], 'Z', "+00:00");
    }
    PositiveOffsetKept(s, dateTime, fraction, "00:00");
  }

  /** Nanosecond precision is truncated, never rounded: `.123456789Z` becomes `.123456+00:00`. */
  lemma NanosecondsTruncated()
    ensures Normalise("2024-05-01T10:00:00.123456789Z") == Ok("2024-05-01T10:00:00.123456+00:00")
  {
    var dateTime, fraction := "2024-05-01T10:00:00", "123456789";
    assert dateTime + "." + fraction + "Z" == "2024-05-01T10:00:00.123456789Z";
    assert dateTime + "." + "123456" + "+00:00" == "2024-05-01T10:00:00.123456+00:00";
    assert Microseconds(fraction) == "123456";
    UtcDesignatorAfterFraction(dateTime, fraction);
  }

  /** A short fraction is right-padded: `.5Z` becomes `.500000+00:00`. */
  lemma ShortFractionPadded()
    ensures Normalise("2024-05-01T10:00:00.5Z") == Ok("2024-05-01T10:00:00.500000+00:00")
  {
    var dateTime, fraction := "2024-05-01T10:00:00", "5";
    assert dateTime + "." + fraction + "Z" == "2024-05-01T10:00:00.5Z";
    assert dateTime + "." + "500000" + "+00:00" == "2024-05-01T10:00:00.500000+00:00";
    var m := Microseconds(fraction);
    assert m[0] == '5' && m[1] == '0' && m[2] == '0' && m[3] == '0' && m[4] == '0' && m[5] == '0';
    assert m == "500000";
    UtcDesignatorAfterFraction(dateTime, fraction);
  }

  /** A negative offset after a fraction is swallowed by the truncation: `-05:00` loses its last digit. */
  lemma NegativeOffsetTruncated()
    ensures Normalise("2024-05-01T10:00:00.5-05:00") == Ok("2024-05-01T10:00:00.5-05:0")
  {
    var s, dateTime, fraction := "2024-05-01T10:00:00.5-05:00", "2024-05-01T10:00:00", "5-05:00";
    assert '.' !in fraction;
    assert 'Z' !in s && '+' !in s;
    assert s == dateTime + "." + fraction;
    assert dateTime + "." + "5-05:0" == "2024-05-01T10:00:00.5-05:0";
    assert Microseconds(fraction) == "5-05:0";
    NoPlusEverythingAfterDotIsFraction(s, dateTime, fraction);
  }
}
