/**
 * The client-side helpers of js/util.js: the log time stamp, the U2F error
 * predicate and the inversion of the U2F error-code table.
 */
module Util {
  import opened Wrappers
  import opened Text

  // ---------------------------------------------------------------------------
  // timeStamp
  // ---------------------------------------------------------------------------

  /**
   * The fields `timeStamp` reads from `new Date()`, as the getters return them:
   * `month` is 0-based (getMonth), `hours` is on the 24-hour clock (getHours).
   */
  datatype DateTime = DateTime(
    month: nat, date: nat, fullYear: nat,
    hours: nat, minutes: nat, seconds: nat, milliseconds: nat)

  /** The ranges a JavaScript Date guarantees for its getters. */
  predicate ValidDateTime(t: DateTime) {
    && t.month < 12 && 1 <= t.date <= 31
    && t.hours < 24 && t.minutes < 60 && t.seconds < 60 && t.milliseconds < 1000
  }

  /** The AM/PM suffix: "AM" exactly before noon. */
  function Suffix(hours: nat): (r: string)
    ensures r == "AM" || r == "PM"
    ensures r == "AM" <==> hours < 12
  {
    if hours < 12 then "AM" else "PM"
  }

  /** The hour shown on the 12-hour clock. */
  function Hour12(hours: nat): (r: nat)
    ensures hours < 24 ==> 1 <= r <= 12 && r % 12 == hours % 12
    ensures hours < 24 ==> Hour24(r, hours >= 12) == hours
  {
    var h := if hours < 12 then hours else hours - 12;
    if h == 0 then 12 else h
  }

  /** Back from the 12-hour clock and the suffix to the 24-hour value. */
  function Hour24(hour12: nat, pm: bool): nat {
    hour12 % 12 + (if pm then 12 else 0)
  }

  /** Minutes and seconds: one leading '0' below ten. */
  function Pad2(n: nat): (r: string)
    ensures AllDigits(r)
    ensures n < 100 ==> |r| == 2 && DecimalValue(r) == n
    ensures n >= 10 ==> r == NatToString(n)
  {
    NatToStringValue(n);
    NatToStringWidth(n);
    LeadingZero(NatToString(n));
    if n < 10 then "0" + NatToString(n) else NatToString(n)
  }

  /** Milliseconds: "00" below ten, "0" below a hundred. */
  function Pad3(n: nat): (r: string)
    ensures AllDigits(r)
    ensures n < 1000 ==> |r| == 3 && DecimalValue(r) == n
    ensures n >= 100 ==> r == NatToString(n)
  {
    NatToStringValue(n);
    NatToStringWidth(n);
    LeadingZero(NatToString(n));
    LeadingZero("0" + NatToString(n));
    assert "00" + NatToString(n) == "0" + ("0" + NatToString(n));
    if n < 10 then "00" + NatToString(n)
    else if n < 100 then "0" + NatToString(n)
    else NatToString(n)
  }

  /** The date part: 1-based month, day and year joined with '/'. */
  function DateParts(t: DateTime): seq<string> {
    [NatToString(t.month + 1), NatToString(t.date), NatToString(t.fullYear)]
  }

  /** The clock part: unpadded 12-hour hour, padded minutes and seconds. */
  function ClockParts(t: DateTime): seq<string> {
    [NatToString(Hour12(t.hours)), Pad2(t.minutes), Pad2(t.seconds)]
  }

  /** The string `timeStamp` returns for the time `t`. */
  function Stamp(t: DateTime): string {
    "[" + Join(DateParts(t), '/') + " " + Join(ClockParts(t), ':') + "."
      + Pad3(t.milliseconds) + " " + Suffix(t.hours) + "]"
  }

  /** timeStamp, with the fields of `new Date()` passed in. */
  method TimeStamp(now: DateTime) returns (stamp: string)
    ensures stamp == Stamp(now)
  {
    var date := [NatToString(now.month + 1), NatToString(now.date), NatToString(now.fullYear)];
    var clock := [now.hours, now.minutes, now.seconds];
    var milli := now.milliseconds;

    var suffix := if clock[0] < 12 then "AM" else "PM";
    clock := clock[0 := if clock[0] < 12 then clock[0] else clock[0] - 12];
    if clock[0] == 0 {
      clock := clock[0 := 12];
    }

    var time := new string[3];
    time[0], time[1], time[2] := NatToString(clock[0]), NatToString(clock[1]), NatToString(clock[2]);
    var i := 1;
    while i < 3
      invariant 1 <= i <= 3
      invariant time[0] == NatToString(Hour12(now.hours))
      invariant forall k :: 1 <= k < i ==> time[k] == Pad2(clock[k])
      invariant forall k :: i <= k < 3 ==> time[k] == NatToString(clock[k])
    {
      if clock[i] < 10 {
        time[i] := "0" + time[i];
      }
      i := i + 1;
    }

    var milliText := NatToString(milli);
    if milli < 10 {
      milliText := "00" + milliText;
    } else if milli < 100 {
      milliText := "0" + milliText;
    }

    assert date == DateParts(now);
    assert time[..] == ClockParts(now);
    assert milliText == Pad3(now.milliseconds);
    assert suffix == Suffix(now.hours);
    stamp := "[" + Join(date, '/') + " " + Join(time[..], ':') + "." + milliText + " " + suffix + "]";
  }

  /** What a reader of a stamp sees: the fields as printed, and whether it says PM. */
  datatype Shown = Shown(
    month: nat, day: nat, year: nat,
    hour: nat, minute: nat, second: nat, milli: nat, pm: bool)

  /** Reads "month/day/year": three decimal fields. */
  function ReadDate(text: string): Option<(nat, nat, nat)> {
    var fields := Split(text, '/');
    if |fields| != 3 || !(AllDigits(fields[0]) && AllDigits(fields[1]) && AllDigits(fields[2])) then None
    else Some((DecimalValue(fields[0]), DecimalValue(fields[1]), DecimalValue(fields[2])))
  }

  /**
   * Reads "h:mm:ss.mmm": the hour has one or two digits and no leading zero,
   * minutes and seconds exactly two, milliseconds exactly three.
   */
  function ReadClock(text: string): Option<(nat, nat, nat, nat)> {
    var clockAndMilli := Split(text, '.');
    if |clockAndMilli| != 2 then None
    else
      var clock := Split(clockAndMilli[0], ':');
      var milli := clockAndMilli[1];
      if |clock| != 3 || !(AllDigits(clock[0]) && AllDigits(clock[1]) && AllDigits(clock[2]) && AllDigits(milli)) then None
      else if !(1 <= |clock[0]| <= 2 && clock[0][0] != '0') then None
      else if |clock[1]| != 2 || |clock[2]| != 2 || |milli| != 3 then None
      else Some((DecimalValue(clock[0]), DecimalValue(clock[1]), DecimalValue(clock[2]), DecimalValue(milli)))
  }

  /** Reads a stamp back: "[" date " " clock " " AM|PM "]". */
  function Read(stamp: string): Option<Shown> {
    if |stamp| < 2 || stamp[0] != '[' || stamp[|stamp| - 1] != ']' then None
    else
      var words := Split(stamp[1..|stamp| - 1], ' ');
      if |words| != 3 || (words[2] != "AM" && words[2] != "PM") then None
      else
        match (ReadDate(words[0]), ReadClock(words[1]))
        case (Some((m, d, y)), Some((h, mi, s, ms))) => Some(Shown(m, d, y, h, mi, s, ms, words[2] == "PM"))
        case _ => None
  }

  lemma DigitPartsExclude(parts: seq<string>, sep: char, c: char)
    requires forall i :: 0 <= i < |parts| ==> AllDigits(parts[i])
    requires !IsDigit(c) && c != sep
    ensures c !in Join(parts, sep)
    ensures forall i :: 0 <= i < |parts| ==> c !in parts[i]
  {
    forall i | 0 <= i < |parts|
      ensures c !in parts[i]
    {
      DigitsExclude(parts[i], c);
    }
    JoinExcludes(parts, sep, c);
  }

  lemma DateReadsBack(t: DateTime)
    ensures ' ' !in Join(DateParts(t), '/')
    ensures ReadDate(Join(DateParts(t), '/')) == Some((t.month + 1, t.date, t.fullYear))
  {
    DigitPartsExclude(DateParts(t), '/', ' ');
    DigitPartsExclude(DateParts(t), ':', '/');
    SplitJoin(DateParts(t), '/');
    NatToStringValue(t.month + 1);
    NatToStringValue(t.date);
    NatToStringValue(t.fullYear);
  }

  lemma ClockReadsBack(t: DateTime)
    requires ValidDateTime(t)
    ensures ' ' !in Join(ClockParts(t), ':') + "." + Pad3(t.milliseconds)
    ensures ReadClock(Join(ClockParts(t), ':') + "." + Pad3(t.milliseconds))
      == Some((Hour12(t.hours), t.minutes, t.seconds, t.milliseconds))
  {
    var clockText := Join(ClockParts(t), ':');
    var milli := Pad3(t.milliseconds);
    DigitPartsExclude(ClockParts(t), ':', ' ');
    DigitPartsExclude(ClockParts(t), ':', '.');
    DigitsExclude(milli, ' ');
    DigitsExclude(milli, '.');
    assert [clockText, milli][1..] == [milli];
    assert clockText + "." + milli == Join([clockText, milli], '.');
    SplitJoin([clockText, milli], '.');
    DigitPartsExclude(ClockParts(t), '.', ':');
    SplitJoin(ClockParts(t), ':');
    NatToStringValue(Hour12(t.hours));
    NatToStringWidth(Hour12(t.hours));
    NatToStringCanonical(Hour12(t.hours));
  }

  /** Reading a bracketed line of three space-free words separated by spaces. */
  lemma ReadWords(date: string, clock: string, suffix: string)
    requires ' ' !in date && ' ' !in clock && (suffix == "AM" || suffix == "PM")
    ensures Read("[" + date + " " + clock + " " + suffix + "]") ==
      match (ReadDate(date), ReadClock(clock))
      case (Some((m, d, y)), Some((h, mi, s, ms))) => Some(Shown(m, d, y, h, mi, s, ms, suffix == "PM"))
      case _ => None
  {
    var inner := date + " " + clock + " " + suffix;
    var stamp := "[" + date + " " + clock + " " + suffix + "]";
    assert stamp == "[" + inner + "]";
    assert stamp[1..|stamp| - 1] == inner;
    assert [date, clock, suffix][1..] == [clock, suffix];
    assert [clock, suffix][1..] == [suffix];
    assert Join([clock, suffix], ' ') == clock + " " + suffix;
    assert inner == Join([date, clock, suffix], ' ');
    SplitJoin([date, clock, suffix], ' ');
  }

  /**
   * Every stamp of a valid time reads back as the 1-based month, the day, the
   * year, the 12-hour hour, the minutes, seconds and milliseconds, and PM
   * exactly from noon on: the fields have the widths and order stated above.
   */
  lemma StampReadsBack(t: DateTime)
    requires ValidDateTime(t)
    ensures Read(Stamp(t)) == Some(Shown(
      t.month + 1, t.date, t.fullYear,
      Hour12(t.hours), t.minutes, t.seconds, t.milliseconds, t.hours >= 12))
  {
    var dateText := Join(DateParts(t), '/');
    var clockText := Join(ClockParts(t), ':') + "." + Pad3(t.milliseconds);
    DateReadsBack(t);
    ClockReadsBack(t);
    assert Stamp(t) == "[" + dateText + " " + clockText + " " + Suffix(t.hours) + "]";
    ReadWords(dateText, clockText, Suffix(t.hours));
  }

  /** Two valid times with the same stamp are the same time: no field is lost. */
  lemma StampInjective(t1: DateTime, t2: DateTime)
    requires ValidDateTime(t1) && ValidDateTime(t2)
    requires Stamp(t1) == Stamp(t2)
    ensures t1 == t2
  {
    StampReadsBack(t1);
    StampReadsBack(t2);
  }

  // ---------------------------------------------------------------------------
  // isU2fError
  // ---------------------------------------------------------------------------

  /**
   * The JavaScript values `isU2fError` can be handed. An object is reduced to
   * the one property the predicate reads, `errorCode` (Undefined when absent).
   * Numbers are integers here: NaN and fractions are not modelled.
   */
  datatype JsValue =
    | Undefined
    | Null
    | Bool(b: bool)
    | Number(n: int)
    | Str(s: string)
    | Object(errorCode: JsValue)

  /** JavaScript truthiness. */
  predicate Truthy(v: JsValue) {
    match v
    case Undefined => false
    case Null => false
    case Bool(b) => b
    case Number(n) => n != 0
    case Str(s) => s != ""
    case Object(_) => true
  }

  /** Reading `.errorCode` off `null` throws a TypeError. */
  datatype TypeError = CannotReadPropertyOfNull

  /**
   * isU2fError: `typeof data !== "undefined" && data.errorCode`, made a bool.
   * The `typeof` guard lets `null` through, whose property read throws.
   */
  function IsU2fError(data: JsValue): (r: Result<bool, TypeError>)
    ensures r.Failure? <==> data == Null
    ensures r == Success(true) <==> data.Object? && Truthy(data.errorCode)
    ensures data.Object? && data.errorCode in {Undefined, Number(0)} ==> r == Success(false)
  {
    match data
    case Undefined => Success(false)
    case Null => Failure(CannotReadPropertyOfNull)
    case Object(code) => Success(Truthy(code))
    case _ => Success(false)   // a primitive has no errorCode property
  }

  /**
   * The u2f.ErrorCodes table of the FIDO U2F JavaScript API, in declaration
   * order (the table itself lives in u2f-api.js, which is not part of this model).
   */
  const U2F_ERROR_CODES: seq<(string, int)> := [
    ("OK", 0), ("OTHER_ERROR", 1), ("BAD_REQUEST", 2),
    ("CONFIGURATION_UNSUPPORTED", 3), ("DEVICE_INELIGIBLE", 4), ("TIMEOUT", 5)]

  /** A response carrying one of the standard codes is an error exactly when the code is not OK. */
  lemma StandardCodesAreErrors(i: nat)
    requires i < |U2F_ERROR_CODES|
    ensures IsU2fError(Object(Number(U2F_ERROR_CODES[i].1))) == Success(U2F_ERROR_CODES[i].0 != "OK")
  {
  }

  // ---------------------------------------------------------------------------
  // The u2ferrors table built by the ready handler
  // ---------------------------------------------------------------------------

  /** No entry after index `i` (and before `n`) has the same code as entry `i`. */
  predicate LastWithCode(codes: seq<(string, int)>, n: nat, i: nat)
    requires i < n <= |codes|
  {
    forall j :: i < j < n ==> codes[j].1 != codes[i].1
  }

  /** The table `u2ferrors` holds after the entries of `codes` were stored one by one. */
  function Inverted(codes: seq<(string, int)>): map<int, string>
    decreases |codes|
  {
    if codes == [] then map[]
    else Inverted(codes[..|codes| - 1])[codes[|codes| - 1].1 := codes[|codes| - 1].0]
  }

  /**
   * The inverted table has every code of the table as a key and no other, and
   * each code maps to the LAST name carrying it.
   */
  lemma {:induction false} InvertedInverts(codes: seq<(string, int)>)
    ensures forall c :: c in Inverted(codes) <==> exists i :: 0 <= i < |codes| && codes[i].1 == c
    ensures forall i :: 0 <= i < |codes| && LastWithCode(codes, |codes|, i) ==>
      Inverted(codes)[codes[i].1] == codes[i].0
    decreases |codes|
  {
    if codes != [] {
      var n := |codes| - 1;
      var prefix := codes[..n];
      InvertedInverts(prefix);
      forall c | c in Inverted(codes)
        ensures exists i :: 0 <= i < |codes| && codes[i].1 == c
      {
        if c != codes[n].1 {
          var i :| 0 <= i < |prefix| && prefix[i].1 == c;
          assert codes[i].1 == c;
        }
      }
      forall i | 0 <= i < |codes| && LastWithCode(codes, |codes|, i)
        ensures Inverted(codes)[codes[i].1] == codes[i].0
      {
        if i < n {
          assert LastWithCode(prefix, n, i);
        }
      }
    }
  }

  /** When no two names share a code, every code maps back to its own name. */
  lemma InvertedRoundTrip(codes: seq<(string, int)>)
    requires forall i, j :: 0 <= i < j < |codes| ==> codes[i].1 != codes[j].1
    ensures forall i :: 0 <= i < |codes| ==> codes[i].1 in Inverted(codes) && Inverted(codes)[codes[i].1] == codes[i].0
  {
    InvertedInverts(codes);
    forall i | 0 <= i < |codes| ensures LastWithCode(codes, |codes|, i) {}
  }

  /** The standard table inverts to the name of each code. */
  lemma StandardCodesInvert()
    ensures forall i :: 0 <= i < |U2F_ERROR_CODES| ==>
      U2F_ERROR_CODES[i].1 in Inverted(U2F_ERROR_CODES) && Inverted(U2F_ERROR_CODES)[U2F_ERROR_CODES[i].1] == U2F_ERROR_CODES[i].0
  {
    InvertedRoundTrip(U2F_ERROR_CODES);
  }

  /**
   * The ready handler's loop: for each key of u2f.ErrorCodes, in for-in order,
   * `u2ferrors[code] = key`, starting from the empty object.
   */
  method InvertErrorCodes(errorCodes: seq<(string, int)>) returns (u2ferrors: map<int, string>)
    ensures u2ferrors == Inverted(errorCodes)
  {
    u2ferrors := map[];
    var n := 0;
    while n < |errorCodes|
      invariant 0 <= n <= |errorCodes|
      invariant u2ferrors == Inverted(errorCodes[..n])
    {
      var entry := errorCodes[n];
      u2ferrors := u2ferrors[entry.1 := entry.0];
      n := n + 1;
      assert errorCodes[..n][..n - 1] == errorCodes[..n - 1];
    }
    assert errorCodes[..n] == errorCodes;
  }
}
