/**
 * The optional time window of the script: `--time-start` and `--time-end`
 * are parsed as times of today by `parse_time`, and the run stops with status
 * 0 when the local time lies before the start or after the end.
 *
 * `time.struct_time` values are compared by Python as 9-tuples, so a point in
 * time is modelled as that tuple. What `time.strptime`, `time.strftime` and
 * `time.localtime` compute is given to the model, not modelled.
 */
module TimeWindow {
  import opened Wrappers
  import opened Text

  /** (year, month, day, hour, minute, second, weekday, day of year, DST flag),
      the fields of a `time.struct_time` in the order Python compares them. */
  type TimeTuple = seq<int>

  /** Python's `<` on tuples of integers: the first position where they differ
      decides, and a proper prefix is the smaller. */
  function Precedes(a: TimeTuple, b: TimeTuple): bool
  {
    if |a| == 0 then |b| > 0
    else if |b| == 0 then false
    else if a[0] != b[0] then a[0] < b[0]
    else Precedes(a[1..], b[1..])
  }

  lemma {:induction false} PrecedesIrreflexive(a: TimeTuple)
    ensures !Precedes(a, a)
  {
    if |a| > 0 {
      PrecedesIrreflexive(a[1..]);
    }
  }

  lemma {:induction false} PrecedesTransitive(a: TimeTuple, b: TimeTuple, c: TimeTuple)
    requires Precedes(a, b) && Precedes(b, c)
    ensures Precedes(a, c)
  {
    if |a| > 0 && |b| > 0 && |c| > 0 && a[0] == b[0] == c[0] {
      PrecedesTransitive(a[1..], b[1..], c[1..]);
    }
  }

  /** Any two time tuples are equal or ordered one way, and never both ways. */
  lemma {:induction false} PrecedesTrichotomous(a: TimeTuple, b: TimeTuple)
    ensures a == b || Precedes(a, b) || Precedes(b, a)
    ensures !(Precedes(a, b) && Precedes(b, a))
  {
    if |a| > 0 && |b| > 0 && a[0] == b[0] {
      PrecedesTrichotomous(a[1..], b[1..]);
      assert a == [a[0]] + a[1..] && b == [b[0]] + b[1..];
    }
  }

  /** A common prefix does not change the comparison. */
  lemma {:induction false} PrecedesCommonPrefix(p: TimeTuple, x: TimeTuple, y: TimeTuple)
    ensures Precedes(p + x, p + y) == Precedes(x, y)
  {
    if |p| > 0 {
      assert (p + x)[1..] == p[1..] + x && (p + y)[1..] == p[1..] + y;
      PrecedesCommonPrefix(p[1..], x, y);
    } else {
      assert p + x == x && p + y == y;
    }
  }

  /** The first position where two tuples differ decides their order. */
  lemma {:induction false} PrecedesAt(a: TimeTuple, b: TimeTuple, k: nat)
    requires k < |a| && k < |b| && a[..k] == b[..k] && a[k] != b[k]
    ensures Precedes(a, b) == (a[k] < b[k])
  {
    if k > 0 {
      assert a[0] == a[..k][0] == b[..k][0] == b[0];
      assert a[1..][..k - 1] == a[..k][1..] == b[..k][1..] == b[1..][..k - 1];
      PrecedesAt(a[1..], b[1..], k - 1);
    }
  }

  /** `time.strptime` leaves the DST flag at -1, while `time.localtime` sets it
      to 0 or 1. So a local time that agrees with a parsed bound on every other
      field still compares as later than that bound. */
  lemma DstFlagBreaksTie(now: TimeTuple, bound: TimeTuple)
    requires |now| == 9 && |bound| == 9
    requires now[..8] == bound[..8]
    requires now[8] >= 0 && bound[8] == -1
    ensures Precedes(bound, now)
    ensures !Precedes(now, bound)
  {
    assert now == now[..8] + [now[8]];
    assert bound == now[..8] + [bound[8]];
    PrecedesCommonPrefix(now[..8], [bound[8]], [now[8]]);
    PrecedesCommonPrefix(now[..8], [now[8]], [bound[8]]);
  }

  // ---------------------------------------------------------------------
  // parse_time

  /** What `parse_time` gets from the clock and the library: `datePrefix` is
      `time.strftime('%Y %j ', time.localtime())`; `twelveHour` and
      `twentyFourHour` are `time.strptime` with the formats '%Y %j %I:%M%p'
      and '%Y %j %H:%M', `None` where it raises. */
  datatype Strptime = Strptime(
    datePrefix: string,
    twelveHour: string -> Option<TimeTuple>,
    twentyFourHour: string -> Option<TimeTuple>)

  function ParseErrorMessage(stime: string): string {
    "unable to parse time: " + stime
  }

  /** The time `parse_time(stime)` returns, or the message of the exception it
      raises: spaces are dropped, the 12-hour format is tried, then the 24-hour one. */
  function ParsedTime(p: Strptime, stime: string): Result<TimeTuple, string>
  {
    var ftime := p.datePrefix + RemoveSpaces(stime);
    if p.twelveHour(ftime).Some? then Ok(p.twelveHour(ftime).value)
    else if p.twentyFourHour(ftime).Some? then Ok(p.twentyFourHour(ftime).value)
    else Err(ParseErrorMessage(stime))
  }

  /** `parse_time`, with its fallback chain on `ret`. */
  method ParseTime(p: Strptime, stime: string) returns (ret: Result<TimeTuple, string>)
    ensures ret == ParsedTime(p, stime)
    ensures ret.Err? <==>
      p.twelveHour(p.datePrefix + RemoveSpaces(stime)).None? &&
      p.twentyFourHour(p.datePrefix + RemoveSpaces(stime)).None?
    ensures ret.Err? ==> ret.error == "unable to parse time: " + stime
  {
    var ftime := p.datePrefix + RemoveSpaces(stime);
    var parsed := p.twelveHour(ftime);
    if parsed.None? {
      parsed := p.twentyFourHour(ftime);
    }
    if parsed.None? {
      return Err(ParseErrorMessage(stime));
    }
    return Ok(parsed.value);
  }

  /** Spaces in the option make no difference to the time parsed. */
  lemma ParsedTimeIgnoresSpaces(p: Strptime, stime: string)
    ensures ParsedTime(p, stime).Ok? == ParsedTime(p, RemoveSpaces(stime)).Ok?
    ensures ParsedTime(p, stime).Ok? ==>
      ParsedTime(p, stime).value == ParsedTime(p, RemoveSpaces(stime)).value
  {
  }

  // ---------------------------------------------------------------------
  // the gate

  /** Outcome of the time-window check: go on, stop with status 0 (having
      printed `printed` to standard output), or stop on the exception a bound
      that does not parse raises. */
  datatype Gate = Proceed | Skip(printed: string) | Unparsable(message: string)

  const TooLate: string := "too late\n"

  /** The start check: skip when the local time precedes the start bound. */
  function StartGate(now: TimeTuple, start: Option<string>, p: Strptime): Gate
  {
    match start
    case None => Proceed
    case Some(s) =>
      match ParsedTime(p, s)
      case Err(m) => Unparsable(m)
      case Ok(mintime) => if Precedes(now, mintime) then Skip("") else Proceed
  }

  /** The end check: skip, saying "too late", when the local time follows the end bound. */
  function EndGate(now: TimeTuple, end: Option<string>, p: Strptime): Gate
  {
    match end
    case None => Proceed
    case Some(e) =>
      match ParsedTime(p, e)
      case Err(m) => Unparsable(m)
      case Ok(maxtime) => if Precedes(maxtime, now) then Skip(TooLate) else Proceed
  }

  /** The whole check, start first: the end bound is looked at only when the
      start check lets the run go on. */
  function WindowGate(now: TimeTuple, start: Option<string>, end: Option<string>, p: Strptime): Gate
  {
    if start.None? && end.None? then Proceed
    else if !StartGate(now, start, p).Proceed? then StartGate(now, start, p)
    else EndGate(now, end, p)
  }

  /** Is a given bound one that parses? */
  predicate Parses(bound: Option<string>, p: Strptime) {
    bound.Some? ==> ParsedTime(p, bound.value).Ok?
  }

  /** When the given bounds parse, the run is skipped exactly when a start is
      given and the time precedes it, or an end is given and the time follows it. */
  lemma GateSkipsExactly(now: TimeTuple, start: Option<string>, end: Option<string>, p: Strptime)
    requires Parses(start, p) && Parses(end, p)
    ensures !WindowGate(now, start, end, p).Unparsable?
    ensures WindowGate(now, start, end, p).Skip? <==>
      (start.Some? && Precedes(now, ParsedTime(p, start.value).value)) ||
      (end.Some? && Precedes(ParsedTime(p, end.value).value, now))
  {
  }

  /** Both bounds are inclusive: a time equal to a bound is inside the window. */
  lemma GateInclusive(now: TimeTuple, start: Option<string>, end: Option<string>, p: Strptime)
    requires start.Some? ==> ParsedTime(p, start.value) == Ok(now)
    requires end.Some? ==> ParsedTime(p, end.value) == Ok(now)
    ensures WindowGate(now, start, end, p) == Proceed
  {
    PrecedesIrreflexive(now);
  }

  /** Between two parsed bounds (start before end) the run goes on; outside
      them on either side it is skipped. */
  lemma GateWindow(now: TimeTuple, start: string, end: string, p: Strptime)
    requires ParsedTime(p, start).Ok? && ParsedTime(p, end).Ok?
    requires Precedes(ParsedTime(p, start).value, ParsedTime(p, end).value)
    ensures WindowGate(now, Some(start), Some(end), p) == Proceed <==>
      !Precedes(now, ParsedTime(p, start).value) && !Precedes(ParsedTime(p, end).value, now)
    ensures Precedes(now, ParsedTime(p, start).value) ==> WindowGate(now, Some(start), Some(end), p) == Skip("")
    ensures Precedes(ParsedTime(p, end).value, now) ==> WindowGate(now, Some(start), Some(end), p) == Skip(TooLate)
  {
    var mintime, maxtime := ParsedTime(p, start).value, ParsedTime(p, end).value;
    if Precedes(maxtime, now) && Precedes(now, mintime) {
      PrecedesTransitive(maxtime, now, mintime);
      PrecedesTrichotomous(mintime, maxtime);
    }
  }

  /** Before the start, the end bound is never parsed, so even one that would
      not parse does not matter. */
  lemma GateStartFirst(now: TimeTuple, start: string, end: Option<string>, p: Strptime)
    requires ParsedTime(p, start).Ok? && Precedes(now, ParsedTime(p, start).value)
    ensures WindowGate(now, Some(start), end, p) == Skip("")
  {
  }

  /** A start bound that does not parse stops the run with its message. */
  lemma GateUnparsableStart(now: TimeTuple, start: string, end: Option<string>, p: Strptime)
    requires ParsedTime(p, start).Err?
    ensures WindowGate(now, Some(start), end, p) == Unparsable("unable to parse time: " + start)
  {
  }

  /** Once the start check lets the run go on, an end bound that does not
      parse stops the run with its message. */
  lemma GateUnparsableEnd(now: TimeTuple, start: Option<string>, end: string, p: Strptime)
    requires StartGate(now, start, p) == Proceed && ParsedTime(p, end).Err?
    ensures WindowGate(now, start, Some(end), p) == Unparsable("unable to parse time: " + end)
  {
  }

  /** "--time-start 11:00pm" at 10:00am of the same day skips the run. */
  lemma TooEarlyExample(p: Strptime)
    requires p.twelveHour(p.datePrefix + "11:00pm") == Some([2026, 10, 14, 23, 0, 0, 2, 287, -1])
    ensures WindowGate([2026, 10, 14, 10, 0, 0, 2, 287, 1], Some("11:00pm"), None, p) == Skip("")
  {
    var now: TimeTuple := [2026, 10, 14, 10, 0, 0, 2, 287, 1];
    var start: TimeTuple := [2026, 10, 14, 23, 0, 0, 2, 287, -1];
    assert ' ' !in "11:00pm";
    assert ParsedTime(p, "11:00pm") == Ok(start);
    assert now[..3] == start[..3];
    PrecedesAt(now, start, 3);
    GateStartFirst(now, "11:00pm", None, p);
  }

  /** "--time-end 1:00am" at 11:59pm of the same day skips the run with "too late". */
  lemma TooLateExample(p: Strptime)
    requires p.twelveHour(p.datePrefix + "1:00am") == Some([2026, 10, 14, 1, 0, 0, 2, 287, -1])
    ensures WindowGate([2026, 10, 14, 23, 59, 0, 2, 287, 1], None, Some("1:00am"), p) == Skip(TooLate)
  {
    var now: TimeTuple := [2026, 10, 14, 23, 59, 0, 2, 287, 1];
    var end: TimeTuple := [2026, 10, 14, 1, 0, 0, 2, 287, -1];
    assert ' ' !in "1:00am";
    assert ParsedTime(p, "1:00am") == Ok(end);
    assert end[..3] == now[..3];
    PrecedesAt(end, now, 3);
  }
}
