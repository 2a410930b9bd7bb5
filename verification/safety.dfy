/** The bedtime check (`isBedtime` in lib/safety.ts). Times are "H:M" strings
    read with `split(':')` and `Number()`; a part that is not a number makes
    the time NaN, which is modelled as None, and every comparison with NaN is
    false. The local clock is passed in as the hour and minute. */
module Safety {
  import opened Types
  import opened Numbers

  /** `s.split(':')`: the pieces between colons, at least one. */
  function SplitColon(s: string): (parts: seq<string>)
    ensures |parts| >= 1
  {
    if |s| == 0 then [""]
    else if s[0] == ':' then [""] + SplitColon(s[1..])
    else
      var rest := SplitColon(s[1..]);
      [[s[0]] + rest[0]] + rest[1..]
  }

  predicate NoColon(s: string)
  {
    forall i :: 0 <= i < |s| ==> s[i] != ':'
  }

  /** Splitting at the first colon of `a + ":" + b`, where `a` has none, gives `a`
      and then the pieces of `b`. */
  lemma {:induction false} SplitAtColon(a: string, b: string)
    requires NoColon(a)
    ensures SplitColon(a + ":" + b) == [a] + SplitColon(b)
  {
    if |a| == 0 {
      assert a + ":" + b == [':'] + b;
      assert ([':'] + b)[1..] == b;
    } else {
      SplitAtColon(a[1..], b);
      assert (a + ":" + b)[1..] == a[1..] + ":" + b;
      assert [a[0]] + a[1..] == a;
    }
  }

  /** A string without colons is a single piece. */
  lemma {:induction false} SplitNoColon(a: string)
    requires NoColon(a)
    ensures SplitColon(a) == [a]
  {
    if |a| > 0 {
      SplitNoColon(a[1..]);
      assert [a[0]] + a[1..] == a;
    }
  }

  /** Minutes after midnight of an "H:M" string, `H * 60 + M`: NaN when either
      part is not a number or there is no minute part. */
  function MinutesOf(s: string): (t: Option<int>)
    ensures t.Some? ==> t.value >= 0
  {
    var parts := SplitColon(s);
    var h := ParseNumber(parts[0]);
    var m := if |parts| >= 2 then ParseNumber(parts[1]) else None;
    if h.Some? && m.Some? then Some(h.value * 60 + m.value) else None
  }

  /** `a < b` and `a >= b` on numbers that may be NaN. */
  predicate Less(a: Option<int>, b: Option<int>)
  {
    a.Some? && b.Some? && a.value < b.value
  }

  predicate AtLeast(a: Option<int>, b: Option<int>)
  {
    a.Some? && b.Some? && a.value >= b.value
  }

  /** `isBedtime`: false when either string is empty; for a window that starts
      before it ends, the clock must lie inside it; otherwise the window wraps
      midnight and the clock must be after the start or before the end. */
  function IsBedtime(startStr: string, endStr: string, hour: int, minute: int): bool
  {
    if startStr == [] || endStr == [] then false
    else
      var now := Some(hour * 60 + minute);
      var start := MinutesOf(startStr);
      var end := MinutesOf(endStr);
      if Less(start, end) then AtLeast(now, start) && Less(now, end)
      else AtLeast(now, start) || Less(now, end)
  }

  /** An "H:M" string of two digit strings reads as H * 60 + M minutes. */
  lemma ClockReading(h: string, m: string)
    requires AllDigits(h) && AllDigits(m)
    ensures MinutesOf(h + ":" + m) == Some(DigitsValue(h) * 60 + DigitsValue(m))
  {
    DigitsHaveNoColon(h);
    DigitsHaveNoColon(m);
    SplitAtColon(h, m);
    SplitNoColon(m);
    assert SplitColon(h + ":" + m) == [h, m];
    ReadSplitClock(h + ":" + m, h, m);
  }

  lemma ReadSplitClock(s: string, h: string, m: string)
    requires AllDigits(h) && AllDigits(m) && SplitColon(s) == [h, m]
    ensures MinutesOf(s) == Some(DigitsValue(h) * 60 + DigitsValue(m))
  {
  }

  lemma DigitsHaveNoColon(s: string)
    requires AllDigits(s)
    ensures NoColon(s)
  {
    forall i | 0 <= i < |s| ensures s[i] != ':' { assert IsDigit(s[i]); }
  }

  /** With both times readable: a same-day window [start, end) holds the clock
      exactly when it lies inside; a window that does not start before it ends
      holds it exactly when it is at or after the start or before the end, so
      equal start and end mean bedtime all day. */
  lemma BedtimeWindows(startStr: string, endStr: string, hour: int, minute: int)
    requires startStr != [] && endStr != []
    requires MinutesOf(startStr).Some? && MinutesOf(endStr).Some?
    ensures var s, e, now := MinutesOf(startStr).value, MinutesOf(endStr).value, hour * 60 + minute;
      && (s < e ==> (IsBedtime(startStr, endStr, hour, minute) <==> s <= now < e))
      && (s >= e ==> (IsBedtime(startStr, endStr, hour, minute) <==> now >= s || now < e))
      && (s == e ==> IsBedtime(startStr, endStr, hour, minute))
  {
  }

  /** Exchanging distinct readable start and end times turns the bedtime window
      into its complement. */
  lemma SwapComplements(startStr: string, endStr: string, hour: int, minute: int)
    requires startStr != [] && endStr != []
    requires MinutesOf(startStr).Some? && MinutesOf(endStr).Some?
    requires MinutesOf(startStr) != MinutesOf(endStr)
    ensures IsBedtime(endStr, startStr, hour, minute) == !IsBedtime(startStr, endStr, hour, minute)
  {
  }

  /** An unreadable start time leaves only "before the end"; with the end
      unreadable as well, it is never bedtime; an empty string disables it. */
  lemma UnreadableTimes(startStr: string, endStr: string, hour: int, minute: int)
    requires startStr != [] && endStr != [] && MinutesOf(startStr).None?
    ensures IsBedtime(startStr, endStr, hour, minute) == Less(Some(hour * 60 + minute), MinutesOf(endStr))
    ensures MinutesOf(endStr).None? ==> !IsBedtime(startStr, endStr, hour, minute)
    ensures !IsBedtime([], endStr, hour, minute) && !IsBedtime(startStr, [], hour, minute)
  {
  }

  /** The default window "20:00" to "07:00" of a new child: bedtime from 20:00
      until 07:00 the next morning. */
  lemma DefaultBedtime(hour: int, minute: int)
    ensures IsBedtime("20:00", "07:00", hour, minute) <==>
      hour * 60 + minute >= 1200 || hour * 60 + minute < 420
  {
    DefaultStart();
    DefaultEnd();
    BedtimeWindows("20:00", "07:00", hour, minute);
  }

  lemma DefaultStart()
    ensures MinutesOf("20:00") == Some(1200)
  {
    assert DigitsValue("20") == 20 && DigitsValue("00") == 0 by {
      assert "20"[..1] == "2" && "00"[..1] == "0";
    }
    ClockReading("20", "00");
    assert "20" + ":" + "00" == "20:00";
  }

  lemma DefaultEnd()
    ensures MinutesOf("07:00") == Some(420)
  {
    assert DigitsValue("07") == 7 && DigitsValue("00") == 0 by {
      assert "07"[..1] == "0" && "00"[..1] == "0";
    }
    ClockReading("07", "00");
    assert "07" + ":" + "00" == "07:00";
  }
}
