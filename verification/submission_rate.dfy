/** The submission-rate calculator: the span of a submission calendar in days and the
    number of submissions that fall in a trailing window of that many days ending now.
    The clock is a parameter (`nowMs`, milliseconds since the epoch, as `Date.getTime`
    returns it); calendar keys are whole seconds. */
module SubmissionRates {
  import opened Outcomes
  import opened Model

  /** `a / b` rounded up, for a non-negative numerator: the least `r` with `a <= r * b`. */
  function CeilDiv(a: nat, b: nat): (r: nat)
    requires b > 0
    ensures a <= r * b < a + b
  {
    (a + b - 1) / b
  }

  /** A non-empty set has an element. */
  lemma Inhabited(s: set<int>)
    requires s != {}
    ensures exists y :: y in s
  {
    if forall y :: y !in s {
      assert false;
    }
  }

  /** Every non-empty finite set of integers has a least element. */
  lemma LeastExists(s: set<int>)
    requires s != {}
    ensures exists m :: m in s && forall x :: x in s ==> m <= x
  {
    Inhabited(s);
    var y :| y in s;
    if s != {y} {
      LeastExists(s - {y});
      var m :| m in s - {y} && forall x :: x in s - {y} ==> m <= x;
      var least := if y < m then y else m;
      forall x | x in s
        ensures least <= x
      {
        if x != y {
          assert x in s - {y};
        }
      }
      assert least in s;
    }
  }

  /** Every non-empty finite set of integers has a greatest element. */
  lemma GreatestExists(s: set<int>)
    requires s != {}
    ensures exists m :: m in s && forall x :: x in s ==> x <= m
  {
    Inhabited(s);
    var y :| y in s;
    if s != {y} {
      GreatestExists(s - {y});
      var m :| m in s - {y} && forall x :: x in s - {y} ==> x <= m;
      var greatest := if m < y then y else m;
      forall x | x in s
        ensures x <= greatest
      {
        if x != y {
          assert x in s - {y};
        }
      }
      assert greatest in s;
    }
  }

  /** The earliest calendar key: the first date after sorting. */
  ghost function Earliest(calendar: Calendar): (k: int)
    requires |calendar| > 0
    ensures k in calendar && forall j :: j in calendar ==> k <= j
  {
    LeastExists(calendar.Keys);
    var k :| k in calendar.Keys && forall j :: j in calendar.Keys ==> k <= j;
    k
  }

  /** The latest calendar key: the last date after sorting. */
  ghost function Latest(calendar: Calendar): (k: int)
    requires |calendar| > 0
    ensures k in calendar && forall j :: j in calendar ==> j <= k
  {
    GreatestExists(calendar.Keys);
    var k :| k in calendar.Keys && forall j :: j in calendar.Keys ==> j <= k;
    k
  }

  /** The number of days between the earliest and latest key, rounded up. */
  ghost function DaysDifference(calendar: Calendar): (days: nat)
    requires |calendar| > 0
  {
    CeilDiv(Latest(calendar) * MillisPerSecond - Earliest(calendar) * MillisPerSecond, MillisPerDay)
  }

  /** The keys whose date lies in the window `[startMs, endMs]`, both ends included. */
  ghost function WindowKeys(calendar: Calendar, startMs: int, endMs: int): (keys: set<int>) {
    set k | k in calendar && startMs <= k * MillisPerSecond <= endMs
  }

  /** The sum of the counts stored under the keys `s`. */
  ghost function SetSum(calendar: Calendar, s: set<int>): (sum: int)
    requires s <= calendar.Keys
    decreases s
  {
    if s == {} then 0
    else
      Inhabited(s);
      var k :| k in s;
      calendar[k] + SetSum(calendar, s - {k})
  }

  /** Any key can be taken out of a sum first. */
  lemma {:induction false} SetSumRemove(calendar: Calendar, s: set<int>, x: int)
    requires s <= calendar.Keys && x in s
    ensures SetSum(calendar, s) == calendar[x] + SetSum(calendar, s - {x})
    decreases s
  {
    var k :| k in s && SetSum(calendar, s) == calendar[k] + SetSum(calendar, s - {k});
    if k != x {
      SetSumRemove(calendar, s - {k}, x);
      SetSumRemove(calendar, s - {x}, k);
      assert s - {k} - {x} == s - {x} - {k};
    }
  }

  /** A sum only reads the counts of the keys it sums over. */
  lemma {:induction false} SetSumAgree(c1: Calendar, c2: Calendar, s: set<int>)
    requires s <= c1.Keys && s <= c2.Keys
    requires forall k :: k in s ==> c1[k] == c2[k]
    ensures SetSum(c1, s) == SetSum(c2, s)
    decreases s
  {
    if s != {} {
      Inhabited(s);
      var k :| k in s;
      SetSumRemove(c1, s, k);
      SetSumRemove(c2, s, k);
      SetSumAgree(c1, c2, s - {k});
    }
  }

  /** The oldest and newest keys of a non-empty calendar, found in one pass (the
      code sorts the dates and takes the first and last). */
  method FindSpan(calendar: Calendar) returns (first: int, last: int)
    requires |calendar| > 0
    ensures first == Earliest(calendar) && last == Latest(calendar)
  {
    Inhabited(calendar.Keys);
    var firstKey :| firstKey in calendar;
    first, last := firstKey, firstKey;
    var unseen := calendar.Keys - {firstKey};
    while unseen != {}
      invariant unseen <= calendar.Keys
      invariant first in calendar && last in calendar
      invariant forall k :: k in calendar && k !in unseen ==> first <= k <= last
      decreases |unseen|
    {
      Inhabited(unseen);
      var k :| k in unseen;
      if k < first {
        first := k;
      }
      if k > last {
        last := k;
      }
      unseen := unseen - {k};
    }
  }

  /** The total count of the keys whose date lies in `[startMs, endMs]` (the filter and
      the accumulation loop of the code). */
  method SumWindow(calendar: Calendar, startMs: int, endMs: int) returns (total: int)
    ensures total == SetSum(calendar, WindowKeys(calendar, startMs, endMs))
  {
    ghost var window := WindowKeys(calendar, startMs, endMs);
    total := 0;
    var todo := calendar.Keys;
    while todo != {}
      invariant todo <= calendar.Keys
      invariant total == SetSum(calendar, window - todo)
      decreases |todo|
    {
      Inhabited(todo);
      var k :| k in todo;
      var date := k * MillisPerSecond;
      if startMs <= date <= endMs {
        SetSumRemove(calendar, window - (todo - {k}), k);
        assert window - (todo - {k}) - {k} == window - todo;
        total := total + calendar[k];
      } else {
        assert window - (todo - {k}) == window - todo;
      }
      todo := todo - {k};
    }
    assert window - {} == window;
  }

  /** `calculateAverageSubmissions`, with the clock read replaced by `nowMs`. The span
      `daysDifference` comes from the oldest and newest keys, but the submissions are
      counted in the trailing window of that many days ending at `nowMs`. */
  method CalculateAverageSubmissions(calendar: Calendar, nowMs: int) returns (r: Result<SubmissionRate, Error>)
    ensures r.Failure? <==> |calendar| == 0
    ensures r.Failure? ==> r.error == EmptyCalendar
    ensures r.Success? ==> r.value.daysDifference == DaysDifference(calendar)
    ensures r.Success? ==>
      r.value.windowSubmissions
        == SetSum(calendar, WindowKeys(calendar, nowMs - r.value.daysDifference * MillisPerDay, nowMs))
  {
    if |calendar| == 0 {
      return Failure(EmptyCalendar);
    }
    var first, last := FindSpan(calendar);
    var dateDifferenceMs := last * MillisPerSecond - first * MillisPerSecond;
    var daysDifference := CeilDiv(dateDifferenceMs, MillisPerDay);
    var startMs := nowMs - daysDifference * MillisPerDay;
    var total := SumWindow(calendar, startMs, nowMs);
    r := Success(SubmissionRate(total, daysDifference));
  }

  /** The submissions counted for a non-empty calendar at time `nowMs`. */
  ghost function WindowTotal(calendar: Calendar, nowMs: int): (total: int)
    requires |calendar| > 0
  {
    SetSum(calendar, WindowKeys(calendar, nowMs - DaysDifference(calendar) * MillisPerDay, nowMs))
  }

  /** Measured in seconds, the span is the rounded-up number of days between the oldest
      and newest key: the conversion to milliseconds changes nothing. */
  lemma DaysDifferenceInSeconds(calendar: Calendar)
    requires |calendar| > 0
    ensures DaysDifference(calendar) == CeilDiv(Latest(calendar) - Earliest(calendar), SecondsPerDay)
    ensures (DaysDifference(calendar) - 1) * SecondsPerDay < Latest(calendar) - Earliest(calendar)
            <= DaysDifference(calendar) * SecondsPerDay
  {
  }

  /** With a clock on a whole second the window is `[now - days, now]` in seconds, both
      ends included. */
  lemma WholeSecondWindow(calendar: Calendar, nowMs: int, days: int, k: int)
    requires nowMs % MillisPerSecond == 0
    ensures k in WindowKeys(calendar, nowMs - days * MillisPerDay, nowMs)
        <==> k in calendar && nowMs / MillisPerSecond - days * SecondsPerDay <= k <= nowMs / MillisPerSecond
  {
  }

  /** With a clock between two whole seconds the oldest second of the window is lost:
      a key exactly `days` days before the current second is not counted. */
  lemma FractionalSecondWindow(calendar: Calendar, nowMs: int, days: int, k: int)
    requires nowMs % MillisPerSecond != 0
    ensures k in WindowKeys(calendar, nowMs - days * MillisPerDay, nowMs)
        <==> k in calendar && nowMs / MillisPerSecond - days * SecondsPerDay < k <= nowMs / MillisPerSecond
  {
  }

  /** Changing the count stored under an existing key leaves the span alone and moves
      the total by the change exactly when the key lies in the window: each key in the
      window contributes its own count and keys outside it contribute nothing. */
  lemma {:induction false} CountUpdate(calendar: Calendar, nowMs: int, k: int, v: int)
    requires k in calendar
    ensures DaysDifference(calendar[k := v]) == DaysDifference(calendar)
    ensures WindowTotal(calendar[k := v], nowMs) == WindowTotal(calendar, nowMs)
      + (if k in WindowKeys(calendar, nowMs - DaysDifference(calendar) * MillisPerDay, nowMs)
         then v - calendar[k] else 0)
  {
    var updated := calendar[k := v];
    assert updated.Keys == calendar.Keys;
    assert Earliest(updated) == Earliest(calendar);
    assert Latest(updated) == Latest(calendar);
    var startMs := nowMs - DaysDifference(calendar) * MillisPerDay;
    var window := WindowKeys(calendar, startMs, nowMs);
    assert WindowKeys(updated, startMs, nowMs) == window;
    if k in window {
      SetSumRemove(calendar, window, k);
      SetSumRemove(updated, window, k);
      SetSumAgree(calendar, updated, window - {k});
    } else {
      SetSumAgree(calendar, updated, window);
    }
  }

  /** A profile whose newest submission is older than the trailing window counts
      nothing, however long its history. */
  lemma StaleCalendarCountsNothing(calendar: Calendar, nowMs: int)
    requires |calendar| > 0
    requires Latest(calendar) * MillisPerSecond < nowMs - DaysDifference(calendar) * MillisPerDay
    ensures WindowTotal(calendar, nowMs) == 0
  {
  }

  /** Two entries ten days apart, read at the newer one: a ten-day span holding all
      eight submissions, 0.8 per day. */
  lemma TenDayScenario()
    ensures var calendar := map[0 := 5, 864000 := 3];
      && DaysDifference(calendar) == 10
      && WindowTotal(calendar, 864000000) == 8
      && SubmissionRate(WindowTotal(calendar, 864000000), DaysDifference(calendar)).AverageSubmissions() == 0.8
  {
    var calendar := map[0 := 5, 864000 := 3];
    assert Earliest(calendar) == 0 by {
      assert 0 in calendar;
    }
    assert Latest(calendar) == 864000 by {
      assert 864000 in calendar;
    }
    assert DaysDifference(calendar) == 10;
    var window := WindowKeys(calendar, 0, 864000000);
    assert window == {0, 864000} by {
      assert 0 in window && 864000 in window;
    }
    SetSumRemove(calendar, window, 0);
    assert window - {0} == {864000};
    SetSumRemove(calendar, {864000}, 864000);
    assert {864000} - {864000} == {};
  }
}
