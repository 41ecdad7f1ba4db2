/**
 * The logging streak (`calculate_streak`): the number of consecutive calendar
 * days with at least one food entry, counted back from today, or from
 * yesterday when today has no entry yet. The log is its Date column: one cell
 * per row, `None` where the text does not parse as a date.
 */
module Streak {
  import opened Wrappers

  /** The distinct calendar days among the cells that parse. */
  function ValidDates(log: seq<Option<int>>): set<int>
  {
    set i | 0 <= i < |log| && log[i].Some? :: log[i].value
  }

  /** The length of the run of consecutive days of `dates` that ends at `day`. */
  function RunEndingAt(dates: set<int>, day: int): (n: nat)
    ensures n <= |dates|
    ensures forall d | day - n < d <= day :: d in dates
    ensures day - n !in dates
    decreases dates
  {
    if day in dates then 1 + RunEndingAt(dates - {day}, day - 1) else 0
  }

  /** The day a non-zero streak ends on: today if logged, otherwise yesterday. */
  function Anchor(dates: set<int>, today: int): int
  {
    if today in dates then today else today - 1
  }

  /** The streak for a set of logged days: the run ending at the anchor, if the anchor is logged. */
  function StreakFrom(dates: set<int>, today: int): (r: nat)
    ensures r <= |dates|
    ensures r == 0 <==> today !in dates && today - 1 !in dates
    ensures r > 0 ==>
      var a := Anchor(dates, today);
      (forall d | a - r < d <= a :: d in dates) && a - r !in dates
  {
    if today in dates then RunEndingAt(dates, today)
    else if today - 1 in dates then RunEndingAt(dates, today - 1)
    else 0
  }

  /** The streak shown on the dashboard for a log and today's day number. */
  function Streak(log: seq<Option<int>>, today: int): (r: nat)
    ensures r <= |ValidDates(log)|
    ensures r == 0 <==> today !in ValidDates(log) && today - 1 !in ValidDates(log)
    ensures r > 0 ==>
      var a := Anchor(ValidDates(log), today);
      (forall d | a - r < d <= a :: d in ValidDates(log)) && a - r !in ValidDates(log)
  {
    StreakFrom(ValidDates(log), today)
  }

  /** The days strictly after `lo` up to and including `hi`. */
  function DaysBetween(lo: int, hi: int): (r: set<int>)
    ensures forall d :: d in r <==> lo < d <= hi
    ensures lo <= hi ==> |r| == hi - lo
    decreases hi - lo
  {
    if hi <= lo then {} else DaysBetween(lo, hi - 1) + {hi}
  }

  /** A subset is no larger than its superset. */
  lemma SubsetSize(a: set<int>, b: set<int>)
    requires a <= b
    ensures |a| <= |b|
  {
    assert b == a + (b - a);
    assert a * (b - a) == {};
  }

  /** The first loop of `calculate_streak`: the set of days whose cells parse. */
  method CollectDates(log: seq<Option<int>>) returns (dates: set<int>)
    ensures dates == ValidDates(log)
  {
    dates := {};
    var i := 0;
    while i < |log|
      invariant 0 <= i <= |log|
      invariant dates == ValidDates(log[..i])
    {
      assert log[..i + 1] == log[..i] + [log[i]];
      ValidDatesAppend(log[..i], log[i]);
      if log[i].Some? {
        dates := dates + {log[i].value};
      }
      i := i + 1;
    }
    assert log[..i] == log;
  }

  /** The second loop: step back one day at a time while the day is present. */
  method WalkBack(dates: set<int>, anchor: int) returns (streak: nat)
    ensures streak == RunEndingAt(dates, anchor)
  {
    var check := anchor;
    streak := 0;
    while check in dates
      invariant check == anchor - streak
      invariant DaysBetween(check, anchor) <= dates
      invariant streak <= |dates|
      decreases |dates| - streak
    {
      assert DaysBetween(check - 1, anchor) <= dates;
      SubsetSize(DaysBetween(check - 1, anchor), dates);
      streak := streak + 1;
      check := check - 1;
    }
    RunUnique(dates, anchor, streak);
  }

  /** `calculate_streak`: collect the parsed days, then walk back from today or yesterday. */
  method CalculateStreak(log: seq<Option<int>>, today: int) returns (streak: nat)
    ensures streak == Streak(log, today)
  {
    if |log| == 0 {
      return 0;
    }
    var dates := CollectDates(log);
    if |dates| == 0 {
      return 0;
    }
    var check := today;
    if check !in dates {
      check := check - 1;
      if check !in dates {
        return 0;
      }
    }
    streak := WalkBack(dates, check);
  }

  /** A run is pinned down by its days being present and the day before it absent. */
  lemma RunUnique(dates: set<int>, day: int, n: nat)
    requires forall d | day - n < d <= day :: d in dates
    requires day - n !in dates
    ensures RunEndingAt(dates, day) == n
  {
    var m := RunEndingAt(dates, day);
    assert m < n ==> day - m in dates;
    assert m > n ==> day - n in dates;
  }

  /** The days a log adds to when one more row is appended. */
  lemma ValidDatesAppend(log: seq<Option<int>>, cell: Option<int>)
    ensures ValidDates(log + [cell]) ==
      ValidDates(log) + (if cell.Some? then {cell.value} else {})
  {
    var ext := log + [cell];
    assert forall i | 0 <= i < |log| :: ext[i] == log[i];
    assert ext[|log|] == cell;
  }

  /** Logging food today extends the streak by one, unless today was already logged. */
  lemma StreakLoggingToday(log: seq<Option<int>>, today: int)
    ensures Streak(log + [Some(today)], today) ==
      Streak(log, today) + (if today in ValidDates(log) then 0 else 1)
  {
    ValidDatesAppend(log, Some(today));
    AddingToday(ValidDates(log), today);
  }

  /** Adding today to the logged days adds one to the streak, unless today was there. */
  lemma AddingToday(dates: set<int>, today: int)
    ensures StreakFrom(dates + {today}, today) ==
      StreakFrom(dates, today) + (if today in dates then 0 else 1)
  {
    if today !in dates {
      assert (dates + {today}) - {today} == dates;
      assert RunEndingAt(dates + {today}, today) == 1 + RunEndingAt(dates, today - 1);
      if today - 1 !in dates {
        assert RunEndingAt(dates, today - 1) == 0;
      }
    } else {
      assert dates + {today} == dates;
    }
  }

  /** A repeated date counts once: appending a copy of a row leaves the streak unchanged. */
  lemma StreakIgnoresDuplicates(log: seq<Option<int>>, i: int, today: int)
    requires 0 <= i < |log|
    ensures Streak(log + [log[i]], today) == Streak(log, today)
  {
    ValidDatesAppend(log, log[i]);
    assert ValidDates(log + [log[i]]) == ValidDates(log);
  }

  /** A date that does not parse is dropped: it never changes the streak. */
  lemma StreakIgnoresUnparsable(log: seq<Option<int>>, today: int)
    ensures Streak(log + [None], today) == Streak(log, today)
  {
    ValidDatesAppend(log, None);
  }

  /** A missing day before today caps the streak at the days after it. */
  lemma StreakStopsAtGap(log: seq<Option<int>>, today: int, gap: int)
    requires gap < today && gap !in ValidDates(log)
    ensures Streak(log, today) <= today - gap
  {
  }

  /** Entries for today and the two days before, none earlier: a streak of three. */
  lemma ThreeDayExample(today: int)
    ensures Streak([Some(today - 2), Some(today - 1), Some(today)], today) == 3
  {
    var log := [Some(today - 2), Some(today - 1), Some(today)];
    assert log[0].value == today - 2 && log[1].value == today - 1 && log[2].value == today;
    assert ValidDates(log) == {today - 2, today - 1, today};
  }
}
