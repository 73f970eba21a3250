/** The counting loop of the upcoming-tasks chart (myapp/utils/charts.py):
    each next date of each record falls into at most one bar. */
module Charts {
  import opened Wrappers
  import opened Models
  import opened Status

  /** Days ahead of today that end the "this week" bar. */
  const WeekDays: int := 7

  /** Where one next date lands; Later dates are drawn in no bar. */
  datatype Bucket = PastDue | ThisWeek | NextWeek | Later

  /** The if/elif chain for one next date: before today, up to a week ahead,
      up to two weeks ahead, or later; no bucket without a date. */
  function BucketOf(next: Option<int>, today: int): (r: Option<Bucket>)
    ensures r.None? <==> next.None?
    ensures r == Some(PastDue) <==> next.Some? && next.value < today
    ensures r == Some(ThisWeek) <==> next.Some? && today <= next.value <= today + WeekDays
    ensures r == Some(NextWeek) <==> next.Some? && today + WeekDays < next.value <= today + 2 * WeekDays
    ensures r == Some(Later) <==> next.Some? && today + 2 * WeekDays < next.value
  {
    match next
    case None => None
    case Some(d) =>
      if d < today then Some(PastDue)
      else if d <= today + WeekDays then Some(ThisWeek)
      else if d <= today + 2 * WeekDays then Some(NextWeek)
      else Some(Later)
  }

  /** 1 when the next date lands in bucket b, otherwise 0. */
  function Hit(next: Option<int>, b: Bucket, today: int): nat
  {
    if BucketOf(next, today) == Some(b) then 1 else 0
  }

  /** How many of the (record, kind) next dates of s land in bucket b. */
  function Tally(s: seq<Equipment>, b: Bucket, today: int): nat
    decreases |s|
  {
    if |s| == 0 then 0
    else
      var e := s[|s| - 1];
      Tally(s[..|s| - 1], b, today) + Hit(NextCalibrationDate(e), b, today) + Hit(NextMaintenanceDate(e), b, today)
  }

  lemma TallySnoc(s: seq<Equipment>, e: Equipment, b: Bucket, today: int)
    ensures Tally(s + [e], b, today) ==
      Tally(s, b, today) + Hit(NextCalibrationDate(e), b, today) + Hit(NextMaintenanceDate(e), b, today)
  {
    assert (s + [e])[..|s + [e]| - 1] == s;
  }

  /** How many of the (record, kind) next dates of s are missing. */
  function Undated(s: seq<Equipment>): nat
    decreases |s|
  {
    if |s| == 0 then 0
    else
      var e := s[|s| - 1];
      Undated(s[..|s| - 1]) + (if NextCalibrationDate(e).None? then 1 else 0)
                            + (if NextMaintenanceDate(e).None? then 1 else 0)
  }

  /** The if/elif chain of the loop for one next date: add one to the bar
      it lands in, if any. */
  method CountNextDate(next: Option<int>, today: int, overdueCount: nat, dueThisWeek: nat, dueNextWeek: nat)
    returns (overdue': nat, thisWeek': nat, nextWeek': nat)
    ensures overdue' == overdueCount + Hit(next, PastDue, today)
    ensures thisWeek' == dueThisWeek + Hit(next, ThisWeek, today)
    ensures nextWeek' == dueNextWeek + Hit(next, NextWeek, today)
  {
    overdue', thisWeek', nextWeek' := overdueCount, dueThisWeek, dueNextWeek;
    var week1 := today + WeekDays;
    var week2 := today + 2 * WeekDays;
    if next.Some? {
      if next.value < today {
        overdue' := overdue' + 1;
      } else if next.value <= week1 {
        thisWeek' := thisWeek' + 1;
      } else if next.value <= week2 {
        nextWeek' := nextWeek' + 1;
      }
    }
  }

  /** The counting loop of create_upcoming_tasks_chart: for each record, its
      calibration and then its maintenance next date add one to the bar
      they land in. */
  method UpcomingTaskCounts(equipmentList: seq<Equipment>, today: int)
    returns (overdueCount: nat, dueThisWeek: nat, dueNextWeek: nat)
    ensures overdueCount == Tally(equipmentList, PastDue, today)
    ensures dueThisWeek == Tally(equipmentList, ThisWeek, today)
    ensures dueNextWeek == Tally(equipmentList, NextWeek, today)
    ensures overdueCount + dueThisWeek + dueNextWeek <= 2 * |equipmentList|
  {
    overdueCount, dueThisWeek, dueNextWeek := 0, 0, 0;
    var i := 0;
    while i < |equipmentList|
      invariant 0 <= i <= |equipmentList|
      invariant overdueCount == Tally(equipmentList[..i], PastDue, today)
      invariant dueThisWeek == Tally(equipmentList[..i], ThisWeek, today)
      invariant dueNextWeek == Tally(equipmentList[..i], NextWeek, today)
    {
      var e := equipmentList[i];
      assert equipmentList[..i + 1] == equipmentList[..i] + [e];
      TallySnoc(equipmentList[..i], e, PastDue, today);
      TallySnoc(equipmentList[..i], e, ThisWeek, today);
      TallySnoc(equipmentList[..i], e, NextWeek, today);
      overdueCount, dueThisWeek, dueNextWeek :=
        CountNextDate(NextCalibrationDate(e), today, overdueCount, dueThisWeek, dueNextWeek);
      overdueCount, dueThisWeek, dueNextWeek :=
        CountNextDate(NextMaintenanceDate(e), today, overdueCount, dueThisWeek, dueNextWeek);
      i := i + 1;
    }
    assert equipmentList[..i] == equipmentList;
    TallyTotal(equipmentList, today);
  }

  /** Every next date lands in exactly one bucket or is missing, so the four
      buckets and the missing dates add up to two per record, and the three
      bars to at most that. */
  lemma {:induction false} TallyTotal(s: seq<Equipment>, today: int)
    ensures Tally(s, PastDue, today) + Tally(s, ThisWeek, today) + Tally(s, NextWeek, today)
            + Tally(s, Later, today) + Undated(s) == 2 * |s|
    ensures Tally(s, PastDue, today) + Tally(s, ThisWeek, today) + Tally(s, NextWeek, today) <= 2 * |s|
    decreases |s|
  {
    if |s| > 0 {
      var s', e := s[..|s| - 1], s[|s| - 1];
      assert s == s' + [e];
      TallyTotal(s', today);
    }
  }

  /** The overdue bar counts exactly the overdue flags of the model: the
      records overdue for calibration plus those overdue for maintenance. */
  lemma {:induction false} PastDueIsOverdue(s: seq<Equipment>, today: int)
    ensures Tally(s, PastDue, today) ==
      CountOf(s, OverdueFor(Calibration), today) + CountOf(s, OverdueFor(Maintenance), today)
    decreases |s|
  {
    if |s| > 0 {
      var s', e := s[..|s| - 1], s[|s| - 1];
      assert s == s' + [e];
      PastDueIsOverdue(s', today);
      SelectSnoc(s', e, OverdueFor(Calibration), today);
      SelectSnoc(s', e, OverdueFor(Maintenance), today);
    }
  }

  /** The two week bars together count exactly the per-kind due-soon
      statuses of the views (next date in [today, today + 14]). */
  lemma {:induction false} WeekBarsAreDueSoon(s: seq<Equipment>, today: int)
    ensures Tally(s, ThisWeek, today) + Tally(s, NextWeek, today) ==
      CountOf(s, DueSoonFor(Calibration), today) + CountOf(s, DueSoonFor(Maintenance), today)
    decreases |s|
  {
    if |s| > 0 {
      var s', e := s[..|s| - 1], s[|s| - 1];
      assert s == s' + [e];
      WeekBarsAreDueSoon(s', today);
      SelectSnoc(s', e, DueSoonFor(Calibration), today);
      SelectSnoc(s', e, DueSoonFor(Maintenance), today);
    }
  }

  /** A record with neither service date on file adds to no bar. */
  lemma UndatedRecordAddsNothing(s: seq<Equipment>, e: Equipment, b: Bucket, today: int)
    requires e.lastCalibrationDate.None? && e.lastMaintenanceDate.None?
    ensures Tally(s + [e], b, today) == Tally(s, b, today)
  {
    TallySnoc(s, e, b, today);
  }
}
