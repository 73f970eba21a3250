/** The per-kind and per-record status classification that the views of
    myapp/views.py apply, and the order-preserving selection of records by a
    criterion that every dashboard, list and counter is built from. */
module Status {
  import opened Wrappers
  import opened Models

  /** Days ahead of today that still count as "due soon". */
  const DueSoonWindowDays: int := 14

  datatype StatusClass = Overdue | DueSoon | Compliant

  /** A next date lies in [today, today + 14]. */
  predicate InDueWindow(next: Option<int>, today: int)
  {
    next.Some? && today <= next.value <= today + DueSoonWindowDays
  }

  /** Status of one kind of upkeep: overdue first, then due soon, otherwise
      compliant (the "Up to date" of the detail page). */
  function KindStatus(e: Equipment, k: Kind, today: int): (r: StatusClass)
    ensures r == Overdue <==> IsOverdue(e, k, today)
    ensures r == DueSoon <==> InDueWindow(NextDate(e, k), today)
    ensures r == Compliant <==> !IsOverdue(e, k, today) && !InDueWindow(NextDate(e, k), today)
  {
    if IsOverdue(e, k, today) then Overdue
    else if InDueWindow(NextDate(e, k), today) then DueSoon
    else Compliant
  }

  /** Either next date lies in the due-soon window. */
  predicate DueSoonEither(e: Equipment, today: int)
  {
    InDueWindow(NextMaintenanceDate(e), today) || InDueWindow(NextCalibrationDate(e), today)
  }

  /** Either kind is overdue. */
  predicate OverdueEither(e: Equipment, today: int)
  {
    IsMaintenanceOverdue(e, today) || IsCalibrationOverdue(e, today)
  }

  /** The single class the equipment list gives a record. */
  function ListClass(e: Equipment, today: int): (r: StatusClass)
    ensures r == Overdue <==> OverdueEither(e, today)
    ensures r == DueSoon <==> !OverdueEither(e, today) && DueSoonEither(e, today)
    ensures r == Compliant <==> !OverdueEither(e, today) && !DueSoonEither(e, today)
  {
    if OverdueEither(e, today) then Overdue
    else if DueSoonEither(e, today) then DueSoon
    else Compliant
  }

  /** The record-level class is overdue when some kind is overdue, and
      compliant exactly when both kinds are. */
  lemma ListClassFromKinds(e: Equipment, today: int)
    ensures ListClass(e, today) == Overdue <==>
      KindStatus(e, Maintenance, today) == Overdue || KindStatus(e, Calibration, today) == Overdue
    ensures ListClass(e, today) == Compliant <==>
      KindStatus(e, Maintenance, today) == Compliant && KindStatus(e, Calibration, today) == Compliant
  {
  }

  /** The conditions by which the views pick records out of a queryset. */
  datatype Criterion =
    | OverdueFor(kind: Kind)          // is_<kind>_overdue
    | DueSoonFor(kind: Kind)          // not overdue, next date in the window
    | DueSoonAny                      // either next date in the window
    | ListedAs(status: StatusClass)   // the equipment list's class
    | DueWithinTwoWeeks(kind: Kind)   // next date no later than today + 14
    | ListedUnder(filter: string)     // kept by the equipment list's status filter

  predicate Matches(e: Equipment, c: Criterion, today: int)
  {
    match c
    case OverdueFor(k) => IsOverdue(e, k, today)
    case DueSoonFor(k) => KindStatus(e, k, today) == DueSoon
    case DueSoonAny => DueSoonEither(e, today)
    case ListedAs(st) => ListClass(e, today) == st
    case DueWithinTwoWeeks(k) => NextDate(e, k).Some? && NextDate(e, k).value <= today + DueSoonWindowDays
    case ListedUnder(filter) => KeptByStatus(filter, ListClass(e, today))
  }

  /** Whether the equipment list's status parameter keeps a record of class
      st: "all" keeps everything, "overdue", "due_soon" and "compliant" keep
      their own class, and any other value keeps nothing. */
  predicate KeptByStatus(filter: string, st: StatusClass)
  {
    || filter == "all"
    || (filter == "overdue" && st == Overdue)
    || (filter == "due_soon" && st == DueSoon)
    || (filter == "compliant" && st == Compliant)
  }

  /** The records of s for which p holds, in their order in s (a loop that
      appends each accepted record in turn). */
  function Filter(s: seq<Equipment>, p: Equipment -> bool): (r: seq<Equipment>)
    ensures |r| <= |s|
    decreases |s|
  {
    if |s| == 0 then []
    else
      var init := Filter(s[..|s| - 1], p);
      if p(s[|s| - 1]) then init + [s[|s| - 1]] else init
  }

  /** A record is kept exactly when it is in s and p holds of it. */
  lemma {:induction false} FilterMembers(s: seq<Equipment>, p: Equipment -> bool)
    ensures forall x :: x in Filter(s, p) <==> x in s && p(x)
    decreases |s|
  {
    if |s| > 0 {
      FilterMembers(s[..|s| - 1], p);
      assert s == s[..|s| - 1] + [s[|s| - 1]];
    }
  }

  /** One more step of the appending loop. */
  lemma FilterSnoc(s: seq<Equipment>, x: Equipment, p: Equipment -> bool)
    ensures Filter(s + [x], p) == if p(x) then Filter(s, p) + [x] else Filter(s, p)
  {
    assert (s + [x])[..|s + [x]| - 1] == s;
  }

  /** Filtering again by the same condition changes nothing. */
  lemma {:induction false} FilterIdempotent(s: seq<Equipment>, p: Equipment -> bool)
    ensures Filter(Filter(s, p), p) == Filter(s, p)
    decreases |s|
  {
    if |s| > 0 {
      var s' := s[..|s| - 1];
      FilterIdempotent(s', p);
      if p(s[|s| - 1]) {
        FilterSnoc(Filter(s', p), s[|s| - 1], p);
      }
    }
  }

  /** Conditions that agree on every record of s keep the same records. */
  lemma {:induction false} FilterSameCondition(s: seq<Equipment>, p: Equipment -> bool, q: Equipment -> bool)
    requires forall x :: x in s ==> p(x) == q(x)
    ensures Filter(s, p) == Filter(s, q)
    decreases |s|
  {
    if |s| > 0 {
      assert forall x :: x in s[..|s| - 1] ==> x in s;
      FilterSameCondition(s[..|s| - 1], p, q);
    }
  }

  /** A condition every record of s meets keeps all of s. */
  lemma {:induction false} FilterAll(s: seq<Equipment>, p: Equipment -> bool)
    requires forall x :: x in s ==> p(x)
    ensures Filter(s, p) == s
    decreases |s|
  {
    if |s| > 0 {
      assert forall x :: x in s[..|s| - 1] ==> x in s;
      FilterAll(s[..|s| - 1], p);
      assert s == s[..|s| - 1] + [s[|s| - 1]];
    }
  }

  /** A condition no record of s meets keeps nothing. */
  lemma {:induction false} FilterNone(s: seq<Equipment>, p: Equipment -> bool)
    requires forall x :: x in s ==> !p(x)
    ensures Filter(s, p) == []
    decreases |s|
  {
    if |s| > 0 {
      assert forall x :: x in s[..|s| - 1] ==> x in s;
      FilterNone(s[..|s| - 1], p);
    }
  }

  /** The records of s that match c, in queryset order. */
  function Select(s: seq<Equipment>, c: Criterion, today: int): seq<Equipment>
  {
    Filter(s, e => Matches(e, c, today))
  }

  /** A record is selected exactly when it is in s and matches. */
  lemma SelectMembers(s: seq<Equipment>, c: Criterion, today: int)
    ensures forall x :: x in Select(s, c, today) <==> x in s && Matches(x, c, today)
  {
    FilterMembers(s, e => Matches(e, c, today));
  }

  /** One more step of a loop that appends the matching records. */
  lemma SelectSnoc(s: seq<Equipment>, x: Equipment, c: Criterion, today: int)
    ensures Select(s + [x], c, today) ==
      if Matches(x, c, today) then Select(s, c, today) + [x] else Select(s, c, today)
  {
    FilterSnoc(s, x, e => Matches(e, c, today));
  }

  /** What each value of the equipment list's status filter keeps: all of
      the queryset, one class, or (any other value) nothing. */
  lemma ListedUnderMeaning(s: seq<Equipment>, filter: string, today: int)
    ensures filter == "all" ==> Select(s, ListedUnder(filter), today) == s
    ensures filter == "overdue" ==> Select(s, ListedUnder(filter), today) == Select(s, ListedAs(Overdue), today)
    ensures filter == "due_soon" ==> Select(s, ListedUnder(filter), today) == Select(s, ListedAs(DueSoon), today)
    ensures filter == "compliant" ==> Select(s, ListedUnder(filter), today) == Select(s, ListedAs(Compliant), today)
    ensures filter !in {"all", "overdue", "due_soon", "compliant"} ==> Select(s, ListedUnder(filter), today) == []
  {
    var kept := e => Matches(e, ListedUnder(filter), today);
    if filter == "all" {
      FilterAll(s, kept);
    } else if filter == "overdue" {
      FilterSameCondition(s, kept, e => Matches(e, ListedAs(Overdue), today));
    } else if filter == "due_soon" {
      FilterSameCondition(s, kept, e => Matches(e, ListedAs(DueSoon), today));
    } else if filter == "compliant" {
      FilterSameCondition(s, kept, e => Matches(e, ListedAs(Compliant), today));
    } else {
      FilterNone(s, kept);
    }
  }

  /** Number of records of s that match c. */
  function CountOf(s: seq<Equipment>, c: Criterion, today: int): nat
  {
    |Select(s, c, today)|
  }

  /** One more step of a loop that counts the matching records. */
  lemma CountSnoc(s: seq<Equipment>, x: Equipment, c: Criterion, today: int)
    ensures CountOf(s + [x], c, today) == CountOf(s, c, today) + (if Matches(x, c, today) then 1 else 0)
  {
    SelectSnoc(s, x, c, today);
  }

  /** The equipment list's three classes partition the records: every record
      gets exactly one of them. */
  lemma {:induction false} ListClassesPartition(s: seq<Equipment>, today: int)
    ensures CountOf(s, ListedAs(Overdue), today) + CountOf(s, ListedAs(DueSoon), today)
            + CountOf(s, ListedAs(Compliant), today) == |s|
    decreases |s|
  {
    if |s| > 0 {
      var s', x := s[..|s| - 1], s[|s| - 1];
      assert s == s' + [x];
      ListClassesPartition(s', today);
      SelectSnoc(s', x, ListedAs(Overdue), today);
      SelectSnoc(s', x, ListedAs(DueSoon), today);
      SelectSnoc(s', x, ListedAs(Compliant), today);
    }
  }

  /** Per kind, a record is at most one of overdue or due soon. */
  lemma {:induction false} KindCountsBounded(s: seq<Equipment>, k: Kind, today: int)
    ensures CountOf(s, OverdueFor(k), today) + CountOf(s, DueSoonFor(k), today) <= |s|
    decreases |s|
  {
    if |s| > 0 {
      var s', x := s[..|s| - 1], s[|s| - 1];
      assert s == s' + [x];
      KindCountsBounded(s', k, today);
      SelectSnoc(s', x, OverdueFor(k), today);
      SelectSnoc(s', x, DueSoonFor(k), today);
    }
  }

  /** The first n records of s (Python's s[:n]). */
  function FirstN(s: seq<Equipment>, n: nat): (r: seq<Equipment>)
    ensures |r| == if |s| <= n then |s| else n
    ensures r <= s
  {
    if |s| <= n then s else s[..n]
  }

  /** Two entries with the same primary key are the same database record. */
  predicate DistinctIds(s: seq<Equipment>)
  {
    forall i, j :: 0 <= i < j < |s| ==> s[i].machineId != s[j].machineId
  }

  /** Django's `record in list`, which compares primary keys. */
  predicate HasId(s: seq<Equipment>, id: string)
  {
    exists i :: 0 <= i < |s| && s[i].machineId == id
  }
}
