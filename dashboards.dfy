/** The role dashboards of myapp/views.py: each walks the (searched and
    type-filtered) queryset once, appending records to status lists, and
    shows the counts and the first few records of each list. */
module Dashboards {
  import opened Wrappers
  import opened Models
  import opened Status
  import Access

  /** Counts of the full lists and the first `shown` records of each. */
  datatype Summary = Summary(
    overdueMaintenanceCount: nat,
    overdueCalibrationCount: nat,
    dueSoonCount: nat,
    overdueMaintenance: seq<Equipment>,
    overdueCalibration: seq<Equipment>,
    dueSoon: seq<Equipment>)

  /** The context a dashboard builds from its three full lists. */
  function Summarize(overdueMaintenance: seq<Equipment>, overdueCalibration: seq<Equipment>,
                     dueSoon: seq<Equipment>, shown: nat): (r: Summary)
    ensures r.overdueMaintenanceCount == |overdueMaintenance|
    ensures r.overdueCalibrationCount == |overdueCalibration|
    ensures r.dueSoonCount == |dueSoon|
    ensures r.overdueMaintenance <= overdueMaintenance
    ensures |r.overdueMaintenance| == if |overdueMaintenance| <= shown then |overdueMaintenance| else shown
    ensures r.overdueCalibration <= overdueCalibration
    ensures |r.overdueCalibration| == if |overdueCalibration| <= shown then |overdueCalibration| else shown
    ensures r.dueSoon <= dueSoon
    ensures |r.dueSoon| == if |dueSoon| <= shown then |dueSoon| else shown
  {
    Summary(|overdueMaintenance|, |overdueCalibration|, |dueSoon|,
            FirstN(overdueMaintenance, shown), FirstN(overdueCalibration, shown),
            FirstN(dueSoon, shown))
  }

  /** The due-soon step shared by the dashboards: a record whose maintenance
      or calibration next date is in the window is appended unless a record
      with its primary key is already in the list. */
  method AppendIfDueSoon(dueSoon: seq<Equipment>, e: Equipment, today: int) returns (r: seq<Equipment>)
    ensures r == if DueSoonEither(e, today) && !HasId(dueSoon, e.machineId) then dueSoon + [e] else dueSoon
  {
    r := dueSoon;
    var maintenanceDue := NextMaintenanceDate(e);
    var calibrationDue := NextCalibrationDate(e);
    if InDueWindow(maintenanceDue, today) {
      if !HasId(r, e.machineId) {
        r := r + [e];
        HasIdAppend(dueSoon, e, e.machineId);
      }
    }
    if InDueWindow(calibrationDue, today) {
      if !HasId(r, e.machineId) {
        r := r + [e];
      }
    }
  }

  /** A key is in s + [e] when it is in s or is e's own key. */
  lemma HasIdAppend(s: seq<Equipment>, e: Equipment, id: string)
    ensures HasId(s + [e], id) <==> HasId(s, id) || e.machineId == id
  {
    if HasId(s, id) {
      var k :| 0 <= k < |s| && s[k].machineId == id;
      assert (s + [e])[k] == s[k];
    }
    if e.machineId == id {
      assert (s + [e])[|s|] == e;
    }
    if HasId(s + [e], id) {
      var k :| 0 <= k < |s + [e]| && (s + [e])[k].machineId == id;
      if k < |s| {
        assert (s + [e])[k] == s[k];
      }
    }
  }

  /** Appending a record whose key is new keeps the keys distinct. */
  lemma AppendKeepsDistinct(s: seq<Equipment>, e: Equipment)
    requires DistinctIds(s) && !HasId(s, e.machineId)
    ensures DistinctIds(s + [e])
  {
    var t := s + [e];
    forall a, b | 0 <= a < b < |t| ensures t[a].machineId != t[b].machineId {
      assert t[a] == s[a];
      if b < |s| {
        assert t[b] == s[b];
      } else {
        assert t[b] == e;
      }
    }
  }

  /** Two entries of a key-distinct sequence with the same key are the same
      record. */
  lemma SameIdSameRecord(s: seq<Equipment>, x: Equipment, y: Equipment)
    requires DistinctIds(s) && x in s && y in s && x.machineId == y.machineId
    ensures x == y
  {
    var i :| 0 <= i < |s| && s[i] == x;
    var j :| 0 <= j < |s| && s[j] == y;
    assert i == j;
  }

  /** The due-soon list after the loop has visited the records of s. */
  function DueSoonAfter(s: seq<Equipment>, today: int): seq<Equipment>
    decreases |s|
  {
    if |s| == 0 then []
    else
      var d := DueSoonAfter(s[..|s| - 1], today);
      var x := s[|s| - 1];
      if DueSoonEither(x, today) && !HasId(d, x.machineId) then d + [x] else d
  }

  lemma DueSoonAfterSnoc(s: seq<Equipment>, x: Equipment, today: int)
    ensures DueSoonAfter(s + [x], today) ==
      var d := DueSoonAfter(s, today);
      if DueSoonEither(x, today) && !HasId(d, x.machineId) then d + [x] else d
  {
    assert (s + [x])[..|s + [x]| - 1] == s;
  }

  /** The due-soon list never holds two records with the same key. */
  lemma {:induction false} DueSoonAfterDistinct(s: seq<Equipment>, today: int)
    ensures DistinctIds(DueSoonAfter(s, today))
    decreases |s|
  {
    if |s| > 0 {
      var s', x := s[..|s| - 1], s[|s| - 1];
      assert s == s' + [x];
      DueSoonAfterDistinct(s', today);
      DueSoonAfterSnoc(s', x, today);
      var d := DueSoonAfter(s', today);
      if DueSoonEither(x, today) && !HasId(d, x.machineId) {
        AppendKeepsDistinct(d, x);
      }
    }
  }

  /** The due-soon list holds only visited records that are due soon. */
  lemma {:induction false} DueSoonAfterMembers(s: seq<Equipment>, today: int)
    ensures forall x :: x in DueSoonAfter(s, today) ==> x in s && DueSoonEither(x, today)
    decreases |s|
  {
    if |s| > 0 {
      var s', x := s[..|s| - 1], s[|s| - 1];
      assert s == s' + [x];
      DueSoonAfterMembers(s', today);
      DueSoonAfterSnoc(s', x, today);
    }
  }

  /** Every visited record that is due soon has its key in the list. */
  lemma {:induction false} DueSoonAfterCovers(s: seq<Equipment>, today: int)
    ensures forall x :: x in s && DueSoonEither(x, today) ==> HasId(DueSoonAfter(s, today), x.machineId)
    decreases |s|
  {
    if |s| > 0 {
      var s', x := s[..|s| - 1], s[|s| - 1];
      assert s == s' + [x];
      DueSoonAfterCovers(s', today);
      DueSoonAfterSnoc(s', x, today);
      var d := DueSoonAfter(s', today);
      forall y | y in s && DueSoonEither(y, today) ensures HasId(DueSoonAfter(s, today), y.machineId) {
        if DueSoonEither(x, today) && !HasId(d, x.machineId) {
          HasIdAppend(d, x, y.machineId);
        }
      }
    }
  }

  /** When the records have distinct keys, no key is ever skipped as a
      repeat: the due-soon list is exactly the due-soon records in order. */
  lemma {:induction false} DueSoonAfterIsSelect(s: seq<Equipment>, today: int)
    requires DistinctIds(s)
    ensures DueSoonAfter(s, today) == Select(s, DueSoonAny, today)
    decreases |s|
  {
    if |s| > 0 {
      var s', x := s[..|s| - 1], s[|s| - 1];
      assert s == s' + [x];
      assert DistinctIds(s');
      DueSoonAfterIsSelect(s', today);
      DueSoonAfterSnoc(s', x, today);
      SelectSnoc(s', x, DueSoonAny, today);
      var d := DueSoonAfter(s', today);
      if DueSoonEither(x, today) {
        DueSoonAfterMembers(s', today);
        forall k | 0 <= k < |d| ensures d[k].machineId != x.machineId {
          assert d[k] in s';
          var m :| 0 <= m < |s'| && s'[m] == d[k];
          assert s[m] == d[k] && s[|s| - 1] == x;
        }
      }
    }
  }

  /** The loop of the administrator dashboard (and of the older dashboard
      overview): the overdue lists are the overdue records of each kind in
      queryset order, and the due-soon list holds each record with either
      next date in [today, today + 14] exactly once. */
  method OverviewLists(records: seq<Equipment>, today: int)
    returns (overdueMaintenance: seq<Equipment>, overdueCalibration: seq<Equipment>, dueSoon: seq<Equipment>)
    ensures overdueMaintenance == Select(records, OverdueFor(Maintenance), today)
    ensures overdueCalibration == Select(records, OverdueFor(Calibration), today)
    ensures dueSoon == DueSoonAfter(records, today)
    ensures DistinctIds(dueSoon)
    ensures forall x :: x in dueSoon ==> x in records && DueSoonEither(x, today)
    ensures forall x :: x in records && DueSoonEither(x, today) ==> HasId(dueSoon, x.machineId)
    ensures DistinctIds(records) ==> dueSoon == Select(records, DueSoonAny, today)
  {
    overdueMaintenance, overdueCalibration, dueSoon := [], [], [];
    var i := 0;
    while i < |records|
      invariant 0 <= i <= |records|
      invariant overdueMaintenance == Select(records[..i], OverdueFor(Maintenance), today)
      invariant overdueCalibration == Select(records[..i], OverdueFor(Calibration), today)
      invariant dueSoon == DueSoonAfter(records[..i], today)
    {
      var e := records[i];
      assert records[..i + 1] == records[..i] + [e];
      SelectSnoc(records[..i], e, OverdueFor(Maintenance), today);
      SelectSnoc(records[..i], e, OverdueFor(Calibration), today);
      DueSoonAfterSnoc(records[..i], e, today);
      if IsMaintenanceOverdue(e, today) {
        overdueMaintenance := overdueMaintenance + [e];
      }
      if IsCalibrationOverdue(e, today) {
        overdueCalibration := overdueCalibration + [e];
      }
      dueSoon := AppendIfDueSoon(dueSoon, e, today);
      i := i + 1;
    }
    assert records[..i] == records;
    DueSoonAfterDistinct(records, today);
    DueSoonAfterMembers(records, today);
    DueSoonAfterCovers(records, today);
    if DistinctIds(records) {
      DueSoonAfterIsSelect(records, today);
    }
  }

  /** What the administrator dashboard renders. */
  datatype AdminPage = AdminPage(filtered: seq<Equipment>, filteredCount: nat, summary: Summary)

  /** admin_dashboard: the status filter replaces the shown records by one
      of the full lists; the counts are of the full lists and the lists
      shown are their first three records. */
  method AdminDashboard(queryset: seq<Equipment>, today: int, status: string) returns (page: AdminPage)
    ensures status == "overdue_maintenance" ==> page.filtered == Select(queryset, OverdueFor(Maintenance), today)
    ensures status == "overdue_calibration" ==> page.filtered == Select(queryset, OverdueFor(Calibration), today)
    ensures status == "due_soon" && DistinctIds(queryset) ==> page.filtered == Select(queryset, DueSoonAny, today)
    ensures status !in {"overdue_maintenance", "overdue_calibration", "due_soon"} ==> page.filtered == queryset
    ensures page.filteredCount == |page.filtered|
    ensures page.summary.overdueMaintenanceCount == CountOf(queryset, OverdueFor(Maintenance), today)
    ensures page.summary.overdueCalibrationCount == CountOf(queryset, OverdueFor(Calibration), today)
    ensures page.summary.overdueMaintenance == FirstN(Select(queryset, OverdueFor(Maintenance), today), 3)
    ensures page.summary.overdueCalibration == FirstN(Select(queryset, OverdueFor(Calibration), today), 3)
    ensures DistinctIds(queryset) ==>
      page.summary.dueSoonCount == CountOf(queryset, DueSoonAny, today) &&
      page.summary.dueSoon == FirstN(Select(queryset, DueSoonAny, today), 3)
    ensures DistinctIds(page.summary.dueSoon)
  {
    var overdueMaintenance, overdueCalibration, dueSoon := OverviewLists(queryset, today);
    var filtered := queryset;
    if status == "overdue_maintenance" {
      filtered := overdueMaintenance;
    } else if status == "overdue_calibration" {
      filtered := overdueCalibration;
    } else if status == "due_soon" {
      filtered := dueSoon;
    }
    page := AdminPage(filtered, |filtered|, Summarize(overdueMaintenance, overdueCalibration, dueSoon, 3));
  }

  /** What the quality dashboard renders. */
  datatype QualityPage = QualityPage(
    filtered: seq<Equipment>, filteredCount: nat, summary: Summary,
    compliant: seq<Equipment>, compliantCount: nat)

  /** The compliant list of the quality dashboard after visiting s: a
      record is added when it is overdue for neither kind and, once the
      due-soon step has run for it, its key is not in the due-soon list. */
  function CompliantAfter(s: seq<Equipment>, today: int): seq<Equipment>
    decreases |s|
  {
    if |s| == 0 then []
    else
      var c := CompliantAfter(s[..|s| - 1], today);
      var x := s[|s| - 1];
      if !OverdueEither(x, today) && !HasId(DueSoonAfter(s, today), x.machineId) then c + [x] else c
  }

  lemma CompliantAfterSnoc(s: seq<Equipment>, x: Equipment, today: int)
    ensures CompliantAfter(s + [x], today) ==
      var c := CompliantAfter(s, today);
      if !OverdueEither(x, today) && !HasId(DueSoonAfter(s + [x], today), x.machineId) then c + [x] else c
  {
    assert (s + [x])[..|s + [x]| - 1] == s;
  }

  /** A record added as compliant is overdue for neither kind and due soon
      for neither kind. */
  lemma {:induction false} CompliantAfterMembers(s: seq<Equipment>, today: int)
    ensures forall x :: x in CompliantAfter(s, today) ==> x in s && ListClass(x, today) == Compliant
    decreases |s|
  {
    if |s| > 0 {
      var s', x := s[..|s| - 1], s[|s| - 1];
      assert s == s' + [x];
      CompliantAfterMembers(s', today);
      CompliantAfterSnoc(s', x, today);
      DueSoonAfterCovers(s, today);
    }
  }

  /** When the records have distinct keys, the compliant list is exactly
      the records of class compliant, in order. */
  lemma {:induction false} CompliantAfterIsSelect(s: seq<Equipment>, today: int)
    requires DistinctIds(s)
    ensures CompliantAfter(s, today) == Select(s, ListedAs(Compliant), today)
    decreases |s|
  {
    if |s| > 0 {
      var s', x := s[..|s| - 1], s[|s| - 1];
      assert s == s' + [x];
      assert DistinctIds(s');
      CompliantAfterIsSelect(s', today);
      CompliantAfterSnoc(s', x, today);
      SelectSnoc(s', x, ListedAs(Compliant), today);
      DueSoonAfterCovers(s, today);
      if HasId(DueSoonAfter(s, today), x.machineId) {
        var d := DueSoonAfter(s, today);
        var k :| 0 <= k < |d| && d[k].machineId == x.machineId;
        DueSoonAfterMembers(s, today);
        SameIdSameRecord(s, d[k], x);
      }
    }
  }

  /** The loop of quality_dashboard: the lists of the administrator
      dashboard, and the compliant records. */
  method QualityLists(queryset: seq<Equipment>, today: int)
    returns (overdueMaintenance: seq<Equipment>, overdueCalibration: seq<Equipment>,
             dueSoon: seq<Equipment>, compliant: seq<Equipment>)
    ensures overdueMaintenance == Select(queryset, OverdueFor(Maintenance), today)
    ensures overdueCalibration == Select(queryset, OverdueFor(Calibration), today)
    ensures dueSoon == DueSoonAfter(queryset, today)
    ensures compliant == CompliantAfter(queryset, today)
    ensures DistinctIds(dueSoon)
    ensures forall x :: x in compliant ==> x in queryset && ListClass(x, today) == Compliant
    ensures DistinctIds(queryset) ==> dueSoon == Select(queryset, DueSoonAny, today)
    ensures DistinctIds(queryset) ==> compliant == Select(queryset, ListedAs(Compliant), today)
  {
    overdueMaintenance, overdueCalibration, dueSoon, compliant := [], [], [], [];
    var i := 0;
    while i < |queryset|
      invariant 0 <= i <= |queryset|
      invariant overdueMaintenance == Select(queryset[..i], OverdueFor(Maintenance), today)
      invariant overdueCalibration == Select(queryset[..i], OverdueFor(Calibration), today)
      invariant dueSoon == DueSoonAfter(queryset[..i], today)
      invariant compliant == CompliantAfter(queryset[..i], today)
    {
      var e := queryset[i];
      assert queryset[..i + 1] == queryset[..i] + [e];
      SelectSnoc(queryset[..i], e, OverdueFor(Maintenance), today);
      SelectSnoc(queryset[..i], e, OverdueFor(Calibration), today);
      DueSoonAfterSnoc(queryset[..i], e, today);
      CompliantAfterSnoc(queryset[..i], e, today);
      var isOverdue := false;
      if IsMaintenanceOverdue(e, today) {
        overdueMaintenance := overdueMaintenance + [e];
        isOverdue := true;
      }
      if IsCalibrationOverdue(e, today) {
        overdueCalibration := overdueCalibration + [e];
        isOverdue := true;
      }
      dueSoon := AppendIfDueSoon(dueSoon, e, today);
      if !isOverdue && !HasId(dueSoon, e.machineId) {
        compliant := compliant + [e];
      }
      i := i + 1;
    }
    assert queryset[..i] == queryset;
    DueSoonAfterDistinct(queryset, today);
    CompliantAfterMembers(queryset, today);
    if DistinctIds(queryset) {
      DueSoonAfterIsSelect(queryset, today);
      CompliantAfterIsSelect(queryset, today);
    }
  }

  /** quality_dashboard: the status filter replaces the shown records by one
      of the full lists, compliant included; the counts are of the full lists
      and the lists shown are their first five records. */
  method QualityDashboard(queryset: seq<Equipment>, today: int, status: string) returns (page: QualityPage)
    ensures status == "overdue_maintenance" ==> page.filtered == Select(queryset, OverdueFor(Maintenance), today)
    ensures status == "overdue_calibration" ==> page.filtered == Select(queryset, OverdueFor(Calibration), today)
    ensures status == "due_soon" && DistinctIds(queryset) ==> page.filtered == Select(queryset, DueSoonAny, today)
    ensures status == "compliant" && DistinctIds(queryset) ==> page.filtered == Select(queryset, ListedAs(Compliant), today)
    ensures status !in {"overdue_maintenance", "overdue_calibration", "due_soon", "compliant"} ==> page.filtered == queryset
    ensures page.filteredCount == |page.filtered|
    ensures page.summary.overdueMaintenance == FirstN(Select(queryset, OverdueFor(Maintenance), today), 5)
    ensures page.summary.overdueCalibration == FirstN(Select(queryset, OverdueFor(Calibration), today), 5)
    ensures page.summary.overdueMaintenanceCount == CountOf(queryset, OverdueFor(Maintenance), today)
    ensures page.summary.overdueCalibrationCount == CountOf(queryset, OverdueFor(Calibration), today)
    ensures DistinctIds(queryset) ==>
      page.summary.dueSoonCount == CountOf(queryset, DueSoonAny, today) &&
      page.summary.dueSoon == FirstN(Select(queryset, DueSoonAny, today), 5)
    ensures forall x :: x in page.compliant ==> x in queryset && ListClass(x, today) == Compliant
    ensures DistinctIds(queryset) ==> page.compliant == Select(queryset, ListedAs(Compliant), today)
    ensures page.compliantCount == |page.compliant|
    ensures DistinctIds(page.summary.dueSoon)
  {
    var overdueMaintenance, overdueCalibration, dueSoon, compliant := QualityLists(queryset, today);
    var filtered := queryset;
    if status == "overdue_maintenance" {
      filtered := overdueMaintenance;
    } else if status == "overdue_calibration" {
      filtered := overdueCalibration;
    } else if status == "due_soon" {
      filtered := dueSoon;
    } else if status == "compliant" {
      filtered := compliant;
    }
    page := QualityPage(filtered, |filtered|, Summarize(overdueMaintenance, overdueCalibration, dueSoon, 5),
                        compliant, |compliant|);
  }

  /** The compliant records of the quality dashboard share no record with
      either overdue list or with the due-soon list. */
  lemma CompliantDisjoint(queryset: seq<Equipment>, today: int, x: Equipment)
    requires x in Select(queryset, ListedAs(Compliant), today)
    ensures x !in Select(queryset, OverdueFor(Maintenance), today)
    ensures x !in Select(queryset, OverdueFor(Calibration), today)
    ensures x !in Select(queryset, DueSoonAny, today)
  {
    SelectMembers(queryset, ListedAs(Compliant), today);
    SelectMembers(queryset, OverdueFor(Maintenance), today);
    SelectMembers(queryset, OverdueFor(Calibration), today);
    SelectMembers(queryset, DueSoonAny, today);
  }

  /** The records of s without repeated primary keys, first occurrence kept
      (the `list(set(...))` of the maintenance dashboard; the order of a
      Python set is unspecified, so callers rely only on contents). */
  function UniqueById(s: seq<Equipment>): (r: seq<Equipment>)
    ensures DistinctIds(r)
    ensures forall x :: x in r ==> x in s
    ensures forall j :: 0 <= j < |s| ==> HasId(r, s[j].machineId)
    decreases |s|
  {
    if |s| == 0 then []
    else
      var init := UniqueById(s[..|s| - 1]);
      var x := s[|s| - 1];
      assert forall j :: 0 <= j < |s| - 1 ==> s[j] == s[..|s| - 1][j];
      if HasId(init, x.machineId) then init
      else
        AppendKeepsDistinct(init, x);
        assert forall j :: 0 <= j < |s| ==> HasId(init + [x], s[j].machineId) by {
          forall j | 0 <= j < |s| ensures HasId(init + [x], s[j].machineId) {
            HasIdAppend(init, x, s[j].machineId);
          }
        }
        init + [x]
  }

  /** What the maintenance dashboard renders. */
  datatype MaintenancePage = MaintenancePage(
    filtered: seq<Equipment>,
    overdueMaintenance: seq<Equipment>, dueSoonMaintenance: seq<Equipment>,
    overdueCalibration: seq<Equipment>, dueSoonCalibration: seq<Equipment>,
    dueCalibration: seq<Equipment>, dueMaintenance: seq<Equipment>,
    totalEquipment: nat)

  /** The loop of maintenance_dashboard over its queryset: per kind, a
      record is listed as overdue or, failing that, as due soon. */
  method KindLists(queryset: seq<Equipment>, today: int)
    returns (overdueMaintenance: seq<Equipment>, dueSoonMaintenance: seq<Equipment>,
             overdueCalibration: seq<Equipment>, dueSoonCalibration: seq<Equipment>)
    ensures overdueMaintenance == Select(queryset, OverdueFor(Maintenance), today)
    ensures dueSoonMaintenance == Select(queryset, DueSoonFor(Maintenance), today)
    ensures overdueCalibration == Select(queryset, OverdueFor(Calibration), today)
    ensures dueSoonCalibration == Select(queryset, DueSoonFor(Calibration), today)
  {
    overdueMaintenance, dueSoonMaintenance, overdueCalibration, dueSoonCalibration := [], [], [], [];
    var i := 0;
    while i < |queryset|
      invariant 0 <= i <= |queryset|
      invariant overdueMaintenance == Select(queryset[..i], OverdueFor(Maintenance), today)
      invariant dueSoonMaintenance == Select(queryset[..i], DueSoonFor(Maintenance), today)
      invariant overdueCalibration == Select(queryset[..i], OverdueFor(Calibration), today)
      invariant dueSoonCalibration == Select(queryset[..i], DueSoonFor(Calibration), today)
    {
      var e := queryset[i];
      assert queryset[..i + 1] == queryset[..i] + [e];
      SelectSnoc(queryset[..i], e, OverdueFor(Maintenance), today);
      SelectSnoc(queryset[..i], e, DueSoonFor(Maintenance), today);
      SelectSnoc(queryset[..i], e, OverdueFor(Calibration), today);
      SelectSnoc(queryset[..i], e, DueSoonFor(Calibration), today);
      if IsMaintenanceOverdue(e, today) {
        overdueMaintenance := overdueMaintenance + [e];
      } else {
        var maintenanceDue := NextMaintenanceDate(e);
        if InDueWindow(maintenanceDue, today) {
          dueSoonMaintenance := dueSoonMaintenance + [e];
        }
      }
      if IsCalibrationOverdue(e, today) {
        overdueCalibration := overdueCalibration + [e];
      } else {
        var calibrationDue := NextCalibrationDate(e);
        if InDueWindow(calibrationDue, today) {
          dueSoonCalibration := dueSoonCalibration + [e];
        }
      }
      i := i + 1;
    }
    assert queryset[..i] == queryset;
  }

  /** The loop of maintenance_dashboard over all equipment: the records whose
      next date of each kind is no later than today + 14. */
  method DueLists(allEquipment: seq<Equipment>, today: int)
    returns (dueCalibration: seq<Equipment>, dueMaintenance: seq<Equipment>)
    ensures dueCalibration == Select(allEquipment, DueWithinTwoWeeks(Calibration), today)
    ensures dueMaintenance == Select(allEquipment, DueWithinTwoWeeks(Maintenance), today)
  {
    dueCalibration, dueMaintenance := [], [];
    var i := 0;
    while i < |allEquipment|
      invariant 0 <= i <= |allEquipment|
      invariant dueCalibration == Select(allEquipment[..i], DueWithinTwoWeeks(Calibration), today)
      invariant dueMaintenance == Select(allEquipment[..i], DueWithinTwoWeeks(Maintenance), today)
    {
      var e := allEquipment[i];
      assert allEquipment[..i + 1] == allEquipment[..i] + [e];
      SelectSnoc(allEquipment[..i], e, DueWithinTwoWeeks(Calibration), today);
      SelectSnoc(allEquipment[..i], e, DueWithinTwoWeeks(Maintenance), today);
      var nextCalibration := NextCalibrationDate(e);
      if nextCalibration.Some? && nextCalibration.value <= today + DueSoonWindowDays {
        dueCalibration := dueCalibration + [e];
      }
      var nextMaintenance := NextMaintenanceDate(e);
      if nextMaintenance.Some? && nextMaintenance.value <= today + DueSoonWindowDays {
        dueMaintenance := dueMaintenance + [e];
      }
      i := i + 1;
    }
    assert allEquipment[..i] == allEquipment;
  }

  /** A record is due soon for some kind on the maintenance dashboard. */
  predicate DueSoonForSome(e: Equipment, today: int)
  {
    Matches(e, DueSoonFor(Maintenance), today) || Matches(e, DueSoonFor(Calibration), today)
  }

  /** The due-soon filter of the maintenance dashboard, the union of the two
      per-kind due-soon lists without repeated keys, holds only queryset
      records due soon for some kind, and the key of every such record. */
  lemma DueSoonUnionMeaning(queryset: seq<Equipment>, today: int)
    ensures var u := UniqueById(Select(queryset, DueSoonFor(Maintenance), today) +
                                Select(queryset, DueSoonFor(Calibration), today));
      && DistinctIds(u)
      && (forall x :: x in u ==> x in queryset && DueSoonForSome(x, today))
      && (forall j :: 0 <= j < |queryset| && DueSoonForSome(queryset[j], today) ==> HasId(u, queryset[j].machineId))
  {
    var both := Select(queryset, DueSoonFor(Maintenance), today) + Select(queryset, DueSoonFor(Calibration), today);
    var u := UniqueById(both);
    SelectMembers(queryset, DueSoonFor(Maintenance), today);
    SelectMembers(queryset, DueSoonFor(Calibration), today);
    forall j | 0 <= j < |queryset| && DueSoonForSome(queryset[j], today)
      ensures HasId(u, queryset[j].machineId)
    {
      var x := queryset[j];
      assert x in both;
      var k :| 0 <= k < |both| && both[k] == x;
    }
  }

  /** maintenance_dashboard: only a logged-in user whose profile role is
      maintenance gets the page (see Access.InlineCheck for where everyone
      else is sent). Per kind, a record is
      either overdue or, failing that, due soon; the due-soon filter shows
      the due-soon records of both kinds once each. Over all equipment, the
      due lists also hold every record whose next date is no later than
      today + 14, overdue ones included. */
  method MaintenanceDashboard(user: Access.User, queryset: seq<Equipment>, allEquipment: seq<Equipment>,
                              today: int, status: string) returns (page: Option<MaintenancePage>)
    ensures page.None? <==> Access.InlineCheck(user, Access.MaintenanceRole).Some?
    ensures page.Some? ==>
      var p := page.value;
      && p.overdueMaintenance == Select(queryset, OverdueFor(Maintenance), today)
      && p.dueSoonMaintenance == Select(queryset, DueSoonFor(Maintenance), today)
      && p.overdueCalibration == Select(queryset, OverdueFor(Calibration), today)
      && p.dueSoonCalibration == Select(queryset, DueSoonFor(Calibration), today)
      && p.dueCalibration == Select(allEquipment, DueWithinTwoWeeks(Calibration), today)
      && p.dueMaintenance == Select(allEquipment, DueWithinTwoWeeks(Maintenance), today)
      && p.totalEquipment == |allEquipment|
      && (status == "overdue_maintenance" ==> p.filtered == p.overdueMaintenance)
      && (status == "overdue_calibration" ==> p.filtered == p.overdueCalibration)
      && (status == "due_soon" ==>
            && DistinctIds(p.filtered)
            && (forall x :: x in p.filtered ==> x in queryset && DueSoonForSome(x, today))
            && (forall j :: 0 <= j < |queryset| && DueSoonForSome(queryset[j], today) ==> HasId(p.filtered, queryset[j].machineId)))
      && (status !in {"overdue_maintenance", "overdue_calibration", "due_soon"} ==> p.filtered == queryset)
  {
    if Access.InlineCheck(user, Access.MaintenanceRole).Some? {
      return None;
    }
    var overdueMaintenance, dueSoonMaintenance, overdueCalibration, dueSoonCalibration := KindLists(queryset, today);
    var filtered := queryset;
    if status == "overdue_maintenance" {
      filtered := overdueMaintenance;
    } else if status == "overdue_calibration" {
      filtered := overdueCalibration;
    } else if status == "due_soon" {
      filtered := UniqueById(dueSoonMaintenance + dueSoonCalibration);
      DueSoonUnionMeaning(queryset, today);
    }
    var dueCalibration, dueMaintenance := DueLists(allEquipment, today);
    page := Some(MaintenancePage(filtered, overdueMaintenance, dueSoonMaintenance,
                                 overdueCalibration, dueSoonCalibration,
                                 dueCalibration, dueMaintenance, |allEquipment|));
  }

  /** "Due within two weeks" on the maintenance dashboard is exactly "overdue
      or due soon" for that kind. */
  lemma DueWithinIsOverdueOrDueSoon(e: Equipment, k: Kind, today: int)
    ensures Matches(e, DueWithinTwoWeeks(k), today) <==>
      Matches(e, OverdueFor(k), today) || Matches(e, DueSoonFor(k), today)
  {
  }
}
