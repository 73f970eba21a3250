/** The views of the older copy of the application
    (Post-Grad-Project-main/S00044234_Maint_Calib_Db/myapp/views.py) that
    hold status logic: the overview dashboard (the second `dashboard`
    definition, which replaces the first) and the status filter of its
    equipment list. Its `role_required` is the same wrapper as
    `Access.RoleRequired`. */
module LegacyViews {
  import opened Models
  import opened Status
  import Dashboards

  /** What the overview dashboard renders. */
  datatype OverviewPage = OverviewPage(totalEquipment: nat, summary: Dashboards.Summary)

  /** dashboard: one pass over all equipment builds the two overdue lists and
      the due-soon list (each key at most once); the page shows their
      lengths and their first five records. */
  method OverviewDashboard(allEquipment: seq<Equipment>, today: int) returns (page: OverviewPage)
    ensures page.totalEquipment == |allEquipment|
    ensures page.summary.overdueMaintenanceCount == CountOf(allEquipment, OverdueFor(Maintenance), today)
    ensures page.summary.overdueCalibrationCount == CountOf(allEquipment, OverdueFor(Calibration), today)
    ensures page.summary.overdueMaintenance == FirstN(Select(allEquipment, OverdueFor(Maintenance), today), 5)
    ensures page.summary.overdueCalibration == FirstN(Select(allEquipment, OverdueFor(Calibration), today), 5)
    ensures page.summary.dueSoonCount == |Dashboards.DueSoonAfter(allEquipment, today)|
    ensures page.summary.dueSoon == FirstN(Dashboards.DueSoonAfter(allEquipment, today), 5)
    ensures DistinctIds(page.summary.dueSoon)
    ensures forall x :: x in page.summary.dueSoon ==> x in allEquipment && DueSoonEither(x, today)
    ensures DistinctIds(allEquipment) ==>
      page.summary.dueSoonCount == CountOf(allEquipment, DueSoonAny, today) &&
      page.summary.dueSoon == FirstN(Select(allEquipment, DueSoonAny, today), 5)
  {
    var overdueMaintenance, overdueCalibration, dueSoon := Dashboards.OverviewLists(allEquipment, today);
    page := OverviewPage(|allEquipment|, Dashboards.Summarize(overdueMaintenance, overdueCalibration, dueSoon, 5));
    assert page.summary.dueSoon <= dueSoon;
  }

  /** The overdue branch of equipment_list for one kind: the records overdue
      for that kind, in queryset order. */
  method KeepOverdue(queryset: seq<Equipment>, k: Kind, today: int) returns (kept: seq<Equipment>)
    ensures kept == Select(queryset, OverdueFor(k), today)
  {
    kept := [];
    var i := 0;
    while i < |queryset|
      invariant 0 <= i <= |queryset|
      invariant kept == Select(queryset[..i], OverdueFor(k), today)
    {
      var e := queryset[i];
      assert queryset[..i + 1] == queryset[..i] + [e];
      SelectSnoc(queryset[..i], e, OverdueFor(k), today);
      var overdue := if k == Maintenance then IsMaintenanceOverdue(e, today) else IsCalibrationOverdue(e, today);
      if overdue {
        kept := kept + [e];
      }
      i := i + 1;
    }
    assert queryset[..i] == queryset;
  }

  /** The due-soon branch of equipment_list: a flag is raised when either
      next date lies in [today, today + 14], and flagged records are kept in
      queryset order (overdue ones are not excluded). */
  method KeepDueSoon(queryset: seq<Equipment>, today: int) returns (kept: seq<Equipment>)
    ensures kept == Select(queryset, DueSoonAny, today)
  {
    kept := [];
    var i := 0;
    while i < |queryset|
      invariant 0 <= i <= |queryset|
      invariant kept == Select(queryset[..i], DueSoonAny, today)
    {
      var e := queryset[i];
      assert queryset[..i + 1] == queryset[..i] + [e];
      SelectSnoc(queryset[..i], e, DueSoonAny, today);
      var maintenanceDue := NextMaintenanceDate(e);
      var calibrationDue := NextCalibrationDate(e);
      var dueSoon := false;
      if InDueWindow(maintenanceDue, today) {
        dueSoon := true;
      }
      if InDueWindow(calibrationDue, today) {
        dueSoon := true;
      }
      if dueSoon {
        kept := kept + [e];
      }
      i := i + 1;
    }
    assert queryset[..i] == queryset;
  }

  /** The status filter of the older copy's equipment_list: the status
      parameter selects the overdue records of one kind or the due-soon
      records; any other value leaves the queryset as it is. The total is
      the length the page would show; the view as written fails before it
      renders, because its filter form class is never imported. */
  method LegacyEquipmentList(queryset: seq<Equipment>, today: int, status: string)
    returns (filtered: seq<Equipment>, totalCount: nat)
    ensures status == "overdue_maintenance" ==> filtered == Select(queryset, OverdueFor(Maintenance), today)
    ensures status == "overdue_calibration" ==> filtered == Select(queryset, OverdueFor(Calibration), today)
    ensures status == "due_soon" ==> filtered == Select(queryset, DueSoonAny, today)
    ensures status !in {"overdue_maintenance", "overdue_calibration", "due_soon"} ==> filtered == queryset
    ensures totalCount == |filtered| <= |queryset|
    ensures forall x :: x in filtered ==> x in queryset
  {
    filtered := queryset;
    if status == "overdue_maintenance" {
      filtered := KeepOverdue(queryset, Maintenance, today);
      SelectMembers(queryset, OverdueFor(Maintenance), today);
    } else if status == "overdue_calibration" {
      filtered := KeepOverdue(queryset, Calibration, today);
      SelectMembers(queryset, OverdueFor(Calibration), today);
    } else if status == "due_soon" {
      filtered := KeepDueSoon(queryset, today);
      SelectMembers(queryset, DueSoonAny, today);
    }
    totalCount := |filtered|;
  }

  /** Applying a status filter again to its own result changes nothing:
      each filter keeps exactly the records meeting a fixed condition. */
  lemma LegacyFilterIdempotent(queryset: seq<Equipment>, c: Criterion, today: int)
    ensures Select(Select(queryset, c, today), c, today) == Select(queryset, c, today)
  {
    FilterIdempotent(queryset, e => Matches(e, c, today));
  }

  /** The due-soon filter of the equipment list and the due-soon list of the
      overview dashboard hold the same records when keys are distinct. */
  lemma ListAndDashboardAgreeOnDueSoon(allEquipment: seq<Equipment>, today: int)
    requires DistinctIds(allEquipment)
    ensures Dashboards.DueSoonAfter(allEquipment, today) == Select(allEquipment, DueSoonAny, today)
  {
    Dashboards.DueSoonAfterIsSelect(allEquipment, today);
  }
}
