/** The equipment list, detail page and JSON endpoints of myapp/views.py:
    per-record and per-kind status labels, the status filter of the list,
    and the counters of the statistics endpoint. */
module EquipmentViews {
  import opened Wrappers
  import opened Models
  import opened Status

  /** The label shown in the list for a record's class. */
  function StatusDisplay(st: StatusClass): string
  {
    match st
    case Overdue => "Overdue"
    case DueSoon => "Due Soon"
    case Compliant => "Compliant"
  }

  /** The CSS class the list attaches for a record's class. */
  function StatusClassName(st: StatusClass): string
  {
    match st
    case Overdue => "overdue"
    case DueSoon => "due-soon"
    case Compliant => "compliant"
  }

  /** A record together with the status_display and status_class the list
      view attaches to it. */
  datatype ListedEquipment = ListedEquipment(equipment: Equipment, statusDisplay: string, statusClass: string)

  function Items(listed: seq<ListedEquipment>): (r: seq<Equipment>)
    ensures |r| == |listed|
    ensures forall i :: 0 <= i < |listed| ==> r[i] == listed[i].equipment
  {
    seq(|listed|, i requires 0 <= i < |listed| => listed[i].equipment)
  }

  /** The class labels of one record, as the list view assigns them. */
  method ClassifyForList(e: Equipment, today: int) returns (display: string, cls: string)
    ensures display == StatusDisplay(ListClass(e, today))
    ensures cls == StatusClassName(ListClass(e, today))
  {
    display, cls := "Compliant", "compliant";
    if IsMaintenanceOverdue(e, today) || IsCalibrationOverdue(e, today) {
      display, cls := "Overdue", "overdue";
    } else {
      var maintenanceDue := NextMaintenanceDate(e);
      var calibrationDue := NextCalibrationDate(e);
      if InDueWindow(maintenanceDue, today) || InDueWindow(calibrationDue, today) {
        display, cls := "Due Soon", "due-soon";
      }
    }
  }

  /** equipment_list: every record gets exactly one class, overdue taking
      precedence over due soon; status "all" keeps the queryset as it is
      and "overdue", "due_soon" and "compliant" keep exactly the records of
      that class, in order. Any other status value keeps nothing. */
  method EquipmentList(queryset: seq<Equipment>, today: int, status: string)
    returns (listed: seq<ListedEquipment>)
    ensures forall i :: 0 <= i < |listed| ==>
      listed[i].statusClass == StatusClassName(ListClass(listed[i].equipment, today)) &&
      listed[i].statusDisplay == StatusDisplay(ListClass(listed[i].equipment, today))
    ensures Items(listed) == Select(queryset, ListedUnder(status), today)
    ensures status == "all" ==> Items(listed) == queryset
    ensures status == "overdue" ==> Items(listed) == Select(queryset, ListedAs(Overdue), today)
    ensures status == "due_soon" ==> Items(listed) == Select(queryset, ListedAs(DueSoon), today)
    ensures status == "compliant" ==> Items(listed) == Select(queryset, ListedAs(Compliant), today)
    ensures status !in {"all", "overdue", "due_soon", "compliant"} ==> listed == []
  {
    listed := [];
    var i := 0;
    while i < |queryset|
      invariant 0 <= i <= |queryset|
      invariant forall j :: 0 <= j < |listed| ==>
        listed[j].statusClass == StatusClassName(ListClass(listed[j].equipment, today)) &&
        listed[j].statusDisplay == StatusDisplay(ListClass(listed[j].equipment, today))
      invariant Items(listed) == Select(queryset[..i], ListedUnder(status), today)
    {
      var e := queryset[i];
      assert queryset[..i + 1] == queryset[..i] + [e];
      SelectSnoc(queryset[..i], e, ListedUnder(status), today);
      var display, cls := ClassifyForList(e, today);
      var row := ListedEquipment(e, display, cls);
      assert Items(listed + [row]) == Items(listed) + [e];
      if status == "all" {
        listed := listed + [row];
      } else if status == "overdue" && cls == "overdue" {
        listed := listed + [row];
      } else if status == "due_soon" && cls == "due-soon" {
        listed := listed + [row];
      } else if status == "compliant" && cls == "compliant" {
        listed := listed + [row];
      }
      i := i + 1;
    }
    assert queryset[..i] == queryset;
    ListedUnderMeaning(queryset, status, today);
  }

  /** The status block of the detail page. */
  datatype StatusInfo = StatusInfo(
    maintenanceStatus: string, maintenanceClass: string,
    calibrationStatus: string, calibrationClass: string)

  function DetailLabel(st: StatusClass): string
  {
    match st
    case Overdue => "Overdue"
    case DueSoon => "Due Soon"
    case Compliant => "Up to date"
  }

  /** equipment_detail: each kind is labelled overdue when overdue, due soon
      when its next date is in [today, today + 14], and up to date
      otherwise. */
  function EquipmentDetail(e: Equipment, today: int): (r: StatusInfo)
    ensures r.maintenanceClass == "overdue" <==> IsMaintenanceOverdue(e, today)
    ensures r.maintenanceClass == "due-soon" <==> InDueWindow(NextMaintenanceDate(e), today)
    ensures r.maintenanceClass == "compliant" <==>
      !IsMaintenanceOverdue(e, today) && !InDueWindow(NextMaintenanceDate(e), today)
    ensures r.calibrationClass == "overdue" <==> IsCalibrationOverdue(e, today)
    ensures r.calibrationClass == "due-soon" <==> InDueWindow(NextCalibrationDate(e), today)
    ensures r.calibrationClass == "compliant" <==>
      !IsCalibrationOverdue(e, today) && !InDueWindow(NextCalibrationDate(e), today)
    ensures r.maintenanceStatus == "Overdue" <==> IsMaintenanceOverdue(e, today)
    ensures r.maintenanceStatus == "Due Soon" <==> InDueWindow(NextMaintenanceDate(e), today)
    ensures r.maintenanceStatus == "Up to date" <==> r.maintenanceClass == "compliant"
    ensures r.calibrationStatus == "Overdue" <==> IsCalibrationOverdue(e, today)
    ensures r.calibrationStatus == "Due Soon" <==> InDueWindow(NextCalibrationDate(e), today)
    ensures r.calibrationStatus == "Up to date" <==> r.calibrationClass == "compliant"
  {
    var m := KindStatus(e, Maintenance, today);
    var c := KindStatus(e, Calibration, today);
    StatusInfo(DetailLabel(m), StatusClassName(m), DetailLabel(c), StatusClassName(c))
  }

  /** The status string of one kind in the JSON endpoints. */
  function ApiStatus(e: Equipment, k: Kind, today: int): (r: string)
    ensures r == "overdue" <==> IsOverdue(e, k, today)
    ensures r == "due_soon" <==> InDueWindow(NextDate(e, k), today)
    ensures r == "compliant" <==> !IsOverdue(e, k, today) && !InDueWindow(NextDate(e, k), today)
  {
    match KindStatus(e, k, today)
    case Overdue => "overdue"
    case DueSoon => "due_soon"
    case Compliant => "compliant"
  }

  /** One entry of the equipment list endpoint. */
  datatype ApiRow = ApiRow(
    machineId: string,
    maintenanceStatus: string, calibrationStatus: string,
    nextMaintenanceDate: Option<int>, nextCalibrationDate: Option<int>)

  /** equipment_api_list: one entry per record, in order, carrying its id,
      both statuses and both next dates. */
  method EquipmentApiList(records: seq<Equipment>, today: int) returns (data: seq<ApiRow>)
    ensures |data| == |records|
    ensures forall i :: 0 <= i < |records| ==>
      && data[i].machineId == records[i].machineId
      && data[i].maintenanceStatus == ApiStatus(records[i], Maintenance, today)
      && data[i].calibrationStatus == ApiStatus(records[i], Calibration, today)
      && data[i].nextMaintenanceDate == NextMaintenanceDate(records[i])
      && data[i].nextCalibrationDate == NextCalibrationDate(records[i])
  {
    data := [];
    var i := 0;
    while i < |records|
      invariant 0 <= i <= |records| && |data| == i
      invariant forall j :: 0 <= j < i ==>
        && data[j].machineId == records[j].machineId
        && data[j].maintenanceStatus == ApiStatus(records[j], Maintenance, today)
        && data[j].calibrationStatus == ApiStatus(records[j], Calibration, today)
        && data[j].nextMaintenanceDate == NextMaintenanceDate(records[j])
        && data[j].nextCalibrationDate == NextCalibrationDate(records[j])
    {
      var e := records[i];
      var maintenanceStatus := "compliant";
      if IsMaintenanceOverdue(e, today) {
        maintenanceStatus := "overdue";
      } else if InDueWindow(NextMaintenanceDate(e), today) {
        maintenanceStatus := "due_soon";
      }
      var calibrationStatus := "compliant";
      if IsCalibrationOverdue(e, today) {
        calibrationStatus := "overdue";
      } else if InDueWindow(NextCalibrationDate(e), today) {
        calibrationStatus := "due_soon";
      }
      data := data + [ApiRow(e.machineId, maintenanceStatus, calibrationStatus,
                             NextMaintenanceDate(e), NextCalibrationDate(e))];
      i := i + 1;
    }
  }

  /** The counters of the statistics endpoint. */
  datatype Stats = Stats(
    totalEquipment: nat,
    overdueMaintenance: nat, overdueCalibration: nat,
    dueSoonMaintenance: nat, dueSoonCalibration: nat,
    compliant: nat)

  /** How one more record changes each counter of the statistics endpoint,
      in the terms of its loop: per kind overdue, else due soon; compliant
      when neither kind is overdue or due soon. */
  lemma StatsStep(s: seq<Equipment>, e: Equipment, today: int)
    ensures CountOf(s + [e], OverdueFor(Maintenance), today) ==
      CountOf(s, OverdueFor(Maintenance), today) + (if IsMaintenanceOverdue(e, today) then 1 else 0)
    ensures CountOf(s + [e], OverdueFor(Calibration), today) ==
      CountOf(s, OverdueFor(Calibration), today) + (if IsCalibrationOverdue(e, today) then 1 else 0)
    ensures CountOf(s + [e], DueSoonFor(Maintenance), today) ==
      CountOf(s, DueSoonFor(Maintenance), today) +
      (if !IsMaintenanceOverdue(e, today) && InDueWindow(NextMaintenanceDate(e), today) then 1 else 0)
    ensures CountOf(s + [e], DueSoonFor(Calibration), today) ==
      CountOf(s, DueSoonFor(Calibration), today) +
      (if !IsCalibrationOverdue(e, today) && InDueWindow(NextCalibrationDate(e), today) then 1 else 0)
    ensures CountOf(s + [e], ListedAs(Compliant), today) ==
      CountOf(s, ListedAs(Compliant), today) + (if !OverdueEither(e, today) && !DueSoonEither(e, today) then 1 else 0)
  {
    CountSnoc(s, e, OverdueFor(Maintenance), today);
    CountSnoc(s, e, OverdueFor(Calibration), today);
    CountSnoc(s, e, DueSoonFor(Maintenance), today);
    CountSnoc(s, e, DueSoonFor(Calibration), today);
    CountSnoc(s, e, ListedAs(Compliant), today);
  }

  /** equipment_api_stats: per kind a record adds to at most one of overdue
      and due soon; it counts as compliant exactly when it adds to neither
      kind's counters. */
  method EquipmentApiStats(records: seq<Equipment>, today: int) returns (stats: Stats)
    ensures stats.totalEquipment == |records|
    ensures stats.overdueMaintenance == CountOf(records, OverdueFor(Maintenance), today)
    ensures stats.overdueCalibration == CountOf(records, OverdueFor(Calibration), today)
    ensures stats.dueSoonMaintenance == CountOf(records, DueSoonFor(Maintenance), today)
    ensures stats.dueSoonCalibration == CountOf(records, DueSoonFor(Calibration), today)
    ensures stats.compliant == CountOf(records, ListedAs(Compliant), today)
    ensures stats.compliant <= stats.totalEquipment
    ensures stats.overdueMaintenance + stats.dueSoonMaintenance <= stats.totalEquipment
    ensures stats.overdueCalibration + stats.dueSoonCalibration <= stats.totalEquipment
  {
    var overdueMaintenance, overdueCalibration, dueSoonMaintenance, dueSoonCalibration, compliant := 0, 0, 0, 0, 0;
    var i := 0;
    while i < |records|
      invariant 0 <= i <= |records|
      invariant overdueMaintenance == CountOf(records[..i], OverdueFor(Maintenance), today)
      invariant overdueCalibration == CountOf(records[..i], OverdueFor(Calibration), today)
      invariant dueSoonMaintenance == CountOf(records[..i], DueSoonFor(Maintenance), today)
      invariant dueSoonCalibration == CountOf(records[..i], DueSoonFor(Calibration), today)
      invariant compliant == CountOf(records[..i], ListedAs(Compliant), today)
    {
      var e := records[i];
      assert records[..i + 1] == records[..i] + [e];
      StatsStep(records[..i], e, today);
      var isOverdue, isDueSoon := false, false;
      if IsMaintenanceOverdue(e, today) {
        overdueMaintenance := overdueMaintenance + 1;
        isOverdue := true;
      } else if InDueWindow(NextMaintenanceDate(e), today) {
        dueSoonMaintenance := dueSoonMaintenance + 1;
        isDueSoon := true;
      }
      if IsCalibrationOverdue(e, today) {
        overdueCalibration := overdueCalibration + 1;
        isOverdue := true;
      } else if InDueWindow(NextCalibrationDate(e), today) {
        dueSoonCalibration := dueSoonCalibration + 1;
        isDueSoon := true;
      }
      if !isOverdue && !isDueSoon {
        compliant := compliant + 1;
      }
      i := i + 1;
    }
    assert records[..i] == records;
    ListClassesPartition(records, today);
    KindCountsBounded(records, Maintenance, today);
    KindCountsBounded(records, Calibration, today);
    stats := Stats(|records|, overdueMaintenance, overdueCalibration,
                   dueSoonMaintenance, dueSoonCalibration, compliant);
  }
}
