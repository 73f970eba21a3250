/** The task-completion views of myapp/views.py: each loads one equipment
    row, sets the last service date of one kind and saves it. */
module Tasks {
  import opened Wrappers
  import opened Models
  import Access

  /** The record after a service of kind k completed on day d: that kind's
      last date becomes d and every other field is kept. */
  function WithServiceDate(e: Equipment, k: Kind, d: int): (r: Equipment)
  {
    match k
    case Calibration => e.(lastCalibrationDate := Some(d))
    case Maintenance => e.(lastMaintenanceDate := Some(d))
  }

  function Other(k: Kind): Kind
  {
    match k
    case Calibration => Maintenance
    case Maintenance => Calibration
  }

  function IntervalOf(e: Equipment, k: Kind): int
  {
    match k
    case Calibration => e.calibrationIntervalDays
    case Maintenance => e.maintenanceIntervalDays
  }

  /** A completed service moves that kind's next date to d plus its
      interval and leaves the other kind's schedule and status alone. */
  lemma ServiceMovesOnlyThatKind(e: Equipment, k: Kind, d: int, today: int)
    ensures NextDate(WithServiceDate(e, k, d), k) == Some(d + IntervalOf(e, k))
    ensures NextDate(WithServiceDate(e, k, d), Other(k)) == NextDate(e, Other(k))
    ensures IsOverdue(WithServiceDate(e, k, d), Other(k), today) == IsOverdue(e, Other(k), today)
    ensures IsOverdue(WithServiceDate(e, k, d), k, today) <==> today > d + IntervalOf(e, k)
    ensures WithServiceDate(e, k, d).machineId == e.machineId
  {
  }

  /** Completing the same service twice on the same day is completing it
      once. */
  lemma ServiceIsIdempotent(e: Equipment, k: Kind, d: int)
    ensures WithServiceDate(WithServiceDate(e, k, d), k, d) == WithServiceDate(e, k, d)
  {
  }

  /** What a completion view does with a request: the kind done and the new
      next date it reports, an unrecognised task type, a request that the
      role gate turns away, the form shown for a GET, or the 405 answer of a
      non-POST request. */
  datatype TaskOutcome =
    | Completed(kind: Kind, nextDue: Option<int>)
    | InvalidTaskType
    | Refused(gate: Access.Gate)
    | FormShown
    | MethodNotAllowed

  /** The roles both completion views admit. */
  const TaskRoles: seq<string> := [Access.Administrator, Access.MaintenanceRole]

  /** The kind named by a posted task type, if any. */
  function TaskKind(taskType: Option<string>): (r: Option<Kind>)
    ensures r == Some(Maintenance) <==> taskType == Some("maintenance")
    ensures r == Some(Calibration) <==> taskType == Some("calibration")
  {
    if taskType == Some("maintenance") then Some(Maintenance)
    else if taskType == Some("calibration") then Some(Calibration)
    else None
  }

  /** Sets one last date of the row and reports the new next date. */
  method SetServiceDate(row: EquipmentRow, k: Kind, d: int) returns (outcome: TaskOutcome)
    modifies row`lastCalibrationDate, row`lastMaintenanceDate
    ensures row.Snapshot() == WithServiceDate(old(row.Snapshot()), k, d)
    ensures outcome == Completed(k, Some(d + IntervalOf(old(row.Snapshot()), k)))
  {
    if k == Maintenance {
      row.lastMaintenanceDate := Some(d);
      outcome := Completed(Maintenance, NextMaintenanceDate(row.Snapshot()));
    } else {
      row.lastCalibrationDate := Some(d);
      outcome := Completed(Calibration, NextCalibrationDate(row.Snapshot()));
    }
  }

  /** mark_task_complete: role_required(['administrator', 'maintenance'])
      turns away everyone else with the row unchanged; a GET shows the form;
      on a POST the completion date falls back to today when it is missing
      or does not parse, task "maintenance" sets only the last maintenance
      date, "calibration" only the last calibration date, and any other task
      type changes nothing. */
  method MarkTaskComplete(user: Access.User, row: EquipmentRow, isPost: bool,
                          taskType: Option<string>, completionDate: Option<int>, today: int)
    returns (outcome: TaskOutcome)
    modifies row`lastCalibrationDate, row`lastMaintenanceDate
    ensures Access.RoleRequired(user, TaskRoles) != Access.CallView ==>
      unchanged(row) && outcome == Refused(Access.RoleRequired(user, TaskRoles))
    ensures Access.RoleRequired(user, TaskRoles) == Access.CallView && !isPost ==>
      unchanged(row) && outcome == FormShown
    ensures Access.RoleRequired(user, TaskRoles) == Access.CallView && isPost && TaskKind(taskType).Some? ==>
      var k := TaskKind(taskType).value;
      var d := completionDate.GetOr(today);
      row.Snapshot() == WithServiceDate(old(row.Snapshot()), k, d) &&
      outcome == Completed(k, Some(d + IntervalOf(old(row.Snapshot()), k)))
    ensures Access.RoleRequired(user, TaskRoles) == Access.CallView && isPost && TaskKind(taskType).None? ==>
      unchanged(row) && outcome == InvalidTaskType
  {
    var gate := Access.RoleRequired(user, TaskRoles);
    if gate != Access.CallView {
      return Refused(gate);
    }
    if !isPost {
      return FormShown;
    }
    var completionDay := completionDate.GetOr(today);
    if taskType == Some("maintenance") {
      outcome := SetServiceDate(row, Maintenance, completionDay);
    } else if taskType == Some("calibration") {
      outcome := SetServiceDate(row, Calibration, completionDay);
    } else {
      outcome := InvalidTaskType;
    }
  }

  /** quick_task_complete: the same role gate, then require_POST answers
      any other method with 405; a POST completes the task with today as
      the completion date and reports the new next date. */
  method QuickTaskComplete(user: Access.User, row: EquipmentRow, isPost: bool,
                           taskType: Option<string>, today: int)
    returns (outcome: TaskOutcome)
    modifies row`lastCalibrationDate, row`lastMaintenanceDate
    ensures Access.RoleRequired(user, TaskRoles) != Access.CallView ==>
      unchanged(row) && outcome == Refused(Access.RoleRequired(user, TaskRoles))
    ensures Access.RoleRequired(user, TaskRoles) == Access.CallView && !isPost ==>
      unchanged(row) && outcome == MethodNotAllowed
    ensures Access.RoleRequired(user, TaskRoles) == Access.CallView && isPost && TaskKind(taskType).Some? ==>
      var k := TaskKind(taskType).value;
      row.Snapshot() == WithServiceDate(old(row.Snapshot()), k, today) &&
      outcome == Completed(k, Some(today + IntervalOf(old(row.Snapshot()), k)))
    ensures Access.RoleRequired(user, TaskRoles) == Access.CallView && isPost && TaskKind(taskType).None? ==>
      unchanged(row) && outcome == InvalidTaskType
  {
    var gate := Access.RoleRequired(user, TaskRoles);
    if gate != Access.CallView {
      return Refused(gate);
    }
    if !isPost {
      return MethodNotAllowed;
    }
    if taskType == Some("maintenance") {
      outcome := SetServiceDate(row, Maintenance, today);
    } else if taskType == Some("calibration") {
      outcome := SetServiceDate(row, Calibration, today);
    } else {
      outcome := InvalidTaskType;
    }
  }

  /** A validated procedure-complete form: its procedure type is one of the
      form's choices and its date parsed. */
  datatype ProcedureForm = ProcedureForm(procedureType: string, completionDate: int)

  /** maintenance_complete_procedure (requiredRole "maintenance") and
      admin_complete_procedure (requiredRole "administrator"): a logged-out
      user, or one whose profile lacks that role, changes nothing; otherwise a valid form sets
      the calibration date when its type is "calibration" and the
      maintenance date for any other type; with no valid form nothing
      changes. */
  method CompleteProcedure(user: Access.User, requiredRole: string, row: EquipmentRow, form: Option<ProcedureForm>)
    returns (permitted: bool)
    modifies row`lastCalibrationDate, row`lastMaintenanceDate
    ensures permitted <==> Access.InlineCheck(user, requiredRole).None?
    ensures permitted && form.Some? ==>
      row.Snapshot() == WithServiceDate(old(row.Snapshot()),
                                        if form.value.procedureType == "calibration" then Calibration else Maintenance,
                                        form.value.completionDate)
    ensures !permitted || form.None? ==> unchanged(row)
  {
    if Access.InlineCheck(user, requiredRole).Some? {
      return false;
    }
    permitted := true;
    if form.Some? {
      var k := if form.value.procedureType == "calibration" then Calibration else Maintenance;
      var _ := SetServiceDate(row, k, form.value.completionDate);
    }
  }
}
