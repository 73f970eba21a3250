/** The field validators of the equipment forms of the older copy
    (Post-Grad-Project-main/S00044234_Maint_Calib_Db/myapp/forms.py):
    machine-key uniqueness with upper-casing, and service dates that may not
    lie in the future. */
module Forms {
  import opened Wrappers
  import opened Models

  const DuplicateIdMessage := "Machine ID already exists."

  /** Python's str.upper on the ASCII letters; other characters are kept. */
  function UpperChar(c: char): char
  {
    if 'a' <= c <= 'z' then (c as int - 32) as char else c
  }

  function Upper(s: string): (r: string)
    ensures |r| == |s|
    ensures forall i :: 0 <= i < |s| ==> r[i] == UpperChar(s[i])
  {
    seq(|s|, i requires 0 <= i < |s| => UpperChar(s[i]))
  }

  /** Upper-casing twice is upper-casing once. */
  lemma UpperIdempotent(s: string)
    ensures Upper(Upper(s)) == Upper(s)
  {
  }

  /** clean_machine_id. instancePk is the primary key of the record being
      edited, "" when a new record is being created (an unsaved instance has
      no key). The key is refused when another record already has it exactly
      as typed; otherwise it is returned upper-cased. */
  function CleanMachineId(machineId: string, instancePk: string, existingIds: set<string>): (r: Result<string, string>)
    ensures instancePk == "" ==> (r.Failure? <==> machineId in existingIds)
    ensures instancePk != "" ==> (r.Failure? <==> machineId in existingIds && machineId != instancePk)
    ensures r.Failure? ==> r.error == DuplicateIdMessage
    ensures r.Success? ==> r.value == Upper(machineId)
  {
    if instancePk != "" then
      if machineId in existingIds - {instancePk} then Failure(DuplicateIdMessage)
      else Success(Upper(machineId))
    else if machineId in existingIds then Failure(DuplicateIdMessage)
    else Success(Upper(machineId))
  }

  /** Saving a record under its own key is never refused as a duplicate. */
  lemma KeepingOwnKeyIsAccepted(machineId: string, existingIds: set<string>)
    requires machineId != ""
    ensures CleanMachineId(machineId, machineId, existingIds) == Success(Upper(machineId))
  {
  }

  /** A key already in upper case that is accepted for a new record is not
      the key of any existing record. */
  lemma AcceptedUpperCaseKeyIsNew(machineId: string, existingIds: set<string>)
    requires Upper(machineId) == machineId
    requires CleanMachineId(machineId, "", existingIds).Success?
    ensures CleanMachineId(machineId, "", existingIds).value !in existingIds
  {
  }

  /** The uniqueness test runs on the key as typed, before upper-casing: a
      new key that differs from an existing one only in letter case passes
      it, and the value returned is that existing key. */
  lemma UniquenessIsCheckedBeforeUpperCasing(machineId: string, existingIds: set<string>)
    requires machineId !in existingIds && Upper(machineId) in existingIds
    ensures CleanMachineId(machineId, "", existingIds) == Success(Upper(machineId))
    ensures CleanMachineId(machineId, "", existingIds).value in existingIds
  {
  }

  /** The message of the not-in-the-future rule for each date field. */
  function FutureDateMessage(k: Kind): string
  {
    match k
    case Calibration => "Calibration date cannot be in the future."
    case Maintenance => "Maintenance date cannot be in the future."
  }

  /** clean_last_calibration_date / clean_last_maintenance_date (the same
      rule in EquipmentForm and QuickUpdateForm): an empty field and any date
      up to today pass unchanged; a date after today is refused. */
  function CleanLastDate(k: Kind, date: Option<int>, today: int): (r: Result<Option<int>, string>)
    ensures r.Failure? <==> date.Some? && date.value > today
    ensures r.Success? ==> r.value == date
    ensures r.Failure? ==> r.error == FutureDateMessage(k)
  {
    if date.Some? && date.value > today then Failure(FutureDateMessage(k))
    else Success(date)
  }

  /** The two dates a quick update saves. */
  datatype ServiceDates = ServiceDates(lastCalibrationDate: Option<int>, lastMaintenanceDate: Option<int>)

  /** Validating both date fields of a form: the dates are saved unchanged
      when neither lies in the future; otherwise each failing field reports
      its own message, calibration first. */
  function CleanServiceDates(lastCalibrationDate: Option<int>, lastMaintenanceDate: Option<int>, today: int)
    : (r: Result<ServiceDates, seq<string>>)
    ensures r.Success? <==>
      !(lastCalibrationDate.Some? && lastCalibrationDate.value > today) &&
      !(lastMaintenanceDate.Some? && lastMaintenanceDate.value > today)
    ensures r.Success? ==> r.value == ServiceDates(lastCalibrationDate, lastMaintenanceDate)
    ensures r.Failure? ==>
      (FutureDateMessage(Calibration) in r.error <==> lastCalibrationDate.Some? && lastCalibrationDate.value > today) &&
      (FutureDateMessage(Maintenance) in r.error <==> lastMaintenanceDate.Some? && lastMaintenanceDate.value > today)
    ensures r.Failure? ==>
      r.error == (if lastCalibrationDate.Some? && lastCalibrationDate.value > today then [FutureDateMessage(Calibration)] else [])
               + (if lastMaintenanceDate.Some? && lastMaintenanceDate.value > today then [FutureDateMessage(Maintenance)] else [])
  {
    var calibration := CleanLastDate(Calibration, lastCalibrationDate, today);
    var maintenance := CleanLastDate(Maintenance, lastMaintenanceDate, today);
    if calibration.Success? && maintenance.Success? then
      Success(ServiceDates(calibration.value, maintenance.value))
    else
      Failure((if calibration.Failure? then [calibration.error] else []) +
              (if maintenance.Failure? then [maintenance.error] else []))
  }
}
