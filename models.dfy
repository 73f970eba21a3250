/** The equipment record of myapp/models.py and its derived due-date
    properties. A date is a day number; "today" is always a parameter. */
module Models {
  import opened Wrappers

  /** Default number of days between calibrations. */
  const DefaultCalibrationIntervalDays: int := 365
  /** Default number of days between maintenance visits. */
  const DefaultMaintenanceIntervalDays: int := 90

  /** The two kinds of scheduled upkeep every record carries. */
  datatype Kind = Calibration | Maintenance

  /** One equipment row as read from the database. The machine identifier is
      the primary key. */
  datatype Equipment = Equipment(
    machineId: string,
    lastCalibrationDate: Option<int>,
    lastMaintenanceDate: Option<int>,
    calibrationIntervalDays: int,
    maintenanceIntervalDays: int)

  /** Next calibration due date: last calibration plus the interval, or
      nothing when the equipment was never calibrated. */
  function NextCalibrationDate(e: Equipment): (r: Option<int>)
    ensures r.Some? <==> e.lastCalibrationDate.Some?
    ensures r.Some? ==> r.value - e.lastCalibrationDate.value == e.calibrationIntervalDays
  {
    match e.lastCalibrationDate
    case Some(last) => Some(last + e.calibrationIntervalDays)
    case None => None
  }

  /** Next maintenance due date: last maintenance plus the interval, or
      nothing when the equipment was never maintained. */
  function NextMaintenanceDate(e: Equipment): (r: Option<int>)
    ensures r.Some? <==> e.lastMaintenanceDate.Some?
    ensures r.Some? ==> r.value - e.lastMaintenanceDate.value == e.maintenanceIntervalDays
  {
    match e.lastMaintenanceDate
    case Some(last) => Some(last + e.maintenanceIntervalDays)
    case None => None
  }

  /** The next due date of the given kind. */
  function NextDate(e: Equipment, k: Kind): (r: Option<int>)
    ensures k == Calibration ==> r == NextCalibrationDate(e)
    ensures k == Maintenance ==> r == NextMaintenanceDate(e)
  {
    match k
    case Calibration => NextCalibrationDate(e)
    case Maintenance => NextMaintenanceDate(e)
  }

  /** Calibration is overdue when its next date has passed; never when there
      is no next date. */
  predicate IsCalibrationOverdue(e: Equipment, today: int)
  {
    match NextCalibrationDate(e)
    case Some(next) => today > next
    case None => false
  }

  /** Maintenance is overdue when its next date has passed; never when there
      is no next date. */
  predicate IsMaintenanceOverdue(e: Equipment, today: int)
  {
    match NextMaintenanceDate(e)
    case Some(next) => today > next
    case None => false
  }

  /** The overdue flag of the given kind. */
  predicate IsOverdue(e: Equipment, k: Kind, today: int)
  {
    match k
    case Calibration => IsCalibrationOverdue(e, today)
    case Maintenance => IsMaintenanceOverdue(e, today)
  }

  /** Days from today to the next calibration; negative once overdue. */
  function DaysUntilCalibration(e: Equipment, today: int): (r: Option<int>)
    ensures r.Some? <==> NextCalibrationDate(e).Some?
    ensures r.Some? ==> today + r.value == NextCalibrationDate(e).value
  {
    match NextCalibrationDate(e)
    case Some(next) => Some(next - today)
    case None => None
  }

  /** Days from today to the next maintenance; negative once overdue. */
  function DaysUntilMaintenance(e: Equipment, today: int): (r: Option<int>)
    ensures r.Some? <==> NextMaintenanceDate(e).Some?
    ensures r.Some? ==> today + r.value == NextMaintenanceDate(e).value
  {
    match NextMaintenanceDate(e)
    case Some(next) => Some(next - today)
    case None => None
  }

  /** Overdue exactly when a next calibration date exists and lies before
      today; a record without a last calibration date is never overdue. */
  lemma CalibrationOverdueMeaning(e: Equipment, today: int)
    ensures IsCalibrationOverdue(e, today) <==>
      e.lastCalibrationDate.Some? && today > e.lastCalibrationDate.value + e.calibrationIntervalDays
    ensures e.lastCalibrationDate.None? ==> !IsCalibrationOverdue(e, today)
  {
  }

  /** Overdue exactly when a next maintenance date exists and lies before
      today; a record without a last maintenance date is never overdue. */
  lemma MaintenanceOverdueMeaning(e: Equipment, today: int)
    ensures IsMaintenanceOverdue(e, today) <==>
      e.lastMaintenanceDate.Some? && today > e.lastMaintenanceDate.value + e.maintenanceIntervalDays
    ensures e.lastMaintenanceDate.None? ==> !IsMaintenanceOverdue(e, today)
  {
  }

  /** The days-remaining figure is negative exactly when the item is overdue,
      for both kinds. */
  lemma DaysUntilNegativeIffOverdue(e: Equipment, today: int)
    ensures (DaysUntilCalibration(e, today).Some? && DaysUntilCalibration(e, today).value < 0)
            <==> IsCalibrationOverdue(e, today)
    ensures (DaysUntilMaintenance(e, today).Some? && DaysUntilMaintenance(e, today).value < 0)
            <==> IsMaintenanceOverdue(e, today)
  {
  }

  /** A record whose last date is today and whose interval is not negative is not
      overdue today and has exactly its interval left. */
  lemma FreshlyServicedIsNotOverdue(e: Equipment, k: Kind, today: int)
    requires k == Calibration ==> e.lastCalibrationDate == Some(today) && e.calibrationIntervalDays >= 0
    requires k == Maintenance ==> e.lastMaintenanceDate == Some(today) && e.maintenanceIntervalDays >= 0
    ensures !IsOverdue(e, k, today)
    ensures k == Calibration ==> DaysUntilCalibration(e, today) == Some(e.calibrationIntervalDays)
    ensures k == Maintenance ==> DaysUntilMaintenance(e, today) == Some(e.maintenanceIntervalDays)
  {
  }

  /** The mutable database object that the task-completion views load, change
      and save. */
  class EquipmentRow {
    const machineId: string
    var lastCalibrationDate: Option<int>
    var lastMaintenanceDate: Option<int>
    var calibrationIntervalDays: int
    var maintenanceIntervalDays: int

    /** A fresh row gets the model's default intervals and no service dates. */
    constructor (id: string)
      ensures machineId == id
      ensures lastCalibrationDate == None && lastMaintenanceDate == None
      ensures calibrationIntervalDays == 365 && maintenanceIntervalDays == 90
    {
      machineId := id;
      lastCalibrationDate := None;
      lastMaintenanceDate := None;
      calibrationIntervalDays := DefaultCalibrationIntervalDays;
      maintenanceIntervalDays := DefaultMaintenanceIntervalDays;
    }

    /** The row's current field values as an equipment record. */
    function Snapshot(): Equipment
      reads this
    {
      Equipment(machineId, lastCalibrationDate, lastMaintenanceDate,
                calibrationIntervalDays, maintenanceIntervalDays)
    }
  }
}
