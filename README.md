# Equipment due dates and status: a Dafny model

This project models the scheduling core of a Django application that tracks
the calibration and maintenance of factory equipment. Each equipment record
holds a last calibration date, a last maintenance date and an interval for
each. From these the application derives:

- the next due dates, the overdue flags and the days remaining;
- a status per kind: overdue, due soon (next date within the coming 14 days)
  or compliant;
- the lists and counters of the role dashboards, the equipment list, the
  detail page, the JSON endpoints and the upcoming-tasks chart.

It also routes users to a dashboard by role and guards views by role. It
records completed tasks by setting one date field. Its forms validate
machine keys and service dates.

Dates are integers that count days, and "today" is always a parameter. A
queryset, after the database has applied its search and type filters, is a
sequence of `Models.Equipment` values. The row that the task-completion views
load, change and save is the class `Models.EquipmentRow`.

Modules:

- `Wrappers`: `Option` (Python's `None`) and `Result` (a cleaned value or a
  validation message).
- `Models`: the record, the default intervals and the derived properties
  (myapp/models.py).
- `Status`: per-kind and per-record classification. Also `Select`, the
  order-preserving choice of records by a criterion, which every list and
  counter is specified by.
- `Access`: role routing, the `role_required` gate, and the inline role
  check.
- `Dashboards`: the administrator, quality and maintenance dashboards.
- `EquipmentViews`: the equipment list, the detail page, and the list and
  statistics endpoints.
- `LegacyViews`: the overview dashboard and the list filter of the older copy
  under Post-Grad-Project-main/S00044234_Maint_Calib_Db.
- `Charts`: the counting loop of the upcoming-tasks chart.
- `Forms`: the validators of the older copy's equipment forms.
- `Tasks`: the task-completion views.

Some properties need records to have distinct keys. The machine id is the
primary key, and Django's `equipment in due_soon` compares primary keys, so
this fact is stated as `Status.DistinctIds`. Where it matters it appears as
an implication (`DistinctIds(records) ==> ...`). The facts about keys alone
(no key twice; every due-soon record's key present) hold unconditionally.

The older copy's `role_required`
(Post-Grad-Project-main/S00044234_Maint_Calib_Db/myapp/views.py:42-58) is
identical to the one in myapp/views.py:22-38. It is modelled once, as
`Access.RoleRequired`. In that file the `dashboard` defined at line 230
replaces the routing `dashboard` at line 24, so only the later one is
modelled (`LegacyViews.OverviewDashboard`). Its loop is the same as the
administrator dashboard's and reuses `Dashboards.OverviewLists`. The model
file of the older copy is not part of this model. Its views are read against
the `Equipment` of myapp/models.py.

## Model

| member | source | states |
|---|---|---|
| `Models.NextCalibrationDate` | myapp/models.py:89-94 | present exactly when a last calibration date is present, and then equal to that date plus the calibration interval |
| `Models.NextMaintenanceDate` | myapp/models.py:96-101 | present exactly when a last maintenance date is present, and then equal to that date plus the maintenance interval |
| `Models.CalibrationOverdueMeaning` | myapp/models.py:103-109 | calibration is overdue exactly when a last date exists and today is after last date plus interval; never without a last date |
| `Models.MaintenanceOverdueMeaning` | myapp/models.py:111-117 | maintenance is overdue exactly when a last date exists and today is after last date plus interval; never without a last date |
| `Models.DaysUntilCalibration` | myapp/models.py:119-125 | present exactly when a next calibration date exists, and then today plus the result is that date |
| `Models.DaysUntilMaintenance` | myapp/models.py:127-133 | present exactly when a next maintenance date exists, and then today plus the result is that date |
| `Models.DaysUntilNegativeIffOverdue` | myapp/models.py:119-133 | for both kinds the days remaining are negative exactly when the kind is overdue |
| `Models.FreshlyServicedIsNotOverdue` | myapp/models.py:103-133 | a kind serviced today with a non-negative interval is not overdue and has exactly its interval left |
| `Models.EquipmentRow.constructor` | myapp/models.py:64-74 | a new row has no service dates and the default intervals of 365 and 90 days |
| `Status.KindStatus` | myapp/views.py:611-625 | per kind: overdue exactly when overdue; due soon exactly when the next date lies in [today, today + 14]; compliant exactly when neither |
| `Status.ListClass` | myapp/views.py:540-556 | a record's single class: overdue exactly when either kind is overdue, due soon exactly when neither is overdue and either next date is in the window, compliant otherwise |
| `Status.ListClassFromKinds` | myapp/views.py:540-556 | the record class is overdue exactly when some kind's status is overdue, and compliant exactly when both kinds' statuses are compliant |
| `Status.SelectMembers` | myapp/views.py:215-225 | a record is in an append-if-matching list exactly when it is in the queryset and matches |
| `Status.ListedUnderMeaning` | myapp/views.py:558-566 | the list's status filter: "all" keeps the queryset, "overdue"/"due_soon"/"compliant" keep that class, any other value keeps nothing |
| `Status.ListClassesPartition` | myapp/views.py:540-566 | the three class counts add up to the number of records |
| `Status.KindCountsBounded` | myapp/views.py:811-825 | per kind the overdue and due-soon counts together are at most the number of records |
| `Status.FirstN` | myapp/views.py:265-267 | the first min(n, length) records, a prefix of the list |
| `Access.Dashboard` | myapp/views.py:105-121 | administrator, maintenance and quality roles go to their dashboards; any other role or a missing profile goes to the default dashboard; logged-out users go to login |
| `Access.RoleRequired` | myapp/views.py:22-38 | logged-out users are sent to login; the view runs exactly when the profile's role is in the allowed list; otherwise forbidden, with "Profile not found." when there is no profile and "You don't have permission to access this page." when there is one |
| `Access.InlineCheck` | myapp/views.py:277-283 | login_required and the inline check: logged-out users go to login, logged-in users without exactly that profile role go home, and the view goes on exactly otherwise |
| `Access.InlineCheckAgreesWithDecorator` | myapp/views.py:277-283 | login_required with the inline role check lets a user through exactly when role_required with that one role would call the view, and both send logged-out users to login |
| `Dashboards.Summarize` | myapp/views.py:261-267 | the counts are the full lengths; each shown list is the prefix of its full list of length min(limit, full length), Python's `xs[:limit]` |
| `Dashboards.AppendIfDueSoon` | myapp/views.py:228-236 | a record with either next date in the window is appended once, unless its key is already in the list |
| `Dashboards.DueSoonAfterDistinct` | myapp/views.py:231-236 | the due-soon list never holds a key twice |
| `Dashboards.DueSoonAfterMembers` | myapp/views.py:231-236 | the due-soon list holds only queryset records with either next date in [today, today + 14] |
| `Dashboards.DueSoonAfterCovers` | myapp/views.py:231-236 | every queryset record with either next date in the window has its key in the due-soon list |
| `Dashboards.DueSoonAfterIsSelect` | myapp/views.py:215-236 | with distinct keys the due-soon list is exactly the due-soon records in queryset order |
| `Dashboards.OverviewLists` | myapp/views.py:215-236 | the overdue lists are the overdue records of each kind in order; the due-soon list has the three properties above |
| `Dashboards.AdminDashboard` | myapp/views.py:238-267 | the status filter picks one full list (queryset otherwise); counts are full lengths; shown lists are the first 3 |
| `Dashboards.CompliantAfterMembers` | myapp/views.py:459-461 | every record added as compliant is in the queryset and of class compliant |
| `Dashboards.CompliantAfterIsSelect` | myapp/views.py:432-461 | with distinct keys the compliant list is exactly the compliant records in order |
| `Dashboards.QualityLists` | myapp/views.py:432-461 | the loop's four lists: overdue per kind, due soon without repeated keys, and compliant as above |
| `Dashboards.QualityDashboard` | myapp/views.py:463-500 | the status filter (compliant included) picks one full list; counts are full lengths; shown lists are the first 5 |
| `Dashboards.CompliantDisjoint` | myapp/views.py:459-461 | a compliant record is in neither overdue list nor the due-soon list |
| `Dashboards.UniqueById` | myapp/views.py:347 | the union without repeated keys: distinct keys, only given records, every given key present |
| `Dashboards.KindLists` | myapp/views.py:320-338 | per kind, the overdue records, and the records that are not overdue and have the next date in the window |
| `Dashboards.DueLists` | myapp/views.py:357-366 | per kind, the records of all equipment whose next date is no later than today + 14 |
| `Dashboards.DueSoonUnionMeaning` | myapp/views.py:345-347 | the due_soon filter holds each queryset record that is due soon for some kind, and only such records, each key once |
| `Dashboards.MaintenanceDashboard` | myapp/views.py:277-393 | only a logged-in user with a maintenance-role profile gets the page; its lists, filter and totals are the ones above |
| `Dashboards.DueWithinIsOverdueOrDueSoon` | myapp/views.py:357-366 | due within two weeks is exactly overdue or due soon for that kind |
| `EquipmentViews.ClassifyForList` | myapp/views.py:541-556 | the label and CSS class are those of the record's single class |
| `EquipmentViews.EquipmentList` | myapp/views.py:540-566 | every listed record carries its class labels; the kept records are those of ListedUnderMeaning, in order |
| `EquipmentViews.EquipmentDetail` | myapp/views.py:604-625 | each kind's class is overdue, due-soon or compliant exactly under its status condition; its label is "Overdue" exactly when overdue, "Due Soon" exactly when the next date is in the window, "Up to date" exactly for compliant |
| `EquipmentViews.ApiStatus` | myapp/views.py:882-894 | the per-kind status string is "overdue", "due_soon" or "compliant" exactly under the status conditions |
| `EquipmentViews.EquipmentApiList` | myapp/views.py:941-966 | one entry per record in order, with its key, both statuses and both next dates |
| `EquipmentViews.StatsStep` | myapp/views.py:807-829 | one more record adds to a kind's overdue counter when overdue, else to its due-soon counter when in the window, and to compliant when neither kind is overdue or due soon |
| `EquipmentViews.EquipmentApiStats` | myapp/views.py:807-829 | each counter is the number of records of its kind and status; compliant counts the compliant class; per-kind and compliant bounds by the total |
| `LegacyViews.OverviewDashboard` | Post-Grad-Project-main/S00044234_Maint_Calib_Db/myapp/views.py:230-269 | total is all equipment; counts are full lengths; shown lists are the first 5; due-soon list without repeated keys, only due-soon records |
| `LegacyViews.KeepOverdue` | Post-Grad-Project-main/S00044234_Maint_Calib_Db/myapp/views.py:298-310 | exactly the records overdue for that kind, in order |
| `LegacyViews.KeepDueSoon` | Post-Grad-Project-main/S00044234_Maint_Calib_Db/myapp/views.py:312-326 | exactly the records with either next date in [today, today + 14], in order |
| `LegacyViews.LegacyEquipmentList` | Post-Grad-Project-main/S00044234_Maint_Calib_Db/myapp/views.py:298-326 | the three status values select as above; any other keeps the queryset; the total is the result's length |
| `LegacyViews.LegacyFilterIdempotent` | Post-Grad-Project-main/S00044234_Maint_Calib_Db/myapp/views.py:298-326 | applying a status filter to its own result changes nothing |
| `LegacyViews.ListAndDashboardAgreeOnDueSoon` | Post-Grad-Project-main/S00044234_Maint_Calib_Db/myapp/views.py:242-257 | with distinct keys the dashboard's due-soon list equals the list's due-soon filter |
| `Charts.BucketOf` | myapp/utils/charts.py:34-49 | no bucket without a date; before today, up to today + 7, up to today + 14, or later, each exactly under its range |
| `Charts.CountNextDate` | myapp/utils/charts.py:34-41 | one next date adds one to exactly the bar its bucket names, and nothing when it has no bucket bar |
| `Charts.UpcomingTaskCounts` | myapp/utils/charts.py:20-49 | the three counters are the numbers of next dates in their buckets; together at most twice the records |
| `Charts.TallyTotal` | myapp/utils/charts.py:32-49 | the four buckets and the missing dates make up exactly two per record |
| `Charts.PastDueIsOverdue` | myapp/utils/charts.py:35-45 | the overdue bar equals the number of calibration-overdue plus maintenance-overdue records |
| `Charts.WeekBarsAreDueSoon` | myapp/utils/charts.py:37-49 | the two week bars together equal the per-kind due-soon counts of the views |
| `Charts.UndatedRecordAddsNothing` | myapp/utils/charts.py:34-43 | a record with no service dates changes no bar |
| `Forms.Upper` | Post-Grad-Project-main/S00044234_Maint_Calib_Db/myapp/forms.py:113 | same length, each character upper-cased |
| `Forms.UpperIdempotent` | Post-Grad-Project-main/S00044234_Maint_Calib_Db/myapp/forms.py:113 | upper-casing an upper-cased key changes nothing |
| `Forms.CleanMachineId` | Post-Grad-Project-main/S00044234_Maint_Calib_Db/myapp/forms.py:99-113 | creating: refused exactly when the key exists; updating: refused exactly when another record has it; the message; accepted keys are returned upper-cased |
| `Forms.KeepingOwnKeyIsAccepted` | Post-Grad-Project-main/S00044234_Maint_Calib_Db/myapp/forms.py:104-107 | a record keeping its own key is not refused |
| `Forms.AcceptedUpperCaseKeyIsNew` | Post-Grad-Project-main/S00044234_Maint_Calib_Db/myapp/forms.py:108-111 | an upper-case key accepted for a new record is no existing key |
| `Forms.UniquenessIsCheckedBeforeUpperCasing` | Post-Grad-Project-main/S00044234_Maint_Calib_Db/myapp/forms.py:101-113 | a new key differing from an existing one only in letter case passes, and the value returned is the existing key |
| `Forms.CleanLastDate` | Post-Grad-Project-main/S00044234_Maint_Calib_Db/myapp/forms.py:115-127 | refused exactly when a date is given and it is after today, with the field's message; otherwise returned unchanged |
| `Forms.CleanServiceDates` | Post-Grad-Project-main/S00044234_Maint_Calib_Db/myapp/forms.py:151-163 | accepted exactly when neither date is in the future, dates unchanged; otherwise each failing field's message is reported |
| `Tasks.ServiceMovesOnlyThatKind` | myapp/views.py:652-665 | after a service the kind's next date is the completion day plus its interval; the other kind's next date and overdue flag are unchanged |
| `Tasks.ServiceIsIdempotent` | myapp/views.py:652-665 | completing the same service twice on one day equals completing it once |
| `Tasks.TaskKind` | myapp/views.py:652-668 | "maintenance" and "calibration" name their kinds, and nothing else names a kind |
| `Tasks.SetServiceDate` | myapp/views.py:652-665 | the row changes only in that kind's last date, and the reported next date is the day plus the interval |
| `Tasks.MarkTaskComplete` | myapp/views.py:634-686 | role_required(['administrator', 'maintenance']) turns others away with the row unchanged; a GET only shows the form; on a POST the completion date falls back to today, a known task type sets only its date, any other changes nothing |
| `Tasks.QuickTaskComplete` | myapp/views.py:688-725 | the same role gate; require_POST answers any other method with 405 and no change; a POST completes as above with today as the date, reporting the new next date |
| `Tasks.CompleteProcedure` | myapp/views.py:1019-1047 | only a logged-in user with the required profile role may proceed; a valid form sets the calibration date for "calibration" and the maintenance date otherwise; nothing changes else |

## Left out

- The ORM: search (`icontains`), type filters, ordering, `save`/`delete` and `Paginator`. The queryset is an input sequence that is already filtered and ordered.
- The clock: `timezone.now().date()` and the chart's `datetime.now().date()` are both the parameter `today`. The difference between local and UTC dates is not modelled.
- Date range: Python dates overflow outside years 1 to 9999. Day numbers here are unbounded integers.
- Date parsing: `strptime` in `mark_task_complete` becomes an optional completion day. A missing or unparsable value is `None` and falls back to today.
- Compliance percentage (myapp/views.py:476, 832-835): this is float division with `round`.
- Context values that are plain database counts (`total_users`, `Equipment.objects.count()`) and `has_filters`. Where a page total is of the same queryset, it is modelled as its length.
- Framework plumbing: sessions, messages, templates, HTTP redirects, JSON serialisation with `strftime`/`isoformat` and logging. `login_required` sends logged-out users to login, as `Access.RoleRequired` does, so the gates of the task views are modelled by that function alone. For the views with an inline role check, `login_required` is the first step of `Access.InlineCheck`. A GET of `mark_task_complete` is the outcome `FormShown`; the form's content is not modelled.
- The plotting and base64 encoding of myapp/utils/charts.py:8-18, 51-67.
- The profile signals of myapp/models.py:33-47.
- The first `equipment_api_status` (myapp/views.py:731-787) and the unreachable text after `return` at 849-870. The second definition at 874 replaces the first, and the two compute the same statuses.
- The module-level clean functions of myapp/forms.py:71-99. They are not attached to any form.
- Stub views, `admin.py`, `urls.py`, `wsgi.py`, the population command and the test files.
- Forms.UpperChar: only ASCII letters are upper-cased. Python's `str.upper` also maps other letters.
- Model-level uniqueness validation that Django runs after the field validators is not part of this model. `Forms.UniquenessIsCheckedBeforeUpperCasing` is about `clean_machine_id` alone. It also assumes that the database compares keys exactly and case-sensitively in `filter(machine_id=...)` (forms.py:106, 110), as the model does by comparing its existing keys as exact strings. A database collation that ignores case would refuse the lower-case key there.
- Dashboards.UniqueById: `list(set(...))` of the maintenance dashboard has no defined order. The model keeps first occurrences in order, and its contract speaks only of contents and distinct keys.
- Dashboards.MaintenanceDashboard: the due-soon filter is stated by contents and keys (see `Dashboards.UniqueById`), not as an exact sequence.
- Attributes set on the record objects (`status_display`, `status_class`) are returned beside each record (`EquipmentViews.ListedEquipment`), not written into the record.
- Tasks.CompleteProcedure: form validation of `ProcedureCompleteForm` is reduced to an optional validated form.
- Tasks.CompleteProcedure, Tasks.MarkTaskComplete, Tasks.QuickTaskComplete, EquipmentViews.EquipmentDetail: `get_object_or_404` (myapp/views.py:638, 694, 1029, 598) answers 404 for a missing key. These members take an existing record, so the 404 answer is not modelled.
- Role checks on the views themselves: the decorators of the dashboards are `Access.RoleRequired`, and the task views apply it to `Tasks.TaskRoles`. The unprotected `admin_dashboard` (no decorator at myapp/views.py:183) is modelled without a gate.
- LegacyViews.LegacyEquipmentList: the older copy's views file imports only `CustomUserCreationForm` and `EquipmentForm` from its forms (Post-Grad-Project-main/S00044234_Maint_Calib_Db/myapp/views.py:10, 16), yet line 334 builds an `EquipmentFilterForm`. Read as written, every request to that `equipment_list` fails with a `NameError` after the status filter of lines 298-326, so no page and no `total_count` (line 348) is produced. The model gives the filter computed before that failure, and `totalCount` is the length line 348 would have shown.
- Forms.CleanServiceDates: the same file builds `QuickUpdateForm` (lines 425, 431) without importing it, so the one view of that copy which would run these validators fails at that point. The model states the validators of forms.py:151-163 on their own.
