/**
 * components/Step2.tsx: the six task sliders, their ranges, the running total
 * of weekly hours and the input handler that forwards to updateData.
 */
module Step2 {
  import opened Types
  import opened Constants

  /** A row of the task table: the form key the slider edits, its label and its range. */
  datatype Task = Task(id: Field, name: string, min: real, max: real)

  /** The task table, in display order. */
  const TASKS: seq<Task> := [
    Task(LeadGenHours, "Lead Generation", 0.0, 50.0),
    Task(FollowUpHours, "Customer Follow-ups", 0.0, 40.0),
    Task(DataEntryHours, "Data Entry & Admin", 0.0, 30.0),
    Task(SchedulingHours, "Scheduling & Coordination", 0.0, 25.0),
    Task(ReportingHours, "Reporting & Analytics", 0.0, 20.0),
    Task(EmailHours, "Email Management", 0.0, 25.0)
  ]

  /** `tasks.reduce((sum, task) => sum + data[task.id], acc)`: a left fold. */
  function FoldHours(data: FormData, tasks: seq<Task>, acc: real): real
  {
    if tasks == [] then acc else FoldHours(data, tasks[1..], acc + Get(data, tasks[0].id))
  }

  /** The figure in the "Total Weekly Hours" badge. */
  function TotalWeeklyHours(data: FormData): real
  {
    FoldHours(data, TASKS, 0.0)
  }

  /** The table lists the six hour fields in declaration order; every range starts
      at 0 and the maxima are 50, 40, 30, 25, 20 and 25. */
  lemma TaskTable()
    ensures |TASKS| == |HOUR_FIELDS| == 6
    ensures forall i :: 0 <= i < |TASKS| ==> TASKS[i].id == HOUR_FIELDS[i] && TASKS[i].min == 0.0
    ensures [TASKS[0].max, TASKS[1].max, TASKS[2].max, TASKS[3].max, TASKS[4].max, TASKS[5].max]
      == [50.0, 40.0, 30.0, 25.0, 20.0, 25.0]
  {
  }

  /** The badge shows the sum of the six task fields. */
  lemma TotalIsWeeklyHours(data: FormData)
    ensures TotalWeeklyHours(data) == WeeklyHours(data)
  {
    var t := TASKS;
    var a1 := 0.0 + data.leadGenHours;
    var a2 := a1 + data.followUpHours;
    var a3 := a2 + data.dataEntryHours;
    var a4 := a3 + data.schedulingHours;
    var a5 := a4 + data.reportingHours;
    var a6 := a5 + data.emailHours;
    assert t[6..] == [];
    assert FoldHours(data, t[5..], a5) == a6;
    assert FoldHours(data, t[4..], a4) == FoldHours(data, t[5..], a5);
    assert FoldHours(data, t[3..], a3) == FoldHours(data, t[4..], a4);
    assert FoldHours(data, t[2..], a2) == FoldHours(data, t[3..], a3);
    assert FoldHours(data, t[1..], a1) == FoldHours(data, t[2..], a2);
    assert FoldHours(data, t, 0.0) == FoldHours(data, t[1..], a1);
  }

  /** Every task field lies inside its slider's range. */
  predicate InRange(data: FormData)
  {
    forall i :: 0 <= i < |TASKS| ==> TASKS[i].min <= Get(data, TASKS[i].id) <= TASKS[i].max
  }

  /** Within the slider ranges the total lies in 0..190 (= 50+40+30+25+20+25). */
  lemma TotalBounds(data: FormData)
    requires InRange(data)
    ensures 0.0 <= TotalWeeklyHours(data) <= 190.0
  {
    TotalIsWeeklyHours(data);
    assert Get(data, TASKS[0].id) <= 50.0;
    assert Get(data, TASKS[1].id) <= 40.0;
    assert Get(data, TASKS[2].id) <= 30.0;
    assert Get(data, TASKS[3].id) <= 25.0;
    assert Get(data, TASKS[4].id) <= 20.0;
    assert Get(data, TASKS[5].id) <= 25.0;
  }

  /** The initial hours 20, 16, 12, 8, 6 and 10 all sit inside their ranges (72 hours in all). */
  lemma InitialDataInRange()
    ensures InRange(INITIAL_FORM_DATA)
    ensures TotalWeeklyHours(INITIAL_FORM_DATA) == 72.0
  {
    TotalIsWeeklyHours(INITIAL_FORM_DATA);
  }

  /** handleInputChange: the value (already parsed) goes to the field named by the slider's id. */
  function HandleInputChange(data: FormData, id: Field, value: real): FormData
  {
    With(data, id, value)
  }

  /** Moving the slider of task `i` changes the total by exactly the change of that task. */
  lemma TotalAfterInput(data: FormData, i: nat, value: real)
    requires i < |TASKS|
    ensures TotalWeeklyHours(HandleInputChange(data, TASKS[i].id, value))
      == TotalWeeklyHours(data) - Get(data, TASKS[i].id) + value
  {
    var r := HandleInputChange(data, TASKS[i].id, value);
    TotalIsWeeklyHours(data);
    TotalIsWeeklyHours(r);
  }
}
