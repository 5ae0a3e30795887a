/** The header of a test case's incident page: the incident status it
    shows and how severity, status and assignee updates change it and the
    resolution history shared with the activity feed; the open task it
    follows; the column of a column-level test; the edit permissions. */
module IncidentManagerPageHeader {
  import opened Wrappers
  import opened JsValues
  import opened JavaStrings
  import opened EntityPageCommon

  /** The stages of an incident. */
  datatype StatusType = New | Ack | Assigned | Resolved

  /** A test case resolution status: its own id, the incident (state) it
      belongs to, its stage, severity, details and test case. */
  datatype ResolutionStatus = ResolutionStatus(
    id: Option<string>,
    stateId: Option<string>,
    statusType: StatusType,
    severity: Option<string>,
    details: Object,
    testCaseReferenceFqn: Option<string>)

  /** An activity-feed thread and, for a task thread, its task. */
  datatype TaskStatus = Open | Closed
  datatype ThreadTask = ThreadTask(status: TaskStatus, testCaseResolutionStatusId: Option<string>)
  datatype Thread = Thread(id: string, task: Option<ThreadTask>)

  /** The request that records a new assignee. */
  datatype CreateResolutionStatus = CreateResolutionStatus(
    severity: Option<string>,
    testCaseReference: string,
    statusType: StatusType,
    assignee: Value)

  datatype HeaderPermissions = HeaderPermissions(editStatus: bool, editOwner: bool)

  /** `testCasePermission?.EditAll || testCasePermission?.X`. */
  function HeaderPermissionsOf(p: Option<Permissions>): (r: HeaderPermissions)
    ensures p.None? ==> !r.editStatus && !r.editOwner
    ensures p.Some? ==> (r.editStatus <==> Allowed(p.value, "EditAll") || Allowed(p.value, "EditStatus"))
    ensures p.Some? ==> (r.editOwner <==> Allowed(p.value, "EditAll") || Allowed(p.value, "EditOwners"))
  {
    match p
    case None => HeaderPermissions(false, false)
    case Some(q) =>
      HeaderPermissions(Allowed(q, "EditAll") || Allowed(q, "EditStatus"), Allowed(q, "EditAll") || Allowed(q, "EditOwners"))
  }

  /** `columnName`: for an entity link of a column, the column name
      `getColumnNameFromEntityLink` extracts; null otherwise. */
  function ColumnName(entityLink: Option<string>, getColumnName: string -> string): (r: Option<string>)
    ensures r.Some? <==> entityLink.Some? && Contains(entityLink.value, "::columns::")
    ensures r.Some? ==> r.value == getColumnName(entityLink.value)
  {
    if entityLink.Some? && Contains(entityLink.value, "::columns::") then Some(getColumnName(entityLink.value))
    else None
  }

  /** A link to a table column is recognised as a column link. */
  lemma ColumnLinkHasColumnName(table: string, column: string, getColumnName: string -> string)
    ensures ColumnName(Some(table + "::columns::" + column), getColumnName).Some?
  {
    var link := table + "::columns::" + column;
    assert link[|table|..|table| + 11] == "::columns::";
    assert OccursAt(link, "::columns::", |table|);
  }

  /** `array.slice(0, -1)`: all but the last element. */
  function DropLast<T>(s: seq<T>): (r: seq<T>)
    ensures s == [] ==> r == []
    ensures s != [] ==> r == s[..|s| - 1]
  {
    if s == [] then [] else s[..|s| - 1]
  }

  /** Thread `i` is the first open task thread. */
  predicate FirstOpenAt(threads: seq<Thread>, i: int)
  {
    0 <= i < |threads| && IsOpenTask(threads[i]) && forall j :: 0 <= j < i ==> !IsOpenTask(threads[j])
  }

  /** The first open task thread, as `entityThread.find(...)`. */
  function FirstOpenTask(threads: seq<Thread>): (r: Option<Thread>)
    ensures r.None? <==> forall i :: 0 <= i < |threads| ==> !IsOpenTask(threads[i])
    ensures r.Some? ==> exists i :: FirstOpenAt(threads, i) && threads[i] == r.value
  {
    if threads == [] then None
    else if IsOpenTask(threads[0]) then
      assert FirstOpenAt(threads, 0);
      Some(threads[0])
    else
      var r := FirstOpenTask(threads[1..]);
      assert r.Some? ==> exists i :: FirstOpenAt(threads, i) && threads[i] == r.value by {
        if r.Some? {
          var i :| FirstOpenAt(threads[1..], i) && threads[1..][i] == r.value;
          assert threads[i + 1] == r.value;
          forall j | 0 <= j < i + 1 ensures !IsOpenTask(threads[j]) {
            if j > 0 { assert threads[j] == threads[1..][j - 1]; }
          }
          assert FirstOpenAt(threads, i + 1);
        }
      }
      r
  }

  predicate IsOpenTask(t: Thread)
  {
    t.task.Some? && t.task.value.status == Open
  }

  function LastOf(history: seq<ResolutionStatus>): Option<ResolutionStatus>
  {
    if history == [] then None else Some(history[|history| - 1])
  }

  /** `status?.stateId === activeTask?.task?.testCaseResolutionStatusId`,
      in which two undefined sides are equal. */
  predicate SameIncident(status: Option<ResolutionStatus>, activeTask: Option<Thread>)
  {
    var stateId := if status.Some? then status.value.stateId else None;
    var taskId := if activeTask.Some? && activeTask.value.task.Some? then activeTask.value.task.value.testCaseResolutionStatusId else None;
    stateId == taskId
  }

  /** The header state; `history` is the resolution history the activity
      feed provider holds and `updateTestCaseIncidentStatus` replaces. */
  class IncidentHeaderState {
    var testCaseStatusData: Option<ResolutionStatus>
    var history: seq<ResolutionStatus>
    var activeTask: Option<Thread>

    constructor(initialHistory: seq<ResolutionStatus>)
      ensures testCaseStatusData.None? && activeTask.None? && history == initialHistory
    {
      testCaseStatusData := None;
      history := initialHistory;
      activeTask := None;
    }

    /** `handleSeverityUpdate`: once the patch request succeeds the status
        takes the new severity and replaces the last history entry; with no
        status, or when the request fails, nothing changes. */
    method HandleSeverityUpdate(severity: string, requestSucceeds: bool)
      modifies this
      ensures old(testCaseStatusData).None? || !requestSucceeds ==>
        testCaseStatusData == old(testCaseStatusData) && history == old(history)
      ensures old(testCaseStatusData).Some? && requestSucceeds ==>
        testCaseStatusData == Some(old(testCaseStatusData).value.(severity := Some(severity))) &&
        history == DropLast(old(history)) + [testCaseStatusData.value]
      ensures activeTask == old(activeTask)
    {
      if testCaseStatusData.Some? && requestSucceeds {
        var updatedData := testCaseStatusData.value.(severity := Some(severity));
        testCaseStatusData := Some(updatedData);
        history := DropLast(history) + [updatedData];
      }
    }

    /** `onIncidentStatusUpdate`: the new status is shown and appended. */
    method OnIncidentStatusUpdate(data: ResolutionStatus)
      modifies this
      ensures testCaseStatusData == Some(data) && history == old(history) + [data]
      ensures activeTask == old(activeTask)
    {
      testCaseStatusData := Some(data);
      history := history + [data];
    }

    /** `handleAssigneeUpdate`: the first of the chosen assignees is
        recorded; the shown status moves to Assigned with that assignee in
        its details and is appended to the history. */
    method HandleAssigneeUpdate(assignee: Value) returns (request: Option<CreateResolutionStatus>)
      modifies this
      ensures old(testCaseStatusData).None? ==>
        request.None? && testCaseStatusData == old(testCaseStatusData) && history == old(history)
      ensures old(testCaseStatusData).Some? ==>
        var s := old(testCaseStatusData).value;
        var first := if |Items(assignee)| > 0 then Items(assignee)[0] else Undefined;
        request == Some(CreateResolutionStatus(s.severity, s.testCaseReferenceFqn.GetOr(""), Assigned, first)) &&
        testCaseStatusData == Some(s.(details := SetProps(s.details, map["assignee" := first]), statusType := Assigned)) &&
        history == old(history) + [testCaseStatusData.value]
      ensures activeTask == old(activeTask)
    {
      request := None;
      if testCaseStatusData.Some? {
        var s := testCaseStatusData.value;
        var first := if |Items(assignee)| > 0 then Items(assignee)[0] else Undefined;
        var updatedData := s.(details := SetProps(s.details, map["assignee" := first]), statusType := Assigned);
        request := Some(CreateResolutionStatus(s.severity, s.testCaseReferenceFqn.GetOr(""), Assigned, first));
        OnIncidentStatusUpdate(updatedData);
      }
    }

    /** The effect on the test case: for a test case with an incident id,
        the first status of that incident's list is shown; an empty list or
        a failed request shows none. `response` is None when it fails. */
    method FetchTestCaseResolution(incidentId: Option<string>, response: Option<seq<ResolutionStatus>>)
      modifies this
      ensures incidentId.None? || incidentId.value == "" ==> testCaseStatusData == old(testCaseStatusData)
      ensures incidentId.Some? && incidentId.value != "" ==>
        testCaseStatusData == if response.Some? && response.value != [] then Some(response.value[0]) else None
      ensures history == old(history) && activeTask == old(activeTask)
    {
      if incidentId.Some? && incidentId.value != "" {
        match response {
          case Some(data) => testCaseStatusData := if data != [] then Some(data[0]) else None;
          case None => testCaseStatusData := None;
        }
      }
    }

    /** The effect on the thread list: the first open task becomes active. */
    method SelectActiveTask(entityThread: seq<Thread>)
      modifies this
      ensures activeTask == FirstOpenTask(entityThread)
      ensures testCaseStatusData == old(testCaseStatusData) && history == old(history)
    {
      activeTask := FirstOpenTask(entityThread);
    }

    /** The effect on the history: when its last entry belongs to the active
        task's incident, a resolved entry clears the shown status (and asks
        for the open-task count again) and any other entry is shown. */
    method OnHistoryChange() returns (fetchTaskCount: bool)
      modifies this
      ensures var status := LastOf(old(history));
        (!SameIncident(status, old(activeTask)) ==> !fetchTaskCount && testCaseStatusData == old(testCaseStatusData)) &&
        (SameIncident(status, old(activeTask)) && status.Some? && status.value.statusType == Resolved ==>
          fetchTaskCount && testCaseStatusData.None?) &&
        (SameIncident(status, old(activeTask)) && !(status.Some? && status.value.statusType == Resolved) ==>
          !fetchTaskCount && testCaseStatusData == status)
      ensures old(history) == [] && old(activeTask).None? ==> !fetchTaskCount && testCaseStatusData.None?
      ensures history == old(history) && activeTask == old(activeTask)
    {
      var status := LastOf(history);
      fetchTaskCount := false;
      if SameIncident(status, activeTask) {
        if status.Some? && status.value.statusType == Resolved {
          testCaseStatusData := None;
          fetchTaskCount := true;
        } else {
          testCaseStatusData := status;
        }
      }
    }
  }

}
