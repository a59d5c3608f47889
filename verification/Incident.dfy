/** A field event and its response deadline (`internal/domain/incident.go`). */
module Incidents {
  import opened Common

  datatype IncidentStatus = Reported | Assigned | Handling | Closed

  datatype IncidentType = Fire | Pest | Other | Unrecognised

  datatype Incident = Incident(
    id: string, workOrderId: string, kind: IncidentType, status: IncidentStatus, reporter: string,
    handler: string, reportedAt: Time, assignedAt: Time, closedAt: Time, breached: bool, issueId: string)

  datatype IncidentError =
    | WrongStatus | NoHandler | IncidentNotFound | NoId | NoWorkOrder | UnknownType | NoIssueId

  function Successors(s: IncidentStatus): seq<IncidentStatus> {
    match s
    case Reported => [Assigned]
    case Assigned => [Handling, Closed]
    case Handling => [Closed]
    case Closed => []
  }

  function AssignedTo(i: Incident, handler: string, sla: Time, now: Time): Result<Incident, IncidentError> {
    if i.status != Reported then Err(WrongStatus)
    else if handler == "" then Err(NoHandler)
    else Ok(i.(status := Assigned, handler := handler, assignedAt := now, breached := now - i.reportedAt > sla))
  }

  function HandlingOf(i: Incident): Result<Incident, IncidentError> {
    if i.status != Assigned then Err(WrongStatus) else Ok(i.(status := Handling))
  }

  function ClosedAt(i: Incident, now: Time): Result<Incident, IncidentError> {
    if Closed !in Successors(i.status) then Err(WrongStatus) else Ok(i.(status := Closed, closedAt := now))
  }

  predicate IsSlaBreached(i: Incident, sla: Time, now: Time) {
    if i.status != Reported then i.breached else now - i.reportedAt > sla
  }

  /** What the monitor checks again under the lock before it sets the flag. */
  predicate CanFlag(i: Incident) {
    i.status == Reported && !i.breached
  }

  function Fault(i: Incident): Option<IncidentError> {
    if i.id == "" then Some(NoId)
    else if i.workOrderId == "" then Some(NoWorkOrder)
    else if i.kind == Unrecognised then Some(UnknownType)
    else if i.issueId == "" then Some(NoIssueId)
    else None
  }

  class IncidentRecord {
    const original: Incident
    var status: IncidentStatus
    var handler: string
    var assignedAt: Time
    var closedAt: Time
    var breached: bool

    constructor Load(i: Incident)
      ensures View() == i
    {
      original := i;
      status, handler, assignedAt, closedAt, breached := i.status, i.handler, i.assignedAt, i.closedAt, i.breached;
    }

    function View(): Incident
      reads this
    {
      original.(status := status, handler := handler, assignedAt := assignedAt, closedAt := closedAt, breached := breached)
    }

    method Assign(to: string, sla: Time, now: Time) returns (err: Option<IncidentError>)
      modifies this
      ensures match AssignedTo(old(View()), to, sla, now)
              case Ok(i) => err == None && View() == i
              case Err(x) => err == Some(x) && View() == old(View())
      ensures err == None <==> old(status) == Reported && to != ""
      ensures err == Some(WrongStatus) <==> old(status) != Reported
      ensures err == None ==> status == Assigned && handler == to && assignedAt == now && closedAt == old(closedAt)
      ensures err == None ==> (breached <==> now - original.reportedAt > sla)
    {
      if status != Reported {
        return Some(WrongStatus);
      }
      if to == "" {
        return Some(NoHandler);
      }
      status, handler, assignedAt := Assigned, to, now;
      breached := now - original.reportedAt > sla;
      return None;
    }

    method StartHandling() returns (err: Option<IncidentError>)
      modifies this
      ensures match HandlingOf(old(View()))
              case Ok(i) => err == None && View() == i
              case Err(x) => err == Some(x) && View() == old(View())
      ensures err == None <==> old(status) == Assigned
      ensures err == None ==> View() == old(View()).(status := Handling)
    {
      if status != Assigned {
        return Some(WrongStatus);
      }
      status := Handling;
      return None;
    }

    method Close(now: Time) returns (err: Option<IncidentError>)
      modifies this
      ensures match ClosedAt(old(View()), now)
              case Ok(i) => err == None && View() == i
              case Err(x) => err == Some(x) && View() == old(View())
      ensures err == None <==> old(status) in {Assigned, Handling}
      ensures err == None ==> View() == old(View()).(status := Closed, closedAt := now)
    {
      if Closed !in Successors(status) {
        return Some(WrongStatus);
      }
      status, closedAt := Closed, now;
      return None;
    }

    /** The monitor's closure; tells whether the flag is new. */
    method Flag() returns (fired: bool)
      modifies this
      ensures fired == CanFlag(old(View()))
      ensures fired <==> old(status) == Reported && !old(breached)
      ensures View() == if fired then old(View()).(breached := true) else old(View())
    {
      fired := status == Reported && !breached;
      if fired {
        breached := true;
      }
    }
  }
}
