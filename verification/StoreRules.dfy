/** When each use of an order or an incident goes through and what it leaves behind, rule by rule. */
module StoreRules {
  import opened Common
  import opened EquipmentModel
  import opened WorkOrders
  import opened Database
  import Incidents

  // ------------------------------------------------------------------ orders

  /** A draft is dispatched exactly when grid, crew, prior report and shift are as they should be. */
  lemma DispatchIff(db: Db, id: string, minAssignees: int, now: Time, stamp: Time)
    requires id in db.orders
    ensures var w, r := db.orders[id], OrderMutated(db, id, Dispatching(minAssignees), now, stamp);
            && (r.Ok? <==>
                  && w.status == Draft && w.id != "" && w.gridId != "" && w.gridId in db.grids && w.assignees != []
                  && var g := db.grids[w.gridId];
                  && g.id == w.gridId && (g.zone == Core ==> |w.assignees| >= minAssignees && w.reported)
                  && (w.plannedStart == ZERO_TIME || w.shiftEnd == ZERO_TIME || w.plannedStart < w.shiftEnd))
            && (r.Ok? ==> r.value == db.(orders := db.orders[id := w.(status := Dispatched, updatedAt := stamp)]))
  {
  }

  /** A dispatched order is checked in exactly by one of its assignees, at a checkpoint of its grid, the planned one if there is one. */
  lemma CheckInIff(db: Db, id: string, officer: string, cp: Checkpoint, now: Time, stamp: Time)
    requires id in db.orders
    ensures var w, r := db.orders[id], OrderMutated(db, id, CheckingIn(officer, cp), now, stamp);
            && (r.Ok? <==>
                  && w.status == Dispatched && officer in w.assignees && cp.gridId == w.gridId
                  && (w.checkpointId == "" || w.checkpointId == cp.id))
            && (r.Ok? ==> r.value == db.(orders := db.orders[id := w.(status := CheckedIn, checkpointId := cp.id, updatedAt := stamp)]))
  {
  }

  lemma StartIff(db: Db, id: string, now: Time, stamp: Time)
    requires id in db.orders
    ensures var w, r := db.orders[id], OrderMutated(db, id, Starting, now, stamp);
            && (r.Ok? <==> w.status == CheckedIn)
            && (r.Ok? ==> r.value == db.(orders := db.orders[id := w.(status := InProgress, updatedAt := stamp)]))
  {
  }

  /** A patrol is completed exactly when it is under way and nothing is issued to the order. */
  lemma CompleteIff(db: Db, id: string, now: Time, stamp: Time)
    requires id in db.orders
    ensures var w, r := db.orders[id], OrderMutated(db, id, Completing, now, stamp);
            && (r.Ok? <==>
                  && w.status == InProgress
                  && forall k :: k in db.equipment && db.equipment[k].order == id ==> db.equipment[k].status != Issued)
            && (r.Ok? ==> r.value == db.(orders := db.orders[id := w.(status := Completed, updatedAt := stamp)]))
  {
    NothingOutIff(db, id);
  }

  lemma VerifyIff(db: Db, id: string, now: Time, stamp: Time)
    requires id in db.orders
    ensures var w, r := db.orders[id], OrderMutated(db, id, Verifying, now, stamp);
            && (r.Ok? <==> w.status == Completed && id in db.tracks)
            && (r.Ok? ==> r.value == db.(orders := db.orders[id := w.(status := Verified, updatedAt := stamp)]))
  {
  }

  lemma CancelIff(db: Db, id: string, now: Time, stamp: Time)
    requires id in db.orders
    ensures var w, r := db.orders[id], OrderMutated(db, id, Cancelling, now, stamp);
            && (r.Ok? <==> w.status !in {Verified, Cancelled})
            && (r.Ok? ==> r.value == db.(orders := db.orders[id := w.(status := Cancelled, updatedAt := stamp)]))
  {
  }

  // ------------------------------------------------------------------ incidents

  /** What the store becomes when incident `i` is written over the one kept under `id`. */
  function Rewritten(db: Db, id: string, i: Incidents.Incident): Db {
    db.(incidents := db.incidents[id := i],
       incidentByIssue := if i.issueId != "" then db.incidentByIssue[i.issueId := id] else db.incidentByIssue)
  }

  /** A reported incident is assigned exactly when a handler is named; the flag tells whether that came too late. */
  lemma AssignIff(db: Db, id: string, handler: string, sla: Time, now: Time)
    requires Linked(db) && id in db.incidents
    ensures var i, r := db.incidents[id], IncidentMutated(db, id, Assigning(handler, sla), now);
            && (r.Ok? <==> i.status == Incidents.Reported && handler != "")
            && (r.Ok? ==> r.value == Rewritten(db, id, i.(
                                status := Incidents.Assigned, handler := handler, assignedAt := now,
                                breached := now - i.reportedAt > sla)))
  {
  }

  lemma HandleIff(db: Db, id: string, now: Time)
    requires Linked(db) && id in db.incidents
    ensures var i, r := db.incidents[id], IncidentMutated(db, id, StartingToHandle, now);
            && (r.Ok? <==> i.status == Incidents.Assigned)
            && (r.Ok? ==> r.value == Rewritten(db, id, i.(status := Incidents.Handling)))
  {
  }

  lemma CloseIff(db: Db, id: string, now: Time)
    requires Linked(db) && id in db.incidents
    ensures var i, r := db.incidents[id], IncidentMutated(db, id, Closing, now);
            && (r.Ok? <==> i.status in {Incidents.Assigned, Incidents.Handling})
            && (r.Ok? ==> r.value == Rewritten(db, id, i.(status := Incidents.Closed, closedAt := now)))
  {
  }

  lemma FlagAlways(db: Db, id: string, now: Time)
    requires Linked(db) && id in db.incidents
    ensures var i, r := db.incidents[id], IncidentMutated(db, id, Flagging, now);
            r.Ok? && r.value == Rewritten(db, id, i.(breached := i.breached || i.status == Incidents.Reported))
  {
  }
}
