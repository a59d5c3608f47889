/** The store as an object: each method is one critical section, proved against its function in `Database`. */
module Stores {
  import opened Common
  import opened EquipmentModel
  import opened WorkOrders
  import opened Database
  import Incidents

  class Store {
    var grids: map<string, Grid>
    var checkpoints: map<string, Checkpoint>
    var orders: map<string, Order>
    var idem: map<string, string>
    var equipment: map<string, Item>
    var incidents: map<string, Incidents.Incident>
    var incidentByIssue: map<string, string>
    var tracks: map<string, Track>
    var offline: map<string, OfflineRecord>
    var offlineByReceipt: map<string, string>

    constructor ()
      ensures Valid() && View() == Db(map[], map[], map[], map[], map[], map[], map[], map[], map[], map[])
    {
      grids, checkpoints, orders, idem, equipment := map[], map[], map[], map[], map[];
      incidents, incidentByIssue, tracks, offline, offlineByReceipt := map[], map[], map[], map[], map[];
    }

    function View(): Db
      reads this
    {
      Db(grids, checkpoints, orders, idem, equipment, incidents, incidentByIssue, tracks, offline, offlineByReceipt)
    }

    ghost predicate Valid()
      reads this
    {
      Linked(View())
    }

    method EnqueueOffline(r: OfflineRecord, now: Time) returns (stored: OfflineRecord, created: bool)
      requires Valid()
      modifies this`offline
      ensures Valid() && View() == Enqueued(old(View()), r, now)
      ensures created <==> r.localId !in old(offline)
      ensures r.localId in offline && stored == offline[r.localId]
      ensures created ==>
                && stored == r.(createdAt := stored.createdAt, status := stored.status)
                && stored.createdAt == (if r.createdAt == ZERO_TIME then now else r.createdAt)
                && stored.status == (if r.status == Blank then Pending else r.status)
      ensures offline == if created then old(offline)[r.localId := stored] else old(offline)
    {
      if r.localId in offline {
        return offline[r.localId], false;
      }
      stored := r;
      if stored.createdAt == ZERO_TIME {
        stored := stored.(createdAt := now);
      }
      if stored.status == Blank {
        stored := stored.(status := Pending);
      }
      offline := offline[r.localId := stored];
      created := true;
    }

    method PendingOffline() returns (list: seq<OfflineRecord>)
      requires Valid()
      ensures IsPendingList(View(), list)
      ensures forall k :: k in offline ==> (offline[k] in list <==> offline[k].status in {Pending, Failed})
      ensures forall i, j :: 0 <= i < j < |list| ==> list[i].createdAt <= list[j].createdAt
    {
      var out: seq<OfflineRecord> := [];
      var left := offline.Keys;
      while left != {}
        invariant left <= offline.Keys
        invariant forall r :: r in out <==> r.localId in offline.Keys - left && offline[r.localId] == r && AwaitsSync(r)
        invariant DistinctIds(out)
        decreases |left|
      {
        var k :| k in left;
        left := left - {k};
        if AwaitsSync(offline[k]) {
          out := out + [offline[k]];
        }
      }
      var a := new OfflineRecord[|out|](i requires 0 <= i < |out| => out[i]);
      assert a[..] == out;
      SortRecords(a);
      list := a[..];
    }

    method OfflineReceipt(receipt: string) returns (r: Option<OfflineRecord>)
      requires Valid()
      ensures r.Some? <==> receipt in offlineByReceipt
      ensures r.Some? ==> r.value == offline[offlineByReceipt[receipt]]
    {
      if receipt !in offlineByReceipt {
        return None;
      }
      return Some(offline[offlineByReceipt[receipt]]);
    }

    method MarkSyncing(localId: string) returns (r: Option<OfflineRecord>)
      requires Valid()
      modifies this`offline
      ensures Valid() && View() == MarkedSyncing(old(View()), localId)
      ensures r.Some? <==> CanSync(old(View()), localId)
      ensures r.Some? ==> localId in offline && r.value == offline[localId]
      ensures r.Some? <==> localId in old(offline) && old(offline)[localId].status != Synced
      ensures r.Some? ==>
                && r.value == old(offline)[localId].(status := Syncing, attempts := old(offline)[localId].attempts + 1)
                && offline == old(offline)[localId := r.value]
    {
      if localId !in offline || offline[localId].status == Synced {
        return None;
      }
      var rec := offline[localId];
      rec := rec.(status := Syncing, attempts := rec.attempts + 1);
      offline := offline[localId := rec];
      return Some(rec);
    }

    method MarkSynced(localId: string, receipt: string, now: Time)
      requires Valid()
      modifies this`offline, this`offlineByReceipt
      ensures Valid() && View() == MarkedSynced(old(View()), localId, receipt, now)
      ensures localId in old(offline) ==>
                && offline == old(offline)[localId := old(offline)[localId].(
                                status := Synced, syncedAt := now, receipt := receipt, lastError := None)]
                && (receipt != "" ==> receipt in offlineByReceipt && offlineByReceipt[receipt] == localId)
    {
      if localId !in offline {
        return;
      }
      var rec := offline[localId];
      rec := rec.(status := Synced, syncedAt := now, receipt := receipt, lastError := None);
      offline := offline[localId := rec];
      if receipt != "" {
        offlineByReceipt := offlineByReceipt[receipt := localId];
      }
    }

    method MarkFailed(localId: string, error: ApplyError)
      requires Valid()
      modifies this`offline
      ensures Valid() && View() == MarkedFailed(old(View()), localId, error)
      ensures localId in old(offline) ==>
                offline == old(offline)[localId := old(offline)[localId].(status := Failed, lastError := Some(error))]
    {
      if localId !in offline {
        return;
      }
      offline := offline[localId := offline[localId].(status := Failed, lastError := Some(error))];
    }

    method IncidentByIssue(issue: string) returns (i: Option<Incidents.Incident>)
      requires Valid()
      ensures i.Some? <==> FiledUnder(View(), issue).Some?
      ensures i.Some? ==> i.value == incidents[incidentByIssue[issue]] && i.value.id == FiledUnder(View(), issue).value
    {
      if issue !in incidentByIssue {
        return None;
      }
      return Some(incidents[incidentByIssue[issue]]);
    }

    method PutIncidentAtomic(i: Incidents.Incident, now: Time) returns (stored: Incidents.Incident, created: bool)
      requires Valid()
      modifies this`incidents, this`incidentByIssue
      ensures Valid() && View() == IncidentPut(old(View()), i, now) && stored.id == PutId(old(View()), i)
      ensures created <==> !(i.issueId != "" && i.issueId in old(incidentByIssue))
      ensures created ==>
                && stored == i.(reportedAt := stored.reportedAt)
                && stored.reportedAt == (if i.reportedAt == ZERO_TIME then now else i.reportedAt)
                && incidents == old(incidents)[i.id := stored]
                && incidentByIssue == (if i.issueId != "" then old(incidentByIssue)[i.issueId := i.id] else old(incidentByIssue))
      ensures !created ==>
                && stored == old(incidents)[old(incidentByIssue)[i.issueId]]
                && incidents == old(incidents) && incidentByIssue == old(incidentByIssue)
    {
      if i.issueId != "" && i.issueId in incidentByIssue {
        return incidents[incidentByIssue[i.issueId]], false;
      }
      stored, created := i, true;
      if stored.reportedAt == ZERO_TIME {
        stored := stored.(reportedAt := now);
      }
      SavedLinked(View(), stored);
      incidents := incidents[stored.id := stored];
      if stored.issueId != "" {
        incidentByIssue := incidentByIssue[stored.issueId := stored.id];
      }
    }

    /** Loads the incident, applies the use to the loaded copy, and stores the copy only on success. */
    method MutateIncident(id: string, use: IncidentUse, now: Time)
      returns (err: Option<Incidents.IncidentError>, fired: bool)
      requires Valid()
      modifies this`incidents, this`incidentByIssue
      ensures Valid()
      ensures match IncidentMutated(old(View()), id, use, now)
              case Ok(db) => err == None && View() == db
              case Err(x) => err == Some(x) && View() == old(View())
      ensures fired <==> use.Flagging? && id in old(incidents) && Incidents.CanFlag(old(incidents)[id])
    {
      if id !in incidents {
        return Some(Incidents.IncidentNotFound), false;
      }
      var i := new Incidents.IncidentRecord.Load(incidents[id]);
      err, fired := UseIncident(i, use, now);
      if err.Some? {
        return;
      }
      SavedLinked(View(), i.View());
      incidents := incidents[id := i.View()];
      if i.original.issueId != "" {
        incidentByIssue := incidentByIssue[i.original.issueId := i.original.id];
      }
    }

    /** The closures of the service, on the loaded copy. */
    method UseIncident(i: Incidents.IncidentRecord, use: IncidentUse, now: Time)
      returns (err: Option<Incidents.IncidentError>, fired: bool)
      modifies i
      ensures match IncidentUsed(old(i.View()), use, now)
              case Ok(i') => err == None && i.View() == i'
              case Err(x) => err == Some(x)
      ensures fired <==> use.Flagging? && Incidents.CanFlag(old(i.View()))
    {
      err, fired := None, false;
      match use {
        case Assigning(handler, sla) => err := i.Assign(handler, sla, now);
        case StartingToHandle => err := i.StartHandling();
        case Closing => err := i.Close(now);
        case Flagging => fired := i.Flag();
      }
    }

    /** The incidents that are not closed, in any order. */
    method OpenIncidents() returns (list: seq<Incidents.Incident>)
      requires Valid()
      ensures IsOpenList(View(), list)
      ensures forall k :: k in incidents ==> (incidents[k] in list <==> incidents[k].status in {Incidents.Reported, Incidents.Assigned, Incidents.Handling})
    {
      list := [];
      var left := incidents.Keys;
      while left != {}
        invariant left <= incidents.Keys
        invariant forall i :: i in list <==> i.id in incidents.Keys - left && incidents[i.id] == i && i.status != Incidents.Closed
        invariant forall i, j :: 0 <= i < j < |list| ==> list[i].id != list[j].id
        decreases |left|
      {
        var k :| k in left;
        left := left - {k};
        if incidents[k].status != Incidents.Closed {
          list := list + [incidents[k]];
        }
      }
    }

    method SaveTrack(t: Track)
      requires Valid()
      modifies this`tracks
      ensures Valid() && View() == TrackSaved(old(View()), t)
    {
      tracks := tracks[t.workOrderId := t];
    }

    /** The loop of `CreateWorkOrder` over the stored orders. */
    method IsGridTaken(w: Order, window: Time, now: Time) returns (taken: bool)
      ensures taken <==> GridTaken(View(), w, window, now)
      ensures taken <==> exists k :: && k in orders && orders[k].gridId == w.gridId
                                     && orders[k].status !in {Verified, Cancelled} && now - orders[k].createdAt < window
    {
      var left := orders.Keys;
      while left != {}
        invariant left <= orders.Keys
        invariant forall k :: k in orders.Keys - left ==> !Occupies(orders[k], w, window, now)
        decreases |left|
      {
        var k :| k in left;
        left := left - {k};
        var existing := orders[k];
        if existing.gridId != w.gridId || !IsActive(existing.status) {
          continue;
        }
        if now - existing.createdAt < window {
          return true;
        }
      }
      forall k | k in orders && orders[k].gridId == w.gridId && orders[k].status !in {Verified, Cancelled}
        ensures now - orders[k].createdAt >= window
      {
        ActiveUntilTerminal(orders[k].status);
        assert !Occupies(orders[k], w, window, now);
      }
      return false;
    }

    method CreateWorkOrder(w: Order, key: string, window: Time, now: Time) returns (c: Creation)
      requires Valid()
      modifies this`orders, this`idem
      ensures Valid() && View() == OrderCreated(old(View()), w, key, window, now)
      ensures c == Creating(old(View()), w, key, window, now)
      ensures c.Existing? <==> key != "" && key in old(idem)
      ensures c.Existing? ==> c.id == old(idem)[key]
      ensures c.Rejected? <==>
                && !(key != "" && key in old(idem))
                && exists k :: && k in old(orders) && old(orders)[k].gridId == w.gridId
                               && old(orders)[k].status !in {Verified, Cancelled} && now - old(orders)[k].createdAt < window
      ensures !c.Created? ==> orders == old(orders) && idem == old(idem)
      ensures c.Created? ==>
                && c.id == w.id && idem == (if key != "" then old(idem)[key := w.id] else old(idem))
                && orders == old(orders)[w.id := w.(createdAt := orders[w.id].createdAt, updatedAt := now)]
                && orders[w.id].createdAt == (if w.createdAt == ZERO_TIME then now else w.createdAt)
    {
      if key != "" && key in idem {
        return Existing(idem[key]);
      }
      var taken := IsGridTaken(w, window, now);
      if taken {
        return Rejected;
      }
      var stored := w;
      if stored.createdAt == ZERO_TIME {
        stored := stored.(createdAt := now);
      }
      stored := stored.(updatedAt := now);
      orders := orders[w.id := stored];
      if key != "" {
        idem := idem[key := w.id];
      }
      return Created(w.id);
    }

    /** Loads the order, applies the use to the loaded copy, and stores the copy only on success. */
    method MutateWorkOrder(id: string, use: OrderUse, now: Time, stamp: Time) returns (err: Option<OrderError>)
      requires Valid()
      modifies this`orders
      ensures Valid()
      ensures match OrderMutated(old(View()), id, use, now, stamp)
              case Ok(db) => err == None && View() == db
              case Err(x) => err == Some(x) && View() == old(View())
    {
      if id !in orders {
        return Some(OrderNotFound);
      }
      var w := new WorkOrder.Load(orders[id]);
      err := UseOrder(id, w, use, now);
      if err.Some? {
        return;
      }
      w.updatedAt := stamp;
      orders := orders[id := w.View()];
    }

    /** The closures of the service, on the loaded copy. */
    method UseOrder(id: string, w: WorkOrder, use: OrderUse, now: Time) returns (err: Option<OrderError>)
      modifies w
      ensures match OrderUsed(View(), id, old(w.View()), use, now)
              case Ok(w') => err == None && w.View() == w'
              case Err(x) => err == Some(x)
    {
      match use {
        case Dispatching(minAssignees) => err := Dispatch(w, minAssignees, now);
        case CheckingIn(officer, cp) => err := CheckIn(w, officer, cp, now);
        case Starting => err := w.Transition(InProgress, now);
        case Completing => err := Complete(id, w, now);
        case Verifying => err := Verify(id, w, now);
        case Cancelling => err := w.Transition(Cancelled, now);
      }
    }

    method Dispatch(w: WorkOrder, minAssignees: int, now: Time) returns (err: Option<OrderError>)
      modifies w
      ensures match OrderUsed(View(), w.id, old(w.View()), Dispatching(minAssignees), now)
              case Ok(w') => err == None && w.View() == w'
              case Err(x) => err == Some(x)
      ensures err == None <==>
                && old(w.status) == Draft && w.id != "" && w.gridId != "" && w.assignees != []
                && w.gridId in grids && grids[w.gridId].id == w.gridId
                && (grids[w.gridId].zone == Core ==> |w.assignees| >= minAssignees && w.reported)
                && (w.plannedStart == ZERO_TIME || w.shiftEnd == ZERO_TIME || w.plannedStart < w.shiftEnd)
      ensures err == None ==> w.View() == old(w.View()).(status := Dispatched, updatedAt := now)
      ensures err.Some? ==>
                match err.value
                case GridNotFound => w.gridId !in grids
                case NoOrderId => w.id == ""
                case NoGridId => w.gridId == ""
                case GridMismatch => w.gridId in grids && grids[w.gridId].id != w.gridId
                case NoAssignees => w.assignees == []
                case TooFewAssignees => w.gridId in grids && grids[w.gridId].zone == Core && |w.assignees| < minAssignees
                case NotReported => w.gridId in grids && grids[w.gridId].zone == Core && !w.reported
                case ShiftEndsEarly => w.plannedStart != ZERO_TIME && w.shiftEnd != ZERO_TIME && w.shiftEnd <= w.plannedStart
                case Terminal => old(w.status) in {Verified, Cancelled}
                case IllegalTransition => old(w.status) !in {Draft, Verified, Cancelled}
                case _ => false
    {
      if w.gridId !in grids {
        return Some(GridNotFound);
      }
      var fault := DispatchFault(w.View(), grids[w.gridId], minAssignees);
      if fault.Some? {
        return fault;
      }
      err := w.Transition(Dispatched, now);
    }

    method CheckIn(w: WorkOrder, officer: string, cp: Checkpoint, now: Time) returns (err: Option<OrderError>)
      modifies w
      ensures match OrderUsed(View(), w.id, old(w.View()), CheckingIn(officer, cp), now)
              case Ok(w') => err == None && w.View() == w'
              case Err(x) => err == Some(x)
      ensures err == None <==>
                && old(w.status) == Dispatched && officer in w.assignees && cp.gridId == w.gridId
                && (old(w.checkpointId) == "" || old(w.checkpointId) == cp.id)
      ensures err == None ==> w.View() == old(w.View()).(status := CheckedIn, checkpointId := cp.id, updatedAt := now)
      ensures err.Some? ==>
                match err.value
                case CheckpointMismatch => old(w.checkpointId) != "" && old(w.checkpointId) != cp.id
                case CheckpointGridMismatch => cp.gridId != w.gridId
                case NotAssignee => officer !in w.assignees
                case Terminal => old(w.status) in {Verified, Cancelled}
                case IllegalTransition => old(w.status) !in {Dispatched, Verified, Cancelled}
                case _ => false
    {
      if w.checkpointId != "" && w.checkpointId != cp.id {
        return Some(CheckpointMismatch);
      }
      if cp.gridId != w.gridId {
        return Some(CheckpointGridMismatch);
      }
      if officer !in w.assignees {
        return Some(NotAssignee);
      }
      w.checkpointId := cp.id;
      err := w.Transition(CheckedIn, now);
    }

    method Complete(id: string, w: WorkOrder, now: Time) returns (err: Option<OrderError>)
      modifies w
      ensures match OrderUsed(View(), id, old(w.View()), Completing, now)
              case Ok(w') => err == None && w.View() == w'
              case Err(x) => err == Some(x)
      ensures err == None <==>
                && old(w.status) == InProgress
                && forall k :: k in equipment && equipment[k].order == id ==> equipment[k].status != Issued
      ensures err == None ==> w.View() == old(w.View()).(status := Completed, updatedAt := now)
      ensures err == Some(EquipmentOutstanding)
              <==> exists k :: k in equipment && equipment[k].order == id && equipment[k].status == Issued
    {
      var open := OpenEquipmentForOrder(id);
      if open > 0 {
        return Some(EquipmentOutstanding);
      }
      err := w.Transition(Completed, now);
    }

    method Verify(id: string, w: WorkOrder, now: Time) returns (err: Option<OrderError>)
      modifies w
      ensures match OrderUsed(View(), id, old(w.View()), Verifying, now)
              case Ok(w') => err == None && w.View() == w'
              case Err(x) => err == Some(x)
      ensures err == None <==> old(w.status) == Completed && id in tracks
      ensures err == None ==> w.View() == old(w.View()).(status := Verified, updatedAt := now)
      ensures err == Some(TrackMissing) <==> id !in tracks
    {
      if id !in tracks {
        return Some(TrackMissing);
      }
      err := w.Transition(Verified, now);
    }

    method OpenEquipmentForOrder(orderId: string) returns (count: nat)
      ensures count == |OpenEquipment(View(), orderId)|
      ensures count == 0 <==> forall k :: k in equipment && equipment[k].order == orderId ==> equipment[k].status != Issued
    {
      count := 0;
      var left := equipment.Keys;
      ghost var seen := {};
      while left != {}
        invariant left <= equipment.Keys
        invariant seen == (set k | k in equipment.Keys - left && equipment[k].status == Issued && equipment[k].order == orderId)
        invariant count == |seen|
        decreases |left|
      {
        var k :| k in left;
        left := left - {k};
        if equipment[k].status == Issued && equipment[k].order == orderId {
          count := count + 1;
          seen := seen + {k};
        }
      }
      assert seen == OpenEquipment(View(), orderId);
      NothingOutIff(View(), orderId);
    }

    method ClaimEquipment(id: string, officer: string, priority: int, now: Time) returns (res: Option<ClaimResult>)
      requires Valid()
      modifies this`equipment
      ensures Valid() && View() == ItemClaimed(old(View()), id, officer, priority, now)
      ensures res.Some? <==> id in old(equipment)
      ensures res.Some? ==>
                var e := old(equipment)[id];
                && (res.value.Refused? <==> e.status == Retired)
                && (res.value.Granted? <==> e.status == Available || (e.status == Locked && priority > e.priority))
                && (res.value.Granted? ==> res.value.holder == officer == equipment[id].holder)
      ensures id in old(equipment) ==> id in equipment && equipment == old(equipment)[id := equipment[id]]
      ensures res.Some? && res.value.Granted? ==>
                var e := equipment[id]; e.status == Locked && e.holder == officer && e.priority == priority && e.lockedAt == now
      ensures res.Some? && res.value.Queued? ==>
                && multiset(equipment[id].queue) == multiset(old(equipment)[id].queue) + multiset{QueueEntry(officer, priority, now)}
                && equipment[id].status == old(equipment)[id].status && equipment[id].holder == old(equipment)[id].holder
      ensures res.Some? && res.value.Queued? ==>
                var q, k := equipment[id].queue, res.value.position;
                1 <= k <= |q| && q[k - 1].officer == officer && forall j :: 0 <= j < k - 1 ==> q[j].officer != officer
    {
      if id !in equipment {
        return None;
      }
      var e := new Equipment.Load(equipment[id]);
      ClaimTakesOrWaits(e.View(), officer, priority, now);
      var r := e.Claim(officer, priority, now);
      equipment := equipment[id := e.View()];
      return Some(r);
    }

    method IssueItem(id: string, officer: string, order: string, now: Time) returns (err: Option<StoreError>)
      requires Valid()
      modifies this`equipment
      ensures Valid()
      ensures match ItemIssued(old(View()), id, officer, order, now)
              case Ok(db) => err == None && View() == db
              case Err(x) => err == Some(x) && View() == old(View())
      ensures err == None <==> id in old(equipment) && old(equipment)[id].status == Locked && old(equipment)[id].holder == officer
      ensures err == None ==>
                equipment == old(equipment)[id := old(equipment)[id].(status := Issued, order := order, updatedAt := now)]
    {
      if id !in equipment {
        return Some(OfEquipment(NotFound));
      }
      var e := new Equipment.Load(equipment[id]);
      var x := e.Issue(officer, order, now);
      if x.Some? {
        return Some(OfEquipment(x.value));
      }
      equipment := equipment[id := e.View()];
      return None;
    }

    method ReleaseItem(id: string, now: Time)
      requires Valid()
      modifies this`equipment
      ensures Valid() && View() == ItemReleased(old(View()), id, now)
      ensures id in old(equipment) ==>
                && id in equipment && equipment == old(equipment)[id := equipment[id]]
                && if old(equipment)[id].status == Locked then PassedOn(old(equipment)[id], equipment[id], now)
                   else equipment[id] == old(equipment)[id]
    {
      if id !in equipment {
        return;
      }
      var e := new Equipment.Load(equipment[id]);
      e.ReleaseLock(now);
      equipment := equipment[id := e.View()];
    }

    method ReturnItem(id: string, officer: string, condition: string, now: Time) returns (err: Option<StoreError>)
      requires Valid()
      modifies this`equipment
      ensures Valid()
      ensures match ItemReturned(old(View()), id, officer, condition, now)
              case Ok(db) => err == None && View() == db
              case Err(x) => err == Some(x) && View() == old(View())
      ensures err == None ==>
                && id in old(equipment) && equipment == old(equipment)[id := equipment[id]]
                && old(equipment)[id].status == Issued && old(equipment)[id].holder == officer
                && equipment[id].condition == condition && PassedOn(old(equipment)[id], equipment[id], now)
      ensures err.Some? && id in equipment ==>
                var e := equipment[id];
                match err.value
                case OfEquipment(NotIssued) => e.status != Issued
                case OfEquipment(NotHolder) => e.status == Issued && e.holder != officer
                case OfOrder(IllegalTransition) => e.order in orders && orders[e.order].status !in {CheckedIn, InProgress, Completed}
                case OfOrder(AfterShift) => e.order in orders && ZERO_TIME != orders[e.order].shiftEnd < now
                case _ => false
    {
      if id !in equipment {
        return Some(OfEquipment(NotFound));
      }
      var e := new Equipment.Load(equipment[id]);
      if e.order != "" && e.order in orders {
        var fault := ReturnFault(orders[e.order], now);
        if fault.Some? {
          return Some(OfOrder(fault.value));
        }
      }
      var x := e.Return(officer, condition, now);
      if x.Some? {
        return Some(OfEquipment(x.value));
      }
      equipment := equipment[id := e.View()];
      return None;
    }
  }

  lemma SavedLinked(db: Db, i: Incidents.Incident)
    requires Linked(db)
    ensures Linked(IncidentSaved(db, i))
  {
  }

  /** The insertion sort of `PendingOffline`, in place. */
  method SortRecords(a: array<OfflineRecord>)
    requires DistinctIds(a[..])
    modifies a
    ensures Ascending(a[..])
    ensures forall r :: r in a[..] <==> r in old(a[..])
  {
    var i := 1;
    while i < a.Length
      invariant 1 <= i && (i <= a.Length || i == 1)
      invariant DistinctIds(a[..]) && forall r :: r in a[..] <==> r in old(a[..])
      invariant forall p, q :: 0 <= p < q < i && q < a.Length ==> Before(a[p], a[q])
    {
      var j := i;
      while j > 0 && Before(a[j], a[j - 1])
        invariant 0 <= j <= i < a.Length
        invariant DistinctIds(a[..]) && forall r :: r in a[..] <==> r in old(a[..])
        invariant forall p, q :: 0 <= p < q <= i && q != j ==> Before(a[p], a[q])
      {
        SwapKeeps(a[..], j);
        a[j], a[j - 1] := a[j - 1], a[j];
        j := j - 1;
      }
      forall p | 0 <= p < j ensures Before(a[p], a[j]) {
        BeforeOrder(a[j - 1], a[j], a[j]);
        BeforeOrder(a[p], a[j - 1], a[j]);
        assert a[..][j - 1].localId != a[..][j].localId;
      }
      i := i + 1;
    }
  }

  lemma SwapKeeps(s: seq<OfflineRecord>, j: nat)
    requires 0 < j < |s| && DistinctIds(s)
    ensures DistinctIds(s[j := s[j - 1]][j - 1 := s[j]])
    ensures forall r :: r in s[j := s[j - 1]][j - 1 := s[j]] <==> r in s
  {
    var t := s[j := s[j - 1]][j - 1 := s[j]];
    forall r | r in s ensures r in t {
      var i :| 0 <= i < |s| && s[i] == r;
      assert t[if i == j then j - 1 else if i == j - 1 then j else i] == r;
    }
  }
}
