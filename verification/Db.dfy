/**
 The in-memory store as a value (`internal/store/store.go`, `internal/store/offline.go`).
 Every function below that takes and gives a `Db` is one critical section of the store: it
 runs under the write lock, so it is one atomic step to everybody else.
 */
module Database {
  import opened Common
  import opened EquipmentModel
  import opened WorkOrders
  import Incidents
  import Tracks

  datatype OfflineStatus = Blank | Pending | Syncing | Synced | Failed

  datatype IncidentRequest = IncidentRequest(
    workOrderId: string, kind: Incidents.IncidentType, reporter: string, issueId: string)

  datatype TrackRequest = TrackRequest(workOrderId: string, points: seq<Tracks.TrackPoint>)

  /** The JSON envelope of an offline record, already decoded. */
  datatype Payload =
    | Malformed
    | IncidentReport(incident: Option<IncidentRequest>)
    | TrackReport(track: Option<TrackRequest>)
    | PatrolNote
    | UnknownKind

  datatype ApplyError =
    | BadPayload | MissingPart | UnsupportedKind | NoSuchOrder | NoSuchGrid | NoTrackOrder | TrackTooShort
    | BadIncident(why: Incidents.IncidentError)

  datatype OfflineRecord = OfflineRecord(
    localId: string, payload: Payload, status: OfflineStatus, attempts: int, lastError: Option<ApplyError>,
    createdAt: Time, syncedAt: Time, receipt: string)

  datatype Track = Track(
    workOrderId: string, points: seq<Tracks.TrackPoint>, submittedAt: Time, maxDeviation: real, deviation: bool, offline: bool)

  datatype Db = Db(
    grids: map<string, Grid>,
    checkpoints: map<string, Checkpoint>,
    orders: map<string, Order>,
    idem: map<string, string>,
    equipment: map<string, Item>,
    incidents: map<string, Incidents.Incident>,
    incidentByIssue: map<string, string>,
    tracks: map<string, Track>,
    offline: map<string, OfflineRecord>,
    offlineByReceipt: map<string, string>)

  /** Index entries lead somewhere, and records are kept under their own ids. */
  ghost predicate Linked(db: Db) {
    && (forall k :: k in db.incidentByIssue ==> db.incidentByIssue[k] in db.incidents)
    && (forall k :: k in db.idem ==> db.idem[k] in db.orders)
    && (forall k :: k in db.offlineByReceipt ==> db.offlineByReceipt[k] in db.offline)
    && (forall k :: k in db.offline ==> db.offline[k].localId == k)
    && (forall k :: k in db.incidents ==> db.incidents[k].id == k)
  }

  // ------------------------------------------------------------------ offline records

  function Enqueued(db: Db, r: OfflineRecord, now: Time): Db {
    if r.localId in db.offline then db
    else
      var r1 := if r.createdAt == ZERO_TIME then r.(createdAt := now) else r;
      var r2 := if r1.status == Blank then r1.(status := Pending) else r1;
      db.(offline := db.offline[r.localId := r2])
  }

  predicate AwaitsSync(r: OfflineRecord) {
    r.status == Pending || r.status == Failed
  }

  /** Whether `MarkSyncing` hands the record out. A record that is being synced already is not kept back. */
  predicate CanSync(db: Db, localId: string) {
    localId in db.offline && db.offline[localId].status != Synced
  }

  function MarkedSyncing(db: Db, localId: string): Db {
    if !CanSync(db, localId) then db
    else
      var r := db.offline[localId];
      db.(offline := db.offline[localId := r.(status := Syncing, attempts := r.attempts + 1)])
  }

  function MarkedSynced(db: Db, localId: string, receipt: string, now: Time): Db {
    if localId !in db.offline then db
    else
      var r := db.offline[localId].(status := Synced, syncedAt := now, receipt := receipt, lastError := None);
      db.(offline := db.offline[localId := r],
         offlineByReceipt := if receipt != "" then db.offlineByReceipt[receipt := localId] else db.offlineByReceipt)
  }

  function MarkedFailed(db: Db, localId: string, error: ApplyError): Db {
    if localId !in db.offline then db
    else db.(offline := db.offline[localId := db.offline[localId].(status := Failed, lastError := Some(error))])
  }

  /** Code-point order, which is the byte order of UTF-8. */
  predicate LexLess(a: string, b: string) {
    b != [] && (a == [] || a[0] < b[0] || (a[0] == b[0] && LexLess(a[1..], b[1..])))
  }

  predicate Before(a: OfflineRecord, b: OfflineRecord) {
    if a.createdAt != b.createdAt then a.createdAt < b.createdAt else LexLess(a.localId, b.localId)
  }

  ghost predicate Ascending(list: seq<OfflineRecord>) {
    forall i, j :: 0 <= i < j < |list| ==> Before(list[i], list[j])
  }

  ghost predicate DistinctIds(list: seq<OfflineRecord>) {
    forall i, j :: 0 <= i < j < |list| ==> list[i].localId != list[j].localId
  }

  /** The records that still need syncing, oldest first. */
  ghost predicate IsPendingList(db: Db, list: seq<OfflineRecord>) {
    && Ascending(list)
    && forall r :: r in list <==> r.localId in db.offline && db.offline[r.localId] == r && AwaitsSync(r)
  }

  /** `a` comes before `b`: it ends where `b` goes on, or has the smaller character at the first place where they differ. */
  lemma {:induction false} LexLessIff(a: string, b: string)
    ensures LexLess(a, b)
            <==> exists n :: && 0 <= n <= |a| && n < |b| && a[..n] == b[..n] && (n == |a| || a[n] < b[n])
  {
    if a != [] && b != [] && a[0] == b[0] {
      LexLessIff(a[1..], b[1..]);
      forall n | 0 <= n <= |a[1..]| && n < |b[1..]| && a[1..][..n] == b[1..][..n] && (n == |a[1..]| || a[1..][n] < b[1..][n])
        ensures 0 <= n + 1 <= |a| && n + 1 < |b| && a[..n + 1] == b[..n + 1] && (n + 1 == |a| || a[n + 1] < b[n + 1])
      {
        assert a[..n + 1] == [a[0]] + a[1..][..n] && b[..n + 1] == [b[0]] + b[1..][..n];
      }
      forall n | 0 <= n <= |a| && n < |b| && a[..n] == b[..n] && (n == |a| || a[n] < b[n])
        ensures 0 < n && a[1..][..n - 1] == b[1..][..n - 1] && (n - 1 == |a[1..]| || a[1..][n - 1] < b[1..][n - 1])
      {
        assert a[1..][..n - 1] == a[..n][1..] && b[1..][..n - 1] == b[..n][1..];
      }
    } else if b != [] {
      assert a[..0] == b[..0];
    }
  }

  lemma LexOrder(a: string, b: string, c: string)
    ensures !LexLess(a, a)
    ensures LexLess(a, b) && LexLess(b, c) ==> LexLess(a, c)
    ensures a == b || LexLess(a, b) || LexLess(b, a)
  {
    if a != [] && b != [] && c != [] {
      LexOrder(a[1..], b[1..], c[1..]);
      assert a == [a[0]] + a[1..] && b == [b[0]] + b[1..];
    } else if a != [] && b != [] {
      LexOrder(a[1..], b[1..], []);
      assert a == [a[0]] + a[1..] && b == [b[0]] + b[1..];
    } else if a != [] {
      LexOrder(a[1..], [], []);
    }
  }

  lemma BeforeOrder(a: OfflineRecord, b: OfflineRecord, c: OfflineRecord)
    ensures !Before(a, a)
    ensures Before(a, b) && Before(b, c) ==> Before(a, c)
    ensures a.localId == b.localId || Before(a, b) || Before(b, a)
  {
    LexOrder(a.localId, b.localId, c.localId);
  }

  /** The order in which the map is walked makes no difference: there is only one such list. */
  lemma {:induction false} PendingListUnique(a: seq<OfflineRecord>, b: seq<OfflineRecord>)
    requires Ascending(a) && Ascending(b) && forall r :: r in a <==> r in b
    ensures a == b
    decreases |a|
  {
    if a != [] {
      assert a[0] in b;
    }
    if b != [] {
      assert b[0] in a;
      BeforeOrder(a[0], b[0], a[0]);
      assert a[0] == b[0];
      forall r ensures r in a[1..] <==> r in b[1..] {
        BeforeOrder(a[0], a[0], a[0]);
        assert r in a <==> r == a[0] || r in a[1..];
        assert r in b <==> r == b[0] || r in b[1..];
      }
      PendingListUnique(a[1..], b[1..]);
      assert a == [a[0]] + a[1..] && b == [b[0]] + b[1..];
    }
  }

  // ------------------------------------------------------------------ incidents and tracks

  /** The id of the incident filed under an issue; an index entry without incident reads as a blank one. */
  function FiledUnder(db: Db, issue: string): Option<string> {
    if issue !in db.incidentByIssue then None
    else
      var id := db.incidentByIssue[issue];
      Some(if id in db.incidents then db.incidents[id].id else "")
  }

  function IncidentPut(db: Db, i: Incidents.Incident, now: Time): Db {
    if i.issueId != "" && i.issueId in db.incidentByIssue then db
    else
      IncidentSaved(db, if i.reportedAt == ZERO_TIME then i.(reportedAt := now) else i)
  }

  /** The write that ends `PutIncidentAtomic` and `MutateIncident`. */
  function IncidentSaved(db: Db, i: Incidents.Incident): Db {
    db.(incidents := db.incidents[i.id := i],
       incidentByIssue := if i.issueId != "" then db.incidentByIssue[i.issueId := i.id] else db.incidentByIssue)
  }

  /** The closures that the service hands to `MutateIncident`. */
  datatype IncidentUse = Assigning(handler: string, sla: Time) | StartingToHandle | Closing | Flagging

  function IncidentUsed(i: Incidents.Incident, use: IncidentUse, now: Time): Result<Incidents.Incident, Incidents.IncidentError> {
    match use
    case Assigning(handler, sla) => Incidents.AssignedTo(i, handler, sla, now)
    case StartingToHandle => Incidents.HandlingOf(i)
    case Closing => Incidents.ClosedAt(i, now)
    case Flagging => Ok(if Incidents.CanFlag(i) then i.(breached := true) else i)
  }

  function IncidentMutated(db: Db, id: string, use: IncidentUse, now: Time): Result<Db, Incidents.IncidentError> {
    if id !in db.incidents then Err(Incidents.IncidentNotFound)
    else
      match IncidentUsed(db.incidents[id], use, now)
      case Err(e) => Err(e)
      case Ok(i) => Ok(IncidentSaved(db, i))
  }

  /** The id of the incident that `PutIncidentAtomic` gives back. */
  function PutId(db: Db, i: Incidents.Incident): string {
    if i.issueId != "" && FiledUnder(db, i.issueId).Some? then FiledUnder(db, i.issueId).value else i.id
  }

  /** The open incidents, each once. */
  ghost predicate IsOpenList(db: Db, list: seq<Incidents.Incident>) {
    && (forall i, j :: 0 <= i < j < |list| ==> list[i].id != list[j].id)
    && forall i :: i in list <==> i.id in db.incidents && db.incidents[i.id] == i && i.status != Incidents.Closed
  }

  function TrackSaved(db: Db, t: Track): Db {
    db.(tracks := db.tracks[t.workOrderId := t])
  }

  // ------------------------------------------------------------------ work orders

  /** Whether an active order on the grid is younger than the window. */
  predicate GridTaken(db: Db, w: Order, window: Time, now: Time) {
    exists k :: k in db.orders && Occupies(db.orders[k], w, window, now)
  }

  datatype Creation = Existing(id: string) | Rejected | Created(id: string)

  function Creating(db: Db, w: Order, key: string, window: Time, now: Time): Creation {
    if key != "" && key in db.idem then Existing(db.idem[key])
    else if GridTaken(db, w, window, now) then Rejected
    else Created(w.id)
  }

  function OrderCreated(db: Db, w: Order, key: string, window: Time, now: Time): Db {
    if !Creating(db, w, key, window, now).Created? then db
    else
      var w' := w.(createdAt := if w.createdAt == ZERO_TIME then now else w.createdAt, updatedAt := now);
      db.(orders := db.orders[w.id := w'], idem := if key != "" then db.idem[key := w.id] else db.idem)
  }

  /** The closures that the service hands to `MutateWorkOrder`. */
  datatype OrderUse =
    | Dispatching(minAssignees: int)
    | CheckingIn(officer: string, checkpoint: Checkpoint)
    | Starting
    | Completing
    | Verifying
    | Cancelling

  /** The equipment still issued to an order. */
  function OpenEquipment(db: Db, orderId: string): set<string> {
    set k | k in db.equipment && db.equipment[k].status == Issued && db.equipment[k].order == orderId
  }

  lemma NothingOutIff(db: Db, orderId: string)
    ensures |OpenEquipment(db, orderId)| == 0
            <==> forall k :: k in db.equipment && db.equipment[k].order == orderId ==> db.equipment[k].status != Issued
  {
    var out := OpenEquipment(db, orderId);
    if k :| k in db.equipment && db.equipment[k].order == orderId && db.equipment[k].status == Issued {
      assert k in out;
    } else {
      assert out == {};
    }
  }

  function OrderUsed(db: Db, id: string, w: Order, use: OrderUse, now: Time): Result<Order, OrderError> {
    match use
    case Dispatching(minAssignees) =>
      if w.gridId !in db.grids then Err(GridNotFound)
      else
        var fault := DispatchFault(w, db.grids[w.gridId], minAssignees);
        if fault.Some? then Err(fault.value) else Moved(w, Dispatched, now)
    case CheckingIn(officer, cp) =>
      if w.checkpointId != "" && w.checkpointId != cp.id then Err(CheckpointMismatch)
      else if cp.gridId != w.gridId then Err(CheckpointGridMismatch)
      else if officer !in w.assignees then Err(NotAssignee)
      else Moved(w.(checkpointId := cp.id), CheckedIn, now)
    case Starting => Moved(w, InProgress, now)
    case Completing =>
      if |OpenEquipment(db, id)| > 0 then Err(EquipmentOutstanding) else Moved(w, Completed, now)
    case Verifying =>
      if id !in db.tracks then Err(TrackMissing) else Moved(w, Verified, now)
    case Cancelling => Moved(w, Cancelled, now)
  }

  function OrderMutated(db: Db, id: string, use: OrderUse, now: Time, stamp: Time): Result<Db, OrderError> {
    if id !in db.orders then Err(OrderNotFound)
    else
      match OrderUsed(db, id, db.orders[id], use, now)
      case Err(e) => Err(e)
      case Ok(w) => Ok(db.(orders := db.orders[id := w.(updatedAt := stamp)]))
  }

  // ------------------------------------------------------------------ equipment

  datatype StoreError = OfEquipment(e: EquipmentError) | OfOrder(o: OrderError)

  function ItemClaimed(db: Db, id: string, officer: string, priority: int, now: Time): Db {
    if id !in db.equipment then db
    else db.(equipment := db.equipment[id := Claimed(db.equipment[id], officer, priority, now)])
  }

  function ItemIssued(db: Db, id: string, officer: string, order: string, now: Time): Result<Db, StoreError> {
    if id !in db.equipment then Err(OfEquipment(NotFound))
    else
      match IssuedTo(db.equipment[id], officer, order, now)
      case Err(e) => Err(OfEquipment(e))
      case Ok(e) => Ok(db.(equipment := db.equipment[id := e]))
  }

  function ItemReleased(db: Db, id: string, now: Time): Db {
    if id !in db.equipment then db
    else db.(equipment := db.equipment[id := LockReleased(db.equipment[id], now)])
  }

  function ItemReturned(db: Db, id: string, officer: string, condition: string, now: Time): Result<Db, StoreError> {
    if id !in db.equipment then Err(OfEquipment(NotFound))
    else
      var e := db.equipment[id];
      var fault := if e.order != "" && e.order in db.orders then ReturnFault(db.orders[e.order], now) else None;
      if fault.Some? then Err(OfOrder(fault.value))
      else
        match ReturnedBy(e, officer, condition, now)
        case Err(x) => Err(OfEquipment(x))
        case Ok(e') => Ok(db.(equipment := db.equipment[id := e']))
  }
}
