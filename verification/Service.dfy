/**
 The service and its syncer as objects: the calls that go through several critical sections, run
 one after another (`internal/app/incident.go`, `internal/app/equipment.go`,
 `internal/sync/syncer.go`), proved against the functions of `Calls`. Module `Replay`, module
 `Dispatch` and module `Sla` run the same sections interleaved.
 */
module Services {
  import opened Common
  import opened EquipmentModel
  import opened WorkOrders
  import opened Database
  import opened Stores
  import opened Calls
  import Incidents
  import Tracks

  class Service {
    const cfg: Config
    const store: Store

    constructor (cfg: Config, store: Store)
      ensures this.cfg == cfg && this.store == store
    {
      this.cfg, this.store := cfg, store;
    }

    ghost predicate Valid()
      reads this, store
    {
      && store.Valid()
      && cfg.geometry.Valid()
    }

    method ReportIncident(req: IncidentRequest, d: Draw) returns (r: Result<string, ApplyError>)
      requires Valid()
      modifies store`incidents, store`incidentByIssue
      ensures Valid()
      ensures store.View() == ReportDb(old(store.View()), req, d) && r == ReportOutcome(old(store.View()), req, d)
      ensures var issue := if req.issueId == "" then d.issue else req.issueId;
              && (issue in old(store.incidentByIssue) ==>
                    && r == Ok(old(store.incidentByIssue)[issue])
                    && store.incidents == old(store.incidents) && store.incidentByIssue == old(store.incidentByIssue))
              && (issue !in old(store.incidentByIssue) ==>
                    (r.Ok? <==> && req.workOrderId in store.orders && req.workOrderId != "" && req.kind != Incidents.Unrecognised
                                && d.id != "" && issue != ""))
              && (issue !in old(store.incidentByIssue) && r.Ok? ==>
                    && r.value == d.id
                    && store.incidentByIssue == old(store.incidentByIssue)[issue := d.id]
                    && store.incidents == old(store.incidents)[
                         d.id := Incidents.Incident(d.id, req.workOrderId, req.kind, Incidents.Reported, req.reporter, "",
                                                    d.now, ZERO_TIME, ZERO_TIME, false, issue)])
      ensures r.Err? ==> store.incidents == old(store.incidents) && store.incidentByIssue == old(store.incidentByIssue)
      ensures r.Err? ==>
                match r.error
                case NoSuchOrder => req.workOrderId !in store.orders
                case BadIncident(NoId) => d.id == ""
                case BadIncident(NoWorkOrder) => req.workOrderId == ""
                case BadIncident(UnknownType) => req.kind == Incidents.Unrecognised
                case BadIncident(NoIssueId) => req.issueId == d.issue == ""
                case _ => false
    {
      var issue := req.issueId;
      if issue == "" {
        issue := d.issue;
      }
      var existing := store.IncidentByIssue(issue);
      if existing.Some? {
        return Ok(existing.value.id);
      }
      if req.workOrderId !in store.orders {
        return Err(NoSuchOrder);
      }
      var i := NewIncident(req, issue, d.id, d.now);
      var fault := Incidents.Fault(i);
      if fault.Some? {
        return Err(BadIncident(fault.value));
      }
      var stored, _ := store.PutIncidentAtomic(i, d.now);
      return Ok(stored.id);
    }

    method SubmitTrack(t: TrackRequest, offline: bool, now: Time) returns (err: Option<ApplyError>)
      requires Valid()
      modifies store`tracks
      ensures Valid()
      ensures store.View() == TrackDb(cfg, old(store.View()), t, offline, now) && err == TrackFault(old(store.View()), t)
      ensures err == None <==>
                && t.workOrderId in store.orders && store.orders[t.workOrderId].gridId in store.grids
                && t.workOrderId != "" && |t.points| >= 2
      ensures err != None ==> store.tracks == old(store.tracks)
      ensures err.Some? ==>
                match err.value
                case NoSuchOrder => t.workOrderId !in store.orders
                case NoSuchGrid => t.workOrderId in store.orders && store.orders[t.workOrderId].gridId !in store.grids
                case NoTrackOrder => t.workOrderId == ""
                case TrackTooShort => |t.points| < 2
                case _ => false
      ensures err == None ==>
                && t.workOrderId in store.tracks && store.tracks == old(store.tracks)[t.workOrderId := store.tracks[t.workOrderId]]
                && var s, route := store.tracks[t.workOrderId], store.grids[store.orders[t.workOrderId].gridId].route;
                && s.workOrderId == t.workOrderId && s.points == t.points && s.submittedAt == now && s.offline == offline
                && (s.deviation <==>
                      && route != []
                      && (cfg.threshold < 0.0
                          || Tracks.SomeStrays(cfg.geometry, t.points, route, Tracks.Squared(cfg.threshold))))
                && (route != [] ==> Tracks.IsMaxSquare(cfg.geometry, t.points, route, s.maxDeviation))
                && (route == [] ==> s.maxDeviation == 0.0)
    {
      if t.workOrderId !in store.orders {
        return Some(NoSuchOrder);
      }
      var gridId := store.orders[t.workOrderId].gridId;
      if gridId !in store.grids {
        return Some(NoSuchGrid);
      }
      if t.workOrderId == "" {
        return Some(NoTrackOrder);
      }
      if |t.points| < 2 {
        return Some(TrackTooShort);
      }
      var deviation, maxDeviation := EvaluateTrack(t.points, store.grids[gridId].route);
      store.SaveTrack(Track(t.workOrderId, t.points, now, maxDeviation, deviation, offline));
      return None;
    }

    method EvaluateTrack(points: seq<Tracks.TrackPoint>, route: seq<Tracks.Point>)
      returns (deviation: bool, maxDeviation: real)
      requires cfg.geometry.Valid()
      ensures deviation == Deviates(cfg, points, route) && maxDeviation == MaxDeviation(cfg, points, route)
      ensures points == [] || route == [] ==> !deviation && maxDeviation == 0.0
      ensures points != [] && route != [] ==>
                (deviation <==>
                  cfg.threshold < 0.0 || Tracks.SomeStrays(cfg.geometry, points, route, Tracks.Squared(cfg.threshold)))
      ensures points != [] && route != [] ==> Tracks.IsMaxSquare(cfg.geometry, points, route, maxDeviation)
    {
      var track := new Tracks.PatrolTrack(points);
      track.Evaluate(cfg.geometry, route, cfg.threshold);
      if points != [] && route != [] {
        MaxDeviationIs(cfg, points, route, track.maxDeviation);
      }
      return track.deviation, track.maxDeviation;
    }

    method ApplyOfflineRecord(rec: OfflineRecord, d: Draw) returns (r: Result<string, ApplyError>)
      requires Valid()
      modifies store`incidents, store`incidentByIssue, store`tracks
      ensures Valid()
      ensures store.View() == ApplyDb(cfg, old(store.View()), rec, d) && r == ApplyOutcome(old(store.View()), rec, d)
      ensures rec.payload.IncidentReport? && rec.payload.incident.Some? && r.Ok? ==>
                var req := rec.payload.incident.value;
                var issue := if req.issueId == "" then d.issue else req.issueId;
                issue in store.incidentByIssue && r.value == "rec:" + store.incidentByIssue[issue]
      ensures rec.payload.TrackReport? && rec.payload.track.Some? && r.Ok? ==>
                var t := rec.payload.track.value;
                && r.value == "rec:" + t.workOrderId && t.workOrderId in store.tracks
                && store.tracks[t.workOrderId].points == t.points && store.tracks[t.workOrderId].offline
      ensures rec.payload.PatrolNote? ==> r == Ok("rec:" + rec.localId)
      ensures rec.payload.Malformed? || rec.payload.UnknownKind? ==> r.Err?
      ensures r.Err? || rec.payload.PatrolNote? ==>
                store.incidents == old(store.incidents) && store.tracks == old(store.tracks)
    {
      match rec.payload {
        case Malformed =>
          return Err(BadPayload);
        case IncidentReport(incident) =>
          if incident == None {
            return Err(MissingPart);
          }
          var id := ReportIncident(incident.value, d);
          if id.Err? {
            return Err(id.error);
          }
          return Ok(Receipt(id.value));
        case TrackReport(track) =>
          if track == None {
            return Err(MissingPart);
          }
          var fault := SubmitTrack(track.value, true, d.now);
          if fault.Some? {
            return Err(fault.value);
          }
          return Ok(Receipt(track.value.workOrderId));
        case PatrolNote =>
          return Ok(Receipt(rec.localId));
        case UnknownKind =>
          return Err(UnsupportedKind);
      }
    }

    /** The body of the monitor's loop; tells whether the flag is new. */
    method FlagIfDue(i: Incidents.Incident, now: Time, ghost db: Db, ghost list: seq<Incidents.Incident>, ghost n: nat)
      returns (fired: bool)
      requires Valid() && IsOpenList(db, list) && n < |list| && i == list[n]
      requires Swept(db, store.View(), DueAmong(list[..n], cfg.sla, now))
      modifies store`incidents, store`incidentByIssue
      ensures Valid() && Swept(db, store.View(), DueAmong(list[..n + 1], cfg.sla, now))
      ensures |DueAmong(list[..n + 1], cfg.sla, now)| == |DueAmong(list[..n], cfg.sla, now)| + (if fired then 1 else 0)
    {
      SweepStep(db, store.View(), list, n, cfg.sla, now);
      fired := false;
      if i.status != Incidents.Reported || !Incidents.IsSlaBreached(i, cfg.sla, now) {
        return;
      }
      var _, isNew := store.MutateIncident(i.id, Flagging, now);
      fired := isNew;
    }

    /** One sweep of the monitor with nobody else at work. */
    method FlagSlaBreaches(now: Time) returns (flagged: int)
      requires Valid()
      modifies store`incidents, store`incidentByIssue
      ensures Valid()
      ensures Swept(old(store.View()), store.View(), AllDue(old(store.View()), cfg.sla, now))
      ensures flagged == |AllDue(old(store.View()), cfg.sla, now)|
    {
      flagged := 0;
      ghost var db := store.View();
      var list := store.OpenIncidents();
      for n := 0 to |list|
        invariant Valid()
        invariant Swept(db, store.View(), DueAmong(list[..n], cfg.sla, now))
        invariant flagged == |DueAmong(list[..n], cfg.sla, now)|
      {
        var fired := FlagIfDue(list[n], now, db, list, n);
        if fired {
          flagged := flagged + 1;
        }
      }
      assert list[..|list|] == list;
      DueList(db, list, cfg.sla, now);
    }

    /** Issues to the officer, or drops the pending lock when the order does not allow it. */
    method IssueEquipment(id: string, officer: string, order: string, now: Time)
      returns (fault: Option<IssueFault>, err: Option<StoreError>)
      requires Valid()
      modifies store`equipment
      ensures Valid()
      ensures fault == if id in old(store.equipment) then IssueCheck(old(store.View()), officer, order) else None
      ensures fault.Some? ==> err == None && store.View() == ItemReleased(old(store.View()), id, now)
      ensures fault == None ==>
                match ItemIssued(old(store.View()), id, officer, order, now)
                case Ok(db) => err == None && store.View() == db
                case Err(x) => err == Some(x) && store.View() == old(store.View())
      ensures fault.Some? ==>
                match fault.value
                case OrderMissing => order !in store.orders
                case CannotIssue => order in store.orders && store.orders[order].status !in {CheckedIn, InProgress}
                case NotAnAssignee =>
                  && order in store.orders && store.orders[order].status in {CheckedIn, InProgress}
                  && officer !in store.orders[order].assignees
      ensures id in old(store.equipment) ==>
                id in store.equipment && store.equipment == old(store.equipment)[id := store.equipment[id]]
      ensures id in old(store.equipment) && old(store.equipment)[id].status == Locked && old(store.equipment)[id].holder == officer ==>
                if && order in store.orders && officer in store.orders[order].assignees
                   && store.orders[order].status in {CheckedIn, InProgress}
                then fault == None && err == None
                     && store.equipment[id] == old(store.equipment)[id].(status := Issued, order := order, updatedAt := now)
                else fault.Some? && PassedOn(old(store.equipment)[id], store.equipment[id], now)
    {
      fault, err := None, None;
      if id !in store.equipment {
        err := Some(OfEquipment(NotFound));
        return;
      }
      if order !in store.orders {
        store.ReleaseItem(id, now);
        fault := Some(OrderMissing);
        return;
      }
      var w := store.orders[order];
      if !CanIssue(w) {
        store.ReleaseItem(id, now);
        fault := Some(CannotIssue);
        return;
      }
      if officer !in w.assignees {
        store.ReleaseItem(id, now);
        fault := Some(NotAnAssignee);
        return;
      }
      err := store.IssueItem(id, officer, order, now);
    }
  }

  class Syncer {
    const svc: Service
    var online: bool
    var syncedCount: int
    var failedCount: int
    var slaFlagged: int

    constructor (svc: Service)
      ensures this.svc == svc && online && syncedCount == failedCount == slaFlagged == 0
    {
      this.svc, online, syncedCount, failedCount, slaFlagged := svc, true, 0, 0, 0;
    }

    method MonitorSla(now: Time) returns (n: int)
      requires svc.Valid()
      modifies this`slaFlagged, svc.store`incidents, svc.store`incidentByIssue
      ensures svc.Valid()
      ensures var due := AllDue(old(svc.store.View()), svc.cfg.sla, now);
              n == |due| && slaFlagged == old(slaFlagged) + n && Swept(old(svc.store.View()), svc.store.View(), due)
    {
      n := svc.FlagSlaBreaches(now);
      slaFlagged := slaFlagged + n;
    }

    /** The body of the loop in `reconcileOffline`. */
    method ReplayRecord(localId: string, d: Draw) returns (o: Outcome)
      requires svc.Valid()
      modifies this`syncedCount, this`failedCount, svc.store
      ensures svc.Valid()
      ensures svc.store.View() == ReplayDb(svc.cfg, old(svc.store.View()), localId, d)
      ensures o == ReplayOutcome(old(svc.store.View()), localId, d)
      ensures o == Skipped <==> localId !in old(svc.store.offline) || old(svc.store.offline)[localId].status == Synced
      ensures syncedCount == old(syncedCount) + (if o == Done then 1 else 0)
      ensures failedCount == old(failedCount) + (if o == Spoiled then 1 else 0)
    {
      var rec := svc.store.MarkSyncing(localId);
      if rec == None {
        return Skipped;
      }
      var receipt := svc.ApplyOfflineRecord(rec.value, d);
      o := Settle(localId, receipt, d.now);
    }

    /** How one round of that loop ends: with the record synced or failed, and counted. */
    method Settle(localId: string, receipt: Result<string, ApplyError>, now: Time) returns (o: Outcome)
      requires svc.Valid()
      modifies this`syncedCount, this`failedCount, svc.store`offline, svc.store`offlineByReceipt
      ensures svc.Valid()
      ensures match receipt
              case Ok(id) =>
                && o == Done && svc.store.View() == MarkedSynced(old(svc.store.View()), localId, id, now)
                && syncedCount == old(syncedCount) + 1 && failedCount == old(failedCount)
              case Err(e) =>
                && o == Spoiled && svc.store.View() == MarkedFailed(old(svc.store.View()), localId, e)
                && syncedCount == old(syncedCount) && failedCount == old(failedCount) + 1
    {
      if receipt.Err? {
        svc.store.MarkFailed(localId, receipt.error);
        failedCount := failedCount + 1;
        return Spoiled;
      }
      svc.store.MarkSynced(localId, receipt.value, now);
      syncedCount := syncedCount + 1;
      return Done;
    }

    /** One pass with nobody else at work. */
    method ReconcileOffline(draws: nat -> Draw) returns (synced: int, failed: int, ghost list: seq<OfflineRecord>)
      requires svc.Valid()
      modifies this`syncedCount, this`failedCount, svc.store
      ensures svc.Valid()
      ensures syncedCount == old(syncedCount) + synced && failedCount == old(failedCount) + failed
      ensures !online ==> synced == failed == 0 && svc.store.View() == old(svc.store.View())
      ensures online ==>
                && IsPendingList(old(svc.store.View()), list)
                && svc.store.View() == PassDb(svc.cfg, old(svc.store.View()), list, draws)
                && synced == Tally(svc.cfg, old(svc.store.View()), list, draws, Done)
                && failed == Tally(svc.cfg, old(svc.store.View()), list, draws, Spoiled)
    {
      synced, failed, list := 0, 0, [];
      if !online {
        return;
      }
      var records := svc.store.PendingOffline();
      list := records;
      ghost var db := svc.store.View();
      for i := 0 to |records|
        invariant svc.Valid()
        invariant svc.store.View() == PassDb(svc.cfg, db, records[..i], draws)
        invariant synced == Tally(svc.cfg, db, records[..i], draws, Done)
        invariant failed == Tally(svc.cfg, db, records[..i], draws, Spoiled)
        invariant syncedCount == old(syncedCount) + synced && failedCount == old(failedCount) + failed
      {
        PassGrows(svc.cfg, db, records, draws, i);
        var o := ReplayRecord(records[i].localId, draws(i));
        if o == Done {
          synced := synced + 1;
        } else if o == Spoiled {
          failed := failed + 1;
        }
      }
      assert records[..|records|] == records;
    }
  }
}
