/**
 The service calls as functions on the store: what each call that goes through several critical
 sections answers and leaves behind when it runs undisturbed, and the laws of these functions.
 */
module Calls {
  import opened Common
  import opened WorkOrders
  import opened Database
  import Incidents
  import Tracks

  datatype Config = Config(geometry: Tracks.Geometry, threshold: real, sla: Time)

  /** What the outside supplies to one call: the ids it draws and the time it reads. */
  datatype Draw = Draw(issue: string, id: string, now: Time)

  function Receipt(id: string): string {
    "rec:" + id
  }

  function NewIncident(req: IncidentRequest, issue: string, id: string, now: Time): Incidents.Incident {
    Incidents.Incident(id, req.workOrderId, req.kind, Incidents.Reported, req.reporter, "", now, ZERO_TIME, ZERO_TIME, false, issue)
  }

  function IssueOf(req: IncidentRequest, drawn: string): string {
    if req.issueId == "" then drawn else req.issueId
  }

  function ReportOutcome(db: Db, req: IncidentRequest, d: Draw): Result<string, ApplyError> {
    var issue := IssueOf(req, d.issue);
    if FiledUnder(db, issue).Some? then Ok(FiledUnder(db, issue).value)
    else if req.workOrderId !in db.orders then Err(NoSuchOrder)
    else
      var i := NewIncident(req, issue, d.id, d.now);
      if Incidents.Fault(i).Some? then Err(BadIncident(Incidents.Fault(i).value)) else Ok(PutId(db, i))
  }

  function ReportDb(db: Db, req: IncidentRequest, d: Draw): Db {
    var issue := IssueOf(req, d.issue);
    if ReportOutcome(db, req, d).Err? || FiledUnder(db, issue).Some? then db
    else IncidentPut(db, NewIncident(req, issue, d.id, d.now), d.now)
  }

  /** A report gives the incident of its issue, or files a new one: reported, unassigned, unflagged, as of the reading. */
  lemma ReportFiles(db: Db, req: IncidentRequest, d: Draw)
    ensures var issue, r, db' := if req.issueId == "" then d.issue else req.issueId, ReportOutcome(db, req, d), ReportDb(db, req, d);
            && (issue in db.incidentByIssue ==> r.Ok? && db' == db)
            && (issue !in db.incidentByIssue ==>
                  (r.Ok? <==> && req.workOrderId in db.orders && req.workOrderId != "" && req.kind != Incidents.Unrecognised
                              && d.id != "" && issue != ""))
            && (r.Err? ==> db' == db)
            && (r.Ok? && issue !in db.incidentByIssue ==>
                  && r.value == d.id
                  && db' == db.(incidentByIssue := db.incidentByIssue[issue := d.id],
                                incidents := db.incidents[d.id := Incidents.Incident(
                                                            d.id, req.workOrderId, req.kind, Incidents.Reported, req.reporter, "",
                                                            d.now, ZERO_TIME, ZERO_TIME, false, issue)]))
  {
  }

  function TrackFault(db: Db, t: TrackRequest): Option<ApplyError> {
    if t.workOrderId !in db.orders then Some(NoSuchOrder)
    else if db.orders[t.workOrderId].gridId !in db.grids then Some(NoSuchGrid)
    else if t.workOrderId == "" then Some(NoTrackOrder)
    else if |t.points| < 2 then Some(TrackTooShort)
    else None
  }

  ghost predicate Deviates(cfg: Config, points: seq<Tracks.TrackPoint>, route: seq<Tracks.Point>) {
    points != [] && route != [] &&
    (cfg.threshold < 0.0 || Tracks.SomeStrays(cfg.geometry, points, route, Tracks.Squared(cfg.threshold)))
  }

  /** The greatest squared distance of a fix from the route, 0 without fixes or route. */
  ghost function MaxDeviation(cfg: Config, points: seq<Tracks.TrackPoint>, route: seq<Tracks.Point>): real {
    if points != [] && route != [] && exists m :: Tracks.IsMaxSquare(cfg.geometry, points, route, m) then
      var m :| Tracks.IsMaxSquare(cfg.geometry, points, route, m);
      m
    else 0.0
  }

  lemma MaxDeviationIs(cfg: Config, points: seq<Tracks.TrackPoint>, route: seq<Tracks.Point>, m: real)
    requires points != [] && route != [] && Tracks.IsMaxSquare(cfg.geometry, points, route, m)
    ensures MaxDeviation(cfg, points, route) == m
  {
    Tracks.MaxSquareUnique(cfg.geometry, points, route, m, MaxDeviation(cfg, points, route));
  }

  ghost function NewTrack(cfg: Config, t: TrackRequest, route: seq<Tracks.Point>, offline: bool, now: Time): Track {
    Track(t.workOrderId, t.points, now, MaxDeviation(cfg, t.points, route), Deviates(cfg, t.points, route), offline)
  }

  /** The track of a request has its points and the reading, and the flag and the greatest deviation that geometry gives it. */
  lemma NewTrackTells(cfg: Config, t: TrackRequest, route: seq<Tracks.Point>, offline: bool, now: Time)
    requires cfg.geometry.Valid()
    ensures var s := NewTrack(cfg, t, route, offline, now);
            && s.workOrderId == t.workOrderId && s.points == t.points && s.submittedAt == now && s.offline == offline
            && (s.deviation <==>
                  && t.points != [] && route != []
                  && (cfg.threshold < 0.0
                      || Tracks.SomeStrays(cfg.geometry, t.points, route, Tracks.Squared(cfg.threshold))))
            && (t.points != [] && route != [] ==> Tracks.IsMaxSquare(cfg.geometry, t.points, route, s.maxDeviation))
            && (route == [] ==> s.maxDeviation == 0.0)
  {
    if t.points != [] && route != [] {
      var m := Tracks.MaxSquareExists(cfg.geometry, t.points, route);
      MaxDeviationIs(cfg, t.points, route, m);
    }
  }

  ghost function TrackDb(cfg: Config, db: Db, t: TrackRequest, offline: bool, now: Time): Db {
    if TrackFault(db, t).Some? then db
    else TrackSaved(db, NewTrack(cfg, t, db.grids[db.orders[t.workOrderId].gridId].route, offline, now))
  }

  function ApplyOutcome(db: Db, r: OfflineRecord, d: Draw): Result<string, ApplyError> {
    match r.payload
    case Malformed => Err(BadPayload)
    case IncidentReport(None) => Err(MissingPart)
    case IncidentReport(Some(req)) =>
      (match ReportOutcome(db, req, d)
       case Ok(id) => Ok(Receipt(id))
       case Err(e) => Err(e))
    case TrackReport(None) => Err(MissingPart)
    case TrackReport(Some(t)) =>
      var fault := TrackFault(db, t);
      if fault.Some? then Err(fault.value) else Ok(Receipt(t.workOrderId))
    case PatrolNote => Ok(Receipt(r.localId))
    case UnknownKind => Err(UnsupportedKind)
  }

  ghost function ApplyDb(cfg: Config, db: Db, r: OfflineRecord, d: Draw): Db {
    match r.payload
    case IncidentReport(Some(req)) => ReportDb(db, req, d)
    case TrackReport(Some(t)) => TrackDb(cfg, db, t, true, d.now)
    case _ => db
  }

  datatype Outcome = Skipped | Done | Spoiled

  function ReplayOutcome(db: Db, localId: string, d: Draw): Outcome {
    if !CanSync(db, localId) then Skipped
    else
      var db1 := MarkedSyncing(db, localId);
      if ApplyOutcome(db1, db1.offline[localId], d).Ok? then Done else Spoiled
  }

  ghost function ReplayDb(cfg: Config, db: Db, localId: string, d: Draw): Db {
    if !CanSync(db, localId) then db
    else
      var db1 := MarkedSyncing(db, localId);
      var r := db1.offline[localId];
      var db2 := ApplyDb(cfg, db1, r, d);
      match ApplyOutcome(db1, r, d)
      case Ok(receipt) => MarkedSynced(db2, localId, receipt, d.now)
      case Err(e) => MarkedFailed(db2, localId, e)
  }

  ghost function PassDb(cfg: Config, db: Db, list: seq<OfflineRecord>, draws: nat -> Draw): Db {
    if list == [] then db
    else ReplayDb(cfg, PassDb(cfg, db, list[..|list| - 1], draws), list[|list| - 1].localId, draws(|list| - 1))
  }

  /** How many records of the list end in `o`. */
  ghost function Tally(cfg: Config, db: Db, list: seq<OfflineRecord>, draws: nat -> Draw, o: Outcome): nat {
    if list == [] then 0
    else
      var n := |list| - 1;
      Tally(cfg, db, list[..n], draws, o)
      + (if ReplayOutcome(PassDb(cfg, db, list[..n], draws), list[n].localId, draws(n)) == o then 1 else 0)
  }

  datatype IssueFault = OrderMissing | CannotIssue | NotAnAssignee

  /** The check that `IssueEquipment` makes on the order before it touches the item. */
  function IssueCheck(db: Db, officer: string, order: string): Option<IssueFault> {
    if order !in db.orders then Some(OrderMissing)
    else if !CanIssue(db.orders[order]) then Some(CannotIssue)
    else if officer !in db.orders[order].assignees then Some(NotAnAssignee)
    else None
  }

  /** Whether the monitor flags the incident when it reads the clock at `now`. */
  predicate Due(i: Incidents.Incident, sla: Time, now: Time) {
    Incidents.CanFlag(i) && now - i.reportedAt > sla
  }

  ghost function DueAmong(list: seq<Incidents.Incident>, sla: Time, now: Time): set<string> {
    set i | i in list && Due(i, sla, now) :: i.id
  }

  ghost function AllDue(db: Db, sla: Time, now: Time): set<string> {
    set k | k in db.incidents && Due(db.incidents[k], sla, now)
  }

  ghost function Marked(m: map<string, Incidents.Incident>, ids: set<string>): map<string, Incidents.Incident> {
    map k | k in m :: if k in ids then m[k].(breached := true) else m[k]
  }

  /** Index entries are as before, or lead to an incident that carries the issue. */
  ghost predicate IndexFollows(db: Db, index: map<string, string>) {
    && db.incidentByIssue.Keys <= index.Keys
    && forall k :: k in index ==>
         || (k in db.incidentByIssue && index[k] == db.incidentByIssue[k])
         || (index[k] in db.incidents && db.incidents[index[k]].issueId == k)
  }

  /**
   The monitor has flagged exactly the incidents `ids`. Where index and incidents were inverse,
   the index is as before; each save rewrites an entry of it.
   */
  ghost predicate Swept(db: Db, db': Db, ids: set<string>) {
    && db' == db.(incidents := Marked(db.incidents, ids), incidentByIssue := db'.incidentByIssue)
    && IndexFollows(db, db'.incidentByIssue)
    && (Indexed(db) ==> db'.incidentByIssue == db.incidentByIssue)
  }

  lemma DueGrows(db: Db, list: seq<Incidents.Incident>, n: nat, sla: Time, now: Time)
    requires IsOpenList(db, list) && n < |list|
    ensures var ids, i := DueAmong(list[..n], sla, now), list[n];
            && i.id !in ids && i.id in db.incidents && db.incidents[i.id] == i
            && DueAmong(list[..n + 1], sla, now) == (if Due(i, sla, now) then ids + {i.id} else ids)
  {
    assert list[n] in list;
    assert list[..n + 1] == list[..n] + [list[n]];
  }

  /** One more incident looked at: it is marked exactly if it is due. */
  lemma SweepStep(db: Db, db1: Db, list: seq<Incidents.Incident>, n: nat, sla: Time, now: Time)
    requires IsOpenList(db, list) && n < |list| && Swept(db, db1, DueAmong(list[..n], sla, now))
    ensures list[n].id in db1.incidents && db1.incidents[list[n].id] == list[n]
    ensures Due(list[n], sla, now) ==>
              && IncidentMutated(db1, list[n].id, Flagging, now).Ok?
              && Swept(db, IncidentMutated(db1, list[n].id, Flagging, now).value, DueAmong(list[..n + 1], sla, now))
              && |DueAmong(list[..n + 1], sla, now)| == |DueAmong(list[..n], sla, now)| + 1
    ensures !Due(list[n], sla, now) ==> DueAmong(list[..n + 1], sla, now) == DueAmong(list[..n], sla, now)
    ensures !Incidents.CanFlag(list[n]) ==>
              && IncidentMutated(db1, list[n].id, Flagging, now).Ok?
              && Swept(db, IncidentMutated(db1, list[n].id, Flagging, now).value, DueAmong(list[..n + 1], sla, now))
  {
    DueGrows(db, list, n, sla, now);
    var i := list[n];
    if Due(i, sla, now) {
      MarkedOneMore(db.incidents, DueAmong(list[..n], sla, now), i.id);
      SavedSwept(db, db1, i.(breached := true), DueAmong(list[..n], sla, now), DueAmong(list[..n + 1], sla, now));
    } else if !Incidents.CanFlag(i) {
      assert db1.incidents[i.id := i] == db1.incidents;
      SavedSwept(db, db1, i, DueAmong(list[..n], sla, now), DueAmong(list[..n + 1], sla, now));
    }
  }

  lemma SavedSwept(db: Db, db1: Db, i: Incidents.Incident, ids: set<string>, ids': set<string>)
    requires Swept(db, db1, ids) && i.id in db.incidents && db.incidents[i.id].issueId == i.issueId
    requires db.incidents[i.id].id == i.id && db1.incidents[i.id := i] == Marked(db.incidents, ids')
    ensures Swept(db, IncidentSaved(db1, i), ids')
  {
    if Indexed(db) {
      SavedAlike(db1, i);
    }
  }

  /** Saving an incident under the issue that it is filed under leaves the index alone. */
  lemma SavedAlike(db: Db, i: Incidents.Incident)
    requires i.issueId in db.incidentByIssue && db.incidentByIssue[i.issueId] == i.id
    ensures IncidentSaved(db, i) == db.(incidents := db.incidents[i.id := i])
  {
    assert db.incidentByIssue[i.issueId := i.id] == db.incidentByIssue;
  }

  lemma MarkedOneMore(m: map<string, Incidents.Incident>, ids: set<string>, k: string)
    requires k in m && k !in ids
    ensures Marked(m, ids + {k}) == Marked(m, ids)[k := m[k].(breached := true)]
  {
  }

  lemma DueList(db: Db, list: seq<Incidents.Incident>, sla: Time, now: Time)
    requires IsOpenList(db, list) && Linked(db)
    ensures DueAmong(list, sla, now) == AllDue(db, sla, now)
  {
    forall k | k in AllDue(db, sla, now) ensures k in DueAmong(list, sla, now) {
      assert db.incidents[k] in list;
    }
  }

  /** After a sweep an incident is flagged exactly if it was, or is still reported and late; nothing else of it changes. */
  lemma SweptFlagsIff(db: Db, db': Db, sla: Time, now: Time, k: string)
    requires Swept(db, db', AllDue(db, sla, now)) && k in db.incidents
    ensures db'.incidents.Keys == db.incidents.Keys
    ensures var i, i' := db.incidents[k], db'.incidents[k];
            && i' == i.(breached := i'.breached)
            && (i'.breached <==> i.breached || (i.status == Incidents.Reported && now - i.reportedAt > sla))
  {
  }

  /** A new incident is open, and the monitor flags it exactly when it reads the clock more than the deadline after the report. */
  lemma ReportIsWatched(db: Db, req: IncidentRequest, d: Draw, db': Db, list: seq<Incidents.Incident>, sla: Time, now: Time)
    requires ReportOutcome(db, req, d).Ok? && IssueOf(req, d.issue) !in db.incidentByIssue
    requires IsOpenList(ReportDb(db, req, d), list) && Swept(ReportDb(db, req, d), db', AllDue(ReportDb(db, req, d), sla, now))
    ensures d.id in db'.incidents
    ensures exists i :: i in list && i.id == d.id
    ensures d.id in AllDue(ReportDb(db, req, d), sla, now) <==> now - d.now > sla
    ensures db'.incidents[d.id].breached <==> now - d.now > sla
  {
    ReportFiles(db, req, d);
    assert ReportDb(db, req, d).incidents[d.id] in list;
  }

  lemma PassGrows(cfg: Config, db: Db, list: seq<OfflineRecord>, draws: nat -> Draw, i: nat)
    requires i < |list|
    ensures var db1 := PassDb(cfg, db, list[..i], draws);
            && PassDb(cfg, db, list[..i + 1], draws) == ReplayDb(cfg, db1, list[i].localId, draws(i))
            && Tally(cfg, db, list[..i + 1], draws, Done)
               == Tally(cfg, db, list[..i], draws, Done)
                  + (if ReplayOutcome(db1, list[i].localId, draws(i)) == Done then 1 else 0)
            && Tally(cfg, db, list[..i + 1], draws, Spoiled)
               == Tally(cfg, db, list[..i], draws, Spoiled)
                  + (if ReplayOutcome(db1, list[i].localId, draws(i)) == Spoiled then 1 else 0)
  {
    assert list[..i + 1][..i] == list[..i];
  }

  /** A pass replays the first of its list, which is the oldest, before the others. */
  lemma {:induction false} PassFromFront(cfg: Config, db: Db, list: seq<OfflineRecord>, draws: nat -> Draw)
    requires list != []
    ensures PassDb(cfg, db, list, draws)
            == PassDb(cfg, ReplayDb(cfg, db, list[0].localId, draws(0)), list[1..], Later(draws))
  {
    var n := |list| - 1;
    if n > 0 {
      PassFromFront(cfg, db, list[..n], draws);
      assert list[..n][1..] == list[1..][..n - 1];
    } else {
      assert PassDb(cfg, db, list[..0], draws) == db;
    }
  }

  function Later(draws: nat -> Draw): nat -> Draw {
    (n: nat) => draws(n + 1)
  }

  // ------------------------------------------------------------------ laws of the sequential calls

  /** Each issue id has one incident and each incident is found under its issue id. */
  ghost predicate Indexed(db: Db) {
    && (forall k :: k in db.incidentByIssue ==>
          db.incidentByIssue[k] in db.incidents && db.incidents[db.incidentByIssue[k]].issueId == k)
    && (forall id :: id in db.incidents ==>
          && db.incidents[id].id == id
          && db.incidents[id].issueId in db.incidentByIssue
          && db.incidentByIssue[db.incidents[id].issueId] == id)
  }

  lemma ReportKeepsIndexed(db: Db, req: IncidentRequest, d: Draw)
    requires Indexed(db) && d.id !in db.incidents
    ensures Indexed(ReportDb(db, req, d))
    ensures var r := ReportOutcome(db, req, d);
            r.Ok? ==> FiledUnder(ReportDb(db, req, d), IssueOf(req, d.issue)) == Some(r.value) && r.value in ReportDb(db, req, d).incidents
  {
    var i := NewIncident(req, IssueOf(req, d.issue), d.id, d.now);
    if ReportOutcome(db, req, d).Ok? && i.issueId !in db.incidentByIssue {
      FreshPutIndexed(db, i, d.now);
    }
  }

  lemma FreshPutIndexed(db: Db, i: Incidents.Incident, now: Time)
    requires Indexed(db) && i.id !in db.incidents && i.issueId != "" && i.issueId !in db.incidentByIssue
    ensures Indexed(IncidentPut(db, i, now)) && FiledUnder(IncidentPut(db, i, now), i.issueId) == Some(i.id)
  {
  }

  /** Reporting twice gives the same incident exactly when the client names the issue. */
  lemma ReportIdempotentIff(db: Db, req: IncidentRequest, first: Draw, second: Draw)
    requires Indexed(db) && first.id !in db.incidents
    requires second.id !in ReportDb(db, req, first).incidents
    requires second.issue !in ReportDb(db, req, first).incidentByIssue
    requires ReportOutcome(db, req, first).Ok? && ReportOutcome(ReportDb(db, req, first), req, second).Ok?
    ensures ReportOutcome(db, req, first) == ReportOutcome(ReportDb(db, req, first), req, second)
            <==> req.issueId != ""
    ensures req.issueId != "" ==> ReportDb(ReportDb(db, req, first), req, second) == ReportDb(db, req, first)
  {
    ReportKeepsIndexed(db, req, first);
    ReportKeepsIndexed(ReportDb(db, req, first), req, second);
  }

  lemma ApplyFrame(cfg: Config, db: Db, r: OfflineRecord, d: Draw)
    ensures ApplyDb(cfg, db, r, d).offline == db.offline
  {
    match r.payload
    case IncidentReport(Some(req)) =>
      ReportFrame(db, req, d);
    case TrackReport(Some(t)) =>
      TrackFrame(cfg, db, t, true, d.now);
    case _ =>
  }

  lemma ReportFrame(db: Db, req: IncidentRequest, d: Draw)
    ensures ReportDb(db, req, d).offline == db.offline
  {
  }

  lemma TrackFrame(cfg: Config, db: Db, t: TrackRequest, offline: bool, now: Time)
    ensures TrackDb(cfg, db, t, offline, now).offline == db.offline
  {
  }

  /** What one replay does to the offline records. */
  ghost predicate RecordSettled(db: Db, db': Db, localId: string, done: bool) {
    && db'.offline.Keys == db.offline.Keys
    && (forall k :: k in db.offline && k != localId ==> db'.offline[k] == db.offline[k])
    && localId in db.offline
    && db'.offline[localId].status == (if done then Synced else Failed)
    && db'.offline[localId].localId == db.offline[localId].localId
    && db'.offline[localId].attempts == db.offline[localId].attempts + 1
  }

  lemma ReplaySettles(cfg: Config, db: Db, localId: string, d: Draw)
    requires CanSync(db, localId)
    ensures ReplayOutcome(db, localId, d) != Skipped
    ensures RecordSettled(db, ReplayDb(cfg, db, localId, d), localId, ReplayOutcome(db, localId, d) == Done)
  {
    var db1 := MarkedSyncing(db, localId);
    var r := db1.offline[localId];
    ApplyFrame(cfg, db1, r, d);
    var db2 := ApplyDb(cfg, db1, r, d);
    match ApplyOutcome(db1, r, d)
    case Ok(receipt) =>
      assert ReplayDb(cfg, db, localId, d) == MarkedSynced(db2, localId, receipt, d.now);
    case Err(e) =>
      assert ReplayDb(cfg, db, localId, d) == MarkedFailed(db2, localId, e);
  }

  ghost function Ids(list: seq<OfflineRecord>): set<string> {
    set r | r in list :: r.localId
  }

  ghost predicate ListsAwaiting(db: Db, list: seq<OfflineRecord>) {
    DistinctIds(list) && forall k :: k in Ids(list) ==> k in db.offline && AwaitsSync(db.offline[k])
  }

  /** From `db` to `db'` the listed records were settled, all of them successfully or not, and no other record was touched. */
  ghost predicate ListSettled(db: Db, db': Db, ids: set<string>, allDone: bool) {
    && db'.offline.Keys == db.offline.Keys
    && ids <= db.offline.Keys
    && (forall k :: k in db.offline && k !in ids ==> db'.offline[k] == db.offline[k])
    && (forall k :: k in ids ==>
          && db'.offline[k].status in {Synced, Failed}
          && db'.offline[k].localId == db.offline[k].localId
          && db'.offline[k].attempts == db.offline[k].attempts + 1)
    && (allDone <==> forall k :: k in ids ==> db'.offline[k].status == Synced)
  }

  lemma ListSettledGrows(db: Db, db1: Db, db2: Db, ids: set<string>, last: string, allDone: bool, done: bool)
    requires last !in ids && ListSettled(db, db1, ids, allDone) && RecordSettled(db1, db2, last, done)
    ensures ListSettled(db, db2, ids + {last}, allDone && done)
  {
  }

  lemma IdsSplit(list: seq<OfflineRecord>, n: nat)
    requires |list| == n + 1 && DistinctIds(list)
    ensures list[n].localId !in Ids(list[..n]) && Ids(list) == Ids(list[..n]) + {list[n].localId}
  {
    assert list == list[..n] + [list[n]];
  }

  /** A pass touches the listed records only, once each, and leaves each of them synced or failed. */
  lemma {:induction false} PassSettles(cfg: Config, db: Db, list: seq<OfflineRecord>, draws: nat -> Draw)
    requires ListsAwaiting(db, list)
    ensures ListSettled(db, PassDb(cfg, db, list, draws), Ids(list), Tally(cfg, db, list, draws, Spoiled) == 0)
    ensures Tally(cfg, db, list, draws, Done) + Tally(cfg, db, list, draws, Spoiled) == |list|
  {
    if list != [] {
      var n := |list| - 1;
      var last := list[n].localId;
      IdsSplit(list, n);
      PassSettles(cfg, db, list[..n], draws);
      PassGrows(cfg, db, list, draws, n);
      assert list[..n + 1] == list;
      var db1 := PassDb(cfg, db, list[..n], draws);
      assert db1.offline[last] == db.offline[last];
      ReplaySettles(cfg, db1, last, draws(n));
      ListSettledGrows(db, db1, PassDb(cfg, db, list, draws), Ids(list[..n]), last,
                       Tally(cfg, db, list[..n], draws, Spoiled) == 0, ReplayOutcome(db1, last, draws(n)) == Done);
    }
  }

  lemma PendingListLists(db: Db, list: seq<OfflineRecord>)
    requires IsPendingList(db, list)
    ensures ListsAwaiting(db, list)
    ensures forall k :: k in db.offline && db.offline[k].localId == k && AwaitsSync(db.offline[k]) ==> k in Ids(list)
  {
    forall i, j | 0 <= i < j < |list| ensures list[i].localId != list[j].localId {
      assert list[i] in list && list[j] in list;
      BeforeOrder(list[i], list[i], list[i]);
    }
    forall k | k in db.offline && db.offline[k].localId == k && AwaitsSync(db.offline[k]) ensures k in Ids(list) {
      assert db.offline[k] in list;
    }
  }

  /** After an undisturbed pass nothing awaits syncing exactly when nothing failed; a further pass then changes nothing. */
  lemma SecondPassIdleIff(cfg: Config, db: Db, list: seq<OfflineRecord>, draws: nat -> Draw,
                          list': seq<OfflineRecord>, draws': nat -> Draw)
    requires Linked(db) && IsPendingList(db, list) && IsPendingList(PassDb(cfg, db, list, draws), list')
    ensures list' == [] <==> Tally(cfg, db, list, draws, Spoiled) == 0
    ensures list' == [] ==> PassDb(cfg, PassDb(cfg, db, list, draws), list', draws') == PassDb(cfg, db, list, draws)
  {
    PendingListLists(db, list);
    PassSettles(cfg, db, list, draws);
    SettledLists(db, PassDb(cfg, db, list, draws), list, list', Tally(cfg, db, list, draws, Spoiled) == 0);
  }

  lemma SettledLists(db: Db, db': Db, list: seq<OfflineRecord>, list': seq<OfflineRecord>, allDone: bool)
    requires Linked(db) && IsPendingList(db, list) && IsPendingList(db', list') && ListSettled(db, db', Ids(list), allDone)
    ensures list' == [] <==> allDone
  {
    PendingListLists(db, list);
    PendingListLists(db', list');
    if list' == [] {
      assert Ids(list') == {};
    } else {
      assert list'[0] in list';
      assert list'[0].localId in Ids(list);
    }
  }

  // ------------------------------------------------------------------ applying a record again

  /** The payloads whose second application finds the work done: all but an unnamed report and a track submitted at another time. */
  predicate Repeatable(p: Payload, first: Time, second: Time) {
    match p
    case IncidentReport(Some(req)) => req.issueId != ""
    case TrackReport(Some(_)) => first == second
    case _ => true
  }

  /** Applying a record again with nothing in between changes nothing exactly for these. */
  lemma SecondApplyIdleIff(cfg: Config, db: Db, r: OfflineRecord, d: Draw, d': Draw)
    requires Indexed(db) && ApplyOutcome(db, r, d).Ok?
    requires d.issue !in db.incidentByIssue && d.id !in db.incidents
    requires d'.issue != "" && d'.issue !in ApplyDb(cfg, db, r, d).incidentByIssue
    requires d'.id != "" && d'.id !in ApplyDb(cfg, db, r, d).incidents
    ensures ApplyDb(cfg, ApplyDb(cfg, db, r, d), r, d') == ApplyDb(cfg, db, r, d) <==> Repeatable(r.payload, d.now, d'.now)
  {
    match r.payload
    case IncidentReport(Some(req)) => SecondReportIdleIff(db, req, d, d');
    case TrackReport(Some(t)) => SecondTrackIdleIff(cfg, db, t, d.now, d'.now);
    case _ =>
  }

  lemma SecondReportIdleIff(db: Db, req: IncidentRequest, d: Draw, d': Draw)
    requires Indexed(db) && ReportOutcome(db, req, d).Ok?
    requires d.issue !in db.incidentByIssue && d.id !in db.incidents
    requires d'.issue != "" && d'.issue !in ReportDb(db, req, d).incidentByIssue
    requires d'.id != "" && d'.id !in ReportDb(db, req, d).incidents
    ensures ReportDb(ReportDb(db, req, d), req, d') == ReportDb(db, req, d) <==> req.issueId != ""
  {
    ReportKeepsIndexed(db, req, d);
    if req.issueId == "" {
      var db1 := ReportDb(db, req, d);
      assert req.workOrderId in db1.orders;
      assert Incidents.Fault(NewIncident(req, d'.issue, d'.id, d'.now)) == None;
      assert d'.id in ReportDb(db1, req, d').incidents;
    }
  }

  lemma SecondTrackIdleIff(cfg: Config, db: Db, t: TrackRequest, now: Time, now': Time)
    requires TrackFault(db, t) == None
    ensures TrackDb(cfg, TrackDb(cfg, db, t, true, now), t, true, now') == TrackDb(cfg, db, t, true, now) <==> now == now'
  {
    var db1, db2 := TrackDb(cfg, db, t, true, now), TrackDb(cfg, TrackDb(cfg, db, t, true, now), t, true, now');
    assert db1.tracks[t.workOrderId].submittedAt == now && db2.tracks[t.workOrderId].submittedAt == now';
    if now == now' {
      assert db2.tracks == db1.tracks;
    }
  }
}
