/**
 Offline replay as it runs: any number of workers, each at its own point in
 `reconcileOffline`, `ReportIncident` or `SubmitTrack`, interleaved with enqueues, incident
 changes and changes to orders and grids. One action is one critical section of the store or
 one access to a counter.
 */
module Replay {
  import opened Common
  import opened Database
  import opened Calls
  import Incidents

  /** Who asked for an incident or a track: a client, or a pass with records still to go. */
  datatype Origin = Direct | Replaying(localId: string, rest: seq<string>)

  /** What a worker is about to do. */
  datatype Task =
    | Idle
    | Snapshot
    | Pass(rest: seq<string>)
    | Lookup(origin: Origin, req: IncidentRequest, issue: string)
    | CheckOrder(origin: Origin, req: IncidentRequest, issue: string)
    | Put(origin: Origin, incident: Incidents.Incident)
    | ReadOrder(origin: Origin, track: TrackRequest)
    | ReadGrid(origin: Origin, track: TrackRequest, gridId: string)
    | Save(origin: Origin, saved: Track)
    | Confirm(localId: string, rest: seq<string>, receipt: string)
    | GiveUp(localId: string, rest: seq<string>, error: ApplyError)
    | CountSynced(rest: seq<string>)
    | WriteSynced(rest: seq<string>, read: int)
    | CountFailed(rest: seq<string>)

  /**
   What the workers share. `tally` counts the increments of `syncedCount` that were carried
   out, `lost` tells whether one of them overwrote a value that it had not read. `reports` and
   `applied` record what was returned: (issue, incident) and (record, receipt).
   */
  datatype Shared = Shared(
    db: Db, syncedCount: int, failedCount: int,
    drawn: set<string>, tally: int, lost: bool, reports: set<(string, string)>, applied: set<(string, string)>)

  datatype State = State(online: bool, tasks: map<nat, Task>, sh: Shared)

  /** One worker's view: the shared part and its own point. */
  datatype View = View(sh: Shared, task: Task)

  datatype Action =
    | Spawn(w: nat)
    | SetOnline(online: bool)
    | Enqueue(localId: string, payload: Payload, createdAt: Time, now: Time)
    | MutateIncident(incident: Incidents.Incident)
    | Elsewhere(db: Db)
    | BeginPass(w: nat)
    | BeginReport(w: nat, req: IncidentRequest, drawnIssue: string)
    | BeginTrack(w: nat, track: TrackRequest)
    | Step(w: nat, list: seq<OfflineRecord>, draw: Draw)

  predicate Init(s: State) {
    && s.tasks == map[]
    && s.sh.db.incidents == map[] && s.sh.db.incidentByIssue == map[]
    && s.sh.db.offline == map[] && s.sh.db.offlineByReceipt == map[]
    && s.sh.syncedCount == 0 && s.sh.failedCount == 0 && s.sh.tally == 0 && !s.sh.lost
    && s.sh.reports == {} && s.sh.applied == {}
  }

  predicate IsIdle(s: State, w: nat) {
    w in s.tasks && s.tasks[w] == Idle
  }

  ghost predicate Can(s: State, a: Action) {
    match a
    case Spawn(w) => w !in s.tasks
    case SetOnline(_) => true
    case Enqueue(_, _, _, _) => true
    case MutateIncident(i) => i.id in s.sh.db.incidents && i.issueId == s.sh.db.incidents[i.id].issueId
    case Elsewhere(db) => SameReplayPart(s.sh.db, db)
    case BeginPass(w) => IsIdle(s, w) && s.online
    case BeginReport(w, _, drawnIssue) => IsIdle(s, w) && drawnIssue != ""
    case BeginTrack(w, _) => IsIdle(s, w)
    case Step(w, list, draw) =>
      w in s.tasks && s.tasks[w] != Idle && Supplied(View(s.sh, s.tasks[w]), list, draw)
  }

  /** Orders, grids, checkpoints, request keys and equipment may change in any way. */
  predicate SameReplayPart(db: Db, db': Db) {
    && db'.offline == db.offline && db'.offlineByReceipt == db.offlineByReceipt
    && db'.incidents == db.incidents && db'.incidentByIssue == db.incidentByIssue && db'.tracks == db.tracks
  }

  /** The snapshot is the pending list of the moment, and drawn ids are new. */
  ghost predicate Supplied(v: View, list: seq<OfflineRecord>, draw: Draw) {
    && (v.task.Snapshot? ==> IsPendingList(v.sh.db, list))
    && draw.issue != "" && draw.id !in v.sh.drawn
  }

  function LocalIds(list: seq<OfflineRecord>): seq<string> {
    seq(|list|, i requires 0 <= i < |list| => list[i].localId)
  }

  /** The call made for `o` returns `r`. */
  function Return(sh: Shared, o: Origin, r: Result<string, ApplyError>): View {
    match o
    case Direct => View(sh, Idle)
    case Replaying(localId, rest) =>
      match r
      case Ok(id) => View(sh.(applied := sh.applied + {(localId, Receipt(id))}), Confirm(localId, rest, Receipt(id)))
      case Err(e) => View(sh, GiveUp(localId, rest, e))
  }

  /** Unpacks a record that was just marked and enters the call it asks for. */
  function Unpacked(sh: Shared, r: OfflineRecord, rest: seq<string>, drawnIssue: string): View {
    var o := Replaying(r.localId, rest);
    match r.payload
    case Malformed => Return(sh, o, Err(BadPayload))
    case IncidentReport(None) => Return(sh, o, Err(MissingPart))
    case IncidentReport(Some(req)) => View(sh, Lookup(o, req, IssueOf(req, drawnIssue)))
    case TrackReport(None) => Return(sh, o, Err(MissingPart))
    case TrackReport(Some(t)) => View(sh, ReadOrder(o, t))
    case PatrolNote => Return(sh, o, Ok(r.localId))
    case UnknownKind => Return(sh, o, Err(UnsupportedKind))
  }

  function PassStep(sh: Shared, rest: seq<string>, draw: Draw): View {
    if rest == [] then View(sh, Idle)
    else if !CanSync(sh.db, rest[0]) then View(sh, Pass(rest[1..]))
    else
      var db := MarkedSyncing(sh.db, rest[0]);
      Unpacked(sh.(db := db), db.offline[rest[0]], rest[1..], draw.issue)
  }

  function LookupStep(sh: Shared, o: Origin, req: IncidentRequest, issue: string): View {
    match FiledUnder(sh.db, issue)
    case Some(id) => Return(sh.(reports := sh.reports + {(issue, id)}), o, Ok(id))
    case None => View(sh, CheckOrder(o, req, issue))
  }

  function CheckOrderStep(sh: Shared, o: Origin, req: IncidentRequest, issue: string, draw: Draw): View {
    if req.workOrderId !in sh.db.orders then Return(sh, o, Err(NoSuchOrder))
    else
      var i := NewIncident(req, issue, draw.id, draw.now);
      var sh1 := sh.(drawn := sh.drawn + {draw.id});
      if Incidents.Fault(i).Some? then Return(sh1, o, Err(BadIncident(Incidents.Fault(i).value)))
      else View(sh1, Put(o, i))
  }

  function PutStep(sh: Shared, o: Origin, i: Incidents.Incident, draw: Draw): View {
    var id := PutId(sh.db, i);
    Return(sh.(db := IncidentPut(sh.db, i, draw.now), reports := sh.reports + {(i.issueId, id)}), o, Ok(id))
  }

  function ReadOrderStep(sh: Shared, o: Origin, t: TrackRequest): View {
    if t.workOrderId !in sh.db.orders then Return(sh, o, Err(NoSuchOrder))
    else View(sh, ReadGrid(o, t, sh.db.orders[t.workOrderId].gridId))
  }

  ghost function ReadGridStep(cfg: Config, sh: Shared, o: Origin, t: TrackRequest, gridId: string, draw: Draw): View {
    if gridId !in sh.db.grids then Return(sh, o, Err(NoSuchGrid))
    else if t.workOrderId == "" then Return(sh, o, Err(NoTrackOrder))
    else if |t.points| < 2 then Return(sh, o, Err(TrackTooShort))
    else View(sh, Save(o, NewTrack(cfg, t, sh.db.grids[gridId].route, o.Replaying?, draw.now)))
  }

  /** What a worker's next step does. */
  ghost function Stepped(cfg: Config, v: View, list: seq<OfflineRecord>, draw: Draw): View {
    var sh := v.sh;
    match v.task
    case Idle => v
    case Snapshot => View(sh, Pass(LocalIds(list)))
    case Pass(rest) => PassStep(sh, rest, draw)
    case Lookup(o, req, issue) => LookupStep(sh, o, req, issue)
    case CheckOrder(o, req, issue) => CheckOrderStep(sh, o, req, issue, draw)
    case Put(o, i) => PutStep(sh, o, i, draw)
    case ReadOrder(o, t) => ReadOrderStep(sh, o, t)
    case ReadGrid(o, t, gridId) => ReadGridStep(cfg, sh, o, t, gridId, draw)
    case Save(o, t) => Return(sh.(db := TrackSaved(sh.db, t)), o, Ok(t.workOrderId))
    case Confirm(k, rest, receipt) => View(sh.(db := MarkedSynced(sh.db, k, receipt, draw.now)), CountSynced(rest))
    case GiveUp(k, rest, error) => View(sh.(db := MarkedFailed(sh.db, k, error)), CountFailed(rest))
    case CountSynced(rest) => View(sh, WriteSynced(rest, sh.syncedCount))
    case WriteSynced(rest, read) =>
      View(sh.(syncedCount := read + 1, tally := sh.tally + 1, lost := sh.lost || read != sh.syncedCount), Pass(rest))
    case CountFailed(rest) => View(sh.(failedCount := sh.failedCount + 1), Pass(rest))
  }

  function At(s: State, w: nat, v: View): State {
    s.(sh := v.sh, tasks := s.tasks[w := v.task])
  }

  /** The record that `EnqueueOffline` is given; status, attempts and receipt are left blank. */
  function NewRecord(localId: string, payload: Payload, createdAt: Time): OfflineRecord {
    OfflineRecord(localId, payload, Blank, 0, None, createdAt, ZERO_TIME, "")
  }

  ghost function Do(cfg: Config, s: State, a: Action): State
    requires Can(s, a)
  {
    match a
    case Spawn(w) => At(s, w, View(s.sh, Idle))
    case SetOnline(online) => s.(online := online)
    case Enqueue(localId, payload, createdAt, now) =>
      s.(sh := s.sh.(db := Enqueued(s.sh.db, NewRecord(localId, payload, createdAt), now)))
    case MutateIncident(i) => s.(sh := s.sh.(db := IncidentSaved(s.sh.db, i)))
    case Elsewhere(db) => s.(sh := s.sh.(db := db))
    case BeginPass(w) => At(s, w, View(s.sh, Snapshot))
    case BeginReport(w, req, drawnIssue) => At(s, w, View(s.sh, Lookup(Direct, req, IssueOf(req, drawnIssue))))
    case BeginTrack(w, t) => At(s, w, View(s.sh, ReadOrder(Direct, t)))
    case Step(w, list, draw) => At(s, w, Stepped(cfg, View(s.sh, s.tasks[w]), list, draw))
  }

  ghost predicate Follows(cfg: Config, s: State, s': State) {
    exists a :: Can(s, a) && Do(cfg, s, a) == s'
  }

  /** `trace` starts from an empty service and each state follows from the one before by one action. */
  ghost predicate IsRun(cfg: Config, trace: seq<State>) {
    && trace != [] && Init(trace[0])
    && forall i :: 0 <= i < |trace| - 1 ==> FollowsAt(cfg, trace, i)
  }

  ghost predicate FollowsAt(cfg: Config, trace: seq<State>, i: int)
    requires 0 <= i < |trace| - 1
  {
    Follows(cfg, trace[i], trace[i + 1])
  }

  /** The action between two neighbouring states of a run. */
  ghost function ActionAt(cfg: Config, trace: seq<State>, n: nat): (a: Action)
    requires IsRun(cfg, trace) && n + 1 < |trace|
    ensures Can(trace[n], a) && Do(cfg, trace[n], a) == trace[n + 1]
  {
    assert FollowsAt(cfg, trace, n);
    var a :| Can(trace[n], a) && Do(cfg, trace[n], a) == trace[n + 1];
    a
  }

  /** A run goes on with any action that its last state admits. */
  lemma Extended(cfg: Config, trace: seq<State>, a: Action) returns (longer: seq<State>)
    requires IsRun(cfg, trace) && Can(Last(trace), a)
    ensures longer == trace + [Do(cfg, Last(trace), a)] && IsRun(cfg, longer)
  {
    longer := trace + [Do(cfg, Last(trace), a)];
    forall i | 0 <= i < |longer| - 1 ensures FollowsAt(cfg, longer, i) {
      if i < |trace| - 1 {
        assert FollowsAt(cfg, trace, i);
      } else {
        assert Follows(cfg, longer[i], longer[i + 1]);
      }
    }
  }

  ghost function FreshId(ids: set<string>): (id: string)
    ensures id !in ids && forall x :: x in ids ==> |x| < |id|
    decreases |ids|
  {
    if ids == {} then ""
    else
      var x :| x in ids;
      var y := FreshId(ids - {x});
      if |y| > |x| then y else seq(|x| + 1, _ => 'x')
  }

  /** A snapshot with one record to sync. */
  lemma OnlyOneAwaits(db: Db, k: string)
    requires k in db.offline && db.offline[k].localId == k && AwaitsSync(db.offline[k])
    requires forall j :: j in db.offline && j !in {k} ==> !AwaitsSync(db.offline[j])
    ensures IsPendingList(db, [db.offline[k]]) && LocalIds([db.offline[k]]) == [k]
  {
  }

  /** A draw that does not clash with anything drawn before. */
  ghost function SomeDraw(sh: Shared): (d: Draw)
    ensures d.issue != "" && d.id !in sh.drawn
  {
    Draw("issue", FreshId(sh.drawn), 1)
  }
}
