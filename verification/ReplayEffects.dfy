/** Every interleaving: receipts stand for effects, and one issue has one incident. */
module ReplayEffects {
  import opened Common
  import opened Database
  import opened Calls
  import opened Replay
  import Incidents

  // ------------------------------------------------------------------ what a receipt stands for

  ghost predicate IncidentEffect(db: Db, issue: string, receipt: string) {
    && |receipt| >= 4 && receipt == Receipt(receipt[4..])
    && receipt[4..] in db.incidents
    && (issue != "" ==> issue in db.incidentByIssue && db.incidentByIssue[issue] == receipt[4..])
  }

  /** The work that `receipt` acknowledges for the payload is in the store. */
  ghost predicate Effect(db: Db, payload: Payload, localId: string, receipt: string) {
    match payload
    case IncidentReport(Some(req)) => IncidentEffect(db, req.issueId, receipt)
    case TrackReport(Some(t)) => receipt == Receipt(t.workOrderId) && t.workOrderId in db.tracks
    case PatrolNote => receipt == Receipt(localId)
    case _ => false
  }

  /** Every payload but an incident report without an issue id. */
  predicate Keyed(payload: Payload) {
    payload.IncidentReport? && payload.incident.Some? ==> payload.incident.value.issueId != ""
  }

  lemma ReceiptOfId(id: string)
    ensures |Receipt(id)| >= 4 && Receipt(id)[4..] == id
  {
  }

  lemma EffectDeterminesReceipt(db: Db, payload: Payload, localId: string, r: string, r': string)
    requires Keyed(payload) && Effect(db, payload, localId, r) && Effect(db, payload, localId, r')
    ensures r == r'
  {
  }

  // ------------------------------------------------------------------ the invariant

  ghost predicate RecordOk(db: Db, k: string, r: OfflineRecord) {
    && r.localId == k && r.status != Blank
    && (r.receipt != "" ==> Effect(db, r.payload, k, r.receipt) && r.receipt in db.offlineByReceipt)
    && (r.status == Synced ==> r.receipt != "")
  }

  ghost predicate RecordsOk(db: Db) {
    forall k :: k in db.offline ==> RecordOk(db, k, db.offline[k])
  }

  ghost predicate ReceiptOk(db: Db, r: string, k: string) {
    r != "" && k in db.offline && (Keyed(db.offline[k].payload) ==> db.offline[k].receipt == r)
  }

  ghost predicate ReceiptsOk(db: Db) {
    forall r :: r in db.offlineByReceipt ==> ReceiptOk(db, r, db.offlineByReceipt[r])
  }

  ghost predicate DbOk(db: Db) {
    Indexed(db) && "" !in db.incidentByIssue && RecordsOk(db) && ReceiptsOk(db)
  }

  ghost predicate ReportsUnder(db: Db, localId: string, issue: string) {
    && localId in db.offline
    && var p := db.offline[localId].payload;
    p.IncidentReport? && p.incident.Some? && (p.incident.value.issueId != "" ==> issue == p.incident.value.issueId)
  }

  ghost predicate ReportsTrack(db: Db, localId: string, workOrderId: string) {
    && localId in db.offline
    && var p := db.offline[localId].payload;
    p.TrackReport? && p.track.Some? && p.track.value.workOrderId == workOrderId
  }

  ghost predicate TaskOk(db: Db, t: Task) {
    match t
    case Lookup(o, _, issue) => issue != "" && (o.Replaying? ==> ReportsUnder(db, o.localId, issue))
    case CheckOrder(o, _, issue) => issue != "" && (o.Replaying? ==> ReportsUnder(db, o.localId, issue))
    case Put(o, i) => i.issueId != "" && (o.Replaying? ==> ReportsUnder(db, o.localId, i.issueId))
    case ReadOrder(o, t) => o.Replaying? ==> ReportsTrack(db, o.localId, t.workOrderId)
    case ReadGrid(o, t, _) => o.Replaying? ==> ReportsTrack(db, o.localId, t.workOrderId)
    case Save(o, t) => o.Replaying? ==> ReportsTrack(db, o.localId, t.workOrderId)
    case Confirm(k, _, receipt) => receipt != "" && k in db.offline && Effect(db, db.offline[k].payload, k, receipt)
    case GiveUp(k, _, _) => k in db.offline
    case _ => true
  }

  ghost predicate TasksOk(s: State) {
    forall w :: w in s.tasks ==> TaskOk(s.sh.db, s.tasks[w])
  }

  ghost predicate LogsOk(sh: Shared) {
    && (forall p :: p in sh.reports ==> p.0 in sh.db.incidentByIssue && sh.db.incidentByIssue[p.0] == p.1)
    && (forall p :: p in sh.applied ==> p.0 in sh.db.offline && Effect(sh.db, sh.db.offline[p.0].payload, p.0, p.1))
  }

  /** The incident that a worker is about to put has an id that was drawn and not used. */
  predicate PutFresh(sh: Shared, t: Task) {
    t.Put? ==> t.incident.id in sh.drawn && t.incident.id !in sh.db.incidents
  }

  /** Ids in use were drawn, and an id still to be used belongs to one worker. */
  ghost predicate DrawsOk(s: State) {
    && s.sh.db.incidents.Keys <= s.sh.drawn
    && (forall w :: w in s.tasks ==> PutFresh(s.sh, s.tasks[w]))
    && (forall v, w :: v in s.tasks && w in s.tasks && v != w && s.tasks[v].Put? && s.tasks[w].Put? ==>
          s.tasks[v].incident.id != s.tasks[w].incident.id)
  }

  ghost predicate SharedOk(sh: Shared) {
    DbOk(sh.db) && LogsOk(sh)
  }

  ghost predicate ViewOk(v: View) {
    SharedOk(v.sh) && TaskOk(v.sh.db, v.task)
  }

  ghost predicate Inv(s: State) {
    SharedOk(s.sh) && TasksOk(s) && DrawsOk(s)
  }

  // ------------------------------------------------------------------ what no step takes back

  /** Incidents, issue entries and records stay, a record with its payload; an order that has a track keeps having one. */
  ghost predicate Grows(db: Db, db': Db) {
    && db.incidents.Keys <= db'.incidents.Keys
    && (forall k :: k in db.incidentByIssue ==> k in db'.incidentByIssue && db'.incidentByIssue[k] == db.incidentByIssue[k])
    && db.tracks.Keys <= db'.tracks.Keys
    && (forall k :: k in db.offline ==> k in db'.offline && db'.offline[k].payload == db.offline[k].payload)
  }

  lemma EffectGrows(db: Db, db': Db, payload: Payload, localId: string, receipt: string)
    requires Grows(db, db') && Effect(db, payload, localId, receipt)
    ensures Effect(db', payload, localId, receipt)
  {
  }

  lemma TaskGrows(db: Db, db': Db, t: Task)
    requires Grows(db, db') && TaskOk(db, t)
    ensures TaskOk(db', t)
  {
    if t.Confirm? {
      EffectGrows(db, db', db.offline[t.localId].payload, t.localId, t.receipt);
    }
  }

  lemma LogsGrow(sh: Shared, db': Db)
    requires Grows(sh.db, db') && LogsOk(sh)
    ensures LogsOk(sh.(db := db'))
  {
    forall p | p in sh.applied ensures Effect(db', db'.offline[p.0].payload, p.0, p.1) {
      EffectGrows(sh.db, db', sh.db.offline[p.0].payload, p.0, p.1);
    }
  }

  // ------------------------------------------------------------------ single sections

  lemma RecordGrows(db: Db, db': Db, k: string, r: OfflineRecord)
    requires Grows(db, db') && RecordOk(db, k, r) && db.offlineByReceipt.Keys <= db'.offlineByReceipt.Keys
    ensures RecordOk(db', k, r)
  {
    if r.receipt != "" {
      EffectGrows(db, db', r.payload, k, r.receipt);
    }
  }

  /** A store that grows and leaves the offline records alone stays sound. */
  lemma OthersOk(db: Db, db': Db)
    requires DbOk(db) && Grows(db, db') && Indexed(db') && "" !in db'.incidentByIssue
    requires db'.offline == db.offline && db'.offlineByReceipt == db.offlineByReceipt
    ensures DbOk(db')
  {
    forall k | k in db'.offline ensures RecordOk(db', k, db'.offline[k]) {
      RecordGrows(db, db', k, db.offline[k]);
    }
    forall r | r in db'.offlineByReceipt ensures ReceiptOk(db', r, db'.offlineByReceipt[r]) {
      assert ReceiptOk(db, r, db.offlineByReceipt[r]);
    }
  }

  /** Writing one record without touching its payload and receipt keeps the store sound. */
  lemma RecordWritten(db: Db, k: string, r: OfflineRecord)
    requires DbOk(db) && r.localId == k && r.status != Blank && r.status != Synced
    requires if k in db.offline then r.payload == db.offline[k].payload && r.receipt == db.offline[k].receipt else r.receipt == ""
    ensures var db' := db.(offline := db.offline[k := r]);
            DbOk(db') && Grows(db, db')
  {
    var db' := db.(offline := db.offline[k := r]);
    forall j | j in db'.offline ensures RecordOk(db', j, db'.offline[j]) {
      if j in db.offline {
        assert RecordOk(db, j, db.offline[j]);
        RecordGrows(db, db', j, db.offline[j]);
      }
    }
    forall x | x in db'.offlineByReceipt ensures ReceiptOk(db', x, db'.offlineByReceipt[x]) {
      assert ReceiptOk(db, x, db.offlineByReceipt[x]);
    }
  }

  lemma EnqueueOk(db: Db, r: OfflineRecord, now: Time)
    requires DbOk(db) && r.status == Blank && r.receipt == ""
    ensures DbOk(Enqueued(db, r, now)) && Grows(db, Enqueued(db, r, now))
  {
    if r.localId !in db.offline {
      RecordWritten(db, r.localId, Enqueued(db, r, now).offline[r.localId]);
    }
  }

  lemma MarkSyncingOk(db: Db, k: string)
    requires DbOk(db) && CanSync(db, k)
    ensures DbOk(MarkedSyncing(db, k)) && Grows(db, MarkedSyncing(db, k))
  {
    assert RecordOk(db, k, db.offline[k]);
    RecordWritten(db, k, MarkedSyncing(db, k).offline[k]);
  }

  lemma MarkFailedOk(db: Db, k: string, e: ApplyError)
    requires DbOk(db) && k in db.offline
    ensures DbOk(MarkedFailed(db, k, e)) && Grows(db, MarkedFailed(db, k, e))
  {
    assert RecordOk(db, k, db.offline[k]);
    RecordWritten(db, k, MarkedFailed(db, k, e).offline[k]);
  }

  lemma MarkSyncedOk(db: Db, k: string, receipt: string, now: Time)
    requires DbOk(db) && k in db.offline && receipt != "" && Effect(db, db.offline[k].payload, k, receipt)
    ensures DbOk(MarkedSynced(db, k, receipt, now)) && Grows(db, MarkedSynced(db, k, receipt, now))
  {
    var db' := MarkedSynced(db, k, receipt, now);
    forall j | j in db'.offline ensures RecordOk(db', j, db'.offline[j]) {
      assert RecordOk(db, j, db.offline[j]);
      if j == k {
        EffectGrows(db, db', db.offline[k].payload, k, receipt);
      } else {
        RecordGrows(db, db', j, db.offline[j]);
      }
    }
    forall r | r in db'.offlineByReceipt ensures ReceiptOk(db', r, db'.offlineByReceipt[r]) {
      if r != receipt {
        assert ReceiptOk(db, r, db.offlineByReceipt[r]);
        if db.offlineByReceipt[r] == k && Keyed(db.offline[k].payload) {
          assert RecordOk(db, k, db.offline[k]);
          EffectDeterminesReceipt(db, db.offline[k].payload, k, r, receipt);
        }
      }
    }
  }

  /** One incident more, or one rewritten under its own issue, keeps the index sound. */
  lemma IncidentWritten(db: Db, i: Incidents.Incident)
    requires DbOk(db) && i.issueId != ""
    requires if i.id in db.incidents then i.issueId == db.incidents[i.id].issueId else i.issueId !in db.incidentByIssue
    ensures var db' := db.(incidents := db.incidents[i.id := i], incidentByIssue := db.incidentByIssue[i.issueId := i.id]);
            DbOk(db') && Grows(db, db')
  {
    var db' := db.(incidents := db.incidents[i.id := i], incidentByIssue := db.incidentByIssue[i.issueId := i.id]);
    assert i.id in db.incidents ==> db.incidentByIssue[i.issueId] == i.id;
    assert Grows(db, db');
    forall k | k in db'.incidentByIssue
      ensures db'.incidentByIssue[k] in db'.incidents && db'.incidents[db'.incidentByIssue[k]].issueId == k
    {
      if k != i.issueId {
        assert k in db.incidentByIssue;
      }
    }
    forall id | id in db'.incidents
      ensures var x := db'.incidents[id];
              x.id == id && x.issueId in db'.incidentByIssue && db'.incidentByIssue[x.issueId] == id
    {
      if id != i.id {
        assert id in db.incidents;
      }
    }
    OthersOk(db, db');
  }

  lemma PutOk(db: Db, i: Incidents.Incident, now: Time)
    requires DbOk(db) && i.issueId != "" && i.id !in db.incidents
    ensures var db' := IncidentPut(db, i, now);
            && DbOk(db') && Grows(db, db')
            && i.issueId in db'.incidentByIssue && db'.incidentByIssue[i.issueId] == PutId(db, i)
            && db'.incidents.Keys <= db.incidents.Keys + {i.id}
  {
    if i.issueId !in db.incidentByIssue {
      IncidentWritten(db, if i.reportedAt == ZERO_TIME then i.(reportedAt := now) else i);
    } else {
      assert db.incidents[db.incidentByIssue[i.issueId]].id == db.incidentByIssue[i.issueId];
    }
  }

  lemma SaveOk(db: Db, t: Track)
    requires DbOk(db)
    ensures DbOk(TrackSaved(db, t)) && Grows(db, TrackSaved(db, t))
  {
    OthersOk(db, TrackSaved(db, t));
  }

  // ------------------------------------------------------------------ one worker's steps

  /** The answer `r` is what the record behind `o` asks for. */
  ghost predicate Answers(db: Db, o: Origin, r: Result<string, ApplyError>) {
    o.Replaying? ==>
      o.localId in db.offline && (r.Ok? ==> Effect(db, db.offline[o.localId].payload, o.localId, Receipt(r.value)))
  }

  lemma ReturnOk(sh: Shared, o: Origin, r: Result<string, ApplyError>)
    requires SharedOk(sh) && Answers(sh.db, o, r)
    ensures ViewOk(Return(sh, o, r)) && Return(sh, o, r).sh.db == sh.db
  {
  }

  lemma IssueAnswers(db: Db, o: Origin, issue: string)
    requires Indexed(db) && issue in db.incidentByIssue && (o.Replaying? ==> ReportsUnder(db, o.localId, issue))
    ensures Answers(db, o, Ok(db.incidentByIssue[issue]))
  {
    ReceiptOfId(db.incidentByIssue[issue]);
  }

  lemma UnpackedOk(sh: Shared, k: string, rest: seq<string>, drawnIssue: string)
    requires SharedOk(sh) && k in sh.db.offline && drawnIssue != ""
    ensures ViewOk(Unpacked(sh, sh.db.offline[k], rest, drawnIssue))
    ensures Unpacked(sh, sh.db.offline[k], rest, drawnIssue).sh.db == sh.db
  {
    assert RecordOk(sh.db, k, sh.db.offline[k]);
  }

  lemma PassStepOk(sh: Shared, rest: seq<string>, draw: Draw)
    requires SharedOk(sh) && draw.issue != ""
    ensures var v := PassStep(sh, rest, draw); ViewOk(v) && Grows(sh.db, v.sh.db)
  {
    if rest != [] && CanSync(sh.db, rest[0]) {
      var db := MarkedSyncing(sh.db, rest[0]);
      MarkSyncingOk(sh.db, rest[0]);
      LogsGrow(sh, db);
      UnpackedOk(sh.(db := db), rest[0], rest[1..], draw.issue);
    }
  }

  lemma LookupStepOk(sh: Shared, o: Origin, req: IncidentRequest, issue: string)
    requires ViewOk(View(sh, Lookup(o, req, issue)))
    ensures var v := LookupStep(sh, o, req, issue); ViewOk(v) && v.sh.db == sh.db
  {
    if issue in sh.db.incidentByIssue {
      IssueAnswers(sh.db, o, issue);
      ReturnOk(sh.(reports := sh.reports + {(issue, sh.db.incidentByIssue[issue])}), o, Ok(sh.db.incidentByIssue[issue]));
    }
  }

  lemma CheckOrderStepOk(sh: Shared, o: Origin, req: IncidentRequest, issue: string, draw: Draw)
    requires ViewOk(View(sh, CheckOrder(o, req, issue)))
    ensures var v := CheckOrderStep(sh, o, req, issue, draw); ViewOk(v) && v.sh.db == sh.db
  {
    var i := NewIncident(req, issue, draw.id, draw.now);
    ReturnOk(sh, o, Err(NoSuchOrder));
    if Incidents.Fault(i).Some? {
      ReturnOk(sh.(drawn := sh.drawn + {draw.id}), o, Err(BadIncident(Incidents.Fault(i).value)));
    }
  }

  lemma PutStepOk(sh: Shared, o: Origin, i: Incidents.Incident, draw: Draw)
    requires ViewOk(View(sh, Put(o, i))) && PutFresh(sh, Put(o, i))
    ensures var v := PutStep(sh, o, i, draw);
            && ViewOk(v) && Grows(sh.db, v.sh.db) && v.sh.db.incidents.Keys <= sh.db.incidents.Keys + {i.id}
  {
    var db', id := IncidentPut(sh.db, i, draw.now), PutId(sh.db, i);
    PutOk(sh.db, i, draw.now);
    LogsGrow(sh, db');
    TaskGrows(sh.db, db', Put(o, i));
    IssueAnswers(db', o, i.issueId);
    ReturnOk(sh.(db := db', reports := sh.reports + {(i.issueId, id)}), o, Ok(id));
  }

  lemma ReadOrderStepOk(sh: Shared, o: Origin, t: TrackRequest)
    requires ViewOk(View(sh, ReadOrder(o, t)))
    ensures ViewOk(ReadOrderStep(sh, o, t)) && Grows(sh.db, ReadOrderStep(sh, o, t).sh.db)
  {
    ReturnOk(sh, o, Err(NoSuchOrder));
  }

  lemma ReadGridStepOk(cfg: Config, sh: Shared, o: Origin, t: TrackRequest, gridId: string, draw: Draw)
    requires ViewOk(View(sh, ReadGrid(o, t, gridId)))
    ensures ViewOk(ReadGridStep(cfg, sh, o, t, gridId, draw))
    ensures Grows(sh.db, ReadGridStep(cfg, sh, o, t, gridId, draw).sh.db)
  {
    ReturnOk(sh, o, Err(NoSuchGrid));
    ReturnOk(sh, o, Err(NoTrackOrder));
    ReturnOk(sh, o, Err(TrackTooShort));
  }

  lemma SaveStepOk(sh: Shared, o: Origin, t: Track)
    requires ViewOk(View(sh, Save(o, t)))
    ensures ViewOk(Return(sh.(db := TrackSaved(sh.db, t)), o, Ok(t.workOrderId)))
    ensures Grows(sh.db, Return(sh.(db := TrackSaved(sh.db, t)), o, Ok(t.workOrderId)).sh.db)
  {
    SaveOk(sh.db, t);
    LogsGrow(sh, TrackSaved(sh.db, t));
    ReturnOk(sh.(db := TrackSaved(sh.db, t)), o, Ok(t.workOrderId));
  }

  lemma MarkStepOk(cfg: Config, v: View, list: seq<OfflineRecord>, draw: Draw)
    requires ViewOk(v) && (v.task.Confirm? || v.task.GiveUp?)
    ensures var v' := Stepped(cfg, v, list, draw); ViewOk(v') && Grows(v.sh.db, v'.sh.db)
  {
    match v.task
    case Confirm(k, rest, receipt) =>
      MarkSyncedOk(v.sh.db, k, receipt, draw.now);
      LogsGrow(v.sh, MarkedSynced(v.sh.db, k, receipt, draw.now));
    case GiveUp(k, rest, e) =>
      MarkFailedOk(v.sh.db, k, e);
      LogsGrow(v.sh, MarkedFailed(v.sh.db, k, e));
  }

  lemma StepOk(cfg: Config, v: View, list: seq<OfflineRecord>, draw: Draw)
    requires ViewOk(v) && PutFresh(v.sh, v.task) && Supplied(v, list, draw)
    ensures var v' := Stepped(cfg, v, list, draw); ViewOk(v') && Grows(v.sh.db, v'.sh.db)
  {
    match v.task
    case Pass(rest) => PassStepOk(v.sh, rest, draw);
    case Lookup(o, req, issue) => LookupStepOk(v.sh, o, req, issue);
    case CheckOrder(o, req, issue) => CheckOrderStepOk(v.sh, o, req, issue, draw);
    case Put(o, i) => PutStepOk(v.sh, o, i, draw);
    case ReadOrder(o, t) => ReadOrderStepOk(v.sh, o, t);
    case ReadGrid(o, t, gridId) => ReadGridStepOk(cfg, v.sh, o, t, gridId, draw);
    case Save(o, t) => SaveStepOk(v.sh, o, t);
    case Confirm(_, _, _) => MarkStepOk(cfg, v, list, draw);
    case GiveUp(_, _, _) => MarkStepOk(cfg, v, list, draw);
    case _ =>
  }

  /** A step uses up the id of its own put, or draws a new one for it. */
  lemma StepDraws(cfg: Config, v: View, list: seq<OfflineRecord>, draw: Draw)
    requires Supplied(v, list, draw) && PutFresh(v.sh, v.task)
    ensures var v' := Stepped(cfg, v, list, draw);
            && v.sh.drawn <= v'.sh.drawn
            && v'.sh.db.incidents.Keys <= v.sh.db.incidents.Keys + (if v.task.Put? then {v.task.incident.id} else {})
            && (v'.task.Put? && v' != v ==>
                  v'.task.incident.id in v'.sh.drawn && v'.task.incident.id !in v.sh.drawn && !v.task.Put?)
  {
    match v.task
    case Put(o, i) => PutStepDraws(v.sh, o, i, draw);
    case CheckOrder(o, req, issue) =>
    case Pass(rest) => PassStepDraws(v.sh, rest, draw);
    case _ =>
  }

  lemma PutStepDraws(sh: Shared, o: Origin, i: Incidents.Incident, draw: Draw)
    ensures var v' := PutStep(sh, o, i, draw);
            v'.sh.drawn == sh.drawn && v'.sh.db.incidents.Keys <= sh.db.incidents.Keys + {i.id} && !v'.task.Put?
  {
  }

  lemma PassStepDraws(sh: Shared, rest: seq<string>, draw: Draw)
    ensures var v' := PassStep(sh, rest, draw);
            v'.sh.drawn == sh.drawn && v'.sh.db.incidents == sh.db.incidents && !v'.task.Put?
  {
  }

  // ------------------------------------------------------------------ one action

  lemma MovedOk(s: State, w: nat, v: View)
    requires Inv(s) && ViewOk(v) && Grows(s.sh.db, v.sh.db) && s.sh.drawn <= v.sh.drawn
    requires v.sh.db.incidents.Keys <= v.sh.drawn
    requires forall id :: id in v.sh.db.incidents && id !in s.sh.db.incidents ==>
               w in s.tasks && s.tasks[w].Put? && s.tasks[w].incident.id == id
    requires v.task.Put? ==> v.task.incident.id in v.sh.drawn && v.task.incident.id !in s.sh.drawn
                             && v.sh.db.incidents.Keys <= s.sh.db.incidents.Keys
    ensures Inv(At(s, w, v))
  {
    var s' := At(s, w, v);
    forall u | u in s'.tasks ensures TaskOk(s'.sh.db, s'.tasks[u]) && PutFresh(s'.sh, s'.tasks[u]) {
      if u != w {
        TaskGrows(s.sh.db, v.sh.db, s.tasks[u]);
        assert PutFresh(s.sh, s.tasks[u]);
      }
    }
    forall u | u in s.tasks && s.tasks[u].Put? ensures s.tasks[u].incident.id in s.sh.drawn {
      assert PutFresh(s.sh, s.tasks[u]);
    }
  }

  lemma GrownOk(s: State, db': Db)
    requires Inv(s) && DbOk(db') && Grows(s.sh.db, db') && db'.incidents.Keys == s.sh.db.incidents.Keys
    ensures Inv(s.(sh := s.sh.(db := db')))
  {
    LogsGrow(s.sh, db');
    forall u | u in s.tasks ensures TaskOk(db', s.tasks[u]) && PutFresh(s.sh.(db := db'), s.tasks[u]) {
      TaskGrows(s.sh.db, db', s.tasks[u]);
      assert PutFresh(s.sh, s.tasks[u]);
    }
  }

  lemma StepActionOk(cfg: Config, s: State, w: nat, list: seq<OfflineRecord>, draw: Draw)
    requires Inv(s) && Can(s, Step(w, list, draw))
    ensures var s' := Do(cfg, s, Step(w, list, draw)); Inv(s') && Grows(s.sh.db, s'.sh.db)
  {
    var v := View(s.sh, s.tasks[w]);
    assert TaskOk(s.sh.db, s.tasks[w]) && PutFresh(s.sh, s.tasks[w]);
    StepOk(cfg, v, list, draw);
    StepDraws(cfg, v, list, draw);
    var v' := Stepped(cfg, v, list, draw);
    if v'.task.Put? {
      PutMovesOn(cfg, v, list, draw);
    }
    MovedOk(s, w, v');
  }

  lemma PutMovesOn(cfg: Config, v: View, list: seq<OfflineRecord>, draw: Draw)
    requires Stepped(cfg, v, list, draw).task.Put?
    ensures v.task.CheckOrder?
  {
  }

  lemma MutatedOk(s: State, i: Incidents.Incident)
    requires Inv(s) && i.id in s.sh.db.incidents && i.issueId == s.sh.db.incidents[i.id].issueId
    ensures var db' := IncidentSaved(s.sh.db, i); Inv(s.(sh := s.sh.(db := db'))) && Grows(s.sh.db, db')
  {
    assert i.issueId in s.sh.db.incidentByIssue;
    IncidentWritten(s.sh.db, i);
    GrownOk(s, IncidentSaved(s.sh.db, i));
  }

  lemma ActionOk(cfg: Config, s: State, a: Action)
    requires Inv(s) && Can(s, a)
    ensures Inv(Do(cfg, s, a)) && Grows(s.sh.db, Do(cfg, s, a).sh.db)
  {
    match a
    case Spawn(w) => MovedOk(s, w, View(s.sh, Idle));
    case SetOnline(_) =>
    case Enqueue(localId, payload, createdAt, now) =>
      EnqueueOk(s.sh.db, NewRecord(localId, payload, createdAt), now);
      GrownOk(s, Enqueued(s.sh.db, NewRecord(localId, payload, createdAt), now));
    case MutateIncident(i) => MutatedOk(s, i);
    case Elsewhere(db) =>
      OthersOk(s.sh.db, db);
      GrownOk(s, db);
    case BeginPass(w) => MovedOk(s, w, View(s.sh, Snapshot));
    case BeginReport(w, req, drawnIssue) => MovedOk(s, w, View(s.sh, Lookup(Direct, req, IssueOf(req, drawnIssue))));
    case BeginTrack(w, t) => MovedOk(s, w, View(s.sh, ReadOrder(Direct, t)));
    case Step(w, list, draw) => StepActionOk(cfg, s, w, list, draw);
  }

  // ------------------------------------------------------------------ whole runs

  lemma {:induction false} RunOk(cfg: Config, trace: seq<State>, n: nat)
    requires IsRun(cfg, trace) && n < |trace|
    ensures Inv(trace[n])
  {
    if n > 0 {
      RunOk(cfg, trace, n - 1);
      ActionOk(cfg, trace[n - 1], ActionAt(cfg, trace, n - 1));
    }
  }

  lemma GrowsTransitive(a: Db, b: Db, c: Db)
    requires Grows(a, b) && Grows(b, c)
    ensures Grows(a, c)
  {
  }

  lemma RunStepGrows(cfg: Config, trace: seq<State>, n: nat)
    requires IsRun(cfg, trace) && n + 1 < |trace|
    ensures Grows(trace[n].sh.db, trace[n + 1].sh.db)
  {
    RunOk(cfg, trace, n);
    ActionOk(cfg, trace[n], ActionAt(cfg, trace, n));
  }

  /**
   No incident, index entry or record is lost or changes hands later in the run. An order that
   has a track goes on having one, but it may be another: see `ReplayAgain`.
   */
  lemma {:induction false} RunGrows(cfg: Config, trace: seq<State>, m: nat, n: nat)
    requires IsRun(cfg, trace) && m <= n < |trace|
    ensures Grows(trace[m].sh.db, trace[n].sh.db)
  {
    if m < n {
      RunGrows(cfg, trace, m, n - 1);
      RunStepGrows(cfg, trace, n - 1);
      GrowsTransitive(trace[m].sh.db, trace[n - 1].sh.db, trace[n].sh.db);
    }
  }

  /** A receipt acknowledges work that is in the store, and no record is synced without one. */
  lemma ReceiptsStandForEffects(cfg: Config, trace: seq<State>, n: nat, k: string)
    requires IsRun(cfg, trace) && n < |trace| && k in trace[n].sh.db.offline
    ensures var r := trace[n].sh.db.offline[k];
            && (r.receipt != "" ==> Effect(trace[n].sh.db, r.payload, k, r.receipt))
            && (r.status == Synced ==> r.receipt != "")
  {
    RunOk(cfg, trace, n);
    assert RecordOk(trace[n].sh.db, k, trace[n].sh.db.offline[k]);
  }

  /**
   Despite the unlocked look-up at the start of `ReportIncident`, an issue has one incident,
   and whoever is answered for the issue, then or later, is given that one.
   */
  lemma OneIncidentPerIssue(cfg: Config, trace: seq<State>, m: nat, n: nat)
    requires IsRun(cfg, trace) && m <= n < |trace|
    ensures var db := trace[n].sh.db;
            && (forall a, b :: a in db.incidents && b in db.incidents && db.incidents[a].issueId == db.incidents[b].issueId ==> a == b)
            && (forall p, q :: p in trace[m].sh.reports && q in trace[n].sh.reports && p.0 == q.0 ==> p.1 == q.1)
            && (forall p :: p in trace[n].sh.reports ==> p.1 in db.incidents && db.incidents[p.1].issueId == p.0)
  {
    RunOk(cfg, trace, m);
    RunOk(cfg, trace, n);
    RunGrows(cfg, trace, m, n);
  }

  /** All applications of one record, by whatever workers, give the same receipt. */
  lemma SameReceiptEveryTime(cfg: Config, trace: seq<State>, m: nat, n: nat, k: string, r: string, r': string)
    requires IsRun(cfg, trace) && m <= n < |trace|
    requires (k, r) in trace[m].sh.applied && (k, r') in trace[n].sh.applied && k in trace[n].sh.db.offline
    requires Keyed(trace[n].sh.db.offline[k].payload)
    ensures r == r'
  {
    RunOk(cfg, trace, m);
    RunOk(cfg, trace, n);
    RunGrows(cfg, trace, m, n);
    EffectGrows(trace[m].sh.db, trace[n].sh.db, trace[m].sh.db.offline[k].payload, k, r);
    EffectDeterminesReceipt(trace[n].sh.db, trace[n].sh.db.offline[k].payload, k, r, r');
  }

  /** A receipt that can be looked up leads to a record that carries it, and every receipt can be looked up. */
  lemma ReceiptLeadsToCarrier(cfg: Config, trace: seq<State>, n: nat, receipt: string)
    requires IsRun(cfg, trace) && n < |trace|
    ensures var db := trace[n].sh.db;
            && (receipt in db.offlineByReceipt ==>
                  var k := db.offlineByReceipt[receipt];
                  k in db.offline && (Keyed(db.offline[k].payload) ==> db.offline[k].receipt == receipt))
            && (forall k :: k in db.offline && db.offline[k].receipt == receipt != "" ==> receipt in db.offlineByReceipt)
  {
    RunOk(cfg, trace, n);
    var db := trace[n].sh.db;
    assert receipt in db.offlineByReceipt ==> ReceiptOk(db, receipt, db.offlineByReceipt[receipt]);
    forall k | k in db.offline && db.offline[k].receipt == receipt != "" ensures receipt in db.offlineByReceipt {
      assert RecordOk(db, k, db.offline[k]);
    }
  }
}
