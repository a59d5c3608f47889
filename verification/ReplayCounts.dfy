/** Every interleaving: what the counters and the statuses of the records say. */
module ReplayCounts {
  import opened Common
  import opened Database
  import opened Calls
  import opened Sums
  import opened Replay
  import opened ReplayEffects
  import Incidents

  function AttemptsOf(r: OfflineRecord): int {
    r.attempts
  }

  function SyncedOf(r: OfflineRecord): int {
    if r.status == Synced then 1 else 0
  }

  function OfOrigin(o: Origin): int {
    if o.Replaying? then 1 else 0
  }

  /** 1 for a worker that has marked a record and not counted it yet. */
  function Holds(t: Task): int {
    match t
    case Lookup(o, _, _) => OfOrigin(o)
    case CheckOrder(o, _, _) => OfOrigin(o)
    case Put(o, _) => OfOrigin(o)
    case ReadOrder(o, _) => OfOrigin(o)
    case ReadGrid(o, _, _) => OfOrigin(o)
    case Save(o, _) => OfOrigin(o)
    case Confirm(_, _, _) => 1
    case GiveUp(_, _, _) => 1
    case CountSynced(_) => 1
    case WriteSynced(_, _) => 1
    case CountFailed(_) => 1
    case _ => 0
  }

  /** 1 for a worker that has confirmed a record and not counted it yet. */
  function Uncounted(t: Task): int {
    if t.CountSynced? || t.WriteSynced? then 1 else 0
  }

  ghost predicate Books(s: State) {
    && Sum(s.sh.db.offline, AttemptsOf) == s.sh.tally + s.sh.failedCount + Sum(s.tasks, Holds)
    && Sum(s.sh.db.offline, SyncedOf) <= s.sh.tally + Sum(s.tasks, Uncounted)
  }

  /** `syncedCount++` is a read and a write: the counter lags exactly when a write went over a stale read. */
  ghost predicate Counter(sh: Shared) {
    if sh.lost then sh.syncedCount < sh.tally else sh.syncedCount == sh.tally
  }

  ghost predicate ReadOk(sh: Shared, t: Task) {
    t.WriteSynced? ==> if sh.lost then t.read < sh.tally else t.read <= sh.tally
  }

  ghost predicate CounterOk(s: State) {
    Counter(s.sh) && forall w :: w in s.tasks ==> ReadOk(s.sh, s.tasks[w])
  }

  predicate WorksOn(t: Task, k: string) {
    match t
    case Lookup(o, _, _) => o.Replaying? && o.localId == k
    case CheckOrder(o, _, _) => o.Replaying? && o.localId == k
    case Put(o, _) => o.Replaying? && o.localId == k
    case ReadOrder(o, _) => o.Replaying? && o.localId == k
    case ReadGrid(o, _, _) => o.Replaying? && o.localId == k
    case Save(o, _) => o.Replaying? && o.localId == k
    case Confirm(id, _, _) => id == k
    case GiveUp(id, _, _) => id == k
    case _ => false
  }

  ghost predicate Attended(s: State, k: string) {
    exists w :: w in s.tasks && WorksOn(s.tasks[w], k)
  }

  ghost predicate SyncingAttended(s: State) {
    forall k :: k in s.sh.db.offline && s.sh.db.offline[k].status == Syncing ==> Attended(s, k)
  }

  // ------------------------------------------------------------------ one worker's steps

  predicate Marks(v: View) {
    v.task.Pass? && v.task.rest != [] && CanSync(v.sh.db, v.task.rest[0])
  }

  /** The records after a step: it writes at most one, and only when it marks, confirms or gives up. */
  function Written(v: View, now: Time): map<string, OfflineRecord> {
    if Marks(v) then MarkedSyncing(v.sh.db, v.task.rest[0]).offline
    else if v.task.Confirm? then MarkedSynced(v.sh.db, v.task.localId, v.task.receipt, now).offline
    else if v.task.GiveUp? then MarkedFailed(v.sh.db, v.task.localId, v.task.error).offline
    else v.sh.db.offline
  }

  /** Entering or leaving a call touches neither records nor counters. */
  ghost predicate SameBooks(sh: Shared, sh': Shared) {
    && sh'.db.offline == sh.db.offline && sh'.db.offlineByReceipt == sh.db.offlineByReceipt
    && sh'.syncedCount == sh.syncedCount && sh'.failedCount == sh.failedCount
    && sh'.tally == sh.tally && sh'.lost == sh.lost
  }

  ghost predicate InCall(t: Task) {
    t.Lookup? || t.CheckOrder? || t.Put? || t.ReadOrder? || t.ReadGrid? || t.Save?
  }

  function OriginOf(t: Task): Origin
    requires InCall(t)
  {
    t.origin
  }

  /** A worker that is busy for `o` and has nothing to count. */
  ghost predicate OnBehalf(t: Task, o: Origin) {
    && Holds(t) == OfOrigin(o) && Uncounted(t) == 0 && !t.WriteSynced?
    && forall k :: WorksOn(t, k) <==> o.Replaying? && o.localId == k
  }

  ghost predicate CallKeeps(sh: Shared, o: Origin, v': View) {
    SameBooks(sh, v'.sh) && OnBehalf(v'.task, o)
  }

  lemma ReturnKeeps(sh: Shared, o: Origin, r: Result<string, ApplyError>)
    ensures CallKeeps(sh, o, Return(sh, o, r))
  {
  }

  lemma LookupKeeps(sh: Shared, o: Origin, req: IncidentRequest, issue: string)
    ensures CallKeeps(sh, o, LookupStep(sh, o, req, issue))
  {
    if FiledUnder(sh.db, issue).Some? {
      var id := FiledUnder(sh.db, issue).value;
      ReturnKeeps(sh.(reports := sh.reports + {(issue, id)}), o, Ok(id));
    }
  }

  lemma CheckOrderKeeps(sh: Shared, o: Origin, req: IncidentRequest, issue: string, draw: Draw)
    ensures CallKeeps(sh, o, CheckOrderStep(sh, o, req, issue, draw))
  {
    var fault := Incidents.Fault(NewIncident(req, issue, draw.id, draw.now));
    ReturnKeeps(sh, o, Err(NoSuchOrder));
    if fault.Some? {
      ReturnKeeps(sh.(drawn := sh.drawn + {draw.id}), o, Err(BadIncident(fault.value)));
    }
  }

  lemma PutKeeps(sh: Shared, o: Origin, i: Incidents.Incident, draw: Draw)
    ensures CallKeeps(sh, o, PutStep(sh, o, i, draw))
  {
    var id := PutId(sh.db, i);
    var sh' := sh.(db := IncidentPut(sh.db, i, draw.now), reports := sh.reports + {(i.issueId, id)});
    assert SameBooks(sh, sh');
    ReturnKeeps(sh', o, Ok(id));
  }

  lemma ReadOrderKeeps(sh: Shared, o: Origin, t: TrackRequest)
    ensures CallKeeps(sh, o, ReadOrderStep(sh, o, t))
  {
    ReturnKeeps(sh, o, Err(NoSuchOrder));
  }

  lemma ReadGridKeeps(cfg: Config, sh: Shared, o: Origin, t: TrackRequest, gridId: string, draw: Draw)
    ensures CallKeeps(sh, o, ReadGridStep(cfg, sh, o, t, gridId, draw))
  {
    ReturnKeeps(sh, o, Err(NoSuchGrid));
    ReturnKeeps(sh, o, Err(NoTrackOrder));
    ReturnKeeps(sh, o, Err(TrackTooShort));
  }

  /** A step inside a call leaves the records, the counters and the worker's own record alone. */
  lemma CallStep(cfg: Config, v: View, list: seq<OfflineRecord>, draw: Draw)
    requires InCall(v.task)
    ensures CallKeeps(v.sh, OriginOf(v.task), Stepped(cfg, v, list, draw))
    ensures OnBehalf(v.task, OriginOf(v.task))
  {
    match v.task
    case Lookup(o, req, issue) => LookupKeeps(v.sh, o, req, issue);
    case CheckOrder(o, req, issue) => CheckOrderKeeps(v.sh, o, req, issue, draw);
    case Put(o, i) => PutKeeps(v.sh, o, i, draw);
    case ReadOrder(o, t) => ReadOrderKeeps(v.sh, o, t);
    case ReadGrid(o, t, gridId) => ReadGridKeeps(cfg, v.sh, o, t, gridId, draw);
    case Save(o, t) => ReturnKeeps(v.sh.(db := TrackSaved(v.sh.db, t)), o, Ok(t.workOrderId));
  }

  lemma MarkStep(sh: Shared, rest: seq<string>, draw: Draw)
    requires rest != [] && CanSync(sh.db, rest[0])
    ensures var v' := PassStep(sh, rest, draw);
            && SameBooks(sh.(db := MarkedSyncing(sh.db, rest[0])), v'.sh) && Holds(v'.task) == 1 && Uncounted(v'.task) == 0
            && !v'.task.WriteSynced?
            && forall k :: WorksOn(v'.task, k) <==> k == sh.db.offline[rest[0]].localId
  {
  }

  /** The receipt index after a step: only a confirmation writes it. */
  function WrittenIndex(v: View, now: Time): map<string, string> {
    if v.task.Confirm? then MarkedSynced(v.sh.db, v.task.localId, v.task.receipt, now).offlineByReceipt
    else v.sh.db.offlineByReceipt
  }

  lemma StepIndex(cfg: Config, v: View, list: seq<OfflineRecord>, draw: Draw)
    ensures Stepped(cfg, v, list, draw).sh.db.offlineByReceipt == WrittenIndex(v, draw.now)
  {
    if Marks(v) {
      MarkStep(v.sh, v.task.rest, draw);
    } else if InCall(v.task) {
      CallStep(cfg, v, list, draw);
    }
  }

  lemma StepRecords(cfg: Config, v: View, list: seq<OfflineRecord>, draw: Draw)
    ensures Stepped(cfg, v, list, draw).sh.db.offline == Written(v, draw.now)
  {
    if Marks(v) {
      MarkStep(v.sh, v.task.rest, draw);
    } else if InCall(v.task) {
      CallStep(cfg, v, list, draw);
    }
  }

  /** What a step does to the counters and to what its worker holds. */
  ghost predicate HoldsStep(v: View, v': View) {
    && v'.sh.tally + v'.sh.failedCount + Holds(v'.task)
       == v.sh.tally + v.sh.failedCount + Holds(v.task) + (if Marks(v) then 1 else 0)
    && v'.sh.tally + Uncounted(v'.task) == v.sh.tally + Uncounted(v.task) + (if v.task.Confirm? then 1 else 0)
  }

  lemma StepHolds(cfg: Config, v: View, list: seq<OfflineRecord>, draw: Draw)
    ensures HoldsStep(v, Stepped(cfg, v, list, draw))
  {
    if Marks(v) {
      MarkStep(v.sh, v.task.rest, draw);
    } else if InCall(v.task) {
      CallStep(cfg, v, list, draw);
    }
  }

  /** What a step adds to the two totals over the records. */
  lemma RecordTotals(v: View, now: Time)
    ensures Sum(Written(v, now), AttemptsOf) == Sum(v.sh.db.offline, AttemptsOf) + (if Marks(v) then 1 else 0)
    ensures Sum(Written(v, now), SyncedOf) <= Sum(v.sh.db.offline, SyncedOf) + (if v.task.Confirm? then 1 else 0)
  {
    if Marks(v) {
      OneRecordTotals(v.sh.db.offline, Written(v, now), v.task.rest[0]);
    } else if v.task.Confirm? {
      if v.task.localId in v.sh.db.offline {
        OneRecordTotals(v.sh.db.offline, Written(v, now), v.task.localId);
      }
    } else if v.task.GiveUp? {
      if v.task.localId in v.sh.db.offline {
        OneRecordTotals(v.sh.db.offline, Written(v, now), v.task.localId);
      }
    }
  }

  lemma OneRecordTotals(m: map<string, OfflineRecord>, m': map<string, OfflineRecord>, k: string)
    requires k in m && k in m' && m' == m[k := m'[k]]
    ensures Sum(m', AttemptsOf) == Sum(m, AttemptsOf) + m'[k].attempts - m[k].attempts
    ensures Sum(m', SyncedOf) == Sum(m, SyncedOf) + SyncedOf(m'[k]) - SyncedOf(m[k])
  {
    SumUpdate(m, k, m'[k], AttemptsOf);
    SumUpdate(m, k, m'[k], SyncedOf);
  }

  lemma MovedBooks(s: State, w: nat, t: Task)
    requires Books(s) && Holds(t) == 0 && (w in s.tasks ==> s.tasks[w] == Idle)
    ensures Books(At(s, w, View(s.sh, t)))
  {
    SumUpdate(s.tasks, w, t, Holds);
    SumUpdate(s.tasks, w, t, Uncounted);
  }

  lemma StepBooks(s: State, w: nat, v': View, now: Time)
    requires Books(s) && w in s.tasks
    requires var v := View(s.sh, s.tasks[w]); v'.sh.db.offline == Written(v, now) && HoldsStep(v, v')
    ensures Books(At(s, w, v'))
  {
    RecordTotals(View(s.sh, s.tasks[w]), now);
    SumUpdate(s.tasks, w, v'.task, Holds);
    SumUpdate(s.tasks, w, v'.task, Uncounted);
  }

  lemma ActionBooks(cfg: Config, s: State, a: Action)
    requires Books(s) && Can(s, a)
    ensures Books(Do(cfg, s, a))
  {
    match a
    case Step(w, list, draw) =>
      var v := View(s.sh, s.tasks[w]);
      StepRecords(cfg, v, list, draw);
      StepHolds(cfg, v, list, draw);
      StepBooks(s, w, Stepped(cfg, v, list, draw), draw.now);
    case Enqueue(localId, payload, createdAt, now) =>
      if localId !in s.sh.db.offline {
        var r := Enqueued(s.sh.db, NewRecord(localId, payload, createdAt), now).offline[localId];
        SumUpdate(s.sh.db.offline, localId, r, AttemptsOf);
        SumUpdate(s.sh.db.offline, localId, r, SyncedOf);
      }
    case Spawn(w) => MovedBooks(s, w, Idle);
    case BeginPass(w) => MovedBooks(s, w, Snapshot);
    case BeginReport(w, req, drawnIssue) => MovedBooks(s, w, Lookup(Direct, req, IssueOf(req, drawnIssue)));
    case BeginTrack(w, t) => MovedBooks(s, w, ReadOrder(Direct, t));
    case _ =>
  }

  /** Only a write of the counter touches it, and what was read stays behind it. */
  lemma StepCounter(cfg: Config, v: View, list: seq<OfflineRecord>, draw: Draw)
    requires Counter(v.sh) && ReadOk(v.sh, v.task)
    ensures var v' := Stepped(cfg, v, list, draw);
            && Counter(v'.sh) && ReadOk(v'.sh, v'.task)
            && forall t :: ReadOk(v.sh, t) ==> ReadOk(v'.sh, t)
  {
    if Marks(v) {
      MarkStep(v.sh, v.task.rest, draw);
    } else if InCall(v.task) {
      CallStep(cfg, v, list, draw);
    }
  }

  lemma ActionCounter(cfg: Config, s: State, a: Action)
    requires CounterOk(s) && Can(s, a)
    ensures CounterOk(Do(cfg, s, a))
  {
    if a.Step? {
      assert ReadOk(s.sh, s.tasks[a.w]);
      StepCounter(cfg, View(s.sh, s.tasks[a.w]), a.list, a.draw);
    }
    var s' := Do(cfg, s, a);
    forall w | w in s'.tasks ensures ReadOk(s'.sh, s'.tasks[w]) {
      assert w in s.tasks ==> ReadOk(s.sh, s.tasks[w]);
    }
  }

  /** Which record a step takes up or puts down. */
  lemma StepWork(cfg: Config, v: View, list: seq<OfflineRecord>, draw: Draw, k: string)
    requires RecordsOk(v.sh.db)
    ensures var v' := Stepped(cfg, v, list, draw);
            WorksOn(v'.task, k) <==>
            (Marks(v) && v.task.rest[0] == k) || (WorksOn(v.task, k) && !v.task.Confirm? && !v.task.GiveUp?)
  {
    if Marks(v) {
      assert RecordOk(v.sh.db, v.task.rest[0], v.sh.db.offline[v.task.rest[0]]);
      MarkStep(v.sh, v.task.rest, draw);
    } else if InCall(v.task) {
      CallStep(cfg, v, list, draw);
    }
  }

  lemma StepAttended(cfg: Config, s: State, w: nat, list: seq<OfflineRecord>, draw: Draw, k: string)
    requires SyncingAttended(s) && RecordsOk(s.sh.db) && Can(s, Step(w, list, draw))
    requires var db' := Do(cfg, s, Step(w, list, draw)).sh.db; k in db'.offline && db'.offline[k].status == Syncing
    ensures Attended(Do(cfg, s, Step(w, list, draw)), k)
  {
    var v := View(s.sh, s.tasks[w]);
    var v' := Stepped(cfg, v, list, draw);
    var s' := Do(cfg, s, Step(w, list, draw));
    StepRecords(cfg, v, list, draw);
    StepWork(cfg, v, list, draw, k);
    assert s'.tasks[w] == v'.task;
    if !WorksOn(v'.task, k) {
      assert k in s.sh.db.offline && s.sh.db.offline[k].status == Syncing;
      var u :| u in s.tasks && WorksOn(s.tasks[u], k);
      assert u != w ==> s'.tasks[u] == s.tasks[u];
    }
  }

  lemma ActionAttended(cfg: Config, s: State, a: Action)
    requires SyncingAttended(s) && RecordsOk(s.sh.db) && Can(s, a)
    ensures SyncingAttended(Do(cfg, s, a))
  {
    var s' := Do(cfg, s, a);
    forall k | k in s'.sh.db.offline && s'.sh.db.offline[k].status == Syncing ensures Attended(s', k) {
      if a.Step? {
        StepAttended(cfg, s, a.w, a.list, a.draw, k);
      } else {
        assert k in s.sh.db.offline && s.sh.db.offline[k].status == Syncing;
        var v :| v in s.tasks && WorksOn(s.tasks[v], k);
        assert v in s'.tasks && s'.tasks[v] == s.tasks[v];
      }
    }
  }

  // ------------------------------------------------------------------ whole runs

  ghost predicate CountsOk(s: State) {
    Books(s) && CounterOk(s) && SyncingAttended(s)
  }

  lemma InitCounts(s: State)
    requires Init(s)
    ensures CountsOk(s)
  {
    SumZero(s.sh.db.offline, AttemptsOf);
    SumZero(s.sh.db.offline, SyncedOf);
    SumZero(s.tasks, Holds);
    SumZero(s.tasks, Uncounted);
  }

  lemma ActionCounts(cfg: Config, s: State, a: Action)
    requires CountsOk(s) && RecordsOk(s.sh.db) && Can(s, a)
    ensures CountsOk(Do(cfg, s, a))
  {
    ActionBooks(cfg, s, a);
    ActionCounter(cfg, s, a);
    ActionAttended(cfg, s, a);
  }

  lemma {:induction false} RunCounts(cfg: Config, trace: seq<State>, n: nat)
    requires IsRun(cfg, trace) && n < |trace|
    ensures CountsOk(trace[n])
  {
    if n == 0 {
      InitCounts(trace[0]);
    } else {
      RunCounts(cfg, trace, n - 1);
      RunOk(cfg, trace, n - 1);
      ActionCounts(cfg, trace[n - 1], ActionAt(cfg, trace, n - 1));
    }
  }

  /**
   Attempts are accounted for by the increments carried out, the failures and the workers still
   on their way; the counter itself serves for the increments exactly when none was lost.
   */
  lemma AttemptsAccountedFor(cfg: Config, trace: seq<State>, n: nat)
    requires IsRun(cfg, trace) && n < |trace|
    ensures var s := trace[n];
            var attempts := Sum(s.sh.db.offline, AttemptsOf);
            && attempts == s.sh.tally + s.sh.failedCount + Sum(s.tasks, Holds)
            && s.sh.syncedCount <= s.sh.tally
            && (attempts == s.sh.syncedCount + s.sh.failedCount + Sum(s.tasks, Holds) <==> !s.sh.lost)
  {
    RunCounts(cfg, trace, n);
  }

  /** With no worker on its way, every record is at rest, and each synced one was counted unless an increment was lost. */
  lemma QuietStore(cfg: Config, trace: seq<State>, n: nat)
    requires IsRun(cfg, trace) && n < |trace|
    requires forall w :: w in trace[n].tasks ==> Holds(trace[n].tasks[w]) == 0
    ensures var s := trace[n];
            && (forall k :: k in s.sh.db.offline ==> s.sh.db.offline[k].status in {Pending, Failed, Synced})
            && Sum(s.sh.db.offline, SyncedOf) <= s.sh.tally
            && (!s.sh.lost ==> Sum(s.sh.db.offline, SyncedOf) <= s.sh.syncedCount)
            && Sum(s.sh.db.offline, AttemptsOf) == s.sh.tally + s.sh.failedCount
  {
    var s := trace[n];
    RunCounts(cfg, trace, n);
    RunOk(cfg, trace, n);
    SumZero(s.tasks, Holds);
    SumZero(s.tasks, Uncounted);
    forall k | k in s.sh.db.offline ensures s.sh.db.offline[k].status in {Pending, Failed, Synced} {
      assert RecordOk(s.sh.db, k, s.sh.db.offline[k]);
      NobodyAttends(s, k);
    }
  }

  lemma NobodyAttends(s: State, k: string)
    requires forall w :: w in s.tasks ==> Holds(s.tasks[w]) == 0
    ensures !Attended(s, k)
  {
  }

  /** Two increments that overlap are counted once. */
  lemma OverlapLosesOne(cfg: Config, s: State, v: nat, w: nat, list: seq<OfflineRecord>, draw: Draw)
    requires v in s.tasks && w in s.tasks && v != w && s.tasks[v].CountSynced? && s.tasks[w].CountSynced?
    requires draw.issue != "" && draw.id !in s.sh.drawn
    ensures var s1 := Do(cfg, s, Step(v, list, draw));
            var s2 := Do(cfg, s1, Step(w, list, draw));
            var s3 := Do(cfg, s2, Step(v, list, draw));
            var s4 := Do(cfg, s3, Step(w, list, draw));
            s4.sh.syncedCount == s.sh.syncedCount + 1 && s4.sh.tally == s.sh.tally + 2 && s4.sh.lost
  {
  }

  // ------------------------------------------------------------------ synced records

  lemma SyncedNotMarked(db: Db, j: string, k: string)
    requires k in db.offline && db.offline[k].status == Synced
    ensures var m := MarkedSyncing(db, j).offline; k in m && m[k] == db.offline[k]
  {
  }

  lemma SyncedConfirmed(db: Db, j: string, receipt: string, now: Time, k: string)
    requires k in db.offline && db.offline[k].status == Synced
    ensures var m := MarkedSynced(db, j, receipt, now).offline;
            k in m && m[k].status == Synced && (j != k ==> m[k] == db.offline[k])
  {
    if j in db.offline {
      var r := MarkedSynced(db, j, receipt, now).offline[j];
      assert MarkedSynced(db, j, receipt, now).offline == db.offline[j := r];
    }
  }

  lemma SyncedGivenUp(db: Db, j: string, e: ApplyError, k: string)
    requires k in db.offline && db.offline[k].status == Synced
    ensures var m := MarkedFailed(db, j, e).offline;
            k in m && (m[k].status != Synced <==> j == k) && (j != k ==> m[k] == db.offline[k])
  {
    if j in db.offline {
      var r := MarkedFailed(db, j, e).offline[j];
      assert MarkedFailed(db, j, e).offline == db.offline[j := r];
    }
  }

  lemma SyncedWritten(v: View, now: Time, k: string)
    requires k in v.sh.db.offline && v.sh.db.offline[k].status == Synced
    ensures k in Written(v, now)
    ensures Written(v, now)[k].status != Synced <==> v.task.GiveUp? && v.task.localId == k
    ensures !WorksOn(v.task, k) ==> Written(v, now)[k] == v.sh.db.offline[k]
  {
    match v.task
    case Pass(rest) =>
      if rest != [] {
        SyncedNotMarked(v.sh.db, rest[0], k);
      }
    case Confirm(j, _, receipt) => SyncedConfirmed(v.sh.db, j, receipt, now, k);
    case GiveUp(j, _, e) => SyncedGivenUp(v.sh.db, j, e, k);
    case _ =>
  }

  /** A synced record stops being synced exactly when a worker that took it earlier gives it up. */
  lemma SyncedUndoneIff(cfg: Config, s: State, a: Action, k: string)
    requires Can(s, a) && k in s.sh.db.offline && s.sh.db.offline[k].status == Synced
    ensures var db' := Do(cfg, s, a).sh.db;
            && k in db'.offline
            && (db'.offline[k].status != Synced <==> a.Step? && s.tasks[a.w].GiveUp? && s.tasks[a.w].localId == k)
  {
    if a.Step? {
      var v := View(s.sh, s.tasks[a.w]);
      StepRecords(cfg, v, a.list, a.draw);
      SyncedWritten(v, a.draw.now, k);
    } else {
      OtherKeepsRecord(cfg, s, a, k);
    }
  }

  lemma OtherKeepsRecord(cfg: Config, s: State, a: Action, k: string)
    requires Can(s, a) && !a.Step? && k in s.sh.db.offline
    ensures k in Do(cfg, s, a).sh.db.offline && Do(cfg, s, a).sh.db.offline[k] == s.sh.db.offline[k]
  {
    match a
    case Enqueue(localId, payload, createdAt, now) =>
      EnqueueKeepsRecord(s.sh.db, NewRecord(localId, payload, createdAt), now, k);
    case _ =>
  }

  lemma EnqueueKeepsRecord(db: Db, r: OfflineRecord, now: Time, k: string)
    requires k in db.offline
    ensures k in Enqueued(db, r, now).offline && Enqueued(db, r, now).offline[k] == db.offline[k]
  {
  }

  /** Once synced with nobody at work on it, a record never changes again. */
  lemma {:induction false} SettledForGood(cfg: Config, trace: seq<State>, m: nat, n: nat, k: string)
    requires IsRun(cfg, trace) && m <= n < |trace| && Settled(trace[m], k)
    ensures Settled(trace[n], k) && trace[n].sh.db.offline[k] == trace[m].sh.db.offline[k]
  {
    if m < n {
      SettledForGood(cfg, trace, m, n - 1, k);
      RunSettled(cfg, trace, n - 1, k);
    }
  }

  ghost predicate Settled(s: State, k: string) {
    k in s.sh.db.offline && s.sh.db.offline[k].status == Synced && !Attended(s, k)
  }

  lemma RunSettled(cfg: Config, trace: seq<State>, n: nat, k: string)
    requires IsRun(cfg, trace) && n + 1 < |trace| && Settled(trace[n], k)
    ensures Settled(trace[n + 1], k) && trace[n + 1].sh.db.offline[k] == trace[n].sh.db.offline[k]
  {
    RunOk(cfg, trace, n);
    SettledStep(cfg, trace[n], ActionAt(cfg, trace, n), k);
  }

  lemma SettledStep(cfg: Config, s: State, a: Action, k: string)
    requires Can(s, a) && RecordsOk(s.sh.db) && Settled(s, k)
    ensures Settled(Do(cfg, s, a), k) && Do(cfg, s, a).sh.db.offline[k] == s.sh.db.offline[k]
  {
    if a.Step? {
      var v := View(s.sh, s.tasks[a.w]);
      StepRecords(cfg, v, a.list, a.draw);
      StepWork(cfg, v, a.list, a.draw, k);
      assert !WorksOn(s.tasks[a.w], k);
      SettledAt(s, a.w, Stepped(cfg, v, a.list, a.draw), a.draw.now, k);
    } else {
      OtherActionSettled(cfg, s, a, k);
    }
  }

  lemma SettledAt(s: State, w: nat, v': View, now: Time, k: string)
    requires Settled(s, k) && w in s.tasks && !WorksOn(v'.task, k)
    requires v'.sh.db.offline == Written(View(s.sh, s.tasks[w]), now)
    ensures Settled(At(s, w, v'), k) && v'.sh.db.offline[k] == s.sh.db.offline[k]
  {
    assert !WorksOn(s.tasks[w], k);
    SyncedWritten(View(s.sh, s.tasks[w]), now, k);
    StillUnattended(s, w, v', k);
  }

  lemma StillUnattended(s: State, w: nat, v': View, k: string)
    requires !Attended(s, k) && !WorksOn(v'.task, k)
    ensures !Attended(At(s, w, v'), k)
  {
    forall u | u in At(s, w, v').tasks ensures !WorksOn(At(s, w, v').tasks[u], k) {
      assert u in s.tasks ==> !WorksOn(s.tasks[u], k);
    }
  }

  lemma OtherActionSettled(cfg: Config, s: State, a: Action, k: string)
    requires Can(s, a) && !a.Step? && Settled(s, k)
    ensures Settled(Do(cfg, s, a), k) && Do(cfg, s, a).sh.db.offline[k] == s.sh.db.offline[k]
  {
    var s' := Do(cfg, s, a);
    OtherKeepsRecord(cfg, s, a, k);
    forall u | u in s'.tasks ensures !WorksOn(s'.tasks[u], k) {
      assert u in s.tasks ==> !WorksOn(s.tasks[u], k);
    }
  }
}
