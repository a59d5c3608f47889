/**
 One worker left to itself: the single steps of module `Replay` add up to what the service
 functions say a whole pass does, so the two descriptions of reconciliation agree.
 */
module ReplayAlone {
  import opened Common
  import opened Database
  import opened Calls
  import opened Replay
  import Incidents

  /** One step of the worker, with a draw that the machine admits. */
  ghost predicate StepsTo(cfg: Config, v: View, v': View) {
    exists draw :: v.task != Idle && Supplied(v, [], draw) && Stepped(cfg, v, [], draw) == v'
  }

  ghost predicate Path(cfg: Config, vs: seq<View>) {
    vs != [] && forall i :: 0 <= i < |vs| - 1 ==> StepsTo(cfg, vs[i], vs[i + 1])
  }

  lemma Longer(cfg: Config, vs: seq<View>, draw: Draw) returns (longer: seq<View>)
    requires Path(cfg, vs) && Last(vs).task != Idle && Supplied(Last(vs), [], draw)
    ensures longer == vs + [Stepped(cfg, Last(vs), [], draw)] && Path(cfg, longer) && longer[0] == vs[0]
    ensures Last(longer) == Stepped(cfg, Last(vs), [], draw)
  {
    longer := vs + [Stepped(cfg, Last(vs), [], draw)];
    forall i | 0 <= i < |longer| - 1 ensures StepsTo(cfg, longer[i], longer[i + 1]) {
      if i < |vs| - 1 {
        assert StepsTo(cfg, vs[i], vs[i + 1]);
      }
    }
  }

  /** A draw with an id of its own, for a step that only reads the time. */
  ghost function TimeOf(d: Draw, sh: Shared): Draw {
    d.(id := FreshId(sh.drawn))
  }

  ghost predicate New(d: Draw, sh: Shared) {
    d.issue != "" && d.id !in sh.drawn
  }

  /** The counters are as before, and at most the id of `d` was drawn. */
  ghost predicate SameCounts(sh: Shared, sh': Shared, d: Draw) {
    && sh'.syncedCount == sh.syncedCount && sh'.failedCount == sh.failedCount
    && sh'.tally == sh.tally && sh'.lost == sh.lost && sh'.drawn <= sh.drawn + {d.id}
  }

  /** The call for the record has come back with `r`, having turned the store into `db`. */
  ghost predicate CameBack(sh: Shared, v: View, k: string, rest: seq<string>, d: Draw, db: Db, r: Result<string, ApplyError>) {
    && SameCounts(sh, v.sh, d) && v.sh.db == db
    && v.task == (match r
                  case Ok(receipt) => Confirm(k, rest, receipt)
                  case Err(e) => GiveUp(k, rest, e))
  }

  function AsReceipt(r: Result<string, ApplyError>): Result<string, ApplyError> {
    match r
    case Ok(id) => Ok(Receipt(id))
    case Err(e) => Err(e)
  }

  lemma ReportAlone(cfg: Config, vs: seq<View>, k: string, rest: seq<string>, req: IncidentRequest, d: Draw)
    returns (longer: seq<View>)
    requires Path(cfg, vs) && Last(vs).task == Lookup(Replaying(k, rest), req, IssueOf(req, d.issue)) && New(d, Last(vs).sh)
    ensures Path(cfg, longer) && longer[0] == vs[0]
    ensures var db := Last(vs).sh.db;
            CameBack(Last(vs).sh, Last(longer), k, rest, d, ReportDb(db, req, d), AsReceipt(ReportOutcome(db, req, d)))
  {
    var sh, o, issue := Last(vs).sh, Replaying(k, rest), IssueOf(req, d.issue);
    longer := Longer(cfg, vs, d);
    if FiledUnder(sh.db, issue) == None {
      assert Last(longer) == View(sh, CheckOrder(o, req, issue));
      longer := Longer(cfg, longer, d);
      if req.workOrderId in sh.db.orders {
        var i := NewIncident(req, issue, d.id, d.now);
        if Incidents.Fault(i) == None {
          assert Last(longer) == View(sh.(drawn := sh.drawn + {d.id}), Put(o, i));
          longer := Longer(cfg, longer, TimeOf(d, Last(longer).sh));
        }
      }
    }
  }

  lemma TrackAlone(cfg: Config, vs: seq<View>, k: string, rest: seq<string>, t: TrackRequest, d: Draw)
    returns (longer: seq<View>)
    requires Path(cfg, vs) && Last(vs).task == ReadOrder(Replaying(k, rest), t) && New(d, Last(vs).sh)
    ensures Path(cfg, longer) && longer[0] == vs[0]
    ensures var db, fault := Last(vs).sh.db, TrackFault(Last(vs).sh.db, t);
            CameBack(Last(vs).sh, Last(longer), k, rest, d, TrackDb(cfg, db, t, true, d.now),
                     if fault.Some? then Err(fault.value) else Ok(Receipt(t.workOrderId)))
  {
    var sh, o := Last(vs).sh, Replaying(k, rest);
    longer := Longer(cfg, vs, d);
    if t.workOrderId in sh.db.orders {
      var gridId := sh.db.orders[t.workOrderId].gridId;
      assert Last(longer) == View(sh, ReadGrid(o, t, gridId));
      longer := Longer(cfg, longer, d);
      if TrackFault(sh.db, t) == None {
        assert Last(longer) == View(sh, Save(o, NewTrack(cfg, t, sh.db.grids[gridId].route, true, d.now)));
        longer := Longer(cfg, longer, d);
      }
    }
  }

  /** From the marking of a record to the end of the call that it asks for. */
  lemma ApplyAlone(cfg: Config, vs: seq<View>, k: string, rest: seq<string>, d: Draw) returns (longer: seq<View>)
    requires Path(cfg, vs) && Last(vs).task == Pass([k] + rest) && CanSync(Last(vs).sh.db, k)
    requires New(d, Last(vs).sh)
    requires Last(vs).sh.db.offline[k].localId == k
    ensures Path(cfg, longer) && longer[0] == vs[0]
    ensures var db1 := MarkedSyncing(Last(vs).sh.db, k);
            var r := db1.offline[k];
            CameBack(Last(vs).sh, Last(longer), k, rest, d, ApplyDb(cfg, db1, r, d), ApplyOutcome(db1, r, d))
  {
    var sh := Last(vs).sh;
    assert ([k] + rest)[1..] == rest;
    longer := Longer(cfg, vs, d);
    var db1 := MarkedSyncing(sh.db, k);
    assert Last(longer) == Unpacked(sh.(db := db1), db1.offline[k], rest, d.issue);
    match db1.offline[k].payload
    case IncidentReport(Some(req)) => longer := ReportAlone(cfg, longer, k, rest, req, d);
    case TrackReport(Some(t)) => longer := TrackAlone(cfg, longer, k, rest, t, d);
    case _ =>
  }

  /** One record: marked, applied, confirmed or given up, and counted. */
  lemma RecordAlone(cfg: Config, vs: seq<View>, k: string, rest: seq<string>, d: Draw) returns (longer: seq<View>)
    requires Path(cfg, vs) && Last(vs).task == Pass([k] + rest) && New(d, Last(vs).sh)
    requires k in Last(vs).sh.db.offline ==> Last(vs).sh.db.offline[k].localId == k
    ensures Path(cfg, longer) && longer[0] == vs[0]
    ensures RecordDone(cfg, Last(vs).sh, Last(longer), k, rest, d)
  {
    var sh := Last(vs).sh;
    if CanSync(sh.db, k) {
      longer := ApplyAlone(cfg, vs, k, rest, d);
      longer := CountAlone(cfg, longer, sh, k, rest, d);
    } else {
      assert ([k] + rest)[1..] == rest;
      longer := Longer(cfg, vs, d);
    }
  }

  ghost predicate RecordDone(cfg: Config, sh: Shared, v: View, k: string, rest: seq<string>, d: Draw) {
    && v.task == Pass(rest) && v.sh.db == ReplayDb(cfg, sh.db, k, d) && v.sh.lost == sh.lost
    && v.sh.drawn <= sh.drawn + {d.id}
    && v.sh.syncedCount == sh.syncedCount + (if ReplayOutcome(sh.db, k, d) == Done then 1 else 0)
    && v.sh.failedCount == sh.failedCount + (if ReplayOutcome(sh.db, k, d) == Spoiled then 1 else 0)
  }

  lemma CountAlone(cfg: Config, vs: seq<View>, sh: Shared, k: string, rest: seq<string>, d: Draw) returns (longer: seq<View>)
    requires Path(cfg, vs) && CanSync(sh.db, k) && d.issue != ""
    requires var db1 := MarkedSyncing(sh.db, k);
             var r := db1.offline[k];
             CameBack(sh, Last(vs), k, rest, d, ApplyDb(cfg, db1, r, d), ApplyOutcome(db1, r, d))
    ensures Path(cfg, longer) && longer[0] == vs[0] && RecordDone(cfg, sh, Last(longer), k, rest, d)
  {
    if Last(vs).task.Confirm? {
      longer := ConfirmAlone(cfg, vs, d);
    } else {
      longer := GiveUpAlone(cfg, vs, d);
    }
  }

  lemma ConfirmAlone(cfg: Config, vs: seq<View>, d: Draw) returns (longer: seq<View>)
    requires Path(cfg, vs) && Last(vs).task.Confirm? && d.issue != ""
    ensures Path(cfg, longer) && longer[0] == vs[0] && Last(longer).task == Pass(Last(vs).task.rest)
    ensures var sh, sh' := Last(vs).sh, Last(longer).sh;
            && sh'.db == MarkedSynced(sh.db, Last(vs).task.localId, Last(vs).task.receipt, d.now)
            && sh'.syncedCount == sh.syncedCount + 1 && sh'.failedCount == sh.failedCount
            && sh'.lost == sh.lost && sh'.drawn == sh.drawn
  {
    longer := Longer(cfg, vs, TimeOf(d, Last(vs).sh));
    longer := Longer(cfg, longer, TimeOf(d, Last(longer).sh));
    longer := Longer(cfg, longer, TimeOf(d, Last(longer).sh));
  }

  lemma GiveUpAlone(cfg: Config, vs: seq<View>, d: Draw) returns (longer: seq<View>)
    requires Path(cfg, vs) && Last(vs).task.GiveUp? && d.issue != ""
    ensures Path(cfg, longer) && longer[0] == vs[0] && Last(longer).task == Pass(Last(vs).task.rest)
    ensures var sh, sh' := Last(vs).sh, Last(longer).sh;
            && sh'.db == MarkedFailed(sh.db, Last(vs).task.localId, Last(vs).task.error)
            && sh'.syncedCount == sh.syncedCount && sh'.failedCount == sh.failedCount + 1
            && sh'.lost == sh.lost && sh'.drawn == sh.drawn
  {
    longer := Longer(cfg, vs, TimeOf(d, Last(vs).sh));
    longer := Longer(cfg, longer, TimeOf(d, Last(longer).sh));
  }

  /** The worker has gone through the first `n` records of its list. */
  ghost predicate Through(cfg: Config, sh: Shared, v: View, list: seq<OfflineRecord>, draws: nat -> Draw, n: nat)
    requires n <= |list|
  {
    && v.task == Pass(LocalIds(list)[n..]) && v.sh.db == PassDb(cfg, sh.db, list[..n], draws) && v.sh.lost == sh.lost
    && v.sh.syncedCount == sh.syncedCount + Tally(cfg, sh.db, list[..n], draws, Done)
    && v.sh.failedCount == sh.failedCount + Tally(cfg, sh.db, list[..n], draws, Spoiled)
    && forall j :: n <= j < |list| ==> New(draws(j), v.sh)
  }

  /** The draws of a pass are new, and no two of them give one id. */
  ghost predicate NewDraws(sh: Shared, draws: nat -> Draw, n: nat) {
    && (forall j :: 0 <= j < n ==> New(draws(j), sh))
    && (forall i, j :: 0 <= i < j < n ==> draws(i).id != draws(j).id)
  }

  lemma {:induction false} FirstRecordsAlone(cfg: Config, sh: Shared, list: seq<OfflineRecord>, draws: nat -> Draw, n: nat)
    returns (vs: seq<View>)
    requires Linked(sh.db) && ListsAwaiting(sh.db, list) && n <= |list| && NewDraws(sh, draws, |list|)
    ensures Path(cfg, vs) && vs[0] == View(sh, Pass(LocalIds(list))) && Through(cfg, sh, Last(vs), list, draws, n)
  {
    if n == 0 {
      vs := [View(sh, Pass(LocalIds(list)))];
    } else {
      var front := FirstRecordsAlone(cfg, sh, list, draws, n - 1);
      vs := NextRecordAlone(cfg, sh, front, list, draws, n - 1);
    }
  }

  lemma NextRecordAlone(cfg: Config, sh: Shared, vs: seq<View>, list: seq<OfflineRecord>, draws: nat -> Draw, n: nat)
    returns (longer: seq<View>)
    requires Linked(sh.db) && ListsAwaiting(sh.db, list) && n < |list| && NewDraws(sh, draws, |list|)
    requires Path(cfg, vs) && Through(cfg, sh, Last(vs), list, draws, n)
    ensures Path(cfg, longer) && longer[0] == vs[0] && Through(cfg, sh, Last(longer), list, draws, n + 1)
  {
    var ids := LocalIds(list);
    assert ids[n..] == [list[n].localId] + ids[n + 1..];
    PassKeepsIds(cfg, sh.db, list, draws, n);
    longer := RecordAlone(cfg, vs, list[n].localId, ids[n + 1..], draws(n));
    ThroughOneMore(cfg, sh, Last(vs), Last(longer), list, draws, n);
  }

  lemma ThroughOneMore(cfg: Config, sh: Shared, v: View, v': View, list: seq<OfflineRecord>, draws: nat -> Draw, n: nat)
    requires n < |list| && Through(cfg, sh, v, list, draws, n) && NewDraws(sh, draws, |list|)
    requires RecordDone(cfg, v.sh, v', list[n].localId, LocalIds(list)[n + 1..], draws(n))
    ensures Through(cfg, sh, v', list, draws, n + 1)
  {
    PassGrows(cfg, sh.db, list, draws, n);
    StillNew(v.sh, v'.sh, draws, n, |list|);
  }

  /** The draws still to come are as new as before, since the id drawn last is none of theirs. */
  lemma StillNew(sh: Shared, sh': Shared, draws: nat -> Draw, n: nat, count: nat)
    requires forall j :: n <= j < count ==> New(draws(j), sh)
    requires forall i, j :: 0 <= i < j < count ==> draws(i).id != draws(j).id
    requires n < count && sh'.drawn <= sh.drawn + {draws(n).id}
    ensures forall j :: n + 1 <= j < count ==> New(draws(j), sh')
  {
    forall j | n + 1 <= j < count ensures New(draws(j), sh') {
      assert draws(n).id != draws(j).id;
    }
  }

  lemma ListedAlone(cfg: Config, sh: Shared, list: seq<OfflineRecord>, draws: nat -> Draw) returns (vs: seq<View>)
    requires Linked(sh.db) && ListsAwaiting(sh.db, list) && NewDraws(sh, draws, |list|)
    ensures Path(cfg, vs) && vs[0] == View(sh, Pass(LocalIds(list))) && PassDone(cfg, sh, Last(vs), list, draws)
  {
    vs := FirstRecordsAlone(cfg, sh, list, draws, |list|);
    assert list[..|list|] == list && LocalIds(list)[|list|..] == [];
    vs := Longer(cfg, vs, SomeDraw(Last(vs).sh));
  }

  /** The pass is over, with the store and the counters of `ReconcileOffline`. */
  ghost predicate PassDone(cfg: Config, sh: Shared, v: View, list: seq<OfflineRecord>, draws: nat -> Draw) {
    && v.task == Idle && v.sh.db == PassDb(cfg, sh.db, list, draws) && v.sh.lost == sh.lost
    && v.sh.syncedCount == sh.syncedCount + Tally(cfg, sh.db, list, draws, Done)
    && v.sh.failedCount == sh.failedCount + Tally(cfg, sh.db, list, draws, Spoiled)
  }

  ghost predicate WorkerSteps(cfg: Config, s: State, s': State, w: nat) {
    exists list, draw :: Can(s, Step(w, list, draw)) && Do(cfg, s, Step(w, list, draw)) == s'
  }

  /** A stretch in which only worker `w` acts. */
  ghost predicate Alone(cfg: Config, trace: seq<State>, w: nat) {
    trace != [] && forall i :: 0 <= i < |trace| - 1 ==> WorkerSteps(cfg, trace[i], trace[i + 1], w)
  }

  /** The path of a worker is a stretch of the machine. */
  lemma Lifted(cfg: Config, s: State, w: nat, vs: seq<View>) returns (trace: seq<State>)
    requires Path(cfg, vs) && w in s.tasks && vs[0] == View(s.sh, s.tasks[w])
    ensures Alone(cfg, trace, w) && |trace| == |vs| && trace[0] == s && Last(trace) == At(s, w, Last(vs))
  {
    trace := seq(|vs|, i requires 0 <= i < |vs| => At(s, w, vs[i]));
    assert s.tasks[w := s.tasks[w]] == s.tasks;
    forall i | 0 <= i < |trace| - 1 ensures WorkerSteps(cfg, trace[i], trace[i + 1], w) {
      assert StepsTo(cfg, vs[i], vs[i + 1]);
      var draw :| vs[i].task != Idle && Supplied(vs[i], [], draw) && Stepped(cfg, vs[i], [], draw) == vs[i + 1];
      assert View(trace[i].sh, trace[i].tasks[w]) == vs[i];
      assert trace[i].tasks[w := vs[i + 1].task] == trace[i + 1].tasks;
      assert Can(trace[i], Step(w, [], draw)) && Do(cfg, trace[i], Step(w, [], draw)) == trace[i + 1];
    }
  }

  /**
   A worker that takes its list and is then left alone ends with the store and the counters
   of one undisturbed `ReconcileOffline`, by actions that the machine admits.
   */
  lemma PassAlone(cfg: Config, s: State, w: nat, list: seq<OfflineRecord>, draws: nat -> Draw) returns (trace: seq<State>)
    requires w in s.tasks && s.tasks[w] == Snapshot && IsPendingList(s.sh.db, list)
    requires Linked(s.sh.db) && NewDraws(s.sh, draws, |list|)
    ensures Alone(cfg, trace, w) && trace[0] == s
    ensures w in Last(trace).tasks && PassDone(cfg, s.sh, View(Last(trace).sh, Last(trace).tasks[w]), list, draws)
    ensures Last(trace).tasks == s.tasks[w := Idle] && Last(trace).online == s.online
  {
    PendingListLists(s.sh.db, list);
    var taken := TakesList(cfg, s, w, list);
    var vs := ListedAlone(cfg, s.sh, list, draws);
    var rest := Lifted(cfg, taken, w, vs);
    trace := [s] + rest;
    AloneInFront(cfg, s, rest, w);
  }

  lemma AloneInFront(cfg: Config, s: State, rest: seq<State>, w: nat)
    requires Alone(cfg, rest, w) && WorkerSteps(cfg, s, rest[0], w)
    ensures Alone(cfg, [s] + rest, w)
  {
    var trace := [s] + rest;
    forall i | 0 <= i < |trace| - 1 ensures WorkerSteps(cfg, trace[i], trace[i + 1], w) {
      assert i > 0 ==> WorkerSteps(cfg, rest[i - 1], rest[i], w);
    }
  }

  lemma TakesList(cfg: Config, s: State, w: nat, list: seq<OfflineRecord>) returns (taken: State)
    requires w in s.tasks && s.tasks[w] == Snapshot && IsPendingList(s.sh.db, list)
    ensures WorkerSteps(cfg, s, taken, w) && taken == At(s, w, View(s.sh, Pass(LocalIds(list))))
  {
    taken := Do(cfg, s, Step(w, list, SomeDraw(s.sh)));
  }

  /** Under way, every record is still kept under its own id. */
  lemma PassKeepsIds(cfg: Config, db: Db, list: seq<OfflineRecord>, draws: nat -> Draw, n: nat)
    requires Linked(db) && ListsAwaiting(db, list) && n < |list|
    ensures var k := list[n].localId;
            k in PassDb(cfg, db, list[..n], draws).offline && PassDb(cfg, db, list[..n], draws).offline[k].localId == k
  {
    forall k | k in Ids(list[..n]) ensures k in db.offline && AwaitsSync(db.offline[k]) {
      assert k in Ids(list);
    }
    PassSettles(cfg, db, list[..n], draws);
    assert list[n].localId in Ids(list);
  }
}
