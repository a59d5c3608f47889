/**
 A run in which a receipt comes to lead to a record with another receipt: two passes apply one
 incident report without an issue id, and each files an incident of its own.
 */
module ReplayDiverted {
  import opened Common
  import opened WorkOrders
  import opened Database
  import opened Calls
  import opened Replay
  import opened ReplayReceipts
  import Incidents

  /** Two workers and one report whose order is there; the issues filed and the ids drawn so far. */
  ghost predicate Scene(s: State, k: string, req: IncidentRequest, first: Task, second: Task,
                        issues: set<string>, drawn: set<string>) {
    && s.online && s.tasks == map[0 := first, 1 := second]
    && s.sh.db.offline.Keys == {k} && s.sh.db.offline[k].localId == k
    && s.sh.db.offline[k].payload == IncidentReport(Some(req)) && AwaitsOrUnderWay(s.sh.db.offline[k])
    && req.workOrderId in s.sh.db.orders
    && s.sh.db.incidentByIssue.Keys == issues && s.sh.drawn == drawn
  }

  predicate AwaitsOrUnderWay(r: OfflineRecord) {
    r.status == Pending || r.status == Syncing
  }

  predicate Reportable(req: IncidentRequest) {
    req.issueId == "" && req.workOrderId != "" && !req.kind.Unrecognised?
  }

  lemma Start(cfg: Config, k: string, req: IncidentRequest) returns (trace: seq<State>)
    ensures IsRun(cfg, trace) && Scene(Last(trace), k, req, Snapshot, Snapshot, {}, {})
    ensures Last(trace).sh.db.offline[k].status == Pending
  {
    var w := Order(req.workOrderId, "grid", "", Draft, [], false, 0, 0, 1, 1);
    var db := Db(map[], map[], map[req.workOrderId := w], map[], map[], map[], map[], map[], map[], map[]);
    var s0 := State(true, map[], Shared(db, 0, 0, {}, 0, false, {}, {}));
    trace := [s0];
    trace := Extended(cfg, trace, Enqueue(k, IncidentReport(Some(req)), 1, 1));
    trace := Extended(cfg, trace, Spawn(0));
    trace := Extended(cfg, trace, Spawn(1));
    trace := Extended(cfg, trace, BeginPass(0));
    trace := Extended(cfg, trace, BeginPass(1));
  }

  lemma BothList(cfg: Config, trace: seq<State>, k: string, req: IncidentRequest) returns (longer: seq<State>)
    requires IsRun(cfg, trace) && Scene(Last(trace), k, req, Snapshot, Snapshot, {}, {})
    requires Last(trace).sh.db.offline[k].status == Pending
    ensures IsRun(cfg, longer) && Scene(Last(longer), k, req, Pass([k]), Pass([k]), {}, {})
  {
    var sh := Last(trace).sh;
    OnlyOneAwaits(sh.db, k);
    longer := Extended(cfg, trace, Step(0, [sh.db.offline[k]], SomeDraw(sh)));
    assert Scene(Last(longer), k, req, Pass([k]), Snapshot, {}, {});
    longer := Extended(cfg, longer, Step(1, [sh.db.offline[k]], SomeDraw(sh)));
  }

  /** Each worker that marks the report draws an issue id of its own for it. */
  lemma BothMark(cfg: Config, trace: seq<State>, k: string, req: IncidentRequest) returns (longer: seq<State>)
    requires IsRun(cfg, trace) && Scene(Last(trace), k, req, Pass([k]), Pass([k]), {}, {}) && Reportable(req)
    ensures IsRun(cfg, longer)
    ensures var o := Replaying(k, []); Scene(Last(longer), k, req, Lookup(o, req, "i0"), Lookup(o, req, "i1"), {}, {})
  {
    var o := Replaying(k, []);
    assert [k][1..] == [];
    longer := Extended(cfg, trace, Step(0, [], Draw("i0", "d0", 1)));
    assert Scene(Last(longer), k, req, Lookup(o, req, "i0"), Pass([k]), {}, {});
    longer := Extended(cfg, longer, Step(1, [], Draw("i1", "d1", 1)));
  }

  /** The look-up finds nothing under the issue just drawn. */
  lemma Looks(cfg: Config, trace: seq<State>, k: string, req: IncidentRequest, w: nat, issue: string)
    returns (longer: seq<State>)
    requires IsRun(cfg, trace) && w in Last(trace).tasks && Last(trace).tasks[w] == Lookup(Replaying(k, []), req, issue)
    requires issue !in Last(trace).sh.db.incidentByIssue
    ensures IsRun(cfg, longer)
    ensures Last(longer) == At(Last(trace), w, View(Last(trace).sh, CheckOrder(Replaying(k, []), req, issue)))
  {
    longer := Extended(cfg, trace, Step(w, [], SomeDraw(Last(trace).sh)));
  }

  lemma Checks(cfg: Config, trace: seq<State>, k: string, req: IncidentRequest, w: nat, issue: string, id: string)
    returns (longer: seq<State>, i: Incidents.Incident)
    requires IsRun(cfg, trace) && w in Last(trace).tasks && Last(trace).tasks[w] == CheckOrder(Replaying(k, []), req, issue)
    requires Reportable(req) && req.workOrderId in Last(trace).sh.db.orders && issue != "" && id != ""
    requires id !in Last(trace).sh.drawn
    ensures IsRun(cfg, longer) && i.issueId == issue && i.id == id
    ensures var sh := Last(trace).sh;
            Last(longer) == At(Last(trace), w, View(sh.(drawn := sh.drawn + {id}), Put(Replaying(k, []), i)))
  {
    i := NewIncident(req, issue, id, 1);
    assert Incidents.Fault(i) == None;
    longer := Extended(cfg, trace, Step(w, [], Draw("i", id, 1)));
  }

  lemma Puts(cfg: Config, trace: seq<State>, k: string, w: nat, i: Incidents.Incident) returns (longer: seq<State>)
    requires IsRun(cfg, trace) && w in Last(trace).tasks && Last(trace).tasks[w] == Put(Replaying(k, []), i)
    requires i.issueId != "" && i.issueId !in Last(trace).sh.db.incidentByIssue
    ensures IsRun(cfg, longer)
    ensures var s, s' := Last(trace), Last(longer);
            && s'.tasks == s.tasks[w := Confirm(k, [], Receipt(i.id))] && s'.online == s.online
            && s'.sh.db.offline == s.sh.db.offline && s'.sh.db.orders == s.sh.db.orders && s'.sh.drawn == s.sh.drawn
            && s'.sh.db.incidentByIssue.Keys == s.sh.db.incidentByIssue.Keys + {i.issueId}
  {
    var d := SomeDraw(Last(trace).sh);
    FilesNew(Last(trace).sh.db, i, d.now);
    longer := Extended(cfg, trace, Step(w, [], d));
  }

  lemma FilesNew(db: Db, i: Incidents.Incident, now: Time)
    requires i.issueId != "" && i.issueId !in db.incidentByIssue
    ensures PutId(db, i) == i.id
    ensures var db' := IncidentPut(db, i, now);
            && db'.incidentByIssue.Keys == db.incidentByIssue.Keys + {i.issueId}
            && db'.offline == db.offline && db'.orders == db.orders
  {
  }

  lemma FirstLooks(cfg: Config, trace: seq<State>, k: string, req: IncidentRequest, second: Task)
    returns (longer: seq<State>, i: Incidents.Incident)
    requires IsRun(cfg, trace) && Reportable(req)
    requires Scene(Last(trace), k, req, Lookup(Replaying(k, []), req, "i0"), second, {}, {})
    ensures IsRun(cfg, longer) && i.issueId == "i0" && i.id == "d0"
    ensures Scene(Last(longer), k, req, Put(Replaying(k, []), i), second, {}, {"d0"})
  {
    var looked := Looks(cfg, trace, k, req, 0, "i0");
    longer, i := Checks(cfg, looked, k, req, 0, "i0", "d0");
  }

  lemma FirstPuts(cfg: Config, trace: seq<State>, k: string, req: IncidentRequest, i: Incidents.Incident, second: Task)
    returns (longer: seq<State>)
    requires IsRun(cfg, trace) && i.issueId == "i0" && i.id == "d0"
    requires Scene(Last(trace), k, req, Put(Replaying(k, []), i), second, {}, {"d0"})
    ensures IsRun(cfg, longer)
    ensures Scene(Last(longer), k, req, Confirm(k, [], Receipt("d0")), second, {"i0"}, {"d0"})
  {
    longer := Puts(cfg, trace, k, 0, i);
  }

  lemma SecondLooks(cfg: Config, trace: seq<State>, k: string, req: IncidentRequest, first: Task)
    returns (longer: seq<State>, i: Incidents.Incident)
    requires IsRun(cfg, trace) && Reportable(req)
    requires Scene(Last(trace), k, req, first, Lookup(Replaying(k, []), req, "i1"), {"i0"}, {"d0"})
    ensures IsRun(cfg, longer) && i.issueId == "i1" && i.id == "d1"
    ensures Scene(Last(longer), k, req, first, Put(Replaying(k, []), i), {"i0"}, {"d0", "d1"})
  {
    assert "i0"[1] != "i1"[1] && "d0"[1] != "d1"[1];
    var looked := Looks(cfg, trace, k, req, 1, "i1");
    longer, i := Checks(cfg, looked, k, req, 1, "i1", "d1");
  }

  lemma SecondPuts(cfg: Config, trace: seq<State>, k: string, req: IncidentRequest, i: Incidents.Incident, first: Task)
    returns (longer: seq<State>)
    requires IsRun(cfg, trace) && i.issueId == "i1" && i.id == "d1"
    requires Scene(Last(trace), k, req, first, Put(Replaying(k, []), i), {"i0"}, {"d0", "d1"})
    ensures IsRun(cfg, longer)
    ensures Scene(Last(longer), k, req, first, Confirm(k, [], Receipt("d1")), {"i0", "i1"}, {"d0", "d1"})
  {
    assert "i0"[1] != "i1"[1];
    longer := Puts(cfg, trace, k, 1, i);
  }

  lemma BothReport(cfg: Config, k: string, req: IncidentRequest) returns (trace: seq<State>)
    requires Reportable(req)
    ensures IsRun(cfg, trace)
    ensures Scene(Last(trace), k, req, Confirm(k, [], Receipt("d0")), Confirm(k, [], Receipt("d1")), {"i0", "i1"}, {"d0", "d1"})
  {
    trace := Start(cfg, k, req);
    trace := BothList(cfg, trace, k, req);
    trace := BothMark(cfg, trace, k, req);
    var i: Incidents.Incident;
    trace, i := FirstLooks(cfg, trace, k, req, Lookup(Replaying(k, []), req, "i1"));
    trace := FirstPuts(cfg, trace, k, req, i, Lookup(Replaying(k, []), req, "i1"));
    trace, i := SecondLooks(cfg, trace, k, req, Confirm(k, [], Receipt("d0")));
    trace := SecondPuts(cfg, trace, k, req, i, Confirm(k, [], Receipt("d0")));
  }

  /** The confirmation of the second worker diverts the receipt that the first one gave. */
  lemma ReceiptDiverted(cfg: Config, k: string, req: IncidentRequest) returns (trace: seq<State>, receipt: string)
    requires Reportable(req)
    ensures IsRun(cfg, trace) && Astray(Last(trace).sh.db, receipt) && LeadsTo(Last(trace).sh.db, receipt, k)
    ensures Last(trace).sh.db.offline[k].status == Synced
  {
    trace := BothReport(cfg, k, req);
    receipt := Receipt("d0");
    assert receipt[5] != Receipt("d1")[5];
    trace := Extended(cfg, trace, Step(0, [], SomeDraw(Last(trace).sh)));
    trace := Extended(cfg, trace, Step(1, [], SomeDraw(Last(trace).sh)));
  }
}
