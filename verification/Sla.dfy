/**
 The response deadline under interleaving: monitors sweep over the incidents while
 dispatchers report, assign, handle and close them. A monitor reads the clock, takes a
 snapshot of the open incidents, and visits them one at a time.
 */
module Sla {
  import opened Common
  import opened Database
  import opened Calls
  import opened Sums
  import Incidents

  /** A monitor's sweep: the clock was read; then `list` is the snapshot, visited up to `at`. */
  datatype Sweep =
    | Opened(now: Time)
    | Walking(now: Time, list: seq<Incidents.Incident>, at: nat, count: nat)

  /** `total` is the counter `slaFlagged`; `marked` records the incidents whose flag a monitor set. */
  datatype Watch = Watch(db: Db, clock: Time, sweeps: map<nat, Sweep>, total: int, marked: set<string>)

  datatype Move =
    | Clock(to: Time)
    | Report(incident: Incidents.Incident)
    | Mutate(id: string, use: IncidentUse)
    | Open(w: nat)
    | TakeList(w: nat, list: seq<Incidents.Incident>)
    | Visit(w: nat)
    | Finish(w: nat)
    | Elsewhere(db: Db)

  predicate Init(s: Watch) {
    s.db.incidents == map[] && s.db.incidentByIssue == map[] && s.sweeps == map[] && s.total == 0 && s.marked == {}
  }

  ghost predicate Can(sla: Time, s: Watch, m: Move) {
    match m
    case Clock(_) => true
    case Report(i) => i.id !in s.db.incidents && i.status == Incidents.Reported && !i.breached && i.issueId != ""
    case Mutate(_, use) => !use.Flagging? && (use.Assigning? ==> use.sla == sla)
    case Open(w) => w !in s.sweeps
    case TakeList(w, list) => w in s.sweeps && s.sweeps[w].Opened? && IsOpenList(s.db, list)
    case Visit(w) => w in s.sweeps && s.sweeps[w].Walking? && s.sweeps[w].at < |s.sweeps[w].list|
    case Finish(w) => w in s.sweeps && s.sweeps[w].Walking? && s.sweeps[w].at == |s.sweeps[w].list|
    case Elsewhere(db) => db.incidents == s.db.incidents && db.incidentByIssue == s.db.incidentByIssue
  }

  /** Whether the visit of the next incident sets a flag. */
  predicate Fires(sla: Time, db: Db, now: Time, i: Incidents.Incident) {
    && i.status == Incidents.Reported && Incidents.IsSlaBreached(i, sla, now)
    && i.id in db.incidents && Incidents.CanFlag(db.incidents[i.id])
  }

  /** The store after a visit; an incident that the snapshot shows assigned or in time is passed over. */
  function Visited(sla: Time, db: Db, now: Time, i: Incidents.Incident): Db {
    if i.status != Incidents.Reported || !Incidents.IsSlaBreached(i, sla, now) then db
    else OrElse(IncidentMutated(db, i.id, Flagging, now), db)
  }

  function VisitStep(sla: Time, s: Watch, w: nat, v: Sweep): Watch
    requires v.Walking? && v.at < |v.list|
  {
    var i := v.list[v.at];
    var n := if Fires(sla, s.db, v.now, i) then 1 else 0;
    s.(db := Visited(sla, s.db, v.now, i),
       sweeps := s.sweeps[w := v.(at := v.at + 1, count := v.count + n)],
       marked := MarkedBy(sla, s, v.now, i))
  }

  function MarkedBy(sla: Time, s: Watch, now: Time, i: Incidents.Incident): set<string> {
    if Fires(sla, s.db, now, i) then s.marked + {i.id} else s.marked
  }

  ghost function Do(sla: Time, s: Watch, m: Move): Watch
    requires Can(sla, s, m)
  {
    match m
    case Clock(to) => s.(clock := to)
    case Report(i) => s.(db := IncidentPut(s.db, i, s.clock))
    case Mutate(id, use) => s.(db := OrElse(IncidentMutated(s.db, id, use, s.clock), s.db))
    case Open(w) => s.(sweeps := s.sweeps[w := Opened(s.clock)])
    case TakeList(w, list) => s.(sweeps := s.sweeps[w := Walking(s.sweeps[w].now, list, 0, 0)])
    case Visit(w) => VisitStep(sla, s, w, s.sweeps[w])
    case Finish(w) => s.(sweeps := s.sweeps - {w}, total := s.total + s.sweeps[w].count)
    case Elsewhere(db) => s.(db := db)
  }

  /** A report that files a new incident is a move of this machine. */
  lemma ReportIsMove(sla: Time, s: Watch, req: IncidentRequest, d: Draw)
    requires ReportOutcome(s.db, req, d).Ok? && IssueOf(req, d.issue) !in s.db.incidentByIssue
    requires d.id !in s.db.incidents && d.now == s.clock
    ensures d.id in ReportDb(s.db, req, d).incidents
    ensures var m := Report(ReportDb(s.db, req, d).incidents[d.id]);
            Can(sla, s, m) && Do(sla, s, m) == s.(db := ReportDb(s.db, req, d))
  {
    ReportFiles(s.db, req, d);
  }

  ghost predicate IsRun(sla: Time, trace: seq<Watch>) {
    && trace != [] && Init(trace[0])
    && forall i :: 0 <= i < |trace| - 1 ==> FollowsAt(sla, trace, i)
  }

  ghost predicate FollowsAt(sla: Time, trace: seq<Watch>, i: int)
    requires 0 <= i < |trace| - 1
  {
    exists m :: Can(sla, trace[i], m) && Do(sla, trace[i], m) == trace[i + 1]
  }

  ghost function MoveAt(sla: Time, trace: seq<Watch>, n: nat): (m: Move)
    requires IsRun(sla, trace) && n + 1 < |trace|
    ensures Can(sla, trace[n], m) && Do(sla, trace[n], m) == trace[n + 1]
  {
    assert FollowsAt(sla, trace, n);
    var m :| Can(sla, trace[n], m) && Do(sla, trace[n], m) == trace[n + 1];
    m
  }

  /** A run goes on with any move that its last state admits. */
  lemma Extended(sla: Time, trace: seq<Watch>, m: Move) returns (longer: seq<Watch>)
    requires IsRun(sla, trace) && Can(sla, Last(trace), m)
    ensures longer == trace + [Do(sla, Last(trace), m)] && IsRun(sla, longer)
  {
    longer := trace + [Do(sla, Last(trace), m)];
    forall i | 0 <= i < |longer| - 1 ensures FollowsAt(sla, longer, i) {
      if i < |trace| - 1 {
        assert FollowsAt(sla, trace, i) && longer[i] == trace[i] && longer[i + 1] == trace[i + 1];
        var m' :| Can(sla, trace[i], m') && Do(sla, trace[i], m') == trace[i + 1];
        assert Can(sla, longer[i], m') && Do(sla, longer[i], m') == longer[i + 1];
      } else {
        assert Can(sla, longer[i], m) && Do(sla, longer[i], m) == longer[i + 1];
      }
    }
  }

  // ------------------------------------------------------------------ what no step takes back

  /** How an incident may change: its report stays, and it does not go back to being reported. */
  ghost predicate Ages(i: Incidents.Incident, i': Incidents.Incident) {
    && i'.id == i.id && i'.issueId == i.issueId && i'.reportedAt == i.reportedAt
    && (i'.status == Incidents.Reported ==> i.status == Incidents.Reported && (i.breached ==> i'.breached))
    && (i.status != Incidents.Reported ==> i'.assignedAt == i.assignedAt && i'.breached == i.breached)
  }

  ghost predicate AllAge(db: Db, db': Db) {
    forall k :: k in db.incidents ==> k in db'.incidents && Ages(db.incidents[k], db'.incidents[k])
  }

  /** After the assignment the flag says whether it came too late. */
  ghost predicate FlagTells(sla: Time, i: Incidents.Incident) {
    i.status != Incidents.Reported ==> (i.breached <==> i.assignedAt - i.reportedAt > sla)
  }

  ghost predicate IncidentsOk(sla: Time, s: Watch) {
    && Indexed(s.db)
    && (forall k :: k in s.db.incidents ==> FlagTells(sla, s.db.incidents[k]))
    && MarkedOk(s.db, s.marked)
  }

  /** Each incident of a snapshot has only aged since, and those behind `at` need no flag any more. */
  ghost predicate SweepOk(sla: Time, db: Db, v: Sweep) {
    v.Walking? ==>
      && v.at <= |v.list|
      && (forall j :: 0 <= j < |v.list| ==> v.list[j].id in db.incidents && Ages(v.list[j], db.incidents[v.list[j].id]))
      && (forall j :: 0 <= j < v.at ==> !Due(db.incidents[v.list[j].id], sla, v.now))
  }

  ghost predicate SweepsOk(sla: Time, s: Watch) {
    forall w :: w in s.sweeps ==> SweepOk(sla, s.db, s.sweeps[w])
  }

  function CountOf(v: Sweep): int {
    if v.Walking? then v.count else 0
  }

  ghost predicate CountOk(s: Watch) {
    s.total + Sum(s.sweeps, CountOf) == |s.marked|
  }

  ghost predicate Inv(sla: Time, s: Watch) {
    IncidentsOk(sla, s) && SweepsOk(sla, s) && CountOk(s)
  }

  lemma AgesTransitive(a: Incidents.Incident, b: Incidents.Incident, c: Incidents.Incident)
    requires Ages(a, b) && Ages(b, c)
    ensures Ages(a, c)
  {
  }

  lemma SweepAges(sla: Time, db: Db, db': Db, v: Sweep)
    requires SweepOk(sla, db, v) && AllAge(db, db')
    ensures SweepOk(sla, db', v)
  {
    if v.Walking? {
      forall j | 0 <= j < |v.list|
        ensures v.list[j].id in db'.incidents && Ages(v.list[j], db'.incidents[v.list[j].id])
      {
        AgesTransitive(v.list[j], db.incidents[v.list[j].id], db'.incidents[v.list[j].id]);
      }
    }
  }

  /** Writing one incident that has aged keeps everything. */
  lemma SavedOk(sla: Time, s: Watch, i: Incidents.Incident)
    requires Inv(sla, s) && FlagTells(sla, i)
    requires i.id in s.db.incidents && Ages(s.db.incidents[i.id], i)
    ensures Inv(sla, s.(db := IncidentSaved(s.db, i))) && AllAge(s.db, IncidentSaved(s.db, i))
  {
    var db' := IncidentSaved(s.db, i);
    SavedAlike(s.db, i);
    assert AllAge(s.db, db');
    forall w | w in s.sweeps ensures SweepOk(sla, db', s.sweeps[w]) {
      SweepAges(sla, s.db, db', s.sweeps[w]);
    }
  }

  lemma ReportOk(sla: Time, s: Watch, i: Incidents.Incident)
    requires Inv(sla, s) && Can(sla, s, Report(i))
    ensures Inv(sla, s.(db := IncidentPut(s.db, i, s.clock))) && AllAge(s.db, IncidentPut(s.db, i, s.clock))
  {
    var db' := IncidentPut(s.db, i, s.clock);
    if i.issueId !in s.db.incidentByIssue {
      FreshPutIndexed(s.db, i, s.clock);
    }
    assert AllAge(s.db, db');
    forall w | w in s.sweeps ensures SweepOk(sla, db', s.sweeps[w]) {
      SweepAges(sla, s.db, db', s.sweeps[w]);
    }
  }

  lemma UsedAges(sla: Time, i: Incidents.Incident, use: IncidentUse, now: Time)
    requires FlagTells(sla, i) && (use.Assigning? ==> use.sla == sla) && IncidentUsed(i, use, now).Ok?
    ensures Ages(i, IncidentUsed(i, use, now).value) && FlagTells(sla, IncidentUsed(i, use, now).value)
  {
  }

  lemma MutateOk(sla: Time, s: Watch, id: string, use: IncidentUse)
    requires Inv(sla, s) && (use.Assigning? ==> use.sla == sla)
    ensures var db' := OrElse(IncidentMutated(s.db, id, use, s.clock), s.db);
            Inv(sla, s.(db := db')) && AllAge(s.db, db')
  {
    if id in s.db.incidents && IncidentUsed(s.db.incidents[id], use, s.clock).Ok? {
      UsedAges(sla, s.db.incidents[id], use, s.clock);
      SavedOk(sla, s, IncidentUsed(s.db.incidents[id], use, s.clock).value);
    }
  }

  // ------------------------------------------------------------------ the monitors

  lemma VisitedOk(sla: Time, s: Watch, now: Time, i: Incidents.Incident)
    requires Inv(sla, s) && i.id in s.db.incidents
    ensures Inv(sla, s.(db := Visited(sla, s.db, now, i))) && AllAge(s.db, Visited(sla, s.db, now, i))
  {
    if i.status == Incidents.Reported && Incidents.IsSlaBreached(i, sla, now) {
      MutateOk(sla, s, i.id, Flagging);
    } else {
      ElsewhereOk(sla, s, s.db);
    }
  }

  lemma VisitedSettles(sla: Time, db: Db, now: Time, i: Incidents.Incident)
    requires Indexed(db) && i.id in db.incidents && Ages(i, db.incidents[i.id])
    ensures i.id in Visited(sla, db, now, i).incidents
    ensures !Due(Visited(sla, db, now, i).incidents[i.id], sla, now)
    ensures Fires(sla, db, now, i) ==> !Incidents.CanFlag(Visited(sla, db, now, i).incidents[i.id])
  {
    FlaggingWrites(db, i.id, now);
  }

  lemma FlaggingWrites(db: Db, id: string, now: Time)
    requires Indexed(db) && id in db.incidents
    ensures IncidentMutated(db, id, Flagging, now).Ok?
    ensures IncidentMutated(db, id, Flagging, now).value.incidents
            == db.incidents[id := if Incidents.CanFlag(db.incidents[id]) then db.incidents[id].(breached := true) else db.incidents[id]]
  {
  }

  ghost predicate MarkedOk(db: Db, marked: set<string>) {
    forall k :: k in marked ==> k in db.incidents && !Incidents.CanFlag(db.incidents[k])
  }

  /** A visit that fires marks one incident more, and marked ones stay as they are. */
  lemma MarkedStay(sla: Time, s: Watch, now: Time, i: Incidents.Incident, db': Db)
    requires MarkedOk(s.db, s.marked) && AllAge(s.db, db') && i.id in db'.incidents
    requires Fires(sla, s.db, now, i) ==> !Incidents.CanFlag(db'.incidents[i.id])
    ensures MarkedOk(db', MarkedBy(sla, s, now, i))
    ensures |MarkedBy(sla, s, now, i)| == |s.marked| + (if Fires(sla, s.db, now, i) then 1 else 0)
  {
    forall k | k in s.marked ensures k in db'.incidents && !Incidents.CanFlag(db'.incidents[k]) {
      assert Ages(s.db.incidents[k], db'.incidents[k]);
    }
  }

  /** One worker's sweep moves on over a store that has only aged. */
  lemma SweepMoved(sla: Time, s: Watch, w: nat, v: Sweep, marked: set<string>)
    requires Inv(sla, s) && w in s.sweeps && SweepOk(sla, s.db, v)
    requires CountOf(v) - CountOf(s.sweeps[w]) == |marked| - |s.marked|
    requires MarkedOk(s.db, marked)
    ensures Inv(sla, s.(sweeps := s.sweeps[w := v], marked := marked))
  {
    SumUpdate(s.sweeps, w, v, CountOf);
  }

  lemma SweepAdvances(sla: Time, db: Db, v: Sweep, count: nat)
    requires v.Walking? && v.at < |v.list| && SweepOk(sla, db, v) && !Due(db.incidents[v.list[v.at].id], sla, v.now)
    ensures SweepOk(sla, db, v.(at := v.at + 1, count := count))
  {
  }

  lemma VisitOk(sla: Time, s: Watch, w: nat)
    requires Inv(sla, s) && Can(sla, s, Visit(w))
    ensures Inv(sla, Do(sla, s, Visit(w))) && AllAge(s.db, Do(sla, s, Visit(w)).db)
  {
    var v := s.sweeps[w];
    var i := v.list[v.at];
    NextListed(sla, s, w);
    VisitedOk(sla, s, v.now, i);
    VisitedSettles(sla, s.db, v.now, i);
    MarkedStay(sla, s, v.now, i, Visited(sla, s.db, v.now, i));
    VisitPartsOk(sla, s, w, Visited(sla, s.db, v.now, i),
                 if Fires(sla, s.db, v.now, i) then 1 else 0, MarkedBy(sla, s, v.now, i));
  }

  lemma NextListed(sla: Time, s: Watch, w: nat)
    requires SweepsOk(sla, s) && Can(sla, s, Visit(w))
    ensures var i := s.sweeps[w].list[s.sweeps[w].at]; i.id in s.db.incidents && Ages(i, s.db.incidents[i.id])
  {
    assert SweepOk(sla, s.db, s.sweeps[w]);
  }

  lemma VisitPartsOk(sla: Time, s: Watch, w: nat, db': Db, n: nat, marked: set<string>)
    requires Inv(sla, s.(db := db')) && AllAge(s.db, db') && Can(sla, s, Visit(w))
    requires var v := s.sweeps[w];
             && db' == Visited(sla, s.db, v.now, v.list[v.at]) && marked == MarkedBy(sla, s, v.now, v.list[v.at])
             && n == (if Fires(sla, s.db, v.now, v.list[v.at]) then 1 else 0)
    requires var id := s.sweeps[w].list[s.sweeps[w].at].id; id in db'.incidents && !Due(db'.incidents[id], sla, s.sweeps[w].now)
    requires |marked| == |s.marked| + n && MarkedOk(db', marked)
    ensures Inv(sla, Do(sla, s, Visit(w))) && AllAge(s.db, Do(sla, s, Visit(w)).db)
  {
    VisitCounted(sla, s, db', w, n, marked);
  }

  /** The visiting sweep moves on by one and counts the flag that it set. */
  lemma VisitCounted(sla: Time, s: Watch, db': Db, w: nat, n: nat, marked: set<string>)
    requires Inv(sla, s.(db := db')) && w in s.sweeps && s.sweeps[w].Walking? && s.sweeps[w].at < |s.sweeps[w].list|
    requires var id := s.sweeps[w].list[s.sweeps[w].at].id; id in db'.incidents && !Due(db'.incidents[id], sla, s.sweeps[w].now)
    requires |marked| == |s.marked| + n && MarkedOk(db', marked)
    ensures var v := s.sweeps[w];
            Inv(sla, s.(db := db', sweeps := s.sweeps[w := v.(at := v.at + 1, count := v.count + n)], marked := marked))
  {
    var v := s.sweeps[w];
    assert SweepOk(sla, db', v);
    SweepAdvances(sla, db', v, v.count + n);
    SweepMoved(sla, s.(db := db'), w, v.(at := v.at + 1, count := v.count + n), marked);
  }

  lemma TakeListOk(sla: Time, s: Watch, w: nat, list: seq<Incidents.Incident>)
    requires Inv(sla, s) && Can(sla, s, TakeList(w, list))
    ensures Inv(sla, Do(sla, s, TakeList(w, list)))
  {
    var v := Walking(s.sweeps[w].now, list, 0, 0);
    forall j | 0 <= j < |list| ensures list[j].id in s.db.incidents && Ages(list[j], s.db.incidents[list[j].id]) {
      assert list[j] in list;
    }
    SweepMoved(sla, s, w, v, s.marked);
  }

  lemma FinishOk(sla: Time, s: Watch, w: nat)
    requires Inv(sla, s) && Can(sla, s, Finish(w))
    ensures Inv(sla, Do(sla, s, Finish(w)))
  {
    SumWithout(s.sweeps, w, CountOf);
  }

  lemma OpenOk(sla: Time, s: Watch, w: nat)
    requires Inv(sla, s) && Can(sla, s, Open(w))
    ensures Inv(sla, Do(sla, s, Open(w)))
  {
    SumUpdate(s.sweeps, w, Opened(s.clock), CountOf);
  }

  lemma ElsewhereOk(sla: Time, s: Watch, db: Db)
    requires Inv(sla, s) && db.incidents == s.db.incidents && db.incidentByIssue == s.db.incidentByIssue
    ensures Inv(sla, s.(db := db)) && AllAge(s.db, db)
  {
    assert AllAge(s.db, db);
    forall w | w in s.sweeps ensures SweepOk(sla, db, s.sweeps[w]) {
      SweepAges(sla, s.db, db, s.sweeps[w]);
    }
  }

  lemma MoveOk(sla: Time, s: Watch, m: Move)
    requires Inv(sla, s) && Can(sla, s, m)
    ensures Inv(sla, Do(sla, s, m)) && AllAge(s.db, Do(sla, s, m).db)
  {
    match m
    case Clock(_) => ElsewhereOk(sla, s, s.db);
    case Report(i) => ReportOk(sla, s, i);
    case Mutate(id, use) => MutateOk(sla, s, id, use);
    case Open(w) => OpenOk(sla, s, w);
    case TakeList(w, list) => TakeListOk(sla, s, w, list);
    case Visit(w) => VisitOk(sla, s, w);
    case Finish(w) => FinishOk(sla, s, w);
    case Elsewhere(db) => ElsewhereOk(sla, s, db);
  }

  lemma {:induction false} RunOk(sla: Time, trace: seq<Watch>, n: nat)
    requires IsRun(sla, trace) && n < |trace|
    ensures Inv(sla, trace[n])
  {
    if n > 0 {
      RunOk(sla, trace, n - 1);
      MoveOk(sla, trace[n - 1], MoveAt(sla, trace, n - 1));
    } else {
      assert Sum(trace[0].sweeps, CountOf) == 0;
    }
  }

  // ------------------------------------------------------------------ what holds in every run

  /** Once an incident is assigned, its flag tells exactly whether the assignment missed the deadline. */
  lemma FlagTellsLateness(sla: Time, trace: seq<Watch>, n: nat, k: string)
    requires IsRun(sla, trace) && n < |trace| && k in trace[n].db.incidents
    requires trace[n].db.incidents[k].status != Incidents.Reported
    ensures var i := trace[n].db.incidents[k]; i.breached <==> i.assignedAt - i.reportedAt > sla
  {
    RunOk(sla, trace, n);
    assert FlagTells(sla, trace[n].db.incidents[k]);
  }

  /**
   The monitors' counter and the counts of the sweeps under way add up to the number of
   different incidents that monitors have flagged, whatever the clock does.
   */
  lemma EachFlagCountedOnce(sla: Time, trace: seq<Watch>, n: nat)
    requires IsRun(sla, trace) && n < |trace|
    ensures trace[n].total + Sum(trace[n].sweeps, CountOf) == |trace[n].marked|
    ensures trace[n].total <= |trace[n].db.incidents|
  {
    RunOk(sla, trace, n);
    SumNonNegative(trace[n].sweeps, CountOf);
    SubsetSize(trace[n].marked, trace[n].db.incidents.Keys);
  }

  lemma {:induction false} SubsetSize(a: set<string>, b: set<string>)
    requires a <= b
    ensures |a| <= |b|
    decreases a
  {
    if a != {} {
      var x :| x in a;
      SubsetSize(a - {x}, b - {x});
    }
  }

  /** A sweep that is through leaves nothing behind: what its list showed and is still unassigned and late is flagged. */
  lemma SweepLeavesNone(sla: Time, trace: seq<Watch>, n: nat, w: nat, i: Incidents.Incident)
    requires IsRun(sla, trace) && n < |trace| && Can(sla, trace[n], Finish(w)) && i in trace[n].sweeps[w].list
    ensures i.id in trace[n].db.incidents
    ensures var i' := trace[n].db.incidents[i.id];
            i'.status == Incidents.Reported && trace[n].sweeps[w].now - i'.reportedAt > sla ==> i'.breached
  {
    RunOk(sla, trace, n);
    assert SweepOk(sla, trace[n].db, trace[n].sweeps[w]);
  }

  // ------------------------------------------------------------------ a monitor alone

  /** One sweep goes on with nobody else at work. */
  ghost predicate Alone(sla: Time, vs: seq<Watch>, w: nat) {
    vs != [] && forall i :: 0 <= i < |vs| - 1 ==> VisitsNext(sla, vs[i], vs[i + 1], w)
  }

  ghost predicate VisitsNext(sla: Time, s: Watch, s': Watch, w: nat) {
    Can(sla, s, Visit(w)) && Do(sla, s, Visit(w)) == s'
  }

  /** The monitor has visited the first `n` of its list, and nobody else has been at work since `db`. */
  ghost predicate SweptTo(sla: Time, db: Db, s: Watch, w: nat, now: Time, list: seq<Incidents.Incident>, n: nat)
    requires n <= |list|
  {
    && Swept(db, s.db, DueAmong(list[..n], sla, now))
    && w in s.sweeps && s.sweeps[w] == Walking(now, list, n, |DueAmong(list[..n], sla, now)|)
  }

  /** A monitor alone turns the store into what one call of `FlagSlaBreaches` makes of it, with the same count. */
  lemma {:induction false} SweepAlone(sla: Time, s: Watch, w: nat, now: Time, list: seq<Incidents.Incident>, n: nat)
    returns (vs: seq<Watch>)
    requires IsOpenList(s.db, list) && n <= |list|
    requires w in s.sweeps && s.sweeps[w] == Walking(now, list, 0, 0)
    ensures Alone(sla, vs, w) && |vs| == n + 1 && vs[0] == s && SweptTo(sla, s.db, vs[n], w, now, list, n)
  {
    if n == 0 {
      vs := [s];
      NothingSwept(sla, s, w, now, list);
    } else {
      var front := SweepAlone(sla, s, w, now, list, n - 1);
      var next := Do(sla, front[n - 1], Visit(w));
      VisitAlone(sla, s.db, front[n - 1], w, now, list, n - 1);
      vs := front + [next];
      AloneOneMore(sla, front, next, w);
    }
  }

  lemma AloneOneMore(sla: Time, vs: seq<Watch>, next: Watch, w: nat)
    requires Alone(sla, vs, w) && VisitsNext(sla, vs[|vs| - 1], next, w)
    ensures Alone(sla, vs + [next], w)
  {
    var longer := vs + [next];
    forall i | 0 <= i < |longer| - 1 ensures VisitsNext(sla, longer[i], longer[i + 1], w) {
      assert i < |vs| - 1 ==> VisitsNext(sla, vs[i], vs[i + 1], w);
    }
  }

  lemma NothingSwept(sla: Time, s: Watch, w: nat, now: Time, list: seq<Incidents.Incident>)
    requires w in s.sweeps && s.sweeps[w] == Walking(now, list, 0, 0)
    ensures SweptTo(sla, s.db, s, w, now, list, 0)
  {
    assert DueAmong(list[..0], sla, now) == {};
    assert Marked(s.db.incidents, {}) == s.db.incidents;
  }

  lemma VisitAlone(sla: Time, db: Db, s: Watch, w: nat, now: Time, list: seq<Incidents.Incident>, n: nat)
    requires IsOpenList(db, list) && n < |list| && SweptTo(sla, db, s, w, now, list, n)
    ensures Can(sla, s, Visit(w)) && SweptTo(sla, db, Do(sla, s, Visit(w)), w, now, list, n + 1)
  {
    VisitSweeps(sla, db, s.db, list, n, now);
  }

  /** One visit is one round of the monitor's loop. */
  lemma VisitSweeps(sla: Time, db: Db, db1: Db, list: seq<Incidents.Incident>, n: nat, now: Time)
    requires IsOpenList(db, list) && n < |list| && Swept(db, db1, DueAmong(list[..n], sla, now))
    ensures Swept(db, Visited(sla, db1, now, list[n]), DueAmong(list[..n + 1], sla, now))
    ensures |DueAmong(list[..n + 1], sla, now)|
            == |DueAmong(list[..n], sla, now)| + (if Fires(sla, db1, now, list[n]) then 1 else 0)
  {
    SweepStep(db, db1, list, n, sla, now);
  }

  // ------------------------------------------------------------------ the clock

  /** A step takes a flag back exactly when it assigns the incident at a reading that is not late. */
  lemma FlagClearedIff(sla: Time, s: Watch, m: Move, k: string)
    requires Inv(sla, s) && Can(sla, s, m) && k in s.db.incidents && s.db.incidents[k].breached
    ensures k in Do(sla, s, m).db.incidents
    ensures !Do(sla, s, m).db.incidents[k].breached
            <==> && m.Mutate? && m.id == k && m.use.Assigning? && m.use.handler != ""
                 && s.db.incidents[k].status == Incidents.Reported
                 && s.clock - s.db.incidents[k].reportedAt <= sla
  {
    MoveOk(sla, s, m);
    match m
    case Visit(w) =>
      var v := s.sweeps[w];
      assert SweepOk(sla, s.db, v);
      VisitedKeepsFlag(sla, s.db, v.now, v.list[v.at], k);
    case Mutate(id, use) => MutateClearsIff(sla, s.db, id, use, s.clock, k);
    case _ =>
  }

  lemma VisitedKeepsFlag(sla: Time, db: Db, now: Time, i: Incidents.Incident, k: string)
    requires Indexed(db) && k in db.incidents && db.incidents[k].breached
    ensures k in Visited(sla, db, now, i).incidents && Visited(sla, db, now, i).incidents[k].breached
  {
  }

  lemma MutateClearsIff(sla: Time, db: Db, id: string, use: IncidentUse, now: Time, k: string)
    requires Indexed(db) && k in db.incidents && db.incidents[k].breached && (use.Assigning? ==> use.sla == sla) && !use.Flagging?
    ensures k in OrElse(IncidentMutated(db, id, use, now), db).incidents
    ensures !OrElse(IncidentMutated(db, id, use, now), db).incidents[k].breached
            <==> && id == k && use.Assigning? && use.handler != "" && db.incidents[k].status == Incidents.Reported
                 && now - db.incidents[k].reportedAt <= sla
  {
  }

  ghost predicate Forward(trace: seq<Watch>) {
    forall i :: 0 <= i < |trace| - 1 ==> trace[i].clock <= trace[i + 1].clock
  }

  /** While the clock has not gone back: readings lie in the past, and a flag before assignment means late. */
  ghost predicate Timely(sla: Time, s: Watch) {
    && (forall w :: w in s.sweeps ==> s.sweeps[w].now <= s.clock)
    && (forall k :: k in s.db.incidents ==> OverdueIfFlagged(sla, s.db.incidents[k], s.clock))
  }

  ghost predicate OverdueIfFlagged(sla: Time, i: Incidents.Incident, now: Time) {
    i.status == Incidents.Reported && i.breached ==> now - i.reportedAt > sla
  }

  lemma MoveTimely(sla: Time, s: Watch, m: Move)
    requires Inv(sla, s) && Timely(sla, s) && Can(sla, s, m) && s.clock <= Do(sla, s, m).clock
    ensures Timely(sla, Do(sla, s, m))
  {
    match m
    case Visit(w) => VisitTimely(sla, s, w);
    case Mutate(id, use) => MutateTimely(sla, s, id, use);
    case Report(i) => ReportTimely(sla, s, i);
    case _ =>
      forall k | k in Do(sla, s, m).db.incidents
        ensures OverdueIfFlagged(sla, Do(sla, s, m).db.incidents[k], Do(sla, s, m).clock)
      {
        assert OverdueIfFlagged(sla, s.db.incidents[k], s.clock);
      }
  }

  lemma VisitTimely(sla: Time, s: Watch, w: nat)
    requires Inv(sla, s) && Timely(sla, s) && Can(sla, s, Visit(w))
    ensures Timely(sla, Do(sla, s, Visit(w)))
  {
    var v := s.sweeps[w];
    var i := v.list[v.at];
    assert SweepOk(sla, s.db, v);
    var db' := Visited(sla, s.db, v.now, i);
    forall k | k in db'.incidents ensures OverdueIfFlagged(sla, db'.incidents[k], s.clock) {
      assert k in s.db.incidents;
      assert OverdueIfFlagged(sla, s.db.incidents[k], s.clock);
    }
  }

  lemma MutateTimely(sla: Time, s: Watch, id: string, use: IncidentUse)
    requires Inv(sla, s) && Timely(sla, s) && Can(sla, s, Mutate(id, use))
    ensures Timely(sla, Do(sla, s, Mutate(id, use)))
  {
    var db' := Do(sla, s, Mutate(id, use)).db;
    forall k | k in db'.incidents ensures OverdueIfFlagged(sla, db'.incidents[k], s.clock) {
      assert k in s.db.incidents;
      assert OverdueIfFlagged(sla, s.db.incidents[k], s.clock);
    }
  }

  lemma ReportTimely(sla: Time, s: Watch, i: Incidents.Incident)
    requires Timely(sla, s) && Can(sla, s, Report(i))
    ensures Timely(sla, Do(sla, s, Report(i)))
  {
    var db' := Do(sla, s, Report(i)).db;
    forall k | k in db'.incidents ensures OverdueIfFlagged(sla, db'.incidents[k], s.clock) {
      assert k in s.db.incidents ==> OverdueIfFlagged(sla, s.db.incidents[k], s.clock);
    }
  }

  lemma {:induction false} RunTimely(sla: Time, trace: seq<Watch>, n: nat)
    requires IsRun(sla, trace) && Forward(trace) && n < |trace|
    ensures Timely(sla, trace[n])
  {
    if n > 0 {
      RunTimely(sla, trace, n - 1);
      RunOk(sla, trace, n - 1);
      assert trace[n - 1].clock <= trace[n].clock;
      MoveTimely(sla, trace[n - 1], MoveAt(sla, trace, n - 1));
    }
  }

  /** With a clock that never goes back, a flag once set is never cleared. */
  lemma {:induction false} FlagStays(sla: Time, trace: seq<Watch>, m: nat, n: nat, k: string)
    requires IsRun(sla, trace) && Forward(trace) && m <= n < |trace|
    requires k in trace[m].db.incidents && trace[m].db.incidents[k].breached
    ensures k in trace[n].db.incidents && trace[n].db.incidents[k].breached
  {
    if m < n {
      FlagStays(sla, trace, m, n - 1, k);
      RunOk(sla, trace, n - 1);
      RunTimely(sla, trace, n - 1);
      assert OverdueIfFlagged(sla, trace[n - 1].db.incidents[k], trace[n - 1].clock);
      FlagClearedIff(sla, trace[n - 1], MoveAt(sla, trace, n - 1), k);
    }
  }

  /** With such a clock a flag before assignment means that the deadline has passed. */
  lemma FlagMeansOverdue(sla: Time, trace: seq<Watch>, n: nat, k: string)
    requires IsRun(sla, trace) && Forward(trace) && n < |trace| && k in trace[n].db.incidents
    requires trace[n].db.incidents[k].status == Incidents.Reported && trace[n].db.incidents[k].breached
    ensures trace[n].clock - trace[n].db.incidents[k].reportedAt > sla
  {
    RunTimely(sla, trace, n);
    assert OverdueIfFlagged(sla, trace[n].db.incidents[k], trace[n].clock);
  }
}
