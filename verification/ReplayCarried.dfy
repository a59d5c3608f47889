/** What a worker carries from step to step is what it was asked for: the incident it puts, the track it saves. */
module ReplayCarried {
  import opened Common
  import opened Database
  import opened Calls
  import opened Replay
  import opened ReplayEffects
  import Incidents
  import Tracks

  // ------------------------------------------------------------------ one action

  /** A worker that has checked the order of `req` holds a new incident of the request. */
  ghost predicate Files(sh: Shared, req: IncidentRequest, issue: string, draw: Draw, i: Incidents.Incident) {
    && req.workOrderId in sh.db.orders
    && i.id == draw.id && i.workOrderId == req.workOrderId && i.kind == req.kind && i.reporter == req.reporter && i.issueId == issue
    && i.status == Incidents.Reported && i.handler == "" && !i.breached
    && i.reportedAt == draw.now && i.assignedAt == i.closedAt == ZERO_TIME
  }

  /** A worker that has read the grid of `t` holds the track of the request, judged by the route that it read. */
  ghost predicate Judges(cfg: Config, sh: Shared, o: Origin, t: TrackRequest, gridId: string, draw: Draw, s: Track) {
    && gridId in sh.db.grids
    && s.workOrderId == t.workOrderId && s.points == t.points && s.submittedAt == draw.now && s.offline == o.Replaying?
    && var route := sh.db.grids[gridId].route;
    && (s.deviation <==>
          && route != []
          && (cfg.threshold < 0.0 || Tracks.SomeStrays(cfg.geometry, t.points, route, Tracks.Squared(cfg.threshold))))
    && (if route == [] then s.maxDeviation == 0.0 else Tracks.IsMaxSquare(cfg.geometry, t.points, route, s.maxDeviation))
  }

  lemma CheckOrderFiles(sh: Shared, o: Origin, req: IncidentRequest, issue: string, draw: Draw)
    ensures var v := CheckOrderStep(sh, o, req, issue, draw);
            v.task.Put? ==> v.task.origin == o && Files(sh, req, issue, draw, v.task.incident)
  {
  }

  lemma ReadGridJudges(cfg: Config, sh: Shared, o: Origin, t: TrackRequest, gridId: string, draw: Draw)
    requires cfg.geometry.Valid()
    ensures var v := ReadGridStep(cfg, sh, o, t, gridId, draw);
            v.task.Save? ==> v.task.origin == o && Judges(cfg, sh, o, t, gridId, draw, v.task.saved)
  {
    if gridId in sh.db.grids {
      NewTrackTells(cfg, t, sh.db.grids[gridId].route, o.Replaying?, draw.now);
    }
  }

  ghost predicate FiledBy(s: State, a: Action, w: nat, t: Task)
    requires t.Put?
  {
    && a.Step? && a.w == w && w in s.tasks && s.tasks[w].CheckOrder? && s.tasks[w].origin == t.origin
    && Files(s.sh, s.tasks[w].req, s.tasks[w].issue, a.draw, t.incident)
  }

  ghost predicate JudgedBy(cfg: Config, s: State, a: Action, w: nat, t: Task)
    requires t.Save?
  {
    && a.Step? && a.w == w && w in s.tasks && s.tasks[w].ReadGrid? && s.tasks[w].origin == t.origin
    && Judges(cfg, s.sh, t.origin, s.tasks[w].track, s.tasks[w].gridId, a.draw, t.saved)
  }

  /** A worker comes to put an incident by checking the order of the report, and in no other way. */
  lemma PutBegins(cfg: Config, s: State, a: Action, w: nat)
    requires Can(s, a) && w in Do(cfg, s, a).tasks && Do(cfg, s, a).tasks[w].Put?
    ensures (w in s.tasks && s.tasks[w] == Do(cfg, s, a).tasks[w]) || FiledBy(s, a, w, Do(cfg, s, a).tasks[w])
  {
    if a.Step? && a.w == w {
      PutMovesOn(cfg, View(s.sh, s.tasks[w]), a.list, a.draw);
      CheckOrderFiles(s.sh, s.tasks[w].origin, s.tasks[w].req, s.tasks[w].issue, a.draw);
    }
  }

  lemma SaveMovesOn(cfg: Config, v: View, list: seq<OfflineRecord>, draw: Draw)
    requires Stepped(cfg, v, list, draw).task.Save?
    ensures v.task.ReadGrid?
  {
  }

  lemma SaveBegins(cfg: Config, s: State, a: Action, w: nat)
    requires cfg.geometry.Valid() && Can(s, a) && w in Do(cfg, s, a).tasks && Do(cfg, s, a).tasks[w].Save?
    ensures (w in s.tasks && s.tasks[w] == Do(cfg, s, a).tasks[w]) || JudgedBy(cfg, s, a, w, Do(cfg, s, a).tasks[w])
  {
    if a.Step? && a.w == w {
      SaveMovesOn(cfg, View(s.sh, s.tasks[w]), a.list, a.draw);
      ReadGridJudges(cfg, s.sh, s.tasks[w].origin, s.tasks[w].track, s.tasks[w].gridId, a.draw);
    }
  }

  // ------------------------------------------------------------------ whole runs

  ghost predicate HoldsSince(trace: seq<State>, m: nat, n: nat, w: nat, t: Task) {
    n < |trace| && forall j :: m < j <= n ==> w in trace[j].tasks && trace[j].tasks[w] == t
  }

  /** In every run: a worker that is about to put an incident has held it since it checked the order of the report it was made from. */
  lemma {:induction false} PutIsTheReport(cfg: Config, trace: seq<State>, n: nat, w: nat) returns (m: nat)
    requires IsRun(cfg, trace) && n < |trace| && w in trace[n].tasks && trace[n].tasks[w].Put?
    ensures m < n && HoldsSince(trace, m, n, w, trace[n].tasks[w])
    ensures FiledBy(trace[m], ActionAt(cfg, trace, m), w, trace[n].tasks[w])
  {
    if n == 0 {
      assert false;
    } else {
      PutBegins(cfg, trace[n - 1], ActionAt(cfg, trace, n - 1), w);
      if w in trace[n - 1].tasks && trace[n - 1].tasks[w] == trace[n].tasks[w] {
        m := PutIsTheReport(cfg, trace, n - 1, w);
      } else {
        m := n - 1;
      }
    }
  }

  /** And a worker that is about to save a track has held it since it read the grid by whose route the track was judged. */
  lemma {:induction false} SaveIsTheTrack(cfg: Config, trace: seq<State>, n: nat, w: nat) returns (m: nat)
    requires cfg.geometry.Valid() && IsRun(cfg, trace) && n < |trace| && w in trace[n].tasks && trace[n].tasks[w].Save?
    ensures m < n && HoldsSince(trace, m, n, w, trace[n].tasks[w])
    ensures JudgedBy(cfg, trace[m], ActionAt(cfg, trace, m), w, trace[n].tasks[w])
  {
    if n == 0 {
      assert false;
    } else {
      SaveBegins(cfg, trace[n - 1], ActionAt(cfg, trace, n - 1), w);
      if w in trace[n - 1].tasks && trace[n - 1].tasks[w] == trace[n].tasks[w] {
        m := SaveIsTheTrack(cfg, trace, n - 1, w);
      } else {
        m := n - 1;
      }
    }
  }

  // ------------------------------------------------------------------ the record behind it

  /** What a worker that replays a record is at comes from the payload of the record. */
  ghost predicate FromPayload(db: Db, t: Task) {
    match t
    case Lookup(Replaying(k, _), req, issue) => Asks(db, k, IncidentReport(Some(req))) && (req.issueId != "" ==> issue == req.issueId)
    case CheckOrder(Replaying(k, _), req, issue) => Asks(db, k, IncidentReport(Some(req))) && (req.issueId != "" ==> issue == req.issueId)
    case ReadOrder(Replaying(k, _), t) => Asks(db, k, TrackReport(Some(t)))
    case ReadGrid(Replaying(k, _), t, _) => Asks(db, k, TrackReport(Some(t)))
    case _ => true
  }

  ghost predicate Asks(db: Db, k: string, p: Payload) {
    k in db.offline && db.offline[k].payload == p
  }

  lemma FromPayloadGrows(db: Db, db': Db, t: Task)
    requires Grows(db, db') && FromPayload(db, t)
    ensures FromPayload(db', t)
  {
  }

  lemma UnpackedFromPayload(sh: Shared, k: string, rest: seq<string>, drawnIssue: string)
    requires k in sh.db.offline && sh.db.offline[k].localId == k
    ensures FromPayload(sh.db, Unpacked(sh, sh.db.offline[k], rest, drawnIssue).task)
  {
  }

  lemma PassStepFromPayload(sh: Shared, rest: seq<string>, draw: Draw)
    requires DbOk(sh.db)
    ensures FromPayload(sh.db, PassStep(sh, rest, draw).task)
  {
    if rest != [] && CanSync(sh.db, rest[0]) {
      assert RecordOk(sh.db, rest[0], sh.db.offline[rest[0]]);
      UnpackedFromPayload(sh.(db := MarkedSyncing(sh.db, rest[0])), rest[0], rest[1..], draw.issue);
    }
  }

  lemma StepFromPayload(cfg: Config, v: View, list: seq<OfflineRecord>, draw: Draw)
    requires DbOk(v.sh.db) && FromPayload(v.sh.db, v.task)
    ensures FromPayload(v.sh.db, Stepped(cfg, v, list, draw).task)
  {
    match v.task
    case Pass(rest) => PassStepFromPayload(v.sh, rest, draw);
    case _ =>
  }

  ghost predicate AllFromPayload(s: State) {
    forall w :: w in s.tasks ==> FromPayload(s.sh.db, s.tasks[w])
  }

  lemma ActionFromPayload(cfg: Config, s: State, a: Action)
    requires Inv(s) && AllFromPayload(s) && Can(s, a)
    ensures AllFromPayload(Do(cfg, s, a))
  {
    var s' := Do(cfg, s, a);
    ActionOk(cfg, s, a);
    forall w | w in s'.tasks ensures FromPayload(s'.sh.db, s'.tasks[w]) {
      if w in s.tasks {
        FromPayloadGrows(s.sh.db, s'.sh.db, s.tasks[w]);
      }
      if a.Step? && a.w == w {
        StepFromPayload(cfg, View(s.sh, s.tasks[w]), a.list, a.draw);
        FromPayloadGrows(s.sh.db, s'.sh.db, s'.tasks[w]);
      }
    }
  }

  /** In every run a replaying worker acts on the request in the payload of its record. */
  lemma {:induction false} RunFromPayload(cfg: Config, trace: seq<State>, n: nat)
    requires IsRun(cfg, trace) && n < |trace|
    ensures AllFromPayload(trace[n])
  {
    if n > 0 {
      RunFromPayload(cfg, trace, n - 1);
      RunOk(cfg, trace, n - 1);
      ActionFromPayload(cfg, trace[n - 1], ActionAt(cfg, trace, n - 1));
    }
  }

  /** So what it puts or saves carries what the record asks for. */
  lemma CarriesThePayload(cfg: Config, trace: seq<State>, n: nat, w: nat)
    requires cfg.geometry.Valid() && IsRun(cfg, trace) && n < |trace| && w in trace[n].tasks
    ensures trace[n].tasks[w].Put? && trace[n].tasks[w].origin.Replaying? ==>
              var k, i := trace[n].tasks[w].origin.localId, trace[n].tasks[w].incident;
              && k in trace[n].sh.db.offline && trace[n].sh.db.offline[k].payload.IncidentReport?
              && trace[n].sh.db.offline[k].payload.incident.Some?
              && var req := trace[n].sh.db.offline[k].payload.incident.value;
              && i.workOrderId == req.workOrderId && i.kind == req.kind && i.reporter == req.reporter
              && (req.issueId != "" ==> i.issueId == req.issueId)
              && i.status == Incidents.Reported && i.handler == "" && !i.breached
    ensures trace[n].tasks[w].Save? && trace[n].tasks[w].origin.Replaying? ==>
              var k, s := trace[n].tasks[w].origin.localId, trace[n].tasks[w].saved;
              && k in trace[n].sh.db.offline && trace[n].sh.db.offline[k].payload.TrackReport?
              && trace[n].sh.db.offline[k].payload.track.Some?
              && var t := trace[n].sh.db.offline[k].payload.track.value;
              && s.workOrderId == t.workOrderId && s.points == t.points && s.offline
  {
    if trace[n].tasks[w].Put? {
      var m := PutIsTheReport(cfg, trace, n, w);
      RunFromPayload(cfg, trace, m);
      RunGrows(cfg, trace, m, n);
    }
    if trace[n].tasks[w].Save? {
      var m := SaveIsTheTrack(cfg, trace, n, w);
      RunFromPayload(cfg, trace, m);
      RunGrows(cfg, trace, m, n);
    }
  }

  // ------------------------------------------------------------------ what the write stores

  /** The write files the incident as it is held, exactly unless the issue has been filed meanwhile. */
  lemma PutStoresIff(cfg: Config, s: State, w: nat, list: seq<OfflineRecord>, draw: Draw)
    requires Inv(s) && Can(s, Step(w, list, draw)) && s.tasks[w].Put?
    ensures var i, db, db' := s.tasks[w].incident, s.sh.db, Do(cfg, s, Step(w, list, draw)).sh.db;
            db' == if i.issueId in db.incidentByIssue then db
                   else db.(incidents := db.incidents[
                              i.id := i.(reportedAt := if i.reportedAt == ZERO_TIME then draw.now else i.reportedAt)],
                            incidentByIssue := db.incidentByIssue[i.issueId := i.id])
  {
    assert TaskOk(s.sh.db, s.tasks[w]);
  }
}
