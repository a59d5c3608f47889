/**
 What a replay of work that was done already does to the store: a second application of one
 record, and a track that is written over.
 */
module ReplayAgain {
  import opened Common
  import opened Database
  import opened Calls
  import opened Replay
  import opened ReplayEffects
  import opened ReplayCounts
  import Incidents

  /** Incidents, issue index and tracks: what replays are for. */
  ghost predicate SameEffects(db: Db, db': Db) {
    db'.incidents == db.incidents && db'.incidentByIssue == db.incidentByIssue && db'.tracks == db.tracks
  }

  // ------------------------------------------------------------------ what one step does

  lemma PassKeepsEffects(sh: Shared, rest: seq<string>, draw: Draw)
    ensures SameEffects(sh.db, PassStep(sh, rest, draw).sh.db)
  {
  }

  lemma CallKeepsEffects(cfg: Config, v: View, list: seq<OfflineRecord>, draw: Draw)
    requires v.task.Lookup? || v.task.CheckOrder? || v.task.ReadOrder? || v.task.ReadGrid?
    ensures SameEffects(v.sh.db, Stepped(cfg, v, list, draw).sh.db)
  {
  }

  /** Only the put of an incident and the save of a track write there. */
  lemma StepEffects(cfg: Config, v: View, list: seq<OfflineRecord>, draw: Draw)
    ensures v.task.Put? ==> SameEffects(IncidentPut(v.sh.db, v.task.incident, draw.now), Stepped(cfg, v, list, draw).sh.db)
    ensures v.task.Save? ==> SameEffects(TrackSaved(v.sh.db, v.task.saved), Stepped(cfg, v, list, draw).sh.db)
    ensures !v.task.Put? && !v.task.Save? ==> SameEffects(v.sh.db, Stepped(cfg, v, list, draw).sh.db)
  {
    match v.task
    case Pass(rest) => PassKeepsEffects(v.sh, rest, draw);
    case Lookup(_, _, _) => CallKeepsEffects(cfg, v, list, draw);
    case CheckOrder(_, _, _) => CallKeepsEffects(cfg, v, list, draw);
    case ReadOrder(_, _) => CallKeepsEffects(cfg, v, list, draw);
    case ReadGrid(_, _, _) => CallKeepsEffects(cfg, v, list, draw);
    case _ =>
  }

  // ------------------------------------------------------------------ the track of an order

  /** A worker saves a track for the order that is not the one stored. */
  predicate WritesOver(s: State, a: Action, order: string) {
    && a.Step? && a.w in s.tasks && s.tasks[a.w].Save?
    && order in {s.tasks[a.w].saved.workOrderId}
    && (order in s.sh.db.tracks ==> s.tasks[a.w].saved != s.sh.db.tracks[order])
  }

  lemma TrackStaysIff(cfg: Config, s: State, a: Action, order: string)
    requires Can(s, a) && order in s.sh.db.tracks
    ensures order in Do(cfg, s, a).sh.db.tracks
    ensures Do(cfg, s, a).sh.db.tracks[order] == s.sh.db.tracks[order] <==> !WritesOver(s, a, order)
  {
    if a.Step? {
      StepTrackStaysIff(cfg, View(s.sh, s.tasks[a.w]), a.list, a.draw, order);
    } else {
      OthersKeepThese(cfg, s, a);
    }
  }

  lemma StepTrackStaysIff(cfg: Config, v: View, list: seq<OfflineRecord>, draw: Draw, order: string)
    requires order in v.sh.db.tracks
    ensures order in Stepped(cfg, v, list, draw).sh.db.tracks
    ensures Stepped(cfg, v, list, draw).sh.db.tracks[order] != v.sh.db.tracks[order]
            <==> v.task.Save? && order in {v.task.saved.workOrderId} && v.task.saved != v.sh.db.tracks[order]
  {
    StepEffects(cfg, v, list, draw);
    if v.task.Save? {
      SavedOverIff(v.sh.db, v.task.saved, order);
    }
  }

  lemma SavedOverIff(db: Db, t: Track, order: string)
    requires order in db.tracks
    ensures order in TrackSaved(db, t).tracks
    ensures TrackSaved(db, t).tracks[order] != db.tracks[order] <==> order in {t.workOrderId} && t != db.tracks[order]
  {
  }

  lemma OthersKeepThese(cfg: Config, s: State, a: Action)
    requires Can(s, a) && !a.Step?
    ensures Do(cfg, s, a).sh.db.tracks == s.sh.db.tracks && Do(cfg, s, a).sh.applied == s.sh.applied
  {
    match a
    case Enqueue(localId, payload, createdAt, now) =>
      assert Enqueued(s.sh.db, NewRecord(localId, payload, createdAt), now).tracks == s.sh.db.tracks;
    case _ =>
  }

  ghost predicate WritesOverAt(cfg: Config, trace: seq<State>, i: nat, order: string)
    requires IsRun(cfg, trace) && i + 1 < |trace|
  {
    WritesOver(trace[i], ActionAt(cfg, trace, i), order)
  }

  ghost predicate SameTrack(s: State, s': State, order: string) {
    order in s.sh.db.tracks && order in s'.sh.db.tracks && s'.sh.db.tracks[order] == s.sh.db.tracks[order]
  }

  /** Over a stretch of a run the track of an order stays exactly when no worker writes another one for it. */
  lemma TrackStaysOverIff(cfg: Config, trace: seq<State>, m: nat, n: nat, order: string)
    requires IsRun(cfg, trace) && m <= n < |trace| && order in trace[m].sh.db.tracks
    ensures (forall i :: m <= i <= n ==> SameTrack(trace[m], trace[i], order))
            <==> (forall i :: m <= i < n ==> !WritesOverAt(cfg, trace, i, order))
  {
    if forall i :: m <= i <= n ==> SameTrack(trace[m], trace[i], order) {
      forall i | m <= i < n ensures !WritesOverAt(cfg, trace, i, order) {
        assert SameTrack(trace[m], trace[i], order) && SameTrack(trace[m], trace[i + 1], order);
        TrackStaysAt(cfg, trace, i, order);
      }
    }
    if forall i :: m <= i < n ==> !WritesOverAt(cfg, trace, i, order) {
      forall i | m <= i <= n ensures SameTrack(trace[m], trace[i], order) {
        TrackStaysUpTo(cfg, trace, m, i, order);
      }
    }
  }

  lemma {:induction false} TrackStaysUpTo(cfg: Config, trace: seq<State>, m: nat, n: nat, order: string)
    requires IsRun(cfg, trace) && m <= n < |trace| && order in trace[m].sh.db.tracks
    requires forall i :: m <= i < n ==> !WritesOverAt(cfg, trace, i, order)
    ensures SameTrack(trace[m], trace[n], order)
  {
    if m < n {
      TrackStaysUpTo(cfg, trace, m, n - 1, order);
      TrackStaysAt(cfg, trace, n - 1, order);
    }
  }

  lemma TrackStaysAt(cfg: Config, trace: seq<State>, i: nat, order: string)
    requires IsRun(cfg, trace) && i + 1 < |trace| && order in trace[i].sh.db.tracks
    ensures SameTrack(trace[i], trace[i + 1], order) <==> !WritesOverAt(cfg, trace, i, order)
  {
    TrackStaysIff(cfg, trace[i], ActionAt(cfg, trace, i), order);
  }

  // ------------------------------------------------------------------ applying a record again

  /** A worker is inside the call that applies the record. */
  ghost predicate Applies(t: Task, k: string) {
    InCall(t) && WorksOn(t, k)
  }

  predicate FilesAgain(s: State, t: Task) {
    t.Put? && t.incident.issueId !in s.sh.db.incidentByIssue
  }

  predicate SavesAnother(s: State, t: Task) {
    t.Save? && (t.saved.workOrderId in s.sh.db.tracks ==> t.saved != s.sh.db.tracks[t.saved.workOrderId])
  }

  /**
   A record has been applied before. A step of a worker that applies it again changes incidents,
   index or tracks exactly when it files an incident under an issue not yet filed, which takes a
   report without issue id, or saves a track other than the one stored.
   */
  lemma AgainChangesIff(cfg: Config, s: State, a: Action, k: string, receipt: string)
    requires Inv(s) && Can(s, a) && a.Step? && Applies(s.tasks[a.w], k) && (k, receipt) in s.sh.applied
    ensures k in s.sh.db.offline
    ensures !SameEffects(s.sh.db, Do(cfg, s, a).sh.db) <==> FilesAgain(s, s.tasks[a.w]) || SavesAnother(s, s.tasks[a.w])
    ensures FilesAgain(s, s.tasks[a.w]) ==> !Keyed(s.sh.db.offline[k].payload)
    ensures s.tasks[a.w].Save? ==> s.sh.db.offline[k].payload.TrackReport? && s.tasks[a.w].saved.workOrderId in s.sh.db.tracks
  {
    var t := s.tasks[a.w];
    assert TaskOk(s.sh.db, t) && PutFresh(s.sh, t);
    assert Effect(s.sh.db, s.sh.db.offline[k].payload, k, receipt);
    StepEffects(cfg, View(s.sh, t), a.list, a.draw);
    if t.Put? {
      PutChangesIff(s.sh.db, t.incident, a.draw.now);
    } else if t.Save? {
      SaveChangesIff(s.sh.db, t.saved);
    }
  }

  lemma PutChangesIff(db: Db, i: Incidents.Incident, now: Time)
    requires i.id !in db.incidents && i.issueId != ""
    ensures SameEffects(db, IncidentPut(db, i, now)) <==> i.issueId in db.incidentByIssue
  {
    if i.issueId !in db.incidentByIssue {
      assert i.id in IncidentPut(db, i, now).incidents;
    }
  }

  lemma SaveChangesIff(db: Db, t: Track)
    ensures SameEffects(db, TrackSaved(db, t)) <==> t.workOrderId in db.tracks && db.tracks[t.workOrderId] == t
  {
    if t.workOrderId in db.tracks && db.tracks[t.workOrderId] == t {
      assert db.tracks[t.workOrderId := t] == db.tracks;
    } else {
      assert TrackSaved(db, t).tracks[t.workOrderId] == t;
    }
  }

  lemma {:induction false} AppliedStays(cfg: Config, trace: seq<State>, m: nat, n: nat, p: (string, string))
    requires IsRun(cfg, trace) && m <= n < |trace| && p in trace[m].sh.applied
    ensures p in trace[n].sh.applied
  {
    if m < n {
      AppliedStays(cfg, trace, m, n - 1, p);
      ActionKeepsApplied(cfg, trace[n - 1], ActionAt(cfg, trace, n - 1), p);
    }
  }

  lemma ActionKeepsApplied(cfg: Config, s: State, a: Action, p: (string, string))
    requires Can(s, a) && p in s.sh.applied
    ensures p in Do(cfg, s, a).sh.applied
  {
    if a.Step? {
      StepKeepsApplied(cfg, View(s.sh, s.tasks[a.w]), a.list, a.draw);
    } else {
      OthersKeepThese(cfg, s, a);
    }
  }

  lemma StepKeepsApplied(cfg: Config, v: View, list: seq<OfflineRecord>, draw: Draw)
    ensures v.sh.applied <= Stepped(cfg, v, list, draw).sh.applied
  {
    match v.task
    case Pass(rest) => PassKeepsApplied(v.sh, rest, draw);
    case _ =>
  }

  lemma PassKeepsApplied(sh: Shared, rest: seq<string>, draw: Draw)
    ensures sh.applied <= PassStep(sh, rest, draw).sh.applied
  {
  }

  /** Once applied, a report with an issue id or a patrol note is done: no later application by anybody changes anything. */
  lemma AppliedOnce(cfg: Config, trace: seq<State>, m: nat, n: nat, k: string, receipt: string)
    requires IsRun(cfg, trace) && m <= n && n + 1 < |trace| && (k, receipt) in trace[m].sh.applied
    requires k in trace[n].sh.db.offline && Keyed(trace[n].sh.db.offline[k].payload)
    requires !trace[n].sh.db.offline[k].payload.TrackReport?
    requires var a := ActionAt(cfg, trace, n); a.Step? && Applies(trace[n].tasks[a.w], k)
    ensures SameEffects(trace[n].sh.db, trace[n + 1].sh.db)
  {
    RunOk(cfg, trace, n);
    AppliedStays(cfg, trace, m, n, (k, receipt));
    AgainChangesIff(cfg, trace[n], ActionAt(cfg, trace, n), k, receipt);
  }
}
