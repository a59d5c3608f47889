/**
 A run in which a replay undoes later work: a record was applied and synced, its order got a
 newer track, and a second worker with the same record puts the old track back.
 */
module ReplayOverwritten {
  import opened Common
  import opened WorkOrders
  import opened Database
  import opened Calls
  import opened Replay

  /** One track record whose order and grid are there. */
  ghost predicate Scene(s: State, k: string, t: TrackRequest, tasks: map<nat, Task>, status: OfflineStatus, tracks: map<string, Track>) {
    && s.online && s.tasks == tasks && s.sh.db.tracks == tracks
    && s.sh.db.offline.Keys == {k} && s.sh.db.offline[k].localId == k
    && s.sh.db.offline[k].payload == TrackReport(Some(t)) && s.sh.db.offline[k].status == status
    && t.workOrderId in s.sh.db.orders && s.sh.db.orders[t.workOrderId].gridId == "grid" && "grid" in s.sh.db.grids
  }

  predicate Submittable(t: TrackRequest) {
    t.workOrderId != "" && |t.points| >= 2
  }

  predicate IsTrackOf(saved: Track, t: TrackRequest, now: Time) {
    saved.workOrderId == t.workOrderId && saved.points == t.points && saved.submittedAt == now
  }

  lemma Start(cfg: Config, k: string, t: TrackRequest) returns (trace: seq<State>)
    ensures IsRun(cfg, trace) && Scene(Last(trace), k, t, map[0 := Idle, 1 := Idle, 2 := Idle], Pending, map[])
  {
    var w := Order(t.workOrderId, "grid", "", Draft, [], false, 0, 0, 1, 1);
    var grids := map["grid" := Grid("grid", General, [])];
    var db := Db(grids, map[], map[t.workOrderId := w], map[], map[], map[], map[], map[], map[], map[]);
    var s0 := State(true, map[], Shared(db, 0, 0, {}, 0, false, {}, {}));
    trace := [s0];
    trace := Extended(cfg, trace, Enqueue(k, TrackReport(Some(t)), 1, 1));
    trace := Extended(cfg, trace, Spawn(0));
    trace := Extended(cfg, trace, Spawn(1));
    trace := Extended(cfg, trace, Spawn(2));
  }

  lemma Lists(cfg: Config, trace: seq<State>, k: string, t: TrackRequest, tasks: map<nat, Task>, w: nat)
    returns (longer: seq<State>)
    requires IsRun(cfg, trace) && Scene(Last(trace), k, t, tasks, Pending, map[]) && w in tasks && tasks[w] == Idle
    ensures IsRun(cfg, longer) && Scene(Last(longer), k, t, tasks[w := Pass([k])], Pending, map[])
  {
    OnlyOneAwaits(Last(trace).sh.db, k);
    longer := Extended(cfg, trace, BeginPass(w));
    var sh := Last(longer).sh;
    longer := Extended(cfg, longer, Step(w, [sh.db.offline[k]], SomeDraw(sh)));
    var listing: map<nat, Task> := tasks[w := Snapshot];
    assert listing[w := Pass([k])] == tasks[w := Pass([k])];
  }

  /** A worker marks the record. */
  lemma Marks(cfg: Config, trace: seq<State>, k: string, t: TrackRequest, tasks: map<nat, Task>, status: OfflineStatus, w: nat)
    returns (longer: seq<State>)
    requires IsRun(cfg, trace) && Scene(Last(trace), k, t, tasks, status, map[]) && w in tasks && tasks[w] == Pass([k])
    requires status != Synced
    ensures IsRun(cfg, longer)
    ensures Scene(Last(longer), k, t, tasks[w := ReadOrder(Replaying(k, []), t)], Syncing, map[])
  {
    assert [k][1..] == [];
    longer := Extended(cfg, trace, Step(w, [], SomeDraw(Last(trace).sh)));
  }

  /** A worker reads the order of the track and then its grid. */
  lemma Reads(cfg: Config, trace: seq<State>, k: string, t: TrackRequest, tasks: map<nat, Task>, status: OfflineStatus,
              tracks: map<string, Track>, w: nat, o: Origin, t': TrackRequest, now: Time)
    returns (longer: seq<State>, saved: Track)
    requires IsRun(cfg, trace) && Scene(Last(trace), k, t, tasks, status, tracks)
    requires w in tasks && tasks[w] == ReadOrder(o, t') && Submittable(t') && t'.workOrderId == t.workOrderId
    ensures IsRun(cfg, longer) && IsTrackOf(saved, t', now)
    ensures Scene(Last(longer), k, t, tasks[w := Save(o, saved)], status, tracks)
  {
    var read := ReadsOrder(cfg, trace, k, t, tasks, status, tracks, w, o, t');
    var reading: map<nat, Task> := tasks[w := ReadGrid(o, t', "grid")];
    longer, saved := ReadsGrid(cfg, read, k, t, reading, status, tracks, w, o, t', now);
    assert reading[w := Save(o, saved)] == tasks[w := Save(o, saved)];
  }

  lemma ReadsOrder(cfg: Config, trace: seq<State>, k: string, t: TrackRequest, tasks: map<nat, Task>, status: OfflineStatus,
                   tracks: map<string, Track>, w: nat, o: Origin, t': TrackRequest)
    returns (longer: seq<State>)
    requires IsRun(cfg, trace) && Scene(Last(trace), k, t, tasks, status, tracks)
    requires w in tasks && tasks[w] == ReadOrder(o, t') && t'.workOrderId == t.workOrderId
    ensures IsRun(cfg, longer) && Scene(Last(longer), k, t, tasks[w := ReadGrid(o, t', "grid")], status, tracks)
  {
    longer := Extended(cfg, trace, Step(w, [], SomeDraw(Last(trace).sh)));
  }

  lemma ReadsGrid(cfg: Config, trace: seq<State>, k: string, t: TrackRequest, tasks: map<nat, Task>, status: OfflineStatus,
                  tracks: map<string, Track>, w: nat, o: Origin, t': TrackRequest, now: Time)
    returns (longer: seq<State>, saved: Track)
    requires IsRun(cfg, trace) && Scene(Last(trace), k, t, tasks, status, tracks)
    requires w in tasks && tasks[w] == ReadGrid(o, t', "grid") && Submittable(t')
    ensures IsRun(cfg, longer) && IsTrackOf(saved, t', now)
    ensures Scene(Last(longer), k, t, tasks[w := Save(o, saved)], status, tracks)
  {
    var d := SomeDraw(Last(trace).sh).(now := now);
    longer := Extended(cfg, trace, Step(w, [], d));
    saved := NewTrack(cfg, t', Last(trace).sh.db.grids["grid"].route, o.Replaying?, now);
  }

  /** A worker saves its track. */
  lemma Saves(cfg: Config, trace: seq<State>, k: string, t: TrackRequest, tasks: map<nat, Task>, status: OfflineStatus,
              tracks: map<string, Track>, w: nat, saved: Track)
    returns (longer: seq<State>)
    requires IsRun(cfg, trace) && Scene(Last(trace), k, t, tasks, status, tracks)
    requires w in tasks && tasks[w] == Save(Replaying(k, []), saved)
    ensures IsRun(cfg, longer) && |longer| == |trace| + 1 && longer[|trace| - 1] == Last(trace)
    ensures Scene(Last(longer), k, t, tasks[w := Confirm(k, [], Receipt(saved.workOrderId))], status, tracks[saved.workOrderId := saved])
  {
    longer := Extended(cfg, trace, Step(w, [], SomeDraw(Last(trace).sh)));
  }

  lemma Confirms(cfg: Config, trace: seq<State>, k: string, t: TrackRequest, tasks: map<nat, Task>, tracks: map<string, Track>,
                 w: nat, receipt: string)
    returns (longer: seq<State>)
    requires IsRun(cfg, trace) && Scene(Last(trace), k, t, tasks, Syncing, tracks)
    requires w in tasks && tasks[w] == Confirm(k, [], receipt)
    ensures IsRun(cfg, longer) && Scene(Last(longer), k, t, tasks[w := CountSynced([])], Synced, tracks)
  {
    longer := Extended(cfg, trace, Step(w, [], SomeDraw(Last(trace).sh)));
  }

  /** A client asks for a track of its own to be stored. */
  lemma ClientSubmits(cfg: Config, trace: seq<State>, k: string, t: TrackRequest, tasks: map<nat, Task>,
                      tracks: map<string, Track>, w: nat, t': TrackRequest, now: Time)
    returns (longer: seq<State>, saved: Track)
    requires IsRun(cfg, trace) && Scene(Last(trace), k, t, tasks, Synced, tracks)
    requires w in tasks && tasks[w] == Idle && Submittable(t') && t'.workOrderId == t.workOrderId
    ensures IsRun(cfg, longer) && IsTrackOf(saved, t', now)
    ensures Scene(Last(longer), k, t, tasks, Synced, tracks[t.workOrderId := saved])
  {
    var begun := Extended(cfg, trace, BeginTrack(w, t'));
    var tasks1: map<nat, Task> := tasks[w := ReadOrder(Direct, t')];
    var read: seq<State>;
    read, saved := Reads(cfg, begun, k, t, tasks1, Synced, tracks, w, Direct, t', now);
    longer := Extended(cfg, read, Step(w, [], SomeDraw(Last(read).sh)));
    var saving: map<nat, Task> := tasks1[w := Save(Direct, saved)];
    assert saving[w := Idle] == tasks;
  }

  /** Both workers hold the record, each about to save its own copy of the track. */
  lemma BothHold(cfg: Config, k: string, t: TrackRequest) returns (trace: seq<State>, a: Track, b: Track)
    requires Submittable(t)
    ensures IsRun(cfg, trace) && IsTrackOf(a, t, 1) && IsTrackOf(b, t, 1)
    ensures var o := Replaying(k, []);
            Scene(Last(trace), k, t, map[0 := Save(o, a), 1 := Save(o, b), 2 := Idle], Syncing, map[])
  {
    var o := Replaying(k, []);
    var tasks: map<nat, Task> := map[0 := ReadOrder(o, t), 1 := ReadOrder(o, t), 2 := Idle];
    var marked := BothMarked(cfg, k, t);
    var one;
    one, a := Reads(cfg, marked, k, t, tasks, Syncing, map[], 0, o, t, 1);
    trace, b := SecondHolds(cfg, one, k, t, a);
  }

  lemma SecondHolds(cfg: Config, trace: seq<State>, k: string, t: TrackRequest, a: Track) returns (longer: seq<State>, b: Track)
    requires IsRun(cfg, trace) && Submittable(t)
    requires var o := Replaying(k, []);
             Scene(Last(trace), k, t, map[0 := ReadOrder(o, t), 1 := ReadOrder(o, t), 2 := Idle][0 := Save(o, a)], Syncing, map[])
    ensures IsRun(cfg, longer) && IsTrackOf(b, t, 1)
    ensures var o := Replaying(k, []);
            Scene(Last(longer), k, t, map[0 := Save(o, a), 1 := Save(o, b), 2 := Idle], Syncing, map[])
  {
    var o := Replaying(k, []);
    var tasks: map<nat, Task> := map[0 := Save(o, a), 1 := ReadOrder(o, t), 2 := Idle];
    assert map[0 := ReadOrder(o, t), 1 := ReadOrder(o, t), 2 := Idle][0 := Save(o, a)] == tasks;
    longer, b := Reads(cfg, trace, k, t, tasks, Syncing, map[], 1, o, t, 1);
    assert tasks[1 := Save(o, b)] == map[0 := Save(o, a), 1 := Save(o, b), 2 := Idle];
  }

  lemma BothListed(cfg: Config, k: string, t: TrackRequest) returns (trace: seq<State>)
    ensures IsRun(cfg, trace) && Scene(Last(trace), k, t, map[0 := Pass([k]), 1 := Pass([k]), 2 := Idle], Pending, map[])
  {
    var idle: map<nat, Task> := map[0 := Idle, 1 := Idle, 2 := Idle];
    trace := Start(cfg, k, t);
    trace := Lists(cfg, trace, k, t, idle, 0);
    var one: map<nat, Task> := idle[0 := Pass([k])];
    trace := Lists(cfg, trace, k, t, one, 1);
    assert one[1 := Pass([k])] == map[0 := Pass([k]), 1 := Pass([k]), 2 := Idle];
  }

  lemma BothMarked(cfg: Config, k: string, t: TrackRequest) returns (trace: seq<State>)
    ensures IsRun(cfg, trace)
    ensures var o := Replaying(k, []);
            Scene(Last(trace), k, t, map[0 := ReadOrder(o, t), 1 := ReadOrder(o, t), 2 := Idle], Syncing, map[])
  {
    var o := Replaying(k, []);
    var two: map<nat, Task> := map[0 := Pass([k]), 1 := Pass([k]), 2 := Idle];
    trace := BothListed(cfg, k, t);
    trace := Marks(cfg, trace, k, t, two, Pending, 0);
    var three: map<nat, Task> := two[0 := ReadOrder(o, t)];
    trace := Marks(cfg, trace, k, t, three, Syncing, 1);
    assert three[1 := ReadOrder(o, t)] == map[0 := ReadOrder(o, t), 1 := ReadOrder(o, t), 2 := Idle];
  }

  /** The first worker is through, and the second is still about to save. */
  lemma FirstDone(cfg: Config, k: string, t: TrackRequest) returns (trace: seq<State>, a: Track, b: Track)
    requires Submittable(t)
    ensures IsRun(cfg, trace) && IsTrackOf(b, t, 1)
    ensures Scene(Last(trace), k, t, map[0 := CountSynced([]), 1 := Save(Replaying(k, []), b), 2 := Idle], Synced,
                  map[t.workOrderId := a])
  {
    trace, a, b := BothHold(cfg, k, t);
    var o, receipt := Replaying(k, []), Receipt(t.workOrderId);
    var tasks: map<nat, Task> := map[0 := Save(o, a), 1 := Save(o, b), 2 := Idle];
    trace := Saves(cfg, trace, k, t, tasks, Syncing, map[], 0, a);
    var tasks1: map<nat, Task> := tasks[0 := Confirm(k, [], receipt)];
    assert map[][t.workOrderId := a] == map[t.workOrderId := a];
    trace := Confirms(cfg, trace, k, t, tasks1, map[t.workOrderId := a], 0, receipt);
    assert tasks1[0 := CountSynced([])] == map[0 := CountSynced([]), 1 := Save(o, b), 2 := Idle];
  }

  /** A second application that is no no-op: after it the newer track is gone, and the older one is back. */
  lemma NewerTrackLost(cfg: Config, k: string, t: TrackRequest, t': TrackRequest)
    returns (trace: seq<State>, n: nat, newer: Track, older: Track)
    requires Submittable(t) && Submittable(t') && t'.workOrderId == t.workOrderId
    ensures IsRun(cfg, trace) && n + 2 == |trace|
    ensures k in trace[n].sh.db.offline && trace[n].sh.db.offline[k].status == Synced
    ensures trace[n].sh.db.tracks == map[t.workOrderId := newer] && IsTrackOf(newer, t', 9)
    ensures Last(trace).sh.db.tracks == map[t.workOrderId := older] && IsTrackOf(older, t, 1)
  {
    var a: Track;
    trace, a, older := FirstDone(cfg, k, t);
    var tasks: map<nat, Task> := map[0 := CountSynced([]), 1 := Save(Replaying(k, []), older), 2 := Idle];
    var tracks := map[t.workOrderId := a];
    trace, newer := ClientSubmits(cfg, trace, k, t, tasks, tracks, 2, t', 9);
    n := |trace| - 1;
    trace := Saves(cfg, trace, k, t, tasks, Synced, tracks[t.workOrderId := newer], 1, older);
  }
}
