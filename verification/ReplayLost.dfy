/** A run in which two passes sync one record each and the counter ends at one. */
module ReplayLost {
  import opened Common
  import opened Database
  import opened Calls
  import opened Replay

  /** Two workers, and patrol notes with the statuses given. */
  ghost predicate Scene(s: State, notes: map<string, OfflineStatus>, first: Task, second: Task) {
    && s.online && s.tasks == map[0 := first, 1 := second]
    && s.sh.db.offline.Keys == notes.Keys
    && forall k :: k in notes ==> IsNote(s.sh.db.offline[k], k, notes[k])
  }

  predicate IsNote(r: OfflineRecord, k: string, status: OfflineStatus) {
    r.localId == k && r.payload == PatrolNote && r.status == status
  }

  ghost predicate Counted(sh: Shared, count: int, tally: int, lost: bool) {
    sh.syncedCount == count && sh.tally == tally && sh.lost == lost
  }

  lemma Start(cfg: Config, a: string) returns (trace: seq<State>)
    ensures IsRun(cfg, trace) && Scene(Last(trace), map[a := Pending], Snapshot, Idle) && Counted(Last(trace).sh, 0, 0, false)
  {
    var db := Db(map[], map[], map[], map[], map[], map[], map[], map[], map[], map[]);
    var s0 := State(true, map[], Shared(db, 0, 0, {}, 0, false, {}, {}));
    trace := [s0];
    trace := Extended(cfg, trace, Enqueue(a, PatrolNote, 1, 1));
    trace := Extended(cfg, trace, Spawn(0));
    trace := Extended(cfg, trace, Spawn(1));
    trace := Extended(cfg, trace, BeginPass(0));
  }

  /** The first worker lists its note, marks it and applies it. */
  lemma FirstLists(cfg: Config, trace: seq<State>, a: string) returns (longer: seq<State>)
    requires IsRun(cfg, trace) && Scene(Last(trace), map[a := Pending], Snapshot, Idle) && Counted(Last(trace).sh, 0, 0, false)
    ensures IsRun(cfg, longer) && Scene(Last(longer), map[a := Pending], Pass([a]), Idle)
    ensures Counted(Last(longer).sh, 0, 0, false)
  {
    var sh := Last(trace).sh;
    OnlyOneAwaits(sh.db, a);
    longer := Extended(cfg, trace, Step(0, [sh.db.offline[a]], SomeDraw(sh)));
  }

  lemma FirstApplies(cfg: Config, trace: seq<State>, a: string) returns (longer: seq<State>)
    requires IsRun(cfg, trace) && Scene(Last(trace), map[a := Pending], Pass([a]), Idle) && Counted(Last(trace).sh, 0, 0, false)
    ensures IsRun(cfg, longer) && Scene(Last(longer), map[a := Syncing], Confirm(a, [], Receipt(a)), Idle)
    ensures Counted(Last(longer).sh, 0, 0, false)
  {
    assert [a][1..] == [];
    longer := Extended(cfg, trace, Step(0, [], SomeDraw(Last(trace).sh)));
  }

  lemma FirstConfirms(cfg: Config, trace: seq<State>, a: string) returns (longer: seq<State>)
    requires IsRun(cfg, trace) && Scene(Last(trace), map[a := Syncing], Confirm(a, [], Receipt(a)), Idle)
    requires Counted(Last(trace).sh, 0, 0, false)
    ensures IsRun(cfg, longer) && Scene(Last(longer), map[a := Synced], CountSynced([]), Idle)
    ensures Counted(Last(longer).sh, 0, 0, false)
  {
    longer := Extended(cfg, trace, Step(0, [], SomeDraw(Last(trace).sh)));
  }

  /** Before it counts, another note comes in and the second worker starts on it. */
  lemma SecondStarts(cfg: Config, trace: seq<State>, a: string, b: string) returns (longer: seq<State>)
    requires IsRun(cfg, trace) && Scene(Last(trace), map[a := Synced], CountSynced([]), Idle) && b !in {a}
    requires Counted(Last(trace).sh, 0, 0, false)
    ensures IsRun(cfg, longer) && Scene(Last(longer), map[a := Synced, b := Pending], CountSynced([]), Snapshot)
    ensures Counted(Last(longer).sh, 0, 0, false)
  {
    longer := Extended(cfg, trace, Enqueue(b, PatrolNote, 2, 2));
    longer := Extended(cfg, longer, BeginPass(1));
  }

  lemma SecondLists(cfg: Config, trace: seq<State>, a: string, b: string) returns (longer: seq<State>)
    requires IsRun(cfg, trace) && Scene(Last(trace), map[a := Synced, b := Pending], CountSynced([]), Snapshot) && b !in {a}
    requires Counted(Last(trace).sh, 0, 0, false)
    ensures IsRun(cfg, longer) && Scene(Last(longer), map[a := Synced, b := Pending], CountSynced([]), Pass([b]))
    ensures Counted(Last(longer).sh, 0, 0, false)
  {
    var sh := Last(trace).sh;
    assert IsNote(sh.db.offline[a], a, Synced) && IsNote(sh.db.offline[b], b, Pending);
    OnlyOneAwaits(sh.db, b);
    longer := Extended(cfg, trace, Step(1, [sh.db.offline[b]], SomeDraw(sh)));
  }

  lemma SecondApplies(cfg: Config, trace: seq<State>, a: string, b: string) returns (longer: seq<State>)
    requires IsRun(cfg, trace) && Scene(Last(trace), map[a := Synced, b := Pending], CountSynced([]), Pass([b])) && b !in {a}
    requires Counted(Last(trace).sh, 0, 0, false)
    ensures IsRun(cfg, longer)
    ensures Scene(Last(longer), map[a := Synced, b := Syncing], CountSynced([]), Confirm(b, [], Receipt(b)))
    ensures Counted(Last(longer).sh, 0, 0, false)
  {
    var sh := Last(trace).sh;
    assert IsNote(sh.db.offline[b], b, Pending);
    assert [b][1..] == [];
    longer := Extended(cfg, trace, Step(1, [], SomeDraw(sh)));
  }

  lemma SecondConfirms(cfg: Config, trace: seq<State>, a: string, b: string) returns (longer: seq<State>)
    requires IsRun(cfg, trace) && b !in {a}
    requires Scene(Last(trace), map[a := Synced, b := Syncing], CountSynced([]), Confirm(b, [], Receipt(b)))
    requires Counted(Last(trace).sh, 0, 0, false)
    ensures IsRun(cfg, longer) && Scene(Last(longer), map[a := Synced, b := Synced], CountSynced([]), CountSynced([]))
    ensures Counted(Last(longer).sh, 0, 0, false)
  {
    longer := Extended(cfg, trace, Step(1, [], SomeDraw(Last(trace).sh)));
  }

  /** Both read the counter before either writes it. */
  lemma BothRead(cfg: Config, trace: seq<State>, notes: map<string, OfflineStatus>) returns (longer: seq<State>)
    requires IsRun(cfg, trace) && Scene(Last(trace), notes, CountSynced([]), CountSynced([]))
    requires Counted(Last(trace).sh, 0, 0, false)
    ensures IsRun(cfg, longer) && Scene(Last(longer), notes, WriteSynced([], 0), WriteSynced([], 0))
    ensures Counted(Last(longer).sh, 0, 0, false)
  {
    longer := Extended(cfg, trace, Step(0, [], SomeDraw(Last(trace).sh)));
    assert Scene(Last(longer), notes, WriteSynced([], 0), CountSynced([]));
    longer := Extended(cfg, longer, Step(1, [], SomeDraw(Last(longer).sh)));
  }

  lemma BothWrite(cfg: Config, trace: seq<State>, notes: map<string, OfflineStatus>) returns (longer: seq<State>)
    requires IsRun(cfg, trace) && Scene(Last(trace), notes, WriteSynced([], 0), WriteSynced([], 0))
    requires Counted(Last(trace).sh, 0, 0, false)
    ensures IsRun(cfg, longer) && Scene(Last(longer), notes, Pass([]), Pass([])) && Counted(Last(longer).sh, 1, 2, true)
  {
    longer := Extended(cfg, trace, Step(0, [], SomeDraw(Last(trace).sh)));
    assert Scene(Last(longer), notes, Pass([]), WriteSynced([], 0)) && Counted(Last(longer).sh, 1, 1, false);
    longer := Extended(cfg, longer, Step(1, [], SomeDraw(Last(longer).sh)));
  }

  lemma BothFinish(cfg: Config, trace: seq<State>, notes: map<string, OfflineStatus>) returns (longer: seq<State>)
    requires IsRun(cfg, trace) && Scene(Last(trace), notes, Pass([]), Pass([])) && Counted(Last(trace).sh, 1, 2, true)
    ensures IsRun(cfg, longer) && Scene(Last(longer), notes, Idle, Idle) && Counted(Last(longer).sh, 1, 2, true)
  {
    longer := Extended(cfg, trace, Step(0, [], SomeDraw(Last(trace).sh)));
    assert Scene(Last(longer), notes, Idle, Pass([]));
    longer := Extended(cfg, longer, Step(1, [], SomeDraw(Last(longer).sh)));
  }

  lemma BothSync(cfg: Config, a: string, b: string) returns (trace: seq<State>)
    requires b !in {a}
    ensures IsRun(cfg, trace) && Scene(Last(trace), map[a := Synced, b := Synced], CountSynced([]), CountSynced([]))
    ensures Counted(Last(trace).sh, 0, 0, false)
  {
    trace := Start(cfg, a);
    trace := FirstLists(cfg, trace, a);
    trace := FirstApplies(cfg, trace, a);
    trace := FirstConfirms(cfg, trace, a);
    trace := SecondStarts(cfg, trace, a, b);
    trace := SecondLists(cfg, trace, a, b);
    trace := SecondApplies(cfg, trace, a, b);
    trace := SecondConfirms(cfg, trace, a, b);
  }

  /** Two records synced, nobody under way, and a counter of one. */
  lemma TwoSyncedOneCounted(cfg: Config, a: string, b: string) returns (trace: seq<State>)
    requires a != b
    ensures IsRun(cfg, trace) && forall w :: w in Last(trace).tasks ==> Last(trace).tasks[w] == Idle
    ensures Last(trace).sh.db.offline.Keys == {a, b}
    ensures Last(trace).sh.db.offline[a].status == Synced && Last(trace).sh.db.offline[b].status == Synced
    ensures Last(trace).sh.tally == 2 && Last(trace).sh.syncedCount == 1 && Last(trace).sh.lost
  {
    var notes := map[a := Synced, b := Synced];
    trace := BothSync(cfg, a, b);
    trace := BothRead(cfg, trace, notes);
    trace := BothWrite(cfg, trace, notes);
    trace := BothFinish(cfg, trace, notes);
    assert IsNote(Last(trace).sh.db.offline[a], a, notes[a]) && IsNote(Last(trace).sh.db.offline[b], b, notes[b]);
  }
}
