/** A run in which a record that was synced ends as failed: two passes overlap while an order arrives. */
module ReplayUndone {
  import opened Common
  import opened WorkOrders
  import opened Database
  import opened Calls
  import opened Replay

  /** Two workers, one record, and its order there or not. */
  ghost predicate Scene(s: State, k: string, t: TrackRequest, first: Task, second: Task, status: OfflineStatus, order: bool) {
    && s.online && s.tasks == map[0 := first, 1 := second]
    && s.sh.db.offline.Keys == {k} && s.sh.db.offline[k].localId == k
    && s.sh.db.offline[k].payload == TrackReport(Some(t)) && s.sh.db.offline[k].status == status
    && (t.workOrderId in s.sh.db.orders <==> order)
    && (order ==> s.sh.db.orders[t.workOrderId].gridId in s.sh.db.grids)
  }

  lemma Start(cfg: Config, k: string, t: TrackRequest) returns (trace: seq<State>)
    ensures IsRun(cfg, trace) && Scene(Last(trace), k, t, Snapshot, Snapshot, Pending, false)
  {
    var db := Db(map[], map[], map[], map[], map[], map[], map[], map[], map[], map[]);
    var s0 := State(true, map[], Shared(db, 0, 0, {}, 0, false, {}, {}));
    trace := [s0];
    trace := Extended(cfg, trace, Enqueue(k, TrackReport(Some(t)), 1, 1));
    trace := Extended(cfg, trace, Spawn(0));
    trace := Extended(cfg, trace, Spawn(1));
    trace := Extended(cfg, trace, BeginPass(0));
    trace := Extended(cfg, trace, BeginPass(1));
  }

  /** Both workers take the same list. */
  lemma BothList(cfg: Config, trace: seq<State>, k: string, t: TrackRequest) returns (longer: seq<State>)
    requires IsRun(cfg, trace) && Scene(Last(trace), k, t, Snapshot, Snapshot, Pending, false)
    ensures IsRun(cfg, longer) && Scene(Last(longer), k, t, Pass([k]), Pass([k]), Pending, false)
  {
    var sh := Last(trace).sh;
    OnlyOneAwaits(sh.db, k);
    longer := Extended(cfg, trace, Step(0, [sh.db.offline[k]], SomeDraw(sh)));
    longer := Extended(cfg, longer, Step(1, [sh.db.offline[k]], SomeDraw(sh)));
  }

  /** The first worker finds no order and is about to give up; then the order arrives. */
  lemma FirstMisses(cfg: Config, trace: seq<State>, k: string, t: TrackRequest) returns (longer: seq<State>)
    requires IsRun(cfg, trace) && Scene(Last(trace), k, t, Pass([k]), Pass([k]), Pending, false)
    ensures IsRun(cfg, longer) && Scene(Last(longer), k, t, GiveUp(k, [], NoSuchOrder), Pass([k]), Syncing, true)
  {
    assert [k][1..] == [];
    longer := Extended(cfg, trace, Step(0, [], SomeDraw(Last(trace).sh)));
    assert Scene(Last(longer), k, t, ReadOrder(Replaying(k, []), t), Pass([k]), Syncing, false);
    longer := Extended(cfg, longer, Step(0, [], SomeDraw(Last(longer).sh)));
    assert Scene(Last(longer), k, t, GiveUp(k, [], NoSuchOrder), Pass([k]), Syncing, false);
    var db := Last(longer).sh.db;
    var w := Order(t.workOrderId, "grid", "", Draft, [], false, 0, 0, 1, 1);
    longer := Extended(cfg, longer, Elsewhere(
        db.(orders := db.orders[t.workOrderId := w], grids := db.grids["grid" := Grid("grid", General, [])])));
  }

  /** The second worker is handed the record too, and gets through. */
  lemma SecondEnters(cfg: Config, trace: seq<State>, k: string, t: TrackRequest) returns (longer: seq<State>)
    requires IsRun(cfg, trace) && Scene(Last(trace), k, t, GiveUp(k, [], NoSuchOrder), Pass([k]), Syncing, true)
    ensures IsRun(cfg, longer) && t.workOrderId in Last(longer).sh.db.orders
    ensures var gridId := Last(longer).sh.db.orders[t.workOrderId].gridId;
            Scene(Last(longer), k, t, GiveUp(k, [], NoSuchOrder), ReadGrid(Replaying(k, []), t, gridId), Syncing, true)
  {
    assert [k][1..] == [];
    longer := Extended(cfg, trace, Step(1, [], SomeDraw(Last(trace).sh)));
    assert Scene(Last(longer), k, t, GiveUp(k, [], NoSuchOrder), ReadOrder(Replaying(k, []), t), Syncing, true);
    longer := Extended(cfg, longer, Step(1, [], SomeDraw(Last(longer).sh)));
  }

  lemma SecondReadsGrid(cfg: Config, trace: seq<State>, k: string, t: TrackRequest)
    returns (longer: seq<State>, saved: Track)
    requires IsRun(cfg, trace) && t.workOrderId in Last(trace).sh.db.orders
    requires var gridId := Last(trace).sh.db.orders[t.workOrderId].gridId;
             Scene(Last(trace), k, t, GiveUp(k, [], NoSuchOrder), ReadGrid(Replaying(k, []), t, gridId), Syncing, true)
    requires t.workOrderId != "" && |t.points| >= 2
    ensures IsRun(cfg, longer) && saved.workOrderId == t.workOrderId
    ensures Scene(Last(longer), k, t, GiveUp(k, [], NoSuchOrder), Save(Replaying(k, []), saved), Syncing, true)
  {
    longer := Extended(cfg, trace, Step(1, [], SomeDraw(Last(trace).sh)));
    saved := Last(longer).tasks[1].saved;
  }

  lemma SecondSaves(cfg: Config, trace: seq<State>, k: string, t: TrackRequest, saved: Track) returns (longer: seq<State>)
    requires IsRun(cfg, trace) && saved.workOrderId == t.workOrderId
    requires Scene(Last(trace), k, t, GiveUp(k, [], NoSuchOrder), Save(Replaying(k, []), saved), Syncing, true)
    ensures IsRun(cfg, longer)
    ensures Scene(Last(longer), k, t, GiveUp(k, [], NoSuchOrder), Confirm(k, [], Receipt(t.workOrderId)), Syncing, true)
  {
    longer := Extended(cfg, trace, Step(1, [], SomeDraw(Last(trace).sh)));
  }

  lemma SecondConfirms(cfg: Config, trace: seq<State>, k: string, t: TrackRequest) returns (longer: seq<State>)
    requires IsRun(cfg, trace)
    requires Scene(Last(trace), k, t, GiveUp(k, [], NoSuchOrder), Confirm(k, [], Receipt(t.workOrderId)), Syncing, true)
    ensures IsRun(cfg, longer)
    ensures Scene(Last(longer), k, t, GiveUp(k, [], NoSuchOrder), CountSynced([]), Synced, true)
  {
    longer := Extended(cfg, trace, Step(1, [], SomeDraw(Last(trace).sh)));
  }

  lemma FirstGivesUp(cfg: Config, trace: seq<State>, k: string, t: TrackRequest) returns (longer: seq<State>)
    requires IsRun(cfg, trace)
    requires Scene(Last(trace), k, t, GiveUp(k, [], NoSuchOrder), CountSynced([]), Synced, true)
    ensures IsRun(cfg, longer) && |longer| == |trace| + 1 && longer[|trace| - 1] == Last(trace)
    ensures Scene(Last(longer), k, t, CountFailed([]), CountSynced([]), Failed, true)
  {
    longer := Extended(cfg, trace, Step(0, [], SomeDraw(Last(trace).sh)));
  }

  lemma Overtaken(cfg: Config, k: string, t: TrackRequest) returns (trace: seq<State>)
    ensures IsRun(cfg, trace) && Scene(Last(trace), k, t, GiveUp(k, [], NoSuchOrder), Pass([k]), Syncing, true)
  {
    trace := Start(cfg, k, t);
    trace := BothList(cfg, trace, k, t);
    trace := FirstMisses(cfg, trace, k, t);
  }

  lemma SecondSucceeds(cfg: Config, trace: seq<State>, k: string, t: TrackRequest) returns (longer: seq<State>)
    requires IsRun(cfg, trace) && Scene(Last(trace), k, t, GiveUp(k, [], NoSuchOrder), Pass([k]), Syncing, true)
    requires t.workOrderId != "" && |t.points| >= 2
    ensures IsRun(cfg, longer)
    ensures Scene(Last(longer), k, t, GiveUp(k, [], NoSuchOrder), CountSynced([]), Synced, true)
  {
    var entered := SecondEnters(cfg, trace, k, t);
    var read, saved := SecondReadsGrid(cfg, entered, k, t);
    var kept := SecondSaves(cfg, read, k, t, saved);
    longer := SecondConfirms(cfg, kept, k, t);
  }

  /** Synced is not final: whatever track record a client enqueues, some interleaving syncs it and then fails it. */
  lemma SyncedThenFailed(cfg: Config, k: string, t: TrackRequest) returns (trace: seq<State>, n: nat)
    requires t.workOrderId != "" && |t.points| >= 2
    ensures IsRun(cfg, trace) && n + 1 < |trace|
    ensures k in trace[n].sh.db.offline && trace[n].sh.db.offline[k].status == Synced
    ensures k in trace[n + 1].sh.db.offline && trace[n + 1].sh.db.offline[k].status == Failed
  {
    trace := Overtaken(cfg, k, t);
    trace := SecondSucceeds(cfg, trace, k, t);
    n := |trace| - 1;
    trace := FirstGivesUp(cfg, trace, k, t);
  }
}
