/** Runs at lock granularity in which an order is completed or cancelled between the two sections of an issue. */
module DispatchRace {
  import opened Common
  import opened EquipmentModel
  import opened WorkOrders
  import opened Database
  import opened Dispatch
  import opened DispatchLaws
  import opened DispatchStranding

  /** One order on one grid, one item, and at most one call between its two sections. */
  ghost predicate Scene(s: Board, order: string, item: string, officer: string, status: OrderStatus,
                        lock: EquipmentStatus, pending: map<nat, Decision>) {
    && s.pending == pending
    && s.db.checkpoints == map["cp" := Checkpoint("cp", "grid")] && s.db.grids == map["grid" := Grid("grid", General, [])]
    && s.db.orders.Keys == {order} && s.db.equipment.Keys == {item}
    && (var w := s.db.orders[order];
        && w.id == order && w.gridId == "grid" && w.assignees == [officer] && w.plannedStart == ZERO_TIME
        && w.status == status && (status in {Draft, Dispatched} ==> w.checkpointId == ""))
    && (var e := s.db.equipment[item];
        && e.status == lock && e.queue == []
        && (lock in {Locked, Issued} ==> e.holder == officer)
        && (lock == Issued ==> e.order == order))
  }

  /** No call is between its two sections: every step so far was a whole call. */
  ghost predicate Whole(trace: seq<Board>) {
    forall i :: 0 <= i < |trace| ==> trace[i].pending == map[]
  }

  lemma Drafted(r: Rules, order: string, item: string, officer: string) returns (trace: seq<Board>)
    requires order != ""
    ensures IsRun(r, trace) && Whole(trace) && Scene(Last(trace), order, item, officer, Draft, Available, map[])
  {
    var e := Item(item, Available, "", 0, "", "", ZERO_TIME, [], ZERO_TIME);
    var db := Db(map["grid" := Grid("grid", General, [])], map["cp" := Checkpoint("cp", "grid")], map[], map[],
                 map[item := e], map[], map[], map[], map[], map[]);
    trace := [Board(db, map[], {})];
    trace := Extended(r, trace, Create(Order(order, "grid", "", Draft, [officer], true, 0, 0, 0, 0), "", 1));
  }

  lemma DispatchedNext(r: Rules, trace: seq<Board>, order: string, item: string, officer: string) returns (longer: seq<Board>)
    requires IsRun(r, trace) && Whole(trace) && Scene(Last(trace), order, item, officer, Draft, Available, map[]) && order != ""
    ensures IsRun(r, longer) && Whole(longer) && Scene(Last(longer), order, item, officer, Dispatched, Available, map[])
  {
    longer := Extended(r, trace, Use(order, Dispatching(r.coreMin), 2, 2));
  }

  lemma CheckedInNext(r: Rules, trace: seq<Board>, order: string, item: string, officer: string) returns (longer: seq<Board>)
    requires IsRun(r, trace) && Whole(trace) && Scene(Last(trace), order, item, officer, Dispatched, Available, map[])
    ensures IsRun(r, longer) && Whole(longer) && Scene(Last(longer), order, item, officer, CheckedIn, Available, map[])
  {
    longer := Extended(r, trace, Use(order, CheckingIn(officer, Checkpoint("cp", "grid")), 3, 3));
  }

  lemma StartedNext(r: Rules, trace: seq<Board>, order: string, item: string, officer: string) returns (longer: seq<Board>)
    requires IsRun(r, trace) && Whole(trace) && Scene(Last(trace), order, item, officer, CheckedIn, Available, map[])
    ensures IsRun(r, longer) && Whole(longer) && Scene(Last(longer), order, item, officer, InProgress, Available, map[])
  {
    longer := Extended(r, trace, Use(order, Starting, 4, 4));
  }

  lemma ClaimedNext(r: Rules, trace: seq<Board>, order: string, item: string, officer: string) returns (longer: seq<Board>)
    requires IsRun(r, trace) && Whole(trace) && Scene(Last(trace), order, item, officer, InProgress, Available, map[])
    ensures IsRun(r, longer) && Whole(longer) && Scene(Last(longer), order, item, officer, InProgress, Locked, map[])
  {
    longer := Extended(r, trace, Claim(item, officer, 1, 5));
  }

  lemma DecidedNext(r: Rules, trace: seq<Board>, order: string, item: string, officer: string) returns (longer: seq<Board>)
    requires IsRun(r, trace) && Scene(Last(trace), order, item, officer, InProgress, Locked, map[])
    ensures IsRun(r, longer)
    ensures Scene(Last(longer), order, item, officer, InProgress, Locked, map[0 := ToIssue(item, officer, order)])
  {
    longer := Extended(r, trace, Decide(0, item, officer, order));
  }

  lemma CompletedNext(r: Rules, trace: seq<Board>, order: string, item: string, officer: string) returns (longer: seq<Board>)
    requires IsRun(r, trace)
    requires Scene(Last(trace), order, item, officer, InProgress, Locked, map[0 := ToIssue(item, officer, order)])
    ensures IsRun(r, longer)
    ensures Scene(Last(longer), order, item, officer, Completed, Locked, map[0 := ToIssue(item, officer, order)])
  {
    assert OpenEquipment(Last(trace).db, order) == {};
    longer := Extended(r, trace, Use(order, Completing, 7, 7));
  }

  lemma IssuedNext(r: Rules, trace: seq<Board>, order: string, item: string, officer: string) returns (longer: seq<Board>)
    requires IsRun(r, trace)
    requires Scene(Last(trace), order, item, officer, Completed, Locked, map[0 := ToIssue(item, officer, order)])
    ensures IsRun(r, longer) && Scene(Last(longer), order, item, officer, Completed, Issued, map[])
  {
    longer := Extended(r, trace, Finish(0, 8));
  }

  lemma UpToClaim(r: Rules, order: string, item: string, officer: string) returns (trace: seq<Board>)
    requires order != ""
    ensures IsRun(r, trace) && Whole(trace) && Scene(Last(trace), order, item, officer, InProgress, Locked, map[])
  {
    trace := Drafted(r, order, item, officer);
    trace := DispatchedNext(r, trace, order, item, officer);
    trace := CheckedInNext(r, trace, order, item, officer);
    trace := StartedNext(r, trace, order, item, officer);
    trace := ClaimedNext(r, trace, order, item, officer);
  }

  lemma UpToDecision(r: Rules, order: string, item: string, officer: string) returns (trace: seq<Board>)
    requires order != ""
    ensures IsRun(r, trace)
    ensures Scene(Last(trace), order, item, officer, InProgress, Locked, map[0 := ToIssue(item, officer, order)])
  {
    trace := UpToClaim(r, order, item, officer);
    trace := DecidedNext(r, trace, order, item, officer);
  }

  /** Completion does not exclude issued equipment: the order was checked, then completed, then the item was issued to it. */
  lemma CompletedWithItemOut(r: Rules, order: string, item: string, officer: string) returns (trace: seq<Board>)
    requires order != ""
    ensures IsRun(r, trace)
    ensures order in Last(trace).db.orders && Last(trace).db.orders[order].status == Completed
    ensures item in Last(trace).db.equipment && Last(trace).db.equipment[item].status == Issued
    ensures Last(trace).db.equipment[item].order == order && !NoneOut(Last(trace).db)
  {
    trace := UpToDecision(r, order, item, officer);
    trace := CompletedNext(r, trace, order, item, officer);
    trace := IssuedNext(r, trace, order, item, officer);
    assert Over(Last(trace).db, order);
  }

  lemma CancelledNext(r: Rules, trace: seq<Board>, order: string, item: string, officer: string) returns (longer: seq<Board>)
    requires IsRun(r, trace)
    requires Scene(Last(trace), order, item, officer, InProgress, Locked, map[0 := ToIssue(item, officer, order)])
    ensures IsRun(r, longer)
    ensures Scene(Last(longer), order, item, officer, Cancelled, Locked, map[0 := ToIssue(item, officer, order)])
  {
    longer := Extended(r, trace, Use(order, Cancelling, 7, 7));
  }

  lemma IssuedToCancelledNext(r: Rules, trace: seq<Board>, order: string, item: string, officer: string) returns (longer: seq<Board>)
    requires IsRun(r, trace)
    requires Scene(Last(trace), order, item, officer, Cancelled, Locked, map[0 := ToIssue(item, officer, order)])
    ensures IsRun(r, longer) && Scene(Last(longer), order, item, officer, Cancelled, Issued, map[])
    ensures |longer| == |trace| + 1 && longer[|trace| - 1] == Last(trace)
  {
    longer := Extended(r, trace, Finish(0, 8));
  }

  /** Nothing is out when the order is cancelled, and still an item ends up stranded on it. */
  lemma StrandedAfterCancel(r: Rules, order: string, item: string, officer: string) returns (trace: seq<Board>, n: nat)
    requires order != ""
    ensures IsRun(r, trace) && n + 2 == |trace|
    ensures order in trace[n].db.orders && trace[n].db.orders[order].status == Cancelled
    ensures forall k :: k in trace[n].db.equipment ==> trace[n].db.equipment[k].status != Issued
    ensures OnEnded(Last(trace).db, item) && Last(trace).db.equipment[item].order == order
  {
    var decided := UpToDecision(r, order, item, officer);
    var cancelled := CancelledNext(r, decided, order, item, officer);
    n := |cancelled| - 1;
    trace := IssuedToCancelledNext(r, cancelled, order, item, officer);
  }

  /** Another officer, who is not on the order, asks for the item: the holder's lock is gone. */
  lemma LockDroppedForOther(r: Rules, order: string, item: string, officer: string, other: string) returns (trace: seq<Board>, n: nat)
    requires order != "" && other !in [officer]
    ensures IsRun(r, trace) && Whole(trace) && n + 2 == |trace|
    ensures LockedBy(trace[n].db, item, officer)
    ensures Last(trace) == Do(r, trace[n], IssueAtOnce(item, other, order, 6))
    ensures item in Last(trace).db.equipment && Last(trace).db.equipment[item].status == Available
  {
    var claimed := UpToClaim(r, order, item, officer);
    n := |claimed| - 1;
    trace := Extended(r, claimed, IssueAtOnce(item, other, order, 6));
  }

  lemma WholeIssueNext(r: Rules, trace: seq<Board>, order: string, item: string, officer: string) returns (longer: seq<Board>)
    requires IsRun(r, trace) && Whole(trace) && Scene(Last(trace), order, item, officer, InProgress, Locked, map[])
    ensures IsRun(r, longer) && Whole(longer) && Scene(Last(longer), order, item, officer, InProgress, Issued, map[])
  {
    longer := Extended(r, trace, IssueAtOnce(item, officer, order, 6));
  }

  /** Whole calls only: the order is cancelled with the item out, and the item is stranded. */
  lemma StrandedByWholeCalls(r: Rules, order: string, item: string, officer: string) returns (trace: seq<Board>)
    requires order != ""
    ensures IsRun(r, trace) && Whole(trace) && OnEnded(Last(trace).db, item)
  {
    trace := UpToClaim(r, order, item, officer);
    trace := WholeIssueNext(r, trace, order, item, officer);
    CancelGoesThrough(Last(trace).db, order, 7, 7);
    trace := Extended(r, trace, Use(order, Cancelling, 7, 7));
  }
}
