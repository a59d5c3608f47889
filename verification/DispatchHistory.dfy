/** How an order came to be where it stands, and whom an item goes to when it is asked for. */
module DispatchHistory {
  import opened Common
  import opened EquipmentModel
  import opened WorkOrders
  import opened Database
  import opened StoreRules
  import opened Dispatch
  import opened DispatchStranding

  // ------------------------------------------------------------------ one move

  /** The move takes order `k` to the stage, which the order and the store allow. */
  ghost predicate Lifts(db: Db, m: Move, k: string, stage: nat) {
    if stage == 0 then m.Create? && k in {m.w.id} && k !in db.orders
    else m.Use? && k in {m.order} && k in db.orders && MayLift(db, k, db.orders[k], m.use, stage)
  }

  ghost predicate MayLift(db: Db, k: string, w: Order, use: OrderUse, stage: nat) {
    match stage
    case 1 =>
      && use.Dispatching? && w.status == Draft && w.id != "" && w.gridId != "" && w.gridId in db.grids && w.assignees != []
      && var g := db.grids[w.gridId];
      && g.id == w.gridId && (g.zone == Core ==> |w.assignees| >= use.minAssignees && w.reported)
      && (w.plannedStart == ZERO_TIME || w.shiftEnd == ZERO_TIME || w.plannedStart < w.shiftEnd)
    case 2 =>
      && use.CheckingIn? && w.status == Dispatched && use.officer in w.assignees
      && use.checkpoint.gridId == w.gridId && (w.checkpointId == "" || w.checkpointId == use.checkpoint.id)
    case 3 => use.Starting? && w.status == CheckedIn
    case 4 =>
      && use.Completing? && w.status == InProgress
      && forall j :: j in db.equipment && db.equipment[j].order == k ==> db.equipment[j].status != Issued
    case 5 => use.Verifying? && w.status == Completed && k in db.tracks
    case _ => false
  }

  /** The status that a use of an order asks for. */
  function Target(use: OrderUse): OrderStatus {
    match use
    case Dispatching(_) => Dispatched
    case CheckingIn(_, _) => CheckedIn
    case Starting => InProgress
    case Completing => Completed
    case Verifying => Verified
    case Cancelling => Cancelled
  }

  /** The use goes through exactly when it may lift the order, or cancels one that is not over; only this order changes. */
  ghost predicate AsAllowed(db: Db, k: string, use: OrderUse, r: Result<Db, OrderError>)
    requires k in db.orders
  {
    && (r.Ok? <==>
          if use == Cancelling then db.orders[k].status !in {Verified, Cancelled}
          else MayLift(db, k, db.orders[k], use, Stage(Target(use))))
    && (r.Ok? ==> && k in r.value.orders && r.value.orders == db.orders[k := r.value.orders[k]]
                  && r.value.orders[k].status == Target(use))
  }

  lemma DispatchAsAllowed(db: Db, k: string, minAssignees: int, now: Time, stamp: Time)
    requires k in db.orders
    ensures AsAllowed(db, k, Dispatching(minAssignees), OrderMutated(db, k, Dispatching(minAssignees), now, stamp))
  {
    DispatchIff(db, k, minAssignees, now, stamp);
  }

  lemma CheckInAsAllowed(db: Db, k: string, officer: string, cp: Checkpoint, now: Time, stamp: Time)
    requires k in db.orders
    ensures AsAllowed(db, k, CheckingIn(officer, cp), OrderMutated(db, k, CheckingIn(officer, cp), now, stamp))
  {
    CheckInIff(db, k, officer, cp, now, stamp);
  }

  lemma CompleteAsAllowed(db: Db, k: string, now: Time, stamp: Time)
    requires k in db.orders
    ensures AsAllowed(db, k, Completing, OrderMutated(db, k, Completing, now, stamp))
  {
    CompleteIff(db, k, now, stamp);
  }

  lemma OtherUseAsAllowed(db: Db, k: string, use: OrderUse, now: Time, stamp: Time)
    requires k in db.orders && use in {Starting, Verifying, Cancelling}
    ensures AsAllowed(db, k, use, OrderMutated(db, k, use, now, stamp))
  {
    StartIff(db, k, now, stamp);
    VerifyIff(db, k, now, stamp);
    CancelIff(db, k, now, stamp);
  }

  lemma UseAsAllowed(db: Db, k: string, use: OrderUse, now: Time, stamp: Time)
    requires k in db.orders
    ensures AsAllowed(db, k, use, OrderMutated(db, k, use, now, stamp))
  {
    match use
    case Dispatching(minAssignees) => DispatchAsAllowed(db, k, minAssignees, now, stamp);
    case CheckingIn(officer, cp) => CheckInAsAllowed(db, k, officer, cp, now, stamp);
    case Completing => CompleteAsAllowed(db, k, now, stamp);
    case _ => OtherUseAsAllowed(db, k, use, now, stamp);
  }

  /** What a use may do to the status of its order. */
  ghost predicate StatusMoves(db: Db, k: string, use: OrderUse, from: OrderStatus, to: OrderStatus)
    requires k in db.orders
  {
    && (to == Cancelled && from != Cancelled <==> use == Cancelling && from !in {Verified, Cancelled})
    && (to != from && to != Cancelled ==> Stage(to) == Stage(from) + 1 && MayLift(db, k, db.orders[k], use, Stage(to)))
    && (to == from ==> forall stage :: 1 <= stage <= 5 ==> !MayLift(db, k, db.orders[k], use, stage))
  }

  lemma MayLiftTells(db: Db, k: string, w: Order, use: OrderUse, stage: nat)
    ensures MayLift(db, k, w, use, stage) ==>
              1 <= stage <= 5 && stage == Stage(Target(use)) == Stage(w.status) + 1 && use != Cancelling
  {
  }

  lemma UseMovesStatus(db: Db, k: string, use: OrderUse, now: Time, stamp: Time)
    requires k in db.orders
    ensures var db' := OrElse(OrderMutated(db, k, use, now, stamp), db);
            && k in db'.orders && db'.orders == db.orders[k := db'.orders[k]]
            && StatusMoves(db, k, use, db.orders[k].status, db'.orders[k].status)
  {
    UseAsAllowed(db, k, use, now, stamp);
    forall stage: nat ensures MayLift(db, k, db.orders[k], use, stage) ==>
                           stage == Stage(Target(use)) == Stage(db.orders[k].status) + 1 && use != Cancelling
    {
      MayLiftTells(db, k, db.orders[k], use, stage);
    }
    if OrderMutated(db, k, use, now, stamp).Err? {
      assert db.orders[k := db.orders[k]] == db.orders;
    }
  }

  // ------------------------------------------------------------------ any move

  lemma CreateWrites(db: Db, w: Order, key: string, window: Time, now: Time)
    ensures var db' := OrderCreated(db, w, key, window, now);
            if Creating(db, w, key, window, now).Created? then
              db'.orders == db.orders[w.id := w.(createdAt := if w.createdAt == ZERO_TIME then now else w.createdAt, updatedAt := now)]
            else db' == db
  {
  }

  /** Only a use of an order changes it, and only a creation adds one. */
  lemma OtherMovesKeepOrders(r: Rules, s: Board, m: Move)
    requires Can(r, s, m) && !m.Use? && !m.Create?
    ensures Do(r, s, m).db.orders == s.db.orders
  {
    match m
    case Finish(call, now) => FinishWrites(s.db, s.pending[call], now);
    case IssueAtOnce(item, officer, order, now) => FinishWrites(s.db, Decided(s.db, item, officer, order), now);
    case Return(item, officer, condition, now) => ReturnKeepsOrders(s.db, item, officer, condition, now);
    case _ =>
  }

  lemma ReturnKeepsOrders(db: Db, item: string, officer: string, condition: string, now: Time)
    ensures OrElse(ItemReturned(db, item, officer, condition, now), db).orders == db.orders
  {
  }

  /** What one move does to an order that is there: nothing, or what a use of it may do. */
  lemma OrderMoves(r: Rules, s: Board, m: Move, k: string)
    requires Can(r, s, m) && k in s.db.orders
    ensures k in Do(r, s, m).db.orders
    ensures if m.Use? && k in {m.order}
            then StatusMoves(s.db, k, m.use, s.db.orders[k].status, Do(r, s, m).db.orders[k].status)
            else Do(r, s, m).db.orders[k] == s.db.orders[k]
  {
    if m.Create? {
      CreateWrites(s.db, m.w, m.key, r.window, m.now);
    } else if m.Use? {
      if m.order in s.db.orders {
        UseMovesStatus(s.db, m.order, m.use, m.now, m.stamp);
      }
    } else {
      OtherMovesKeepOrders(r, s, m);
    }
  }

  /** An order goes one stage up exactly by the move that is allowed to take it there. */
  lemma StageUpIff(r: Rules, s: Board, m: Move, k: string, stage: nat)
    requires Can(r, s, m) && k in s.db.orders && 1 <= stage <= 5
    ensures k in Do(r, s, m).db.orders
    ensures Stage(s.db.orders[k].status) == stage - 1 && Stage(Do(r, s, m).db.orders[k].status) == stage
            <==> Lifts(s.db, m, k, stage)
  {
    OrderMoves(r, s, m, k);
    if m.Use? {
      MayLiftTells(s.db, k, s.db.orders[k], m.use, stage);
    }
  }

  /** It is cancelled exactly by a cancellation while it is not over, and there is no other way for its status to change. */
  lemma CancelledIff(r: Rules, s: Board, m: Move, k: string)
    requires Can(r, s, m) && k in s.db.orders
    ensures k in Do(r, s, m).db.orders
    ensures var from, to := s.db.orders[k].status, Do(r, s, m).db.orders[k].status;
            && (from != Cancelled && to == Cancelled
                <==> m.Use? && k in {m.order} && m.use == Cancelling && from !in {Verified, Cancelled})
            && (to == from || to == Cancelled || Stage(to) == Stage(from) + 1)
  {
    OrderMoves(r, s, m, k);
  }

  /** A new order holds what it was created with. */
  lemma NewcomerHolds(r: Rules, s: Board, m: Move, k: string)
    requires Can(r, s, m) && k !in s.db.orders && k in Do(r, s, m).db.orders
    ensures Lifts(s.db, m, k, 0)
    ensures Do(r, s, m).db.orders[k] == m.w.(createdAt := m.now, updatedAt := m.now)
  {
    if m.Create? {
      CreateWrites(s.db, m.w, m.key, r.window, m.now);
    } else if m.Use? {
      if m.order in s.db.orders {
        UseMovesStatus(s.db, m.order, m.use, m.now, m.stamp);
      }
    } else {
      OtherMovesKeepOrders(r, s, m);
    }
  }

  // ------------------------------------------------------------------ whole runs

  ghost predicate LiftsAt(r: Rules, trace: seq<Board>, i: nat, k: string, stage: nat)
    requires IsRun(r, trace) && i + 1 < |trace|
  {
    Lifts(trace[i].db, MoveAt(r, trace, i), k, stage)
  }

  lemma HistoryStep(r: Rules, trace: seq<Board>, n: nat, k: string)
    requires IsRun(r, trace) && n + 1 < |trace| && k in trace[n].db.orders
    requires k in trace[n + 1].db.orders && trace[n + 1].db.orders[k].status != Cancelled
    ensures var from, to := trace[n].db.orders[k].status, trace[n + 1].db.orders[k].status;
            from != Cancelled && (to == from || (Stage(to) == Stage(from) + 1 && LiftsAt(r, trace, n, k, Stage(to))))
  {
    OrderMoves(r, trace[n], MoveAt(r, trace, n), k);
  }

  /** The moments `at`, in turn and before `n`, are those at which the order was taken to stage 0, 1 and so on. */
  ghost predicate Climbs(r: Rules, trace: seq<Board>, n: nat, k: string, at: seq<nat>)
    requires IsRun(r, trace) && n < |trace|
  {
    && (forall i :: 0 <= i < |at| ==> at[i] < n && LiftsAt(r, trace, at[i], k, i))
    && (forall i, j :: 0 <= i < j < |at| ==> at[i] < at[j])
  }

  lemma ClimbsOn(r: Rules, trace: seq<Board>, n: nat, k: string, at: seq<nat>)
    requires IsRun(r, trace) && n + 1 < |trace| && Climbs(r, trace, n, k, at)
    ensures Climbs(r, trace, n + 1, k, at)
    ensures LiftsAt(r, trace, n, k, |at|) ==> Climbs(r, trace, n + 1, k, at + [n])
  {
    if LiftsAt(r, trace, n, k, |at|) {
      var at' := at + [n];
      forall i | 0 <= i < |at'| ensures at'[i] < n + 1 && LiftsAt(r, trace, at'[i], k, i) {
        assert i < |at| ==> at'[i] == at[i];
      }
    }
  }

  /** In every run an order that is not cancelled has come through all the stages, in turn, each by a move that was allowed. */
  lemma {:induction false} OrderHistory(r: Rules, trace: seq<Board>, n: nat, k: string) returns (at: seq<nat>)
    requires IsRun(r, trace) && n < |trace| && k in trace[n].db.orders && trace[n].db.orders[k].status != Cancelled
    ensures |at| == Stage(trace[n].db.orders[k].status) + 1 && Climbs(r, trace, n, k, at)
  {
    at := [];
    if n == 0 {
      assert false;
    } else if k !in trace[n - 1].db.orders {
      NewcomerHolds(r, trace[n - 1], MoveAt(r, trace, n - 1), k);
      ClimbsOn(r, trace, n - 1, k, []);
      at := [] + [n - 1];
    } else {
      HistoryStep(r, trace, n - 1, k);
      at := OrderHistory(r, trace, n - 1, k);
      ClimbsOn(r, trace, n - 1, k, at);
      if trace[n - 1].db.orders[k].status != trace[n].db.orders[k].status {
        at := at + [n - 1];
      }
    }
  }

  /** Grid, crew, prior report, shift and creation time of an order are for ever those of the move that created it. */
  lemma {:induction false} OrderIsAsCreated(r: Rules, trace: seq<Board>, n: nat, k: string) returns (m: nat)
    requires IsRun(r, trace) && n < |trace| && k in trace[n].db.orders
    ensures m < n && MoveAt(r, trace, m).Create? && k !in trace[m].db.orders
    ensures var w, c := trace[n].db.orders[k], MoveAt(r, trace, m);
            && w.id == c.w.id == k && w.gridId == c.w.gridId && w.assignees == c.w.assignees && w.reported == c.w.reported
            && w.plannedStart == c.w.plannedStart && w.shiftEnd == c.w.shiftEnd && w.createdAt == c.now
  {
    if n == 0 {
      assert false;
    } else if k !in trace[n - 1].db.orders {
      NewcomerHolds(r, trace[n - 1], MoveAt(r, trace, n - 1), k);
      m := n - 1;
    } else {
      m := OrderIsAsCreated(r, trace, n - 1, k);
      RunOk(r, trace, n - 1);
      MoveOk(r, trace[n - 1], MoveAt(r, trace, n - 1));
      assert Advances(trace[n - 1].db.orders[k], trace[n].db.orders[k]);
    }
  }

  // ------------------------------------------------------------------ asking for an item

  lemma FinishedItemGoes(e: Item, d: Decision, now: Time)
    requires e.status == Locked
    ensures d.ToRelease? ==> PassedOn(e, FinishedItem(e, d, now), now)
    ensures d.ToIssue? ==>
              FinishedItem(e, d, now) == if e.holder == d.officer then e.(status := Issued, order := d.order, updatedAt := now) else e
  {
    PromotedPassesOn(e.(order := ""), now);
  }

  lemma DecidedIff(db: Db, k: string, officer: string, order: string)
    ensures Decided(db, k, officer, order)
            == if && order in db.orders && db.orders[order].status in {CheckedIn, InProgress} && officer in db.orders[order].assignees
               then ToIssue(k, officer, order) else ToRelease(k)
  {
  }

  /** The check lets the issue go ahead exactly when the order is under way and has the officer on it. */
  lemma DecideIff(r: Rules, s: Board, call: nat, k: string, officer: string, order: string)
    requires Can(r, s, Decide(call, k, officer, order))
    ensures var s' := Do(r, s, Decide(call, k, officer, order));
            && s'.db == s.db && call in s'.pending
            && s'.pending[call]
               == if && order in s.db.orders && s.db.orders[order].status in {CheckedIn, InProgress}
                     && officer in s.db.orders[order].assignees
                  then ToIssue(k, officer, order) else ToRelease(k)
  {
    DecidedIff(s.db, k, officer, order);
  }

  /** The holder of a lock is issued the item exactly on such an order; otherwise the item moves on. */
  lemma IssueAtOnceIff(r: Rules, s: Board, k: string, officer: string, order: string, now: Time)
    requires LockedBy(s.db, k, officer)
    ensures k in Do(r, s, IssueAtOnce(k, officer, order, now)).db.equipment
    ensures var e, e' := s.db.equipment[k], Do(r, s, IssueAtOnce(k, officer, order, now)).db.equipment[k];
            if && order in s.db.orders && s.db.orders[order].status in {CheckedIn, InProgress}
               && officer in s.db.orders[order].assignees
            then e' == e.(status := Issued, order := order, updatedAt := now)
            else PassedOn(e, e', now)
  {
    var d := Decided(s.db, k, officer, order);
    DecidedIff(s.db, k, officer, order);
    FinishWrites(s.db, d, now);
    FinishedItemGoes(s.db.equipment[k], d, now);
  }

  /** The late section issues the item to the officer if he still has the lock, or lets it move on. */
  lemma FinishIff(r: Rules, s: Board, call: nat, now: Time)
    requires Can(r, s, Finish(call, now))
    requires s.pending[call].item in s.db.equipment && s.db.equipment[s.pending[call].item].status == Locked
    ensures var d, db' := s.pending[call], Do(r, s, Finish(call, now)).db;
            && d.item in db'.equipment
            && var e, e' := s.db.equipment[d.item], db'.equipment[d.item];
            && (d.ToRelease? ==> PassedOn(e, e', now))
            && (d.ToIssue? ==> e' == if e.holder == d.officer then e.(status := Issued, order := d.order, updatedAt := now) else e)
  {
    var d := s.pending[call];
    FinishWrites(s.db, d, now);
    FinishedItemGoes(s.db.equipment[d.item], d, now);
  }

  /** A claim gives the officer a free item or a lower lock, and otherwise one more place in the queue. */
  lemma ClaimTells(r: Rules, s: Board, k: string, officer: string, priority: int, now: Time)
    requires k in s.db.equipment
    ensures k in Do(r, s, Claim(k, officer, priority, now)).db.equipment
    ensures var e, e' := s.db.equipment[k], Do(r, s, Claim(k, officer, priority, now)).db.equipment[k];
            && (e.status == Available || (e.status == Locked && priority > e.priority) ==>
                  e'.status == Locked && e'.holder == officer && e'.priority == priority && e'.lockedAt == now)
            && (e.status == Issued || (e.status == Locked && priority <= e.priority) ==>
                  && e' == e.(queue := e'.queue, updatedAt := now)
                  && multiset(e'.queue) == multiset(e.queue) + multiset{QueueEntry(officer, priority, now)})
  {
    ClaimTakesOrWaits(s.db.equipment[k], officer, priority, now);
  }

  /** An item is taken back exactly from its holder, while its order is under way and its shift not over; the condition is recorded. */
  lemma ReturnIff(r: Rules, s: Board, k: string, officer: string, condition: string, now: Time)
    requires k in s.db.equipment
    ensures k in Do(r, s, Return(k, officer, condition, now)).db.equipment
    ensures var e, e' := s.db.equipment[k], Do(r, s, Return(k, officer, condition, now)).db.equipment[k];
            if && e.status == Issued && e.holder == officer
               && (e.order != "" && e.order in s.db.orders ==>
                     var w := s.db.orders[e.order];
                     w.status in {CheckedIn, InProgress, Completed} && (w.shiftEnd == ZERO_TIME || now <= w.shiftEnd))
            then e'.condition == condition && PassedOn(e, e', now)
            else e' == e
  {
    ReturnWrites(s.db, k, officer, condition, now);
    ReturnOpenIff(s.db, s.db.equipment[k].order, now);
    ReturnedItemGoes(s.db.equipment[k], officer, condition, now);
  }

  /** The order of the item does not stand in the way of its return. */
  predicate ReturnOpen(db: Db, order: string, now: Time) {
    order != "" && order in db.orders ==> ReturnFault(db.orders[order], now) == None
  }

  lemma ReturnOpenIff(db: Db, order: string, now: Time)
    ensures ReturnOpen(db, order, now)
            <==> (order != "" && order in db.orders ==>
                    var w := db.orders[order];
                    w.status in {CheckedIn, InProgress, Completed} && (w.shiftEnd == ZERO_TIME || now <= w.shiftEnd))
  {
  }

  lemma ReturnWrites(db: Db, k: string, officer: string, condition: string, now: Time)
    requires k in db.equipment
    ensures var e := db.equipment[k];
            OrElse(ItemReturned(db, k, officer, condition, now), db)
            == db.(equipment := db.equipment[
                     k := if ReturnOpen(db, e.order, now) then OrElse(ReturnedBy(e, officer, condition, now), e) else e])
  {
    assert db.equipment[k := db.equipment[k]] == db.equipment;
  }

  lemma ReturnedItemGoes(e: Item, officer: string, condition: string, now: Time)
    ensures ReturnedBy(e, officer, condition, now).Ok? <==> e.status == Issued && e.holder == officer
    ensures ReturnedBy(e, officer, condition, now).Ok? ==>
              var e' := ReturnedBy(e, officer, condition, now).value; e'.condition == condition && PassedOn(e, e', now)
  {
    PromotedPassesOn(e.(status := if condition == DAMAGED then Retired else Returned,
                        condition := condition, order := "", updatedAt := now), now);
  }
}
