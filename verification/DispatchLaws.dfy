/** What the interleavings of order and equipment calls keep, and where they can go wrong. */
module DispatchLaws {
  import opened Common
  import opened EquipmentModel
  import opened EquipmentRuns
  import opened WorkOrders
  import opened Database
  import opened Calls
  import opened Dispatch

  // ------------------------------------------------------------------ what every run keeps

  /** An issued item is with an assignee of its order, and that order has been checked in, though the check was made earlier. */
  lemma IssuedToAssignee(r: Rules, trace: seq<Board>, n: nat, k: string)
    requires IsRun(r, trace) && n < |trace| && k in trace[n].db.equipment
    ensures var db, e := trace[n].db, trace[n].db.equipment[k];
            && WellFormed(e)
            && (e.status == Issued ==>
                  && e.order in db.orders && e.holder in db.orders[e.order].assignees
                  && db.orders[e.order].status !in {Draft, Dispatched})
  {
    RunOk(r, trace, n);
    assert ItemOk(trace[n].db, trace[n].db.equipment[k]);
  }

  /** Two active orders on one grid were created at least one reuse window apart. */
  lemma GridReuseWindow(r: Rules, trace: seq<Board>, n: nat, j: string, k: string)
    requires IsRun(r, trace) && n < |trace| && j in trace[n].db.orders && k in trace[n].db.orders && j != k
    requires var w, w' := trace[n].db.orders[j], trace[n].db.orders[k];
             w.gridId == w'.gridId && w.status !in {Verified, Cancelled} && w'.status !in {Verified, Cancelled}
    ensures var w, w' := trace[n].db.orders[j], trace[n].db.orders[k];
            w.createdAt - w'.createdAt >= r.window || w'.createdAt - w.createdAt >= r.window
  {
    RunOk(r, trace, n);
    assert Spaced(r.window, trace[n].db.orders[j], trace[n].db.orders[k]);
  }

  ghost predicate ActiveOnGrid(db: Db, grid: string, ids: set<string>, lo: Time, hi: Time) {
    forall k :: k in ids ==>
      && k in db.orders && db.orders[k].gridId == grid && db.orders[k].status !in {Verified, Cancelled}
      && lo <= db.orders[k].createdAt <= hi
  }

  /** So in every run a span of time has room for only so many active orders on one grid. */
  lemma ActiveOrdersInSpan(r: Rules, trace: seq<Board>, n: nat, grid: string, ids: set<string>, lo: Time, hi: Time)
    requires IsRun(r, trace) && n < |trace| && ids != {} && ActiveOnGrid(trace[n].db, grid, ids, lo, hi)
    ensures (|ids| - 1) * r.window <= hi - lo
  {
    RunOk(r, trace, n);
    SpanBoundsOrders(r.window, trace[n].db, grid, ids, lo, hi);
  }

  lemma {:induction false} SpanBoundsOrders(window: Time, db: Db, grid: string, ids: set<string>, lo: Time, hi: Time)
    requires OrdersSpaced(window, db) && ids != {} && ActiveOnGrid(db, grid, ids, lo, hi)
    ensures (|ids| - 1) * window <= hi - lo
    decreases |ids|
  {
    var last := Latest(db, ids);
    var rest := ids - {last};
    if rest != {} && window > 0 {
      RestIsEarlier(window, db, grid, ids, lo, hi, last);
      SpanBoundsOrders(window, db, grid, rest, lo, db.orders[last].createdAt - window);
      OneMore(|rest|, window);
    } else if rest != {} {
      assert lo <= db.orders[last].createdAt <= hi;
      NoLess(|rest|, window);
    } else {
      assert ids == {last};
    }
  }

  lemma NoLess(n: nat, window: Time)
    requires window <= 0
    ensures n * window <= 0
  {
  }

  lemma RestIsEarlier(window: Time, db: Db, grid: string, ids: set<string>, lo: Time, hi: Time, last: string)
    requires OrdersSpaced(window, db) && ActiveOnGrid(db, grid, ids, lo, hi) && last in ids
    requires forall k :: k in ids ==> db.orders[k].createdAt <= db.orders[last].createdAt
    requires window > 0
    ensures ActiveOnGrid(db, grid, ids - {last}, lo, db.orders[last].createdAt - window)
  {
    forall k | k in ids - {last} ensures db.orders[k].createdAt <= db.orders[last].createdAt - window {
      ActiveUntilTerminal(db.orders[k].status);
      ActiveUntilTerminal(db.orders[last].status);
      assert Spaced(window, db.orders[k], db.orders[last]);
    }
  }

  lemma OneMore(n: nat, window: Time)
    ensures (n - 1) * window + window == n * window
  {
  }

  ghost function Latest(db: Db, ids: set<string>): (last: string)
    requires ids != {} && forall k :: k in ids ==> k in db.orders
    ensures last in ids && forall k :: k in ids ==> db.orders[k].createdAt <= db.orders[last].createdAt
    decreases |ids|
  {
    var k :| k in ids;
    if ids == {k} then k
    else
      var other := Latest(db, ids - {k});
      if db.orders[other].createdAt >= db.orders[k].createdAt then other else k
  }

  lemma {:induction false} RunAdvances(r: Rules, trace: seq<Board>, m: nat, n: nat)
    requires IsRun(r, trace) && m <= n < |trace|
    ensures OrdersAdvance(trace[m].db, trace[n].db)
  {
    if m < n {
      RunAdvances(r, trace, m, n - 1);
      RunOk(r, trace, n - 1);
      MoveOk(r, trace[n - 1], MoveAt(r, trace, n - 1));
      AdvanceTransitive(trace[m].db, trace[n - 1].db, trace[n].db);
    }
  }

  lemma AdvanceTransitive(a: Db, b: Db, c: Db)
    requires OrdersAdvance(a, b) && OrdersAdvance(b, c)
    ensures OrdersAdvance(a, c)
  {
    forall k | k in a.orders ensures k in c.orders && Advances(a.orders[k], c.orders[k]) {
      assert Advances(a.orders[k], b.orders[k]) && Advances(b.orders[k], c.orders[k]);
    }
  }

  /** A request key, once answered, is answered with the same order for ever. */
  lemma OneOrderPerKey(r: Rules, trace: seq<Board>, m: nat, n: nat, key: string, id: string, id': string)
    requires IsRun(r, trace) && m <= n < |trace| && key != ""
    requires (key, id) in trace[m].answers && (key, id') in trace[n].answers
    ensures id == id' && id in trace[n].db.orders
  {
    RunOk(r, trace, n);
    AnswersStay(r, trace, m, n, (key, id));
  }

  lemma {:induction false} AnswersStay(r: Rules, trace: seq<Board>, m: nat, n: nat, p: (string, string))
    requires IsRun(r, trace) && m <= n < |trace| && p in trace[m].answers
    ensures p in trace[n].answers
  {
    if m < n {
      AnswersStay(r, trace, m, n - 1, p);
      AnswerStays(r, trace[n - 1], MoveAt(r, trace, n - 1), p);
    }
  }

  lemma AnswerStays(r: Rules, s: Board, m: Move, p: (string, string))
    requires Can(r, s, m) && p in s.answers
    ensures p in Do(r, s, m).answers
  {
  }

  /** Asking again with the key of a created order gives that order exactly when the key is not blank. */
  lemma CreateIdempotentIff(db: Db, w: Order, w': Order, key: string, window: Time, now: Time, now': Time)
    requires Creating(db, w, key, window, now) == Created(w.id)
    ensures var db' := OrderCreated(db, w, key, window, now);
            && (Creating(db', w', key, window, now') == Existing(w.id) <==> key != "")
            && (key != "" ==> OrderCreated(db', w', key, window, now') == db')
  {
  }

  /** Every dispatched order on a core-zone grid is manned and reported, and from check-in on it is at a checkpoint of its grid. */
  lemma DispatchedOrdersComply(r: Rules, trace: seq<Board>, n: nat, k: string)
    requires IsRun(r, trace) && n < |trace| && k in trace[n].db.orders
    ensures var db, w := trace[n].db, trace[n].db.orders[k];
            && (1 <= Stage(w.status) <= 5 && w.gridId in db.grids && db.grids[w.gridId].zone == Core ==>
                  |w.assignees| >= r.coreMin && w.reported)
            && (2 <= Stage(w.status) <= 5 ==>
                  w.checkpointId in db.checkpoints && db.checkpoints[w.checkpointId].gridId == w.gridId)
            && (w.status == Verified ==> k in db.tracks)
  {
    RunOk(r, trace, n);
    assert OrderOk(r, trace[n].db, k, trace[n].db.orders[k]);
  }

  // ------------------------------------------------------------------ completed orders and issued items

  /** The order was completed in the regular way. */
  predicate Over(db: Db, order: string) {
    order in db.orders && (db.orders[order].status == Completed || db.orders[order].status == Verified)
  }

  ghost predicate NoneOut(db: Db) {
    forall k :: k in db.equipment && db.equipment[k].status == Issued ==> !Over(db, db.equipment[k].order)
  }

  /** No completed or verified order has an item out, nor a decision that would issue one. */
  ghost predicate Clean(s: Board) {
    NoneOut(s.db) && forall c :: c in s.pending && s.pending[c].ToIssue? ==> !Over(s.db, s.pending[c].order)
  }

  /** A completion that goes through while a call has checked the order and not yet issued. */
  ghost predicate CompletesUnderDecision(r: Rules, s: Board, m: Move)
    requires Can(r, s, m)
  {
    && m.Use? && m.use == Completing && OrderMutated(s.db, m.order, m.use, m.now, m.stamp).Ok?
    && exists c :: c in s.pending && s.pending[c].ToIssue? && s.pending[c].order == m.order
  }

  /** A completion or a verification that goes through leaves no item out on the order. */
  lemma UseTouchesOne(db: Db, order: string, use: OrderUse, now: Time, stamp: Time)
    requires OrderMutated(db, order, use, now, stamp).Ok?
    ensures var db' := OrderMutated(db, order, use, now, stamp).value;
            && db'.equipment == db.equipment
            && (forall j :: j != order ==> Over(db', j) == Over(db, j))
            && (Over(db', order) <==> use == Completing || use == Verifying)
    ensures use == Verifying ==> Over(db, order)
    ensures use == Completing ==> forall k :: k in db.equipment && db.equipment[k].status == Issued ==> db.equipment[k].order != order
  {
    if use == Completing {
      forall k | k in db.equipment && db.equipment[k].status == Issued ensures db.equipment[k].order != order {
        assert k !in OpenEquipment(db, order);
      }
    }
  }

  lemma CleanUse(r: Rules, s: Board, m: Move)
    requires Clean(s) && Can(r, s, m) && m.Use?
    ensures Clean(Do(r, s, m)) <==> !CompletesUnderDecision(r, s, m)
  {
    if OrderMutated(s.db, m.order, m.use, m.now, m.stamp).Ok? {
      UseTouchesOne(s.db, m.order, m.use, m.now, m.stamp);
    }
  }

  lemma CleanCreate(r: Rules, s: Board, m: Move)
    requires Clean(s) && Can(r, s, m) && m.Create?
    ensures Clean(Do(r, s, m))
  {
    forall j ensures Over(Do(r, s, m).db, j) ==> Over(s.db, j) {
    }
  }

  lemma CleanFinished(db: Db, d: Decision, now: Time)
    requires NoneOut(db) && (d.ToIssue? ==> !Over(db, d.order))
    ensures NoneOut(Finished(db, d, now)) && Finished(db, d, now).orders == db.orders
  {
  }

  lemma CleanReturn(db: Db, item: string, officer: string, condition: string, now: Time)
    requires NoneOut(db)
    ensures var db' := OrElse(ItemReturned(db, item, officer, condition, now), db);
            NoneOut(db') && db'.orders == db.orders
  {
  }

  lemma CleanClaim(db: Db, item: string, officer: string, priority: int, now: Time)
    requires NoneOut(db)
    ensures var db' := ItemClaimed(db, item, officer, priority, now); NoneOut(db') && db'.orders == db.orders
  {
  }

  lemma DecidedForLiveOrder(db: Db, item: string, officer: string, order: string)
    ensures var d := Decided(db, item, officer, order); d.ToIssue? ==> !Over(db, d.order)
  {
  }

  /** Nothing but the equipment has changed, and no decision is new. */
  lemma CleanBySameOrders(s: Board, db': Db, pending: map<nat, Decision>)
    requires Clean(s) && NoneOut(db') && db'.orders == s.db.orders
    requires forall c :: c in pending && pending[c].ToIssue? ==> !Over(s.db, pending[c].order)
    ensures Clean(s.(db := db', pending := pending))
  {
  }

  /** Completion under a pending decision is the one and only move that breaks the rule. */
  lemma CleanBreaksIff(r: Rules, s: Board, m: Move)
    requires Clean(s) && Can(r, s, m)
    ensures Clean(Do(r, s, m)) <==> !CompletesUnderDecision(r, s, m)
  {
    match m
    case Create(_, _, _) => CleanCreate(r, s, m);
    case Use(_, _, _, _) => CleanUse(r, s, m);
    case Claim(item, officer, priority, now) =>
      CleanClaim(s.db, item, officer, priority, now);
      CleanBySameOrders(s, ItemClaimed(s.db, item, officer, priority, now), s.pending);
    case Decide(call, item, officer, order) =>
      DecidedForLiveOrder(s.db, item, officer, order);
      CleanBySameOrders(s, s.db, s.pending[call := Decided(s.db, item, officer, order)]);
    case Finish(call, now) =>
      CleanFinished(s.db, s.pending[call], now);
      CleanBySameOrders(s, Finished(s.db, s.pending[call], now), s.pending - {call});
    case IssueAtOnce(item, officer, order, now) =>
      var d := Decided(s.db, item, officer, order);
      DecidedForLiveOrder(s.db, item, officer, order);
      CleanFinished(s.db, d, now);
      CleanBySameOrders(s, Finished(s.db, d, now), s.pending);
    case Return(item, officer, condition, now) =>
      CleanReturn(s.db, item, officer, condition, now);
      CleanBySameOrders(s, OrElse(ItemReturned(s.db, item, officer, condition, now), s.db), s.pending);
    case Submit(track) => CleanBySameOrders(s, TrackSaved(s.db, track), s.pending);
    case Elsewhere(db) => CleanBySameOrders(s, db, s.pending);
  }

  ghost predicate BreaksAt(r: Rules, trace: seq<Board>, n: nat)
    requires IsRun(r, trace) && n + 1 < |trace|
  {
    CompletesUnderDecision(r, trace[n], MoveAt(r, trace, n))
  }

  /** In every interleaving: the rule holds throughout exactly when no order completes under a pending decision. */
  lemma RunCleanIff(r: Rules, trace: seq<Board>)
    requires IsRun(r, trace)
    ensures (forall n :: 0 <= n < |trace| ==> Clean(trace[n])) <==> (forall n :: 0 <= n < |trace| - 1 ==> !BreaksAt(r, trace, n))
  {
    if forall n :: 0 <= n < |trace| ==> Clean(trace[n]) {
      forall n | 0 <= n < |trace| - 1 ensures !BreaksAt(r, trace, n) {
        assert Clean(trace[n]) && Clean(trace[n + 1]);
        RunStepCleanIff(r, trace, n);
      }
    }
    if forall n :: 0 <= n < |trace| - 1 ==> !BreaksAt(r, trace, n) {
      forall n | 0 <= n < |trace| ensures Clean(trace[n]) {
        CleanUpTo(r, trace, n);
      }
    }
  }

  lemma RunStepCleanIff(r: Rules, trace: seq<Board>, n: nat)
    requires IsRun(r, trace) && n + 1 < |trace| && Clean(trace[n])
    ensures Clean(trace[n + 1]) <==> !BreaksAt(r, trace, n)
  {
    CleanBreaksIff(r, trace[n], MoveAt(r, trace, n));
  }

  lemma {:induction false} CleanUpTo(r: Rules, trace: seq<Board>, n: nat)
    requires IsRun(r, trace) && n < |trace| && forall i :: 0 <= i < |trace| - 1 ==> !BreaksAt(r, trace, i)
    ensures Clean(trace[n])
  {
    if n > 0 {
      CleanUpTo(r, trace, n - 1);
      RunStepCleanIff(r, trace, n - 1);
    }
  }

  /** With whole calls as steps the rule holds in every run. */
  lemma {:induction false} WholeCallsClean(r: Rules, trace: seq<Board>, n: nat)
    requires IsRun(r, trace) && n < |trace| && forall i :: 0 <= i < |trace| ==> trace[i].pending == map[]
    ensures Clean(trace[n])
  {
    if n > 0 {
      WholeCallsClean(r, trace, n - 1);
      CleanBreaksIff(r, trace[n - 1], MoveAt(r, trace, n - 1));
    }
  }

  // ------------------------------------------------------------------ giving an item back

  /** The move is a return of the item by its holder, while its order is under way and its shift not over. */
  predicate GivenBack(db: Db, m: Move, k: string)
    requires k in db.equipment && db.equipment[k].order in db.orders
  {
    && m.Return? && k in {m.item} && m.officer == db.equipment[k].holder
    && var w := db.orders[db.equipment[k].order];
    w.status in {CheckedIn, InProgress, Completed} && (w.shiftEnd == ZERO_TIME || m.now <= w.shiftEnd)
  }

  /** An issued item changes hands exactly when it is given back. */
  lemma IssuedEndsIff(r: Rules, s: Board, m: Move, k: string)
    requires Can(r, s, m) && k in s.db.equipment && s.db.equipment[k].status == Issued
    requires s.db.equipment[k].order != "" && s.db.equipment[k].order in s.db.orders
    ensures k in Do(r, s, m).db.equipment
    ensures !SameIssue(s.db.equipment[k], Do(r, s, m).db.equipment[k]) <==> GivenBack(s.db, m, k)
  {
    if m.Return? {
      ReturnEndsIff(s.db, m.item, m.officer, m.condition, m.now, k);
    } else {
      OthersKeepIssued(r, s, m, k);
    }
  }

  lemma OthersKeepIssued(r: Rules, s: Board, m: Move, k: string)
    requires Can(r, s, m) && !m.Return? && k in s.db.equipment && s.db.equipment[k].status == Issued
    ensures k in Do(r, s, m).db.equipment && SameIssue(s.db.equipment[k], Do(r, s, m).db.equipment[k])
  {
    if m.Claim? {
      ClaimKeepsIssued(s.db, m.item, m.officer, m.priority, m.now, k);
    } else if m.Finish? {
      FinishKeepsIssued(s.db, s.pending[m.call], m.now, k);
    } else if m.IssueAtOnce? {
      FinishKeepsIssued(s.db, Decided(s.db, m.item, m.officer, m.order), m.now, k);
    } else {
      OrderMovesKeepEquipment(r, s, m);
    }
  }

  lemma OrderMovesKeepEquipment(r: Rules, s: Board, m: Move)
    requires Can(r, s, m) && (m.Create? || m.Use? || m.Decide? || m.Submit? || m.Elsewhere?)
    ensures Do(r, s, m).db.equipment == s.db.equipment
  {
    if m.Use? {
      UseKeepsEquipment(s.db, m.order, m.use, m.now, m.stamp);
    }
  }

  lemma UseKeepsEquipment(db: Db, order: string, use: OrderUse, now: Time, stamp: Time)
    ensures OrElse(OrderMutated(db, order, use, now, stamp), db).equipment == db.equipment
  {
  }

  lemma ClaimKeepsIssued(db: Db, item: string, officer: string, priority: int, now: Time, k: string)
    requires k in db.equipment && db.equipment[k].status == Issued
    ensures k in ItemClaimed(db, item, officer, priority, now).equipment
    ensures SameIssue(db.equipment[k], ItemClaimed(db, item, officer, priority, now).equipment[k])
  {
    if item in db.equipment {
      ClaimSameIssue(db.equipment[item], officer, priority, now);
    }
  }

  predicate SameIssue(e: Item, e': Item) {
    e'.status == e.status == Issued && e'.holder == e.holder && e'.order == e.order
  }

  lemma ClaimSameIssue(e: Item, officer: string, priority: int, now: Time)
    ensures e.status == Issued ==> SameIssue(e, Claimed(e, officer, priority, now))
  {
  }

  lemma FinishKeepsIssued(db: Db, d: Decision, now: Time, k: string)
    requires k in db.equipment && db.equipment[k].status == Issued
    ensures k in Finished(db, d, now).equipment && Finished(db, d, now).equipment[k] == db.equipment[k]
  {
  }

  lemma ReturnEndsIff(db: Db, item: string, officer: string, condition: string, now: Time, k: string)
    requires k in db.equipment && db.equipment[k].status == Issued
    requires db.equipment[k].order != "" && db.equipment[k].order in db.orders
    ensures k in OrElse(ItemReturned(db, item, officer, condition, now), db).equipment
    ensures SameIssue(db.equipment[k], OrElse(ItemReturned(db, item, officer, condition, now), db).equipment[k])
            <==> !(k in {item} && officer == db.equipment[k].holder
                   && ReturnFault(db.orders[db.equipment[k].order], now) == None)
  {
    if item == k {
      ReturnFrees(db.equipment[k], officer, condition, now);
    }
  }

  lemma ReturnFrees(e: Item, officer: string, condition: string, now: Time)
    requires e.status == Issued
    ensures ReturnedBy(e, officer, condition, now).Ok? <==> officer == e.holder
    ensures officer == e.holder ==> ReturnedBy(e, officer, condition, now).value.status != Issued
  {
  }

  ghost predicate OutWith(db: Db, k: string, holder: string, order: string) {
    && k in db.equipment && db.equipment[k].status == Issued
    && db.equipment[k].holder == holder && db.equipment[k].order == order && order != "" && order in db.orders
  }

  lemma OutMove(r: Rules, s: Board, m: Move, k: string, holder: string, order: string)
    requires Inv(r, s) && Can(r, s, m) && OutWith(s.db, k, holder, order) && !GivenBack(s.db, m, k)
    ensures OutWith(Do(r, s, m).db, k, holder, order)
  {
    IssuedEndsIff(r, s, m, k);
    MoveOk(r, s, m);
  }

  ghost predicate NotGivenBackAt(r: Rules, trace: seq<Board>, i: nat, k: string, holder: string, order: string)
    requires IsRun(r, trace) && i + 1 < |trace|
  {
    OutWith(trace[i].db, k, holder, order) ==> !GivenBack(trace[i].db, MoveAt(r, trace, i), k)
  }

  /** Over any stretch of a run without a return of the item it stays out with the same officer for the same order. */
  lemma {:induction false} OutUntilGivenBack(r: Rules, trace: seq<Board>, m: nat, n: nat, k: string, holder: string, order: string)
    requires IsRun(r, trace) && m <= n < |trace| && OutWith(trace[m].db, k, holder, order)
    requires forall i :: m <= i < n ==> NotGivenBackAt(r, trace, i, k, holder, order)
    ensures OutWith(trace[n].db, k, holder, order)
  {
    if m < n {
      OutUntilGivenBack(r, trace, m, n - 1, k, holder, order);
      RunOk(r, trace, n - 1);
      assert NotGivenBackAt(r, trace, n - 1, k, holder, order);
      OutMove(r, trace[n - 1], MoveAt(r, trace, n - 1), k, holder, order);
    }
  }

  /** An item out on a cancelled or verified order can never be given back. */
  ghost predicate Stranded(db: Db, k: string, holder: string, order: string) {
    OutWith(db, k, holder, order) && IsTerminal(db.orders[order].status)
  }

  lemma {:induction false} StrandedForGood(r: Rules, trace: seq<Board>, m: nat, n: nat, k: string, holder: string, order: string)
    requires IsRun(r, trace) && m <= n < |trace| && Stranded(trace[m].db, k, holder, order)
    ensures Stranded(trace[n].db, k, holder, order)
  {
    if m < n {
      StrandedForGood(r, trace, m, n - 1, k, holder, order);
      RunOk(r, trace, n - 1);
      StrandedMove(r, trace[n - 1], MoveAt(r, trace, n - 1), k, holder, order);
    }
  }

  lemma StrandedMove(r: Rules, s: Board, m: Move, k: string, holder: string, order: string)
    requires Inv(r, s) && Can(r, s, m) && Stranded(s.db, k, holder, order)
    ensures Stranded(Do(r, s, m).db, k, holder, order)
  {
    OutMove(r, s, m, k, holder, order);
    MoveOk(r, s, m);
    assert Advances(s.db.orders[order], Do(r, s, m).db.orders[order]);
  }

  // ------------------------------------------------------------------ rolling back a lock

  /**
   The check on the order comes before the check on the holder: for an officer who does not
   hold the lock, the call drops it all the same exactly when the order does not allow the issue.
   */
  lemma RollbackDropsAnyLockIff(r: Rules, s: Board, k: string, officer: string, order: string, now: Time)
    requires k in s.db.equipment && s.db.equipment[k].status == Locked && s.db.equipment[k].holder != officer
    ensures var e' := Do(r, s, IssueAtOnce(k, officer, order, now)).db.equipment[k];
            if IssueCheck(s.db, officer, order).Some? then e' == Promoted(s.db.equipment[k].(order := ""), now)
            else e' == s.db.equipment[k]
  {
  }
}
