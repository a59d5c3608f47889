/** When an item that is out can no longer be given back: its order has been verified or cancelled. */
module DispatchStranding {
  import opened Common
  import opened EquipmentModel
  import opened WorkOrders
  import opened Database
  import opened Dispatch
  import opened DispatchLaws

  /** The item is out on an order that is over for good. */
  ghost predicate OnEnded(db: Db, k: string) {
    && k in db.equipment && db.equipment[k].status == Issued
    && db.equipment[k].order in db.orders && IsTerminal(db.orders[db.equipment[k].order].status)
  }

  /** An item that is out can be given back exactly while its order is not over and its shift not past. */
  lemma ReturnableIff(r: Rules, s: Board, k: string, condition: string, now: Time)
    requires Inv(r, s) && k in s.db.equipment && s.db.equipment[k].status == Issued
    ensures s.db.equipment[k].order in s.db.orders
    ensures ItemReturned(s.db, k, s.db.equipment[k].holder, condition, now).Ok?
            <==> !OnEnded(s.db, k)
                 && var w := s.db.orders[s.db.equipment[k].order]; w.shiftEnd == ZERO_TIME || now <= w.shiftEnd
  {
    var e := s.db.equipment[k];
    assert ItemOk(s.db, e);
    assert OrderOk(r, s.db, e.order, s.db.orders[e.order]);
    StageTells(s.db.orders[e.order].status);
  }

  lemma StageTells(s: OrderStatus)
    ensures Stage(s) >= 2 ==> (s in {CheckedIn, InProgress, Completed} <==> !IsTerminal(s))
  {
  }

  // ------------------------------------------------------------------ one move

  /** The move verifies or cancels an order. */
  predicate Ends(db: Db, m: Move) {
    && m.Use? && m.order in db.orders
    && ((m.use == Cancelling && !IsTerminal(db.orders[m.order].status))
        || (m.use == Verifying && db.orders[m.order].status == Completed && m.order in db.tracks))
  }

  /** The move ends the order that the item is out on. */
  predicate EndsUnder(db: Db, m: Move, k: string) {
    Ends(db, m) && k in db.equipment && db.equipment[k].status == Issued && db.equipment[k].order == m.order
  }

  /** The move issues the item to an order that ended after it had been checked; the officer has kept the lock. */
  predicate IssuesToEnded(s: Board, m: Move, k: string) {
    && m.Finish? && m.call in s.pending && s.pending[m.call].ToIssue? && s.pending[m.call].item == k
    && s.pending[m.call].order in s.db.orders && IsTerminal(s.db.orders[s.pending[m.call].order].status)
    && k in s.db.equipment && s.db.equipment[k].status == Locked && s.db.equipment[k].holder == s.pending[m.call].officer
  }

  /** These are the only two ways for an item to be stranded, whatever the interleaving. */
  lemma StrandedByIff(r: Rules, s: Board, m: Move, k: string)
    requires Inv(r, s) && Can(r, s, m) && k in s.db.equipment && !OnEnded(s.db, k)
    ensures OnEnded(Do(r, s, m).db, k) <==> EndsUnder(s.db, m, k) || IssuesToEnded(s, m, k)
  {
    assert ItemOk(s.db, s.db.equipment[k]);
    match m
    case Create(w, key, now) => CreateStrandsNone(r, s.db, w, key, now, k);
    case Use(order, use, now, stamp) => UseStrandsIff(s.db, order, use, now, stamp, k);
    case Claim(item, officer, priority, now) => ClaimStrandsNone(s.db, item, officer, priority, now, k);
    case Finish(call, now) => FinishStrandsIff(s.db, s.pending[call], now, k);
    case IssueAtOnce(item, officer, order, now) => IssueAtOnceStrandsNone(s.db, item, officer, order, now, k);
    case Return(item, officer, condition, now) => ReturnStrandsNone(s.db, item, officer, condition, now, k);
    case _ =>
  }

  lemma CreateStrandsNone(r: Rules, db: Db, w: Order, key: string, now: Time, k: string)
    requires k in db.equipment && !OnEnded(db, k) && w.id !in db.orders
    requires db.equipment[k].status == Issued ==> db.equipment[k].order in db.orders
    ensures !OnEnded(OrderCreated(db, w, key, r.window, now), k)
  {
  }

  lemma UseStrandsIff(db: Db, order: string, use: OrderUse, now: Time, stamp: Time, k: string)
    requires k in db.equipment && !OnEnded(db, k)
    ensures OnEnded(OrElse(OrderMutated(db, order, use, now, stamp), db), k)
            <==> EndsUnder(db, Use(order, use, now, stamp), k)
  {
    if order in db.orders {
      UseEndsIff(db, order, use, now, stamp);
    }
  }

  /** An order reaches its end exactly by a cancellation or a verification that its state allows. */
  lemma UseEndsIff(db: Db, order: string, use: OrderUse, now: Time, stamp: Time)
    requires order in db.orders
    ensures var db' := OrElse(OrderMutated(db, order, use, now, stamp), db);
            && order in db'.orders && db'.equipment == db.equipment
            && db'.orders == db.orders[order := db'.orders[order]]
            && (IsTerminal(db'.orders[order].status)
                <==> IsTerminal(db.orders[order].status) || Ends(db, Use(order, use, now, stamp)))
  {
    UsedEndsIff(db, order, db.orders[order], use, now);
    UseWrites(db, order, use, now, stamp);
  }

  lemma UseWrites(db: Db, order: string, use: OrderUse, now: Time, stamp: Time)
    requires order in db.orders
    ensures var u := OrderUsed(db, order, db.orders[order], use, now);
            OrElse(OrderMutated(db, order, use, now, stamp), db)
            == db.(orders := db.orders[order := if u.Ok? then u.value.(updatedAt := stamp) else db.orders[order]])
  {
    assert db.orders[order := db.orders[order]] == db.orders;
  }

  lemma UsedEndsIff(db: Db, order: string, w: Order, use: OrderUse, now: Time)
    ensures var r := OrderUsed(db, order, w, use, now);
            && (r.Ok? ==> !IsTerminal(w.status) && (IsTerminal(r.value.status) <==> use == Cancelling || use == Verifying))
            && (use == Cancelling ==> (r.Ok? <==> !IsTerminal(w.status)))
            && (use == Verifying ==> (r.Ok? <==> w.status == Completed && order in db.tracks))
  {
  }

  lemma ClaimStrandsNone(db: Db, item: string, officer: string, priority: int, now: Time, k: string)
    requires k in db.equipment && !OnEnded(db, k)
    ensures !OnEnded(ItemClaimed(db, item, officer, priority, now), k)
  {
    if item in db.equipment {
      ClaimIssuesNone(db.equipment[item], officer, priority, now);
    }
  }

  lemma ClaimIssuesNone(e: Item, officer: string, priority: int, now: Time)
    ensures Claimed(e, officer, priority, now).status == Issued
            ==> e.status == Issued && Claimed(e, officer, priority, now).order == e.order
  {
  }

  /** What the second section of an issue makes of its item. */
  function FinishedItem(e: Item, d: Decision, now: Time): Item {
    match d
    case ToRelease(_) => LockReleased(e, now)
    case ToIssue(_, officer, order) => OrElse(IssuedTo(e, officer, order, now), e)
  }

  lemma FinishWrites(db: Db, d: Decision, now: Time)
    ensures d.item in db.equipment ==>
              Finished(db, d, now) == db.(equipment := db.equipment[d.item := FinishedItem(db.equipment[d.item], d, now)])
    ensures d.item !in db.equipment ==> Finished(db, d, now) == db
  {
    if d.item in db.equipment && FinishedItem(db.equipment[d.item], d, now) == db.equipment[d.item] {
      assert db.equipment[d.item := db.equipment[d.item]] == db.equipment;
    }
  }

  lemma FinishedItemIssuedIff(e: Item, d: Decision, now: Time)
    ensures var e' := FinishedItem(e, d, now);
            if d.ToIssue? && e.status == Locked && e.holder == d.officer then e'.status == Issued && e'.order == d.order
            else e'.status == Issued ==> e' == e
  {
    ReleaseIssuesNone(e, now);
  }

  lemma FinishStrandsIff(db: Db, d: Decision, now: Time, k: string)
    requires k in db.equipment && !OnEnded(db, k)
    ensures OnEnded(Finished(db, d, now), k)
            <==> && d.ToIssue? && k in {d.item} && d.order in db.orders && IsTerminal(db.orders[d.order].status)
                 && db.equipment[k].status == Locked && db.equipment[k].holder == d.officer
  {
    FinishWrites(db, d, now);
    FinishedItemIssuedIff(db.equipment[k], d, now);
  }

  lemma ReleaseIssuesNone(e: Item, now: Time)
    ensures LockReleased(e, now).status == Issued ==> LockReleased(e, now) == e
  {
  }

  lemma IssueAtOnceStrandsNone(db: Db, item: string, officer: string, order: string, now: Time, k: string)
    requires k in db.equipment && !OnEnded(db, k)
    ensures !OnEnded(Finished(db, Decided(db, item, officer, order), now), k)
  {
    FinishStrandsIff(db, Decided(db, item, officer, order), now, k);
  }

  lemma ReturnStrandsNone(db: Db, item: string, officer: string, condition: string, now: Time, k: string)
    requires k in db.equipment && !OnEnded(db, k)
    ensures !OnEnded(OrElse(ItemReturned(db, item, officer, condition, now), db), k)
  {
    if item in db.equipment {
      ReturnIssuesNone(db.equipment[item], officer, condition, now);
    }
  }

  lemma ReturnIssuesNone(e: Item, officer: string, condition: string, now: Time)
    ensures ReturnedBy(e, officer, condition, now).Ok? ==> ReturnedBy(e, officer, condition, now).value.status != Issued
  {
  }

  // ------------------------------------------------------------------ whole runs

  ghost predicate NoneOnEnded(db: Db) {
    forall k :: k in db.equipment ==> !OnEnded(db, k)
  }

  ghost predicate Strands(s: Board, m: Move) {
    exists k :: EndsUnder(s.db, m, k) || IssuesToEnded(s, m, k)
  }

  lemma EquipmentStays(r: Rules, s: Board, m: Move)
    requires Can(r, s, m)
    ensures Do(r, s, m).db.equipment.Keys == s.db.equipment.Keys
  {
    match m
    case Use(order, use, now, stamp) => UseKeepsEquipment(s.db, order, use, now, stamp);
    case Finish(call, now) => FinishWrites(s.db, s.pending[call], now);
    case IssueAtOnce(item, officer, order, now) => FinishWrites(s.db, Decided(s.db, item, officer, order), now);
    case _ =>
  }

  lemma MoveStrandsIff(r: Rules, s: Board, m: Move)
    requires Inv(r, s) && Can(r, s, m) && NoneOnEnded(s.db)
    ensures NoneOnEnded(Do(r, s, m).db) <==> !Strands(s, m)
  {
    var db' := Do(r, s, m).db;
    EquipmentStays(r, s, m);
    forall k | k in s.db.equipment ensures OnEnded(db', k) <==> EndsUnder(s.db, m, k) || IssuesToEnded(s, m, k) {
      StrandedByIff(r, s, m, k);
    }
  }

  ghost predicate StrandsAt(r: Rules, trace: seq<Board>, n: nat)
    requires IsRun(r, trace) && n + 1 < |trace|
  {
    Strands(trace[n], MoveAt(r, trace, n))
  }

  /** In every interleaving: no item is ever stranded exactly when no move of the run is one of those two. */
  lemma RunStrandsIff(r: Rules, trace: seq<Board>)
    requires IsRun(r, trace)
    ensures (forall n :: 0 <= n < |trace| ==> NoneOnEnded(trace[n].db))
            <==> (forall n :: 0 <= n < |trace| - 1 ==> !StrandsAt(r, trace, n))
  {
    if forall n :: 0 <= n < |trace| ==> NoneOnEnded(trace[n].db) {
      forall n | 0 <= n < |trace| - 1 ensures !StrandsAt(r, trace, n) {
        assert NoneOnEnded(trace[n].db) && NoneOnEnded(trace[n + 1].db);
        RunStepStrandsIff(r, trace, n);
      }
    }
    if forall n :: 0 <= n < |trace| - 1 ==> !StrandsAt(r, trace, n) {
      forall n | 0 <= n < |trace| ensures NoneOnEnded(trace[n].db) {
        NoneStrandedUpTo(r, trace, n);
      }
    }
  }

  lemma RunStepStrandsIff(r: Rules, trace: seq<Board>, n: nat)
    requires IsRun(r, trace) && n + 1 < |trace| && NoneOnEnded(trace[n].db)
    ensures NoneOnEnded(trace[n + 1].db) <==> !StrandsAt(r, trace, n)
  {
    RunOk(r, trace, n);
    MoveStrandsIff(r, trace[n], MoveAt(r, trace, n));
  }

  lemma {:induction false} NoneStrandedUpTo(r: Rules, trace: seq<Board>, n: nat)
    requires IsRun(r, trace) && n < |trace| && forall i :: 0 <= i < |trace| - 1 ==> !StrandsAt(r, trace, i)
    ensures NoneOnEnded(trace[n].db)
  {
    if n > 0 {
      NoneStrandedUpTo(r, trace, n - 1);
      RunStepStrandsIff(r, trace, n - 1);
    }
  }

  /** The order is cancelled with an item out on it. */
  ghost predicate CancelsUnder(r: Rules, trace: seq<Board>, n: nat)
    requires IsRun(r, trace) && n + 1 < |trace|
  {
    var m := MoveAt(r, trace, n);
    m.Use? && m.use == Cancelling && exists k :: EndsUnder(trace[n].db, m, k)
  }

  /** With whole calls as steps only a cancellation with an item out strands anything. */
  lemma WholeCallsStrandIff(r: Rules, trace: seq<Board>)
    requires IsRun(r, trace) && forall i :: 0 <= i < |trace| ==> trace[i].pending == map[]
    ensures (forall n :: 0 <= n < |trace| ==> NoneOnEnded(trace[n].db))
            <==> (forall n :: 0 <= n < |trace| - 1 ==> !CancelsUnder(r, trace, n))
  {
    RunStrandsIff(r, trace);
    forall n | 0 <= n < |trace| - 1 ensures StrandsAt(r, trace, n) <==> CancelsUnder(r, trace, n) {
      WholeCallsClean(r, trace, n);
      assert trace[n].pending == map[];
      CleanStrandsIff(trace[n], MoveAt(r, trace, n));
    }
  }

  lemma CleanStrandsIff(s: Board, m: Move)
    requires Clean(s) && s.pending == map[]
    ensures Strands(s, m) <==> m.Use? && m.use == Cancelling && exists k :: EndsUnder(s.db, m, k)
  {
    forall k ensures EndsUnder(s.db, m, k) ==> m.use == Cancelling {
      if EndsUnder(s.db, m, k) {
        assert !Over(s.db, s.db.equipment[k].order);
      }
    }
  }

  /** What is stranded stays so, with its officer and its order, for the rest of the run. */
  lemma EndedForGood(r: Rules, trace: seq<Board>, m: nat, n: nat, k: string)
    requires IsRun(r, trace) && m <= n < |trace| && OnEnded(trace[m].db, k)
    ensures OnEnded(trace[n].db, k) && SameIssue(trace[m].db.equipment[k], trace[n].db.equipment[k])
  {
    RunOk(r, trace, m);
    var e := trace[m].db.equipment[k];
    assert OrderOk(r, trace[m].db, e.order, trace[m].db.orders[e.order]);
    StrandedForGood(r, trace, m, n, k, e.holder, e.order);
  }

  // ------------------------------------------------------------------ decisions that come late

  ghost predicate OutOn(db: Db, k: string, order: string) {
    k in db.equipment && db.equipment[k].status == Issued && db.equipment[k].order == order
  }

  /**
   The second section of an issue puts an item out on the order, whatever has become of the
   order since the check, exactly when the officer still has the lock. If the order has been
   completed in between, this is what breaks the rule.
   */
  lemma StaleDecisionIssuesIff(r: Rules, s: Board, c: nat, now: Time, k: string)
    requires Can(r, s, Finish(c, now)) && s.pending[c].ToIssue?
    ensures var d := s.pending[c];
            OutOn(Do(r, s, Finish(c, now)).db, k, d.order)
            <==> OutOn(s.db, k, d.order) || (k in {d.item} && LockedBy(s.db, k, d.officer))
    ensures Over(s.db, s.pending[c].order) && NoneOut(s.db) ==>
              (NoneOut(Do(r, s, Finish(c, now)).db) <==> !LockedBy(s.db, s.pending[c].item, s.pending[c].officer))
  {
    var d := s.pending[c];
    FinishWrites(s.db, d, now);
    if d.item in s.db.equipment {
      FinishedItemIssuedIff(s.db.equipment[d.item], d, now);
    }
    StaleBreaksIff(s.db, d, now);
  }

  predicate LockedBy(db: Db, k: string, officer: string) {
    k in db.equipment && db.equipment[k].status == Locked && db.equipment[k].holder == officer
  }

  lemma StaleBreaksIff(db: Db, d: Decision, now: Time)
    requires d.ToIssue?
    ensures Over(db, d.order) && NoneOut(db) ==> (NoneOut(Finished(db, d, now)) <==> !LockedBy(db, d.item, d.officer))
  {
    FinishWrites(db, d, now);
    if d.item in db.equipment {
      FinishedItemIssuedIff(db.equipment[d.item], d, now);
      var db' := Finished(db, d, now);
      assert db'.equipment[d.item] == FinishedItem(db.equipment[d.item], d, now);
      assert forall j :: Over(db', j) == Over(db, j);
    }
  }

  // ------------------------------------------------------------------ completed orders and issued items

  /** A call that checked the order earlier now issues to it, though it has been completed; the officer has kept the lock. */
  predicate IssuesToOver(s: Board, m: Move) {
    && m.Finish? && m.call in s.pending && s.pending[m.call].ToIssue?
    && Over(s.db, s.pending[m.call].order) && LockedBy(s.db, s.pending[m.call].item, s.pending[m.call].officer)
  }

  lemma CreateNoneOut(db: Db, w: Order, key: string, window: Time, now: Time)
    requires NoneOut(db) && w.status == Draft && w.id !in db.orders
    ensures NoneOut(OrderCreated(db, w, key, window, now))
  {
    var db' := OrderCreated(db, w, key, window, now);
    assert db'.equipment == db.equipment;
    forall j ensures Over(db', j) ==> Over(db, j) {
    }
  }

  lemma UseNoneOut(db: Db, order: string, use: OrderUse, now: Time, stamp: Time)
    requires NoneOut(db)
    ensures NoneOut(OrElse(OrderMutated(db, order, use, now, stamp), db))
  {
    if OrderMutated(db, order, use, now, stamp).Ok? {
      UseTouchesOne(db, order, use, now, stamp);
    }
  }

  lemma FinishNoneOutIff(db: Db, d: Decision, now: Time)
    requires NoneOut(db)
    ensures NoneOut(Finished(db, d, now)) <==> !(d.ToIssue? && Over(db, d.order) && LockedBy(db, d.item, d.officer))
  {
    if d.ToIssue? && Over(db, d.order) {
      StaleBreaksIff(db, d, now);
    } else {
      CleanFinished(db, d, now);
    }
  }

  /** No item out on a completed or verified order: the one and only move that breaks this rule is such a late issue. */
  lemma NoneOutBreaksIff(r: Rules, s: Board, m: Move)
    requires Can(r, s, m) && NoneOut(s.db)
    ensures NoneOut(Do(r, s, m).db) <==> !IssuesToOver(s, m)
  {
    match m
    case Create(w, key, now) => CreateNoneOut(s.db, w, key, r.window, now);
    case Use(order, use, now, stamp) => UseNoneOut(s.db, order, use, now, stamp);
    case Claim(item, officer, priority, now) => CleanClaim(s.db, item, officer, priority, now);
    case Finish(call, now) => FinishNoneOutIff(s.db, s.pending[call], now);
    case IssueAtOnce(item, officer, order, now) =>
      DecidedForLiveOrder(s.db, item, officer, order);
      CleanFinished(s.db, Decided(s.db, item, officer, order), now);
    case Return(item, officer, condition, now) => CleanReturn(s.db, item, officer, condition, now);
    case _ =>
  }

  ghost predicate IssuesToOverAt(r: Rules, trace: seq<Board>, n: nat)
    requires IsRun(r, trace) && n + 1 < |trace|
  {
    IssuesToOver(trace[n], MoveAt(r, trace, n))
  }

  lemma RunStepNoneOutIff(r: Rules, trace: seq<Board>, n: nat)
    requires IsRun(r, trace) && n + 1 < |trace| && NoneOut(trace[n].db)
    ensures NoneOut(trace[n + 1].db) <==> !IssuesToOverAt(r, trace, n)
  {
    NoneOutBreaksIff(r, trace[n], MoveAt(r, trace, n));
  }

  /** In every interleaving: the rule holds throughout exactly when no late issue goes to a completed or verified order. */
  lemma RunNoneOutIff(r: Rules, trace: seq<Board>)
    requires IsRun(r, trace)
    ensures (forall n :: 0 <= n < |trace| ==> NoneOut(trace[n].db))
            <==> (forall n :: 0 <= n < |trace| - 1 ==> !IssuesToOverAt(r, trace, n))
  {
    if forall n :: 0 <= n < |trace| ==> NoneOut(trace[n].db) {
      forall n | 0 <= n < |trace| - 1 ensures !IssuesToOverAt(r, trace, n) {
        assert NoneOut(trace[n].db) && NoneOut(trace[n + 1].db);
        RunStepNoneOutIff(r, trace, n);
      }
    }
    if forall n :: 0 <= n < |trace| - 1 ==> !IssuesToOverAt(r, trace, n) {
      forall n | 0 <= n < |trace| ensures NoneOut(trace[n].db) {
        NoneOutUpTo(r, trace, n);
      }
    }
  }

  lemma {:induction false} NoneOutUpTo(r: Rules, trace: seq<Board>, n: nat)
    requires IsRun(r, trace) && n < |trace| && forall i :: 0 <= i < |trace| - 1 ==> !IssuesToOverAt(r, trace, i)
    ensures NoneOut(trace[n].db)
  {
    if n > 0 {
      NoneOutUpTo(r, trace, n - 1);
      RunStepNoneOutIff(r, trace, n - 1);
    }
  }

  // ------------------------------------------------------------------ after the shift

  /** A stretch in which every return is asked for at `from` or later. */
  ghost predicate ReturnsFrom(r: Rules, trace: seq<Board>, m: nat, n: nat, from: Time)
    requires IsRun(r, trace) && n < |trace|
  {
    forall i :: m <= i < n ==> ReturnFrom(MoveAt(r, trace, i), from)
  }

  predicate ReturnFrom(m: Move, from: Time) {
    m.Return? ==> m.now >= from
  }

  /** Once the clock has passed the end of the shift, and does not go back, what is out stays out for good. */
  lemma {:induction false} OverdueForGood(r: Rules, trace: seq<Board>, m: nat, n: nat, k: string, holder: string, order: string, from: Time)
    requires IsRun(r, trace) && m <= n < |trace| && OutWith(trace[m].db, k, holder, order) && ReturnsFrom(r, trace, m, n, from)
    requires ZERO_TIME != trace[m].db.orders[order].shiftEnd < from
    ensures OutWith(trace[n].db, k, holder, order)
    ensures trace[n].db.orders[order].shiftEnd == trace[m].db.orders[order].shiftEnd
  {
    if m < n {
      assert ReturnsFrom(r, trace, m, n - 1, from);
      OverdueForGood(r, trace, m, n - 1, k, holder, order, from);
      assert ReturnFrom(MoveAt(r, trace, n - 1), from);
      RunOk(r, trace, n - 1);
      OverdueMove(r, trace[n - 1], MoveAt(r, trace, n - 1), k, holder, order, from);
    }
  }

  lemma OverdueMove(r: Rules, s: Board, m: Move, k: string, holder: string, order: string, from: Time)
    requires Inv(r, s) && Can(r, s, m) && OutWith(s.db, k, holder, order) && ReturnFrom(m, from)
    requires ZERO_TIME != s.db.orders[order].shiftEnd < from
    ensures OutWith(Do(r, s, m).db, k, holder, order)
    ensures Do(r, s, m).db.orders[order].shiftEnd == s.db.orders[order].shiftEnd
  {
    OutMove(r, s, m, k, holder, order);
    MoveOk(r, s, m);
    assert Advances(s.db.orders[order], Do(r, s, m).db.orders[order]);
  }

  // ------------------------------------------------------------------ cancelling

  /** Cancelling does not look at equipment: with an item out it goes through, and strands the item. */
  lemma CancelStrands(r: Rules, s: Board, k: string, now: Time, stamp: Time)
    requires Inv(r, s) && k in s.db.equipment && s.db.equipment[k].status == Issued
    requires !IsTerminal(s.db.orders[s.db.equipment[k].order].status)
    ensures var e := s.db.equipment[k];
            Stranded(Do(r, s, Use(e.order, Cancelling, now, stamp)).db, k, e.holder, e.order)
  {
    var e := s.db.equipment[k];
    assert ItemOk(s.db, e);
    assert OrderOk(r, s.db, e.order, s.db.orders[e.order]);
    CancelGoesThrough(s.db, e.order, now, stamp);
  }

  lemma CancelGoesThrough(db: Db, order: string, now: Time, stamp: Time)
    requires order in db.orders && !IsTerminal(db.orders[order].status)
    ensures OrderMutated(db, order, Cancelling, now, stamp)
            == Ok(db.(orders := db.orders[order := db.orders[order].(status := Cancelled, updatedAt := stamp)]))
  {
  }
}
