/**
 Orders and equipment under concurrency (`internal/app/service.go`, `internal/app/equipment.go`).
 One action is one critical section; `IssueEquipment` is two, the check of the order (`Decide`)
 and the issue or release that follows (`Finish`). `IssueAtOnce` is the same call undisturbed.
 */
module Dispatch {
  import opened Common
  import opened EquipmentModel
  import opened EquipmentRuns
  import opened WorkOrders
  import opened Database
  import opened Calls

  datatype Rules = Rules(window: Time, coreMin: int)

  /** An `IssueEquipment` call between its two sections. */
  datatype Decision = ToIssue(item: string, officer: string, order: string) | ToRelease(item: string)

  /** `answers` records which order each request key was answered with. */
  datatype Board = Board(db: Db, pending: map<nat, Decision>, answers: set<(string, string)>)

  datatype Move =
    | Create(w: Order, key: string, now: Time)
    | Use(order: string, use: OrderUse, now: Time, stamp: Time)
    | Claim(item: string, officer: string, priority: int, now: Time)
    | Decide(call: nat, item: string, officer: string, order: string)
    | Finish(call: nat, now: Time)
    | IssueAtOnce(item: string, officer: string, order: string, now: Time)
    | Return(item: string, officer: string, condition: string, now: Time)
    | Submit(track: Track)
    | Elsewhere(db: Db)

  /** Grids and checkpoints are set up beforehand; equipment starts out fresh. */
  ghost predicate Init(s: Board) {
    && s.db.orders == map[] && s.db.idem == map[] && s.pending == map[] && s.answers == {}
    && (forall k :: k in s.db.equipment ==> Fresh(s.db.equipment[k]))
    && (forall k :: k in s.db.grids ==> s.db.grids[k].id == k)
    && (forall k :: k in s.db.checkpoints ==> s.db.checkpoints[k].id == k)
  }

  ghost predicate Can(r: Rules, s: Board, m: Move) {
    match m
    case Create(w, _, _) => w.id != "" && w.id !in s.db.orders && w.status == Draft && w.createdAt == ZERO_TIME
    case Use(_, use, _, _) =>
      && (use.Dispatching? ==> use.minAssignees == r.coreMin)
      && (use.CheckingIn? ==> use.checkpoint.id in s.db.checkpoints && s.db.checkpoints[use.checkpoint.id] == use.checkpoint)
    case Claim(_, _, _, _) => true
    case Decide(call, _, _, _) => call !in s.pending
    case Finish(call, _) => call in s.pending
    case IssueAtOnce(_, _, _, _) => true
    case Return(_, _, _, _) => true
    case Submit(_) => true
    case Elsewhere(db) =>
      // incidents and offline records may change in any way
      && db.grids == s.db.grids && db.checkpoints == s.db.checkpoints && db.orders == s.db.orders
      && db.idem == s.db.idem && db.equipment == s.db.equipment && db.tracks == s.db.tracks
  }

  function Decided(db: Db, item: string, officer: string, order: string): Decision {
    if IssueCheck(db, officer, order).Some? then ToRelease(item) else ToIssue(item, officer, order)
  }

  function Finished(db: Db, d: Decision, now: Time): Db {
    match d
    case ToRelease(item) => ItemReleased(db, item, now)
    case ToIssue(item, officer, order) => OrElse(ItemIssued(db, item, officer, order, now), db)
  }

  function AnswersOf(s: Board, w: Order, key: string, window: Time, now: Time): set<(string, string)> {
    match Creating(s.db, w, key, window, now)
    case Existing(id) => s.answers + {(key, id)}
    case Rejected => s.answers
    case Created(id) => s.answers + {(key, id)}
  }

  function Do(r: Rules, s: Board, m: Move): Board
    requires Can(r, s, m)
  {
    match m
    case Create(w, key, now) =>
      s.(db := OrderCreated(s.db, w, key, r.window, now), answers := AnswersOf(s, w, key, r.window, now))
    case Use(order, use, now, stamp) => s.(db := OrElse(OrderMutated(s.db, order, use, now, stamp), s.db))
    case Claim(item, officer, priority, now) => s.(db := ItemClaimed(s.db, item, officer, priority, now))
    case Decide(call, item, officer, order) => s.(pending := s.pending[call := Decided(s.db, item, officer, order)])
    case Finish(call, now) => s.(db := Finished(s.db, s.pending[call], now), pending := s.pending - {call})
    case IssueAtOnce(item, officer, order, now) =>
      s.(db := Finished(s.db, Decided(s.db, item, officer, order), now))
    case Return(item, officer, condition, now) =>
      s.(db := OrElse(ItemReturned(s.db, item, officer, condition, now), s.db))
    case Submit(track) => s.(db := TrackSaved(s.db, track))
    case Elsewhere(db) => s.(db := db)
  }

  /** The two sections of an issue, undisturbed, are the whole call. */
  lemma SectionsMakeTheCall(r: Rules, s: Board, call: nat, item: string, officer: string, order: string, now: Time)
    requires call !in s.pending
    ensures Do(r, Do(r, s, Decide(call, item, officer, order)), Finish(call, now))
            == Do(r, s, IssueAtOnce(item, officer, order, now))
  {
    var d := Decided(s.db, item, officer, order);
    assert s.pending[call := d] - {call} == s.pending;
  }

  ghost predicate IsRun(r: Rules, trace: seq<Board>) {
    && trace != [] && Init(trace[0])
    && forall i :: 0 <= i < |trace| - 1 ==> FollowsAt(r, trace, i)
  }

  ghost predicate FollowsAt(r: Rules, trace: seq<Board>, i: int)
    requires 0 <= i < |trace| - 1
  {
    exists m :: Can(r, trace[i], m) && Do(r, trace[i], m) == trace[i + 1]
  }

  ghost function MoveAt(r: Rules, trace: seq<Board>, n: nat): (m: Move)
    requires IsRun(r, trace) && n + 1 < |trace|
    ensures Can(r, trace[n], m) && Do(r, trace[n], m) == trace[n + 1]
  {
    assert FollowsAt(r, trace, n);
    var m :| Can(r, trace[n], m) && Do(r, trace[n], m) == trace[n + 1];
    m
  }

  /** A run goes on with any move that its last state admits. */
  lemma Extended(r: Rules, trace: seq<Board>, m: Move) returns (longer: seq<Board>)
    requires IsRun(r, trace) && Can(r, Last(trace), m)
    ensures longer == trace + [Do(r, Last(trace), m)] && IsRun(r, longer)
  {
    longer := trace + [Do(r, Last(trace), m)];
    forall i | 0 <= i < |longer| - 1 ensures FollowsAt(r, longer, i) {
      if i < |trace| - 1 {
        assert FollowsAt(r, trace, i) && longer[i] == trace[i] && longer[i + 1] == trace[i + 1];
        var m' :| Can(r, trace[i], m') && Do(r, trace[i], m') == trace[i + 1];
        assert Can(r, longer[i], m') && Do(r, longer[i], m') == longer[i + 1];
      } else {
        assert Can(r, longer[i], m) && Do(r, longer[i], m) == longer[i + 1];
      }
    }
  }

  // ------------------------------------------------------------------ the invariant

  /** What holds of an order that was dispatched, and from check-in on, and once verified. */
  ghost predicate OrderOk(r: Rules, db: Db, k: string, w: Order) {
    && w.id == k != ""
    && (1 <= Stage(w.status) <= 5 ==>
          && w.assignees != []
          && (w.gridId in db.grids && db.grids[w.gridId].zone == Core ==> |w.assignees| >= r.coreMin && w.reported))
    && (2 <= Stage(w.status) <= 5 ==>
          w.checkpointId in db.checkpoints && db.checkpoints[w.checkpointId].gridId == w.gridId)
    && (w.status == Verified ==> k in db.tracks)
  }

  /** The officer is on the order, and the order has been checked in at some time. */
  ghost predicate Entitled(db: Db, officer: string, order: string) {
    order in db.orders && officer in db.orders[order].assignees && Stage(db.orders[order].status) >= 2
  }

  ghost predicate ItemOk(db: Db, e: Item) {
    WellFormed(e) && (e.status == Issued ==> Entitled(db, e.holder, e.order))
  }

  ghost predicate DecisionOk(db: Db, d: Decision) {
    d.ToIssue? ==> Entitled(db, d.officer, d.order)
  }

  ghost predicate Spaced(window: Time, w: Order, w': Order) {
    w.gridId == w'.gridId && IsActive(w.status) && IsActive(w'.status) ==>
      w.createdAt - w'.createdAt >= window || w'.createdAt - w.createdAt >= window
  }

  ghost predicate OrdersSpaced(window: Time, db: Db) {
    forall j, k :: j in db.orders && k in db.orders && j != k ==> Spaced(window, db.orders[j], db.orders[k])
  }

  ghost predicate OrdersOk(r: Rules, db: Db) {
    && (forall k :: k in db.orders ==> OrderOk(r, db, k, db.orders[k]))
    && (forall k :: k in db.checkpoints ==> db.checkpoints[k].id == k)
  }

  ghost predicate ItemsOk(db: Db) {
    forall k :: k in db.equipment ==> ItemOk(db, db.equipment[k])
  }

  ghost predicate PendingOk(s: Board) {
    forall c :: c in s.pending ==> DecisionOk(s.db, s.pending[c])
  }

  ghost predicate AnswersOk(s: Board) {
    && (forall k :: k in s.db.idem ==> k != "" && s.db.idem[k] in s.db.orders)
    && (forall p :: p in s.answers ==> p.1 in s.db.orders && (p.0 != "" ==> p.0 in s.db.idem && s.db.idem[p.0] == p.1))
  }

  ghost predicate Inv(r: Rules, s: Board) {
    OrdersOk(r, s.db) && OrdersSpaced(r.window, s.db) && ItemsOk(s.db) && PendingOk(s) && AnswersOk(s)
  }

  // ------------------------------------------------------------------ orders

  /** Orders stay, and each only moves on. */
  ghost predicate OrdersAdvance(db: Db, db': Db) {
    forall k :: k in db.orders ==> k in db'.orders && Advances(db.orders[k], db'.orders[k])
  }

  lemma EntitledAdvances(db: Db, db': Db, officer: string, order: string)
    requires OrdersAdvance(db, db') && Entitled(db, officer, order)
    ensures Entitled(db', officer, order)
  {
    assert Advances(db.orders[order], db'.orders[order]);
  }

  /** Items and decisions keep what they rest on while the orders move on. */
  lemma OrdersMoveOn(s: Board, db': Db)
    requires ItemsOk(s.db) && PendingOk(s) && OrdersAdvance(s.db, db') && db'.equipment == s.db.equipment
    ensures ItemsOk(db') && PendingOk(s.(db := db'))
  {
    forall k | k in db'.equipment ensures ItemOk(db', db'.equipment[k]) {
      assert ItemOk(s.db, s.db.equipment[k]);
      if db'.equipment[k].status == Issued {
        EntitledAdvances(s.db, db', db'.equipment[k].holder, db'.equipment[k].order);
      }
    }
    forall c | c in s.pending ensures DecisionOk(db', s.pending[c]) {
      assert DecisionOk(s.db, s.pending[c]);
      if s.pending[c].ToIssue? {
        EntitledAdvances(s.db, db', s.pending[c].officer, s.pending[c].order);
      }
    }
  }

  lemma UsedOk(r: Rules, db: Db, k: string, use: OrderUse, now: Time, stamp: Time)
    requires OrdersOk(r, db) && k in db.orders
    requires use.Dispatching? ==> use.minAssignees == r.coreMin
    requires use.CheckingIn? ==> use.checkpoint.id in db.checkpoints && db.checkpoints[use.checkpoint.id] == use.checkpoint
    requires OrderUsed(db, k, db.orders[k], use, now).Ok?
    ensures var w' := OrderUsed(db, k, db.orders[k], use, now).value.(updatedAt := stamp);
            OrderOk(r, db, k, w') && Advances(db.orders[k], w') && (IsActive(w'.status) ==> IsActive(db.orders[k].status))
  {
    assert OrderOk(r, db, k, db.orders[k]);
    UsedAdvances(db, k, db.orders[k], use, now);
    UsedStaysOk(r, db, k, db.orders[k], use, now);
  }

  lemma UsedAdvances(db: Db, k: string, w: Order, use: OrderUse, now: Time)
    requires OrderUsed(db, k, w, use, now).Ok?
    ensures Advances(w, OrderUsed(db, k, w, use, now).value) && IsActive(w.status)
  {
  }

  lemma UsedStaysOk(r: Rules, db: Db, k: string, w: Order, use: OrderUse, now: Time)
    requires OrderOk(r, db, k, w) && OrderUsed(db, k, w, use, now).Ok?
    requires use.Dispatching? ==> use.minAssignees == r.coreMin
    requires use.CheckingIn? ==> use.checkpoint.id in db.checkpoints && db.checkpoints[use.checkpoint.id] == use.checkpoint
    ensures OrderOk(r, db, k, OrderUsed(db, k, w, use, now).value)
  {
    match use
    case Dispatching(_) =>
      assert DispatchFault(w, db.grids[w.gridId], r.coreMin) == None && w.status == Draft;
    case CheckingIn(_, _) =>
      assert w.status == Dispatched;
    case _ =>
  }

  lemma UseOk(r: Rules, s: Board, k: string, use: OrderUse, now: Time, stamp: Time)
    requires Inv(r, s) && Can(r, s, Use(k, use, now, stamp))
    ensures var s' := Do(r, s, Use(k, use, now, stamp)); Inv(r, s') && OrdersAdvance(s.db, s'.db)
  {
    if k in s.db.orders && OrderUsed(s.db, k, s.db.orders[k], use, now).Ok? {
      UsedOk(r, s.db, k, use, now, stamp);
      var w' := OrderUsed(s.db, k, s.db.orders[k], use, now).value.(updatedAt := stamp);
      OrderReplaced(r, s, k, w');
    }
  }

  lemma OrderReplaced(r: Rules, s: Board, k: string, w': Order)
    requires Inv(r, s) && k in s.db.orders && OrderOk(r, s.db, k, w') && Advances(s.db.orders[k], w')
    requires IsActive(w'.status) ==> IsActive(s.db.orders[k].status)
    ensures var db' := s.db.(orders := s.db.orders[k := w']); Inv(r, s.(db := db')) && OrdersAdvance(s.db, db')
  {
    var db' := s.db.(orders := s.db.orders[k := w']);
    forall j | j in db'.orders ensures OrderOk(r, db', j, db'.orders[j]) {
      assert j != k ==> OrderOk(r, s.db, j, s.db.orders[j]);
    }
    forall i, j | i in db'.orders && j in db'.orders && i != j ensures Spaced(r.window, db'.orders[i], db'.orders[j]) {
      assert Spaced(r.window, s.db.orders[i], s.db.orders[j]);
    }
    OrdersMoveOn(s, db');
  }

  lemma CreateOk(r: Rules, s: Board, w: Order, key: string, now: Time)
    requires Inv(r, s) && Can(r, s, Create(w, key, now))
    ensures Inv(r, Do(r, s, Create(w, key, now))) && OrdersAdvance(s.db, Do(r, s, Create(w, key, now)).db)
  {
    if Creating(s.db, w, key, r.window, now).Created? {
      var db' := OrderCreated(s.db, w, key, r.window, now);
      NewcomerSpaced(r, s.db, w, key, now);
      NewcomerOk(r, s.db, w, key, now);
      OrdersMoveOn(s, db');
    }
    CreateAnswers(r, s, w, key, now);
  }

  lemma NewcomerOk(r: Rules, db: Db, w: Order, key: string, now: Time)
    requires OrdersOk(r, db) && w.id != "" && w.id !in db.orders && w.status == Draft
    requires Creating(db, w, key, r.window, now).Created?
    ensures OrdersOk(r, OrderCreated(db, w, key, r.window, now))
    ensures OrdersAdvance(db, OrderCreated(db, w, key, r.window, now))
  {
    var db' := OrderCreated(db, w, key, r.window, now);
    var w' := db'.orders[w.id];
    assert db'.orders == db.orders[w.id := w'];
    assert OrderOk(r, db', w.id, w');
    forall j | j in db.orders ensures OrderOk(r, db', j, db'.orders[j]) && db'.orders[j] == db.orders[j] {
      assert OrderOk(r, db, j, db.orders[j]);
    }
  }

  lemma CreateAnswers(r: Rules, s: Board, w: Order, key: string, now: Time)
    requires AnswersOk(s)
    ensures AnswersOk(s.(db := OrderCreated(s.db, w, key, r.window, now), answers := AnswersOf(s, w, key, r.window, now)))
  {
  }

  lemma NewcomerSpaced(r: Rules, db: Db, w: Order, key: string, now: Time)
    requires OrdersSpaced(r.window, db) && w.id !in db.orders && w.createdAt == ZERO_TIME
    requires Creating(db, w, key, r.window, now).Created?
    ensures OrdersSpaced(r.window, OrderCreated(db, w, key, r.window, now))
  {
    var db' := OrderCreated(db, w, key, r.window, now);
    forall i, j | i in db'.orders && j in db'.orders && i != j ensures Spaced(r.window, db'.orders[i], db'.orders[j]) {
      if i == w.id {
        assert !Occupies(db.orders[j], w, r.window, now);
      } else if j == w.id {
        assert !Occupies(db.orders[i], w, r.window, now);
      } else {
        assert Spaced(r.window, db.orders[i], db.orders[j]);
      }
    }
  }

  // ------------------------------------------------------------------ equipment

  lemma ItemReplaced(r: Rules, s: Board, k: string, e: Item)
    requires Inv(r, s) && k in s.db.equipment && ItemOk(s.db, e)
    ensures var db' := s.db.(equipment := s.db.equipment[k := e]); Inv(r, s.(db := db')) && OrdersAdvance(s.db, db')
  {
    var db' := s.db.(equipment := s.db.equipment[k := e]);
    forall j | j in db'.equipment ensures ItemOk(db', db'.equipment[j]) {
      assert j != k ==> ItemOk(s.db, s.db.equipment[j]);
      assert Entitled(db', db'.equipment[j].holder, db'.equipment[j].order)
             == Entitled(s.db, db'.equipment[j].holder, db'.equipment[j].order);
    }
    forall j | j in db'.orders ensures OrderOk(r, db', j, db'.orders[j]) {
      assert OrderOk(r, s.db, j, s.db.orders[j]);
    }
    forall c | c in s.pending ensures DecisionOk(db', s.pending[c]) {
      assert DecisionOk(s.db, s.pending[c]);
    }
  }

  lemma ClaimOk(r: Rules, s: Board, k: string, officer: string, priority: int, now: Time)
    requires Inv(r, s)
    ensures var s' := s.(db := ItemClaimed(s.db, k, officer, priority, now)); Inv(r, s') && OrdersAdvance(s.db, s'.db)
  {
    if k in s.db.equipment {
      assert ItemOk(s.db, s.db.equipment[k]);
      NextWellFormed(s.db.equipment[k], ClaimBy(officer, priority, now));
      ItemReplaced(r, s, k, Claimed(s.db.equipment[k], officer, priority, now));
    }
  }

  lemma FinishedOk(r: Rules, s: Board, d: Decision, now: Time)
    requires Inv(r, s) && DecisionOk(s.db, d)
    ensures var s' := s.(db := Finished(s.db, d, now)); Inv(r, s') && OrdersAdvance(s.db, s'.db)
  {
    if d.item in s.db.equipment {
      var e := s.db.equipment[d.item];
      assert ItemOk(s.db, e);
      match d
      case ToRelease(_) =>
        NextWellFormed(e, Release(now));
        ItemReplaced(r, s, d.item, LockReleased(e, now));
      case ToIssue(_, officer, order) =>
        NextWellFormed(e, IssueBy(officer, order, now));
        if IssuedTo(e, officer, order, now).Ok? {
          ItemReplaced(r, s, d.item, IssuedTo(e, officer, order, now).value);
        }
    }
  }

  lemma DecidedOk(db: Db, item: string, officer: string, order: string)
    ensures DecisionOk(db, Decided(db, item, officer, order))
  {
  }

  lemma ReturnOk(r: Rules, s: Board, k: string, officer: string, condition: string, now: Time)
    requires Inv(r, s)
    ensures var s' := s.(db := OrElse(ItemReturned(s.db, k, officer, condition, now), s.db));
            Inv(r, s') && OrdersAdvance(s.db, s'.db)
  {
    if ItemReturned(s.db, k, officer, condition, now).Ok? {
      var e := s.db.equipment[k];
      assert ItemOk(s.db, e);
      NextWellFormed(e, ReturnBy(officer, condition, now));
      ItemReplaced(r, s, k, ReturnedBy(e, officer, condition, now).value);
    }
  }

  // ------------------------------------------------------------------ every move, every run

  lemma OthersOk(r: Rules, s: Board, db': Db)
    requires Inv(r, s) && db'.grids == s.db.grids && db'.checkpoints == s.db.checkpoints && db'.orders == s.db.orders
    requires db'.idem == s.db.idem && db'.equipment == s.db.equipment && s.db.tracks.Keys <= db'.tracks.Keys
    ensures Inv(r, s.(db := db')) && OrdersAdvance(s.db, db')
  {
    OrdersMoveOn(s, db');
    forall j | j in db'.orders ensures OrderOk(r, db', j, db'.orders[j]) {
      assert OrderOk(r, s.db, j, s.db.orders[j]);
    }
  }

  lemma MoveOk(r: Rules, s: Board, m: Move)
    requires Inv(r, s) && Can(r, s, m)
    ensures Inv(r, Do(r, s, m)) && OrdersAdvance(s.db, Do(r, s, m).db)
  {
    match m
    case Create(w, key, now) => CreateOk(r, s, w, key, now);
    case Use(order, use, now, stamp) => UseOk(r, s, order, use, now, stamp);
    case Claim(item, officer, priority, now) => ClaimOk(r, s, item, officer, priority, now);
    case Decide(call, item, officer, order) => DecidedOk(s.db, item, officer, order);
    case Finish(call, now) =>
      assert DecisionOk(s.db, s.pending[call]);
      FinishedOk(r, s, s.pending[call], now);
    case IssueAtOnce(item, officer, order, now) =>
      DecidedOk(s.db, item, officer, order);
      FinishedOk(r, s, Decided(s.db, item, officer, order), now);
    case Return(item, officer, condition, now) => ReturnOk(r, s, item, officer, condition, now);
    case Submit(track) => OthersOk(r, s, TrackSaved(s.db, track));
    case Elsewhere(db) => OthersOk(r, s, db);
  }

  lemma {:induction false} RunOk(r: Rules, trace: seq<Board>, n: nat)
    requires IsRun(r, trace) && n < |trace|
    ensures Inv(r, trace[n])
  {
    if n > 0 {
      RunOk(r, trace, n - 1);
      MoveOk(r, trace[n - 1], MoveAt(r, trace, n - 1));
    }
  }
}
