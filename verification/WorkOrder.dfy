/** The life cycle of a patrol order (`internal/domain/workorder.go`, `internal/domain/grid.go`). */
module WorkOrders {
  import opened Common
  import Tracks

  datatype OrderStatus = Draft | Dispatched | CheckedIn | InProgress | Completed | Verified | Cancelled

  datatype Zone = Core | Buffer | General

  datatype Grid = Grid(id: string, zone: Zone, route: seq<Tracks.Point>)

  datatype Checkpoint = Checkpoint(id: string, gridId: string)

  datatype Order = Order(
    id: string, gridId: string, checkpointId: string, status: OrderStatus, assignees: seq<string>,
    reported: bool, plannedStart: Time, shiftEnd: Time, createdAt: Time, updatedAt: Time)

  datatype OrderError =
    | Terminal | IllegalTransition | AfterShift | OrderNotFound | GridNotFound | NoOrderId | NoGridId
    | GridMismatch | NoAssignees | TooFewAssignees | NotReported | ShiftEndsEarly | CheckpointMismatch
    | CheckpointGridMismatch | NotAssignee | EquipmentOutstanding | TrackMissing

  predicate IsTerminal(s: OrderStatus) {
    s == Verified || s == Cancelled
  }

  /** Whether an order with this status occupies its grid. */
  predicate IsActive(s: OrderStatus) {
    s in {Draft, Dispatched, CheckedIn, InProgress, Completed}
  }

  lemma ActiveUntilTerminal(s: OrderStatus)
    ensures IsActive(s) <==> !IsTerminal(s)
    ensures IsTerminal(s) <==> s in {Verified, Cancelled}
    ensures IsTerminal(s) <==> Successors(s) == []
  {
  }

  function Successors(s: OrderStatus): seq<OrderStatus> {
    match s
    case Draft => [Dispatched, Cancelled]
    case Dispatched => [CheckedIn, Cancelled]
    case CheckedIn => [InProgress, Cancelled]
    case InProgress => [Completed, Cancelled]
    case Completed => [Verified, Cancelled]
    case Verified => []
    case Cancelled => []
  }

  function Moved(w: Order, to: OrderStatus, now: Time): Result<Order, OrderError> {
    if IsTerminal(w.status) then Err(Terminal)
    else if to !in Successors(w.status) then Err(IllegalTransition)
    else Ok(w.(status := to, updatedAt := now))
  }

  /** The rules that hold before an order is dispatched to grid `g`; None when all do. */
  function DispatchFault(w: Order, g: Grid, minAssignees: int): Option<OrderError> {
    if w.id == "" then Some(NoOrderId)
    else if w.gridId == "" then Some(NoGridId)
    else if w.gridId != g.id then Some(GridMismatch)
    else if |w.assignees| == 0 then Some(NoAssignees)
    else if g.zone == Core && |w.assignees| < minAssignees then Some(TooFewAssignees)
    else if g.zone == Core && !w.reported then Some(NotReported)
    else if w.plannedStart != ZERO_TIME && w.shiftEnd != ZERO_TIME && w.shiftEnd <= w.plannedStart
    then Some(ShiftEndsEarly)
    else None
  }

  predicate CanIssue(w: Order) {
    w.status == CheckedIn || w.status == InProgress
  }

  function ReturnFault(w: Order, now: Time): Option<OrderError> {
    if w.status !in {CheckedIn, InProgress, Completed} then Some(IllegalTransition)
    else if w.shiftEnd != ZERO_TIME && now > w.shiftEnd then Some(AfterShift)
    else None
  }

  /** The documented form of the reuse rule, with the boundary inside the window. */
  predicate DuplicateWindow(w: Order, existing: Order, window: Time, now: Time) {
    if !IsActive(existing.status) then false
    else if existing.gridId != w.gridId then false
    else
      var cutoff := now - window;
      existing.createdAt > cutoff || existing.createdAt == cutoff
  }

  /** The form that order creation uses, with the boundary outside. */
  predicate Occupies(existing: Order, w: Order, window: Time, now: Time) {
    existing.gridId == w.gridId && IsActive(existing.status) && now - existing.createdAt < window
  }

  /** The two forms part exactly on an active order of the grid that is one window old to the instant. */
  lemma ReuseFormsDifferIff(w: Order, existing: Order, window: Time, now: Time)
    ensures DuplicateWindow(w, existing, window, now) != Occupies(existing, w, window, now)
            <==> existing.gridId == w.gridId && IsActive(existing.status) && now - existing.createdAt == window
  {
  }

  /** How far an order has come; cancellation ends it from anywhere. */
  function Stage(s: OrderStatus): nat {
    match s
    case Draft => 0
    case Dispatched => 1
    case CheckedIn => 2
    case InProgress => 3
    case Completed => 4
    case Verified => 5
    case Cancelled => 6
  }

  /** What the rest of an order's life can no longer change. */
  ghost predicate Advances(w: Order, w': Order) {
    && w'.id == w.id && w'.gridId == w.gridId && w'.assignees == w.assignees && w'.reported == w.reported
    && w'.plannedStart == w.plannedStart && w'.shiftEnd == w.shiftEnd && w'.createdAt == w.createdAt
    && Stage(w'.status) >= Stage(w.status)
    && (IsTerminal(w.status) ==> w'.status == w.status)
  }

  class WorkOrder {
    const id: string
    const gridId: string
    const assignees: seq<string>
    const reported: bool
    const plannedStart: Time
    const shiftEnd: Time
    const createdAt: Time
    var checkpointId: string
    var status: OrderStatus
    var updatedAt: Time

    constructor Load(w: Order)
      ensures View() == w
    {
      id, gridId, assignees, reported := w.id, w.gridId, w.assignees, w.reported;
      plannedStart, shiftEnd, createdAt := w.plannedStart, w.shiftEnd, w.createdAt;
      checkpointId, status, updatedAt := w.checkpointId, w.status, w.updatedAt;
    }

    function View(): Order
      reads this
    {
      Order(id, gridId, checkpointId, status, assignees, reported, plannedStart, shiftEnd, createdAt, updatedAt)
    }

    method Transition(to: OrderStatus, now: Time) returns (err: Option<OrderError>)
      modifies this
      ensures match Moved(old(View()), to, now)
              case Ok(w) => err == None && View() == w && Advances(old(View()), w)
              case Err(x) => err == Some(x) && View() == old(View())
      ensures err == Some(Terminal) <==> old(status) in {Verified, Cancelled}
      ensures err == None <==>
                match to
                case Draft => false
                case Dispatched => old(status) == Draft
                case CheckedIn => old(status) == Dispatched
                case InProgress => old(status) == CheckedIn
                case Completed => old(status) == InProgress
                case Verified => old(status) == Completed
                case Cancelled => old(status) !in {Verified, Cancelled}
      ensures err == None ==> View() == old(View()).(status := to, updatedAt := now)
    {
      if IsTerminal(status) {
        return Some(Terminal);
      }
      if to !in Successors(status) {
        return Some(IllegalTransition);
      }
      status := to;
      updatedAt := now;
      return None;
    }
  }
}
