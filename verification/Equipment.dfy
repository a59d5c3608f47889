/**
 One numbered piece of patrol gear (`internal/domain/equipment.go`): a preemptive priority
 lock with a wait queue. `Item` is the value that the store keeps; the functions on it say
 what each operation does, and the methods of class `Equipment` are proved against them.
 */
module EquipmentModel {
  import opened Common
  import opened Sorting

  datatype EquipmentStatus = Available | Locked | Issued | Returned | Retired

  const DAMAGED := "damaged"

  datatype QueueEntry = QueueEntry(officer: string, priority: int, claimedAt: Time)

  datatype Item = Item(
    code: string, status: EquipmentStatus, holder: string, priority: int, condition: string,
    order: string, lockedAt: Time, queue: seq<QueueEntry>, updatedAt: Time)

  datatype ClaimResult = Refused | Granted(holder: string) | Queued(position: nat)

  datatype EquipmentError = NotLocked | NotIssued | NotHolder | NotFound

  /** The comparison handed to `sort.SliceStable`. */
  predicate Ahead(a: QueueEntry, b: QueueEntry) {
    if a.priority != b.priority then a.priority > b.priority else a.claimedAt < b.claimedAt
  }

  function SortedQueue(q: seq<QueueEntry>): (r: seq<QueueEntry>)
    ensures |r| == |q|
  {
    StableSort(q, Ahead)
  }

  /** The holder as the entry it becomes when it is displaced. */
  function HolderEntry(e: Item): QueueEntry {
    QueueEntry(e.holder, e.priority, e.lockedAt)
  }

  /** Nobody in the queue has a higher priority, nor the same with an earlier reading or with the same and a place before. */
  ghost predicate FirstInLine(q: seq<QueueEntry>, n: nat)
    requires n < |q|
  {
    forall j :: 0 <= j < |q| ==>
      || q[j].priority < q[n].priority
      || (q[j].priority == q[n].priority && q[j].claimedAt > q[n].claimedAt)
      || (q[j].priority == q[n].priority && q[j].claimedAt == q[n].claimedAt && j >= n)
  }

  /** The item has gone from `e` to the first in line, or is free. */
  ghost predicate PassedOn(e: Item, e': Item, now: Time) {
    && e'.order == "" && e'.code == e.code
    && (e.queue == [] ==>
          e'.status == Available && e'.holder == "" && e'.priority == 0 && e'.lockedAt == ZERO_TIME && e'.queue == [])
    && (e.queue != [] ==> exists n :: 0 <= n < |e.queue| && FirstInLine(e.queue, n) && TakenBy(e.queue, n, e', now))
  }

  ghost predicate TakenBy(q: seq<QueueEntry>, n: nat, e: Item, now: Time)
    requires n < |q|
  {
    && e.status == Locked && e.holder == q[n].officer && e.priority == q[n].priority && e.lockedAt == now
    && multiset(e.queue) == multiset(q) - multiset{q[n]}
  }

  function Promoted(e: Item, now: Time): Item {
    if e.queue == [] then
      e.(status := Available, holder := "", priority := 0, lockedAt := ZERO_TIME)
    else
      var q := SortedQueue(e.queue);
      e.(status := Locked, holder := q[0].officer, priority := q[0].priority, lockedAt := now, queue := q[1..])
  }

  function Claimed(e: Item, officer: string, priority: int, now: Time): Item {
    match e.status
    case Retired => e
    case Available =>
      e.(status := Locked, holder := officer, priority := priority, lockedAt := now, updatedAt := now)
    case _ =>
      if e.status == Locked && priority > e.priority then
        e.(holder := officer, priority := priority, lockedAt := now, updatedAt := now,
           queue := [HolderEntry(e)] + e.queue)
      else
        e.(queue := SortedQueue(e.queue + [QueueEntry(officer, priority, now)]), updatedAt := now)
  }

  function IssuedTo(e: Item, officer: string, order: string, now: Time): Result<Item, EquipmentError> {
    if e.status != Locked then Err(NotLocked)
    else if e.holder != officer then Err(NotHolder)
    else Ok(e.(status := Issued, order := order, updatedAt := now))
  }

  function LockReleased(e: Item, now: Time): Item {
    if e.status != Locked then e else Promoted(e.(order := ""), now)
  }

  function ReturnedBy(e: Item, officer: string, condition: string, now: Time): Result<Item, EquipmentError> {
    if e.status != Issued then Err(NotIssued)
    else if e.holder != officer then Err(NotHolder)
    else Ok(Promoted(
              e.(status := if condition == DAMAGED then Retired else Returned,
                 condition := condition, order := "", updatedAt := now), now))
  }

  class Equipment {
    const code: string
    var status: EquipmentStatus
    var holder: string
    var priority: int
    var condition: string
    var order: string
    var lockedAt: Time
    var queue: seq<QueueEntry>
    var updatedAt: Time

    constructor Load(e: Item)
      ensures View() == e
    {
      code, status, holder, priority, condition := e.code, e.status, e.holder, e.priority, e.condition;
      order, lockedAt, queue, updatedAt := e.order, e.lockedAt, e.queue, e.updatedAt;
    }

    function View(): Item
      reads this
    {
      Item(code, status, holder, priority, condition, order, lockedAt, queue, updatedAt)
    }

    method Claim(officer: string, prio: int, now: Time) returns (res: ClaimResult)
      modifies this
      ensures View() == Claimed(old(View()), officer, prio, now)
      ensures res.Refused? <==> old(status) == Retired
      ensures res.Granted? <==> old(status) == Available || (old(status) == Locked && prio > old(priority))
      ensures res.Granted? ==> res.holder == officer == holder
      ensures res.Queued? ==> 1 <= res.position <= |queue| && queue[res.position - 1].officer == officer
      ensures res.Queued? ==> forall k :: 0 <= k < res.position - 1 ==> queue[k].officer != officer
    {
      if status == Retired {
        return Refused;
      }
      if status == Available {
        status, holder, priority, lockedAt, updatedAt := Locked, officer, prio, now, now;
        return Granted(officer);
      }
      if status == Locked && prio > priority {
        queue := [QueueEntry(holder, priority, lockedAt)] + queue;
        holder, priority, lockedAt, updatedAt := officer, prio, now, now;
        return Granted(officer);
      }
      var position := Enqueue(QueueEntry(officer, prio, now));
      updatedAt := now;
      return Queued(position);
    }

    /** The end of `Claim`: the entry takes its place among those that wait. */
    method Enqueue(entry: QueueEntry) returns (position: nat)
      modifies this`queue
      ensures queue == SortedQueue(old(queue) + [entry])
      ensures 1 <= position <= |queue| && queue[position - 1].officer == entry.officer
      ensures forall k :: 0 <= k < position - 1 ==> queue[k].officer != entry.officer
    {
      queue := queue + [entry];
      ghost var appended := queue;
      SortQueue();
      position := QueuePosition(entry.officer);
      assert position > 0 by {
        StableSortMembers(appended, Ahead);
        assert entry in appended;
        assert entry in queue;
      }
    }

    method Issue(officer: string, orderId: string, now: Time) returns (err: Option<EquipmentError>)
      modifies this
      ensures match IssuedTo(old(View()), officer, orderId, now)
              case Ok(e) => err == None && View() == e
              case Err(x) => err == Some(x) && View() == old(View())
      ensures err == None <==> old(status) == Locked && old(holder) == officer
      ensures err == Some(NotLocked) <==> old(status) != Locked
      ensures err == None ==> View() == old(View()).(status := Issued, order := orderId, updatedAt := now)
    {
      if status != Locked {
        return Some(NotLocked);
      }
      if holder != officer {
        return Some(NotHolder);
      }
      status, order, updatedAt := Issued, orderId, now;
      return None;
    }

    method ReleaseLock(now: Time)
      modifies this
      ensures View() == LockReleased(old(View()), now)
      ensures if old(status) == Locked then PassedOn(old(View()), View(), now) else View() == old(View())
    {
      if status != Locked {
        return;
      }
      order := "";
      PromotedPassesOn(View(), now);
      PromoteNext(now);
    }

    method Return(officer: string, cond: string, now: Time) returns (err: Option<EquipmentError>)
      modifies this
      ensures match ReturnedBy(old(View()), officer, cond, now)
              case Ok(e) => err == None && View() == e
              case Err(x) => err == Some(x) && View() == old(View())
      ensures err == None <==> old(status) == Issued && old(holder) == officer
      ensures err == Some(NotIssued) <==> old(status) != Issued
      ensures err == None ==> condition == cond && updatedAt == now && PassedOn(old(View()), View(), now)
    {
      if status != Issued {
        return Some(NotIssued);
      }
      if holder != officer {
        return Some(NotHolder);
      }
      status, condition, order, updatedAt := Returned, cond, "", now;
      if cond == DAMAGED {
        status := Retired;
      }
      PromotedPassesOn(View(), now);
      PromoteNext(now);
      return None;
    }

    method PromoteNext(now: Time)
      modifies this
      ensures View() == Promoted(old(View()), now)
    {
      if |queue| == 0 {
        status, holder, priority, lockedAt := Available, "", 0, ZERO_TIME;
        return;
      }
      SortQueue();
      var next := queue[0];
      queue := queue[1..];
      status, holder, priority, lockedAt := Locked, next.officer, next.priority, now;
    }

    /** A call of `sort.SliceStable`: in order, and ties as they were. */
    method SortQueue()
      modifies this`queue
      ensures Ordered(queue, Ahead) && Stable(queue, old(queue), Ahead)
      ensures queue == SortedQueue(old(queue))
    {
      AheadIsStrictWeak();
      StableSortOrdered(queue, Ahead);
      StableSortStable(queue, Ahead);
      queue := SortedQueue(queue);
    }

    /** The 1-based place of the officer's first entry, or 0. */
    method QueuePosition(officer: string) returns (position: nat)
      ensures position == 0 <==> forall q :: q in queue ==> q.officer != officer
      ensures position > 0 ==> position <= |queue| && queue[position - 1].officer == officer
      ensures forall k :: 0 <= k < position - 1 ==> queue[k].officer != officer
    {
      for i := 0 to |queue|
        invariant forall k :: 0 <= k < i ==> queue[k].officer != officer
      {
        if queue[i].officer == officer {
          return i + 1;
        }
      }
      return 0;
    }
  }

  lemma AheadIsStrictWeak()
    ensures StrictWeak(Ahead)
  {
  }

  /** The sorted queue is the only arrangement that is in order and keeps ties as they were. */
  lemma SortedQueueUnique(q: seq<QueueEntry>, r: seq<QueueEntry>)
    ensures Ordered(r, Ahead) && Stable(r, q, Ahead) <==> r == SortedQueue(q)
  {
    AheadIsStrictWeak();
    StableSortOrdered(q, Ahead);
    StableSortStable(q, Ahead);
    if Ordered(r, Ahead) && Stable(r, q, Ahead) {
      StableSortUnique(r, SortedQueue(q), Ahead);
    }
  }

  /** The head of the sorted queue is the first in line. */
  lemma HeadIsFirstInLine(q: seq<QueueEntry>) returns (n: nat)
    requires q != []
    ensures n < |q| && FirstInLine(q, n) && SortedQueue(q)[0] == q[n]
  {
    var s := SortedQueue(q);
    AheadIsStrictWeak();
    StableSortOrdered(q, Ahead);
    StableSortStable(q, Ahead);
    StableSortMembers(q, Ahead);
    assert s[0] in s;
    n := FirstTie(q, s[0]);
    TiesBegin(s, s[0], Ahead, 0);
    TiesBegin(q, s[0], Ahead, n);
    forall j | 0 <= j < |q| ensures !Ahead(q[j], s[0]) {
      assert q[j] in s;
    }
  }

  lemma FirstTie(q: seq<QueueEntry>, z: QueueEntry) returns (n: nat)
    requires z in q
    ensures n < |q| && Tied(q[n], z, Ahead) && forall j :: 0 <= j < n ==> !Tied(q[j], z, Ahead)
  {
    n := 0;
    while !Tied(q[n], z, Ahead)
      invariant n < |q| && z in q[n..] && forall j :: 0 <= j < n ==> !Tied(q[j], z, Ahead)
      decreases |q| - n
    {
      assert q[n..] == [q[n]] + q[n + 1..];
      n := n + 1;
    }
  }

  /** Who has the item after a claim, and who waits. */
  lemma ClaimTakesOrWaits(e: Item, officer: string, priority: int, now: Time)
    ensures var e' := Claimed(e, officer, priority, now);
            && (e.status == Retired ==> e' == e)
            && (e.status == Available || (e.status == Locked && priority > e.priority) ==>
                  && e'.status == Locked && e'.holder == officer && e'.priority == priority && e'.lockedAt == now
                  && e'.queue == (if e.status == Locked then [QueueEntry(e.holder, e.priority, e.lockedAt)] else []) + e.queue)
            && (e.status in {Issued, Returned} || (e.status == Locked && priority <= e.priority) ==>
                  && e' == e.(queue := e'.queue, updatedAt := now)
                  && multiset(e'.queue) == multiset(e.queue) + multiset{QueueEntry(officer, priority, now)})
  {
    StableSortMultiset(e.queue + [QueueEntry(officer, priority, now)], Ahead);
  }

  /** A promotion gives the item to the first in line, or frees it. */
  lemma PromotedPassesOn(e: Item, now: Time)
    requires e.order == ""
    ensures PassedOn(e, Promoted(e, now), now)
  {
    if e.queue != [] {
      var n := HeadIsFirstInLine(e.queue);
      StableSortMultiset(e.queue, Ahead);
      var s := SortedQueue(e.queue);
      assert s == [s[0]] + s[1..];
      assert TakenBy(e.queue, n, Promoted(e, now), now);
    }
  }
}
