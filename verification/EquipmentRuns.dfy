/** What holds over whole runs of claims, issues, releases and returns of one item. */
module EquipmentRuns {
  import opened Common
  import opened Sorting
  import opened EquipmentModel

  datatype Event =
    | ClaimBy(officer: string, priority: int, now: Time)
    | IssueBy(officer: string, order: string, now: Time)
    | Release(now: Time)
    | ReturnBy(officer: string, condition: string, now: Time)

  function Next(e: Item, ev: Event): Item {
    match ev
    case ClaimBy(officer, priority, now) => Claimed(e, officer, priority, now)
    case IssueBy(officer, order, now) => OrElse(IssuedTo(e, officer, order, now), e)
    case Release(now) => LockReleased(e, now)
    case ReturnBy(officer, condition, now) => OrElse(ReturnedBy(e, officer, condition, now), e)
  }

  function Run(e: Item, evs: seq<Event>): Item {
    if evs == [] then e else Next(Run(e, evs[..|evs| - 1]), evs[|evs| - 1])
  }

  predicate Fresh(e: Item) {
    e.status == Available && e.holder == "" && e.priority == 0 && e.order == "" && e.lockedAt == ZERO_TIME && e.queue == []
  }

  // ------------------------------------------------------------------ invariants

  ghost predicate Descending(q: seq<QueueEntry>) {
    forall i, j :: 0 <= i < j < |q| ==> q[i].priority >= q[j].priority
  }

  ghost predicate WellFormed(e: Item) {
    && e.status in {Available, Locked, Issued}
    && (e.status == Available ==> e.queue == [] && e.holder == "" && e.priority == 0 && e.lockedAt == ZERO_TIME)
    && Descending(e.queue)
    && (e.status == Locked ==> forall q :: q in e.queue ==> q.priority <= e.priority)
    && (e.status != Issued ==> e.order == "")
  }

  lemma SortedQueueDescending(q: seq<QueueEntry>)
    ensures Descending(SortedQueue(q))
    ensures forall x :: x in SortedQueue(q) <==> x in q
  {
    AheadIsStrictWeak();
    StableSortOrdered(q, Ahead);
    StableSortMembers(q, Ahead);
  }

  lemma PromotedWellFormed(e: Item, now: Time)
    requires e.order == ""
    ensures WellFormed(Promoted(e, now))
  {
    SortedQueueDescending(e.queue);
    var q := SortedQueue(e.queue);
    if e.queue != [] {
      assert forall x :: x in q[1..] ==> x.priority <= q[0].priority;
    }
  }

  lemma NextWellFormed(e: Item, ev: Event)
    requires WellFormed(e)
    ensures WellFormed(Next(e, ev))
  {
    match ev
    case ClaimBy(officer, priority, now) =>
      SortedQueueDescending(e.queue + [QueueEntry(officer, priority, now)]);
    case IssueBy(_, _, _) =>
    case Release(now) =>
      PromotedWellFormed(e.(order := ""), now);
    case ReturnBy(officer, condition, now) =>
      PromotedWellFormed(
        e.(status := if condition == DAMAGED then Retired else Returned,
           condition := condition, order := "", updatedAt := now), now);
  }

  /** The item is out exactly when it names an order. */
  predicate NamesOrderIffIssued(e: Item) {
    e.status == Issued <==> e.order != ""
  }

  predicate IssuesNamed(ev: Event) {
    ev.IssueBy? ==> ev.order != ""
  }

  lemma NextNamesOrder(e: Item, ev: Event)
    requires NamesOrderIffIssued(e) && IssuesNamed(ev) && e.status != Retired
    ensures NamesOrderIffIssued(Next(e, ev))
  {
    match ev
    case ClaimBy(_, _, _) =>
    case IssueBy(_, _, _) =>
    case Release(_) =>
    case ReturnBy(_, _, _) =>
  }

  /** Every state reached from a fresh item, whatever the calls and the clock readings. */
  lemma {:induction false} RunWellFormed(e: Item, evs: seq<Event>)
    requires Fresh(e)
    ensures WellFormed(Run(e, evs))
    ensures (forall ev :: ev in evs ==> IssuesNamed(ev)) ==> NamesOrderIffIssued(Run(e, evs))
  {
    if evs != [] {
      var front, last := evs[..|evs| - 1], evs[|evs| - 1];
      RunWellFormed(e, front);
      NextWellFormed(Run(e, front), last);
      if forall ev :: ev in evs ==> IssuesNamed(ev) {
        assert last in evs && forall ev :: ev in front ==> ev in evs;
        NextNamesOrder(Run(e, front), last);
      }
    }
  }

  /**
   No operation retires an item, not even a damaged return, and none brings a retired item
   back: retirement comes only from an administrative upsert.
   */
  lemma {:induction false} RunRetiredIff(e: Item, evs: seq<Event>)
    ensures Run(e, evs).status == Retired <==> e.status == Retired
    ensures e.status == Retired ==> Run(e, evs) == e
  {
    if evs != [] {
      RunRetiredIff(e, evs[..|evs| - 1]);
    }
  }

  /** What a damaged return does instead: the item is free again, or with the next in line. */
  lemma DamagedReturnRecirculates(e: Item, officer: string, now: Time)
    requires e.status == Issued && e.holder == officer
    ensures ReturnedBy(e, officer, DAMAGED, now).Ok?
    ensures var r := ReturnedBy(e, officer, DAMAGED, now).value;
            && r.condition == DAMAGED
            && (e.queue == [] <==> r.status == Available)
            && (e.queue != [] <==> r.status == Locked)
            && (e.queue != [] ==> HolderEntry(r) == SortedQueue(e.queue)[0].(claimedAt := now))
  {
  }

  // ------------------------------------------------------------------ conservation

  datatype Bid = Bid(officer: string, priority: int)

  function BidOf(q: QueueEntry): Bid {
    Bid(q.officer, q.priority)
  }

  /** How often the bid `b` occurs in `s`. */
  function Count(s: seq<QueueEntry>, b: Bid): nat {
    if s == [] then 0 else Count(s[..|s| - 1], b) + One(BidOf(s[|s| - 1]), b)
  }

  function One(a: Bid, b: Bid): nat {
    if a == b then 1 else 0
  }

  /** The claims that are neither given up nor given back: the holder, then the queue. */
  function Outstanding(e: Item): seq<QueueEntry> {
    if e.status == Locked || e.status == Issued then [HolderEntry(e)] + e.queue else e.queue
  }

  lemma {:induction false} CountPrepend(h: QueueEntry, s: seq<QueueEntry>, b: Bid)
    ensures Count([h] + s, b) == One(BidOf(h), b) + Count(s, b)
  {
    if s == [] {
      assert [h] + s == [h];
      assert Count([h], b) == Count([], b) + One(BidOf(h), b);
    } else {
      assert ([h] + s)[..|s|] == [h] + s[..|s| - 1];
      CountPrepend(h, s[..|s| - 1], b);
    }
  }

  lemma CountAppend(s: seq<QueueEntry>, x: QueueEntry, b: Bid)
    ensures Count(s + [x], b) == Count(s, b) + One(BidOf(x), b)
  {
    assert (s + [x])[..|s|] == s;
  }

  lemma {:induction false} CountInsert(s: seq<QueueEntry>, x: QueueEntry, b: Bid)
    ensures Count(Insert(s, x, Ahead), b) == Count(s, b) + One(BidOf(x), b)
  {
    if s == [] || !Ahead(x, s[|s| - 1]) {
      CountAppend(s, x, b);
    } else {
      CountInsert(s[..|s| - 1], x, b);
      CountAppend(Insert(s[..|s| - 1], x, Ahead), s[|s| - 1], b);
    }
  }

  lemma {:induction false} CountSorted(s: seq<QueueEntry>, b: Bid)
    ensures Count(SortedQueue(s), b) == Count(s, b)
  {
    if s != [] {
      CountSorted(s[..|s| - 1], b);
      CountInsert(SortedQueue(s[..|s| - 1]), s[|s| - 1], b);
    }
  }

  lemma CountPromoted(e: Item, now: Time, b: Bid)
    ensures Count(Outstanding(Promoted(e, now)), b) == Count(e.queue, b)
  {
    if e.queue != [] {
      var q := SortedQueue(e.queue);
      CountSorted(e.queue, b);
      assert q == [q[0]] + q[1..];
      CountPrepend(q[0], q[1..], b);
      CountPrepend(HolderEntry(Promoted(e, now)), q[1..], b);
    }
  }

  function Gained(ev: Event, b: Bid): nat {
    if ev.ClaimBy? then One(Bid(ev.officer, ev.priority), b) else 0
  }

  /** What one event takes away: the holder, at a release of a lock or a successful return. */
  function Lost(e: Item, ev: Event, b: Bid): nat {
    if (ev.Release? && e.status == Locked) || (ev.ReturnBy? && e.status == Issued && e.holder == ev.officer)
    then One(Bid(e.holder, e.priority), b) else 0
  }

  lemma ClaimCounts(e: Item, officer: string, priority: int, now: Time, b: Bid)
    requires WellFormed(e)
    ensures Count(Outstanding(Claimed(e, officer, priority, now)), b)
            == Count(Outstanding(e), b) + One(Bid(officer, priority), b)
  {
    var x := QueueEntry(officer, priority, now);
    if e.status == Available {
      assert Outstanding(e) == [] && Outstanding(Claimed(e, officer, priority, now)) == [x] + [];
      CountPrepend(x, [], b);
    } else if e.status == Locked && priority > e.priority {
      assert Outstanding(Claimed(e, officer, priority, now)) == [x] + Outstanding(e);
      CountPrepend(x, Outstanding(e), b);
    } else {
      WaitingClaimCounts(e, x, b);
    }
  }

  lemma WaitingClaimCounts(e: Item, x: QueueEntry, b: Bid)
    requires e.status == Issued || (e.status == Locked && x.priority <= e.priority)
    ensures Count(Outstanding(Claimed(e, x.officer, x.priority, x.claimedAt)), b) == Count(Outstanding(e), b) + One(BidOf(x), b)
  {
    var h, line := HolderEntry(e), e.queue + [x];
    assert Outstanding(e) == [h] + e.queue;
    assert Outstanding(Claimed(e, x.officer, x.priority, x.claimedAt)) == [h] + SortedQueue(line);
    CountSorted(line, b);
    CountAppend(e.queue, x, b);
    CountPrepend(h, e.queue, b);
    CountPrepend(h, SortedQueue(line), b);
  }

  lemma NextConserves(e: Item, ev: Event, b: Bid)
    requires WellFormed(e)
    ensures Count(Outstanding(Next(e, ev)), b) + Lost(e, ev, b) == Count(Outstanding(e), b) + Gained(ev, b)
  {
    match ev
    case ClaimBy(officer, priority, now) =>
      ClaimCounts(e, officer, priority, now, b);
    case IssueBy(_, _, _) =>
    case Release(now) =>
      if e.status == Locked {
        CountPrepend(HolderEntry(e), e.queue, b);
        CountPromoted(e.(order := ""), now, b);
      }
    case ReturnBy(officer, condition, now) =>
      if e.status == Issued && e.holder == officer {
        CountPrepend(HolderEntry(e), e.queue, b);
        CountPromoted(
          e.(status := if condition == DAMAGED then Retired else Returned,
             condition := condition, order := "", updatedAt := now), now, b);
      }
  }

  function TotalGained(evs: seq<Event>, b: Bid): nat {
    if evs == [] then 0 else TotalGained(evs[..|evs| - 1], b) + Gained(evs[|evs| - 1], b)
  }

  function TotalLost(e: Item, evs: seq<Event>, b: Bid): nat {
    if evs == [] then 0
    else TotalLost(e, evs[..|evs| - 1], b) + Lost(Run(e, evs[..|evs| - 1]), evs[|evs| - 1], b)
  }

  /** Over any run of a fresh item, bid by bid: outstanding = claims - releases - returns. */
  lemma {:induction false} RunConserves(e: Item, evs: seq<Event>, b: Bid)
    requires Fresh(e)
    ensures Count(Outstanding(Run(e, evs)), b) == TotalGained(evs, b) - TotalLost(e, evs, b)
  {
    if evs != [] {
      var front := evs[..|evs| - 1];
      RunConserves(e, front, b);
      RunWellFormed(e, front);
      NextConserves(Run(e, front), evs[|evs| - 1], b);
    }
  }

  // ------------------------------------------------------------------ claims refine a stable sort

  predicate Higher(a: QueueEntry, b: QueueEntry) {
    a.priority > b.priority
  }

  function ClaimEvents(claims: seq<QueueEntry>): (r: seq<Event>)
    ensures |r| == |claims|
  {
    seq(|claims|, i requires 0 <= i < |claims| => ClaimBy(claims[i].officer, claims[i].priority, claims[i].claimedAt))
  }

  /** Claims of equal priority come with clock readings that do not go back. */
  ghost predicate ClockedInOrder(claims: seq<QueueEntry>) {
    forall i, j :: 0 <= i < j < |claims| && claims[i].priority == claims[j].priority ==>
      claims[i].claimedAt <= claims[j].claimedAt
  }

  lemma ClaimEventsFront(claims: seq<QueueEntry>)
    requires claims != []
    ensures ClaimEvents(claims)[..|claims| - 1] == ClaimEvents(claims[..|claims| - 1])
  {
  }

  lemma {:induction false} ClaimsKeepLock(e: Item, claims: seq<QueueEntry>)
    requires Fresh(e)
    ensures Run(e, ClaimEvents(claims)).status == if claims == [] then Available else Locked
  {
    if claims != [] {
      ClaimEventsFront(claims);
      ClaimsKeepLock(e, claims[..|claims| - 1]);
    }
  }

  /** One more claim is one more insertion into holder followed by queue. */
  lemma ClaimInserts(e: Item, c: QueueEntry)
    requires e.status == Locked && Ordered(Outstanding(e), Ahead)
    requires forall q :: q in Outstanding(e) && q.priority == c.priority ==> q.claimedAt <= c.claimedAt
    ensures Outstanding(Claimed(e, c.officer, c.priority, c.claimedAt)) == Insert(Outstanding(e), c, Ahead)
  {
    var out := Outstanding(e);
    assert out[0] == HolderEntry(e) && forall i :: 0 <= i < |e.queue| ==> e.queue[i] == out[i + 1];
    if c.priority > e.priority {
      forall i | 0 <= i < |out| ensures Ahead(c, out[i]) {
        assert i > 0 ==> !Ahead(out[i], out[0]);
      }
      InsertFront(out, c, Ahead);
    } else {
      assert HolderEntry(e) in out;
      InsertBehindFirst(HolderEntry(e), e.queue, c, Ahead);
      StableSortFixed(e.queue, Ahead);
      assert (e.queue + [c])[..|e.queue|] == e.queue;
    }
  }

  /** The first claim on a free item, or one more on a locked one, is an insertion by priority. */
  lemma ClaimInsertsByPriority(e: Item, out: seq<QueueEntry>, c: QueueEntry)
    requires Outstanding(e) == out && Ordered(out, Ahead)
    requires if out == [] then e.status == Available && e.queue == [] else e.status == Locked
    requires forall q :: q in out && q.priority == c.priority ==> q.claimedAt <= c.claimedAt
    ensures Outstanding(Claimed(e, c.officer, c.priority, c.claimedAt)) == Insert(out, c, Higher)
    ensures Ordered(Insert(out, c, Higher), Ahead)
  {
    assert forall i :: 0 <= i < |out| ==> out[i] in out;
    InsertAgrees(out, c, Higher, Ahead);
    AheadIsStrictWeak();
    InsertOrdered(out, c, Ahead);
    if out != [] {
      ClaimInserts(e, c);
    }
  }

  /**
   Granting, preempting to the front and appending-then-sorting together refine one stable
   sort: holder followed by queue is the claims by descending priority, first come first.
   */
  lemma {:induction false} ClaimsRefineStableSort(e: Item, claims: seq<QueueEntry>)
    requires Fresh(e) && ClockedInOrder(claims)
    ensures Outstanding(Run(e, ClaimEvents(claims))) == StableSort(claims, Higher)
    ensures Ordered(StableSort(claims, Higher), Ahead)
  {
    if claims != [] {
      var front := claims[..|claims| - 1];
      ClaimEventsFront(claims);
      ClaimsRefineStableSort(e, front);
      ClaimsKeepLock(e, front);
      ReadingsBefore(claims);
      ClaimInsertsByPriority(Run(e, ClaimEvents(front)), StableSort(front, Higher), claims[|claims| - 1]);
    }
  }

  lemma ReadingsBefore(claims: seq<QueueEntry>)
    requires claims != [] && ClockedInOrder(claims)
    ensures forall x :: x in StableSort(claims[..|claims| - 1], Higher) && x.priority == claims[|claims| - 1].priority
              ==> x.claimedAt <= claims[|claims| - 1].claimedAt
  {
    StableSortMembers(claims[..|claims| - 1], Higher);
  }

  /** What `StableSort(claims, Higher)` is: the only first-come arrangement by priority. */
  lemma FirstComeByPriority(claims: seq<QueueEntry>, r: seq<QueueEntry>)
    ensures Descending(r) && Stable(r, claims, Higher) <==> r == StableSort(claims, Higher)
  {
    assert StrictWeak(Higher);
    StableSortOrdered(claims, Higher);
    StableSortStable(claims, Higher);
    if Descending(r) && Stable(r, claims, Higher) {
      StableSortUnique(r, StableSort(claims, Higher), Higher);
    }
  }

  // ------------------------------------------------------------------ order of arrival

  /** Who stands where, without the clock readings. */
  ghost predicate SameStanding(r: seq<QueueEntry>, s: seq<QueueEntry>) {
    |r| == |s| && forall i :: 0 <= i < |r| ==> BidOf(r[i]) == BidOf(s[i])
  }

  lemma {:induction false} CountMember(s: seq<QueueEntry>, b: Bid)
    ensures Count(s, b) > 0 <==> exists i :: 0 <= i < |s| && BidOf(s[i]) == b
  {
    if s != [] {
      var front := s[..|s| - 1];
      CountMember(front, b);
      if Count(front, b) > 0 {
        var i :| 0 <= i < |front| && BidOf(front[i]) == b;
        assert BidOf(s[i]) == b;
      }
      if i :| 0 <= i < |s| && BidOf(s[i]) == b {
        assert i < |s| - 1 ==> BidOf(front[i]) == b;
      }
    }
  }

  lemma {:induction false} StandingFromCounts(r: seq<QueueEntry>, s: seq<QueueEntry>)
    requires Descending(r) && Descending(s) && forall b :: Count(r, b) == Count(s, b)
    requires forall i, j :: 0 <= i < |r| && 0 <= j < |r| && r[i].priority == r[j].priority ==> r[i].officer == r[j].officer
    ensures SameStanding(r, s)
    decreases |r|
  {
    if s != [] {
      CountMember(r, BidOf(s[|s| - 1]));
    }
    if r != [] {
      var x := BidOf(r[|r| - 1]);
      CountMember(s, x);
      var y := BidOf(s[|s| - 1]);
      var i :| 0 <= i < |r| && BidOf(r[i]) == y;
      var j :| 0 <= j < |s| && BidOf(s[j]) == x;
      var front, front' := r[..|r| - 1], s[..|s| - 1];
      assert x == y;
      forall b ensures Count(front, b) == Count(front', b) {
        assert Count(r, b) == Count(s, b);
      }
      StandingFromCounts(front, front');
      assert forall k :: 0 <= k < |front| ==> r[k] == front[k] && s[k] == front'[k];
    }
  }

  lemma {:induction false} ClaimTotals(e: Item, claims: seq<QueueEntry>, b: Bid)
    ensures TotalGained(ClaimEvents(claims), b) == Count(claims, b) && TotalLost(e, ClaimEvents(claims), b) == 0
  {
    if claims != [] {
      ClaimEventsFront(claims);
      ClaimTotals(e, claims[..|claims| - 1], b);
    }
  }

  lemma OutstandingAfterClaims(e: Item, claims: seq<QueueEntry>)
    requires Fresh(e)
    ensures var out := Outstanding(Run(e, ClaimEvents(claims)));
            Descending(out) && forall b :: Count(out, b) == Count(claims, b)
  {
    RunWellFormed(e, ClaimEvents(claims));
    ClaimsKeepLock(e, claims);
    forall b ensures Count(Outstanding(Run(e, ClaimEvents(claims))), b) == Count(claims, b) {
      RunConserves(e, ClaimEvents(claims), b);
      ClaimTotals(e, claims, b);
    }
  }

  /**
   The order in which claims arrive, and the clock, do not matter when each priority
   belongs to one officer: same holder, same queue.
   */
  lemma ClaimOrderIrrelevant(e: Item, first: seq<QueueEntry>, second: seq<QueueEntry>)
    requires Fresh(e) && forall b :: Count(first, b) == Count(second, b)
    requires forall i, j :: 0 <= i < |first| && 0 <= j < |first| && first[i].priority == first[j].priority ==>
               first[i].officer == first[j].officer
    ensures SameStanding(Outstanding(Run(e, ClaimEvents(first))), Outstanding(Run(e, ClaimEvents(second))))
  {
    OutstandingAfterClaims(e, first);
    OutstandingAfterClaims(e, second);
    var r, s := Outstanding(Run(e, ClaimEvents(first))), Outstanding(Run(e, ClaimEvents(second)));
    forall i, j | 0 <= i < |r| && 0 <= j < |r| && r[i].priority == r[j].priority
      ensures r[i].officer == r[j].officer
    {
      CountMember(r, BidOf(r[i]));
      CountMember(r, BidOf(r[j]));
      CountMember(first, BidOf(r[i]));
      CountMember(first, BidOf(r[j]));
    }
    StandingFromCounts(r, s);
  }

  // ------------------------------------------------------------------ draining

  /** Two ways to let the holder go: drop the lock, or issue to the holder and take it back. */
  datatype Handover = Drop(now: Time) | Serve(order: string, issued: Time, condition: string, now: Time)

  function HandedOver(e: Item, h: Handover): Item {
    match h
    case Drop(now) => Next(e, Release(now))
    case Serve(order, issued, condition, now) =>
      Next(Next(e, IssueBy(e.holder, order, issued)), ReturnBy(e.holder, condition, now))
  }

  function Drained(e: Item, hs: seq<Handover>): Item {
    if hs == [] then e else HandedOver(Drained(e, hs[..|hs| - 1]), hs[|hs| - 1])
  }

  /** One handover passes a locked item to the first of its sorted queue, or frees it. */
  lemma HandoverPasses(e: Item, h: Handover)
    requires e.status == Locked
    ensures var d, q := HandedOver(e, h), SortedQueue(e.queue);
            if e.queue == [] then d.status == Available && d.holder == "" && d.queue == []
            else d.status == Locked && d.holder == q[0].officer && d.priority == q[0].priority && d.queue == q[1..]
  {
  }

  /** After `k` handovers of an item whose sorted queue was `q`: the k-th holds, or the item is free. */
  ghost predicate HandedDown(d: Item, q: seq<QueueEntry>, k: nat) {
    && (k == |q| + 1 ==> d.status == Available && d.holder == "" && d.queue == [])
    && (1 <= k <= |q| ==> d.status == Locked && d.holder == q[k - 1].officer
                          && d.priority == q[k - 1].priority && d.queue == q[k..])
  }

  /**
   With no claim in between, the k-th entry of the sorted queue holds after exactly k
   handovers, and one more than the queue is long leaves the item free.
   */
  lemma {:induction false} DrainInOrder(e: Item, hs: seq<Handover>)
    requires e.status == Locked && |hs| <= |e.queue| + 1
    ensures HandedDown(Drained(e, hs), SortedQueue(e.queue), |hs|)
  {
    if hs != [] {
      var k := |hs| - 1;
      DrainInOrder(e, hs[..k]);
      if k == 0 {
        FirstHandover(e, hs[k]);
      } else {
        NextHandover(e.queue, Drained(e, hs[..k]), hs[k], k);
      }
    }
  }

  lemma FirstHandover(e: Item, h: Handover)
    requires e.status == Locked
    ensures HandedDown(HandedOver(e, h), SortedQueue(e.queue), 1)
  {
    HandoverPasses(e, h);
  }

  lemma NextHandover(queue: seq<QueueEntry>, d: Item, h: Handover, k: nat)
    requires 1 <= k <= |queue| && HandedDown(d, SortedQueue(queue), k)
    ensures HandedDown(HandedOver(d, h), SortedQueue(queue), k + 1)
  {
    HandoverPasses(d, h);
    SortedSuffixFixed(queue, k);
    if k < |queue| {
      SuffixSteps(SortedQueue(queue), k);
    }
  }

  lemma SuffixSteps(q: seq<QueueEntry>, k: nat)
    requires k < |q|
    ensures q[k..] != [] && q[k..][0] == q[k] && q[k..][1..] == q[k + 1..]
  {
  }

  lemma SortedSuffixFixed(q: seq<QueueEntry>, k: nat)
    requires k <= |q|
    ensures SortedQueue(SortedQueue(q)[k..]) == SortedQueue(q)[k..]
  {
    AheadIsStrictWeak();
    StableSortOrdered(q, Ahead);
    StableSortFixed(SortedQueue(q)[k..], Ahead);
  }

  // ------------------------------------------------------------------ displaced holders

  /** `h` stands in `s`, and nothing of its priority stands before it. */
  ghost predicate FirstOfItsPriority(s: seq<QueueEntry>, h: QueueEntry) {
    exists i :: 0 <= i < |s| && s[i] == h && forall j :: 0 <= j < i ==> s[j].priority != h.priority
  }

  /**
   A displaced holder is put in front of the queue with the time it got the lock, not the
   time it claimed. The next sort leaves it before all of its priority exactly when none of
   them carries an earlier reading.
   */
  lemma DisplacedKeepsPlaceIff(e: Item)
    requires e.status == Locked
    ensures FirstOfItsPriority(SortedQueue([HolderEntry(e)] + e.queue), HolderEntry(e))
            <==> (forall q :: q in e.queue && q.priority == e.priority ==> e.lockedAt <= q.claimedAt)
  {
    var h, line := HolderEntry(e), [HolderEntry(e)] + e.queue;
    var sorted := SortedQueue(line);
    AheadIsStrictWeak();
    StableSortOrdered(line, Ahead);
    StableSortMembers(line, Ahead);
    if FirstOfItsPriority(sorted, h) {
      var i :| 0 <= i < |sorted| && sorted[i] == h && forall j :: 0 <= j < i ==> sorted[j].priority != h.priority;
      forall q | q in e.queue && q.priority == e.priority ensures e.lockedAt <= q.claimedAt {
        assert q in line && q in sorted;
        var k :| 0 <= k < |sorted| && sorted[k] == q;
        assert k > i ==> !Ahead(sorted[k], sorted[i]);
      }
    }
    if forall q :: q in e.queue && q.priority == e.priority ==> e.lockedAt <= q.claimedAt {
      assert h in line && h in sorted;
      EarliestIsFirst(line, h);
    }
  }

  lemma EarliestIsFirst(line: seq<QueueEntry>, h: QueueEntry)
    requires line != [] && line[0] == h
    requires forall q :: q in line && q.priority == h.priority ==> h.claimedAt <= q.claimedAt
    ensures FirstOfItsPriority(SortedQueue(line), h)
  {
    var sorted := SortedQueue(line);
    AheadIsStrictWeak();
    StableSortOrdered(line, Ahead);
    StableSortStable(line, Ahead);
    StableSortMembers(line, Ahead);
    var k := PlaceOf(sorted, h);
    var i := FirstPlace(sorted, h.priority, k);
    assert sorted[i] in line;
    assert i < k ==> !Ahead(sorted[k], sorted[i]);
    assert Tied(sorted[i], h, Ahead);
    TiesBegin(sorted, h, Ahead, i);
    TiesBegin(line, h, Ahead, 0);
    assert Ties(sorted, h, Ahead) == Ties(line, h, Ahead);
  }

  ghost function PlaceOf(s: seq<QueueEntry>, h: QueueEntry): (k: nat)
    requires h in s
    ensures k < |s| && s[k] == h
  {
    var k :| 0 <= k < |s| && s[k] == h;
    k
  }

  ghost function FirstPlace(s: seq<QueueEntry>, priority: int, k: nat): (i: nat)
    requires k < |s| && s[k].priority == priority
    ensures i <= k && s[i].priority == priority && forall j :: 0 <= j < i ==> s[j].priority != priority
  {
    if exists j :: 0 <= j < k && s[j].priority == priority then
      var j :| 0 <= j < k && s[j].priority == priority;
      FirstPlace(s, priority, j)
    else k
  }

  /** Ann, Bob and Cid claim alike in this order. */
  lemma ThreeClaim(e: Item) returns (r: Item)
    requires Fresh(e)
    ensures r == Next(Next(Next(e, ClaimBy("Ann", 1, 1)), ClaimBy("Bob", 1, 2)), ClaimBy("Cid", 1, 3))
    ensures r.status == Locked && r.queue == [QueueEntry("Bob", 1, 2), QueueEntry("Cid", 1, 3)]
  {
    var b, c := QueueEntry("Bob", 1, 2), QueueEntry("Cid", 1, 3);
    var e1 := Next(e, ClaimBy("Ann", 1, 1));
    StableSortFixed([b], Ahead);
    var e2 := Next(e1, ClaimBy("Bob", 1, 2));
    assert e2.status == Locked && e2.priority == 1 && e2.queue == [b];
    StableSortFixed([b, c], Ahead);
    r := Next(e2, ClaimBy("Cid", 1, 3));
  }

  /** Bob is promoted and then displaced, with the time of his promotion. */
  lemma PromotedThenDisplaced(e: Item) returns (r: Item)
    requires e.status == Locked && e.queue == [QueueEntry("Bob", 1, 2), QueueEntry("Cid", 1, 3)]
    ensures r == Next(Next(e, Release(4)), ClaimBy("Dee", 9, 5))
    ensures r.status == Locked && r.priority == 9 && r.queue == [QueueEntry("Bob", 1, 4), QueueEntry("Cid", 1, 3)]
  {
    StableSortFixed(e.queue, Ahead);
    var e1 := Next(e, Release(4));
    assert e1.status == Locked && HolderEntry(e1) == QueueEntry("Bob", 1, 4) && e1.queue == [QueueEntry("Cid", 1, 3)];
    r := Next(e1, ClaimBy("Dee", 9, 5));
  }

  /** The next sort puts Cid before Bob. */
  lemma SortedOutOfTurn(e: Item)
    requires e.status == Locked && e.priority == 9 && e.queue == [QueueEntry("Bob", 1, 4), QueueEntry("Cid", 1, 3)]
    ensures Next(e, ClaimBy("Eve", 0, 6)).queue == [QueueEntry("Cid", 1, 3), QueueEntry("Bob", 1, 4), QueueEntry("Eve", 0, 6)]
  {
    var b, c, v := QueueEntry("Bob", 1, 4), QueueEntry("Cid", 1, 3), QueueEntry("Eve", 0, 6);
    assert e.queue + [v] == [b, c, v];
    forall z ensures Ties([c, b, v], z, Ahead) == Ties([b, c, v], z, Ahead) {
      TiesOfThree(c, b, v, z);
      TiesOfThree(b, c, v, z);
    }
    SortedQueueUnique([b, c, v], [c, b, v]);
  }

  /** After a promotion and a preemption Cid, who came third, stands before Bob, who came second. */
  lemma FirstComeLostAfterPromotion(e: Item)
    requires Fresh(e)
    ensures var evs := [ClaimBy("Ann", 1, 1), ClaimBy("Bob", 1, 2), ClaimBy("Cid", 1, 3), Release(4),
                        ClaimBy("Dee", 9, 5), ClaimBy("Eve", 0, 6)];
            Run(e, evs).queue == [QueueEntry("Cid", 1, 3), QueueEntry("Bob", 1, 4), QueueEntry("Eve", 0, 6)]
  {
    var three := ThreeClaim(e);
    var five := PromotedThenDisplaced(three);
    SortedOutOfTurn(five);
    RunOfSix(e, ClaimBy("Ann", 1, 1), ClaimBy("Bob", 1, 2), ClaimBy("Cid", 1, 3), Release(4),
             ClaimBy("Dee", 9, 5), ClaimBy("Eve", 0, 6));
  }

  lemma RunOfSix(e: Item, a: Event, b: Event, c: Event, d: Event, f: Event, g: Event)
    ensures Run(e, [a, b, c, d, f, g]) == Next(Next(Next(Next(Next(Next(e, a), b), c), d), f), g)
  {
    RunOfOne(e, a);
    RunOfMore(e, [a], b);
    RunOfMore(e, [a, b], c);
    RunOfMore(e, [a, b, c], d);
    RunOfMore(e, [a, b, c, d], f);
    RunOfMore(e, [a, b, c, d, f], g);
    assert [a] + [b] == [a, b] && [a, b] + [c] == [a, b, c] && [a, b, c] + [d] == [a, b, c, d];
    assert [a, b, c, d] + [f] == [a, b, c, d, f] && [a, b, c, d, f] + [g] == [a, b, c, d, f, g];
  }

  lemma TiesOfThree(x: QueueEntry, y: QueueEntry, w: QueueEntry, z: QueueEntry)
    ensures Ties([x, y, w], z, Ahead) ==
            (if Tied(x, z, Ahead) then [x] else []) + (if Tied(y, z, Ahead) then [y] else [])
            + (if Tied(w, z, Ahead) then [w] else [])
  {
    assert [x, y, w][..2] == [x, y] && [x, y][..1] == [x] && [x][..0] == [];
    assert Ties([x], z, Ahead) == (if Tied(x, z, Ahead) then [x] else []);
    assert Ties([x, y], z, Ahead) == Ties([x], z, Ahead) + (if Tied(y, z, Ahead) then [y] else []);
  }

  lemma RunOfOne(e: Item, ev: Event)
    ensures Run(e, [ev]) == Next(e, ev)
  {
    assert Run(e, []) == e;
    assert [ev][..0] == [];
  }

  lemma RunOfMore(e: Item, evs: seq<Event>, ev: Event)
    ensures Run(e, evs + [ev]) == Next(Run(e, evs), ev)
  {
    assert (evs + [ev])[..|evs|] == evs;
  }

  // ------------------------------------------------------------------ issued items

  /** Claims of any number and any priority leave an issued item with its holder and order. */
  lemma {:induction false} ClaimsCannotTakeIssued(e: Item, evs: seq<Event>)
    requires e.status == Issued && forall ev :: ev in evs ==> !(ev.ReturnBy? && ev.officer == e.holder)
    ensures var r := Run(e, evs);
            r.status == Issued && r.holder == e.holder && r.order == e.order && r.priority == e.priority
  {
    if evs != [] {
      assert evs[|evs| - 1] in evs;
      ClaimsCannotTakeIssued(e, evs[..|evs| - 1]);
    }
  }
}
