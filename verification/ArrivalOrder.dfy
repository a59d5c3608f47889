/**
 First come, first served: each claim on an item gets an arrival number, and the numbers are
 followed through the queue. They say exactly when officers of one priority stop being served
 in the order in which they came.
 */
module ArrivalOrder {
  import opened Common
  import opened Sorting
  import opened EquipmentModel
  import opened EquipmentRuns

  /** A queued claim with its arrival number. */
  datatype Ticket = Ticket(entry: QueueEntry, arrival: nat)

  /** An item with the arrival number of its holder's claim and the tickets of its queue. */
  datatype Line = Line(item: Item, held: nat, waiting: seq<Ticket>, next: nat)

  predicate TicketAhead(a: Ticket, b: Ticket) {
    Ahead(a.entry, b.entry)
  }

  function Sorted(line: seq<Ticket>): (r: seq<Ticket>)
    ensures |r| == |line|
  {
    StableSort(line, TicketAhead)
  }

  function Entries(line: seq<Ticket>): (r: seq<QueueEntry>)
    ensures |r| == |line|
  {
    seq(|line|, i requires 0 <= i < |line| => line[i].entry)
  }

  // ------------------------------------------------------------------ following the item

  /** The item has passed to the first of the sorted queue, if there is one. */
  function Passed(l: Line, item: Item): Line {
    if l.waiting == [] then l.(item := item)
    else l.(item := item, held := Sorted(l.waiting)[0].arrival, waiting := Sorted(l.waiting)[1..])
  }

  function Joined(l: Line, item: Item, officer: string, priority: int, now: Time): Line {
    match l.item.status
    case Retired => l.(item := item)
    case Available => l.(item := item, held := l.next, next := l.next + 1)
    case _ =>
      if l.item.status == Locked && priority > l.item.priority then
        l.(item := item, held := l.next, next := l.next + 1,
           waiting := [Ticket(HolderEntry(l.item), l.held)] + l.waiting)
      else
        l.(item := item, next := l.next + 1,
           waiting := Sorted(l.waiting + [Ticket(QueueEntry(officer, priority, now), l.next)]))
  }

  function After(l: Line, ev: Event): Line {
    var item := Next(l.item, ev);
    match ev
    case ClaimBy(officer, priority, now) => Joined(l, item, officer, priority, now)
    case IssueBy(_, _, _) => l.(item := item)
    case Release(_) => if l.item.status == Locked then Passed(l, item) else l.(item := item)
    case ReturnBy(officer, _, _) =>
      if l.item.status == Issued && l.item.holder == officer then Passed(l, item) else l.(item := item)
  }

  function LineAfter(e: Item, evs: seq<Event>): Line {
    if evs == [] then Line(e, 0, [], 0) else After(LineAfter(e, evs[..|evs| - 1]), evs[|evs| - 1])
  }

  ghost predicate Follows(l: Line) {
    Entries(l.waiting) == l.item.queue
  }

  lemma TicketAheadIsStrictWeak()
    ensures StrictWeak(TicketAhead)
  {
    AheadIsStrictWeak();
    forall x: Ticket, y: Ticket, z: Ticket | TicketAhead(x, z) ensures TicketAhead(x, y) || TicketAhead(y, z) {
      assert Ahead(x.entry, z.entry);
    }
  }

  lemma {:induction false} EntriesInsert(s: seq<Ticket>, x: Ticket)
    ensures Entries(Insert(s, x, TicketAhead)) == Insert(Entries(s), x.entry, Ahead)
  {
    if s != [] && TicketAhead(x, s[|s| - 1]) {
      EntriesInsert(s[..|s| - 1], x);
      assert Entries(s)[..|s| - 1] == Entries(s[..|s| - 1]);
    }
  }

  /** Sorting the tickets is sorting the entries. */
  lemma {:induction false} EntriesSorted(s: seq<Ticket>)
    ensures Entries(Sorted(s)) == SortedQueue(Entries(s))
  {
    if s != [] {
      EntriesSorted(s[..|s| - 1]);
      assert Entries(s)[..|s| - 1] == Entries(s[..|s| - 1]);
      EntriesInsert(Sorted(s[..|s| - 1]), s[|s| - 1]);
    }
  }

  /** The tickets belong to the queue that the item really has. */
  lemma AfterFollows(l: Line, ev: Event)
    requires Follows(l)
    ensures Follows(After(l, ev)) && After(l, ev).item == Next(l.item, ev)
  {
    EntriesSorted(l.waiting);
    match ev
    case ClaimBy(officer, priority, now) =>
      var t := Ticket(QueueEntry(officer, priority, now), l.next);
      EntriesSorted(l.waiting + [t]);
      assert Entries(l.waiting + [t]) == l.item.queue + [t.entry];
      var h := Ticket(HolderEntry(l.item), l.held);
      assert Entries([h] + l.waiting) == [h.entry] + l.item.queue;
    case _ =>
      assert l.waiting != [] ==> Entries(Sorted(l.waiting)[1..]) == Entries(Sorted(l.waiting))[1..];
  }

  // ------------------------------------------------------------------ order of arrival

  predicate CameFirst(x: Ticket, y: Ticket) {
    x.entry.priority == y.entry.priority ==> x.arrival < y.arrival
  }

  /** Tickets of one priority stand in order of arrival. */
  ghost predicate InTurn(line: seq<Ticket>) {
    forall i, j :: 0 <= i < j < |line| ==> CameFirst(line[i], line[j])
  }

  /** The queue, once sorted, has everybody in turn. */
  ghost predicate Fair(l: Line) {
    InTurn(Sorted(l.waiting))
  }

  /** Sorting puts `x`, which stands before `y`, and `y` in the order in which they came. */
  predicate Agree(x: Ticket, y: Ticket) {
    x.entry.priority == y.entry.priority ==>
      if y.entry.claimedAt < x.entry.claimedAt then y.arrival < x.arrival else x.arrival < y.arrival
  }

  ghost predicate AllAgree(line: seq<Ticket>) {
    forall i, j :: 0 <= i < j < |line| ==> Agree(line[i], line[j])
  }

  /** `x` goes behind everything that it does not precede. */
  ghost predicate Splits(s: seq<Ticket>, x: Ticket, k: nat) {
    && k <= |s|
    && (forall i :: 0 <= i < k ==> !TicketAhead(x, s[i]))
    && (forall i :: k <= i < |s| ==> TicketAhead(x, s[i]))
  }

  lemma {:induction false} InsertPlace(s: seq<Ticket>, x: Ticket) returns (k: nat)
    requires Ordered(s, TicketAhead)
    ensures Splits(s, x, k) && Insert(s, x, TicketAhead) == s[..k] + [x] + s[k..]
  {
    if s == [] || !TicketAhead(x, s[|s| - 1]) {
      k := |s|;
      NotAheadOfAny(s, x);
    } else {
      var front, last := s[..|s| - 1], s[|s| - 1];
      k := InsertPlace(front, x);
      assert s[..k] == front[..k] && s[k..] == front[k..] + [last];
      assert Insert(s, x, TicketAhead) == front[..k] + [x] + front[k..] + [last];
      assert forall i :: 0 <= i < |front| ==> s[i] == front[i];
    }
  }

  lemma NotAheadOfAny(s: seq<Ticket>, x: Ticket)
    requires Ordered(s, TicketAhead) && (s == [] || !TicketAhead(x, s[|s| - 1]))
    ensures Splits(s, x, |s|)
  {
    TicketAheadIsStrictWeak();
    forall i | 0 <= i < |s| ensures !TicketAhead(x, s[i]) {
      assert i < |s| - 1 ==> !TicketAhead(s[|s| - 1], s[i]);
    }
  }

  lemma InsertInTurnIff(s: seq<Ticket>, x: Ticket)
    requires Ordered(s, TicketAhead)
    ensures InTurn(Insert(s, x, TicketAhead)) <==> InTurn(s) && forall y :: y in s ==> Agree(y, x)
  {
    var k := InsertPlace(s, x);
    if InTurn(s[..k] + [x] + s[k..]) {
      TakenOutInTurn(s, x, k);
    }
    if InTurn(s) && forall y :: y in s ==> Agree(y, x) {
      PutInInTurn(s, x, k);
    }
  }

  lemma TakenOutInTurn(s: seq<Ticket>, x: Ticket, k: nat)
    requires Splits(s, x, k) && InTurn(s[..k] + [x] + s[k..])
    ensures InTurn(s) && forall y :: y in s ==> Agree(y, x)
  {
    var r := s[..k] + [x] + s[k..];
    assert forall i :: 0 <= i < k ==> r[i] == s[i];
    assert r[k] == x;
    assert forall i :: k <= i < |s| ==> r[i + 1] == s[i];
    forall i, j | 0 <= i < j < |s| ensures CameFirst(s[i], s[j]) {
      assert CameFirst(r[if i < k then i else i + 1], r[if j < k then j else j + 1]);
    }
    forall i | 0 <= i < |s| ensures Agree(s[i], x) {
      if i < k {
        assert CameFirst(r[i], r[k]) && !TicketAhead(x, s[i]);
      } else {
        assert CameFirst(r[k], r[i + 1]) && TicketAhead(x, s[i]);
      }
    }
  }

  lemma PutInInTurn(s: seq<Ticket>, x: Ticket, k: nat)
    requires Splits(s, x, k) && InTurn(s) && forall y :: y in s ==> Agree(y, x)
    ensures InTurn(s[..k] + [x] + s[k..])
  {
    var r := s[..k] + [x] + s[k..];
    forall i, j | 0 <= i < j < |r| ensures CameFirst(r[i], r[j]) {
      if i == k {
        assert r[j] == s[j - 1] && s[j - 1] in s && TicketAhead(x, s[j - 1]);
      } else if j == k {
        assert r[i] == s[i] && s[i] in s && !TicketAhead(x, s[i]);
      } else {
        assert CameFirst(s[if i < k then i else i - 1], s[if j < k then j else j - 1]);
      }
    }
  }

  /** Whether a queue has everybody in turn can be told from any two tickets, without sorting. */
  lemma {:induction false} FairIffAgree(line: seq<Ticket>)
    ensures InTurn(Sorted(line)) <==> AllAgree(line)
  {
    if line != [] {
      var front, x := line[..|line| - 1], line[|line| - 1];
      FairIffAgree(front);
      TicketAheadIsStrictWeak();
      StableSortOrdered(front, TicketAhead);
      StableSortMembers(front, TicketAhead);
      InsertInTurnIff(Sorted(front), x);
      AgreeBehind(front, x);
      assert line == front + [x];
    }
  }

  lemma AgreeBehind(front: seq<Ticket>, x: Ticket)
    ensures AllAgree(front + [x]) <==> AllAgree(front) && forall y :: y in front ==> Agree(y, x)
  {
    var line := front + [x];
    if AllAgree(line) {
      forall i, j | 0 <= i < j < |front| ensures Agree(front[i], front[j]) {
        assert Agree(line[i], line[j]);
      }
      forall y | y in front ensures Agree(y, x) {
        var i :| 0 <= i < |front| && front[i] == y;
        assert Agree(line[i], line[|front|]);
      }
    }
  }

  lemma AgreeInFront(h: Ticket, line: seq<Ticket>)
    ensures AllAgree([h] + line) <==> AllAgree(line) && forall y :: y in line ==> Agree(h, y)
  {
    var r := [h] + line;
    if AllAgree(r) {
      forall i, j | 0 <= i < j < |line| ensures Agree(line[i], line[j]) {
        assert Agree(r[i + 1], r[j + 1]);
      }
      forall y | y in line ensures Agree(h, y) {
        var j :| 0 <= j < |line| && line[j] == y;
        assert Agree(r[0], r[j + 1]);
      }
    }
  }

  // ------------------------------------------------------------------ what a fair line keeps

  /** Readings lie in the past and arrival numbers below the next one. */
  ghost predicate Timely(l: Line, now: Time) {
    && (forall t :: t in l.waiting ==> t.entry.claimedAt <= now && t.arrival < l.next)
    && (l.item.status == Locked ==> l.item.lockedAt <= now && l.held < l.next)
  }

  /** Whoever holds the lock came before all those of the same priority that wait. */
  ghost predicate HolderCameFirst(l: Line) {
    l.item.status == Locked ==> forall t :: t in l.waiting && t.entry.priority == l.item.priority ==> l.held < t.arrival
  }

  ghost predicate Good(l: Line, now: Time) {
    Follows(l) && WellFormed(l.item) && Timely(l, now) && HolderCameFirst(l)
  }

  /** The claim preempts a holder whose lock is younger than the claim of an equal in the queue. */
  predicate Overtakes(e: Item, ev: Event) {
    && ev.ClaimBy? && e.status == Locked && ev.priority > e.priority
    && exists q :: q in e.queue && q.priority == e.priority && q.claimedAt < e.lockedAt
  }

  lemma SortedAgain(line: seq<Ticket>, k: nat)
    requires k <= |line|
    ensures Sorted(Sorted(line)[k..]) == Sorted(line)[k..]
  {
    TicketAheadIsStrictWeak();
    StableSortOrdered(line, TicketAhead);
    StableSortFixed(Sorted(line)[k..], TicketAhead);
  }

  /** Passing the item on serves the one who came first among those of the highest priority. */
  lemma PassedKeeps(l: Line, e: Item, now: Time, l': Line)
    requires Follows(l) && Fair(l) && e.queue == l.item.queue && l' == Passed(l, Promoted(e, now))
    requires forall t :: t in l.waiting ==> t.entry.claimedAt <= now && t.arrival < l.next
    ensures Fair(l') && Timely(l', now) && HolderCameFirst(l')
  {
    if l.waiting != [] {
      var s := Sorted(l.waiting);
      EntriesSorted(l.waiting);
      StableSortMembers(l.waiting, TicketAhead);
      assert forall t :: t in s <==> t in l.waiting;
      assert s[0] in s && forall t :: t in s[1..] ==> t in s;
      SortedAgain(l.waiting, 1);
      assert l'.item.priority == s[0].entry.priority;
    } else {
      assert Sorted(l'.waiting) == [];
    }
  }

  lemma AppendedKeeps(l: Line, x: Ticket, l': Line)
    requires Fair(l) && l'.waiting == Sorted(l.waiting + [x])
    requires forall t :: t in l.waiting ==> t.entry.claimedAt <= x.entry.claimedAt && t.arrival < x.arrival
    ensures Fair(l') && forall t :: t in l'.waiting <==> t in l.waiting || t == x
  {
    var line := l.waiting + [x];
    FairIffAgree(l.waiting);
    AgreeBehind(l.waiting, x);
    FairIffAgree(line);
    SortedAgain(line, 0);
    assert Sorted(line)[0..] == Sorted(line);
    StableSortMembers(line, TicketAhead);
  }

  /** A displaced holder stays in turn exactly when no equal in the queue carries an earlier reading. */
  lemma DisplacedInTurnIff(l: Line, h: Ticket)
    requires Fair(l) && forall t :: t in l.waiting && t.entry.priority == h.entry.priority ==> h.arrival < t.arrival
    ensures InTurn(Sorted([h] + l.waiting))
            <==> !(exists t :: t in l.waiting && t.entry.priority == h.entry.priority && t.entry.claimedAt < h.entry.claimedAt)
  {
    FairIffAgree(l.waiting);
    AgreeInFront(h, l.waiting);
    FairIffAgree([h] + l.waiting);
  }

  lemma PreemptedFairIff(l: Line, ev: Event, now: Time)
    requires Good(l, now) && Fair(l) && ev.ClaimBy? && l.item.status == Locked && ev.priority > l.item.priority
    ensures Fair(After(l, ev)) <==> !Overtakes(l.item, ev)
  {
    var h := Ticket(HolderEntry(l.item), l.held);
    DisplacedInTurnIff(l, h);
    assert forall i :: 0 <= i < |l.waiting| ==> l.item.queue[i] == l.waiting[i].entry;
    if t :| t in l.waiting && t.entry.priority == h.entry.priority && t.entry.claimedAt < h.entry.claimedAt {
      assert t.entry in l.item.queue;
    }
    if q :| q in l.item.queue && q.priority == l.item.priority && q.claimedAt < l.item.lockedAt {
      var i :| 0 <= i < |l.item.queue| && l.item.queue[i] == q;
      assert l.waiting[i] in l.waiting;
    }
  }

  lemma ClaimKeeps(l: Line, ev: Event, now: Time)
    requires Good(l, now) && Fair(l) && ev.ClaimBy? && now <= ev.now
    ensures Timely(After(l, ev), ev.now) && HolderCameFirst(After(l, ev))
    ensures Fair(After(l, ev)) <==> !Overtakes(l.item, ev)
  {
    var l', x := After(l, ev), Ticket(QueueEntry(ev.officer, ev.priority, ev.now), l.next);
    if l.item.status == Available {
      assert |Entries(l.waiting)| == 0 && l.waiting == [];
      assert Sorted(l'.waiting) == [];
    } else if l.item.status == Locked && ev.priority > l.item.priority {
      PreemptedFairIff(l, ev, now);
      forall t | t in l.waiting ensures t.entry.priority < ev.priority {
        var i :| 0 <= i < |l.waiting| && l.waiting[i] == t;
        assert l.item.queue[i] == t.entry && t.entry in l.item.queue;
      }
    } else {
      AppendedKeeps(l, x, l');
    }
  }

  /** An event leaves everybody in turn exactly when it is not such a claim; and what else it keeps. */
  lemma AfterFairIff(l: Line, ev: Event, now: Time)
    requires Good(l, now) && Fair(l) && now <= ev.now
    ensures Good(After(l, ev), ev.now)
    ensures Fair(After(l, ev)) <==> !Overtakes(l.item, ev)
  {
    AfterFollows(l, ev);
    NextWellFormed(l.item, ev);
    match ev
    case ClaimBy(_, _, _) => ClaimKeeps(l, ev, now);
    case IssueBy(_, _, _) =>
    case Release(t) =>
      if l.item.status == Locked {
        PassedKeeps(l, l.item.(order := ""), t, After(l, ev));
      }
    case ReturnBy(officer, condition, t) =>
      if l.item.status == Issued && l.item.holder == officer {
        PassedKeeps(l, l.item.(status := if condition == DAMAGED then Retired else Returned,
                               condition := condition, order := "", updatedAt := t), t, After(l, ev));
      }
  }

  // ------------------------------------------------------------------ whole runs

  /** The clock does not go back. */
  ghost predicate Forward(evs: seq<Event>) {
    forall i, j :: 0 <= i < j < |evs| ==> evs[i].now <= evs[j].now
  }

  /** The item after the first `n` events is as `Run` says. */
  lemma {:induction false} LineRuns(e: Item, evs: seq<Event>)
    ensures LineAfter(e, evs).item == Run(e, evs)
  {
    if evs != [] {
      LineRuns(e, evs[..|evs| - 1]);
    }
  }

  ghost predicate FairAt(e: Item, evs: seq<Event>, n: nat)
    requires n <= |evs|
  {
    Fair(LineAfter(e, evs[..n]))
  }

  predicate OvertakesAt(e: Item, evs: seq<Event>, n: nat)
    requires n < |evs|
  {
    Overtakes(Run(e, evs[..n]), evs[n])
  }

  function ReadingBefore(evs: seq<Event>, n: nat): Time
    requires n <= |evs|
  {
    if n > 0 then evs[n - 1].now else if evs != [] then evs[0].now else ZERO_TIME
  }

  lemma FairStepIff(e: Item, evs: seq<Event>, n: nat)
    requires Forward(evs) && n < |evs| && Good(LineAfter(e, evs[..n]), ReadingBefore(evs, n)) && FairAt(e, evs, n)
    ensures Good(LineAfter(e, evs[..n + 1]), ReadingBefore(evs, n + 1))
    ensures FairAt(e, evs, n + 1) <==> !OvertakesAt(e, evs, n)
  {
    LineRuns(e, evs[..n]);
    assert evs[..n + 1][..n] == evs[..n];
    AfterFairIff(LineAfter(e, evs[..n]), evs[n], ReadingBefore(evs, n));
  }

  lemma {:induction false} GoodUpTo(e: Item, evs: seq<Event>, n: nat)
    requires Fresh(e) && Forward(evs) && n <= |evs|
    requires (forall i :: 0 <= i < n ==> FairAt(e, evs, i)) || (forall i :: 0 <= i < n ==> !OvertakesAt(e, evs, i))
    ensures Good(LineAfter(e, evs[..n]), ReadingBefore(evs, n))
    ensures (forall i :: 0 <= i < n ==> !OvertakesAt(e, evs, i)) ==> FairAt(e, evs, n)
  {
    if n == 0 {
      assert evs[..0] == [] && Sorted([]) == [];
    } else {
      GoodUpTo(e, evs, n - 1);
      FairStepIff(e, evs, n - 1);
    }
  }

  /**
   Over any run with a clock that does not go back: those of one priority are in turn after
   every event exactly when no event of the run is such a claim.
   */
  lemma RunFairIff(e: Item, evs: seq<Event>)
    requires Fresh(e) && Forward(evs)
    ensures (forall n :: 0 <= n <= |evs| ==> FairAt(e, evs, n)) <==> (forall n :: 0 <= n < |evs| ==> !OvertakesAt(e, evs, n))
  {
    if forall n :: 0 <= n <= |evs| ==> FairAt(e, evs, n) {
      forall n | 0 <= n < |evs| ensures !OvertakesAt(e, evs, n) {
        GoodUpTo(e, evs, n);
        FairStepIff(e, evs, n);
        assert FairAt(e, evs, n + 1);
      }
    }
    if forall n :: 0 <= n < |evs| ==> !OvertakesAt(e, evs, n) {
      forall n | 0 <= n <= |evs| ensures FairAt(e, evs, n) {
        GoodUpTo(e, evs, n);
      }
    }
  }

  /** In a run without such a claim, whoever has the lock came before everybody of that priority who still waits. */
  lemma FirstComeFirstServed(e: Item, evs: seq<Event>, t: Ticket)
    requires Fresh(e) && Forward(evs) && forall n :: 0 <= n < |evs| ==> !OvertakesAt(e, evs, n)
    requires Run(e, evs).status == Locked && t in LineAfter(e, evs).waiting && t.entry.priority == Run(e, evs).priority
    ensures t.entry in Run(e, evs).queue && LineAfter(e, evs).held < t.arrival
  {
    GoodUpTo(e, evs, |evs|);
    assert evs[..|evs|] == evs;
    LineRuns(e, evs);
    var l := LineAfter(e, evs);
    var i :| 0 <= i < |l.waiting| && l.waiting[i] == t;
    assert Entries(l.waiting)[i] == t.entry;
  }
}
