/** When a fetch loses a message: exactly when it takes the newest of more messages than its limit and the
    cursor then moves past them (src/mailtg_bridge/orchestrator.py:43-65, src/mailtg_bridge/telegram.py:58-64). */
module Gaps {
  import opened Protocol
  import opened Delivery
  import opened Cursors
  import opened Runs

  /** A step that works on what was fetched, or one of the outside world. */
  predicate WithFetched(a: Action) {
    a.World? || a.Delivery? || (a.Inbound? && (a.i.Select? || a.i.NothingSelected?))
  }

  /** The message was left out of the fetch at hand; once the cursor has moved it is missed. */
  ghost predicate LeftOut(s: State, d: string, high: int, id: int) {
    match s.pc
    case Fetched(e, last, items, _) =>
      e.id == d && items != [] && High(items) == high && last < id && id !in Ids(items)
        && !Accounted(s.h.delivery, d, id)
    case Downloading(b, _, _) =>
      b.d.id == d && b.high == high && b.last < id && id !in Ids(b.sel) && !Accounted(s.h.delivery, d, id)
    case Sending(b, _, _, _) =>
      b.d.id == d && b.high == high && b.last < id && id !in Ids(b.sel) && !Accounted(s.h.delivery, d, id)
    case Clearing(_, _) => Missed(s, d, id)
    case _ => true
  }

  lemma {:induction false} PassedByCursor(c: Config, s: State, d: string, high: int, id: int)
    requires InboundMay(c, s, NothingSelected) && LeftOut(s, d, high, id) && id <= high
    ensures LeftOut(InboundDoes(c, s, NothingSelected), d, high, id)
  {
    PassOverOnly(s.h, s.t, d, s.pc.items);
  }

  lemma {:induction false} NotPicked(c: Config, s: State, d: string, high: int, id: int)
    requires InboundMay(c, s, Select) && LeftOut(s, d, high, id)
    ensures LeftOut(InboundDoes(c, s, Select), d, high, id)
  {
    PassOverOnly(s.h, s.t, d, s.pc.items);
    SelectedIds(s.t.echoes, d, s.pc.last, s.pc.items);
  }

  lemma {:induction false} NotSent(c: Config, s: State, a: Protocol.Delivery, d: string, high: int, id: int)
    requires DeliveryMay(c, s, a) && Stocked(ShelfOf(s)) && LeftOut(s, d, high, id) && id <= high
    ensures LeftOut(DeliveryDoes(c, s, a), d, high, id)
  {
    if a.Commit? {
      CommitHappens(c, s);
      CommitMisses(c, s, id);
    }
  }

  lemma {:induction false} StaysLeftOut(c: Config, s: State, a: Action, d: string, high: int, id: int)
    requires May(c, s, a) && WithFetched(a) && Stocked(ShelfOf(s)) && LeftOut(s, d, high, id) && id <= high
    ensures LeftOut(Do(c, s, a), d, high, id)
  {
    match a
    case Inbound(i) => if i.Select? { NotPicked(c, s, d, high, id); } else { PassedByCursor(c, s, d, high, id); }
    case Delivery(v) => NotSent(c, s, v, d, high, id);
    case World(_) =>
  }

  /** The message is at hand: fetched, selected, or accounted for. */
  ghost predicate AtHand(s: State, d: string, id: int) {
    match s.pc
    case Fetched(e, last, items, _) => e.id == d && last < id && id in Ids(items)
    case Downloading(b, _, _) => b.d.id == d && (id in Ids(b.sel) || Accounted(s.h.delivery, d, id))
    case Sending(b, _, _, _) => b.d.id == d && (id in Ids(b.sel) || Accounted(s.h.delivery, d, id))
    case Clearing(_, _) => Accounted(s.h.delivery, d, id)
    case _ => true
  }

  lemma {:induction false} PassedOrPicked(c: Config, s: State, a: Inbound, d: string, id: int)
    requires InboundMay(c, s, a) && (a.Select? || a.NothingSelected?) && AtHand(s, d, id)
    ensures AtHand(InboundDoes(c, s, a), d, id)
  {
    PassOverPasses(s.h, s.t, d, s.pc.last, s.pc.items);
  }

  lemma {:induction false} Sent(c: Config, s: State, a: Protocol.Delivery, d: string, id: int)
    requires DeliveryMay(c, s, a) && Stocked(ShelfOf(s)) && AtHand(s, d, id)
    ensures AtHand(DeliveryDoes(c, s, a), d, id)
  {
    if a.Commit? {
      CommitHappens(c, s);
      CommitMails(ShelfOf(s), ShelfOf(DeliveryDoes(c, s, a)), s.pc.batch, s.pc.parts);
    }
  }

  lemma {:induction false} StaysAtHand(c: Config, s: State, a: Action, d: string, id: int)
    requires May(c, s, a) && WithFetched(a) && Stocked(ShelfOf(s)) && AtHand(s, d, id)
    ensures AtHand(Do(c, s, a), d, id)
  {
    match a
    case Inbound(i) => PassedOrPicked(c, s, i, d, id);
    case Delivery(v) => Sent(c, s, v, d, id);
    case World(_) =>
  }

  lemma {:induction false} ThroughTheVisit(c: Config, s: State, visit: seq<Action>, d: string, high: int, id: int)
    requires Legal(c, s, visit) && Stocked(ShelfOf(s)) && (forall a :: a in visit ==> WithFetched(a)) && id <= high
    ensures LeftOut(s, d, high, id) ==> LeftOut(After(c, s, visit), d, high, id)
    ensures AtHand(s, d, id) ==> AtHand(After(c, s, visit), d, id)
    decreases |visit|
  {
    if visit != [] {
      var a, s' := visit[0], Do(c, s, visit[0]);
      StockedStep(c, s, a);
      if LeftOut(s, d, high, id) { StaysLeftOut(c, s, a, d, high, id); }
      if AtHand(s, d, id) { StaysAtHand(c, s, a, d, id); }
      ThroughTheVisit(c, s', visit[1..], d, high, id);
    }
  }

  /** A fetch, its batch worked through to where the cursor has moved. */
  ghost predicate WorkedThrough(c: Config, s: State, items: seq<Item>, visit: seq<Action>) {
    && Stocked(ShelfOf(s)) && InboundMay(c, s, FetchOk(items)) && items != []
    && (forall a :: a in visit ==> WithFetched(a))
    && Legal(c, InboundDoes(c, s, FetchOk(items)), visit)
    && After(c, InboundDoes(c, s, FetchOk(items)), visit).pc.Clearing?
  }

  ghost function AfterVisit(c: Config, s: State, items: seq<Item>, visit: seq<Action>): State
    requires WorkedThrough(c, s, items, visit)
  {
    After(c, InboundDoes(c, s, FetchOk(items)), visit)
  }

  lemma {:induction false} LeftOutIsMissed(c: Config, s: State, items: seq<Item>, visit: seq<Action>, id: int)
    requires WorkedThrough(c, s, items, visit) && s.pc.last < id <= High(items)
    requires !Accounted(s.h.delivery, s.pc.d.id, id)
    ensures Missed(AfterVisit(c, s, items, visit), s.pc.d.id, id) <==> id !in Ids(items)
  {
    var s' := InboundDoes(c, s, FetchOk(items));
    FetchKeeps(c, s, items);
    ThroughTheVisit(c, s', visit, s.pc.d.id, High(items), id);
  }

  /** Whatever is done with it, a fetch whose cursor moves loses a message that was not accounted for before
      exactly when it took the newest of more than its limit. */
  lemma {:induction false} LosesExactlyWhen(c: Config, s: State, items: seq<Item>, visit: seq<Action>)
    requires WorkedThrough(c, s, items, visit)
    requires forall id :: id in Backlog(s.o, s.pc.d.id, s.pc.last) ==> !Accounted(s.h.delivery, s.pc.d.id, id)
    ensures var d, backlog := s.pc.d.id, Backlog(s.o, s.pc.d.id, s.pc.last);
            (exists id :: id in backlog && Missed(AfterVisit(c, s, items, visit), d, id) && id <= High(items))
            <==> c.order.NewestFirst? && |backlog| > c.fetchLimit
  {
    var d, backlog := s.pc.d.id, Backlog(s.o, s.pc.d.id, s.pc.last);
    forall id | id in backlog && id <= High(items)
      ensures Missed(AfterVisit(c, s, items, visit), d, id) <==> id !in Ids(items)
    {
      LeftOutIsMissed(c, s, items, visit, id);
    }
    GapFreeIff(c, backlog, items);
  }

  /** And then it is lost for good. */
  lemma {:induction false} LostForGood(c: Config, s: State, items: seq<Item>, visit: seq<Action>, id: int,
                                       later: seq<Action>)
    requires WorkedThrough(c, s, items, visit) && id in Backlog(s.o, s.pc.d.id, s.pc.last)
    requires id <= High(items) && id !in Ids(items) && !Accounted(s.h.delivery, s.pc.d.id, id)
    requires Legal(c, AfterVisit(c, s, items, visit), later)
    ensures Missed(After(c, AfterVisit(c, s, items, visit), later), s.pc.d.id, id)
  {
    var s1 := InboundDoes(c, s, FetchOk(items));
    LeftOutIsMissed(c, s, items, visit, id);
    FetchKeeps(c, s, items);
    StaysStocked(c, s1, visit);
    MissedForGood(c, AfterVisit(c, s, items, visit), later, s.pc.d.id, id);
  }

  lemma {:induction false} StaysStocked(c: Config, s: State, run: seq<Action>)
    requires Legal(c, s, run) && Stocked(ShelfOf(s))
    ensures Stocked(ShelfOf(After(c, s, run)))
    decreases |run|
  {
    if run != [] {
      StockedStep(c, s, run[0]);
      StaysStocked(c, Do(c, s, run[0]), run[1..]);
    }
  }
}
