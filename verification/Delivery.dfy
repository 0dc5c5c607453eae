/** Which messages have reached the mailbox, and why the others were passed over
    (src/mailtg_bridge/orchestrator.py:36-73, src/mailtg_bridge/state.py:69-97).

    The part of the state this depends on is a `Shelf`; `Desk` is what the cycle holds in its hands. */
module Delivery {
  import opened Domain
  import opened Database
  import opened Protocol
  import FiniteSets
  import Intake

  datatype Desk =
    | Away
    | Open(d: string, last: nat)
    | Reading(d: string, last: nat, items: seq<Item>)
    | Packing(b: Batch)
    | Mailing(b: Batch, parts: seq<Part>, k: nat)

  function DeskOf(pc: Pc): Desk {
    match pc
    case Opened(d, last, _) => Open(d.id, last)
    case Fetched(d, last, items, _) => Reading(d.id, last, items)
    case Downloading(b, _, _) => Packing(b)
    case Sending(b, parts, k, _) => Mailing(b, parts, k)
    case _ => Away
  }

  datatype Shelf = Shelf(cursors: map<string, CursorRow>, ledger: map<Mid, LedgerRow>, echoes: map<(string, int), real>,
                         posted: set<(string, int)>, held: map<string, set<int>>, top: map<string, int>,
                         log: DeliveryLog, mids: set<Mid>, desk: Desk)

  function ShelfOf(s: State): Shelf {
    Shelf(s.t.cursors, s.t.ledger, s.t.echoes, s.h.intake.echoes, s.o.held, s.o.top, s.h.delivery, s.h.mids,
          DeskOf(s.pc))
  }

  function At(s: Shelf, d: string): nat { if d in s.cursors then s.cursors[d].lastId else 0 }

  function HeldIn(s: Shelf, d: string): set<int> { if d in s.held then s.held[d] else {} }

  function TopOf(s: Shelf, d: string): int { if d in s.top then s.top[d] else 0 }

  // ---------------------------------------------------------------- the invariant

  /** Ids are positive, and neither an id nor a cursor is above the highest id handed out. */
  ghost predicate Numbered(s: Shelf) {
    && (forall d, id :: id in HeldIn(s, d) ==> 0 < id <= TopOf(s, d))
    && (forall d :: At(s, d) <= TopOf(s, d))
  }

  /** All of `ids` lie between the cursor and the highest id fetched, and that one was handed out. */
  ghost predicate Between(s: Shelf, d: string, last: nat, high: int, ids: seq<int>) {
    && At(s, d) == last && last < high <= TopOf(s, d)
    && (forall id :: id in ids ==> last < id <= high)
  }

  ghost predicate Sealed(s: Shelf, b: Batch, parts: seq<Part>, k: nat) {
    && k <= |parts| && parts != []
    && PartIds(parts) == Ids(b.sel)
    && (forall i :: 0 <= i < |parts| ==>
        parts[i].mid in s.mids && parts[i].mid !in s.ledger && parts[i].mid !in s.log.booked)
    && (forall i, j :: 0 <= i < j < |parts| ==> parts[i].mid != parts[j].mid)
    && (forall i :: 0 <= i < k ==>
        parts[i].mid in s.log.accepted && s.log.accepted[parts[i].mid] == Accepted(b.d.id, parts[i].ids))
  }

  /** What is on the desk agrees with the tables. */
  ghost predicate Tidy(s: Shelf) {
    match s.desk
    case Away => true
    case Open(d, last) => At(s, d) == last
    case Reading(d, last, items) => items != [] && Between(s, d, last, High(items), Ids(items))
    case Packing(b) => b.sel != [] && Between(s, b.d.id, b.last, b.high, Ids(b.sel))
    case Mailing(b, parts, k) => b.sel != [] && Between(s, b.d.id, b.last, b.high, Ids(b.sel)) && Sealed(s, b, parts, k)
  }

  /** SMTP accepted a mail with the message in it, and the transaction that moved the cursor booked that mail. */
  ghost predicate Mailed(l: DeliveryLog, d: string, id: int) {
    (d, id) in l.mailed && var m := l.mailed[(d, id)];
    m in l.booked && m in l.accepted && l.accepted[m].dialog == d && id in l.accepted[m].ids
  }

  ghost predicate Books(s: Shelf) {
    && (forall p :: p in s.log.mailed ==> Mailed(s.log, p.0, p.1))
    && s.log.booked <= s.mids && s.log.accepted.Keys <= s.mids && s.ledger.Keys <= s.mids
    && s.echoes.Keys <= s.posted && s.log.echoed <= s.posted
    && Traced(s)
  }

  /** A ledger row is about a mail that SMTP accepted, and names the dialog its messages came from. */
  ghost predicate Traced(s: Shelf) {
    forall m :: m in s.ledger ==> m in s.log.accepted && s.log.accepted[m].dialog == s.ledger[m].dialog
  }

  /** Passed over on purpose: a reply of the bridge itself, not addressed when fetched, or behind the
      starting point of a dialog first seen with BOOTSTRAP_MODE=tail. */
  predicate PassedOver(l: DeliveryLog, d: string, id: int) {
    (d, id) in l.echoed || (d, id) in l.unaddressed || (d, id) in l.tailed
  }

  predicate Accounted(l: DeliveryLog, d: string, id: int) { (d, id) in l.mailed || PassedOver(l, d, id) }

  /** No message at or below its dialog's cursor is unaccounted for. */
  ghost predicate Complete(s: Shelf) {
    forall d, id :: id in HeldIn(s, d) && id <= At(s, d) ==> Accounted(s.log, d, id)
  }

  /** The desk holds everything up to the highest id fetched; a first fetch that only finds the tail need not. */
  ghost predicate Gapless(tail: bool, s: Shelf) {
    match s.desk
    case Away => true
    case Open(_, _) => true
    case Reading(d, last, items) =>
      items != [] && !(last == 0 && tail) ==>
        forall id :: id in HeldIn(s, d) && last < id <= High(items) ==> id in Ids(items)
    case Packing(b) => forall id :: id in HeldIn(s, b.d.id) && b.last < id <= b.high ==>
                         id in Ids(b.sel) || PassedOver(s.log, b.d.id, id)
    case Mailing(b, _, _) => forall id :: id in HeldIn(s, b.d.id) && b.last < id <= b.high ==>
                               id in Ids(b.sel) || PassedOver(s.log, b.d.id, id)
  }

  /** Committed deliveries of one dialog cover id ranges one after the other, all up to the cursor. */
  ghost predicate InTurn(s: Shelf) {
    && (forall i :: 0 <= i < |s.log.commits| ==>
          var c := s.log.commits[i]; c.high <= At(s, c.dialog) && forall id :: id in c.ids ==> c.low < id <= c.high)
    && (forall i, j :: 0 <= i < j < |s.log.commits| && s.log.commits[i].dialog == s.log.commits[j].dialog ==>
          s.log.commits[i].high <= s.log.commits[j].low)
  }

  ghost predicate Stocked(s: Shelf) {
    Numbered(s) && Tidy(s) && Books(s) && InTurn(s)
  }

  /** A reply of the bridge is still known as such, or already behind the cursor. */
  ghost predicate EchoesKnown(s: Shelf) {
    forall e :: e in s.posted ==> e in s.echoes || e.1 <= At(s, e.0)
  }

  // ---------------------------------------------------------------- steps that only clear the desk

  /** Nothing changes but that the desk may be cleared and more Message-IDs are in use. */
  ghost predicate Leaves(s: Shelf, s': Shelf) {
    && s' == s.(desk := s'.desk, mids := s'.mids)
    && (s'.desk == Away || s'.desk == s.desk)
    && s.mids <= s'.mids
  }

  lemma {:induction false} LeavesStocked(tail: bool, s: Shelf, s': Shelf)
    requires Leaves(s, s')
    ensures Stocked(s) ==> Stocked(s')
    ensures Complete(s) ==> Complete(s')
    ensures Gapless(tail, s) ==> Gapless(tail, s')
    ensures EchoesKnown(s) ==> EchoesKnown(s')
  {
    assert forall d :: At(s', d) == At(s, d) && HeldIn(s', d) == HeldIn(s, d) && TopOf(s', d) == TopOf(s, d);
  }

  predicate Handles(a: Action) {
    match a
    case World(w) => w.Appear? || w.Vanish?
    case Inbound(i) => i.OpenCursor? || i.FetchOk? || i.Bootstrap? || i.NothingSelected? || i.Select?
    case Delivery(d) => d.Compose? || d.SendOk? || d.SendFails? || d.SendEscapes? || d.Commit?
    case Mailbox(m) => CallsPost(m) || m.CommitPost?
    case Purge(_) => true
    case _ => false
  }

  lemma {:induction false} InboundLeaves(c: Config, s: State, a: Inbound)
    requires InboundMay(c, s, a) && !Handles(Inbound(a))
    ensures Leaves(ShelfOf(s), ShelfOf(InboundDoes(c, s, a)))
  {}

  lemma {:induction false} DeliveryLeaves(c: Config, s: State, a: Delivery)
    requires DeliveryMay(c, s, a) && !Handles(Delivery(a))
    ensures Leaves(ShelfOf(s), ShelfOf(DeliveryDoes(c, s, a)))
  {}

  lemma {:induction false} MailboxLeaves(c: Config, s: State, a: Mailbox)
    requires MailboxMay(c, s, a) && !Handles(Mailbox(a))
    ensures Leaves(ShelfOf(s), ShelfOf(MailboxDoes(c, s, a)))
  {}

  lemma {:induction false} NoticesLeave(c: Config, s: State, a: Notices)
    requires NoticesMay(c, s, a)
    ensures Leaves(ShelfOf(s), ShelfOf(NoticesDo(c, s, a)))
  {}

  lemma {:induction false} SessionLeaves(c: Config, s: State, a: Session)
    requires SessionMay(c, s, a)
    ensures Leaves(ShelfOf(s), ShelfOf(SessionDoes(c, s, a)))
  {}

  // ---------------------------------------------------------------- messages appearing and vanishing

  /** A message with an id above all others; the desk stays or is cleared. */
  ghost predicate Grows(s: Shelf, s': Shelf, d: string, id: int) {
    && id > TopOf(s, d)
    && s' == s.(held := s.held[d := HeldIn(s, d) + {id}], top := s.top[d := id], desk := s'.desk)
    && (s'.desk == Away || s'.desk == s.desk)
  }

  lemma {:induction false} GrowsStocked(s: Shelf, s': Shelf, d: string, id: int)
    requires Grows(s, s', d, id) && Stocked(s)
    ensures Stocked(s')
    ensures Complete(s) ==> Complete(s')
    ensures EchoesKnown(s) ==> EchoesKnown(s')
  {
    assert forall e :: At(s', e) == At(s, e) && TopOf(s', e) == (if e == d then id else TopOf(s, e));
    assert forall e :: HeldIn(s', e) == (if e == d then HeldIn(s, d) + {id} else HeldIn(s, e));
  }

  lemma {:induction false} GrowsGapless(tail: bool, s: Shelf, s': Shelf, d: string, id: int)
    requires Grows(s, s', d, id) && Stocked(s) && Gapless(tail, s)
    ensures Gapless(tail, s')
  {}

  lemma {:induction false} VanishStocked(tail: bool, s: Shelf, d: string, id: int)
    requires Stocked(s)
    ensures var s' := s.(held := s.held[d := HeldIn(s, d) - {id}]);
            Stocked(s') && (Complete(s) ==> Complete(s')) && (Gapless(tail, s) ==> Gapless(tail, s'))
              && (EchoesKnown(s) ==> EchoesKnown(s'))
  {
    var s' := s.(held := s.held[d := HeldIn(s, d) - {id}]);
    assert forall e :: At(s', e) == At(s, e) && TopOf(s', e) == TopOf(s, e);
    assert forall e, i :: i in HeldIn(s', e) ==> i in HeldIn(s, e);
  }

  // ---------------------------------------------------------------- opening a cursor and fetching

  lemma {:induction false} OpenStocked(tail: bool, s: Shelf, d: DialogRef)
    requires Stocked(s)
    ensures var s' := s.(cursors := s.cursors[d.id := CursorRow(At(s, d.id), d.tag)], desk := Open(d.id, At(s, d.id)));
            Stocked(s') && Gapless(tail, s') && (Complete(s) ==> Complete(s')) && (EchoesKnown(s) ==> EchoesKnown(s'))
  {
    var s' := s.(cursors := s.cursors[d.id := CursorRow(At(s, d.id), d.tag)], desk := Open(d.id, At(s, d.id)));
    assert forall e :: At(s', e) == At(s, e) && HeldIn(s', e) == HeldIn(s, e) && TopOf(s', e) == TopOf(s, e);
  }

  lemma {:induction false} HighIsHighest(items: seq<Item>)
    requires items != []
    ensures High(items) in Ids(items)
    ensures forall id :: id in Ids(items) ==> id <= High(items)
  {
    if |items| > 1 {
      HighIsHighest(items[1..]);
    }
  }

  lemma {:induction false} IdsLength(items: seq<Item>)
    ensures |Ids(items)| == |items|
  {
    if items != [] {
      IdsLength(items[1..]);
    }
  }

  /** Nothing up to the highest fetched id is left behind exactly when the fetch takes the oldest messages
      or takes all there are. */
  lemma {:induction false} GapFreeIff(c: Config, backlog: set<int>, items: seq<Item>)
    requires FetchOf(c, backlog, items) && items != []
    ensures (forall id :: id in backlog && id <= High(items) ==> id in Ids(items))
            <==> c.order.OldestFirst? || |backlog| <= c.fetchLimit
  {
    var ids := set id | id in Ids(items);
    HighIsHighest(items);
    FetchedCount(c, backlog, items);
    if |backlog| <= c.fetchLimit {
      SubsetOfSameSize(ids, backlog);
    } else if c.order.NewestFirst? {
      assert !(backlog <= ids) by {
        if backlog <= ids { SubsetSize(backlog, ids); }
      }
      var id := FiniteSets.Missing(ids, backlog);
      assert id < High(items);
    }
  }

  lemma {:induction false} DistinctCount(ids: seq<int>)
    requires Ascending(ids)
    ensures |set id | id in ids| == |ids|
  {
    if ids != [] {
      var rest := ids[1..];
      assert Ascending(rest);
      DistinctCount(rest);
      assert ids[0] !in rest;
      assert (set id | id in ids) == {ids[0]} + (set id | id in rest);
    } else {
      assert (set id | id in ids) == {};
    }
  }

  lemma {:induction false} FetchedCount(c: Config, backlog: set<int>, items: seq<Item>)
    requires FetchOf(c, backlog, items)
    ensures var ids := set id | id in Ids(items); ids <= backlog && |ids| == Capped(|backlog|, c.fetchLimit)
  {
    IdsLength(items);
    DistinctCount(Ids(items));
  }

  function Unread(s: Shelf, d: string, last: int): set<int> {
    set id | id in HeldIn(s, d) && last < id
  }

  /** What a fetch puts on the desk. */
  ghost predicate Fetches(c: Config, s: Shelf, d: string, last: nat, items: seq<Item>) {
    && s.desk == Open(d, last) && items != []
    && FetchOf(c, Unread(s, d, last), items)
  }

  lemma {:induction false} FetchStocked(c: Config, s: Shelf, d: string, last: nat, items: seq<Item>)
    requires Stocked(s) && Fetches(c, s, d, last, items)
    ensures var s' := s.(desk := Reading(d, last, items));
            Stocked(s') && (Complete(s) ==> Complete(s')) && (EchoesKnown(s) ==> EchoesKnown(s'))
    ensures (last == 0 && c.tail) || c.order.OldestFirst? || |Unread(s, d, last)| <= c.fetchLimit
            ==> Gapless(c.tail, s.(desk := Reading(d, last, items)))
  {
    var s' := s.(desk := Reading(d, last, items));
    HighIsHighest(items);
    GapFreeIff(c, Unread(s, d, last), items);
    assert forall e :: At(s', e) == At(s, e) && HeldIn(s', e) == HeldIn(s, e) && TopOf(s', e) == TopOf(s, e);
  }

  // ---------------------------------------------------------------- selecting and passing over

  lemma {:induction false} SelectedIds(echoes: map<(string, int), real>, d: string, last: nat, items: seq<Item>)
    ensures forall id :: id in Ids(Selected(echoes, d, last, items)) ==>
            id in Ids(items) && id > last && (d, id) !in echoes
    ensures forall id :: id in Ids(items) && id > last && id !in Ids(Selected(echoes, d, last, items)) ==>
              (d, id) in echoes || exists i :: i in items && i.id == id && !i.addressed
  {
    if items != [] {
      SelectedIds(echoes, d, last, items[1..]);
      var rest := Selected(echoes, d, last, items[1..]);
      if items[0].id > last && (d, items[0].id) !in echoes && items[0].addressed {
        assert ([items[0]] + rest)[1..] == rest;
      } else {
        assert [] + rest == rest;
      }
      assert forall i :: i in items[1..] ==> i in items;
      assert items[0] in items;
    }
  }

  lemma {:induction false} IdOf(items: seq<Item>, i: Item)
    requires i in items
    ensures i.id in Ids(items)
  {
    if i != items[0] {
      assert items == [items[0]] + items[1..];
      IdOf(items[1..], i);
    }
  }

  /** Only reasons for passing messages over are added. */
  ghost predicate Passes(l: DeliveryLog, l': DeliveryLog) {
    && l' == l.(echoed := l'.echoed, unaddressed := l'.unaddressed, tailed := l'.tailed)
    && l.echoed <= l'.echoed && l.unaddressed <= l'.unaddressed && l.tailed <= l'.tailed
  }

  /** The cursor of `d` moves up to `high`, everybody else's stays. */
  ghost predicate Moves(s: Shelf, s': Shelf, d: string, high: int) {
    forall e :: At(s', e) == if e == d && high > At(s, d) then high else At(s, e)
  }

  lemma {:induction false} PassMoves(tail: bool, s: Shelf, s': Shelf, d: string, last: nat, items: seq<Item>)
    requires Stocked(s) && s.desk == Reading(d, last, items)
    requires s' == s.(cursors := s'.cursors, log := s'.log, desk := Away)
    requires Moves(s, s', d, High(items)) && Passes(s.log, s'.log) && s'.log.echoed <= s.posted
    ensures Stocked(s') && Gapless(tail, s') && (EchoesKnown(s) ==> EchoesKnown(s'))
  {
    assert forall e :: HeldIn(s', e) == HeldIn(s, e) && TopOf(s', e) == TopOf(s, e);
    assert forall e, id :: Mailed(s.log, e, id) ==> Mailed(s'.log, e, id);
  }

  lemma {:induction false} PassComplete(s: Shelf, s': Shelf, d: string, last: nat, items: seq<Item>)
    requires Stocked(s) && s.desk == Reading(d, last, items) && Complete(s)
    requires s' == s.(cursors := s'.cursors, log := s'.log, desk := Away)
    requires Moves(s, s', d, High(items)) && Passes(s.log, s'.log)
    requires forall id :: id in HeldIn(s, d) && last < id <= High(items) ==> PassedOver(s'.log, d, id)
    ensures Complete(s')
  {
    assert forall e :: HeldIn(s', e) == HeldIn(s, e);
  }

  lemma {:induction false} SelectStocked(s: Shelf, s': Shelf, d: DialogRef, last: nat, items: seq<Item>, sel: seq<Item>)
    requires Stocked(s) && s.desk == Reading(d.id, last, items) && sel != []
    requires s' == s.(log := s'.log, desk := Packing(Batch(d, last, High(items), sel)))
    requires Passes(s.log, s'.log) && s'.log.echoed <= s.posted
    requires forall id :: id in Ids(sel) ==> id in Ids(items)
    ensures Stocked(s') && (Complete(s) ==> Complete(s')) && (EchoesKnown(s) ==> EchoesKnown(s'))
  {
    assert forall e :: At(s', e) == At(s, e) && HeldIn(s', e) == HeldIn(s, e) && TopOf(s', e) == TopOf(s, e);
    assert forall e, id :: Mailed(s.log, e, id) ==> Mailed(s'.log, e, id);
  }

  lemma {:induction false} SelectGapless(tail: bool, s: Shelf, s': Shelf, d: DialogRef, last: nat, items: seq<Item>,
                                         sel: seq<Item>)
    requires s.desk == Reading(d.id, last, items) && items != [] && Gapless(tail, s) && !(last == 0 && tail)
    requires s' == s.(log := s'.log, desk := Packing(Batch(d, last, High(items), sel)))
    requires forall id :: id in Ids(items) && id > last && id !in Ids(sel) ==> PassedOver(s'.log, d.id, id)
    ensures Gapless(tail, s')
  {}

  // ---------------------------------------------------------------- composing, sending, committing

  lemma {:induction false} ComposeStocked(tail: bool, s: Shelf, s': Shelf, b: Batch, parts: seq<Part>)
    requires Stocked(s) && s.desk == Packing(b)
    requires s' == s.(mids := s.mids + Mids(parts), desk := Mailing(b, parts, 0))
    requires PartIds(parts) == Ids(b.sel) && forall i :: 0 <= i < |parts| ==> parts[i].mid !in s.mids
    requires forall i, j :: 0 <= i < j < |parts| ==> parts[i].mid != parts[j].mid
    ensures Stocked(s')
    ensures Complete(s) ==> Complete(s')
    ensures Gapless(tail, s) ==> Gapless(tail, s')
    ensures EchoesKnown(s) ==> EchoesKnown(s')
  {
    assert forall e :: At(s', e) == At(s, e) && HeldIn(s', e) == HeldIn(s, e) && TopOf(s', e) == TopOf(s, e);
    assert parts != [] by { assert Ids(b.sel) != []; }
  }

  /** SMTP takes part k; the cycle goes on to the next part or gives up. */
  ghost predicate Takes(s: Shelf, s': Shelf, b: Batch, parts: seq<Part>, k: nat) {
    && s.desk == Mailing(b, parts, k) && k < |parts|
    && s' == s.(log := s.log.(accepted := s.log.accepted[parts[k].mid := Accepted(b.d.id, parts[k].ids)]),
                desk := s'.desk)
    && (s'.desk == Away || s'.desk == Mailing(b, parts, k + 1))
  }

  lemma {:induction false} TakesKeepsMailed(s: Shelf, s': Shelf, b: Batch, parts: seq<Part>, k: nat)
    requires Stocked(s) && Takes(s, s', b, parts, k)
    ensures forall e, id :: Mailed(s.log, e, id) ==> Mailed(s'.log, e, id)
  {}

  lemma {:induction false} TakesStocked(tail: bool, s: Shelf, s': Shelf, b: Batch, parts: seq<Part>, k: nat)
    requires Stocked(s) && Takes(s, s', b, parts, k)
    ensures Stocked(s')
    ensures Complete(s) ==> Complete(s')
    ensures Gapless(tail, s) ==> Gapless(tail, s')
    ensures EchoesKnown(s) ==> EchoesKnown(s')
  {
    TakesKeepsMailed(s, s', b, parts, k);
    assert forall e :: At(s', e) == At(s, e) && HeldIn(s', e) == HeldIn(s, e) && TopOf(s', e) == TopOf(s, e);
  }

  /** Each message of the parts is to be found in one of them. */
  ghost predicate Found(d: string, parts: seq<Part>, id: int) {
    && (d, id) in Places(d, parts)
    && exists i :: 0 <= i < |parts| && parts[i].mid == Places(d, parts)[(d, id)] && id in parts[i].ids
  }

  lemma {:induction false} PlacesFind(d: string, parts: seq<Part>)
    ensures forall p :: p in Places(d, parts) ==> p.0 == d && p.1 in PartIds(parts)
    ensures forall id :: id in PartIds(parts) ==> Found(d, parts, id)
  {
    if parts != [] {
      var rest := parts[1..];
      PlacesFind(d, rest);
      forall id | id in PartIds(parts) ensures Found(d, parts, id) {
        if id in PartIds(rest) {
          assert Found(d, rest, id);
          var i :| 0 <= i < |rest| && rest[i].mid == Places(d, rest)[(d, id)] && id in rest[i].ids;
          assert parts[i + 1] == rest[i];
        } else {
          assert (d, id) !in Places(d, rest);
          assert parts[0].mid == Places(d, parts)[(d, id)] && id in parts[0].ids;
        }
      }
    }
  }

  /** The batch is committed. */
  ghost predicate Commits(s: Shelf, s': Shelf, b: Batch, parts: seq<Part>) {
    && s.desk == Mailing(b, parts, |parts|)
    && s' == s.(cursors := s'.cursors, ledger := s'.ledger, log := s'.log, desk := Away)
    && Moves(s, s', b.d.id, b.high)
    && (forall m :: m in s'.ledger ==>
          (m in s.ledger && s'.ledger[m] == s.ledger[m]) || (m in Mids(parts) && s'.ledger[m].dialog == b.d.id))
    && s'.log == s.log.(mailed := s.log.mailed + Places(b.d.id, parts), booked := s.log.booked + Mids(parts),
                        commits := s.log.commits + [Committed(b.d.id, b.last, b.high, Ids(b.sel))])
  }

  lemma {:induction false} CommitMails(s: Shelf, s': Shelf, b: Batch, parts: seq<Part>)
    requires Stocked(s) && Commits(s, s', b, parts)
    ensures forall e, id :: Mailed(s.log, e, id) && (e, id) !in Places(b.d.id, parts) ==> Mailed(s'.log, e, id)
    ensures forall id :: id in Ids(b.sel) ==> Mailed(s'.log, b.d.id, id)
    ensures forall p :: p in s'.log.mailed ==> Mailed(s'.log, p.0, p.1)
  {
    PlacesFind(b.d.id, parts);
    forall id | id in Ids(b.sel) ensures Mailed(s'.log, b.d.id, id) {
      assert Found(b.d.id, parts, id);
    }
    forall p | p in s'.log.mailed ensures Mailed(s'.log, p.0, p.1) {
      if p !in Places(b.d.id, parts) { assert Mailed(s.log, p.0, p.1); }
    }
  }

  lemma {:induction false} CommitInTurn(s: Shelf, s': Shelf, b: Batch, parts: seq<Part>)
    requires Stocked(s) && Commits(s, s', b, parts)
    ensures InTurn(s')
  {}

  lemma {:induction false} CommitStocked(tail: bool, s: Shelf, s': Shelf, b: Batch, parts: seq<Part>)
    requires Stocked(s) && Commits(s, s', b, parts)
    ensures Stocked(s') && Gapless(tail, s')
    ensures EchoesKnown(s) ==> EchoesKnown(s')
  {
    CommitMails(s, s', b, parts);
    CommitInTurn(s, s', b, parts);
    assert forall e :: HeldIn(s', e) == HeldIn(s, e) && TopOf(s', e) == TopOf(s, e);
    assert Mids(parts) <= s.mids;
    CommitTraced(s, s', b, parts);
  }

  lemma {:induction false} CommitTraced(s: Shelf, s': Shelf, b: Batch, parts: seq<Part>)
    requires Stocked(s) && Commits(s, s', b, parts)
    ensures Traced(s')
  {}

  lemma {:induction false} CommitComplete(tail: bool, s: Shelf, s': Shelf, b: Batch, parts: seq<Part>)
    requires Stocked(s) && Commits(s, s', b, parts) && Complete(s) && Gapless(tail, s)
    ensures Complete(s')
  {
    CommitMails(s, s', b, parts);
    assert forall e :: HeldIn(s', e) == HeldIn(s, e);
  }

  lemma {:induction false} InsertsFresh(ledger: map<Mid, LedgerRow>, parts: seq<Part>, d: string, now: real)
    requires forall i :: 0 <= i < |parts| ==> parts[i].mid !in ledger
    requires forall i, j :: 0 <= i < j < |parts| ==> parts[i].mid != parts[j].mid
    ensures var l := InsertRows(ledger, Sents(parts, d), d, now); l.Some? && l.value.Keys == ledger.Keys + Mids(parts)
    decreases |parts|
  {
    if parts != [] {
      assert Sents(parts, d)[1..] == Sents(parts[1..], d);
      InsertsFresh(ledger[parts[0].mid := LedgerRow(d, now)], parts[1..], d, now);
      Intake.MidsCons(parts);
    } else {
      assert Mids(parts) == {};
    }
  }

  // ---------------------------------------------------------------- replies and retention

  lemma {:induction false} ReplyStocked(tail: bool, s: Shelf, s': Shelf, e: (string, int))
    requires Stocked(s)
    requires s' == s.(posted := s.posted + {e}, echoes := s'.echoes)
    requires s.echoes.Keys <= s'.echoes.Keys <= s.echoes.Keys + {e} && e in s'.echoes
    ensures Stocked(s')
    ensures Complete(s) ==> Complete(s')
    ensures Gapless(tail, s) ==> Gapless(tail, s')
    ensures EchoesKnown(s) ==> EchoesKnown(s')
  {
    assert forall d :: At(s', d) == At(s, d) && HeldIn(s', d) == HeldIn(s, d) && TopOf(s', d) == TopOf(s, d);
  }

  lemma {:induction false} PurgeStocked(tail: bool, s: Shelf, s': Shelf)
    requires Stocked(s) && s.desk == Away
    requires s' == s.(ledger := s'.ledger, echoes := s'.echoes)
    requires s'.echoes.Keys <= s.echoes.Keys
    requires forall m :: m in s'.ledger ==> m in s.ledger && s'.ledger[m] == s.ledger[m]
    ensures Stocked(s') && Gapless(tail, s')
    ensures Complete(s) ==> Complete(s')
    ensures EchoesKnown(s) && (forall e :: e in s.echoes && e !in s'.echoes ==> e.1 <= At(s, e.0)) ==> EchoesKnown(s')
  {
    assert forall d :: At(s', d) == At(s, d) && HeldIn(s', d) == HeldIn(s, d) && TopOf(s', d) == TopOf(s, d);
  }

  // ---------------------------------------------------------------- every step

  /** The invariant holds afterwards; completeness and knowledge of echoes carry over where they may. */
  ghost predicate Keeps(tail: bool, s: Shelf, s': Shelf, ample: bool, keeping: bool) {
    && Stocked(s')
    && (ample && Complete(s) && Gapless(tail, s) ==> Complete(s') && Gapless(tail, s'))
    && (keeping && EchoesKnown(s) ==> EchoesKnown(s'))
  }

  /** The fetch only finds the tail of a new dialog, or takes the oldest messages, or there are no more than
      it can take. */
  ghost predicate Ample(c: Config, s: State, a: Action) {
    a.Inbound? && a.i.FetchOk? && s.pc.Opened? ==>
      (s.pc.last == 0 && c.tail) || c.order.OldestFirst? || |Backlog(s.o, s.pc.d.id, s.pc.last)| <= c.fetchLimit
  }

  /** Told beforehand from the tables, the limits and the clock: every echo still above its dialog's cursor
      is young, and not so many others are as new that it may go by count. */
  predicate EchoesLast(t: Tables, p: Limits, now: real) {
    forall e :: e in t.echoes && Cursor(t, e.0) < e.1 ==>
      now - p.echoRetention <= t.echoes[e] && !MayGo(t.echoes, now - p.echoRetention, p.maxEcho, e)
  }

  /** Purges happen only where they take no such echo. */
  predicate KeepsEchoes(c: Config, s: State, a: Action) { a.Purge? ==> EchoesLast(s.t, c.limits, s.o.now) }

  /** An echo that went was old, or could be told to go by count. */
  lemma {:induction false} EchoWent(t: Tables, p: Limits, now: real, part: map<(string, int), real>, e: (string, int))
    requires EchoesTrimmed(t, p, now, part) && e in t.echoes && e !in part && now - p.echoRetention <= t.echoes[e]
    ensures MayGo(t.echoes, now - p.echoRetention, p.maxEcho, e)
  {
    GoesExactlyWhen(t.echoes, now - p.echoRetention, p.maxEcho, e);
    assert Newest(t.echoes, now - p.echoRetention, p.maxEcho, part.Keys);
  }

  lemma {:induction false} PurgeKeeps(c: Config, s: State, t: Tables)
    requires May(c, s, Purge(t)) && Stocked(ShelfOf(s))
    ensures Keeps(c.tail, ShelfOf(s), ShelfOf(s.(t := t)), true, EchoesLast(s.t, c.limits, s.o.now))
  {
    PurgeTrims(c, s, t);
    PurgeStocked(c.tail, ShelfOf(s), ShelfOf(s.(t := t)));
    if EchoesLast(s.t, c.limits, s.o.now) { OnlyPassedGo(s.t, c.limits, s.o.now, t.echoes); }
  }

  lemma {:induction false} OnlyPassedGo(t: Tables, p: Limits, now: real, part: map<(string, int), real>)
    requires EchoesTrimmed(t, p, now, part) && EchoesLast(t, p, now)
    ensures forall e :: e in t.echoes && e !in part ==> e.1 <= Cursor(t, e.0)
  {
    forall e | e in t.echoes && e !in part ensures e.1 <= Cursor(t, e.0) {
      if Cursor(t, e.0) < e.1 { EchoWent(t, p, now, part, e); }
    }
  }

  lemma {:induction false} PurgeTrims(c: Config, s: State, t: Tables)
    requires May(c, s, Purge(t))
    ensures ShelfOf(s.(t := t)) == ShelfOf(s).(ledger := t.ledger, echoes := t.echoes)
    ensures t.echoes.Keys <= s.t.echoes.Keys && EchoesTrimmed(s.t, c.limits, s.o.now, t.echoes)
    ensures forall m :: m in t.ledger ==> m in s.t.ledger && t.ledger[m] == s.t.ledger[m]
  {}

  lemma {:induction false} WorldKeeps(tail: bool, s: State, w: World)
    requires WorldMay(s.o, w) && Stocked(ShelfOf(s))
    ensures Keeps(tail, ShelfOf(s), ShelfOf(s.(o := WorldDoes(s.o, w))), true, true)
  {
    var s' := s.(o := WorldDoes(s.o, w));
    match w
    case Appear(d, id) =>
      GrowsStocked(ShelfOf(s), ShelfOf(s'), d, id);
      if Gapless(tail, ShelfOf(s)) { GrowsGapless(tail, ShelfOf(s), ShelfOf(s'), d, id); }
    case Vanish(d, id) => VanishStocked(tail, ShelfOf(s), d, id);
    case _ => assert ShelfOf(s') == ShelfOf(s);
  }

  lemma {:induction false} OpenKeeps(c: Config, s: State)
    requires InboundMay(c, s, OpenCursor) && Stocked(ShelfOf(s))
    ensures Keeps(c.tail, ShelfOf(s), ShelfOf(InboundDoes(c, s, OpenCursor)), true, true)
  {
    OpenStocked(c.tail, ShelfOf(s), s.pc.ds[0]);
  }

  lemma {:induction false} FetchKeeps(c: Config, s: State, items: seq<Item>)
    requires InboundMay(c, s, FetchOk(items)) && Stocked(ShelfOf(s))
    ensures Keeps(c.tail, ShelfOf(s), ShelfOf(InboundDoes(c, s, FetchOk(items))), Ample(c, s, Inbound(FetchOk(items))),
                  true)
  {
    var b := ShelfOf(s);
    assert Unread(b, s.pc.d.id, s.pc.last) == Backlog(s.o, s.pc.d.id, s.pc.last);
    if items == [] {
      LeavesStocked(c.tail, b, ShelfOf(InboundDoes(c, s, FetchOk(items))));
    } else {
      FetchStocked(c, b, s.pc.d.id, s.pc.last, items);
    }
  }

  lemma {:induction false} BootstrapKeeps(c: Config, s: State)
    requires InboundMay(c, s, Bootstrap) && Stocked(ShelfOf(s))
    ensures Keeps(c.tail, ShelfOf(s), ShelfOf(InboundDoes(c, s, Bootstrap)), true, true)
  {
    var b, b' := ShelfOf(s), ShelfOf(InboundDoes(c, s, Bootstrap));
    PassMoves(c.tail, b, b', s.pc.d.id, s.pc.last, s.pc.items);
    if Complete(b) && Gapless(c.tail, b) { PassComplete(b, b', s.pc.d.id, s.pc.last, s.pc.items); }
  }

  lemma {:induction false} PassOverPasses(h: Log, t: Tables, d: string, last: nat, items: seq<Item>)
    ensures Passes(h.delivery, PassOver(h, t, d, items).delivery)
    ensures h.delivery.echoed <= t.echoes.Keys ==> PassOver(h, t, d, items).delivery.echoed <= t.echoes.Keys
    ensures forall id :: id in Ids(items) && id > last && id !in Ids(Selected(t.echoes, d, last, items)) ==>
              PassedOver(PassOver(h, t, d, items).delivery, d, id)
  {
    SelectedIds(t.echoes, d, last, items);
    forall id | id in Ids(items) && (d, id) in t.echoes ensures (d, id) in PassOver(h, t, d, items).delivery.echoed {
      ItemOf(items, id);
    }
  }

  lemma {:induction false} ItemOf(items: seq<Item>, id: int)
    requires id in Ids(items)
    ensures exists i :: i in items && i.id == id
  {
    if items[0].id != id {
      ItemOf(items[1..], id);
      var i :| i in items[1..] && i.id == id;
      assert i in items;
    } else {
      assert items[0] in items;
    }
  }

  lemma {:induction false} NothingKeeps(c: Config, s: State)
    requires InboundMay(c, s, NothingSelected) && Stocked(ShelfOf(s))
    ensures Keeps(c.tail, ShelfOf(s), ShelfOf(InboundDoes(c, s, NothingSelected)), true, true)
  {
    var b, b' := ShelfOf(s), ShelfOf(InboundDoes(c, s, NothingSelected));
    PassOverPasses(s.h, s.t, s.pc.d.id, s.pc.last, s.pc.items);
    PassMoves(c.tail, b, b', s.pc.d.id, s.pc.last, s.pc.items);
    if Complete(b) && Gapless(c.tail, b) { PassComplete(b, b', s.pc.d.id, s.pc.last, s.pc.items); }
  }

  lemma {:induction false} SelectKeeps(c: Config, s: State)
    requires InboundMay(c, s, Select) && Stocked(ShelfOf(s))
    ensures Keeps(c.tail, ShelfOf(s), ShelfOf(InboundDoes(c, s, Select)), true, true)
  {
    var b, b' := ShelfOf(s), ShelfOf(InboundDoes(c, s, Select));
    var sel := Selected(s.t.echoes, s.pc.d.id, s.pc.last, s.pc.items);
    PassOverPasses(s.h, s.t, s.pc.d.id, s.pc.last, s.pc.items);
    SelectedIds(s.t.echoes, s.pc.d.id, s.pc.last, s.pc.items);
    SelectStocked(b, b', s.pc.d, s.pc.last, s.pc.items, sel);
    if Gapless(c.tail, b) { SelectGapless(c.tail, b, b', s.pc.d, s.pc.last, s.pc.items, sel); }
  }

  lemma {:induction false} InboundKeeps(c: Config, s: State, a: Inbound)
    requires InboundMay(c, s, a) && Stocked(ShelfOf(s))
    ensures Keeps(c.tail, ShelfOf(s), ShelfOf(InboundDoes(c, s, a)), Ample(c, s, Inbound(a)), true)
  {
    match a
    case OpenCursor => OpenKeeps(c, s);
    case FetchOk(items) => FetchKeeps(c, s, items);
    case Bootstrap => BootstrapKeeps(c, s);
    case NothingSelected => NothingKeeps(c, s);
    case Select => SelectKeeps(c, s);
    case _ => InboundLeaves(c, s, a); LeavesStocked(c.tail, ShelfOf(s), ShelfOf(InboundDoes(c, s, a)));
  }

  lemma {:induction false} ComposeKeeps(c: Config, s: State, parts: seq<Part>)
    requires DeliveryMay(c, s, Compose(parts)) && Stocked(ShelfOf(s))
    ensures Keeps(c.tail, ShelfOf(s), ShelfOf(DeliveryDoes(c, s, Compose(parts))), true, true)
  {
    assert forall i :: 0 <= i < |parts| ==> Fresh(s, parts[i].mid);
    ComposeStocked(c.tail, ShelfOf(s), ShelfOf(DeliveryDoes(c, s, Compose(parts))), s.pc.batch, parts);
  }

  lemma {:induction false} SendKeeps(c: Config, s: State, a: Delivery)
    requires DeliveryMay(c, s, a) && (a.SendOk? || a.SendFails? || a.SendEscapes?) && Stocked(ShelfOf(s))
    ensures Keeps(c.tail, ShelfOf(s), ShelfOf(DeliveryDoes(c, s, a)), true, true)
  {
    var b, b' := ShelfOf(s), ShelfOf(DeliveryDoes(c, s, a));
    if a.SendOk? || a.accepted {
      TakesStocked(c.tail, b, b', s.pc.batch, s.pc.parts, s.pc.k);
    } else {
      LeavesStocked(c.tail, b, b');
    }
  }

  /** The transaction of a delivery never raises: there is a part to record, and no id is taken. */
  lemma {:induction false} CommitSucceeds(c: Config, s: State)
    requires DeliveryMay(c, s, Commit) && Stocked(ShelfOf(s))
    ensures var b := s.pc.batch;
            var t := CommitDelivery(s.t, b.d, Sents(s.pc.parts, b.d.id), b.high, s.o.now);
            && t.Some?
            && (forall m :: m in t.value.ledger ==>
                  (m in s.t.ledger && t.value.ledger[m] == s.t.ledger[m])
                    || (m in Mids(s.pc.parts) && t.value.ledger[m].dialog == b.d.id))
  {
    assert Sealed(ShelfOf(s), s.pc.batch, s.pc.parts, s.pc.k);
    InsertsFresh(s.t.ledger, s.pc.parts, s.pc.batch.d.id, s.o.now);
    Intake.InsertedRows(s.t.ledger, s.pc.parts, s.pc.batch.d.id, s.o.now);
  }

  /** It leaves the old rows and adds one for each part, with the dialog and the time; it raises the cursor of its
      dialog to the highest id fetched, never lowers it, and touches nothing else. */
  lemma {:induction false} CommitRecords(c: Config, s: State)
    requires DeliveryMay(c, s, Commit) && Stocked(ShelfOf(s))
    ensures var b, mids, t := s.pc.batch, Mids(s.pc.parts), DeliveryDoes(c, s, Commit).t;
            && t.ledger.Keys == s.t.ledger.Keys + mids && s.t.ledger.Keys !! mids
            && (forall m :: m in s.t.ledger ==> t.ledger[m] == s.t.ledger[m])
            && (forall m :: m in mids ==> t.ledger[m] == LedgerRow(b.d.id, s.o.now))
            && Cursor(t, b.d.id) >= b.high && Cursor(t, b.d.id) in {b.high, Cursor(s.t, b.d.id)}
            && (forall d :: d != b.d.id ==> Cursor(t, d) == Cursor(s.t, d))
            && t == s.t.(ledger := t.ledger, cursors := t.cursors)
  {
    assert Sealed(ShelfOf(s), s.pc.batch, s.pc.parts, s.pc.k);
    InsertsFresh(s.t.ledger, s.pc.parts, s.pc.batch.d.id, s.o.now);
    Intake.InsertedRows(s.t.ledger, s.pc.parts, s.pc.batch.d.id, s.o.now);
  }

  lemma {:induction false} CommitHappens(c: Config, s: State)
    requires DeliveryMay(c, s, Commit) && Stocked(ShelfOf(s))
    ensures Commits(ShelfOf(s), ShelfOf(DeliveryDoes(c, s, Commit)), s.pc.batch, s.pc.parts)
  {
    CommitSucceeds(c, s);
  }

  lemma {:induction false} CommitKeeps(c: Config, s: State)
    requires DeliveryMay(c, s, Commit) && Stocked(ShelfOf(s))
    ensures Keeps(c.tail, ShelfOf(s), ShelfOf(DeliveryDoes(c, s, Commit)), true, true)
  {
    var b, b' := ShelfOf(s), ShelfOf(DeliveryDoes(c, s, Commit));
    CommitHappens(c, s);
    CommitStocked(c.tail, b, b', s.pc.batch, s.pc.parts);
    if Complete(b) && Gapless(c.tail, b) { CommitComplete(c.tail, b, b', s.pc.batch, s.pc.parts); }
  }

  lemma {:induction false} DeliveryKeeps(c: Config, s: State, a: Delivery)
    requires DeliveryMay(c, s, a) && Stocked(ShelfOf(s))
    ensures Keeps(c.tail, ShelfOf(s), ShelfOf(DeliveryDoes(c, s, a)), true, true)
  {
    match a
    case Compose(parts) => ComposeKeeps(c, s, parts);
    case SendOk => SendKeeps(c, s, a);
    case SendFails(_) => SendKeeps(c, s, a);
    case SendEscapes(_) => SendKeeps(c, s, a);
    case Commit => CommitKeeps(c, s);
    case _ => DeliveryLeaves(c, s, a); LeavesStocked(c.tail, ShelfOf(s), ShelfOf(DeliveryDoes(c, s, a)));
  }

  lemma {:induction false} LandKeeps(tail: bool, s: State, landed: Option<int>, lost: bool, pc: Pc)
    requires Posting(s) && Lands(s, landed) && DeskOf(pc) == Away && Stocked(ShelfOf(s))
    ensures Keeps(tail, ShelfOf(s), ShelfOf(Land(s, landed, lost).(pc := pc)), true, true)
  {
    var b, b' := ShelfOf(s), ShelfOf(Land(s, landed, lost).(pc := pc));
    if landed.None? {
      LeavesStocked(tail, b, b');
    } else {
      GrowsStocked(b, b', PostDialog(s), landed.value);
    }
  }

  lemma {:induction false} PostKeeps(c: Config, s: State, a: Mailbox)
    requires MailboxMay(c, s, a) && CallsPost(a) && Stocked(ShelfOf(s))
    ensures Keeps(c.tail, ShelfOf(s), ShelfOf(MailboxDoes(c, s, a)), true, true)
  {
    var landed := if a.PostOk? then Some(a.id) else a.landed;
    LandKeeps(c.tail, s, landed, !a.PostOk?, MailboxDoes(c, s, a).pc);
    assert ShelfOf(MailboxDoes(c, s, a)) == ShelfOf(Land(s, landed, !a.PostOk?).(pc := MailboxDoes(c, s, a).pc));
  }

  lemma {:induction false} ReplyKeeps(c: Config, s: State)
    requires MailboxMay(c, s, CommitPost) && Stocked(ShelfOf(s))
    ensures Keeps(c.tail, ShelfOf(s), ShelfOf(MailboxDoes(c, s, CommitPost)), true, true)
  {
    ReplyStocked(c.tail, ShelfOf(s), ShelfOf(MailboxDoes(c, s, CommitPost)), (s.pc.dialog, s.pc.id));
  }

  lemma {:induction false} MailboxKeeps(c: Config, s: State, a: Mailbox)
    requires MailboxMay(c, s, a) && Stocked(ShelfOf(s))
    ensures Keeps(c.tail, ShelfOf(s), ShelfOf(MailboxDoes(c, s, a)), true, true)
  {
    if a.CommitPost? {
      ReplyKeeps(c, s);
    } else if Handles(Mailbox(a)) {
      PostKeeps(c, s, a);
    } else {
      MailboxLeaves(c, s, a);
      LeavesStocked(c.tail, ShelfOf(s), ShelfOf(MailboxDoes(c, s, a)));
    }
  }

  lemma {:induction false} NoticesKeep(c: Config, s: State, a: Notices)
    requires NoticesMay(c, s, a) && Stocked(ShelfOf(s))
    ensures Keeps(c.tail, ShelfOf(s), ShelfOf(NoticesDo(c, s, a)), true, true)
  {
    NoticesLeave(c, s, a);
    LeavesStocked(c.tail, ShelfOf(s), ShelfOf(NoticesDo(c, s, a)));
  }

  lemma {:induction false} SessionKeeps(c: Config, s: State, a: Session)
    requires SessionMay(c, s, a) && Stocked(ShelfOf(s))
    ensures Keeps(c.tail, ShelfOf(s), ShelfOf(SessionDoes(c, s, a)), true, true)
  {
    SessionLeaves(c, s, a);
    LeavesStocked(c.tail, ShelfOf(s), ShelfOf(SessionDoes(c, s, a)));
  }

  lemma {:induction false} StockedStep(c: Config, s: State, a: Action)
    requires May(c, s, a) && Stocked(ShelfOf(s))
    ensures Keeps(c.tail, ShelfOf(s), ShelfOf(Do(c, s, a)), Ample(c, s, a), KeepsEchoes(c, s, a))
  {
    match a
    case World(w) => WorldKeeps(c.tail, s, w);
    case Inbound(i) => InboundKeeps(c, s, i);
    case Delivery(d) => DeliveryKeeps(c, s, d);
    case Mailbox(m) => MailboxKeeps(c, s, m);
    case Notices(n) => NoticesKeep(c, s, n);
    case Session(v) => SessionKeeps(c, s, v);
    case Purge(t) => PurgeKeeps(c, s, t);
    case _ => LeavesStocked(c.tail, ShelfOf(s), ShelfOf(Do(c, s, a)));
  }
}
