/** Cursors only move forward, and what is behind a cursor unaccounted for is lost for good
    (src/mailtg_bridge/state.py:69-97, src/mailtg_bridge/orchestrator.py:39-65). */
module Cursors {
  import opened Database
  import opened Protocol
  import opened Delivery

  /** No cursor moves back, no commit is undone, and messages are newly accounted for only above the cursor. */
  ghost predicate Onward(s: Shelf, s': Shelf) {
    && (forall d :: At(s, d) <= At(s', d))
    && s.log.commits <= s'.log.commits
    && (forall d, id :: Accounted(s'.log, d, id) && !Accounted(s.log, d, id) ==> id > At(s, d))
  }

  /** The desk and the parts accepted aside, the log and the cursors stay. */
  predicate Still(s: Shelf, s': Shelf) {
    && (s'.cursors == s.cursors)
    && s'.log == s.log.(accepted := s'.log.accepted)
  }

  lemma {:induction false} StillOnward(s: Shelf, s': Shelf)
    requires Still(s, s')
    ensures Onward(s, s')
  {}

  /** Messages on the desk are above the cursor. */
  lemma {:induction false} PassOnward(s: Shelf, s': Shelf, d: string, last: nat, items: seq<Item>)
    requires Stocked(s) && s.desk == Reading(d, last, items)
    requires Moves(s, s', d, High(items)) || s'.cursors == s.cursors
    requires Passes(s.log, s'.log)
    requires forall e, id :: PassedOver(s'.log, e, id) && !PassedOver(s.log, e, id) ==> e == d && id > last
    ensures Onward(s, s')
  {}

  lemma {:induction false} PassOverOnly(h: Log, t: Tables, d: string, items: seq<Item>)
    ensures forall e, id :: PassedOver(PassOver(h, t, d, items).delivery, e, id) && !PassedOver(h.delivery, e, id) ==>
              e == d && id in Ids(items)
  {
    forall i | i in items ensures i.id in Ids(items) {
      IdOf(items, i);
    }
  }

  lemma {:induction false} CommitOnward(s: Shelf, s': Shelf, b: Batch, parts: seq<Part>)
    requires Stocked(s) && Commits(s, s', b, parts)
    ensures Onward(s, s')
  {
    PlacesFind(b.d.id, parts);
    assert Between(s, b.d.id, b.last, b.high, Ids(b.sel));
  }

  lemma {:induction false} OpenOnward(c: Config, s: State)
    requires InboundMay(c, s, OpenCursor)
    ensures Onward(ShelfOf(s), ShelfOf(InboundDoes(c, s, OpenCursor)))
  {}

  lemma {:induction false} BootstrapOnward(c: Config, s: State)
    requires InboundMay(c, s, Bootstrap) && Stocked(ShelfOf(s))
    ensures Onward(ShelfOf(s), ShelfOf(InboundDoes(c, s, Bootstrap)))
  {}

  lemma {:induction false} PassOverOnward(c: Config, s: State, a: Inbound)
    requires InboundMay(c, s, a) && (a.NothingSelected? || a.Select?) && Stocked(ShelfOf(s))
    ensures Onward(ShelfOf(s), ShelfOf(InboundDoes(c, s, a)))
  {
    PassOverOnly(s.h, s.t, s.pc.d.id, s.pc.items);
    PassOverPasses(s.h, s.t, s.pc.d.id, s.pc.last, s.pc.items);
    PassOnward(ShelfOf(s), ShelfOf(InboundDoes(c, s, a)), s.pc.d.id, s.pc.last, s.pc.items);
  }

  lemma {:induction false} InboundOnward(c: Config, s: State, a: Inbound)
    requires InboundMay(c, s, a) && Stocked(ShelfOf(s))
    ensures Onward(ShelfOf(s), ShelfOf(InboundDoes(c, s, a)))
  {
    match a
    case OpenCursor => OpenOnward(c, s);
    case Bootstrap => BootstrapOnward(c, s);
    case NothingSelected => PassOverOnward(c, s, a);
    case Select => PassOverOnward(c, s, a);
    case _ => StillOnward(ShelfOf(s), ShelfOf(InboundDoes(c, s, a)));
  }

  lemma {:induction false} DeliveryOnward(c: Config, s: State, a: Protocol.Delivery)
    requires DeliveryMay(c, s, a) && Stocked(ShelfOf(s))
    ensures Onward(ShelfOf(s), ShelfOf(DeliveryDoes(c, s, a)))
  {
    if a.Commit? {
      CommitHappens(c, s);
      CommitOnward(ShelfOf(s), ShelfOf(DeliveryDoes(c, s, a)), s.pc.batch, s.pc.parts);
    } else {
      StillOnward(ShelfOf(s), ShelfOf(DeliveryDoes(c, s, a)));
    }
  }

  lemma {:induction false} OnwardStep(c: Config, s: State, a: Action)
    requires May(c, s, a) && Stocked(ShelfOf(s))
    ensures Onward(ShelfOf(s), ShelfOf(Do(c, s, a)))
  {
    match a
    case Inbound(i) => InboundOnward(c, s, i);
    case Delivery(d) => DeliveryOnward(c, s, d);
    case Mailbox(m) => MailboxStill(c, s, m); StillOnward(ShelfOf(s), ShelfOf(Do(c, s, a)));
    case Notices(n) => NoticesLeave(c, s, n); StillOnward(ShelfOf(s), ShelfOf(Do(c, s, a)));
    case Session(v) => SessionLeaves(c, s, v); StillOnward(ShelfOf(s), ShelfOf(Do(c, s, a)));
    case _ => StillOnward(ShelfOf(s), ShelfOf(Do(c, s, a)));
  }

  lemma {:induction false} MailboxStill(c: Config, s: State, a: Mailbox)
    requires MailboxMay(c, s, a)
    ensures Still(ShelfOf(s), ShelfOf(MailboxDoes(c, s, a)))
  {}
}
