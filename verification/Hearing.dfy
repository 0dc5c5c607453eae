/** The machine's log against what the ports answered (src/mailtg_bridge/ports.py): in every run from a new
    database, rows and marks stand for answers that were given, and answers leave their rows and marks. */
module Hearing {
  import opened Domain
  import opened Database
  import opened Protocol
  import opened Ports
  import Delivery
  import Intake
  import Runs
  import Tally

  // ---------------------------------------------------------------- what SMTP accepted

  function Accepts(m: map<Mid, Accepted>, a: Answer): map<Mid, Accepted> {
    if a.ToSend? && a.letter.Delivered? && a.accepted
    then m[a.letter.part.mid := Accepted(a.letter.dialog, a.letter.part.ids)] else m
  }

  /** The parts SMTP accepted, by Message-ID. */
  function AcceptedIn(heard: seq<Answer>): map<Mid, Accepted> {
    if heard == [] then map[] else Accepts(AcceptedIn(heard[..|heard| - 1]), heard[|heard| - 1])
  }

  lemma {:induction false} AcceptedSnoc(heard: seq<Answer>, a: Answer)
    ensures AcceptedIn(heard + [a]) == Accepts(AcceptedIn(heard), a)
  {
    assert (heard + [a])[..|heard|] == heard;
  }

  predicate OfDelivery(a: Answer) { a.ToSend? && a.letter.Delivered? }

  predicate OfCommand(a: Answer) { a.ToSend? && a.letter.Confirmed? }

  /** No step takes more than one answer. */
  lemma {:induction false} OneAtMost(s: State, a: Action)
    ensures HeardIn(s, a) == [] || HeardIn(s, a) == [HeardIn(s, a)[0]]
    ensures forall x :: x in HeardIn(s, a) ==> (OfDelivery(x) ==> a.Delivery?) && (OfCommand(x) ==> a.Notices?)
  {}

  lemma {:induction false} AcceptedByDelivery(c: Config, s: State, a: Protocol.Delivery)
    requires DeliveryMay(c, s, a)
    ensures var h, log := HeardDelivery(s, a), s.h.delivery.accepted;
            DeliveryDoes(c, s, a).h.delivery.accepted == if h == [] then log else Accepts(log, h[0])
  {}

  lemma {:induction false} InboundAcceptsNone(c: Config, s: State, a: Inbound)
    requires InboundMay(c, s, a)
    ensures InboundDoes(c, s, a).h.delivery.accepted == s.h.delivery.accepted
  {}

  lemma {:induction false} RestAcceptsNone(c: Config, s: State, a: Action)
    requires May(c, s, a) && !a.Delivery? && !a.Inbound?
    ensures Do(c, s, a).h.delivery == s.h.delivery
  {}

  lemma {:induction false} AcceptedStep(c: Config, s: State, a: Action, heard: seq<Answer>)
    requires May(c, s, a) && s.h.delivery.accepted == AcceptedIn(heard)
    ensures Do(c, s, a).h.delivery.accepted == AcceptedIn(heard + HeardIn(s, a))
  {
    OneAtMost(s, a);
    if HeardIn(s, a) != [] { AcceptedSnoc(heard, HeardIn(s, a)[0]); } else { assert heard + HeardIn(s, a) == heard; }
    match a
    case Delivery(d) => AcceptedByDelivery(c, s, d);
    case Inbound(i) => InboundAcceptsNone(c, s, i);
    case _ => RestAcceptsNone(c, s, a);
  }

  /** The log names as accepted exactly what SMTP accepted. */
  lemma {:induction false} AcceptedExactly(c: Config, now: real, run: seq<Action>, s: State, heard: seq<Answer>)
    requires Leads(c, Init(now), run, s, heard)
    ensures s.h.delivery.accepted == AcceptedIn(heard)
    decreases |run|
  {
    if run != [] {
      var shorter, a, m, before := BeforeLast(c, Init(now), run, s, heard);
      AcceptedExactly(c, now, shorter, m, before);
      AcceptedStep(c, m, a, before);
    }
  }

  // ---------------------------------------------------------------- what SMTP took

  function TakenPart(dialog: string, part: Part): Answer { ToSend(Delivered(dialog, part), Taken, true) }

  /** SMTP answered that it took the mail, as part of a delivery of this dialog. */
  ghost predicate TookMail(heard: seq<Answer>, dialog: string, mid: Mid) {
    exists part: Part :: part.mid == mid && TakenPart(dialog, part) in heard
  }

  /** And that it took a mail with this message. */
  ghost predicate TookMessage(heard: seq<Answer>, dialog: string, id: int) {
    exists part: Part :: id in part.ids && TakenPart(dialog, part) in heard
  }

  datatype Shipment = Shipment(ledger: map<Mid, LedgerRow>, mailed: set<(string, int)>, dialog: string, sent: seq<Part>)

  function ShipmentOf(s: State): Shipment {
    if s.pc.Sending? && s.pc.k <= |s.pc.parts|
    then Shipment(s.t.ledger, s.h.delivery.mailed.Keys, s.pc.batch.d.id, s.pc.parts[..s.pc.k])
    else Shipment(s.t.ledger, s.h.delivery.mailed.Keys, "", [])
  }

  /** A ledger row stands for a mail that was taken, a message in the log for a mail with it that was taken; and
      the parts behind the loop were taken. */
  ghost predicate Shipped(v: Shipment, heard: seq<Answer>) {
    && (forall m :: m in v.ledger ==> TookMail(heard, v.ledger[m].dialog, m))
    && (forall p :: p in v.mailed ==> TookMessage(heard, p.0, p.1))
    && (forall p :: p in v.sent ==> TakenPart(v.dialog, p) in heard)
  }

  /** Nothing new is in the tables or sent. */
  predicate NoMore(v: Shipment, v': Shipment) {
    && v'.mailed == v.mailed && (v'.sent == [] || v' == v)
    && forall m :: m in v'.ledger ==> m in v.ledger && v'.ledger[m] == v.ledger[m]
  }

  lemma {:induction false} NoMoreShipped(v: Shipment, v': Shipment, heard: seq<Answer>, more: seq<Answer>)
    requires Shipped(v, heard) && NoMore(v, v') && heard <= more
    ensures Shipped(v', more)
  {
    forall m | m in v'.ledger ensures TookMail(more, v'.ledger[m].dialog, m) {
      var part: Part :| part.mid == m && TakenPart(v.ledger[m].dialog, part) in heard;
      assert TakenPart(v.ledger[m].dialog, part) in more;
    }
    MessagesStayTaken(v, heard, more);
  }

  lemma {:induction false} MessagesStayTaken(v: Shipment, heard: seq<Answer>, more: seq<Answer>)
    requires Shipped(v, heard) && heard <= more
    ensures forall p :: p in v.mailed ==> TookMessage(more, p.0, p.1)
    ensures forall p :: p in v.sent ==> TakenPart(v.dialog, p) in more
  {
    forall p | p in v.mailed ensures TookMessage(more, p.0, p.1) {
      var part: Part :| p.1 in part.ids && TakenPart(p.0, part) in heard;
      assert TakenPart(p.0, part) in more;
    }
  }

  lemma {:induction false} InboundNoMore(c: Config, s: State, a: Inbound)
    requires InboundMay(c, s, a)
    ensures NoMore(ShipmentOf(s), ShipmentOf(InboundDoes(c, s, a)))
  {}

  lemma {:induction false} DeliveryNoMore(c: Config, s: State, a: Protocol.Delivery)
    requires DeliveryMay(c, s, a) && !a.SendOk? && !a.Commit?
    ensures NoMore(ShipmentOf(s), ShipmentOf(DeliveryDoes(c, s, a)))
  {}

  lemma {:induction false} MailboxNoMore(c: Config, s: State, a: Mailbox)
    requires MailboxMay(c, s, a)
    ensures NoMore(ShipmentOf(s), ShipmentOf(MailboxDoes(c, s, a)))
  {}

  lemma {:induction false} NoticesNoMore(c: Config, s: State, a: Notices)
    requires NoticesMay(c, s, a)
    ensures NoMore(ShipmentOf(s), ShipmentOf(NoticesDo(c, s, a)))
  {}

  lemma {:induction false} SessionNoMore(c: Config, s: State, a: Session)
    requires SessionMay(c, s, a)
    ensures NoMore(ShipmentOf(s), ShipmentOf(SessionDoes(c, s, a)))
  {}

  lemma {:induction false} OneMorePart(c: Config, s: State, heard: seq<Answer>)
    requires DeliveryMay(c, s, SendOk) && Shipped(ShipmentOf(s), heard)
    ensures Shipped(ShipmentOf(DeliveryDoes(c, s, SendOk)), heard + HeardDelivery(s, SendOk))
  {
    var v, v', more := ShipmentOf(s), ShipmentOf(DeliveryDoes(c, s, SendOk)), heard + HeardDelivery(s, SendOk);
    NoMoreShipped(v, v.(sent := []), heard, more);
    MessagesStayTaken(v, heard, more);
    assert v' == v.(sent := v.sent + [s.pc.parts[s.pc.k]]);
    assert more[|heard|] == TakenPart(v.dialog, s.pc.parts[s.pc.k]);
  }

  lemma {:induction false} CommitIsShipped(c: Config, s: State, heard: seq<Answer>)
    requires DeliveryMay(c, s, Commit) && Shipped(ShipmentOf(s), heard)
    ensures Shipped(ShipmentOf(DeliveryDoes(c, s, Commit)), heard)
  {
    var v, v', b, parts := ShipmentOf(s), ShipmentOf(DeliveryDoes(c, s, Commit)), s.pc.batch, s.pc.parts;
    assert v.sent == parts;
    Intake.InsertedRows(s.t.ledger, parts, b.d.id, s.o.now);
    forall m | m in v'.ledger ensures TookMail(heard, v'.ledger[m].dialog, m) {
      if !(m in v.ledger && v'.ledger[m] == v.ledger[m]) { MailWasTaken(v, heard, m); }
    }
    forall p | p in v'.mailed ensures TookMessage(heard, p.0, p.1) {
      if p !in v.mailed { MessageWasTaken(v, heard, p); }
    }
  }

  lemma {:induction false} MailWasTaken(v: Shipment, heard: seq<Answer>, m: Mid)
    requires Shipped(v, heard) && m in Mids(v.sent)
    ensures TookMail(heard, v.dialog, m)
  {
    var i :| 0 <= i < |v.sent| && v.sent[i].mid == m;
    assert v.sent[i] in v.sent;
  }

  lemma {:induction false} MessageWasTaken(v: Shipment, heard: seq<Answer>, p: (string, int))
    requires Shipped(v, heard) && p in Places(v.dialog, v.sent)
    ensures TookMessage(heard, p.0, p.1)
  {
    Delivery.PlacesFind(v.dialog, v.sent);
    assert Delivery.Found(v.dialog, v.sent, p.1);
    var i :| 0 <= i < |v.sent| && v.sent[i].mid == Places(v.dialog, v.sent)[(v.dialog, p.1)] && p.1 in v.sent[i].ids;
    assert v.sent[i] in v.sent;
  }

  lemma {:induction false} RestNoMore(c: Config, s: State, a: Action)
    requires May(c, s, a) && (a.World? || a.Crash? || a.Authorize? || a.ClearWaits? || a.Purge?)
    ensures NoMore(ShipmentOf(s), ShipmentOf(Do(c, s, a)))
  {}

  lemma {:induction false} NothingShipped(c: Config, s: State, a: Action)
    requires May(c, s, a) && !(a.Delivery? && (a.d.SendOk? || a.d.Commit?))
    ensures NoMore(ShipmentOf(s), ShipmentOf(Do(c, s, a)))
  {
    match a
    case Inbound(i) => InboundNoMore(c, s, i);
    case Delivery(d) => DeliveryNoMore(c, s, d);
    case Mailbox(m) => MailboxNoMore(c, s, m);
    case Notices(n) => NoticesNoMore(c, s, n);
    case Session(v) => SessionNoMore(c, s, v);
    case _ => RestNoMore(c, s, a);
  }

  lemma {:induction false} ShippedStep(c: Config, s: State, a: Action, heard: seq<Answer>)
    requires May(c, s, a) && Shipped(ShipmentOf(s), heard)
    ensures Shipped(ShipmentOf(Do(c, s, a)), heard + HeardIn(s, a))
  {
    if a == Action.Delivery(SendOk) {
      OneMorePart(c, s, heard);
    } else if a == Action.Delivery(Commit) {
      CommitIsShipped(c, s, heard);
      assert heard + HeardIn(s, a) == heard;
    } else {
      NothingShipped(c, s, a);
      NoMoreShipped(ShipmentOf(s), ShipmentOf(Do(c, s, a)), heard, heard + HeardIn(s, a));
    }
  }

  lemma {:induction false} RunShipped(c: Config, now: real, run: seq<Action>, s: State, heard: seq<Answer>)
    requires Leads(c, Init(now), run, s, heard)
    ensures Shipped(ShipmentOf(s), heard)
    decreases |run|
  {
    if run != [] {
      var shorter, a, m, before := BeforeLast(c, Init(now), run, s, heard);
      RunShipped(c, now, shorter, m, before);
      ShippedStep(c, m, a, before);
    }
  }

  /** A ledger row is there only for a mail SMTP answered to have taken, and names the dialog it was sent for. */
  lemma {:induction false} LedgerWasTaken(c: Config, now: real, run: seq<Action>, s: State, heard: seq<Answer>)
    requires Leads(c, Init(now), run, s, heard)
    ensures forall m :: m in s.t.ledger ==> TookMail(heard, s.t.ledger[m].dialog, m)
  {
    RunShipped(c, now, run, s, heard);
    assert ShipmentOf(s).ledger == s.t.ledger;
  }

  /** At least once, by the word of SMTP: a held message at or below its cursor was in a mail SMTP answered to have
      taken, or was passed over on purpose. */
  lemma {:induction false} TakenAtLeastOnce(c: Config, now: real, run: seq<Action>, s: State, heard: seq<Answer>,
                                            d: string, id: int)
    requires Leads(c, Init(now), run, s, heard) && Legal(c, Init(now), run)
    requires Runs.Throughout(c, Init(now), run, Runs.GAPLESS) && id in Held(s.o, d) && id <= Cursor(s.t, d)
    ensures TookMessage(heard, d, id) || Delivery.PassedOver(s.h.delivery, d, id)
  {
    LeadsMeans(c, Init(now), run, s, heard);
    assert Runs.Reachable(c, s, Runs.GAPLESS);
    Runs.AtLeastOnce(c, s, d, id);
    RunShipped(c, now, run, s, heard);
    if Delivery.Mailed(s.h.delivery, d, id) { assert (d, id) in ShipmentOf(s).mailed; }
  }

  // ---------------------------------------------------------------- what Telegram posted

  /** How often a post of this mail landed in Telegram, and how often with an error for an answer. */
  function LandedFor(heard: seq<Answer>, r: Ref): nat {
    if heard == [] then 0 else One(Lands(heard[0], r)) + LandedFor(heard[1..], r)
  }

  function ErrorsFor(heard: seq<Answer>, r: Ref): nat {
    if heard == [] then 0 else One(Lands(heard[0], r) && !heard[0].post.PostedAs?) + ErrorsFor(heard[1..], r)
  }

  predicate Lands(a: Answer, r: Ref) { a.ToPost? && a.ref == r && a.landed.Some? }

  /** How often the process died between a post of this mail and its transaction. */
  ghost function DeathsAfterPost(c: Config, s: State, run: seq<Action>, r: Ref): nat
    requires Legal(c, s, run)
    decreases |run|
  {
    if run == [] then 0
    else One(run[0].Crash? && s.pc.Posted? && s.pc.ref == r) + DeathsAfterPost(c, Do(c, s, run[0]), run[1..], r)
  }

  lemma {:induction false} HeardOnce(s: State, a: Action, rest: seq<Answer>, r: Ref)
    ensures LandedFor(HeardIn(s, a) + rest, r) == LandedFor(HeardIn(s, a), r) + LandedFor(rest, r)
    ensures ErrorsFor(HeardIn(s, a) + rest, r) == ErrorsFor(HeardIn(s, a), r) + ErrorsFor(rest, r)
  {
    OneAtMost(s, a);
    if HeardIn(s, a) == [] {
      assert HeardIn(s, a) + rest == rest;
    } else {
      assert (HeardIn(s, a) + rest)[1..] == rest;
    }
  }

  lemma {:induction false} StepPosts(c: Config, s: State, a: Action, r: Ref)
    requires May(c, s, a)
    ensures LandedFor(HeardIn(s, a), r) == One(Tally.PostsFor(s, a, r))
    ensures One(Tally.Loses(s, a, r)) == ErrorsFor(HeardIn(s, a), r) + One(a.Crash? && s.pc.Posted? && s.pc.ref == r)
  {}

  lemma {:induction false} PostsHeard(c: Config, s: State, run: seq<Action>, r: Ref)
    requires Legal(c, s, run)
    ensures Tally.PostsIn(c, s, run, r) == LandedFor(Heard(c, s, run), r)
    ensures Tally.LossesIn(c, s, run, r) == ErrorsFor(Heard(c, s, run), r) + DeathsAfterPost(c, s, run, r)
    decreases |run|
  {
    if run != [] {
      var s' := Do(c, s, run[0]);
      PostsHeard(c, s', run[1..], r);
      StepPosts(c, s, run[0], r);
      HeardOnce(s, run[0], Heard(c, s', run[1..]), r);
    }
  }

  /** What landed in Telegram is what the log counts as posted; and of that only what came with an error for an
      answer, or what the process died over, counts as lost. */
  lemma {:induction false} PostsWereAnswered(c: Config, now: real, run: seq<Action>, r: Ref)
    requires Legal(c, Init(now), run)
    ensures var i, heard := After(c, Init(now), run).h.intake, Heard(c, Init(now), run);
            && CountOf(i.posts, r) == LandedFor(heard, r)
            && CountOf(i.lost, r) == ErrorsFor(heard, r) + DeathsAfterPost(c, Init(now), run, r)
  {
    Tally.RunCounted(c, Init(now), run, r);
    PostsHeard(c, Init(now), run, r);
  }

  /** The process died between this post and its transaction. */
  ghost predicate DiedOver(c: Config, now: real, run: seq<Action>, ref: Ref, dialog: string, id: int) {
    exists k, was, took :: 0 <= k < |run| && DiesOver(c, now, run, k, was, took, ref, dialog, id)
  }

  ghost predicate DiesOver(c: Config, now: real, run: seq<Action>, k: nat, was: State, took: seq<Answer>, ref: Ref,
                           dialog: string, id: int)
    requires k < |run|
  {
    Leads(c, Init(now), run[..k], was, took) && run[k].Crash? && AtPost(was, ref, dialog, id)
  }

  predicate AtPost(s: State, ref: Ref, dialog: string, id: int) {
    s.pc.Posted? && s.pc.ref == ref && s.pc.dialog == dialog && s.pc.id == id
  }

  predicate OnRecord(s: State, ref: Ref, dialog: string, id: int) {
    (dialog, id) in s.h.intake.echoes && ref in s.h.intake.replied
  }

  /** A reply answered with an id is recorded as an echo, and its mail as replied to, unless the process is about
      to or died before it could. */
  lemma {:induction false} AnsweredIsRecorded(c: Config, now: real, run: seq<Action>, s: State, heard: seq<Answer>,
                                              ref: Ref, dialog: string, id: int, landed: Option<int>)
    requires Leads(c, Init(now), run, s, heard) && ToPost(ref, dialog, PostedAs(id), landed) in heard
    ensures OnRecord(s, ref, dialog, id) || AtPost(s, ref, dialog, id) || DiedOver(c, now, run, ref, dialog, id)
    decreases |run|
  {
    assert run != [];
    var shorter, a, m, before := BeforeLast(c, Init(now), run, s, heard);
    if ToPost(ref, dialog, PostedAs(id), landed) in before {
      AnsweredIsRecorded(c, now, shorter, m, before, ref, dialog, id, landed);
      StaysRecorded(c, m, a, ref, dialog, id);
      if DiedOver(c, now, shorter, ref, dialog, id) {
        DiedBefore(c, now, shorter, a, ref, dialog, id);
      } else if a.Crash? && AtPost(m, ref, dialog, id) {
        assert run[..|shorter|] == shorter && run[|shorter|] == a;
        assert DiesOver(c, now, run, |shorter|, m, before, ref, dialog, id);
      }
    } else {
      JustPosted(c, m, a, ref, dialog, id, landed);
    }
  }

  lemma {:induction false} DiedBefore(c: Config, now: real, run: seq<Action>, a: Action, ref: Ref, dialog: string,
                                      id: int)
    requires DiedOver(c, now, run, ref, dialog, id)
    ensures DiedOver(c, now, run + [a], ref, dialog, id)
  {
    var k, was, took :| 0 <= k < |run| && DiesOver(c, now, run, k, was, took, ref, dialog, id);
    assert (run + [a])[..k] == run[..k] && (run + [a])[k] == run[k];
    assert DiesOver(c, now, run + [a], k, was, took, ref, dialog, id);
  }

  lemma {:induction false} JustPosted(c: Config, s: State, a: Action, ref: Ref, dialog: string, id: int,
                                      landed: Option<int>)
    requires May(c, s, a) && ToPost(ref, dialog, PostedAs(id), landed) in HeardIn(s, a)
    ensures AtPost(Do(c, s, a), ref, dialog, id)
  {
    assert a.Mailbox? && a.m == PostOk(id);
  }

  /** Only its transaction and death end what stands between a post and its record. */
  lemma {:induction false} StaysRecorded(c: Config, s: State, a: Action, ref: Ref, dialog: string, id: int)
    requires May(c, s, a)
    ensures OnRecord(s, ref, dialog, id) ==> OnRecord(Do(c, s, a), ref, dialog, id)
    ensures AtPost(s, ref, dialog, id) && !a.Crash? ==>
              AtPost(Do(c, s, a), ref, dialog, id) || OnRecord(Do(c, s, a), ref, dialog, id)
  {}

  // ---------------------------------------------------------------- echoes, marks, confirmations

  datatype Register = Register(echoes: set<(string, int)>, consumed: set<Ref>, pending: map<Ref, Pending>,
                               applied: seq<(Ref, bool)>, at: Pc)

  function RegisterOf(s: State): Register {
    Register(s.t.echoes.Keys, s.t.consumed.Keys, s.t.pending, s.h.intake.applied,
             if s.pc.Posted? || s.pc.Applied? then s.pc else Idle)
  }

  predicate PostedSo(heard: seq<Answer>, ref: Ref, dialog: string, id: int) {
    ToPost(ref, dialog, PostedAs(id), Some(id)) in heard
  }

  ghost predicate EchoHeard(heard: seq<Answer>, e: (string, int)) { exists ref :: PostedSo(heard, ref, e.0, e.1) }

  ghost predicate ReplyHeard(heard: seq<Answer>, r: Ref) { exists d, id :: PostedSo(heard, r, d, id) }

  /** An echo stands for a reply answered with its id; a mark for such a reply or for a command carried out; and
      what a confirmation says, queued or sent, is what was carried out. */
  ghost predicate Answered(v: Register, heard: seq<Answer>) {
    && (forall e :: e in v.echoes ==> EchoHeard(heard, e))
    && (forall r :: r in v.consumed ==> ReplyHeard(heard, r) || Tally.Commanded(v.applied, r))
    && (forall r :: r in v.pending ==> (r, v.pending[r].enabled) in v.applied)
    && (forall a :: a in heard && OfCommand(a) ==> (a.letter.ref, a.letter.on) in v.applied)
    && (v.at.Posted? ==> PostedSo(heard, v.at.ref, v.at.dialog, v.at.id))
    && (v.at.Applied? ==> (v.at.ref, v.at.on) in v.applied)
  }

  /** Nothing is new but perhaps answers that are no confirmations, or one of a command that is pending. */
  ghost predicate NoneNew(v: Register, v': Register, heard: seq<Answer>) {
    && v'.echoes <= v.echoes && v'.consumed <= v.consumed && v'.applied == v.applied
    && (forall r :: r in v'.pending ==> r in v.pending && v'.pending[r] == v.pending[r])
    && (v'.at == v.at || v'.at == Idle)
    && forall a :: a in heard && OfCommand(a) ==>
         a.letter.ref in v.pending && v.pending[a.letter.ref].enabled == a.letter.on
  }

  lemma {:induction false} HearingMore(v: Register, heard: seq<Answer>, more: seq<Answer>)
    requires Answered(v, heard)
    ensures forall e :: e in v.echoes ==> EchoHeard(heard + more, e)
    ensures forall r :: r in v.consumed ==> ReplyHeard(heard + more, r) || Tally.Commanded(v.applied, r)
  {
    forall e | e in v.echoes ensures EchoHeard(heard + more, e) {
      var ref :| PostedSo(heard, ref, e.0, e.1);
      assert PostedSo(heard + more, ref, e.0, e.1);
    }
    forall r | r in v.consumed && ReplyHeard(heard, r) ensures ReplyHeard(heard + more, r) {
      var d, id :| PostedSo(heard, r, d, id);
      assert PostedSo(heard + more, r, d, id);
    }
  }

  lemma {:induction false} NoneNewAnswered(v: Register, v': Register, heard: seq<Answer>, more: seq<Answer>)
    requires Answered(v, heard) && NoneNew(v, v', more)
    ensures Answered(v', heard + more)
  {
    HearingMore(v, heard, more);
  }

  lemma {:induction false} InboundNoneNew(c: Config, s: State, a: Inbound)
    requires InboundMay(c, s, a)
    ensures NoneNew(RegisterOf(s), RegisterOf(InboundDoes(c, s, a)), HeardInbound(s, a))
  {}

  lemma {:induction false} DeliveryNoneNew(c: Config, s: State, a: Protocol.Delivery)
    requires DeliveryMay(c, s, a)
    ensures NoneNew(RegisterOf(s), RegisterOf(DeliveryDoes(c, s, a)), HeardDelivery(s, a))
  {}

  lemma {:induction false} SessionNoneNew(c: Config, s: State, a: Session)
    requires SessionMay(c, s, a)
    ensures NoneNew(RegisterOf(s), RegisterOf(SessionDoes(c, s, a)), HeardSession(a))
  {}

  lemma {:induction false} NoticesNoneNew(c: Config, s: State, a: Notices)
    requires NoticesMay(c, s, a)
    ensures NoneNew(RegisterOf(s), RegisterOf(NoticesDo(c, s, a)), HeardNotices(s, a))
  {}

  lemma {:induction false} MailboxNoneNew(c: Config, s: State, a: Mailbox)
    requires MailboxMay(c, s, a) && !a.ApplyCommand? && !a.Queue? && !a.PostOk? && !a.CommitPost?
    ensures NoneNew(RegisterOf(s), RegisterOf(MailboxDoes(c, s, a)), HeardMailbox(s, a))
  {}

  lemma {:induction false} RestNoneNew(c: Config, s: State, a: Action)
    requires May(c, s, a) && (a.World? || a.Crash? || a.Authorize? || a.ClearWaits? || a.Purge?)
    ensures NoneNew(RegisterOf(s), RegisterOf(Do(c, s, a)), [])
  {}

  lemma {:induction false} CommandAnswered(c: Config, s: State, heard: seq<Answer>)
    requires MailboxMay(c, s, ApplyCommand) && Answered(RegisterOf(s), heard)
    ensures Answered(RegisterOf(MailboxDoes(c, s, ApplyCommand)), heard)
  {
    var v, v', m := RegisterOf(s), RegisterOf(MailboxDoes(c, s, ApplyCommand)), s.pc.ms[0];
    assert v'.applied == v.applied + [(m.ref, m.command.value)] && v'.applied[|v.applied|].0 == m.ref;
    forall r | r in v'.consumed ensures ReplyHeard(heard, r) || Tally.Commanded(v'.applied, r) {
      if r in v.consumed && Tally.Commanded(v.applied, r) {
        var i :| 0 <= i < |v.applied| && v.applied[i].0 == r;
        assert v'.applied[i].0 == r;
      }
    }
  }

  lemma {:induction false} QueueAnswered(c: Config, s: State, heard: seq<Answer>)
    requires MailboxMay(c, s, Queue) && Answered(RegisterOf(s), heard)
    ensures Answered(RegisterOf(MailboxDoes(c, s, Queue)), heard)
  {}

  lemma {:induction false} PostAnswered(c: Config, s: State, id: int, heard: seq<Answer>)
    requires MailboxMay(c, s, PostOk(id)) && Answered(RegisterOf(s), heard)
    ensures Answered(RegisterOf(MailboxDoes(c, s, PostOk(id))), heard + HeardMailbox(s, PostOk(id)))
  {
    var v, v', more := RegisterOf(s), RegisterOf(MailboxDoes(c, s, PostOk(id))), HeardMailbox(s, PostOk(id));
    NoneNewAnswered(v, v, heard, more);
    assert v' == v.(at := v'.at) && (heard + more)[|heard|] == more[0];
  }

  lemma {:induction false} ReplyAnswered(c: Config, s: State, heard: seq<Answer>)
    requires MailboxMay(c, s, CommitPost) && Answered(RegisterOf(s), heard)
    ensures Answered(RegisterOf(MailboxDoes(c, s, CommitPost)), heard)
  {
    assert PostedSo(heard, s.pc.ref, s.pc.dialog, s.pc.id);
    assert EchoHeard(heard, (s.pc.dialog, s.pc.id)) && ReplyHeard(heard, s.pc.ref);
  }

  lemma {:induction false} MailboxAnswered(c: Config, s: State, a: Mailbox, heard: seq<Answer>)
    requires MailboxMay(c, s, a) && Answered(RegisterOf(s), heard)
    ensures Answered(RegisterOf(MailboxDoes(c, s, a)), heard + HeardMailbox(s, a))
  {
    assert heard + [] == heard;
    match a
    case ApplyCommand => CommandAnswered(c, s, heard);
    case Queue => QueueAnswered(c, s, heard);
    case PostOk(id) => PostAnswered(c, s, id, heard);
    case CommitPost => ReplyAnswered(c, s, heard);
    case _ =>
      MailboxNoneNew(c, s, a);
      NoneNewAnswered(RegisterOf(s), RegisterOf(MailboxDoes(c, s, a)), heard, HeardMailbox(s, a));
  }

  lemma {:induction false} StepNoneNew(c: Config, s: State, a: Action)
    requires May(c, s, a) && !a.Mailbox?
    ensures NoneNew(RegisterOf(s), RegisterOf(Do(c, s, a)), HeardIn(s, a))
  {
    match a
    case Inbound(i) => InboundNoneNew(c, s, i);
    case Delivery(d) => DeliveryNoneNew(c, s, d);
    case Notices(n) => NoticesNoneNew(c, s, n);
    case Session(v) => SessionNoneNew(c, s, v);
    case _ => RestNoneNew(c, s, a);
  }

  lemma {:induction false} AnsweredStep(c: Config, s: State, a: Action, heard: seq<Answer>)
    requires May(c, s, a) && Answered(RegisterOf(s), heard)
    ensures Answered(RegisterOf(Do(c, s, a)), heard + HeardIn(s, a))
  {
    if a.Mailbox? {
      MailboxAnswered(c, s, a.m, heard);
    } else {
      StepNoneNew(c, s, a);
      NoneNewAnswered(RegisterOf(s), RegisterOf(Do(c, s, a)), heard, HeardIn(s, a));
    }
  }

  /** In every run: an echo stands for a reply Telegram answered with its id, a mark for such a reply or for a
      command carried out; and what a confirmation says, queued or sent, is what was carried out. */
  lemma {:induction false} RunAnswered(c: Config, now: real, run: seq<Action>, s: State, heard: seq<Answer>)
    requires Leads(c, Init(now), run, s, heard)
    ensures Answered(RegisterOf(s), heard)
    decreases |run|
  {
    if run != [] {
      var shorter, a, m, before := BeforeLast(c, Init(now), run, s, heard);
      RunAnswered(c, now, shorter, m, before);
      AnsweredStep(c, m, a, before);
    }
  }
}
