/** Each mail acts at most once, also after its consumed mark was purged
    (src/mailtg_bridge/orchestrator.py:78-99, src/mailtg_bridge/state.py:99-133, 155-165).

    The part of the state this depends on is a `Book`; a step either leaves the book alone or is one
    of the few treated below. */
module Intake {
  import opened Domain
  import opened Database
  import opened Protocol

  /** Message-IDs handed out whose mail may be on its way while no row for them exists yet. */
  function Flight(pc: Pc): set<Mid> {
    match pc
    case Sending(_, parts, _, _) => Mids(parts)
    case NoticeSent(_, mid, _) => {mid}
    case SessionSent(mid, _) => {mid}
    case _ => {}
  }

  /** The polled mails still to be looked at. */
  function Waiting(pc: Pc): seq<Mail> {
    match pc
    case Polled(ms) => ms
    case AtMail(ms) => ms
    case Applied(_, _, ms) => ms
    case Posted(_, _, _, ms) => ms
    case PostFailed(_, _, ms) => ms
    case _ => []
  }

  function Answering(pc: Pc): Option<Ref> {
    if pc.Posted? then Some(pc.ref) else None
  }

  datatype Book = Book(ledger: map<Mid, LedgerRow>, notices: map<Mid, real>, consumed: map<Ref, real>,
                       used: map<Ref, real>, inbox: map<Ref, Mail>, now: real,
                       flight: set<Mid>, waiting: seq<Mail>, answering: Option<Ref>)

  function BookOf(s: State): Book {
    Book(s.t.ledger, s.t.notices, s.t.consumed, s.h.intake.used, s.o.inbox, s.o.now,
         Flight(s.pc), Waiting(s.pc), Answering(s.pc))
  }

  // ---------------------------------------------------------------- the invariant

  /** The message `mid` is one that the mail `r` may be a reply to. */
  predicate Cites(b: Book, r: Ref, mid: Mid) { r in b.inbox && mid in b.inbox[r].parents }

  /** No row that a used mail cites is younger than the mail's first use. */
  ghost predicate NoYounger(b: Book) {
    && (forall r, m :: r in b.used && m in b.ledger && Cites(b, r, m) ==> b.ledger[m].at <= b.used[r])
    && (forall r, m :: r in b.used && m in b.notices && Cites(b, r, m) ==> b.notices[m] <= b.used[r])
  }

  /** A row that a mail acts on: a command on a delivery or a notice, a reply only on a delivery. */
  predicate LeansOn(x: Mail, ledger: set<Mid>, notices: set<Mid>, m: Mid) {
    m in x.parents && (m in ledger || (x.command.Some? && m in notices))
  }

  /** A used mail still has its mark, or no row it could act on is known any more. */
  ghost predicate MarkedOrForgotten(b: Book) {
    forall r, m :: r in b.used && r !in b.consumed && r in b.inbox ==>
      !LeansOn(b.inbox[r], b.ledger.Keys, b.notices.Keys, m)
  }

  /** A mail of a kind that ever acts. */
  predicate Actable(x: Mail) { x.trusted && (x.command.Some? || !x.empty) }

  ghost predicate Dated(b: Book) {
    && (forall m :: m in b.ledger ==> b.ledger[m].at <= b.now)
    && (forall m :: m in b.notices ==> b.notices[m] <= b.now)
    && (forall r :: r in b.consumed ==> r in b.used && b.consumed[r] == b.used[r])
  }

  /** No used mail cites an id still on its way; the mails at hand come from the mailbox; the one being
      answered was not used before. */
  ghost predicate Ahead(b: Book) {
    && (forall r :: r in b.inbox ==> b.inbox[r].ref == r)
    && (forall r :: r in b.used ==> r in b.inbox && Actable(b.inbox[r]))
    && (forall r, m :: r in b.used && m in b.flight ==> !Cites(b, r, m))
    && (forall x :: x in b.waiting ==> x.ref in b.inbox && b.inbox[x.ref] == x)
    && (b.answering.Some? ==> b.answering.value in b.inbox && Actable(b.inbox[b.answering.value])
                              && b.answering.value !in b.used && b.flight == {})
  }

  ghost predicate Settled(b: Book) {
    Ahead(b) && NoYounger(b) && MarkedOrForgotten(b) && Dated(b)
  }

  // ---------------------------------------------------------------- what steps do to the book

  /** Rows only appear for ids on their way, dated now; otherwise there is less at hand. */
  ghost predicate Records(b: Book, b': Book) {
    && b' == b.(ledger := b'.ledger, notices := b'.notices, flight := b'.flight, waiting := b'.waiting,
                answering := None)
    && (forall m :: m in b'.flight ==> m in b.flight)
    && (forall x :: x in b'.waiting ==> x in b.waiting)
    && (forall m :: m in b'.ledger ==>
        (m in b.ledger && b'.ledger[m] == b.ledger[m]) || (m in b.flight && b'.ledger[m].at == b.now))
    && (forall m :: m in b'.notices ==>
        (m in b.notices && b'.notices[m] == b.notices[m]) || (m in b.flight && b'.notices[m] == b.now))
  }

  lemma {:induction false} RecordsSettles(b: Book, b': Book)
    requires Settled(b) && Records(b, b')
    ensures Settled(b')
  {
    assert forall r, m :: Cites(b', r, m) <==> Cites(b, r, m);
    forall r, m | r in b'.used && r !in b'.consumed && r in b'.inbox
      ensures !LeansOn(b'.inbox[r], b'.ledger.Keys, b'.notices.Keys, m)
    {
      RecordsLeaveForgotten(b, b', r, m);
    }
  }

  lemma {:induction false} RecordsLeaveForgotten(b: Book, b': Book, r: Ref, m: Mid)
    requires Ahead(b) && MarkedOrForgotten(b) && Records(b, b') && r in b.used && r !in b.consumed && r in b.inbox
    ensures !LeansOn(b.inbox[r], b'.ledger.Keys, b'.notices.Keys, m)
  {
    assert !LeansOn(b.inbox[r], b.ledger.Keys, b.notices.Keys, m);
    assert m in b.flight ==> !Cites(b, r, m);
  }

  /** Fresh ids set out. */
  ghost predicate SetsOut(b: Book, b': Book) {
    && b' == b.(flight := b'.flight, waiting := b'.waiting, answering := None)
    && (forall x :: x in b'.waiting ==> x in b.waiting)
    && (forall m, r :: m in b'.flight && r in b.inbox ==> m !in b.inbox[r].parents)
  }

  lemma {:induction false} SetsOutSettles(b: Book, b': Book)
    requires Settled(b) && SetsOut(b, b')
    ensures Settled(b')
  {}

  /** A mail is used for the first time. */
  ghost predicate Uses(b: Book, b': Book, r: Ref) {
    && r in b.inbox && Actable(b.inbox[r]) && r !in b.used && b.flight == {}
    && b' == b.(consumed := b.consumed[r := b.now], used := b.used[r := b.now], waiting := b'.waiting,
                answering := None)
    && (forall x :: x in b'.waiting ==> x in b.waiting)
  }

  lemma {:induction false} UsesSettles(b: Book, b': Book, r: Ref)
    requires Settled(b) && Uses(b, b', r)
    ensures Settled(b')
  {
    assert forall q, m :: Cites(b', q, m) <==> Cites(b, q, m);
  }

  lemma {:induction false} TickSettles(b: Book, dt: real)
    requires Settled(b) && dt >= 0.0
    ensures Settled(b.(now := b.now + dt))
  {}

  lemma {:induction false} ArriveSettles(b: Book, x: Mail)
    requires Settled(b) && x.ref !in b.inbox
    ensures Settled(b.(inbox := b.inbox[x.ref := x]))
  {}

  /** Rows go; of a mark that goes with them either the age tells, or nothing it could act on stays. */
  lemma {:induction false} PurgeSettles(b: Book, b': Book, cut: real)
    requires Settled(b) && b' == b.(ledger := b'.ledger, notices := b'.notices, consumed := b'.consumed)
    requires forall m :: m in b'.ledger ==> m in b.ledger && b'.ledger[m] == b.ledger[m] && cut <= b.ledger[m].at
    requires forall m :: m in b'.notices ==> m in b.notices && b'.notices[m] == b.notices[m] && cut <= b.notices[m]
    requires forall r :: r in b'.consumed ==> r in b.consumed && b'.consumed[r] == b.consumed[r]
    requires forall r, m :: r in b.consumed && r in b.inbox && r !in b'.consumed && cut <= b.consumed[r] ==>
               !LeansOn(b.inbox[r], b'.ledger.Keys, b'.notices.Keys, m)
    ensures Settled(b')
  {
    assert forall r, m :: Cites(b', r, m) <==> Cites(b, r, m);
    forall r, m | r in b'.used && r !in b'.consumed && r in b'.inbox
      ensures !LeansOn(b'.inbox[r], b'.ledger.Keys, b'.notices.Keys, m)
    {
      AgedOut(b, b', cut, r, m);
    }
  }

  lemma {:induction false} AgedOut(b: Book, b': Book, cut: real, r: Ref, m: Mid)
    requires Settled(b) && r in b.used && r !in b'.consumed && r in b.inbox
    requires m in b'.ledger ==> m in b.ledger && cut <= b.ledger[m].at
    requires m in b'.notices ==> m in b.notices && cut <= b.notices[m]
    requires r in b.consumed && cut <= b.consumed[r] ==> !LeansOn(b.inbox[r], b'.ledger.Keys, b'.notices.Keys, m)
    ensures !LeansOn(b.inbox[r], b'.ledger.Keys, b'.notices.Keys, m)
  {
    assert !LeansOn(b.inbox[r], b.ledger.Keys, b.notices.Keys, m) || r in b.consumed;
    assert m in b.inbox[r].parents ==> Cites(b, r, m);
  }

  /** A settled book does not let a used mail act again. */
  lemma {:induction false} UsedMailsRest(b: Book, x: Mail, t: Tables, now: real)
    requires Settled(b) && t.ledger == b.ledger && t.notices == b.notices && t.consumed == b.consumed
    requires x.ref in b.inbox && b.inbox[x.ref] == x && x.ref in b.used
    ensures !Obeys(t, x) && !Posts(t, x, now)
  {
    if x.ref !in b.consumed {
      assert forall m :: !LeansOn(x, t.ledger.Keys, t.notices.Keys, m);
      NoParentKnown(t, x);
    }
  }

  lemma {:induction false} NoParentKnown(t: Tables, x: Mail)
    requires forall m :: !LeansOn(x, t.ledger.Keys, t.notices.Keys, m)
    ensures LedgerDialog(t, x.parents) == None && (x.command.Some? ==> !IsBridgeMessage(t, x.parents))
  {
    forall m | m in x.parents ensures m !in t.ledger && (x.command.Some? ==> m !in t.notices) {
      assert !LeansOn(x, t.ledger.Keys, t.notices.Keys, m);
    }
    NoneInLedger(t, x.parents);
  }

  lemma {:induction false} NoneInLedger(t: Tables, ids: seq<Mid>)
    requires forall m :: m in ids ==> m !in t.ledger
    ensures LedgerDialog(t, ids) == None
  {
    if ids != [] {
      assert ids[0] in ids;
      NoneInLedger(t, ids[1..]);
    }
  }

  // ---------------------------------------------------------------- every step settles

  predicate Particular(a: Action) {
    match a
    case Delivery(d) => d.Compose? || d.Commit?
    case Mailbox(m) => m.PollOk? || m.ApplyCommand? || m.PostOk? || m.CommitPost?
    case Notices(n) => n.NoticeOk? || n.RecordNoticeId?
    case Session(v) => v.SessionOk? || v.RecordSession?
    case World(w) => w.Tick? || w.Arrive?
    case Purge(_) => true
    case _ => false
  }

  lemma {:induction false} InboundRecords(c: Config, s: State, a: Inbound)
    requires InboundMay(c, s, a)
    ensures Records(BookOf(s), BookOf(InboundDoes(c, s, a)))
  {}

  lemma {:induction false} DeliveryRecords(c: Config, s: State, a: Delivery)
    requires DeliveryMay(c, s, a) && !Particular(Delivery(a))
    ensures Records(BookOf(s), BookOf(DeliveryDoes(c, s, a)))
  {}

  lemma {:induction false} MailboxRecords(c: Config, s: State, a: Mailbox)
    requires MailboxMay(c, s, a) && !Particular(Mailbox(a))
    ensures Records(BookOf(s), BookOf(MailboxDoes(c, s, a)))
  {
    if CallsPost(a) { PostRecords(c, s, a); }
  }

  lemma {:induction false} PostRecords(c: Config, s: State, a: Mailbox)
    requires MailboxMay(c, s, a) && CallsPost(a) && !a.PostOk?
    ensures Records(BookOf(s), BookOf(MailboxDoes(c, s, a)))
  {}

  lemma {:induction false} NoticesRecord(c: Config, s: State, a: Notices)
    requires NoticesMay(c, s, a) && !Particular(Notices(a))
    ensures Records(BookOf(s), BookOf(NoticesDo(c, s, a)))
  {}

  lemma {:induction false} SessionRecords(c: Config, s: State, a: Session)
    requires SessionMay(c, s, a) && !Particular(Session(a))
    ensures Records(BookOf(s), BookOf(SessionDoes(c, s, a)))
  {}

  lemma {:induction false} InsertedRows(ledger: map<Mid, LedgerRow>, parts: seq<Part>, dialog: string, now: real)
    ensures match InsertRows(ledger, Sents(parts, dialog), dialog, now)
            case None => true
            case Some(l) => forall m :: m in l ==>
                              (m in ledger && l[m] == ledger[m]) || (m in Mids(parts) && l[m] == LedgerRow(dialog, now))
    decreases |parts|
  {
    if parts != [] {
      assert Sents(parts, dialog)[1..] == Sents(parts[1..], dialog);
      InsertedRows(ledger[parts[0].mid := LedgerRow(dialog, now)], parts[1..], dialog, now);
      MidsCons(parts);
    }
  }

  lemma {:induction false} MidsCons(parts: seq<Part>)
    requires parts != []
    ensures Mids(parts) == {parts[0].mid} + Mids(parts[1..])
  {}

  lemma {:induction false} ComposeSettles(c: Config, s: State, parts: seq<Part>)
    requires DeliveryMay(c, s, Compose(parts)) && Settled(BookOf(s))
    ensures Settled(BookOf(DeliveryDoes(c, s, Compose(parts))))
  {
    forall m, r | m in Mids(parts) && r in s.o.inbox ensures m !in s.o.inbox[r].parents {
      var i :| 0 <= i < |parts| && parts[i].mid == m;
      assert Fresh(s, parts[i].mid);
    }
    SetsOutSettles(BookOf(s), BookOf(DeliveryDoes(c, s, Compose(parts))));
  }

  lemma {:induction false} CommitSettles(c: Config, s: State)
    requires DeliveryMay(c, s, Commit) && Settled(BookOf(s))
    ensures Settled(BookOf(DeliveryDoes(c, s, Commit)))
  {
    InsertedRows(s.t.ledger, s.pc.parts, s.pc.batch.d.id, s.o.now);
    RecordsSettles(BookOf(s), BookOf(DeliveryDoes(c, s, Commit)));
  }

  lemma {:induction false} ActsOnlyOnce(s: State)
    requires Settled(BookOf(s)) && s.pc.AtMail? && s.pc.ms != []
    ensures Obeys(s.t, s.pc.ms[0]) || Posts(s.t, s.pc.ms[0], s.o.now) ==>
              s.pc.ms[0].ref in s.o.inbox && s.pc.ms[0].ref !in s.h.intake.used && s.pc.ms[0].ref !in s.t.consumed
  {
    assert s.pc.ms[0] in Waiting(s.pc);
    if s.pc.ms[0].ref in s.h.intake.used {
      UsedMailsRest(BookOf(s), s.pc.ms[0], s.t, s.o.now);
    }
  }

  lemma {:induction false} CommandSettles(c: Config, s: State)
    requires MailboxMay(c, s, ApplyCommand) && Settled(BookOf(s))
    ensures Settled(BookOf(MailboxDoes(c, s, ApplyCommand)))
  {
    ActsOnlyOnce(s);
    UsesSettles(BookOf(s), BookOf(MailboxDoes(c, s, ApplyCommand)), s.pc.ms[0].ref);
  }

  lemma {:induction false} CommitPostSettles(c: Config, s: State)
    requires MailboxMay(c, s, CommitPost) && Settled(BookOf(s))
    ensures Settled(BookOf(MailboxDoes(c, s, CommitPost)))
  {
    UsesSettles(BookOf(s), BookOf(MailboxDoes(c, s, CommitPost)), s.pc.ref);
  }

  lemma {:induction false} PollSettles(c: Config, s: State, ms: seq<Mail>)
    requires MailboxMay(c, s, PollOk(ms)) && Settled(BookOf(s))
    ensures Settled(BookOf(MailboxDoes(c, s, PollOk(ms))))
  {
    var b, b' := BookOf(s), BookOf(MailboxDoes(c, s, PollOk(ms)));
    assert forall r, m :: Cites(b', r, m) <==> Cites(b, r, m);
  }

  lemma {:induction false} PostSettles(c: Config, s: State, id: int)
    requires MailboxMay(c, s, PostOk(id)) && Settled(BookOf(s))
    ensures Settled(BookOf(MailboxDoes(c, s, PostOk(id))))
  {
    var b, b' := BookOf(s), BookOf(MailboxDoes(c, s, PostOk(id)));
    ActsOnlyOnce(s);
    assert forall r, m :: Cites(b', r, m) <==> Cites(b, r, m);
  }

  lemma {:induction false} InboundSettles(c: Config, s: State, a: Inbound)
    requires InboundMay(c, s, a) && Settled(BookOf(s))
    ensures Settled(BookOf(InboundDoes(c, s, a)))
  {
    InboundRecords(c, s, a);
    RecordsSettles(BookOf(s), BookOf(InboundDoes(c, s, a)));
  }

  lemma {:induction false} DeliverySettles(c: Config, s: State, a: Delivery)
    requires DeliveryMay(c, s, a) && Settled(BookOf(s))
    ensures Settled(BookOf(DeliveryDoes(c, s, a)))
  {
    if a.Compose? {
      ComposeSettles(c, s, a.parts);
    } else if a.Commit? {
      CommitSettles(c, s);
    } else {
      DeliveryRecords(c, s, a);
      RecordsSettles(BookOf(s), BookOf(DeliveryDoes(c, s, a)));
    }
  }

  lemma {:induction false} MailboxSettles(c: Config, s: State, a: Mailbox)
    requires MailboxMay(c, s, a) && Settled(BookOf(s))
    ensures Settled(BookOf(MailboxDoes(c, s, a)))
  {
    match a
    case PollOk(ms) => PollSettles(c, s, ms);
    case ApplyCommand => CommandSettles(c, s);
    case PostOk(id) => PostSettles(c, s, id);
    case CommitPost => CommitPostSettles(c, s);
    case _ => MailboxRecords(c, s, a); RecordsSettles(BookOf(s), BookOf(MailboxDoes(c, s, a)));
  }

  lemma {:induction false} NoticesSettle(c: Config, s: State, a: Notices)
    requires NoticesMay(c, s, a) && Settled(BookOf(s))
    ensures Settled(BookOf(NoticesDo(c, s, a)))
  {
    var b, b' := BookOf(s), BookOf(NoticesDo(c, s, a));
    if a.NoticeOk? {
      SetsOutSettles(b, b');
    } else {
      if !Particular(Notices(a)) { NoticesRecord(c, s, a); }
      RecordsSettles(b, b');
    }
  }

  lemma {:induction false} NotifiedSettles(c: Config, s: State, a: Session)
    requires SessionMay(c, s, a) && (a.SessionOk? || a.RecordSession?) && Settled(BookOf(s))
    ensures Settled(BookOf(SessionDoes(c, s, a)))
  {
    var b, b' := BookOf(s), BookOf(SessionDoes(c, s, a));
    if a.SessionOk? { SetsOutSettles(b, b'); } else { RecordsSettles(b, b'); }
  }

  lemma {:induction false} SessionSettles(c: Config, s: State, a: Session)
    requires SessionMay(c, s, a) && Settled(BookOf(s))
    ensures Settled(BookOf(SessionDoes(c, s, a)))
  {
    if a.SessionOk? || a.RecordSession? {
      NotifiedSettles(c, s, a);
    } else {
      SessionRecords(c, s, a);
      RecordsSettles(BookOf(s), BookOf(SessionDoes(c, s, a)));
    }
  }

  lemma {:induction false} WorldSettles(s: State, w: World)
    requires WorldMay(s.o, w) && Settled(BookOf(s))
    ensures Settled(BookOf(s.(o := WorldDoes(s.o, w))))
  {
    match w
    case Tick(dt) => TickSettles(BookOf(s), dt);
    case Arrive(mail) => ArriveSettles(BookOf(s), mail);
    case _ => assert BookOf(s.(o := WorldDoes(s.o, w))) == BookOf(s);
  }

  /** Told beforehand from the tables, the limits and the clock: the mark of the mail may go by count while
      a row that the mail acts on may stay. */
  predicate MayWake(t: Tables, p: Limits, now: real, x: Mail) {
    && Actable(x) && MayGo(t.consumed, now - p.retention, p.maxConsumed, x.ref)
    && exists m :: m in x.parents && MayKeep(t, p, now, x, m)
  }

  predicate MayKeep(t: Tables, p: Limits, now: real, x: Mail, m: Mid) {
    || MayStay(LedgerAges(t), now - p.retention, p.maxLedger, m)
    || (x.command.Some? && m in t.notices && now - p.retention <= t.notices[m])
  }

  /** No mail of the mailbox is in danger. */
  ghost predicate Harmless(s: State, p: Limits) {
    forall r :: r in s.o.inbox && r in s.h.intake.used ==> !MayWake(s.t, p, s.o.now, s.o.inbox[r])
  }

  /** Purges happen only where they are harmless. */
  ghost predicate KeepsMarks(c: Config, s: State, a: Action) { a.Purge? ==> Harmless(s, c.limits) }

  lemma {:induction false} LedgerLeft(t: Tables, p: Limits, now: real, part: map<Mid, LedgerRow>)
    requires LedgerTrimmed(t, p, now, part)
    ensures forall m :: m in part ==> m in t.ledger && part[m] == t.ledger[m] && now - p.retention <= t.ledger[m].at
  {}

  lemma {:induction false} MarksLeft(t: Tables, p: Limits, now: real, part: map<Ref, real>)
    requires MarksTrimmed(t, p, now, part)
    ensures forall r :: r in part ==> r in t.consumed && part[r] == t.consumed[r]
  {}

  lemma {:induction false} NoticesLeft(t: Tables, p: Limits, now: real, part: map<Mid, real>)
    requires NoticesTrimmed(t, p, now, part)
    ensures forall m :: m in part ==> m in t.notices && part[m] == t.notices[m] && now - p.retention <= t.notices[m]
  {}

  /** A young mark that went: that could be told beforehand. */
  lemma {:induction false} MarkWent(t: Tables, p: Limits, now: real, part: map<Ref, real>, r: Ref)
    requires MarksTrimmed(t, p, now, part) && r in t.consumed && now - p.retention <= t.consumed[r] && r !in part
    ensures MayGo(t.consumed, now - p.retention, p.maxConsumed, r)
  {
    GoesExactlyWhen(t.consumed, now - p.retention, p.maxConsumed, r);
    assert Newest(t.consumed, now - p.retention, p.maxConsumed, part.Keys);
  }

  /** And so could a row that stayed. */
  lemma {:induction false} RowStayed(t: Tables, p: Limits, now: real, t': Tables, x: Mail, m: Mid)
    requires LedgerTrimmed(t, p, now, t'.ledger) && NoticesTrimmed(t, p, now, t'.notices)
    requires LeansOn(x, t'.ledger.Keys, t'.notices.Keys, m)
    ensures MayKeep(t, p, now, x, m)
  {
    StaysExactlyWhen(LedgerAges(t), now - p.retention, p.maxLedger, m);
    assert Newest(LedgerAges(t), now - p.retention, p.maxLedger, t'.ledger.Keys);
  }

  lemma {:induction false} WentAndStayed(t: Tables, p: Limits, now: real, t': Tables, x: Mail, m: Mid)
    requires Purged(t, p, now, t') && Actable(x) && x.ref in t.consumed && now - p.retention <= t.consumed[x.ref]
    requires x.ref !in t'.consumed && LeansOn(x, t'.ledger.Keys, t'.notices.Keys, m)
    ensures MayWake(t, p, now, x)
  {
    MarkWent(t, p, now, t'.consumed, x.ref);
    RowStayed(t, p, now, t', x, m);
  }

  lemma {:induction false} PurgedSettles(c: Config, s: State, t: Tables)
    requires Purged(s.t, c.limits, s.o.now, t) && Harmless(s, c.limits) && Settled(BookOf(s))
    ensures Settled(BookOf(s.(t := t)))
  {
    LedgerLeft(s.t, c.limits, s.o.now, t.ledger);
    MarksLeft(s.t, c.limits, s.o.now, t.consumed);
    NoticesLeft(s.t, c.limits, s.o.now, t.notices);
    var b, b', cut := BookOf(s), BookOf(s.(t := t)), s.o.now - c.limits.retention;
    forall r, m | r in b.consumed && r in b.inbox && r !in b'.consumed && cut <= b.consumed[r]
      ensures !LeansOn(b.inbox[r], b'.ledger.Keys, b'.notices.Keys, m)
    {
      if LeansOn(b.inbox[r], b'.ledger.Keys, b'.notices.Keys, m) {
        WentAndStayed(s.t, c.limits, s.o.now, t, b.inbox[r], m);
      }
    }
    PurgeSettles(b, b', cut);
  }

  lemma {:induction false} CrashSettles(s: State)
    requires Settled(BookOf(s))
    ensures Settled(BookOf(Halt(s.(h := Lose(s)))))
  {
    RecordsSettles(BookOf(s), BookOf(Halt(s.(h := Lose(s)))));
  }

  lemma {:induction false} SettledStep(c: Config, s: State, a: Action)
    requires May(c, s, a) && KeepsMarks(c, s, a) && Settled(BookOf(s))
    ensures Settled(BookOf(Do(c, s, a)))
  {
    match a
    case Inbound(i) => InboundSettles(c, s, i);
    case Delivery(d) => DeliverySettles(c, s, d);
    case Mailbox(m) => MailboxSettles(c, s, m);
    case Notices(n) => NoticesSettle(c, s, n);
    case Session(v) => SessionSettles(c, s, v);
    case World(w) => WorldSettles(s, w);
    case Purge(t) => PurgedSettles(c, s, t);
    case Crash => CrashSettles(s);
    case Authorize => RecordsSettles(BookOf(s), BookOf(Do(c, s, a)));
    case ClearWaits => RecordsSettles(BookOf(s), BookOf(Do(c, s, a)));
  }
}
