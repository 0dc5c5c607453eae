/** No confirmation of a command and no notice of a lost session goes missing unnoticed
    (src/mailtg_bridge/orchestrator.py:24-30, 82-107, src/mailtg_bridge/state.py:104-115, 134-140, 150-153). */
module Confirmations {
  import opened Domain
  import opened Database
  import opened Protocol

  /** What is under way: a command carried out but its confirmation not queued yet, a confirmation sent
      and its id recorded, a session notice sent, or sent and its id recorded. */
  datatype Errand = Nothing | Confirming(ref: Ref) | Noted(mid: Mid) | Rung | Logged(mid: Mid)

  function ErrandOf(pc: Pc): Errand {
    match pc
    case Applied(ref, _, _) => Confirming(ref)
    case NoticeRecorded(_, mid, _) => Noted(mid)
    case SessionSent(_, _) => Rung
    case SessionRecorded(mid, _) => Logged(mid)
    case _ => Nothing
  }

  datatype Tray = Tray(pending: set<Ref>, known: set<Mid>, notified: bool, applied: seq<(Ref, bool)>,
                       log: NoticeLog, crashes: nat, errand: Errand)

  function TrayOf(s: State): Tray {
    Tray(s.t.pending.Keys, s.t.notices.Keys, s.t.notified, s.h.intake.applied, s.h.notice, s.h.crashes, ErrandOf(s.pc))
  }

  /** The confirmation of `ref` is waiting, sent, or about to be queued; or the process died before. */
  predicate Confirms(v: Tray, ref: Ref) {
    ref in v.pending || ref in v.log.confirmed || ref in v.log.unqueued || v.errand == Confirming(ref)
  }

  ghost predicate NoneForgotten(v: Tray) {
    && (forall p :: p in v.applied ==> Confirms(v, p.0))
    && |v.log.unqueued| <= v.crashes
    && (forall r :: r in v.log.confirmed ==> v.log.confirmed[r] in v.log.recorded)
    && (v.errand.Noted? || v.errand.Logged? ==> v.errand.mid in v.log.recorded)
  }

  /** Every session notice sent since the last setup is the one on record, is about to be, or was lost. */
  ghost predicate NoticesAddUp(v: Tray) {
    && v.log.sessionSent == v.log.sessionLost + One(v.notified) + One(v.errand.Rung? || v.errand.Logged?)
    && (v.notified || v.errand.Logged? ==> v.log.sessionMid.Some? && v.log.sessionMid.value in v.log.recorded)
    && (v.errand.Rung? || v.errand.Logged? ==> !v.notified)
  }

  ghost predicate Told(v: Tray) { NoneForgotten(v) && NoticesAddUp(v) }

  ghost predicate Known(v: Tray) { v.log.recorded <= v.known }

  /** Nothing happens here, except that an errand that leaves no trace may end. */
  predicate Rests(v: Tray, v': Tray) {
    && v' == v.(errand := v'.errand, crashes := v'.crashes)
    && v.crashes <= v'.crashes
    && (v'.errand == v.errand || (v'.errand == Nothing && (v.errand == Nothing || v.errand.Noted?)))
  }

  lemma {:induction false} RestsTold(v: Tray, v': Tray)
    requires Told(v) && Rests(v, v')
    ensures Told(v') && (Known(v) ==> Known(v'))
  {}

  lemma {:induction false} InboundRests(c: Config, s: State, a: Inbound)
    requires InboundMay(c, s, a)
    ensures Rests(TrayOf(s), TrayOf(InboundDoes(c, s, a)))
  {}

  lemma {:induction false} DeliveryRests(c: Config, s: State, a: Delivery)
    requires DeliveryMay(c, s, a)
    ensures Rests(TrayOf(s), TrayOf(DeliveryDoes(c, s, a)))
  {}

  lemma {:induction false} MailboxRests(c: Config, s: State, a: Mailbox)
    requires MailboxMay(c, s, a) && !a.ApplyCommand? && !a.Queue?
    ensures Rests(TrayOf(s), TrayOf(MailboxDoes(c, s, a)))
  {}

  lemma {:induction false} CommandTold(c: Config, s: State)
    requires MailboxMay(c, s, ApplyCommand) && Told(TrayOf(s))
    ensures Told(TrayOf(MailboxDoes(c, s, ApplyCommand)))
  {}

  lemma {:induction false} QueueTold(c: Config, s: State)
    requires MailboxMay(c, s, Queue) && Told(TrayOf(s))
    ensures Told(TrayOf(MailboxDoes(c, s, Queue)))
  {}

  lemma {:induction false} MailboxTold(c: Config, s: State, a: Mailbox)
    requires MailboxMay(c, s, a) && Told(TrayOf(s))
    ensures Told(TrayOf(MailboxDoes(c, s, a)))
    ensures Known(TrayOf(s)) ==> Known(TrayOf(MailboxDoes(c, s, a)))
  {
    if a.ApplyCommand? {
      CommandTold(c, s);
    } else if a.Queue? {
      QueueTold(c, s);
    } else {
      MailboxRests(c, s, a);
      RestsTold(TrayOf(s), TrayOf(MailboxDoes(c, s, a)));
    }
  }

  lemma {:induction false} NoticesTold(c: Config, s: State, a: Notices)
    requires NoticesMay(c, s, a) && Told(TrayOf(s))
    ensures Told(TrayOf(NoticesDo(c, s, a)))
    ensures Known(TrayOf(s)) ==> Known(TrayOf(NoticesDo(c, s, a)))
  {}

  /** Only the session notices move; the confirmations do not. */
  lemma {:induction false} SessionForgetsNone(c: Config, s: State, a: Session)
    requires SessionMay(c, s, a) && Told(TrayOf(s))
    ensures NoneForgotten(TrayOf(SessionDoes(c, s, a)))
    ensures Known(TrayOf(s)) ==> Known(TrayOf(SessionDoes(c, s, a)))
  {
    var v, v' := TrayOf(s), TrayOf(SessionDoes(c, s, a));
    assert forall r :: Confirms(v, r) ==> Confirms(v', r);
  }

  lemma {:induction false} SessionAddsUp(c: Config, s: State, a: Session)
    requires SessionMay(c, s, a) && Told(TrayOf(s)) && (s.t.valid ==> !s.t.notified)
    ensures NoticesAddUp(TrayOf(SessionDoes(c, s, a)))
  {}

  lemma {:induction false} CrashTold(s: State)
    requires Told(TrayOf(s))
    ensures Told(TrayOf(Halt(s.(h := Lose(s))))) && (Known(TrayOf(s)) ==> Known(TrayOf(Halt(s.(h := Lose(s))))))
  {}

  lemma {:induction false} AuthorizeTold(c: Config, s: State)
    requires May(c, s, Authorize) && Told(TrayOf(s))
    ensures Told(TrayOf(Do(c, s, Authorize))) && (Known(TrayOf(s)) ==> Known(TrayOf(Do(c, s, Authorize))))
  {}

  /** Told beforehand from the table, the limit and the clock: no recorded Message-ID is old. */
  predicate NoticesLast(t: Tables, p: Limits, now: real) {
    forall m :: m in t.notices ==> now - p.retention <= t.notices[m]
  }

  /** Purges happen only where they take no recorded Message-ID. */
  predicate KeepsNotices(c: Config, s: State, a: Action) { a.Purge? ==> NoticesLast(s.t, c.limits, s.o.now) }

  lemma {:induction false} PurgeTold(c: Config, s: State, t: Tables)
    requires May(c, s, Purge(t)) && Told(TrayOf(s))
    ensures Told(TrayOf(s.(t := t))) && (Known(TrayOf(s)) && KeepsNotices(c, s, Purge(t)) ==> Known(TrayOf(s.(t := t))))
  {}

  lemma {:induction false} ToldStep(c: Config, s: State, a: Action)
    requires May(c, s, a) && Told(TrayOf(s)) && (s.t.valid ==> !s.t.notified)
    ensures Told(TrayOf(Do(c, s, a)))
    ensures Known(TrayOf(s)) && KeepsNotices(c, s, a) ==> Known(TrayOf(Do(c, s, a)))
  {
    match a
    case Inbound(i) => InboundRests(c, s, i); RestsTold(TrayOf(s), TrayOf(Do(c, s, a)));
    case Delivery(d) => DeliveryRests(c, s, d); RestsTold(TrayOf(s), TrayOf(Do(c, s, a)));
    case Mailbox(m) => MailboxTold(c, s, m);
    case Notices(n) => NoticesTold(c, s, n);
    case Session(v) => SessionForgetsNone(c, s, v); SessionAddsUp(c, s, v);
    case Crash => CrashTold(s);
    case Authorize => AuthorizeTold(c, s);
    case Purge(t) => PurgeTold(c, s, t);
    case World(_) => assert TrayOf(Do(c, s, a)) == TrayOf(s);
    case ClearWaits => RestsTold(TrayOf(s), TrayOf(Do(c, s, a)));
  }

  lemma {:induction false} CommandConfirmed(v: Tray, r: Ref)
    requires NoneForgotten(v) && exists i :: 0 <= i < |v.applied| && v.applied[i].0 == r
    ensures Confirms(v, r) && (v.crashes == 0 ==> v.log.unqueued == {})
  {}

  /** A later command that answers a confirmation is obeyed. */
  lemma {:induction false} ConfirmationCanBeAnswered(s: State, ref: Ref, m: Mail)
    requires Told(TrayOf(s)) && Known(TrayOf(s))
    requires ref in s.h.notice.confirmed && s.h.notice.confirmed[ref] in m.parents
    requires m.trusted && m.command.Some? && m.ref !in s.t.consumed
    ensures Obeys(s.t, m)
  {}

  // ---------------------------------------------------------------- session notices, counted over a run

  /** The step gets a session notice accepted. */
  predicate Announces(a: Action) {
    a.Session? && (a.v.SessionOk? || ((a.v.SessionFails? || a.v.SessionEscapes?) && a.v.accepted))
  }

  /** The step gives up the record of one: the call failed although the notice was accepted, or the process
      dies before the session is marked as notified. */
  predicate Unrecorded(s: State, a: Action) {
    || (Announces(a) && !a.v.SessionOk?)
    || (a.Crash? && (s.pc.SessionSent? || s.pc.SessionRecorded?))
  }

  /** A setup starts the count anew. */
  function CountOn(n: nat, a: Action, counts: bool): nat { if a.Authorize? then 0 else n + One(counts) }

  /** Session notices accepted in a run since its last setup, after `n` before it. */
  function AnnouncedSince(run: seq<Action>, n: nat): nat
    decreases |run|
  {
    if run == [] then n else AnnouncedSince(run[1..], CountOn(n, run[0], Announces(run[0])))
  }

  /** Those of them that were never recorded. */
  ghost function UnrecordedSince(c: Config, s: State, run: seq<Action>, n: nat): nat
    requires Legal(c, s, run)
    decreases |run|
  {
    if run == [] then n
    else UnrecordedSince(c, Do(c, s, run[0]), run[1..], CountOn(n, run[0], Unrecorded(s, run[0])))
  }

  predicate Counted(s: State, s': State, a: Action) {
    var n, n' := s.h.notice, s'.h.notice;
    && n'.sessionSent == CountOn(n.sessionSent, a, Announces(a))
    && n'.sessionLost == CountOn(n.sessionLost, a, Unrecorded(s, a))
  }

  lemma {:induction false} MailboxAnnouncesNone(c: Config, s: State, a: Mailbox)
    requires MailboxMay(c, s, a)
    ensures Counted(s, MailboxDoes(c, s, a), Mailbox(a))
  {}

  lemma {:induction false} NoticesAnnounceNone(c: Config, s: State, a: Notices)
    requires NoticesMay(c, s, a)
    ensures Counted(s, NoticesDo(c, s, a), Notices(a))
  {}

  lemma {:induction false} SessionCounted(c: Config, s: State, a: Session)
    requires SessionMay(c, s, a)
    ensures Counted(s, SessionDoes(c, s, a), Session(a))
  {}

  lemma {:induction false} NoticeCounted(c: Config, s: State, a: Action)
    requires May(c, s, a)
    ensures Counted(s, Do(c, s, a), a)
  {
    match a
    case Inbound(i) => InboundRests(c, s, i);
    case Delivery(d) => DeliveryRests(c, s, d);
    case Mailbox(m) => MailboxAnnouncesNone(c, s, m);
    case Notices(n) => NoticesAnnounceNone(c, s, n);
    case Session(v) => SessionCounted(c, s, v);
    case _ =>
  }

  lemma {:induction false} SentCounted(c: Config, s: State, run: seq<Action>)
    requires Legal(c, s, run)
    ensures After(c, s, run).h.notice.sessionSent == AnnouncedSince(run, s.h.notice.sessionSent)
    decreases |run|
  {
    if run != [] {
      NoticeCounted(c, s, run[0]);
      SentCounted(c, Do(c, s, run[0]), run[1..]);
    }
  }

  lemma {:induction false} LostCounted(c: Config, s: State, run: seq<Action>)
    requires Legal(c, s, run)
    ensures After(c, s, run).h.notice.sessionLost == UnrecordedSince(c, s, run, s.h.notice.sessionLost)
    decreases |run|
  {
    if run != [] {
      NoticeCounted(c, s, run[0]);
      LostCounted(c, Do(c, s, run[0]), run[1..]);
    }
  }

  /** The two counters of the log are the numbers of such steps since the last setup. */
  lemma {:induction false} NoticesCounted(c: Config, s: State, run: seq<Action>)
    requires Legal(c, s, run)
    ensures After(c, s, run).h.notice.sessionSent == AnnouncedSince(run, s.h.notice.sessionSent)
    ensures After(c, s, run).h.notice.sessionLost == UnrecordedSince(c, s, run, s.h.notice.sessionLost)
  {
    SentCounted(c, s, run);
    LostCounted(c, s, run);
  }
}
