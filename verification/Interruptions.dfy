/** Which confirmations are lost: those of the commands after which the process died before queueing them
    (src/mailtg_bridge/orchestrator.py:87-89, 102-107). */
module Interruptions {
  import opened Domain
  import opened Database
  import opened Protocol
  import opened Intake

  /** The process dies between carrying out the command and queueing its confirmation. */
  predicate Interrupts(s: State, a: Action, r: Ref) { a.Crash? && s.pc.Applied? && s.pc.ref == r }

  /** The run dies so for the command at some point. */
  ghost predicate Interrupted(c: Config, s: State, run: seq<Action>, r: Ref)
    requires Legal(c, s, run)
    decreases |run|
  {
    run != [] && (Interrupts(s, run[0], r) || Interrupted(c, Do(c, s, run[0]), run[1..], r))
  }

  /** The log of unqueued confirmations grows by just that. */
  predicate UnqueuedGrows(s: State, s': State, a: Action) {
    s'.h.notice.unqueued == s.h.notice.unqueued + (if a.Crash? && s.pc.Applied? then {s.pc.ref} else {})
  }

  lemma {:induction false} InboundNoted(c: Config, s: State, a: Inbound)
    requires InboundMay(c, s, a)
    ensures UnqueuedGrows(s, InboundDoes(c, s, a), Inbound(a))
  {}

  lemma {:induction false} DeliveryNoted(c: Config, s: State, a: Delivery)
    requires DeliveryMay(c, s, a)
    ensures UnqueuedGrows(s, DeliveryDoes(c, s, a), Delivery(a))
  {}

  lemma {:induction false} MailboxNoted(c: Config, s: State, a: Mailbox)
    requires MailboxMay(c, s, a)
    ensures UnqueuedGrows(s, MailboxDoes(c, s, a), Mailbox(a))
  {}

  lemma {:induction false} NoticesNoted(c: Config, s: State, a: Notices)
    requires NoticesMay(c, s, a)
    ensures UnqueuedGrows(s, NoticesDo(c, s, a), Notices(a))
  {}

  lemma {:induction false} SessionNoted(c: Config, s: State, a: Session)
    requires SessionMay(c, s, a)
    ensures UnqueuedGrows(s, SessionDoes(c, s, a), Session(a))
  {}

  lemma {:induction false} StepNoted(c: Config, s: State, a: Action)
    requires May(c, s, a)
    ensures UnqueuedGrows(s, Do(c, s, a), a)
  {
    match a
    case Inbound(i) => InboundNoted(c, s, i);
    case Delivery(d) => DeliveryNoted(c, s, d);
    case Mailbox(m) => MailboxNoted(c, s, m);
    case Notices(n) => NoticesNoted(c, s, n);
    case Session(v) => SessionNoted(c, s, v);
    case _ =>
  }

  /** The log names exactly the commands the run died after. */
  lemma {:induction false} UnqueuedExactlyWhen(c: Config, s: State, run: seq<Action>, r: Ref)
    requires Legal(c, s, run)
    ensures r in After(c, s, run).h.notice.unqueued <==> r in s.h.notice.unqueued || Interrupted(c, s, run, r)
    decreases |run|
  {
    if run != [] {
      StepNoted(c, s, run[0]);
      UnqueuedExactlyWhen(c, Do(c, s, run[0]), run[1..], r);
    }
  }

  // ---------------------------------------------------------------- and they stay lost

  /** The commands whose confirmation is being seen to. */
  function AtHand(pc: Pc): set<Ref> {
    match pc
    case Applied(ref, _, _) => {ref}
    case Flushing(refs) => set r | r in refs
    case NoticeSent(ref, _, refs) => {ref} + set r | r in refs
    case NoticeRecorded(ref, _, refs) => {ref} + set r | r in refs
    case NoticeFailed(ref, refs) => {ref} + set r | r in refs
    case _ => {}
  }

  /** The commands whose confirmation is waiting, sent or being seen to; those it was lost for; those used. */
  datatype Fates = Fates(pending: set<Ref>, confirmed: set<Ref>, atHand: set<Ref>, newly: bool, unqueued: set<Ref>,
                         used: set<Ref>)

  function FatesOf(s: State): Fates {
    Fates(s.t.pending.Keys, s.h.notice.confirmed.Keys, AtHand(s.pc), s.pc.Applied?, s.h.notice.unqueued,
          s.h.intake.used.Keys)
  }

  /** No command whose confirmation was lost has one waiting, sent or being seen to; a command just carried
      out has none yet. */
  predicate Fated(v: Fates) {
    && v.unqueued !! v.pending && v.unqueued !! v.confirmed && v.unqueued !! v.atHand
    && v.pending + v.confirmed + v.atHand + v.unqueued <= v.used
    && (v.newly ==> v.atHand !! v.pending && v.atHand !! v.confirmed)
  }

  /** Nothing happens here, but that an errand is dropped or a mail used. */
  predicate Idles(v: Fates, v': Fates) {
    v' == v.(atHand := v'.atHand, newly := v'.newly, used := v'.used)
    && v'.atHand <= v.atHand && v.used <= v'.used && (v'.newly ==> v.newly)
  }

  lemma {:induction false} IdlesFated(v: Fates, v': Fates)
    requires Fated(v) && Idles(v, v')
    ensures Fated(v')
  {}

  lemma {:induction false} InboundIdles(c: Config, s: State, a: Inbound)
    requires InboundMay(c, s, a)
    ensures Idles(FatesOf(s), FatesOf(InboundDoes(c, s, a)))
  {}

  lemma {:induction false} DeliveryIdles(c: Config, s: State, a: Delivery)
    requires DeliveryMay(c, s, a)
    ensures Idles(FatesOf(s), FatesOf(DeliveryDoes(c, s, a)))
  {}

  lemma {:induction false} SessionIdles(c: Config, s: State, a: Session)
    requires SessionMay(c, s, a)
    ensures Idles(FatesOf(s), FatesOf(SessionDoes(c, s, a)))
  {}

  lemma {:induction false} MailboxIdles(c: Config, s: State, a: Mailbox)
    requires MailboxMay(c, s, a) && !a.ApplyCommand? && !a.Queue?
    ensures Idles(FatesOf(s), FatesOf(MailboxDoes(c, s, a)))
  {}

  lemma {:induction false} CommandFated(c: Config, s: State)
    requires MailboxMay(c, s, ApplyCommand) && Settled(BookOf(s)) && Fated(FatesOf(s))
    ensures Fated(FatesOf(MailboxDoes(c, s, ApplyCommand)))
  {
    ActsOnlyOnce(s);
    CommandTaken(c, s);
    TakenFated(FatesOf(s), FatesOf(MailboxDoes(c, s, ApplyCommand)), s.pc.ms[0].ref);
  }

  lemma {:induction false} CommandTaken(c: Config, s: State)
    requires MailboxMay(c, s, ApplyCommand)
    ensures var r, v := s.pc.ms[0].ref, FatesOf(s);
            FatesOf(MailboxDoes(c, s, ApplyCommand)) == v.(atHand := {r}, newly := true, used := v.used + {r})
  {}

  lemma {:induction false} TakenFated(v: Fates, v': Fates, r: Ref)
    requires Fated(v) && r !in v.used && v' == v.(atHand := {r}, newly := true, used := v.used + {r})
    ensures Fated(v')
  {}

  lemma {:induction false} QueueFated(c: Config, s: State)
    requires MailboxMay(c, s, Queue) && Fated(FatesOf(s))
    ensures Fated(FatesOf(MailboxDoes(c, s, Queue)))
  {
    var v, v' := FatesOf(s), FatesOf(MailboxDoes(c, s, Queue));
    assert v' == v.(pending := v.pending + {s.pc.ref}, atHand := {}, newly := false);
  }

  lemma {:induction false} NoticesFated(c: Config, s: State, a: Notices)
    requires NoticesMay(c, s, a) && Fated(FatesOf(s))
    ensures Fated(FatesOf(NoticesDo(c, s, a)))
  {
    var v, v' := FatesOf(s), FatesOf(NoticesDo(c, s, a));
    if a.EndOfMail? {
      assert v' == v.(atHand := v.pending);
    } else if a.DropNotice? {
      assert v' == v.(pending := v.pending - {s.pc.ref}, confirmed := v.confirmed + {s.pc.ref}, atHand := v'.atHand);
      assert v'.atHand <= v.atHand;
    } else {
      NoticesIdle(c, s, a);
    }
  }

  lemma {:induction false} NoticesIdle(c: Config, s: State, a: Notices)
    requires NoticesMay(c, s, a) && !a.EndOfMail? && !a.DropNotice?
    ensures Idles(FatesOf(s), FatesOf(NoticesDo(c, s, a)))
  {}

  lemma {:induction false} CrashFated(s: State)
    requires Fated(FatesOf(s))
    ensures Fated(FatesOf(Halt(s.(h := Lose(s)))))
  {
    var v, v' := FatesOf(s), FatesOf(Halt(s.(h := Lose(s))));
    assert v' == v.(atHand := {}, newly := false, unqueued := if v.newly then v.unqueued + v.atHand else v.unqueued);
  }

  lemma {:induction false} FatedStep(c: Config, s: State, a: Action)
    requires May(c, s, a) && Settled(BookOf(s)) && Fated(FatesOf(s))
    ensures Fated(FatesOf(Do(c, s, a)))
  {
    match a
    case Mailbox(m) => MailboxFated(c, s, m);
    case Notices(n) => NoticesFated(c, s, n);
    case Crash => CrashFated(s);
    case _ => RestFated(c, s, a);
  }

  lemma {:induction false} RestFated(c: Config, s: State, a: Action)
    requires May(c, s, a) && !a.Mailbox? && !a.Notices? && !a.Crash? && Fated(FatesOf(s))
    ensures Fated(FatesOf(Do(c, s, a)))
  {
    RestIdles(c, s, a);
    IdlesFated(FatesOf(s), FatesOf(Do(c, s, a)));
  }

  /** A confirmation once lost is not waiting, sent or about to be queued. */
  lemma {:induction false} LostIsLost(s: State, r: Ref)
    requires Fated(FatesOf(s)) && r in s.h.notice.unqueued
    ensures r !in s.t.pending && r !in s.h.notice.confirmed && !(s.pc.Applied? && s.pc.ref == r)
  {}

  lemma {:induction false} RestIdles(c: Config, s: State, a: Action)
    requires May(c, s, a) && !a.Mailbox? && !a.Notices? && !a.Crash?
    ensures Idles(FatesOf(s), FatesOf(Do(c, s, a)))
  {
    match a
    case Inbound(i) => InboundIdles(c, s, i);
    case Delivery(d) => DeliveryIdles(c, s, d);
    case Session(v) => SessionIdles(c, s, v);
    case _ =>
  }

  lemma {:induction false} MailboxFated(c: Config, s: State, a: Mailbox)
    requires MailboxMay(c, s, a) && Settled(BookOf(s)) && Fated(FatesOf(s))
    ensures Fated(FatesOf(MailboxDoes(c, s, a)))
  {
    if a.ApplyCommand? {
      CommandFated(c, s);
    } else if a.Queue? {
      QueueFated(c, s);
    } else {
      MailboxIdles(c, s, a);
      IdlesFated(FatesOf(s), FatesOf(MailboxDoes(c, s, a)));
    }
  }
}
