/** The switch and the session gate everything that goes to Telegram
    (src/mailtg_bridge/orchestrator.py:19, 24-35, 71, 93-101). */
module Gates {
  import opened Database
  import opened Protocol

  /** Somewhere in an inbound cycle. */
  predicate InCycle(pc: Pc) {
    || pc.Listed? || pc.ListFailed? || pc.AtDialog? || pc.Opened? || pc.Clearing? || pc.Fetched?
    || pc.Downloading? || pc.Sending? || pc.DialogFailed?
  }

  /** A call that goes to Telegram, whatever comes of it: list, fetch, download or post. */
  predicate CallsTelegram(s: State, a: Action) {
    match a
    case Inbound(i) => i.ListOk? || i.ListInvalid? || i.ListFails?
                       || i.FetchOk? || i.FetchInvalid? || i.FetchGone? || i.FetchFails?
    case Delivery(d) => d.DownloadOk? || d.DownloadInvalid? || d.DownloadGone? || d.DownloadFails?
    case Mailbox(m) => CallsPost(m)
    case _ => false
  }

  /** In `invalidate_session` once the session has been put down as invalid. */
  predicate Telling(pc: Pc) {
    pc.Notifying? || pc.SessionSent? || pc.SessionRecorded? || pc.SessionMarked? || pc.SessionFailed?
  }

  ghost predicate Gated(s: State) {
    && (InCycle(s.pc) ==> s.t.enabled && s.t.valid)
    && (s.t.valid ==> !s.t.notified)
    && (Telling(s.pc) ==> !s.t.valid)
    && (s.pc.SessionSent? || s.pc.SessionRecorded? ==> !s.t.notified)
  }

  lemma {:induction false} GatedInbound(c: Config, s: State, a: Inbound)
    requires Gated(s) && InboundMay(c, s, a)
    ensures Gated(InboundDoes(c, s, a))
  {}

  lemma {:induction false} GatedDelivery(c: Config, s: State, a: Delivery)
    requires Gated(s) && DeliveryMay(c, s, a)
    ensures Gated(DeliveryDoes(c, s, a))
  {}

  lemma {:induction false} GatedMailbox(c: Config, s: State, a: Mailbox)
    requires Gated(s) && MailboxMay(c, s, a)
    ensures Gated(MailboxDoes(c, s, a))
  {
    if CallsPost(a) { GatedPost(c, s, a); }
  }

  lemma {:induction false} GatedPost(c: Config, s: State, a: Mailbox)
    requires Gated(s) && MailboxMay(c, s, a) && CallsPost(a)
    ensures Gated(MailboxDoes(c, s, a))
  {}

  lemma {:induction false} GatedNotices(c: Config, s: State, a: Notices)
    requires Gated(s) && NoticesMay(c, s, a)
    ensures Gated(NoticesDo(c, s, a))
  {}

  lemma {:induction false} GatedSession(c: Config, s: State, a: Session)
    requires Gated(s) && SessionMay(c, s, a)
    ensures Gated(SessionDoes(c, s, a))
  {}

  lemma {:induction false} GatedStep(c: Config, s: State, a: Action)
    requires Gated(s) && May(c, s, a)
    ensures Gated(Do(c, s, a))
  {
    match a
    case Inbound(i) => GatedInbound(c, s, i);
    case Delivery(d) => GatedDelivery(c, s, d);
    case Mailbox(m) => GatedMailbox(c, s, m);
    case Notices(n) => GatedNotices(c, s, n);
    case Session(v) => GatedSession(c, s, v);
    case _ =>
  }

  /** Every list, fetch, download and post happens with the bridge enabled and the session valid. */
  lemma {:induction false} CallsOnlyWhenAllowed(c: Config, s: State, a: Action)
    requires Gated(s) && May(c, s, a) && CallsTelegram(s, a)
    ensures DeliveryAllowed(s.t)
  {}

  lemma {:induction false} InboundKeepsHealth(c: Config, s: State, a: Inbound)
    requires InboundMay(c, s, a)
    ensures InboundDoes(c, s, a).t.valid == s.t.valid
  {}

  lemma {:induction false} DeliveryKeepsHealth(c: Config, s: State, a: Delivery)
    requires DeliveryMay(c, s, a)
    ensures DeliveryDoes(c, s, a).t.valid == s.t.valid
  {}

  lemma {:induction false} MailboxKeepsHealth(c: Config, s: State, a: Mailbox)
    requires MailboxMay(c, s, a)
    ensures MailboxDoes(c, s, a).t.valid == s.t.valid
  {}

  lemma {:induction false} NoticesKeepHealth(c: Config, s: State, a: Notices)
    requires NoticesMay(c, s, a)
    ensures NoticesDo(c, s, a).t.valid == s.t.valid
  {}

  lemma {:induction false} SessionKeepsInvalid(c: Config, s: State, a: Session)
    requires SessionMay(c, s, a) && !s.t.valid
    ensures !SessionDoes(c, s, a).t.valid
  {}

  /** Only setup makes an invalid session valid again. */
  lemma {:induction false} InvalidStays(c: Config, s: State, a: Action)
    requires May(c, s, a) && !s.t.valid && !a.Authorize?
    ensures !Do(c, s, a).t.valid
  {
    match a
    case Inbound(i) => InboundKeepsHealth(c, s, i);
    case Delivery(d) => DeliveryKeepsHealth(c, s, d);
    case Mailbox(m) => MailboxKeepsHealth(c, s, m);
    case Notices(n) => NoticesKeepHealth(c, s, n);
    case Session(v) => SessionKeepsInvalid(c, s, v);
    case _ =>
  }
}
