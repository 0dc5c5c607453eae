/** A failing scope is left alone for as long as the backoff demands, whatever the jitter
    (src/mailtg_bridge/orchestrator.py:20-23, 32-42, 73-99, src/mailtg_bridge/algorithms.py:35-42). */
module Pacing {
  import opened Domain
  import opened Backoff
  import opened Protocol

  /** Scopes whose backoff is looked at before trying; the two mail scopes for notices are only written. */
  predicate Watched(sc: Scope) { !sc.MailNotice? && !sc.MailSessionNotice? }

  /** The scope the process is working under; a failure now would be noted there. */
  function WorkingOn(pc: Pc): Option<Scope> {
    match pc
    case ListFailed(_) => Some(TgList)
    case Opened(d, _, _) => Some(TgDialog(d.id))
    case Fetched(d, _, _, _) => Some(TgDialog(d.id))
    case Downloading(b, _, _) => Some(TgDialog(b.d.id))
    case Sending(b, _, _, _) => Some(TgDialog(b.d.id))
    case DialogFailed(d, _, _) => Some(TgDialog(d.id))
    case PollFailed => Some(MailPoll)
    case PostFailed(dialog, _, _) => Some(TgPost(dialog))
    case _ => None
  }

  datatype Timer = Timer(backoff: map<Scope, Decision>, pace: map<Scope, Streak>, now: real, working: Option<Scope>)

  function TimerOf(s: State): Timer { Timer(s.t.backoff, s.h.pace, s.o.now, WorkingOn(s.pc)) }

  predicate Sensible(c: Config) { 0.0 < c.minimum <= c.maximum }

  /** The row of a scope holds it back for all of its failures in a row. */
  predicate InStep(c: Config, b: Decision, k: Streak) {
    && b.failures == k.count && k.count > 0
    && (k.transient ==> k.since + Span(k.count, c.minimum, c.maximum) <= b.notBefore)
    && k.until <= b.notBefore
  }

  ghost predicate Ready(v: Timer) {
    v.working.Some? && v.working.value in v.backoff ==> v.backoff[v.working.value].notBefore <= v.now
  }

  ghost predicate Timed(c: Config, v: Timer) {
    && Ready(v)
    && (forall sc :: sc in v.backoff && Watched(sc) ==> sc in v.pace && InStep(c, v.backoff[sc], v.pace[sc]))
  }

  /** Rows may go, the scope worked under may change to one that is due. */
  ghost predicate Calm(v: Timer, v': Timer) {
    && v'.pace == v.pace && v.now <= v'.now
    && (forall sc :: sc in v'.backoff ==> sc in v.backoff && v'.backoff[sc] == v.backoff[sc])
    && (v'.working == v.working || Ready(v'))
  }

  lemma {:induction false} CalmTimed(c: Config, v: Timer, v': Timer)
    requires Timed(c, v) && Calm(v, v')
    ensures Timed(c, v')
  {}

  /** A failure is noted under a scope that was due, or under one that nobody watches. */
  ghost predicate Fails(c: Config, v: Timer, v': Timer, sc: Scope, e: Failure, draw: real) {
    && (v.working == Some(sc) || !Watched(sc)) && 0.0 <= draw < 1.0
    && v'.now == v.now && v'.working == None
    && v'.backoff == v.backoff[sc := NextFor(c, v.backoff, sc, e, v.now, draw)]
    && v'.pace == v.pace[sc := Extend(v.backoff, v.pace, sc, e, v.now)]
  }

  lemma {:induction false} FailsInStep(c: Config, v: Timer, v': Timer, sc: Scope, e: Failure, draw: real)
    requires Sensible(c) && Timed(c, v) && Fails(c, v, v', sc, e, draw) && Watched(sc)
    ensures InStep(c, v'.backoff[sc], v'.pace[sc])
  {
    var n := if sc in v.backoff then v.backoff[sc].failures else 0;
    DelayBounds(e, n, c.minimum, c.maximum, draw);
    assert Span(n + 1, c.minimum, c.maximum) == Span(n, c.minimum, c.maximum) + Floor(n, c.minimum, c.maximum);
  }

  lemma {:induction false} FailsTimed(c: Config, v: Timer, v': Timer, sc: Scope, e: Failure, draw: real)
    requires Sensible(c) && Timed(c, v) && Fails(c, v, v', sc, e, draw)
    ensures Timed(c, v')
  {
    if Watched(sc) { FailsInStep(c, v, v', sc, e, draw); }
  }

  predicate Notes(a: Action) {
    match a
    case Inbound(i) => i.NoteListFailure? || i.NoteDialogFailure?
    case Mailbox(m) => m.NotePollFailure? || m.NotePostFailure?
    case Notices(n) => n.NoteNoticeFailure?
    case Session(v) => v.NoteNotifyFailure?
    case _ => false
  }

  lemma {:induction false} InboundCalm(c: Config, s: State, a: Inbound)
    requires InboundMay(c, s, a) && !Notes(Inbound(a))
    ensures Calm(TimerOf(s), TimerOf(InboundDoes(c, s, a)))
  {}

  lemma {:induction false} DeliveryCalm(c: Config, s: State, a: Delivery)
    requires DeliveryMay(c, s, a)
    ensures Calm(TimerOf(s), TimerOf(DeliveryDoes(c, s, a)))
  {}

  lemma {:induction false} MailboxCalm(c: Config, s: State, a: Mailbox)
    requires MailboxMay(c, s, a) && !Notes(Mailbox(a))
    ensures Calm(TimerOf(s), TimerOf(MailboxDoes(c, s, a)))
  {
    if CallsPost(a) { PostCalm(c, s, a); }
  }

  lemma {:induction false} PostCalm(c: Config, s: State, a: Mailbox)
    requires MailboxMay(c, s, a) && CallsPost(a)
    ensures Calm(TimerOf(s), TimerOf(MailboxDoes(c, s, a)))
  {}

  lemma {:induction false} SessionCalm(c: Config, s: State, a: Session)
    requires SessionMay(c, s, a) && !Notes(Session(a))
    ensures Calm(TimerOf(s), TimerOf(SessionDoes(c, s, a)))
  {}

  lemma {:induction false} InboundTimed(c: Config, s: State, a: Inbound)
    requires Sensible(c) && InboundMay(c, s, a) && Timed(c, TimerOf(s))
    ensures Timed(c, TimerOf(InboundDoes(c, s, a)))
  {
    var v, v' := TimerOf(s), TimerOf(InboundDoes(c, s, a));
    match a
    case NoteListFailure(draw) => FailsTimed(c, v, v', TgList, s.pc.e, draw);
    case NoteDialogFailure(draw) => FailsTimed(c, v, v', TgDialog(s.pc.d.id), s.pc.e, draw);
    case _ => InboundCalm(c, s, a); CalmTimed(c, v, v');
  }

  lemma {:induction false} PollFailureTimed(c: Config, s: State, draw: real)
    requires Sensible(c) && MailboxMay(c, s, NotePollFailure(draw)) && Timed(c, TimerOf(s))
    ensures Timed(c, TimerOf(MailboxDoes(c, s, NotePollFailure(draw))))
  {
    FailsTimed(c, TimerOf(s), TimerOf(MailboxDoes(c, s, NotePollFailure(draw))), MailPoll, Transient, draw);
  }

  lemma {:induction false} PostFailureTimed(c: Config, s: State, draw: real)
    requires Sensible(c) && MailboxMay(c, s, NotePostFailure(draw)) && Timed(c, TimerOf(s))
    ensures Timed(c, TimerOf(MailboxDoes(c, s, NotePostFailure(draw))))
  {
    FailsTimed(c, TimerOf(s), TimerOf(MailboxDoes(c, s, NotePostFailure(draw))), TgPost(s.pc.dialog), s.pc.e, draw);
  }

  lemma {:induction false} MailboxTimed(c: Config, s: State, a: Mailbox)
    requires Sensible(c) && MailboxMay(c, s, a) && Timed(c, TimerOf(s))
    ensures Timed(c, TimerOf(MailboxDoes(c, s, a)))
  {
    if a.NotePollFailure? {
      PollFailureTimed(c, s, a.draw);
    } else if a.NotePostFailure? {
      PostFailureTimed(c, s, a.draw);
    } else {
      MailboxCalm(c, s, a);
      CalmTimed(c, TimerOf(s), TimerOf(MailboxDoes(c, s, a)));
    }
  }

  lemma {:induction false} NoticesTimed(c: Config, s: State, a: Notices)
    requires Sensible(c) && NoticesMay(c, s, a) && Timed(c, TimerOf(s))
    ensures Timed(c, TimerOf(NoticesDo(c, s, a)))
  {}

  lemma {:induction false} SessionTimed(c: Config, s: State, a: Session)
    requires Sensible(c) && SessionMay(c, s, a) && Timed(c, TimerOf(s))
    ensures Timed(c, TimerOf(SessionDoes(c, s, a)))
  {
    var v, v' := TimerOf(s), TimerOf(SessionDoes(c, s, a));
    if a.NoteNotifyFailure? {
      FailsTimed(c, v, v', MailSessionNotice, Transient, a.draw);
    } else {
      SessionCalm(c, s, a);
      CalmTimed(c, v, v');
    }
  }

  lemma {:induction false} TimedStep(c: Config, s: State, a: Action)
    requires Sensible(c) && May(c, s, a) && Timed(c, TimerOf(s))
    ensures Timed(c, TimerOf(Do(c, s, a)))
  {
    match a
    case Inbound(i) => InboundTimed(c, s, i);
    case Delivery(d) => DeliveryCalm(c, s, d); CalmTimed(c, TimerOf(s), TimerOf(Do(c, s, a)));
    case Mailbox(m) => MailboxTimed(c, s, m);
    case Notices(n) => NoticesTimed(c, s, n);
    case Session(v) => SessionTimed(c, s, v);
    case _ => CalmTimed(c, TimerOf(s), TimerOf(Do(c, s, a)));
  }

  /** The scope under which a call to Telegram or to the mailbox is made. */
  function Tries(s: State, a: Action): Option<Scope> {
    match a
    case Inbound(i) =>
      (if i.ListOk? || i.ListInvalid? || i.ListFails? then Some(TgList)
       else if s.pc.Opened? && (i.FetchOk? || i.FetchInvalid? || i.FetchGone? || i.FetchFails?)
       then Some(TgDialog(s.pc.d.id))
       else None)
    case Mailbox(m) =>
      (if m.PollOk? || m.PollFails? then Some(MailPoll)
       else if Posting(s) && CallsPost(m) then Some(TgPost(PostDialog(s)))
       else None)
    case _ => None
  }

  /** No attempt comes before the failures on record allow it: a flood wait has been waited out in full,
      and k transient failures in a row have taken at least the sum of the doubling delays since the
      first of them. */
  lemma {:induction false} AttemptsWait(c: Config, s: State, a: Action, sc: Scope)
    requires Sensible(c) && May(c, s, a) && Timed(c, TimerOf(s)) && Tries(s, a) == Some(sc) && sc in s.t.backoff
    ensures sc in s.h.pace
    ensures var k := s.h.pace[sc];
            && s.t.backoff[sc].notBefore <= s.o.now && k.until <= s.o.now
            && (k.transient ==> k.since + Span(k.count, c.minimum, c.maximum) <= s.o.now)
  {}

  /** While the delay is below its cap, k failures keep the next attempt away for minimum * (2^k - 1). */
  lemma {:induction false} DoublingBelowTheCap(c: Config, s: State, a: Action, sc: Scope)
    requires Sensible(c) && May(c, s, a) && Timed(c, TimerOf(s)) && Tries(s, a) == Some(sc) && sc in s.t.backoff
    requires sc in s.h.pace && s.h.pace[sc].transient
    requires c.minimum * Pow2(s.h.pace[sc].count - 1) as real <= c.maximum
    ensures c.minimum * (Pow2(s.h.pace[sc].count) as real - 1.0) <= s.o.now - s.h.pace[sc].since
  {
    AttemptsWait(c, s, a, sc);
    assert InStep(c, s.t.backoff[sc], s.h.pace[sc]);
    SpanFits(c, s.h.pace[sc], s.o.now);
  }

  lemma {:induction false} SpanFits(c: Config, k: Streak, now: real)
    requires Sensible(c) && k.count > 0 && c.minimum * Pow2(k.count - 1) as real <= c.maximum
    requires k.since + Span(k.count, c.minimum, c.maximum) <= now
    ensures c.minimum * (Pow2(k.count) as real - 1.0) <= now - k.since
  {
    SpanBelowCap(k.count, c.minimum, c.maximum);
  }

  // ---------------------------------------------------------------- the failures of a run

  /** A failure under a scope, and when it was noted. */
  datatype Failing = Failing(at: real, e: Failure)

  /** The failure a step notes, and its scope. */
  function NotedBy(s: State, a: Action): Option<(Scope, Failure)> {
    match a
    case Inbound(i) =>
      (if i.NoteListFailure? && s.pc.ListFailed? then Some((TgList, s.pc.e))
       else if i.NoteDialogFailure? && s.pc.DialogFailed? then Some((TgDialog(s.pc.d.id), s.pc.e))
       else None)
    case Mailbox(m) =>
      (if m.NotePollFailure? then Some((MailPoll, Transient))
       else if m.NotePostFailure? && s.pc.PostFailed? then Some((TgPost(s.pc.dialog), s.pc.e))
       else None)
    case Notices(n) =>
      (if n.NoteNoticeFailure? && s.pc.NoticeFailed? then Some((MailNotice("command:" + s.pc.ref), Transient))
       else None)
    case Session(v) => (if v.NoteNotifyFailure? then Some((MailSessionNotice, Transient)) else None)
    case _ => None
  }

  /** What a run adds to the failures of a scope in a row; they begin anew when the row was cleared. */
  ghost function FailuresIn(c: Config, s: State, run: seq<Action>, sc: Scope, before: seq<Failing>): seq<Failing>
    requires Legal(c, s, run)
    decreases |run|
  {
    if run == [] then before
    else FailuresIn(c, Do(c, s, run[0]), run[1..], sc, Tracked(s, run[0], sc, before))
  }

  function Tracked(s: State, a: Action, sc: Scope, before: seq<Failing>): seq<Failing> {
    var noted := NotedBy(s, a);
    if noted.Some? && noted.value.0 == sc
    then (if sc in s.t.backoff then before else []) + [Failing(s.o.now, noted.value.1)]
    else before
  }

  function StreakOf(fs: seq<Failing>): Streak
    requires fs != []
  {
    var k := |fs| - 1;
    var so := if k == 0 then Streak(fs[0].at, 0, true, fs[0].at) else StreakOf(fs[..k]);
    Streak(so.since, so.count + 1, so.transient && fs[k].e.Transient?,
           if fs[k].e.FloodWait? then Greater(so.until, fs[k].at + fs[k].e.seconds as real) else so.until)
  }

  /** The streak says when the first failure was, how many there were, and so on. */
  lemma {:induction false} StreakTells(fs: seq<Failing>, i: nat)
    requires i < |fs|
    ensures var k := StreakOf(fs);
            && k.since == fs[0].at && k.count == |fs|
            && (k.transient <==> forall f :: f in fs ==> f.e.Transient?)
            && (fs[i].e.FloodWait? ==> fs[i].at + fs[i].e.seconds as real <= k.until)
    decreases |fs|
  {
    var k := |fs| - 1;
    if k > 0 { StreakTells(fs[..k], if i < k then i else 0); }
    assert fs == fs[..k] + [fs[k]];
  }

  /** The log has the streak of these failures. */
  predicate OnRecord(s: State, sc: Scope, fs: seq<Failing>) {
    sc in s.t.backoff ==> fs != [] && sc in s.h.pace && s.h.pace[sc] == StreakOf(fs)
  }

  lemma {:induction false} CalmTells(c: Config, s: State, a: Action, sc: Scope, fs: seq<Failing>)
    requires May(c, s, a) && OnRecord(s, sc, fs) && Calm(TimerOf(s), TimerOf(Do(c, s, a)))
    ensures OnRecord(Do(c, s, a), sc, fs)
  {}

  /** A failure is noted in its row and in its streak. */
  ghost predicate NotesIt(c: Config, s: State, s': State, a: Action, draw: real) {
    && NotedBy(s, a).Some? && Draw(draw)
    && var under, e := NotedBy(s, a).value.0, NotedBy(s, a).value.1;
       && s'.t.backoff == s.t.backoff[under := NextFor(c, s.t.backoff, under, e, s.o.now, draw)]
       && s'.h.pace == s.h.pace[under := Extend(s.t.backoff, s.h.pace, under, e, s.o.now)]
  }

  function DrawOf(a: Action): real
    requires Notes(a)
  {
    match a
    case Inbound(i) => i.draw
    case Mailbox(m) => m.draw
    case Notices(n) => n.draw
    case Session(v) => v.draw
  }

  lemma {:induction false} NotedTells(c: Config, s: State, s': State, a: Action, sc: Scope, fs: seq<Failing>,
                                      draw: real)
    requires OnRecord(s, sc, fs) && NotesIt(c, s, s', a, draw)
    ensures OnRecord(s', sc, Tracked(s, a, sc, fs))
  {
    if NotedBy(s, a).value.0 == sc {
      var after := Tracked(s, a, sc, fs);
      assert after[..|after| - 1] == if sc in s.t.backoff then fs else [];
    }
  }

  lemma {:induction false} NoticesCalm(c: Config, s: State, a: Notices)
    requires NoticesMay(c, s, a) && !Notes(Notices(a))
    ensures Calm(TimerOf(s), TimerOf(NoticesDo(c, s, a)))
  {}

  lemma {:induction false} StepCalm(c: Config, s: State, a: Action)
    requires May(c, s, a) && !Notes(a)
    ensures Calm(TimerOf(s), TimerOf(Do(c, s, a)))
  {
    match a
    case Inbound(i) => InboundCalm(c, s, i);
    case Delivery(d) => DeliveryCalm(c, s, d);
    case Mailbox(m) => MailboxCalm(c, s, m);
    case Notices(n) => NoticesCalm(c, s, n);
    case Session(v) => SessionCalm(c, s, v);
    case _ =>
  }

  lemma {:induction false} InboundNotes(c: Config, s: State, a: Inbound)
    requires InboundMay(c, s, a) && Notes(Inbound(a))
    ensures NotesIt(c, s, InboundDoes(c, s, a), Inbound(a), a.draw)
  {}

  lemma {:induction false} MailboxNotes(c: Config, s: State, a: Mailbox)
    requires MailboxMay(c, s, a) && Notes(Mailbox(a))
    ensures NotesIt(c, s, MailboxDoes(c, s, a), Mailbox(a), a.draw)
  {}

  lemma {:induction false} NoticesNote(c: Config, s: State, a: Notices)
    requires NoticesMay(c, s, a) && Notes(Notices(a))
    ensures NotesIt(c, s, NoticesDo(c, s, a), Notices(a), a.draw)
  {}

  lemma {:induction false} SessionNotes(c: Config, s: State, a: Session)
    requires SessionMay(c, s, a) && Notes(Session(a))
    ensures NotesIt(c, s, SessionDoes(c, s, a), Session(a), a.draw)
  {}

  lemma {:induction false} StepNotes(c: Config, s: State, a: Action)
    requires May(c, s, a) && Notes(a)
    ensures NotesIt(c, s, Do(c, s, a), a, DrawOf(a))
  {
    match a
    case Inbound(i) => InboundNotes(c, s, i);
    case Mailbox(m) => MailboxNotes(c, s, m);
    case Notices(n) => NoticesNote(c, s, n);
    case Session(v) => SessionNotes(c, s, v);
  }

  /** The streak on record for a scope with a row is that of the run's failures since the row was cleared. */
  lemma {:induction false} FailuresCounted(c: Config, s: State, run: seq<Action>, sc: Scope, before: seq<Failing>)
    requires Legal(c, s, run) && OnRecord(s, sc, before)
    ensures OnRecord(After(c, s, run), sc, FailuresIn(c, s, run, sc, before))
    decreases |run|
  {
    if run != [] {
      var a, s' := run[0], Do(c, s, run[0]);
      if Notes(a) {
        StepNotes(c, s, a);
        NotedTells(c, s, s', a, sc, before, DrawOf(a));
      } else {
        StepCalm(c, s, a);
        CalmTells(c, s, a, sc, before);
      }
      FailuresCounted(c, s', run[1..], sc, Tracked(s, a, sc, before));
    }
  }

  // ---------------------------------------------------------------- and no longer than that

  /** The most that the failure after `n` others in a row is held back for. */
  function Longest(c: Config, e: Failure, n: nat): real {
    match e
    case FloodWait(seconds) => if seconds as real <= c.minimum then c.minimum else seconds as real
    case Transient =>
      if 1.1 * Doubled(c.minimum, n) <= c.maximum then 1.1 * Doubled(c.minimum, n) else c.maximum
  }

  /** The row of the scope counts the failures, and holds it back no longer than the last of them asks for. */
  predicate HeldAtMost(c: Config, s: State, sc: Scope, fs: seq<Failing>) {
    sc in s.t.backoff ==>
      && fs != [] && s.t.backoff[sc].failures == |fs|
      && var last := fs[|fs| - 1]; s.t.backoff[sc].notBefore <= last.at + Longest(c, last.e, |fs| - 1)
  }

  lemma {:induction false} CalmHoldsAtMost(c: Config, s: State, a: Action, sc: Scope, fs: seq<Failing>)
    requires May(c, s, a) && HeldAtMost(c, s, sc, fs) && Calm(TimerOf(s), TimerOf(Do(c, s, a)))
    ensures HeldAtMost(c, Do(c, s, a), sc, fs)
  {}

  lemma {:induction false} NotedHoldsAtMost(c: Config, s: State, s': State, a: Action, sc: Scope, fs: seq<Failing>,
                                            draw: real)
    requires Sensible(c) && HeldAtMost(c, s, sc, fs) && NotesIt(c, s, s', a, draw)
    ensures HeldAtMost(c, s', sc, Tracked(s, a, sc, fs))
  {
    if NotedBy(s, a).value.0 == sc {
      var n := if sc in s.t.backoff then s.t.backoff[sc].failures else 0;
      DelayAtMost(NotedBy(s, a).value.1, n, c.minimum, c.maximum, draw);
    }
  }

  /** After any run, each row holds its scope back no longer than its last failure asks for. */
  lemma {:induction false} FailuresHoldAtMost(c: Config, s: State, run: seq<Action>, sc: Scope, before: seq<Failing>)
    requires Sensible(c) && Legal(c, s, run) && HeldAtMost(c, s, sc, before)
    ensures HeldAtMost(c, After(c, s, run), sc, FailuresIn(c, s, run, sc, before))
    decreases |run|
  {
    if run != [] {
      var a, s' := run[0], Do(c, s, run[0]);
      if Notes(a) {
        StepNotes(c, s, a);
        NotedHoldsAtMost(c, s, s', a, sc, before, DrawOf(a));
      } else {
        StepCalm(c, s, a);
        CalmHoldsAtMost(c, s, a, sc, before);
      }
      FailuresHoldAtMost(c, s', run[1..], sc, Tracked(s, a, sc, before));
    }
  }

  /** A success clears the row of its scope and no other: the list came, the mailbox was polled, a dialog is
      done with, the session notice was sent. */
  lemma {:induction false} SuccessClears(c: Config, s: State, a: Action, sc: Scope)
    requires May(c, s, a) && ClearsFor(s, a) == Some(sc)
    ensures Do(c, s, a).t.backoff == map k | k in s.t.backoff && k != sc :: s.t.backoff[k]
  {}

  function ClearsFor(s: State, a: Action): Option<Scope> {
    match a
    case Inbound(i) =>
      (if i.ClearList? then Some(TgList)
       else if i.ClearDialog? && s.pc.Clearing? then Some(TgDialog(s.pc.d.id))
       else None)
    case Mailbox(m) => (if m.ClearPoll? then Some(MailPoll) else None)
    case Session(v) => (if v.ClearNotify? then Some(MailSessionNotice) else None)
    case _ => None
  }
}
