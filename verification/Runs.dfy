/** What holds in every run of the bridge, from a new database on, with crashes anywhere. */
module Runs {
  import opened Domain
  import opened Backoff
  import opened Database
  import opened Protocol
  import opened Gates
  import opened Delivery
  import opened Cursors
  import Intake
  import Tally
  import Confirmations
  import Pacing
  import Interruptions

  /** What is asked of the surroundings: fetches that leave no gap; and of purges, as told beforehand, that
      they take no echo above its cursor, wake no used mail, take no recorded Message-ID. */
  datatype Trust = Trust(fetch: bool, echoes: bool, marks: bool, notices: bool)

  ghost predicate Honest(c: Config, s: State, a: Action, k: Trust) {
    && (k.fetch ==> Ample(c, s, a))
    && (k.echoes ==> KeepsEchoes(c, s, a))
    && (k.marks ==> Intake.KeepsMarks(c, s, a))
    && (k.notices ==> Confirmations.KeepsNotices(c, s, a))
  }

  ghost predicate Throughout(c: Config, s: State, run: seq<Action>, k: Trust)
    requires Legal(c, s, run)
    decreases |run|
  {
    run != [] ==> Honest(c, s, run[0], k) && Throughout(c, Do(c, s, run[0]), run[1..], k)
  }

  ghost predicate ShelfHolds(tail: bool, v: Shelf, k: Trust) {
    Stocked(v) && (k.fetch ==> Complete(v) && Gapless(tail, v)) && (k.echoes ==> EchoesKnown(v))
  }

  ghost predicate IntakeHolds(s: State, k: Trust) {
    k.marks ==>
      && Intake.Settled(Intake.BookOf(s)) && Tally.Balanced(Tally.AccountOf(s))
      && Interruptions.Fated(Interruptions.FatesOf(s))
  }

  ghost predicate NoticesHold(s: State, k: Trust) {
    Confirmations.Told(Confirmations.TrayOf(s)) && (k.notices ==> Confirmations.Known(Confirmations.TrayOf(s)))
  }

  ghost predicate PaceHolds(c: Config, s: State) {
    Pacing.Sensible(c) ==> Pacing.Timed(c, Pacing.TimerOf(s))
  }

  ghost predicate Invariant(c: Config, s: State, k: Trust) {
    Gated(s) && ShelfHolds(c.tail, ShelfOf(s), k) && IntakeHolds(s, k) && NoticesHold(s, k) && PaceHolds(c, s)
  }

  lemma {:induction false} InitHolds(c: Config, now: real, k: Trust)
    ensures Invariant(c, Init(now), k)
  {}

  lemma {:induction false} ShelfHoldsOn(c: Config, s: State, a: Action, k: Trust)
    requires May(c, s, a) && Honest(c, s, a, k) && ShelfHolds(c.tail, ShelfOf(s), k)
    ensures ShelfHolds(c.tail, ShelfOf(Do(c, s, a)), k)
  {
    StockedStep(c, s, a);
  }

  lemma {:induction false} IntakeHoldsOn(c: Config, s: State, a: Action, k: Trust)
    requires May(c, s, a) && Honest(c, s, a, k) && IntakeHolds(s, k)
    ensures IntakeHolds(Do(c, s, a), k)
  {
    if k.marks {
      Intake.SettledStep(c, s, a);
      Tally.BalancedStep(c, s, a);
      Interruptions.FatedStep(c, s, a);
    }
  }

  lemma {:induction false} NoticesHoldOn(c: Config, s: State, a: Action, k: Trust)
    requires May(c, s, a) && Honest(c, s, a, k) && Gated(s) && NoticesHold(s, k)
    ensures NoticesHold(Do(c, s, a), k)
  {
    Confirmations.ToldStep(c, s, a);
  }

  lemma {:induction false} PaceHoldsOn(c: Config, s: State, a: Action)
    requires May(c, s, a) && PaceHolds(c, s)
    ensures PaceHolds(c, Do(c, s, a))
  {
    if Pacing.Sensible(c) { Pacing.TimedStep(c, s, a); }
  }

  lemma {:induction false} InvariantHolds(c: Config, s: State, run: seq<Action>, k: Trust)
    requires Legal(c, s, run) && Throughout(c, s, run, k) && Invariant(c, s, k)
    ensures Invariant(c, After(c, s, run), k)
    decreases |run|
  {
    if run != [] {
      var a := run[0];
      GatedStep(c, s, a);
      ShelfHoldsOn(c, s, a, k);
      IntakeHoldsOn(c, s, a, k);
      NoticesHoldOn(c, s, a, k);
      PaceHoldsOn(c, s, a);
      InvariantHolds(c, Do(c, s, a), run[1..], k);
    }
  }

  const NONE := Trust(false, false, false, false)
  const GAPLESS := Trust(true, false, false, false)
  const ECHOES_KEPT := Trust(false, true, false, false)
  const MARKS_KEPT := Trust(false, false, true, false)

  /** Some run of the bridge from a new database leads to `s`. */
  ghost predicate Reachable(c: Config, s: State, k: Trust) {
    exists now: real, run: seq<Action> {:trigger After(c, Init(now), run)} ::
      Legal(c, Init(now), run) && Throughout(c, Init(now), run, k) && s == After(c, Init(now), run)
  }

  lemma {:induction false} ReachableHolds(c: Config, s: State, k: Trust)
    requires Reachable(c, s, k)
    ensures Invariant(c, s, k)
  {
    var now: real, run: seq<Action> :| Legal(c, Init(now), run) && Throughout(c, Init(now), run, k)
      && s == After(c, Init(now), run);
    InitHolds(c, now, k);
    InvariantHolds(c, Init(now), run, k);
  }

  /** With no demands on the surroundings every run counts. */
  lemma {:induction false} EveryRunIsReachable(c: Config, now: real, run: seq<Action>)
    requires Legal(c, Init(now), run)
    ensures Reachable(c, After(c, Init(now), run), NONE)
  {
    NothingAsked(c, Init(now), run);
  }

  lemma {:induction false} NothingAsked(c: Config, s: State, run: seq<Action>)
    requires Legal(c, s, run)
    ensures Throughout(c, s, run, NONE)
    decreases |run|
  {
    if run != [] { NothingAsked(c, Do(c, s, run[0]), run[1..]); }
  }

  // ---------------------------------------------------------------- delivery

  /** At least once: however often the process dies, a message that still exists and is not above its
      dialog's cursor was in a mail that SMTP accepted before the transaction that moved the cursor past
      it, or was passed over on purpose. */
  lemma {:induction false} AtLeastOnce(c: Config, s: State, d: string, id: int)
    requires Reachable(c, s, GAPLESS) && id in Held(s.o, d) && id <= Cursor(s.t, d)
    ensures Mailed(s.h.delivery, d, id) || PassedOver(s.h.delivery, d, id)
  {
    ReachableHolds(c, s, GAPLESS);
    var v := ShelfOf(s);
    assert id in HeldIn(v, d) && id <= At(v, d);
    assert Accounted(v.log, d, id);
    if (d, id) in v.log.mailed { assert Mailed(v.log, (d, id).0, (d, id).1); }
  }

  /** Behind the cursor and not accounted for. */
  predicate Missed(s: State, d: string, id: int) {
    id <= Cursor(s.t, d) && !Accounted(s.h.delivery, d, id)
  }

  /** A message once missed is missed for good, whatever happens next. */
  lemma {:induction false} MissedForGood(c: Config, s: State, run: seq<Action>, d: string, id: int)
    requires Legal(c, s, run) && Stocked(ShelfOf(s)) && Missed(s, d, id)
    ensures Missed(After(c, s, run), d, id)
    decreases |run|
  {
    if run != [] {
      OnwardStep(c, s, run[0]);
      StockedStep(c, s, run[0]);
      assert At(ShelfOf(s), d) <= At(ShelfOf(Do(c, s, run[0])), d);
      MissedForGood(c, Do(c, s, run[0]), run[1..], d, id);
    }
  }

  /** Committing a batch whose fetch left a message out misses that message. */
  lemma {:induction false} CommitMisses(c: Config, s: State, id: int)
    requires DeliveryMay(c, s, Commit) && Stocked(ShelfOf(s))
    requires var b := s.pc.batch; b.last < id <= b.high && id !in Ids(b.sel) && !Accounted(s.h.delivery, b.d.id, id)
    ensures Missed(DeliveryDoes(c, s, Commit), s.pc.batch.d.id, id)
  {
    CommitHappens(c, s);
    PlacesFind(s.pc.batch.d.id, s.pc.parts);
    var b, b' := ShelfOf(s), ShelfOf(DeliveryDoes(c, s, Commit));
    assert At(b', s.pc.batch.d.id) >= s.pc.batch.high;
  }

  /** Cursors never move back and commits are never undone, through any run. */
  lemma {:induction false} CursorsNeverFallBack(c: Config, s: State, run: seq<Action>, d: string)
    requires Legal(c, s, run) && Stocked(ShelfOf(s))
    ensures Cursor(s.t, d) <= Cursor(After(c, s, run).t, d)
    ensures s.h.delivery.commits <= After(c, s, run).h.delivery.commits
    decreases |run|
  {
    if run != [] {
      OnwardStep(c, s, run[0]);
      StockedStep(c, s, run[0]);
      assert At(ShelfOf(s), d) <= At(ShelfOf(Do(c, s, run[0])), d);
      CursorsNeverFallBack(c, Do(c, s, run[0]), run[1..], d);
    }
  }

  /** Two committed deliveries of a dialog cover id ranges one above the other, so no message is in both. */
  lemma {:induction false} NoDoubleCommit(c: Config, s: State, i: nat, j: nat)
    requires Reachable(c, s, NONE)
    requires var cs := s.h.delivery.commits; i < j < |cs| && cs[i].dialog == cs[j].dialog
    ensures var cs := s.h.delivery.commits;
            && cs[i].high <= cs[j].low
            && (forall id :: id in cs[i].ids ==> cs[i].low < id <= cs[i].high && id !in cs[j].ids)
  {
    ReachableHolds(c, s, NONE);
    assert InTurn(ShelfOf(s));
  }

  /** The transaction of a delivery never raises in any run, so no accepted mail is rolled back for a
      clash of Message-IDs. */
  lemma {:induction false} CommitNeverRaises(c: Config, s: State)
    requires Reachable(c, s, NONE) && DeliveryMay(c, s, Commit)
    ensures CommitDelivery(s.t, s.pc.batch.d, Sents(s.pc.parts, s.pc.batch.d.id), s.pc.batch.high, s.o.now).Some?
  {
    ReachableHolds(c, s, NONE);
    CommitSucceeds(c, s);
  }

  // ---------------------------------------------------------------- echoes

  /** No reply the bridge posted and committed is ever selected for a mail. */
  lemma {:induction false} NoEchoIsMailed(c: Config, s: State, id: int)
    requires Reachable(c, s, ECHOES_KEPT) && InboundMay(c, s, Select)
    requires id in Ids(Selected(s.t.echoes, s.pc.d.id, s.pc.last, s.pc.items))
    ensures (s.pc.d.id, id) !in s.h.intake.echoes
  {
    ReachableHolds(c, s, ECHOES_KEPT);
    SelectedIds(s.t.echoes, s.pc.d.id, s.pc.last, s.pc.items);
    assert Tidy(ShelfOf(s)) && EchoesKnown(ShelfOf(s));
  }

  /** Of a fetch, exactly the addressed messages above the cursor without an echo row are selected: a reply
      whose row was purged too early comes back as a mail. */
  lemma {:induction false} SelectedExactly(echoes: map<(string, int), real>, d: string, last: nat, items: seq<Item>,
                                           i: Item)
    ensures i in Selected(echoes, d, last, items) <==> i in items && i.id > last && i.addressed && (d, i.id) !in echoes
  {
    if items != [] {
      SelectedExactly(echoes, d, last, items[1..], i);
      assert items == [items[0]] + items[1..];
    }
  }

  // ---------------------------------------------------------------- gates

  /** In every run, a list, fetch, download or post happens only with the bridge enabled and the session valid. */
  lemma {:induction false} GateSafety(c: Config, s: State, a: Action)
    requires Reachable(c, s, NONE) && May(c, s, a) && CallsTelegram(s, a)
    ensures DeliveryAllowed(s.t)
  {
    ReachableHolds(c, s, NONE);
    CallsOnlyWhenAllowed(c, s, a);
  }

  /** No step of the run goes to Telegram. */
  ghost predicate Silent(c: Config, s: State, run: seq<Action>)
    requires Legal(c, s, run)
    decreases |run|
  {
    run != [] ==> !CallsTelegram(s, run[0]) && Silent(c, Do(c, s, run[0]), run[1..])
  }

  /** Once the session is invalid nothing goes to Telegram and it stays invalid, until setup. */
  lemma {:induction false} SilentUntilSetup(c: Config, s: State, run: seq<Action>)
    requires Legal(c, s, run) && Gated(s) && !s.t.valid && forall a :: a in run ==> !a.Authorize?
    ensures Silent(c, s, run) && !After(c, s, run).t.valid
    decreases |run|
  {
    if run != [] {
      GatedStep(c, s, run[0]);
      InvalidStays(c, s, run[0]);
      if CallsTelegram(s, run[0]) { CallsOnlyWhenAllowed(c, s, run[0]); }
      SilentUntilSetup(c, Do(c, s, run[0]), run[1..]);
    }
  }

  /** With the bridge off nothing goes to Telegram and it stays off, until a command. */
  lemma {:induction false} SilentUntilCommand(c: Config, s: State, run: seq<Action>)
    requires Legal(c, s, run) && Gated(s) && !s.t.enabled && forall a :: a in run ==> !(a.Mailbox? && a.m.ApplyCommand?)
    ensures Silent(c, s, run) && !After(c, s, run).t.enabled
    decreases |run|
  {
    if run != [] {
      GatedStep(c, s, run[0]);
      Tally.SwitchStays(c, s, run[0]);
      if CallsTelegram(s, run[0]) { CallsOnlyWhenAllowed(c, s, run[0]); }
      SilentUntilCommand(c, Do(c, s, run[0]), run[1..]);
    }
  }

  // ---------------------------------------------------------------- intake

  /** A mail that was answered or obeyed once never acts again, also after its mark was purged by age. */
  lemma {:induction false} NoReplay(c: Config, s: State, m: Mail)
    requires Reachable(c, s, MARKS_KEPT) && m.ref in s.h.intake.used && m.ref in s.o.inbox && s.o.inbox[m.ref] == m
    ensures !Obeys(s.t, m) && !Posts(s.t, m, s.o.now)
  {
    ReachableHolds(c, s, MARKS_KEPT);
    Intake.UsedMailsRest(Intake.BookOf(s), m, s.t, s.o.now);
  }

  /** What was posted for a mail: at most once beyond what crashes and ambiguous failures left unrecorded;
      a reply recorded as consumed was really posted; no command counts twice; and the switch stands as the
      commands, applied in order, say. */
  lemma {:induction false} BoundedDuplication(c: Config, s: State, r: Ref)
    requires Reachable(c, s, MARKS_KEPT)
    ensures var i := s.h.intake;
            && CountOf(i.posts, r) <= CountOf(i.lost, r) + 1
            && (r in i.replied ==> CountOf(i.posts, r) == CountOf(i.lost, r) + 1 && !Tally.Commanded(i.applied, r))
            && (forall j, k :: 0 <= j < k < |i.applied| ==> i.applied[j].0 != i.applied[k].0)
    ensures s.t.enabled == Tally.Switch(s.h.intake.applied)
  {
    ReachableHolds(c, s, MARKS_KEPT);
    var v := Tally.AccountOf(s);
    assert Tally.Balanced(v);
    assert CountOf(v.posts, r) == CountOf(v.lost, r) + One(r in v.replied) + One(v.answering == Some(r));
    assert Intake.Ahead(Intake.BookOf(s));
    assert r in v.replied ==> r in v.used;
  }

  /** Counted over the run itself: the messages put into Telegram for a mail are at most one more than the
      deaths between post and record and the failed calls whose message landed. */
  lemma {:induction false} PostsAreBounded(c: Config, now: real, run: seq<Action>, r: Ref)
    requires Legal(c, Init(now), run) && Throughout(c, Init(now), run, MARKS_KEPT)
    ensures Tally.PostsIn(c, Init(now), run, r) <= Tally.LossesIn(c, Init(now), run, r) + 1
  {
    Tally.RunCounted(c, Init(now), run, r);
    BoundedDuplication(c, After(c, Init(now), run), r);
  }

  // ---------------------------------------------------------------- notices

  /** Session notices sent since the last setup: at most one beyond those lost to crashes and ambiguous
      failures; and a session marked as notified has had one, with its id on record. */
  lemma {:induction false} SessionNotices(c: Config, s: State)
    requires Reachable(c, s, NONE)
    ensures var n := s.h.notice;
            && n.sessionSent <= n.sessionLost + 1
            && (s.t.notified ==>
                n.sessionSent == n.sessionLost + 1 && n.sessionMid.Some? && n.sessionMid.value in n.recorded)
            && (s.t.valid ==> !s.t.notified)
  {
    ReachableHolds(c, s, NONE);
    assert Confirmations.Told(Confirmations.TrayOf(s));
  }

  /** Counted over the run itself: since the last setup, session notices accepted are at most one more than
      the deaths before the session was marked and the failed calls whose notice was accepted all the same. */
  lemma {:induction false} SessionNoticesAreBounded(c: Config, now: real, run: seq<Action>)
    requires Legal(c, Init(now), run)
    ensures Confirmations.AnnouncedSince(run, 0) <= Confirmations.UnrecordedSince(c, Init(now), run, 0) + 1
    ensures After(c, Init(now), run).t.notified ==>
              Confirmations.AnnouncedSince(run, 0) == Confirmations.UnrecordedSince(c, Init(now), run, 0) + 1
  {
    Confirmations.NoticesCounted(c, Init(now), run);
    EveryRunIsReachable(c, now, run);
    SessionNotices(c, After(c, Init(now), run));
  }

  /** Every command carried out has its confirmation waiting or sent, is the one whose confirmation is about
      to be queued, or is one of at most as many as the process died. */
  lemma {:induction false} NoConfirmationForgotten(c: Config, s: State, r: Ref)
    requires Reachable(c, s, NONE) && Tally.Commanded(s.h.intake.applied, r)
    ensures var n := s.h.notice;
            && (r in s.t.pending || r in n.confirmed || r in n.unqueued || (s.pc.Applied? && s.pc.ref == r))
            && |n.unqueued| <= s.h.crashes
            && (s.h.crashes == 0 ==> r in s.t.pending || r in n.confirmed || s.pc.Applied?)
            && (r in n.confirmed ==> n.confirmed[r] in n.recorded)
  {
    ReachableHolds(c, s, NONE);
    Confirmations.CommandConfirmed(Confirmations.TrayOf(s), r);
  }

  /** Counted over the run itself: a command carried out that has no confirmation waiting, sent or about to be
      queued is one after which the run died before queueing it. */
  lemma {:induction false} ForgottenOnlyWhenInterrupted(c: Config, now: real, run: seq<Action>, r: Ref)
    requires Legal(c, Init(now), run) && Tally.Commanded(After(c, Init(now), run).h.intake.applied, r)
    ensures var s := After(c, Init(now), run);
            r in s.t.pending || r in s.h.notice.confirmed || (s.pc.Applied? && s.pc.ref == r)
            || Interruptions.Interrupted(c, Init(now), run, r)
  {
    EveryRunIsReachable(c, now, run);
    NoConfirmationForgotten(c, After(c, Init(now), run), r);
    Interruptions.UnqueuedExactlyWhen(c, Init(now), run, r);
  }

  /** While no used mail is woken, that is exactly when: an interrupted command never gets its confirmation. */
  lemma {:induction false} ForgottenExactlyWhenInterrupted(c: Config, now: real, run: seq<Action>, r: Ref)
    requires Legal(c, Init(now), run) && Throughout(c, Init(now), run, MARKS_KEPT)
    requires Tally.Commanded(After(c, Init(now), run).h.intake.applied, r)
    ensures var s := After(c, Init(now), run);
            Interruptions.Interrupted(c, Init(now), run, r)
            <==> !(r in s.t.pending || r in s.h.notice.confirmed || (s.pc.Applied? && s.pc.ref == r))
  {
    ForgottenOnlyWhenInterrupted(c, now, run, r);
    if Interruptions.Interrupted(c, Init(now), run, r) {
      Interruptions.UnqueuedExactlyWhen(c, Init(now), run, r);
      ReachableHolds(c, After(c, Init(now), run), MARKS_KEPT);
      Interruptions.LostIsLost(After(c, Init(now), run), r);
    }
  }

  // ---------------------------------------------------------------- pace

  /** In every run, an attempt under a scope with failures on record comes after all their waits. */
  lemma {:induction false} BackoffRespected(c: Config, s: State, a: Action, sc: Scope)
    requires Pacing.Sensible(c) && Reachable(c, s, NONE) && May(c, s, a) && Pacing.Tries(s, a) == Some(sc)
             && sc in s.t.backoff
    ensures sc in s.h.pace && s.t.backoff[sc].notBefore <= s.o.now
    ensures var k := s.h.pace[sc];
            && k.until <= s.o.now
            && (k.transient ==> k.since + Span(k.count, c.minimum, c.maximum) <= s.o.now)
  {
    ReachableHolds(c, s, NONE);
    Pacing.AttemptsWait(c, s, a, sc);
  }

  /** Counted over the run itself: of the failures noted under the scope since its row was last cleared, every
      flood wait is over, and if all were transient, the sum of the doubling delays has passed since the first. */
  lemma {:induction false} FailuresAreWaitedOut(c: Config, now: real, run: seq<Action>, a: Action, sc: Scope)
    requires Pacing.Sensible(c) && Legal(c, Init(now), run) && May(c, After(c, Init(now), run), a)
    requires Pacing.Tries(After(c, Init(now), run), a) == Some(sc) && sc in After(c, Init(now), run).t.backoff
    ensures var s, fs := After(c, Init(now), run), Pacing.FailuresIn(c, Init(now), run, sc, []);
            && fs != []
            && (forall i :: 0 <= i < |fs| && fs[i].e.FloodWait? ==> fs[i].at + fs[i].e.seconds as real <= s.o.now)
            && ((forall f :: f in fs ==> f.e.Transient?) ==>
                  fs[0].at + Span(|fs|, c.minimum, c.maximum) <= s.o.now)
  {
    var s, fs := After(c, Init(now), run), Pacing.FailuresIn(c, Init(now), run, sc, []);
    EveryRunIsReachable(c, now, run);
    BackoffRespected(c, s, a, sc);
    Pacing.FailuresCounted(c, Init(now), run, sc, []);
    forall i | 0 <= i < |fs| && fs[i].e.FloodWait? ensures fs[i].at + fs[i].e.seconds as real <= s.o.now {
      Pacing.StreakTells(fs, i);
    }
    Pacing.StreakTells(fs, 0);
  }

  /** Nor is a scope held back longer: it is due as soon as its last failure has been waited out, at the most the
      seconds of a flood wait or a tenth above the doubling delay, and without failures at once. */
  lemma {:induction false} DueAfterTheWait(c: Config, now: real, run: seq<Action>, sc: Scope)
    requires Pacing.Sensible(c) && Legal(c, Init(now), run)
    ensures var s, fs := After(c, Init(now), run), Pacing.FailuresIn(c, Init(now), run, sc, []);
            && (fs == [] ==> Due(s.t, sc, s.o.now))
            && (fs != [] && fs[|fs| - 1].at + Pacing.Longest(c, fs[|fs| - 1].e, |fs| - 1) <= s.o.now ==>
                  Due(s.t, sc, s.o.now))
  {
    Pacing.FailuresHoldAtMost(c, Init(now), run, sc, []);
  }
}
