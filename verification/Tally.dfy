/** What was posted, what was consumed and where the switch stands add up
    (src/mailtg_bridge/orchestrator.py:78-99, src/mailtg_bridge/state.py:122-133). */
module Tally {
  import opened Domain
  import opened Database
  import opened Protocol
  import opened Intake

  datatype Account = Account(posts: map<Ref, nat>, lost: map<Ref, nat>, replied: set<Ref>, applied: seq<(Ref, bool)>,
                             used: map<Ref, real>, enabled: bool, answering: Option<Ref>)

  function AccountOf(s: State): Account {
    var i := s.h.intake;
    Account(i.posts, i.lost, i.replied, i.applied, i.used, s.t.enabled, Answering(s.pc))
  }

  /** The switch after a list of commands: on to begin with, then as the last one says. */
  function Switch(applied: seq<(Ref, bool)>): bool {
    if applied == [] then true else applied[|applied| - 1].1
  }

  predicate Commanded(applied: seq<(Ref, bool)>, r: Ref) {
    exists i :: 0 <= i < |applied| && applied[i].0 == r
  }

  /** Everything posted for a mail was recorded with its reply, is about to be, or went unrecorded. */
  ghost predicate PostsAddUp(v: Account) {
    forall r :: CountOf(v.posts, r) == CountOf(v.lost, r) + One(r in v.replied) + One(v.answering == Some(r))
  }

  /** Every used mail was either a reply posted or a command obeyed, and that once. */
  ghost predicate UsedOnce(v: Account) {
    && (forall r :: r in v.used <==> r in v.replied || Commanded(v.applied, r))
    && (forall r :: r in v.replied ==> !Commanded(v.applied, r))
    && (forall i, j :: 0 <= i < j < |v.applied| ==> v.applied[i].0 != v.applied[j].0)
  }

  ghost predicate Balanced(v: Account) {
    PostsAddUp(v) && UsedOnce(v) && v.enabled == Switch(v.applied)
  }

  /** Nothing moves but that a post under way is given up as lost. */
  predicate Untouched(v: Account, v': Account) {
    || v' == v
    || (v.answering.Some? && v' == v.(answering := None, lost := Bump(v.lost, v.answering.value)))
  }

  lemma {:induction false} QuietBalanced(v: Account, v': Account)
    requires Balanced(v) && Untouched(v, v')
    ensures Balanced(v')
  {}

  lemma {:induction false} InboundQuiet(c: Config, s: State, a: Inbound)
    requires InboundMay(c, s, a)
    ensures AccountOf(InboundDoes(c, s, a)) == AccountOf(s)
  {}

  lemma {:induction false} DeliveryQuiet(c: Config, s: State, a: Delivery)
    requires DeliveryMay(c, s, a)
    ensures AccountOf(DeliveryDoes(c, s, a)) == AccountOf(s)
  {}

  lemma {:induction false} NoticesQuiet(c: Config, s: State, a: Notices)
    requires NoticesMay(c, s, a)
    ensures AccountOf(NoticesDo(c, s, a)) == AccountOf(s)
  {}

  lemma {:induction false} SessionQuiet(c: Config, s: State, a: Session)
    requires SessionMay(c, s, a)
    ensures AccountOf(SessionDoes(c, s, a)) == AccountOf(s)
  {}

  lemma {:induction false} MailboxQuiet(c: Config, s: State, a: Mailbox)
    requires MailboxMay(c, s, a)
    requires !a.ApplyCommand? && !a.CommitPost? && !CallsPost(a)
    ensures AccountOf(MailboxDoes(c, s, a)) == AccountOf(s)
  {}

  lemma {:induction false} CommandBalanced(c: Config, s: State)
    requires MailboxMay(c, s, ApplyCommand) && Settled(BookOf(s)) && Balanced(AccountOf(s))
    ensures Balanced(AccountOf(MailboxDoes(c, s, ApplyCommand)))
  {
    ActsOnlyOnce(s);
    var v, v' := AccountOf(s), AccountOf(MailboxDoes(c, s, ApplyCommand));
    var m := s.pc.ms[0];
    CommandUses(v, v', m.ref, m.command.value, s.o.now);
  }

  lemma {:induction false} CommandUses(v: Account, v': Account, r: Ref, on: bool, now: real)
    requires Balanced(v) && r !in v.used
    requires v' == v.(applied := v.applied + [(r, on)], used := v.used[r := now], enabled := on)
    ensures Balanced(v')
  {
    forall q ensures Commanded(v'.applied, q) <==> Commanded(v.applied, q) || q == r {
      if Commanded(v.applied, q) {
        var i :| 0 <= i < |v.applied| && v.applied[i].0 == q;
        assert v'.applied[i].0 == q;
      }
      assert v'.applied[|v.applied|].0 == r;
    }
  }

  lemma {:induction false} ReplyBalanced(c: Config, s: State)
    requires MailboxMay(c, s, CommitPost) && Settled(BookOf(s)) && Balanced(AccountOf(s))
    ensures Balanced(AccountOf(MailboxDoes(c, s, CommitPost)))
  {}

  lemma {:induction false} LandBalanced(v: Account, v': Account, r: Ref, lost: bool)
    requires Balanced(v) && v.answering == None
    requires v' == v.(posts := Bump(v.posts, r), lost := if lost then Bump(v.lost, r) else v.lost,
                      answering := if lost then None else Some(r))
    ensures Balanced(v')
  {}

  lemma {:induction false} PostBalanced(c: Config, s: State, a: Mailbox)
    requires MailboxMay(c, s, a) && CallsPost(a) && Balanced(AccountOf(s))
    ensures Balanced(AccountOf(MailboxDoes(c, s, a)))
  {
    if a.PostOk? || a.landed.Some? {
      LandBalanced(AccountOf(s), AccountOf(MailboxDoes(c, s, a)), s.pc.ms[0].ref, !a.PostOk?);
    }
  }

  lemma {:induction false} BalancedStep(c: Config, s: State, a: Action)
    requires May(c, s, a) && Settled(BookOf(s)) && Balanced(AccountOf(s))
    ensures Balanced(AccountOf(Do(c, s, a)))
  {
    match a
    case Inbound(i) => InboundQuiet(c, s, i);
    case Delivery(d) => DeliveryQuiet(c, s, d);
    case Mailbox(m) => MailboxBalanced(c, s, m);
    case Notices(n) => NoticesQuiet(c, s, n);
    case Session(v) => SessionQuiet(c, s, v);
    case _ => QuietBalanced(AccountOf(s), AccountOf(Do(c, s, a)));
  }

  lemma {:induction false} MailboxBalanced(c: Config, s: State, a: Mailbox)
    requires MailboxMay(c, s, a) && Settled(BookOf(s)) && Balanced(AccountOf(s))
    ensures Balanced(AccountOf(MailboxDoes(c, s, a)))
  {
    match a
    case ApplyCommand => CommandBalanced(c, s);
    case CommitPost => ReplyBalanced(c, s);
    case PostOk(_) => PostBalanced(c, s, a);
    case PostInvalid(_) => PostBalanced(c, s, a);
    case PostFails(_, _) => PostBalanced(c, s, a);
    case PostEscapes(_) => PostBalanced(c, s, a);
    case _ => MailboxQuiet(c, s, a);
  }

  // ---------------------------------------------------------------- posts and losses, counted over a run

  /** The step puts a message into Telegram for the mail `r`. */
  predicate PostsFor(s: State, a: Action, r: Ref) {
    && a.Mailbox? && CallsPost(a.m) && (a.m.PostOk? || a.m.landed.Some?)
    && s.pc.AtMail? && s.pc.ms != [] && s.pc.ms[0].ref == r
  }

  /** The step gives up the record of such a message: the call failed although the message landed, or the
      process dies between the post and its transaction. */
  predicate Loses(s: State, a: Action, r: Ref) {
    (PostsFor(s, a, r) && !a.m.PostOk?) || (a.Crash? && s.pc.Posted? && s.pc.ref == r)
  }

  ghost function PostsIn(c: Config, s: State, run: seq<Action>, r: Ref): nat
    requires Legal(c, s, run)
    decreases |run|
  {
    if run == [] then 0 else One(PostsFor(s, run[0], r)) + PostsIn(c, Do(c, s, run[0]), run[1..], r)
  }

  ghost function LossesIn(c: Config, s: State, run: seq<Action>, r: Ref): nat
    requires Legal(c, s, run)
    decreases |run|
  {
    if run == [] then 0 else One(Loses(s, run[0], r)) + LossesIn(c, Do(c, s, run[0]), run[1..], r)
  }

  ghost predicate Counts(v: Account, v': Account, posted: bool, lost: bool, r: Ref) {
    && CountOf(v'.posts, r) == CountOf(v.posts, r) + One(posted)
    && CountOf(v'.lost, r) == CountOf(v.lost, r) + One(lost)
  }

  lemma {:induction false} PostCounted(c: Config, s: State, a: Mailbox, r: Ref)
    requires MailboxMay(c, s, a) && CallsPost(a)
    ensures Counts(AccountOf(s), AccountOf(MailboxDoes(c, s, a)),
                   PostsFor(s, Mailbox(a), r), Loses(s, Mailbox(a), r), r)
  {}

  lemma {:induction false} MailboxCounted(c: Config, s: State, a: Mailbox, r: Ref)
    requires MailboxMay(c, s, a)
    ensures Counts(AccountOf(s), AccountOf(MailboxDoes(c, s, a)),
                   PostsFor(s, Mailbox(a), r), Loses(s, Mailbox(a), r), r)
  {
    if CallsPost(a) {
      PostCounted(c, s, a, r);
    } else if !a.ApplyCommand? && !a.CommitPost? {
      MailboxQuiet(c, s, a);
    }
  }

  lemma {:induction false} StepCounted(c: Config, s: State, a: Action, r: Ref)
    requires May(c, s, a)
    ensures Counts(AccountOf(s), AccountOf(Do(c, s, a)), PostsFor(s, a, r), Loses(s, a, r), r)
  {
    match a
    case Inbound(i) => InboundQuiet(c, s, i);
    case Delivery(d) => DeliveryQuiet(c, s, d);
    case Mailbox(m) => MailboxCounted(c, s, m, r);
    case Notices(n) => NoticesQuiet(c, s, n);
    case Session(v) => SessionQuiet(c, s, v);
    case _ =>
  }

  /** The two counters of the log are the numbers of such steps. */
  lemma {:induction false} RunCounted(c: Config, s: State, run: seq<Action>, r: Ref)
    requires Legal(c, s, run)
    ensures CountOf(After(c, s, run).h.intake.posts, r) == CountOf(s.h.intake.posts, r) + PostsIn(c, s, run, r)
    ensures CountOf(After(c, s, run).h.intake.lost, r) == CountOf(s.h.intake.lost, r) + LossesIn(c, s, run, r)
    decreases |run|
  {
    if run != [] {
      StepCounted(c, s, run[0], r);
      RunCounted(c, Do(c, s, run[0]), run[1..], r);
    }
  }

  /** Between two commands the switch stays as it is. */
  lemma {:induction false} SwitchStays(c: Config, s: State, a: Action)
    requires May(c, s, a) && !(a.Mailbox? && a.m.ApplyCommand?)
    ensures Do(c, s, a).t.enabled == s.t.enabled
  {
    match a
    case Inbound(i) => InboundQuiet(c, s, i);
    case Delivery(d) => DeliveryQuiet(c, s, d);
    case Mailbox(m) => MailboxKeepsSwitch(c, s, m);
    case Notices(n) => NoticesQuiet(c, s, n);
    case Session(v) => SessionQuiet(c, s, v);
    case _ =>
  }

  lemma {:induction false} MailboxKeepsSwitch(c: Config, s: State, a: Mailbox)
    requires MailboxMay(c, s, a) && !a.ApplyCommand?
    ensures MailboxDoes(c, s, a).t.enabled == s.t.enabled
  {}
}
