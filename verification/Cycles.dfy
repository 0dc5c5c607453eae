/** A cycle that nothing kills goes through to its end: every listed dialog, every polled mail and every
    waiting confirmation gets its turn, unless the session is lost on the way
    (src/mailtg_bridge/orchestrator.py:31-107). */
module Cycles {
  import opened Domain
  import opened Database
  import opened Protocol
  import opened Sequences

  // ---------------------------------------------------------------- where a cycle begins and what it does

  predicate Lists(a: Action) { a.Inbound? && (a.i.ListOk? || a.i.ListInvalid? || a.i.ListFails?) }

  predicate Polls(a: Action) { a.Mailbox? && (a.m.PollOk? || a.m.PollFails?) }

  /** The steps possible while nothing runs, the world and crashes aside. */
  predicate Begins(a: Action) { Lists(a) || Polls(a) || a.Authorize? || a.ClearWaits? || a.Purge? }

  function Beginnings(run: seq<Action>): nat {
    |set i | 0 <= i < |run| && Begins(run[i])|
  }

  lemma {:induction false} BeginningsSnoc(run: seq<Action>, a: Action)
    ensures Beginnings(run + [a]) == Beginnings(run) + One(Begins(a))
  {
    var before := set i | 0 <= i < |run| && Begins(run[i]);
    var after := set i | 0 <= i < |run + [a]| && Begins((run + [a])[i]);
    assert after == if Begins(a) then before + {|run|} else before;
  }

  lemma {:induction false} BeginningsConcat(a: seq<Action>, b: seq<Action>)
    ensures Beginnings(a + b) == Beginnings(a) + Beginnings(b)
    decreases |b|
  {
    if b == [] {
      assert a + b == a;
    } else {
      var init, last := b[..|b| - 1], b[|b| - 1];
      assert b == init + [last] && a + b == a + init + [last];
      BeginningsConcat(a, init);
      BeginningsSnoc(a + init, last);
      BeginningsSnoc(init, last);
    }
  }

  lemma {:induction false} BeginningsSince(before: seq<Action>, run: seq<Action>)
    requires before <= run
    ensures Beginnings(run) == Beginnings(before) + Beginnings(run[|before|..])
  {
    assert run == before + run[|before|..];
    BeginningsConcat(before, run[|before|..]);
  }

  lemma {:induction false} NoneBegins(run: seq<Action>)
    requires Beginnings(run) == 0
    ensures forall a :: a in run ==> !Begins(a)
  {
    var begun := set i | 0 <= i < |run| && Begins(run[i]);
    assert begun == {};
    forall i | 0 <= i < |run| ensures !Begins(run[i]) {
      assert i !in begun;
    }
  }

  function DialogIds(ds: seq<DialogRef>): seq<string> {
    if ds == [] then [] else [ds[0].id] + DialogIds(ds[1..])
  }

  /** The dialog that gets its turn in this step: it is skipped as not due, or its cursor is opened. */
  function DialogTurn(s: State, a: Action): seq<string> {
    if s.pc.AtDialog? && s.pc.ds != [] && a.Inbound? && (a.i.NotDue? || a.i.OpenCursor?) then [s.pc.ds[0].id] else []
  }

  /** The mail that gets its turn: it is skipped, obeyed or posted. */
  function MailTurn(s: State, a: Action): seq<Mail> {
    if s.pc.AtMail? && s.pc.ms != [] && a.Mailbox? && (a.m.SkipMail? || a.m.ApplyCommand? || CallsPost(a.m))
    then [s.pc.ms[0]] else []
  }

  /** The confirmation that gets its turn: it is sent, or sending it fails. */
  function NoticeTurn(s: State, a: Action): seq<Ref> {
    if s.pc.Flushing? && s.pc.refs != [] && a.Notices? && (a.n.NoticeOk? || a.n.NoticeFails? || a.n.NoticeEscapes?)
    then [s.pc.refs[0]] else []
  }

  ghost function DialogTurns(c: Config, s: State, run: seq<Action>): seq<string>
    requires Legal(c, s, run)
    decreases |run|
  {
    if run == [] then [] else DialogTurn(s, run[0]) + DialogTurns(c, Do(c, s, run[0]), run[1..])
  }

  ghost function MailTurns(c: Config, s: State, run: seq<Action>): seq<Mail>
    requires Legal(c, s, run)
    decreases |run|
  {
    if run == [] then [] else MailTurn(s, run[0]) + MailTurns(c, Do(c, s, run[0]), run[1..])
  }

  ghost function NoticeTurns(c: Config, s: State, run: seq<Action>): seq<Ref>
    requires Legal(c, s, run)
    decreases |run|
  {
    if run == [] then [] else NoticeTurn(s, run[0]) + NoticeTurns(c, Do(c, s, run[0]), run[1..])
  }

  // ---------------------------------------------------------------- the inbound cycle

  function DialogsLeft(pc: Pc): Option<seq<string>> {
    match pc
    case Listed(ds) => Some(DialogIds(ds))
    case AtDialog(ds) => Some(DialogIds(ds))
    case Opened(_, _, ds) => Some(DialogIds(ds))
    case Clearing(_, ds) => Some(DialogIds(ds))
    case Fetched(_, _, _, ds) => Some(DialogIds(ds))
    case Downloading(_, _, ds) => Some(DialogIds(ds))
    case Sending(_, _, _, ds) => Some(DialogIds(ds))
    case DialogFailed(_, _, ds) => Some(DialogIds(ds))
    case _ => None
  }

  /** In `invalidate_session`, and where it goes on after. */
  function Resumes(pc: Pc): Option<Next> {
    match pc
    case Invalidating(next) => Some(next)
    case Notifying(next) => Some(next)
    case SessionSent(_, next) => Some(next)
    case SessionRecorded(_, next) => Some(next)
    case SessionMarked(next) => Some(next)
    case SessionFailed(next) => Some(next)
    case _ => None
  }

  /** The session is down, or about to be put down. */
  predicate Down(s: State) { !s.t.valid || s.pc.Invalidating? }

  /** The turns taken so far and those to come are all of them; or the cycle is over, or the session lost. */
  ghost predicate DialogsOnTrack(s: State, done: seq<string>, over: bool, all: seq<string>) {
    match DialogsLeft(s.pc)
    case Some(left) => done + left == all && !over
    case None =>
      || (s.pc.Idle? && done == all && over)
      || ((s.pc.Idle? || Resumes(s.pc) == Some(ToIdle)) && done <= all && Down(s))
  }

  predicate EndsCycle(a: Action) { a.Inbound? && a.i.CycleDone? }

  lemma {:induction false} TurnTaken(done: seq<string>, ds: seq<DialogRef>, all: seq<string>)
    requires ds != [] && done + DialogIds(ds) == all
    ensures done + [ds[0].id] + DialogIds(ds[1..]) == all
  {
    Assoc(done, [ds[0].id], DialogIds(ds[1..]));
  }

  /** With nothing more to do, all turns were taken; and turns taken are a beginning of all. */
  lemma {:induction false} TurnsSoFar(done: seq<string>, left: seq<string>, all: seq<string>)
    requires done + left == all
    ensures done <= all && (left == [] ==> done == all)
  {
    if left == [] { assert done + left == done; }
  }

  lemma {:induction false} InboundOnTrack(c: Config, s: State, a: Inbound, done: seq<string>, over: bool,
                                          all: seq<string>)
    requires InboundMay(c, s, a) && !Begins(Inbound(a)) && DialogsOnTrack(s, done, over, all)
    ensures DialogsOnTrack(InboundDoes(c, s, a), done + DialogTurn(s, Inbound(a)), over || a.CycleDone?, all)
  {
    assert done + [] == done;
    if DialogsLeft(s.pc).Some? { TurnsSoFar(done, DialogsLeft(s.pc).value, all); }
    if s.pc.AtDialog? && s.pc.ds != [] { TurnTaken(done, s.pc.ds, all); }
  }

  lemma {:induction false} DeliveryOnTrack(c: Config, s: State, a: Delivery, done: seq<string>, over: bool,
                                           all: seq<string>)
    requires DeliveryMay(c, s, a) && DialogsOnTrack(s, done, over, all)
             && DeliveryDoes(c, s, a).h.crashes == s.h.crashes
    ensures DialogsOnTrack(DeliveryDoes(c, s, a), done, over, all)
  {
    TurnsSoFar(done, DialogsLeft(s.pc).value, all);
  }

  lemma {:induction false} SessionOnTrack(c: Config, s: State, a: Session, done: seq<string>, over: bool,
                                          all: seq<string>)
    requires SessionMay(c, s, a) && DialogsOnTrack(s, done, over, all) && SessionDoes(c, s, a).h.crashes == s.h.crashes
    ensures DialogsOnTrack(SessionDoes(c, s, a), done, over, all)
  {}

  lemma {:induction false} DialogsStep(c: Config, s: State, a: Action, done: seq<string>, over: bool, all: seq<string>)
    requires May(c, s, a) && !Begins(a) && Do(c, s, a).h.crashes == s.h.crashes && DialogsOnTrack(s, done, over, all)
    ensures DialogsOnTrack(Do(c, s, a), done + DialogTurn(s, a), over || EndsCycle(a), all)
  {
    assert done + [] == done;
    match a
    case Inbound(i) => InboundOnTrack(c, s, i, done, over, all);
    case Delivery(d) => DeliveryOnTrack(c, s, d, done, over, all);
    case Session(v) => SessionOnTrack(c, s, v, done, over, all);
    case World(_) =>
    case Mailbox(_) =>
    case Notices(_) =>
    case Crash =>
  }

  // ---------------------------------------------------------------- deaths

  lemma {:induction false} InboundLives(c: Config, s: State, a: Inbound)
    requires InboundMay(c, s, a)
    ensures InboundDoes(c, s, a).h.crashes == s.h.crashes
  {}

  lemma {:induction false} DeliveryDies(c: Config, s: State, a: Delivery)
    requires DeliveryMay(c, s, a)
    ensures DeliveryDoes(c, s, a).h.crashes >= s.h.crashes
  {}

  lemma {:induction false} MailboxDies(c: Config, s: State, a: Mailbox)
    requires MailboxMay(c, s, a)
    ensures MailboxDoes(c, s, a).h.crashes >= s.h.crashes
  {}

  lemma {:induction false} NoticesDie(c: Config, s: State, a: Notices)
    requires NoticesMay(c, s, a)
    ensures NoticesDo(c, s, a).h.crashes >= s.h.crashes
  {}

  lemma {:induction false} SessionDies(c: Config, s: State, a: Session)
    requires SessionMay(c, s, a)
    ensures SessionDoes(c, s, a).h.crashes >= s.h.crashes
  {}

  lemma {:induction false} DeathsAdd(c: Config, s: State, a: Action)
    requires May(c, s, a)
    ensures Do(c, s, a).h.crashes >= s.h.crashes
  {
    match a
    case Inbound(i) => InboundLives(c, s, i);
    case Delivery(d) => DeliveryDies(c, s, d);
    case Mailbox(m) => MailboxDies(c, s, m);
    case Notices(n) => NoticesDie(c, s, n);
    case Session(v) => SessionDies(c, s, v);
    case _ =>
  }

  lemma {:induction false} DeathsGrow(c: Config, s: State, run: seq<Action>)
    requires Legal(c, s, run)
    ensures Protocol.After(c, s, run).h.crashes >= s.h.crashes
    decreases |run|
  {
    if run != [] {
      DeathsAdd(c, s, run[0]);
      DeathsGrow(c, Do(c, s, run[0]), run[1..]);
    }
  }

  lemma {:induction false} DialogsRun(c: Config, s: State, run: seq<Action>, done: seq<string>, over: bool,
                                      all: seq<string>)
    requires Legal(c, s, run) && Protocol.After(c, s, run).h.crashes == s.h.crashes
    requires (forall a :: a in run ==> !Begins(a)) && DialogsOnTrack(s, done, over, all)
    ensures DialogsOnTrack(Protocol.After(c, s, run), done + DialogTurns(c, s, run),
                           over || exists a :: a in run && EndsCycle(a), all)
    decreases |run|
  {
    if run == [] {
      assert done + [] == done;
    } else {
      var a, s' := run[0], Do(c, s, run[0]);
      DeathsAdd(c, s, a);
      DeathsGrow(c, s', run[1..]);
      DialogsStep(c, s, a, done, over, all);
      DialogsRun(c, s', run[1..], done + DialogTurn(s, a), over || EndsCycle(a), all);
      Assoc(done, DialogTurn(s, a), DialogTurns(c, s', run[1..]));
      assert run == [a] + run[1..];
    }
  }

  // ---------------------------------------------------------------- the mailbox cycle

  function MailsLeft(pc: Pc): Option<seq<Mail>> {
    match pc
    case Polled(ms) => Some(ms)
    case AtMail(ms) => Some(ms)
    case Applied(_, _, ms) => Some(ms)
    case Posted(_, _, _, ms) => Some(ms)
    case PostFailed(_, _, ms) => Some(ms)
    case _ => None
  }

  function NoticesLeft(pc: Pc): Option<seq<Ref>> {
    match pc
    case Flushing(refs) => Some(refs)
    case NoticeSent(_, _, refs) => Some(refs)
    case NoticeRecorded(_, _, refs) => Some(refs)
    case NoticeFailed(_, refs) => Some(refs)
    case _ => None
  }

  /** A post found the session gone; nothing else breaks off the mails. */
  predicate LosesPost(a: Action) { a.Mailbox? && a.m.PostInvalid? }

  /** All mails had their turn, or a post found the session gone. */
  ghost predicate MailsDone(s: State, done: seq<Mail>, lost: bool, all: seq<Mail>) {
    done == all || (done <= all && lost && Down(s))
  }

  /** First the mails, then the confirmations waiting when the mails are through. */
  ghost predicate MailsOnTrack(s: State, done: seq<Mail>, tried: seq<Ref>, told: Option<seq<Ref>>, lost: bool,
                               all: seq<Mail>)
  {
    if MailsLeft(s.pc).Some? then
      && told == None && tried == []
      && (done + MailsLeft(s.pc).value == all || (MailsLeft(s.pc).value == [] && MailsDone(s, done, lost, all)))
    else if Resumes(s.pc) == Some(ToFlush) then told == None && tried == [] && done <= all && lost && Down(s)
    else if NoticesLeft(s.pc).Some? then told == Some(tried + NoticesLeft(s.pc).value) && MailsDone(s, done, lost, all)
    else (s.pc.Idle? || Resumes(s.pc) == Some(ToIdle)) && told == Some(tried) && MailsDone(s, done, lost, all)
  }

  function ToldAfter(told: Option<seq<Ref>>, a: Action): Option<seq<Ref>> {
    if a.Notices? && a.n.EndOfMail? then Some(a.n.refs) else told
  }

  lemma {:induction false} MailTaken(done: seq<Mail>, ms: seq<Mail>, all: seq<Mail>)
    requires ms != [] && done + ms == all
    ensures done + [ms[0]] + ms[1..] == all && done + [ms[0]] <= all
  {
    assert ms == [ms[0]] + ms[1..];
    Assoc(done, [ms[0]], ms[1..]);
  }

  lemma {:induction false} MailboxOnTrack(c: Config, s: State, a: Mailbox, done: seq<Mail>, tried: seq<Ref>,
                                          told: Option<seq<Ref>>, lost: bool, all: seq<Mail>)
    requires MailboxMay(c, s, a) && !Begins(Mailbox(a)) && MailsOnTrack(s, done, tried, told, lost, all)
    requires MailboxDoes(c, s, a).h.crashes == s.h.crashes
    ensures MailsOnTrack(MailboxDoes(c, s, a), done + MailTurn(s, Mailbox(a)), tried, told, lost || a.PostInvalid?, all)
  {
    assert done + [] == done;
    if s.pc.AtMail? && s.pc.ms != [] { MailTaken(done, s.pc.ms, all); }
  }

  lemma {:induction false} NoticesOnTrack(c: Config, s: State, a: Notices, done: seq<Mail>, tried: seq<Ref>,
                                          told: Option<seq<Ref>>, lost: bool, all: seq<Mail>)
    requires NoticesMay(c, s, a) && MailsOnTrack(s, done, tried, told, lost, all)
             && NoticesDo(c, s, a).h.crashes == s.h.crashes
    ensures MailsOnTrack(NoticesDo(c, s, a), done, tried + NoticeTurn(s, Notices(a)),
                         ToldAfter(told, Notices(a)), lost, all)
  {
    assert done + [] == done && tried + [] == tried;
    if a.EndOfMail? { assert [] + a.refs == a.refs; }
    if s.pc.Flushing? && s.pc.refs != [] {
      assert s.pc.refs == [s.pc.refs[0]] + s.pc.refs[1..];
      Assoc(tried, [s.pc.refs[0]], s.pc.refs[1..]);
    }
  }

  lemma {:induction false} TellingOnTrack(c: Config, s: State, a: Session, done: seq<Mail>, tried: seq<Ref>,
                                          told: Option<seq<Ref>>, lost: bool, all: seq<Mail>)
    requires SessionMay(c, s, a) && MailsOnTrack(s, done, tried, told, lost, all)
             && SessionDoes(c, s, a).h.crashes == s.h.crashes
    ensures MailsOnTrack(SessionDoes(c, s, a), done, tried, told, lost, all)
  {}

  lemma {:induction false} MailsStep(c: Config, s: State, a: Action, done: seq<Mail>, tried: seq<Ref>,
                                     told: Option<seq<Ref>>, lost: bool, all: seq<Mail>)
    requires May(c, s, a) && !Begins(a) && Do(c, s, a).h.crashes == s.h.crashes
             && MailsOnTrack(s, done, tried, told, lost, all)
    ensures MailsOnTrack(Do(c, s, a), done + MailTurn(s, a), tried + NoticeTurn(s, a), ToldAfter(told, a),
                         lost || LosesPost(a), all)
  {
    assert done + [] == done && tried + [] == tried;
    match a
    case Mailbox(m) => MailboxOnTrack(c, s, m, done, tried, told, lost, all);
    case Notices(n) => NoticesOnTrack(c, s, n, done, tried, told, lost, all);
    case Session(v) => TellingOnTrack(c, s, v, done, tried, told, lost, all);
    case World(_) =>
    case Inbound(_) =>
    case Delivery(_) =>
    case Crash =>
  }

  ghost function ToldIn(told: Option<seq<Ref>>, run: seq<Action>): Option<seq<Ref>>
    decreases |run|
  {
    if run == [] then told else ToldIn(ToldAfter(told, run[0]), run[1..])
  }

  lemma {:induction false} ToldFrom(told: Option<seq<Ref>>, run: seq<Action>)
    ensures ToldIn(told, run) == told || (ToldIn(told, run).Some? && Notices(EndOfMail(ToldIn(told, run).value)) in run)
    decreases |run|
  {
    if run != [] {
      ToldFrom(ToldAfter(told, run[0]), run[1..]);
      assert run == [run[0]] + run[1..];
    }
  }

  predicate PostLostIn(run: seq<Action>) { exists a :: a in run && LosesPost(a) }

  lemma {:induction false} PostLostCons(run: seq<Action>)
    requires run != []
    ensures PostLostIn(run) <==> LosesPost(run[0]) || PostLostIn(run[1..])
  {
    assert run == [run[0]] + run[1..];
  }

  lemma {:induction false} MailsRun(c: Config, s: State, run: seq<Action>, done: seq<Mail>, tried: seq<Ref>,
                                    told: Option<seq<Ref>>, lost: bool, all: seq<Mail>)
    requires Legal(c, s, run) && Protocol.After(c, s, run).h.crashes == s.h.crashes
    requires (forall a :: a in run ==> !Begins(a)) && MailsOnTrack(s, done, tried, told, lost, all)
    ensures MailsOnTrack(Protocol.After(c, s, run), done + MailTurns(c, s, run), tried + NoticeTurns(c, s, run),
                         ToldIn(told, run), lost || PostLostIn(run), all)
    decreases |run|
  {
    if run == [] {
      assert done + [] == done && tried + [] == tried;
    } else {
      var a, s' := run[0], Do(c, s, run[0]);
      DeathsAdd(c, s, a);
      DeathsGrow(c, s', run[1..]);
      MailsStep(c, s, a, done, tried, told, lost, all);
      MailsRun(c, s', run[1..], done + MailTurn(s, a), tried + NoticeTurn(s, a), ToldAfter(told, a),
               lost || LosesPost(a), all);
      Assoc(done, MailTurn(s, a), MailTurns(c, s', run[1..]));
      Assoc(tried, NoticeTurn(s, a), NoticeTurns(c, s', run[1..]));
      PostLostCons(run);
    }
  }

  // ---------------------------------------------------------------- failures to begin with

  /** A list or poll that failed is noted before anything else. */
  predicate NotesFailure(a: Action) { (a.Inbound? && a.i.NoteListFailure?) || (a.Mailbox? && a.m.NotePollFailure?) }

  lemma {:induction false} FailureIsNoted(c: Config, s: State, run: seq<Action>)
    requires Legal(c, s, run) && (s.pc.ListFailed? || s.pc.PollFailed?)
    requires Protocol.After(c, s, run).pc.Idle? && Protocol.After(c, s, run).h.crashes == s.h.crashes
    ensures exists a :: a in run && NotesFailure(a)
    decreases |run|
  {
    var a, s' := run[0], Do(c, s, run[0]);
    DeathsAdd(c, s, a);
    DeathsGrow(c, s', run[1..]);
    assert a in run;
    if !NotesFailure(a) {
      FailureWaits(c, s, a);
      FailureIsNoted(c, s', run[1..]);
      var b :| b in run[1..] && NotesFailure(b);
      assert b in run;
    }
  }

  lemma {:induction false} FailureWaits(c: Config, s: State, a: Action)
    requires May(c, s, a) && (s.pc.ListFailed? || s.pc.PollFailed?) && !NotesFailure(a)
             && Do(c, s, a).h.crashes == s.h.crashes
    ensures Do(c, s, a).pc == s.pc
  {}

  // ---------------------------------------------------------------- whole rounds

  /** The list was asked for, and then: every dialog had its turn and the cycle ended; or the session was
      lost, after a beginning of them; or the list failed, which was noted. */
  ghost predicate WholeInbound(c: Config, s: State, run: seq<Action>)
    requires Legal(c, s, run)
  {
    run != [] && Lists(run[0]) && var end := Protocol.After(c, s, run);
    match run[0].i
    case ListOk(ds) =>
      || (DialogTurns(c, s, run) == DialogIds(ds) && Inbound(CycleDone) in run)
      || (DialogTurns(c, s, run) <= DialogIds(ds) && !end.t.valid)
    case ListInvalid => !end.t.valid
    case _ => exists a :: a in run && NotesFailure(a)
  }

  /** The mailbox was polled, and then: every mail had its turn, or a post found the session gone after a
      beginning of them; and every confirmation waiting after that had its turn; or the poll failed, which was noted. */
  ghost predicate WholeMailbox(c: Config, s: State, run: seq<Action>)
    requires Legal(c, s, run)
  {
    run != [] && Polls(run[0]) && var end := Protocol.After(c, s, run);
    if run[0].m.PollOk? then
      && (|| MailTurns(c, s, run) == run[0].m.ms
          || (PostLostIn(run) && MailTurns(c, s, run) <= run[0].m.ms && !end.t.valid))
      && Notices(EndOfMail(NoticeTurns(c, s, run))) in run
    else exists a :: a in run && NotesFailure(a)
  }

  /** A run that begins with a cycle, nothing else, that nothing kills and that ends with nothing running. */
  ghost predicate Quiet(c: Config, s: State, run: seq<Action>)
    requires Legal(c, s, run)
  {
    && s.pc.Idle? && run != [] && Beginnings(run) == 1 && Protocol.After(c, s, run).pc.Idle?
    && Protocol.After(c, s, run).h.crashes == s.h.crashes
  }

  lemma {:induction false} RestBeginsNothing(run: seq<Action>)
    requires run != [] && Begins(run[0]) && Beginnings(run) == 1
    ensures forall a :: a in run[1..] ==> !Begins(a)
  {
    assert run == [run[0]] + run[1..];
    BeginningsConcat([run[0]], run[1..]);
    BeginningsSnoc([], run[0]);
    assert [] + [run[0]] == [run[0]];
    NoneBegins(run[1..]);
  }

  /** The session is being put down at the end of a cycle, or has been. */
  predicate Losing(s: State) { (s.pc.Idle? || Resumes(s.pc) == Some(ToIdle)) && Down(s) }

  lemma {:induction false} LosingWhileTelling(c: Config, s: State, a: Session)
    requires SessionMay(c, s, a) && SessionDoes(c, s, a).h.crashes == s.h.crashes && Losing(s)
    ensures Losing(SessionDoes(c, s, a))
  {}

  lemma {:induction false} LosingStep(c: Config, s: State, a: Action)
    requires May(c, s, a) && !Begins(a) && Do(c, s, a).h.crashes == s.h.crashes && Losing(s)
    ensures Losing(Do(c, s, a))
  {
    match a
    case Session(v) => LosingWhileTelling(c, s, v);
    case World(_) =>
    case _ =>
  }

  lemma {:induction false} ListLostIsDown(c: Config, s: State, run: seq<Action>)
    requires Legal(c, s, run) && Protocol.After(c, s, run).h.crashes == s.h.crashes
    requires (forall a :: a in run ==> !Begins(a)) && Losing(s)
    ensures Losing(Protocol.After(c, s, run))
    decreases |run|
  {
    if run != [] {
      DeathsAdd(c, s, run[0]);
      DeathsGrow(c, Do(c, s, run[0]), run[1..]);
      LosingStep(c, s, run[0]);
      ListLostIsDown(c, Do(c, s, run[0]), run[1..]);
    }
  }

  /** What follows the first step of a quiet run begins nothing and is not killed. */
  lemma {:induction false} QuietRest(c: Config, s: State, run: seq<Action>)
    requires Legal(c, s, run) && Quiet(c, s, run) && Begins(run[0])
    ensures forall a :: a in run[1..] ==> !Begins(a)
    ensures Protocol.After(c, s, run) == Protocol.After(c, Do(c, s, run[0]), run[1..])
    ensures Protocol.After(c, s, run).h.crashes == Do(c, s, run[0]).h.crashes
  {
    RestBeginsNothing(run);
    DeathsAdd(c, s, run[0]);
    DeathsGrow(c, Do(c, s, run[0]), run[1..]);
  }

  lemma {:induction false} DialogsAreWhole(c: Config, s: State, run: seq<Action>)
    requires Legal(c, s, run) && Quiet(c, s, run) && Lists(run[0]) && run[0].i.ListOk?
    ensures WholeInbound(c, s, run)
  {
    var s', rest, all := Do(c, s, run[0]), run[1..], DialogIds(run[0].i.ds);
    QuietRest(c, s, run);
    assert [] + all == all;
    DialogsRun(c, s', rest, [], false, all);
    assert DialogTurn(s, run[0]) == [];
    assert [] + DialogTurns(c, s', rest) == DialogTurns(c, s', rest) == DialogTurns(c, s, run);
    forall a | a in rest ensures a in run { assert run == [run[0]] + rest; }
  }

  lemma {:induction false} InboundIsWhole(c: Config, s: State, run: seq<Action>)
    requires Legal(c, s, run) && Quiet(c, s, run) && Lists(run[0])
    ensures WholeInbound(c, s, run)
  {
    QuietRest(c, s, run);
    match run[0].i
    case ListOk(_) => DialogsAreWhole(c, s, run);
    case ListInvalid => ListLostIsDown(c, Do(c, s, run[0]), run[1..]);
    case ListFails(_) => NotedInRun(c, s, run);
  }

  lemma {:induction false} NotedInRun(c: Config, s: State, run: seq<Action>)
    requires Legal(c, s, run) && Quiet(c, s, run) && Begins(run[0])
    requires Do(c, s, run[0]).pc.ListFailed? || Do(c, s, run[0]).pc.PollFailed?
    ensures exists a :: a in run && NotesFailure(a)
  {
    QuietRest(c, s, run);
    FailureIsNoted(c, Do(c, s, run[0]), run[1..]);
    var a :| a in run[1..] && NotesFailure(a);
    assert a in run by { assert run == [run[0]] + run[1..]; }
  }

  lemma {:induction false} MailsAreWhole(c: Config, s: State, run: seq<Action>)
    requires Legal(c, s, run) && Quiet(c, s, run) && Polls(run[0]) && run[0].m.PollOk?
    ensures WholeMailbox(c, s, run)
  {
    AfterPoll(c, s, run);
    ToldFrom(None, run[1..]);
    forall a | a in run[1..] ensures a in run { assert run == [run[0]] + run[1..]; }
  }

  lemma {:induction false} AfterPoll(c: Config, s: State, run: seq<Action>)
    requires Legal(c, s, run) && Quiet(c, s, run) && Polls(run[0]) && run[0].m.PollOk?
    ensures MailsOnTrack(Protocol.After(c, s, run), MailTurns(c, s, run), NoticeTurns(c, s, run),
                         ToldIn(None, run[1..]), PostLostIn(run), run[0].m.ms)
  {
    var s', rest, ms := Do(c, s, run[0]), run[1..], run[0].m.ms;
    QuietRest(c, s, run);
    assert [] + ms == ms;
    MailsRun(c, s', rest, [], [], None, false, ms);
    PostLostCons(run);
    assert MailTurn(s, run[0]) == [] && NoticeTurn(s, run[0]) == [];
    assert [] + MailTurns(c, s', rest) == MailTurns(c, s', rest) == MailTurns(c, s, run);
    assert [] + NoticeTurns(c, s', rest) == NoticeTurns(c, s', rest) == NoticeTurns(c, s, run);
  }

  lemma {:induction false} MailboxIsWhole(c: Config, s: State, run: seq<Action>)
    requires Legal(c, s, run) && Quiet(c, s, run) && Polls(run[0])
    ensures WholeMailbox(c, s, run)
  {
    if run[0].m.PollOk? { MailsAreWhole(c, s, run); } else { NotedInRun(c, s, run); }
  }

  // ---------------------------------------------------------------- rounds in a longer run

  /** Steps at which the process dies or an exception escapes. */
  predicate Fatal(a: Action) {
    || a.Crash?
    || (a.Delivery? && a.d.SendEscapes?)
    || (a.Mailbox? && a.m.PostEscapes?)
    || (a.Notices? && a.n.NoticeEscapes?)
    || (a.Session? && a.v.SessionEscapes?)
  }

  lemma {:induction false} FatalCounts(c: Config, s: State, a: Action)
    requires May(c, s, a)
    ensures Do(c, s, a).h.crashes >= s.h.crashes + One(Fatal(a))
  {
    DeathsAdd(c, s, a);
  }

  lemma {:induction false} NothingFatal(c: Config, s: State, run: seq<Action>)
    requires Legal(c, s, run) && Protocol.After(c, s, run).h.crashes == s.h.crashes
    ensures forall a :: a in run ==> !Fatal(a)
    decreases |run|
  {
    if run != [] {
      FatalCounts(c, s, run[0]);
      DeathsGrow(c, Do(c, s, run[0]), run[1..]);
      NothingFatal(c, Do(c, s, run[0]), run[1..]);
      assert run == [run[0]] + run[1..];
    }
  }

  lemma {:induction false} RunSplits(c: Config, s: State, before: seq<Action>, run: seq<Action>)
    requires Legal(c, s, run) && before <= run
    ensures Legal(c, s, before) && Legal(c, Protocol.After(c, s, before), run[|before|..])
    ensures Protocol.After(c, Protocol.After(c, s, before), run[|before|..]) == Protocol.After(c, s, run)
    decreases |before|
  {
    if before == [] {
      assert run[0..] == run;
    } else {
      assert run[1..][|before[1..]|..] == run[|before|..];
      RunSplits(c, Do(c, s, run[0]), before[1..], run[1..]);
    }
  }

  /** What one call of the inbound cycle does: nothing when the bridge may not deliver or the list is not
      due; otherwise it asks for the list, and unless an exception escapes the round is whole. */
  ghost predicate InboundRound(c: Config, s: State, run: seq<Action>, escaped: bool) {
    if DeliveryAllowed(s.t) && Due(s.t, TgList, s.o.now) then
      && Legal(c, s, run) && run != [] && Lists(run[0])
      && Protocol.After(c, s, run).h.crashes == s.h.crashes + One(escaped)
      && (!escaped ==> (forall a :: a in run ==> !Fatal(a)) && WholeInbound(c, s, run))
    else run == [] && !escaped
  }

  /** What one call of the mailbox cycle does. */
  ghost predicate MailboxRound(c: Config, s: State, run: seq<Action>, escaped: bool) {
    if Due(s.t, MailPoll, s.o.now) then
      && Legal(c, s, run) && run != [] && Polls(run[0])
      && Protocol.After(c, s, run).h.crashes == s.h.crashes + One(escaped)
      && (!escaped ==> (forall a :: a in run ==> !Fatal(a)) && WholeMailbox(c, s, run))
    else run == [] && !escaped
  }

  /** What one call for both cycles does: the inbound cycle, when asked for; some time; and, unless an
      exception has escaped, the mailbox cycle, when asked for. */
  ghost predicate BothRounds(c: Config, s: State, inbound: bool, mailbox: bool, first: seq<Action>,
                             between: seq<Action>, second: seq<Action>, broke: bool, escaped: bool)
  {
    && Legal(c, s, first) && Legal(c, Protocol.After(c, s, first), between)
    && (if inbound then InboundRound(c, s, first, broke) else first == [] && !broke)
    && (forall a :: a in between ==> a.World?)
    && var s' := Protocol.After(c, Protocol.After(c, s, first), between);
       if mailbox && !broke then MailboxRound(c, s', second, escaped) else second == [] && escaped == broke
  }

  /** Since `before`, one cycle was begun, and it died exactly if an exception escaped. */
  ghost predicate OneRound(c: Config, start: State, before: seq<Action>, run: seq<Action>, escaped: bool)
    requires Legal(c, start, before) && Legal(c, start, run)
  {
    var s, s' := Protocol.After(c, start, before), Protocol.After(c, start, run);
    && before < run && Beginnings(run) == Beginnings(before) + 1
    && s.pc.Idle? && s'.pc.Idle? && s'.h.crashes == s.h.crashes + One(escaped)
  }

  lemma {:induction false} RoundIsQuiet(c: Config, start: State, before: seq<Action>, run: seq<Action>)
    requires Legal(c, start, before) && Legal(c, start, run) && OneRound(c, start, before, run, false)
    ensures Legal(c, Protocol.After(c, start, before), run[|before|..])
    ensures Quiet(c, Protocol.After(c, start, before), run[|before|..])
  {
    RunSplits(c, start, before, run);
    BeginningsSince(before, run);
  }

  lemma {:induction false} InboundRounds(c: Config, start: State, before: seq<Action>, run: seq<Action>, escaped: bool)
    requires Legal(c, start, before) && Legal(c, start, run) && OneRound(c, start, before, run, escaped)
    requires Lists(run[|before|])
    ensures InboundRound(c, Protocol.After(c, start, before), run[|before|..], escaped)
  {
    var s, later := Protocol.After(c, start, before), run[|before|..];
    RunSplits(c, start, before, run);
    if !escaped {
      RoundIsQuiet(c, start, before, run);
      NothingFatal(c, s, later);
      InboundIsWhole(c, s, later);
    }
  }

  lemma {:induction false} MailboxRounds(c: Config, start: State, before: seq<Action>, run: seq<Action>, escaped: bool)
    requires Legal(c, start, before) && Legal(c, start, run) && OneRound(c, start, before, run, escaped)
    requires Polls(run[|before|])
    ensures MailboxRound(c, Protocol.After(c, start, before), run[|before|..], escaped)
  {
    var s, later := Protocol.After(c, start, before), run[|before|..];
    RunSplits(c, start, before, run);
    if !escaped {
      RoundIsQuiet(c, start, before, run);
      NothingFatal(c, s, later);
      MailboxIsWhole(c, s, later);
    }
  }
}
