/** Where the bridge falls short, by a run that shows it, and exactly when. */
module Counterexamples {
  import opened Domain
  import opened Database
  import opened Protocol
  import opened Runs

  lemma {:induction false} Onwards(c: Config, s: State, a: Action)
    requires Reachable(c, s, NONE) && May(c, s, a)
    ensures Reachable(c, Do(c, s, a), NONE)
  {
    var now: real, run: seq<Action> :| Legal(c, Init(now), run) && Throughout(c, Init(now), run, NONE)
      && s == After(c, Init(now), run);
    OneMore(c, Init(now), run, a);
    EveryRunIsReachable(c, now, run + [a]);
  }

  lemma {:induction false} InitReachable(c: Config)
    ensures Reachable(c, Init(0.0), NONE)
  {
    EveryRunIsReachable(c, 0.0, []);
  }

  // ---------------------------------------------------------------- newest first loses a message

  /** The order the call asks for, and small limits. */
  const NEWEST := Config(NewestFirst, 1, false, 1.0, 2.0, Limits(10.0, 10.0, 10, 1, 10))
  const D := DialogRef("7", Some(2), "seven")
  const TWO := Item(2, true, false)
  const PART := Part(1, [2])
  const BATCH := Batch(D, 0, 2, [TWO])

  /** A new database, set up, and two messages in one dialog. */
  const START := State(FRESH.(valid := true), Outside(map["7" := {1, 2}], map["7" := 2], map[], 0.0),
                       Log(NO_DELIVERIES, NO_INTAKE, NO_NOTICES, map[], {}, 0), Idle)

  const AUTHORIZED := Init(0.0).(t := FRESH.(valid := true))

  lemma {:induction false} AuthorizedReachable()
    ensures Reachable(NEWEST, AUTHORIZED, NONE)
  {
    InitReachable(NEWEST);
    Onwards(NEWEST, Init(0.0), Authorize);
    var s := AUTHORIZED.(pc := SettingUp);
    Onwards(NEWEST, s, ClearWaits);
    assert Do(NEWEST, s, ClearWaits) == AUTHORIZED;
  }

  lemma {:induction false} StartReachable()
    ensures Reachable(NEWEST, START, NONE)
  {
    AuthorizedReachable();
    Onwards(NEWEST, AUTHORIZED, World(Appear("7", 1)));
    var s := AUTHORIZED.(o := Outside(map["7" := {1}], map["7" := 1], map[], 0.0));
    assert Held(AUTHORIZED.o, "7") + {1} == {1} && Held(s.o, "7") + {2} == {1, 2};
    Onwards(NEWEST, s, World(Appear("7", 2)));
    assert Do(NEWEST, s, World(Appear("7", 2))) == START;
  }

  lemma {:induction false} ListedReachable()
    ensures Reachable(NEWEST, START.(pc := AtDialog([D])), NONE)
  {
    StartReachable();
    Onwards(NEWEST, START, Inbound(ListOk([D])));
    var s := START.(pc := Listed([D]));
    Onwards(NEWEST, s, Inbound(ClearList));
    assert Do(NEWEST, s, Inbound(ClearList)) == START.(pc := AtDialog([D]));
  }

  const OPENED := START.(t := START.t.(cursors := map["7" := CursorRow(0, "seven")]))

  lemma {:induction false} OpenedReachable()
    ensures Reachable(NEWEST, OPENED.(pc := Opened(D, 0, [])), NONE)
  {
    ListedReachable();
    var s := START.(pc := AtDialog([D]));
    Onwards(NEWEST, s, Inbound(OpenCursor));
    assert EnsureDialog(START.t, D) == OPENED.t && [D][1..] == [];
    assert Do(NEWEST, s, Inbound(OpenCursor)) == OPENED.(pc := Opened(D, 0, []));
  }

  lemma {:induction false} NewestOfTwo(o: Outside)
    requires Held(o, "7") == {1, 2}
    ensures FetchOf(NEWEST, Backlog(o, "7", 0), [TWO]) && Ids([TWO]) == [2] && High([TWO]) == 2
  {
    assert Backlog(o, "7", 0) == {1, 2};
  }

  lemma {:induction false} FetchedReachable()
    ensures Reachable(NEWEST, OPENED.(pc := Fetched(D, 0, [TWO], [])), NONE)
  {
    OpenedReachable();
    var s := OPENED.(pc := Opened(D, 0, []));
    NewestOfTwo(s.o);
    Onwards(NEWEST, s, Inbound(FetchOk([TWO])));
  }

  lemma {:induction false} TwoSelected()
    ensures Selected(map[], "7", 0, [TWO]) == [TWO]
  {}

  lemma {:induction false} SelectedReachable()
    ensures Reachable(NEWEST, OPENED.(pc := Downloading(BATCH, 0, [])), NONE)
  {
    FetchedReachable();
    var s := OPENED.(pc := Fetched(D, 0, [TWO], []));
    TwoSelected();
    Onwards(NEWEST, s, Inbound(Select));
    PassOverTwo();
    assert Do(NEWEST, s, Inbound(Select)) == OPENED.(pc := Downloading(BATCH, 0, []));
  }

  lemma {:induction false} PassOverTwo()
    ensures PassOver(OPENED.h, OPENED.t, "7", [TWO]) == OPENED.h
  {}

  lemma {:induction false} SendingReachable()
    ensures Reachable(NEWEST, OPENED.(pc := Sending(BATCH, [PART], 0, []), h := OPENED.h.(mids := {1})), NONE)
  {
    SelectedReachable();
    var s := OPENED.(pc := Downloading(BATCH, 0, []));
    Onwards(NEWEST, s, Delivery(DownloadOk));
    s := OPENED.(pc := Downloading(BATCH, 1, []));
    assert PartIds([PART]) == [2] by { assert [PART][1..] == []; }
    assert Ids([TWO]) == [2] by { assert [TWO][1..] == []; }
    Onwards(NEWEST, s, Delivery(Compose([PART])));
    assert Mids([PART]) == {1} by { assert [PART][0].mid == 1; }
  }

  const SENT := OPENED.(pc := Sending(BATCH, [PART], 1, []),
                        h := OPENED.h.(mids := {1},
                                       delivery := NO_DELIVERIES.(accepted := map[1 := Accepted("7", [2])])))

  lemma {:induction false} SentReachable()
    ensures Reachable(NEWEST, SENT, NONE)
  {
    SendingReachable();
    var s := OPENED.(pc := Sending(BATCH, [PART], 0, []), h := OPENED.h.(mids := {1}));
    Onwards(NEWEST, s, Delivery(SendOk));
    assert Do(NEWEST, s, Delivery(SendOk)) == SENT;
  }

  lemma {:induction false} CommitLeavesMessages(s: State)
    requires DeliveryMay(NEWEST, s, Commit)
    ensures DeliveryDoes(NEWEST, s, Commit).o == s.o
  {}

  /** With newest-first fetching of one message at a time and two messages waiting, the first is missed,
      and stays missed whatever happens next. */
  lemma {:induction false} NewestFirstMissesTheOldest()
    ensures exists s :: Reachable(NEWEST, s, NONE) && Missed(s, "7", 1) && 1 in Held(s.o, "7")
  {
    SentReachable();
    var s := SENT;
    Onwards(NEWEST, s, Delivery(Commit));
    ReachableHolds(NEWEST, s, NONE);
    CommitMisses(NEWEST, s, 1);
    CommitLeavesMessages(s);
  }

  // ---------------------------------------------------------------- a mark trimmed by count lets a mail act again

  const OFF := Mail("off", true, [1], Some(false), false)
  const ON := Mail("on", true, [1], Some(true), false)

  /** The delivery of message 2 is booked. */
  const BOOKED := FRESH.(cursors := map["7" := CursorRow(2, "seven")], ledger := map[1 := LedgerRow("7", 0.0)],
                         valid := true)
  const MAILED := Outside(map["7" := {1, 2}], map["7" := 2], map["off" := OFF, "on" := ON], 0.0)

  /** Tables, outside and place, with what the log says of mails, of notices and of Message-IDs. */
  function Stand(l: DeliveryLog, t: Tables, o: Outside, i: IntakeLog, n: NoticeLog, mids: set<Mid>, pc: Pc): State {
    State(t, o, Log(l, i, n, map[], mids, 0), pc)
  }

  lemma {:induction false} BookedReachable() returns (l: DeliveryLog)
    ensures Reachable(NEWEST, Stand(l, BOOKED, START.o, NO_INTAKE, NO_NOTICES, {1}, Clearing(D, [])), NONE)
  {
    SentReachable();
    Onwards(NEWEST, SENT, Delivery(Commit));
    l := DeliveryDoes(NEWEST, SENT, Commit).h.delivery;
    CommitBooks();
  }

  lemma {:induction false} CommitBooks()
    ensures CommitDelivery(OPENED.t, D, Sents([PART], "7"), 2, 0.0) == Some(BOOKED)
  {
    var sents := [Sent(1, "7")];
    assert [PART][1..] == [] && Sents([PART], "7") == sents && sents[1..] == [];
    assert InsertRows(map[1 := LedgerRow("7", 0.0)], sents[1..], "7", 0.0) == Some(BOOKED.ledger);
    assert InsertRows(map[], sents, "7", 0.0) == Some(BOOKED.ledger);
    assert Raise(OPENED.t, D, 2).cursors == BOOKED.cursors;
  }

  /** The delivery is through and nothing runs. */
  lemma {:induction false} RestReachable() returns (l: DeliveryLog)
    ensures Reachable(NEWEST, Stand(l, BOOKED, START.o, NO_INTAKE, NO_NOTICES, {1}, Idle), NONE)
  {
    l := BookedReachable();
    var s := Stand(l, BOOKED, START.o, NO_INTAKE, NO_NOTICES, {1}, Clearing(D, []));
    Onwards(NEWEST, s, Inbound(ClearDialog));
    assert ClearBackoff(BOOKED, TgDialog("7")) == BOOKED;
    Onwards(NEWEST, s.(pc := AtDialog([])), Inbound(CycleDone));
  }

  lemma {:induction false} MailsReachable() returns (l: DeliveryLog)
    ensures Reachable(NEWEST, Stand(l, BOOKED, MAILED, NO_INTAKE, NO_NOTICES, {1}, Idle), NONE)
  {
    l := RestReachable();
    MailsArrive(Stand(l, BOOKED, START.o, NO_INTAKE, NO_NOTICES, {1}, Idle));
  }

  lemma {:induction false} MailsArrive(s: State)
    requires Reachable(NEWEST, s, NONE) && s.o == START.o
    ensures Reachable(NEWEST, s.(o := MAILED), NONE)
  {
    Onwards(NEWEST, s, World(Arrive(OFF)));
    var s' := s.(o := START.o.(inbox := map["off" := OFF]));
    Onwards(NEWEST, s', World(Arrive(ON)));
    assert s'.o.inbox["on" := ON] == MAILED.inbox;
  }

  const SWITCHED_OFF := BOOKED.(enabled := false, consumed := map["off" := 0.0])
  const USED_OFF := NO_INTAKE.(used := map["off" := 0.0], applied := [("off", false)])

  lemma {:induction false} OffApplied() returns (l: DeliveryLog)
    ensures Reachable(NEWEST,
                      Stand(l, SWITCHED_OFF, MAILED, USED_OFF, NO_NOTICES, {1}, Applied("off", false, [ON])), NONE)
  {
    l := MailsReachable();
    var s := Stand(l, BOOKED, MAILED, NO_INTAKE, NO_NOTICES, {1}, Idle);
    PollBoth(s);
    s := s.(pc := AtMail([OFF, ON]));
    assert BOOKED.ledger.Keys == {1} && OFF.parents[0] == 1 && [OFF, ON][1..] == [ON];
    Onwards(NEWEST, s, Mailbox(ApplyCommand));
    assert [] + [("off", false)] == [("off", false)];
  }

  lemma {:induction false} PollBoth(s: State)
    requires Reachable(NEWEST, s, NONE) && s.pc.Idle? && s.o == MAILED && s.t.backoff == map[]
    ensures Reachable(NEWEST, s.(pc := AtMail([OFF, ON])), NONE)
  {
    Onwards(NEWEST, s, Mailbox(PollOk([OFF, ON])));
    var s' := s.(pc := Polled([OFF, ON]));
    Onwards(NEWEST, s', Mailbox(ClearPoll));
    assert ClearBackoff(s.t, MailPoll) == s.t;
  }

  const QUEUED_OFF := SWITCHED_OFF.(pending := map["off" := Pending(false, 0.0)])
  const LATER := MAILED.(now := 1.0)

  lemma {:induction false} OffQueued() returns (l: DeliveryLog)
    ensures Reachable(NEWEST, Stand(l, QUEUED_OFF, LATER, USED_OFF, NO_NOTICES, {1}, AtMail([ON])), NONE)
  {
    l := OffApplied();
    var s := Stand(l, SWITCHED_OFF, MAILED, USED_OFF, NO_NOTICES, {1}, Applied("off", false, [ON]));
    Onwards(NEWEST, s, Mailbox(Queue));
    assert QueueNotice(SWITCHED_OFF, "off", false, 0.0) == QUEUED_OFF;
    Onwards(NEWEST, s.(t := QUEUED_OFF, pc := AtMail([ON])), World(Tick(1.0)));
  }

  const SWITCHED_ON := QUEUED_OFF.(enabled := true, consumed := map["off" := 0.0, "on" := 1.0])
  const USED_BOTH := NO_INTAKE.(used := map["off" := 0.0, "on" := 1.0], applied := [("off", false), ("on", true)])
  const QUEUED_BOTH := SWITCHED_ON.(pending := map["off" := Pending(false, 0.0), "on" := Pending(true, 1.0)])

  lemma {:induction false} OnApplied() returns (l: DeliveryLog)
    ensures Reachable(NEWEST, Stand(l, SWITCHED_ON, LATER, USED_BOTH, NO_NOTICES, {1}, Applied("on", true, [])), NONE)
  {
    l := OffQueued();
    var s := Stand(l, QUEUED_OFF, LATER, USED_OFF, NO_NOTICES, {1}, AtMail([ON]));
    assert BOOKED.ledger.Keys == {1} && ON.parents[0] == 1 && [ON][1..] == [];
    Onwards(NEWEST, s, Mailbox(ApplyCommand));
    assert USED_OFF.used["on" := 1.0] == USED_BOTH.used && USED_OFF.applied + [("on", true)] == USED_BOTH.applied;
    assert SetEnabled(QUEUED_OFF, true, "on", 1.0) == SWITCHED_ON;
  }

  lemma {:induction false} OnQueued() returns (l: DeliveryLog)
    ensures Reachable(NEWEST, Stand(l, QUEUED_BOTH, LATER, USED_BOTH, NO_NOTICES, {1}, Flushing(["off", "on"])), NONE)
  {
    l := OnApplied();
    var s := Stand(l, SWITCHED_ON, LATER, USED_BOTH, NO_NOTICES, {1}, Applied("on", true, []));
    Onwards(NEWEST, s, Mailbox(Queue));
    assert QueueNotice(SWITCHED_ON, "on", true, 1.0) == QUEUED_BOTH;
    s := s.(t := QUEUED_BOTH, pc := AtMail([]));
    assert forall r :: r in ["off", "on"] <==> r in QUEUED_BOTH.pending;
    Onwards(NEWEST, s, Notices(EndOfMail(["off", "on"])));
  }

  const TOLD_OFF := QUEUED_BOTH.(pending := map["on" := Pending(true, 1.0)], notices := map[2 := 1.0])
  const NOTED_OFF := NO_NOTICES.(recorded := {2}, confirmed := map["off" := 2])
  const TOLD_BOTH := TOLD_OFF.(pending := map[], notices := map[2 := 1.0, 3 := 1.0])
  const NOTED_BOTH := NO_NOTICES.(recorded := {2, 3}, confirmed := map["off" := 2, "on" := 3])

  /** After a confirmation was sent, recorded and dropped. */
  function Confirmed(s: State, ref: Ref, refs: seq<Ref>, mid: Mid): State {
    var n := s.h.notice;
    State(s.t.(pending := s.t.pending - {ref}, notices := s.t.notices[mid := s.o.now]), s.o,
          s.h.(mids := s.h.mids + {mid},
               notice := n.(recorded := n.recorded + {mid}, confirmed := n.confirmed[ref := mid])),
          Flushing(refs))
  }

  lemma {:induction false} OneTold(s: State, ref: Ref, refs: seq<Ref>, mid: Mid)
    requires Reachable(NEWEST, s, NONE) && s.pc == Flushing([ref] + refs) && Fresh(s, mid) && mid !in s.t.notices
    ensures Reachable(NEWEST, Confirmed(s, ref, refs, mid), NONE)
  {
    Onwards(NEWEST, s, Notices(NoticeOk(mid)));
    var s' := NewMid(s, mid).(pc := NoticeSent(ref, mid, refs));
    Onwards(NEWEST, s', Notices(RecordNoticeId));
    OneDropped(Do(NEWEST, s', Notices(RecordNoticeId)), ref, refs, mid);
  }

  lemma {:induction false} OneDropped(s: State, ref: Ref, refs: seq<Ref>, mid: Mid)
    requires Reachable(NEWEST, s, NONE) && s.pc == NoticeRecorded(ref, mid, refs)
    ensures Reachable(NEWEST, s.(t := DeleteNotice(s.t, ref), pc := Flushing(refs),
                                 h := s.h.(notice := s.h.notice.(confirmed := s.h.notice.confirmed[ref := mid]))), NONE)
  {
    Onwards(NEWEST, s, Notices(DropNotice));
  }

  lemma {:induction false} OffTold() returns (l: DeliveryLog)
    ensures Reachable(NEWEST, Stand(l, TOLD_OFF, LATER, USED_BOTH, NOTED_OFF, {1, 2}, Flushing(["on"])), NONE)
  {
    l := OnQueued();
    var s := Stand(l, QUEUED_BOTH, LATER, USED_BOTH, NO_NOTICES, {1}, Flushing(["off", "on"]));
    assert ["off"] + ["on"] == ["off", "on"];
    OneTold(s, "off", ["on"], 2);
    OffToldState(l);
  }

  lemma {:induction false} OffToldState(l: DeliveryLog)
    ensures Confirmed(Stand(l, QUEUED_BOTH, LATER, USED_BOTH, NO_NOTICES, {1}, Flushing(["off", "on"])),
                      "off", ["on"], 2)
            == Stand(l, TOLD_OFF, LATER, USED_BOTH, NOTED_OFF, {1, 2}, Flushing(["on"]))
  {
    assert QUEUED_BOTH.pending - {"off"} == TOLD_OFF.pending && {1} + {2} == {1, 2} && {} + {2} == {2};
  }

  lemma {:induction false} BothTold() returns (l: DeliveryLog)
    ensures Reachable(NEWEST, Stand(l, TOLD_BOTH, LATER, USED_BOTH, NOTED_BOTH, {1, 2, 3}, Flushing([])), NONE)
  {
    l := OffTold();
    var s := Stand(l, TOLD_OFF, LATER, USED_BOTH, NOTED_OFF, {1, 2}, Flushing(["on"]));
    assert ["on"] + [] == ["on"];
    OneTold(s, "on", [], 3);
    BothToldState(l);
  }

  lemma {:induction false} BothToldState(l: DeliveryLog)
    ensures Confirmed(Stand(l, TOLD_OFF, LATER, USED_BOTH, NOTED_OFF, {1, 2}, Flushing(["on"])), "on", [], 3)
            == Stand(l, TOLD_BOTH, LATER, USED_BOTH, NOTED_BOTH, {1, 2, 3}, Flushing([]))
  {
    assert TOLD_OFF.pending - {"on"} == map[] && {1, 2} + {3} == {1, 2, 3} && {2} + {3} == {2, 3};
    assert TOLD_OFF.notices[3 := 1.0] == TOLD_BOTH.notices && NOTED_OFF.confirmed["on" := 3] == NOTED_BOTH.confirmed;
  }

  const TRIMMED := TOLD_BOTH.(consumed := map["on" := 1.0])

  lemma {:induction false} OnMarkTrimmed()
    ensures MarksTrimmed(TOLD_BOTH, NEWEST.limits, 1.0, TRIMMED.consumed)
  {
    assert Young(TOLD_BOTH.consumed, 1.0 - 10.0) == {"off", "on"} && TRIMMED.consumed.Keys == {"on"};
  }

  lemma {:induction false} RestOfTrimmed()
    ensures LedgerTrimmed(TOLD_BOTH, NEWEST.limits, 1.0, TRIMMED.ledger)
    ensures EchoesTrimmed(TOLD_BOTH, NEWEST.limits, 1.0, TRIMMED.echoes)
  {
    assert Young(LedgerAges(TOLD_BOTH), 1.0 - 10.0) == {1} == TRIMMED.ledger.Keys;
    assert Young(TOLD_BOTH.echoes, 1.0 - 10.0) == {} == TRIMMED.echoes.Keys;
  }

  lemma {:induction false} TrimmedByPurge()
    ensures Purged(TOLD_BOTH, NEWEST.limits, 1.0, TRIMMED)
  {
    OnMarkTrimmed();
    RestOfTrimmed();
  }

  lemma {:induction false} TrimmedReachable() returns (l: DeliveryLog)
    ensures Reachable(NEWEST, Stand(l, TRIMMED, LATER, USED_BOTH, NOTED_BOTH, {1, 2, 3}, Idle), NONE)
  {
    l := BothTold();
    var s := Stand(l, TOLD_BOTH, LATER, USED_BOTH, NOTED_BOTH, {1, 2, 3}, Flushing([]));
    Onwards(NEWEST, s, Notices(EndFlush));
    TrimmedByPurge();
    Onwards(NEWEST, s.(pc := Idle), Purge(TRIMMED));
  }

  /** In a run from a new database OFF and ON are carried out and confirmed, a purge by count takes the older
      mark, and the next poll carries out OFF a second time: the bridge is off although ON came last. */
  lemma {:induction false} TrimmedMarkActsAgain()
    ensures exists s, s' :: Reachable(NEWEST, s, NONE) && OFF.ref in s.h.intake.used && Obeys(s.t, OFF)
                            && Reachable(NEWEST, s', NONE) && !s'.t.enabled
                            && s'.h.intake.applied == [("off", false), ("on", true), ("off", false)]
  {
    var l := TrimmedReachable();
    var s := Stand(l, TRIMMED, LATER, USED_BOTH, NOTED_BOTH, {1, 2, 3}, Idle);
    PollAgain(s);
    s := s.(pc := AtMail([OFF]));
    assert TRIMMED.ledger.Keys == {1} && OFF.parents[0] == 1;
    Onwards(NEWEST, s, Mailbox(ApplyCommand));
    AppliedAgain(s);
  }

  lemma {:induction false} PollAgain(s: State)
    requires Reachable(NEWEST, s, NONE) && s.pc.Idle? && s.o == LATER && s.t.backoff == map[]
    ensures Reachable(NEWEST, s.(pc := AtMail([OFF])), NONE)
  {
    Onwards(NEWEST, s, Mailbox(PollOk([OFF])));
    Onwards(NEWEST, s.(pc := Polled([OFF])), Mailbox(ClearPoll));
    assert ClearBackoff(s.t, MailPoll) == s.t;
  }

  lemma {:induction false} AppliedAgain(s: State)
    requires MailboxMay(NEWEST, s, ApplyCommand) && s.pc == AtMail([OFF]) && s.h.intake == USED_BOTH
    ensures var s' := MailboxDoes(NEWEST, s, ApplyCommand);
            !s'.t.enabled && s'.h.intake.applied == [("off", false), ("on", true), ("off", false)]
  {}

  // ---------------------------------------------------------------- a confirmation that is lost

  /** The process dies between carrying out OFF and queueing its confirmation: none is waiting or sent, and
      with its mark in place the mail is not looked at again. */
  lemma {:induction false} ConfirmationLost()
    ensures exists s :: Reachable(NEWEST, s, NONE) && s.h.intake.applied == [("off", false)] && "off" in s.t.consumed
                        && "off" !in s.t.pending && "off" !in s.h.notice.confirmed && s.pc.Idle?
  {
    var l := OffApplied();
    var s := Stand(l, SWITCHED_OFF, MAILED, USED_OFF, NO_NOTICES, {1}, Applied("off", false, [ON]));
    Onwards(NEWEST, s, Crash);
    CrashLoses(s);
  }

  lemma {:induction false} CrashLoses(s: State)
    ensures var s' := Do(NEWEST, s, Crash);
            s'.t == s.t && s'.h.intake.applied == s.h.intake.applied && s'.pc.Idle?
            && s'.h.notice.confirmed == s.h.notice.confirmed
  {}

  // ---------------------------------------------------------------- a reply that comes back as a mail

  const REPLY := Mail("reply", true, [1], None, false)
  const REPLIED_TO := Outside(map["7" := {1, 2}], map["7" := 2], map["reply" := REPLY], 0.0)
  const POSTED := Outside(map["7" := {1, 2, 3}], map["7" := 3], map["reply" := REPLY], 0.0)
  const POST_LOGGED := NO_INTAKE.(posts := map["reply" := 1])
  const REPLY_LOGGED := POST_LOGGED.(used := map["reply" := 0.0], replied := {"reply"}, echoes := {("7", 3)})
  const ANSWERED := BOOKED.(echoes := map[("7", 3) := 0.0], consumed := map["reply" := 0.0])
  const MUCH_LATER := POSTED.(now := 20.0)
  const FORGOTTEN := ANSWERED.(ledger := map[], consumed := map[], echoes := map[])

  lemma {:induction false} ReplyPosted() returns (l: DeliveryLog)
    ensures Reachable(NEWEST, Stand(l, BOOKED, POSTED, POST_LOGGED, NO_NOTICES, {1}, Posted("reply", "7", 3, [])), NONE)
  {
    l := RestReachable();
    var s := Stand(l, BOOKED, START.o, NO_INTAKE, NO_NOTICES, {1}, Idle);
    Onwards(NEWEST, s, World(Arrive(REPLY)));
    s := s.(o := REPLIED_TO);
    PollReply(s);
    s := s.(pc := AtMail([REPLY]));
    ReplyPosts();
    Onwards(NEWEST, s, Mailbox(PostOk(3)));
    PostLands(s);
  }

  lemma {:induction false} PollReply(s: State)
    requires Reachable(NEWEST, s, NONE) && s.pc.Idle? && s.o == REPLIED_TO && s.t.backoff == map[]
    ensures Reachable(NEWEST, s.(pc := AtMail([REPLY])), NONE)
  {
    Onwards(NEWEST, s, Mailbox(PollOk([REPLY])));
    Onwards(NEWEST, s.(pc := Polled([REPLY])), Mailbox(ClearPoll));
    assert ClearBackoff(s.t, MailPoll) == s.t;
  }

  lemma {:induction false} ReplyPosts()
    ensures Posts(BOOKED, REPLY, 0.0) && LedgerDialog(BOOKED, REPLY.parents) == Some("7")
  {
    assert REPLY.parents[0] == 1 && 1 in BOOKED.ledger;
  }

  lemma {:induction false} PostLands(s: State)
    requires Posting(s) && PostDialog(s) == "7" && s.pc == AtMail([REPLY]) && s.o == REPLIED_TO
    requires s.h.intake == NO_INTAKE
    ensures MailboxDoes(NEWEST, s, PostOk(3))
            == s.(o := POSTED, h := s.h.(intake := POST_LOGGED), pc := Posted("reply", "7", 3, []))
  {
    assert [REPLY][1..] == [] && {1, 2} + {3} == {1, 2, 3};
    assert REPLIED_TO.held["7" := {1, 2, 3}] == POSTED.held && REPLIED_TO.top["7" := 3] == POSTED.top;
  }

  lemma {:induction false} ReplyCommitted() returns (l: DeliveryLog)
    ensures Reachable(NEWEST, Stand(l, ANSWERED, POSTED, REPLY_LOGGED, NO_NOTICES, {1}, AtMail([])), NONE)
  {
    l := ReplyPosted();
    var s := Stand(l, BOOKED, POSTED, POST_LOGGED, NO_NOTICES, {1}, Posted("reply", "7", 3, []));
    Onwards(NEWEST, s, Mailbox(CommitPost));
    assert CommitReply(BOOKED, "reply", "7", 3, 0.0) == ANSWERED;
    assert {} + {"reply"} == {"reply"} && {} + {("7", 3)} == {("7", 3)};
  }

  lemma {:induction false} LongAfterReply() returns (l: DeliveryLog)
    ensures Reachable(NEWEST, Stand(l, ANSWERED, MUCH_LATER, REPLY_LOGGED, NO_NOTICES, {1}, Idle), NONE)
  {
    l := ReplyCommitted();
    var s := Stand(l, ANSWERED, POSTED, REPLY_LOGGED, NO_NOTICES, {1}, AtMail([]));
    Onwards(NEWEST, s, Notices(EndOfMail([])));
    Onwards(NEWEST, s.(pc := Flushing([])), Notices(EndFlush));
    Onwards(NEWEST, s.(pc := Idle), World(Tick(20.0)));
  }

  lemma {:induction false} ForgottenByPurge()
    ensures Purged(ANSWERED, NEWEST.limits, 20.0, FORGOTTEN)
  {
    assert Young(ANSWERED.consumed, 20.0 - 10.0) == {} == FORGOTTEN.consumed.Keys;
    assert MarksTrimmed(ANSWERED, NEWEST.limits, 20.0, FORGOTTEN.consumed);
    assert Young(LedgerAges(ANSWERED), 20.0 - 10.0) == {} == FORGOTTEN.ledger.Keys;
    assert LedgerTrimmed(ANSWERED, NEWEST.limits, 20.0, FORGOTTEN.ledger);
    assert Young(ANSWERED.echoes, 20.0 - 10.0) == {} == FORGOTTEN.echoes.Keys;
  }

  const D3 := DialogRef("7", Some(3), "seven")
  const THREE := Item(3, true, false)

  lemma {:induction false} PurgedReachable() returns (l: DeliveryLog)
    ensures Reachable(NEWEST, Stand(l, FORGOTTEN, MUCH_LATER, REPLY_LOGGED, NO_NOTICES, {1}, Idle), NONE)
  {
    l := LongAfterReply();
    ForgottenByPurge();
    Onwards(NEWEST, Stand(l, ANSWERED, MUCH_LATER, REPLY_LOGGED, NO_NOTICES, {1}, Idle), Purge(FORGOTTEN));
  }

  lemma {:induction false} ListThree(s: State)
    requires Reachable(NEWEST, s, NONE) && s.pc.Idle? && DeliveryAllowed(s.t) && s.t.backoff == map[]
    ensures Reachable(NEWEST, s.(pc := AtDialog([D3])), NONE)
  {
    Onwards(NEWEST, s, Inbound(ListOk([D3])));
    Onwards(NEWEST, s.(pc := Listed([D3])), Inbound(ClearList));
    assert ClearBackoff(s.t, TgList) == s.t;
  }

  lemma {:induction false} OpenThree(s: State)
    requires Reachable(NEWEST, s, NONE) && s.pc == AtDialog([D3]) && s.t.backoff == map[]
    requires s.t.cursors == map["7" := CursorRow(2, "seven")]
    ensures Reachable(NEWEST, s.(pc := Opened(D3, 2, [])), NONE)
  {
    Onwards(NEWEST, s, Inbound(OpenCursor));
    assert EnsureDialog(s.t, D3) == s.t && [D3][1..] == [];
  }

  /** The bridge does not fetch for longer than echoes are kept, a purge comes between, and the reply that was
      posted and recorded is fetched as if someone had written it: it goes into the next batch. */
  lemma {:induction false} ForgottenEchoIsMailed()
    ensures exists s :: Reachable(NEWEST, s, NONE) && InboundMay(NEWEST, s, Select) && ("7", 3) in s.h.intake.echoes
                        && s.pc.d.id == "7" && Selected(s.t.echoes, "7", s.pc.last, s.pc.items) == [THREE]
  {
    var l := PurgedReachable();
    var s := Stand(l, FORGOTTEN, MUCH_LATER, REPLY_LOGGED, NO_NOTICES, {1}, Idle);
    ListThree(s);
    OpenThree(s.(pc := AtDialog([D3])));
    FetchThree();
    Onwards(NEWEST, s.(pc := Opened(D3, 2, [])), Inbound(FetchOk([THREE])));
    ThreeSelected();
    assert InboundMay(NEWEST, s.(pc := Fetched(D3, 2, [THREE], [])), Select);
  }

  lemma {:induction false} ThreeSelected()
    ensures Selected(map[], "7", 2, [THREE]) == [THREE]
  {}

  lemma {:induction false} FetchThree()
    ensures FetchOf(NEWEST, Backlog(MUCH_LATER, "7", 2), [THREE])
  {
    assert Backlog(MUCH_LATER, "7", 2) == {3} && Ids([THREE]) == [3];
  }

  /** An echo row names one dialog id: in the group around a topic, the reply posted into the topic is selected. */
  lemma {:induction false} TopicReplyReturnsThroughGroup()
    ensures Selected(map[("-1007:5", 3) := 0.0], "-1007:5", 2, [THREE]) == []
    ensures Selected(map[("-1007:5", 3) := 0.0], "-1007", 2, [THREE]) == [THREE]
  {
    assert "-1007:5"[5] == ':' && |"-1007"| == 5;
  }
}
