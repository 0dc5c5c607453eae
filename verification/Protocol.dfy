/** The bridge as one transition system (src/mailtg_bridge/orchestrator.py over state.py): the durable
    tables, the outside world, a log of what happened, and where the running process stands.

    A port call and the transaction that follows it are separate steps, so a crash can fall between
    any two of them.  `Crash` is possible everywhere; it loses the process and keeps the tables.  An
    exception that escapes a cycle ends the process in the same way. */
module Protocol {
  import opened Domain
  import opened Backoff
  import opened Database
  import opened Sequences

  /** Which `limit` messages a fetch returns when there are more.  The cursor logic needs the oldest;
      Telethon's iter_messages without `reverse` gives the newest. */
  datatype FetchOrder = OldestFirst | NewestFirst

  datatype Config = Config(order: FetchOrder, fetchLimit: nat, tail: bool, minimum: real, maximum: real, limits: Limits)

  /** A fetched message with the verdict of `is_addressed` on it. */
  datatype Item = Item(id: int, addressed: bool, media: bool)

  /** A polled mail: trusted or not, the ids it may be a reply to (nearest first), the command it
      carries, and whether any text is left of its body. */
  datatype Mail = Mail(ref: Ref, trusted: bool, parents: seq<Mid>, command: Option<bool>, empty: bool)

  /** A composed mail: its Message-ID and the messages in it. */
  datatype Part = Part(mid: Mid, ids: seq<int>)

  // ---------------------------------------------------------------- state

  /** Telegram's messages per dialog with the highest id handed out so far, the mailbox, the clock. */
  datatype Outside = Outside(held: map<string, set<int>>, top: map<string, int>, inbox: map<Ref, Mail>, now: real)

  datatype Accepted = Accepted(dialog: string, ids: seq<int>)
  datatype Committed = Committed(dialog: string, low: nat, high: int, ids: seq<int>)

  /** What SMTP accepted; why messages were passed over; the committed deliveries; and for each message
      delivered, a mail it was in. */
  datatype DeliveryLog = DeliveryLog(accepted: map<Mid, Accepted>, mailed: map<(string, int), Mid>, booked: set<Mid>,
                                     echoed: set<(string, int)>, unaddressed: set<(string, int)>,
                                     tailed: set<(string, int)>, commits: seq<Committed>)

  /** When a mail was first consumed; what really went to Telegram for it and how much of that was never
      recorded; the commands applied, in order; all replies committed. */
  datatype IntakeLog = IntakeLog(used: map<Ref, real>, posts: map<Ref, nat>, lost: map<Ref, nat>,
                                 replied: set<Ref>, applied: seq<(Ref, bool)>, echoes: set<(string, int)>)

  /** Notices recorded; commands whose confirmation was sent, or never queued; session notices sent since
      the last setup, those of them never recorded, and the recorded one. */
  datatype NoticeLog = NoticeLog(recorded: set<Mid>, confirmed: map<Ref, Mid>, unqueued: set<Ref>,
                                 sessionSent: nat, sessionLost: nat, sessionMid: Option<Mid>)

  /** Consecutive failures of one scope: since when, how many, whether all were transient, and the latest
      end of a flood wait among them. */
  datatype Streak = Streak(since: real, count: nat, transient: bool, until: real)

  datatype Log = Log(delivery: DeliveryLog, intake: IntakeLog, notice: NoticeLog, pace: map<Scope, Streak>,
                     mids: set<Mid>, crashes: nat)

  /** The messages selected from one fetch, with the cursor they were fetched from and the highest id fetched. */
  datatype Batch = Batch(d: DialogRef, last: nat, high: int, sel: seq<Item>)

  /** What `invalidate_session` returns to: the end of the cycle, or the flushing of notices. */
  datatype Next = ToIdle | ToFlush

  datatype Pc =
    | Idle
    | SettingUp
    | Listed(ds: seq<DialogRef>)
    | ListFailed(e: Failure)
    | AtDialog(ds: seq<DialogRef>)
    | Opened(d: DialogRef, last: nat, ds: seq<DialogRef>)
    | Clearing(d: DialogRef, ds: seq<DialogRef>)
    | Fetched(d: DialogRef, last: nat, items: seq<Item>, ds: seq<DialogRef>)
    | Downloading(batch: Batch, k: nat, ds: seq<DialogRef>)
    | Sending(batch: Batch, parts: seq<Part>, k: nat, ds: seq<DialogRef>)
    | DialogFailed(d: DialogRef, e: Failure, ds: seq<DialogRef>)
    | Polled(ms: seq<Mail>)
    | PollFailed
    | AtMail(ms: seq<Mail>)
    | Applied(ref: Ref, on: bool, ms: seq<Mail>)
    | Posted(ref: Ref, dialog: string, id: int, ms: seq<Mail>)
    | PostFailed(dialog: string, e: Failure, ms: seq<Mail>)
    | Flushing(refs: seq<Ref>)
    | NoticeSent(ref: Ref, mid: Mid, refs: seq<Ref>)
    | NoticeRecorded(ref: Ref, mid: Mid, refs: seq<Ref>)
    | NoticeFailed(ref: Ref, refs: seq<Ref>)
    | Invalidating(next: Next)
    | Notifying(next: Next)
    | SessionSent(mid: Mid, next: Next)
    | SessionRecorded(mid: Mid, next: Next)
    | SessionMarked(next: Next)
    | SessionFailed(next: Next)

  datatype State = State(t: Tables, o: Outside, h: Log, pc: Pc)

  const NO_DELIVERIES := DeliveryLog(map[], map[], {}, {}, {}, {}, [])
  const NO_INTAKE := IntakeLog(map[], map[], map[], {}, [], {})
  const NO_NOTICES := NoticeLog({}, map[], {}, 0, 0, None)

  function Init(now: real): State {
    State(FRESH, Outside(map[], map[], map[], now), Log(NO_DELIVERIES, NO_INTAKE, NO_NOTICES, map[], {}, 0), Idle)
  }

  // ---------------------------------------------------------------- the outside world

  datatype World =
    | Tick(dt: real)
    | Appear(dialog: string, id: int)
    | Vanish(dialog: string, id: int)
    | Arrive(mail: Mail)

  function Held(o: Outside, dialog: string): set<int> {
    if dialog in o.held then o.held[dialog] else {}
  }

  function Top(o: Outside, dialog: string): int {
    if dialog in o.top then o.top[dialog] else 0
  }

  /** Telegram gives every new message of a dialog an id above all earlier ones. */
  function AddMessage(o: Outside, dialog: string, id: int): Outside {
    o.(held := o.held[dialog := Held(o, dialog) + {id}], top := o.top[dialog := id])
  }

  predicate WorldMay(o: Outside, a: World) {
    match a
    case Tick(dt) => dt >= 0.0
    case Appear(dialog, id) => id > Top(o, dialog)
    case Vanish(_, _) => true
    case Arrive(mail) => mail.ref !in o.inbox
  }

  function WorldDoes(o: Outside, a: World): Outside {
    match a
    case Tick(dt) => o.(now := o.now + dt)
    case Appear(dialog, id) => AddMessage(o, dialog, id)
    case Vanish(dialog, id) => o.(held := o.held[dialog := Held(o, dialog) - {id}])
    case Arrive(mail) => o.(inbox := o.inbox[mail.ref := mail])
  }

  // ---------------------------------------------------------------- fetching

  function Backlog(o: Outside, dialog: string, last: int): set<int> {
    set id | id in Held(o, dialog) && last < id
  }

  function Ids(items: seq<Item>): seq<int> {
    if items == [] then [] else [items[0].id] + Ids(items[1..])
  }

  predicate Ascending(ids: seq<int>) {
    forall i, j :: 0 <= i < j < |ids| ==> ids[i] < ids[j]
  }

  /** fetch_since: at most `limit` messages above `last`, sorted, the oldest or the newest of them. */
  predicate FetchOf(c: Config, backlog: set<int>, items: seq<Item>) {
    && Ascending(Ids(items))
    && (forall id :: id in Ids(items) ==> id in backlog)
    && |items| == Capped(|backlog|, c.fetchLimit)
    && (forall id, other :: id in Ids(items) && other in backlog && other !in Ids(items) ==>
          if c.order.OldestFirst? then id < other else other < id)
  }

  function High(items: seq<Item>): int
    requires items != []
  {
    if |items| == 1 || items[0].id > High(items[1..]) then items[0].id else High(items[1..])
  }

  /** The messages that go into the batch: above the cursor, no echo, addressed. */
  function Selected(echoes: map<(string, int), real>, dialog: string, last: nat, items: seq<Item>): seq<Item> {
    if items == [] then []
    else (if items[0].id > last && (dialog, items[0].id) !in echoes && items[0].addressed then [items[0]] else [])
         + Selected(echoes, dialog, last, items[1..])
  }

  function PartIds(parts: seq<Part>): seq<int> {
    if parts == [] then [] else parts[0].ids + PartIds(parts[1..])
  }

  function Sents(parts: seq<Part>, dialog: string): seq<Sent> {
    if parts == [] then [] else [Sent(parts[0].mid, dialog)] + Sents(parts[1..], dialog)
  }

  /** A Message-ID is fresh: never used before, and no mail received so far mentions it. */
  ghost predicate Fresh(s: State, mid: Mid) {
    && mid !in s.h.mids
    && (forall r :: r in s.o.inbox ==> mid !in s.o.inbox[r].parents)
  }

  /** What the composer may return for a batch (module Composer): the batch cut into non-empty parts, in
      order, each with its own fresh Message-ID. */
  ghost predicate Composes(s: State, sel: seq<Item>, parts: seq<Part>) {
    && PartIds(parts) == Ids(sel)
    && (forall i :: 0 <= i < |parts| ==> parts[i].ids != [] && Fresh(s, parts[i].mid))
    && (forall i, j :: 0 <= i < j < |parts| ==> parts[i].mid != parts[j].mid)
  }

  // ---------------------------------------------------------------- backoff

  /** `record_failure`, with the jitter draw. */
  function NextFor(c: Config, backoff: map<Scope, Decision>, scope: Scope, e: Failure, now: real, draw: real)
    : Decision
  {
    NextBackoff(e, if scope in backoff then backoff[scope].failures else 0, c.minimum, c.maximum, now, draw)
  }

  function Extend(backoff: map<Scope, Decision>, pace: map<Scope, Streak>, scope: Scope, e: Failure, now: real)
    : Streak
  {
    var so := if scope in backoff && scope in pace then pace[scope] else Streak(now, 0, true, now);
    Streak(so.since, so.count + 1, so.transient && e.Transient?,
           if e.FloodWait? then Greater(so.until, now + e.seconds as real) else so.until)
  }

  function Fail(c: Config, s: State, scope: Scope, e: Failure, draw: real, pc: Pc): State {
    s.(t := SetBackoff(s.t, scope, NextFor(c, s.t.backoff, scope, e, s.o.now, draw)),
       h := s.h.(pace := s.h.pace[scope := Extend(s.t.backoff, s.h.pace, scope, e, s.o.now)]),
       pc := pc)
  }

  predicate Draw(draw: real) { 0.0 <= draw < 1.0 }

  // ---------------------------------------------------------------- the inbound cycle

  datatype Inbound =
    | ListOk(ds: seq<DialogRef>) | ListInvalid | ListFails(e: Failure)
    | ClearList | NoteListFailure(draw: real)
    | CycleDone | NotDue | OpenCursor | UpToDate
    | FetchOk(items: seq<Item>) | FetchInvalid | FetchGone | FetchFails(e: Failure)
    | ClearDialog | Bootstrap | NothingSelected | Select | NoteDialogFailure(draw: real)

  predicate Current(d: DialogRef, last: nat) { d.top.Some? && d.top.value <= last }

  ghost predicate InboundMay(c: Config, s: State, a: Inbound) {
    match a
    case ListOk(_) => s.pc.Idle? && DeliveryAllowed(s.t) && Due(s.t, TgList, s.o.now)
    case ListInvalid => s.pc.Idle? && DeliveryAllowed(s.t) && Due(s.t, TgList, s.o.now)
    case ListFails(_) => s.pc.Idle? && DeliveryAllowed(s.t) && Due(s.t, TgList, s.o.now)
    case ClearList => s.pc.Listed?
    case NoteListFailure(draw) => s.pc.ListFailed? && Draw(draw)
    case CycleDone => s.pc.AtDialog? && s.pc.ds == []
    case NotDue => s.pc.AtDialog? && s.pc.ds != [] && !Due(s.t, TgDialog(s.pc.ds[0].id), s.o.now)
    case OpenCursor => s.pc.AtDialog? && s.pc.ds != [] && Due(s.t, TgDialog(s.pc.ds[0].id), s.o.now)
    case UpToDate => s.pc.Opened? && Current(s.pc.d, s.pc.last)
    case FetchOk(items) => s.pc.Opened? && !Current(s.pc.d, s.pc.last)
                           && FetchOf(c, Backlog(s.o, s.pc.d.id, s.pc.last), items)
    case FetchInvalid => s.pc.Opened? && !Current(s.pc.d, s.pc.last)
    case FetchGone => s.pc.Opened? && !Current(s.pc.d, s.pc.last)
    case FetchFails(_) => s.pc.Opened? && !Current(s.pc.d, s.pc.last)
    case ClearDialog => s.pc.Clearing?
    case Bootstrap => s.pc.Fetched? && s.pc.items != [] && s.pc.last == 0 && c.tail
    case NothingSelected => s.pc.Fetched? && s.pc.items != [] && !(s.pc.last == 0 && c.tail)
                            && Selected(s.t.echoes, s.pc.d.id, s.pc.last, s.pc.items) == []
    case Select => s.pc.Fetched? && s.pc.items != [] && !(s.pc.last == 0 && c.tail)
                   && Selected(s.t.echoes, s.pc.d.id, s.pc.last, s.pc.items) != []
    case NoteDialogFailure(draw) => s.pc.DialogFailed? && Draw(draw)
  }

  function Accept(h: Log, dialog: string, part: Part): Log {
    h.(delivery := h.delivery.(accepted := h.delivery.accepted[part.mid := Accepted(dialog, part.ids)]))
  }

  /** What lies between two ids of a dialog. */
  function Skipped(o: Outside, dialog: string, last: int, high: int): set<(string, int)> {
    set id | id in Held(o, dialog) && last < id <= high :: (dialog, id)
  }

  /** Where each message of a batch can be found. */
  function Places(dialog: string, parts: seq<Part>): map<(string, int), Mid> {
    if parts == [] then map[]
    else (map id | id in parts[0].ids :: (dialog, id) := parts[0].mid) + Places(dialog, parts[1..])
  }

  function Mids(parts: seq<Part>): set<Mid> {
    set i | 0 <= i < |parts| :: parts[i].mid
  }

  /** The messages of a fetch that did not go into the batch: echoes, and those not addressed. */
  function PassOver(h: Log, t: Tables, dialog: string, items: seq<Item>): Log {
    h.(delivery := h.delivery.(
      echoed := h.delivery.echoed + set i | i in items && (dialog, i.id) in t.echoes :: (dialog, i.id),
      unaddressed := h.delivery.unaddressed + set i | i in items && !i.addressed :: (dialog, i.id)))
  }

  function Deliver(h: Log, b: Batch, parts: seq<Part>): Log {
    h.(delivery := h.delivery.(
      mailed := h.delivery.mailed + Places(b.d.id, parts),
      booked := h.delivery.booked + Mids(parts),
      commits := h.delivery.commits + [Committed(b.d.id, b.last, b.high, Ids(b.sel))]))
  }

  function Halt(s: State): State { s.(h := s.h.(crashes := s.h.crashes + 1), pc := Idle) }

  function InboundDoes(c: Config, s: State, a: Inbound): State
    requires InboundMay(c, s, a)
  {
    match a
    case ListOk(ds) => s.(pc := Listed(ds))
    case ListInvalid => s.(pc := Invalidating(ToIdle))
    case ListFails(e) => s.(pc := ListFailed(e))
    case ClearList => s.(t := ClearBackoff(s.t, TgList), pc := AtDialog(s.pc.ds))
    case NoteListFailure(draw) => Fail(c, s, TgList, s.pc.e, draw, Idle)
    case CycleDone => s.(pc := Idle)
    case NotDue => s.(pc := AtDialog(s.pc.ds[1..]))
    case OpenCursor => s.(t := EnsureDialog(s.t, s.pc.ds[0]),
                          pc := Opened(s.pc.ds[0], Cursor(s.t, s.pc.ds[0].id), s.pc.ds[1..]))
    case UpToDate => s.(pc := Clearing(s.pc.d, s.pc.ds))
    case FetchOk(items) =>
      if items == [] then s.(pc := Clearing(s.pc.d, s.pc.ds)) else s.(pc := Fetched(s.pc.d, s.pc.last, items, s.pc.ds))
    case FetchInvalid => s.(pc := Invalidating(ToIdle))
    case FetchGone => s.(pc := AtDialog(s.pc.ds))
    case FetchFails(e) => s.(pc := DialogFailed(s.pc.d, e, s.pc.ds))
    case ClearDialog => s.(t := ClearBackoff(s.t, TgDialog(s.pc.d.id)), pc := AtDialog(s.pc.ds))
    case Bootstrap =>
      s.(t := Raise(s.t, s.pc.d, High(s.pc.items)),
         h := s.h.(delivery := s.h.delivery.(
           tailed := s.h.delivery.tailed + Skipped(s.o, s.pc.d.id, s.pc.last, High(s.pc.items)))),
         pc := Clearing(s.pc.d, s.pc.ds))
    case NothingSelected =>
      s.(t := Raise(s.t, s.pc.d, High(s.pc.items)), h := PassOver(s.h, s.t, s.pc.d.id, s.pc.items),
         pc := Clearing(s.pc.d, s.pc.ds))
    case Select =>
      s.(h := PassOver(s.h, s.t, s.pc.d.id, s.pc.items),
         pc := Downloading(Batch(s.pc.d, s.pc.last, High(s.pc.items),
                                 Selected(s.t.echoes, s.pc.d.id, s.pc.last, s.pc.items)),
                           0, s.pc.ds))
    case NoteDialogFailure(draw) => Fail(c, s, TgDialog(s.pc.d.id), s.pc.e, draw, AtDialog(s.pc.ds))
  }

  // ---------------------------------------------------------------- composing and sending a batch

  datatype Delivery =
    | DownloadOk | DownloadInvalid | DownloadGone | DownloadFails(e: Failure)
    | Compose(parts: seq<Part>) | SendOk | SendFails(accepted: bool) | SendEscapes(accepted: bool) | Commit

  ghost predicate DeliveryMay(c: Config, s: State, a: Delivery) {
    match a
    case DownloadOk => s.pc.Downloading? && s.pc.k < |s.pc.batch.sel|
    case DownloadInvalid => s.pc.Downloading? && s.pc.k < |s.pc.batch.sel| && s.pc.batch.sel[s.pc.k].media
    case DownloadGone => s.pc.Downloading? && s.pc.k < |s.pc.batch.sel| && s.pc.batch.sel[s.pc.k].media
    case DownloadFails(_) => s.pc.Downloading? && s.pc.k < |s.pc.batch.sel| && s.pc.batch.sel[s.pc.k].media
    case Compose(parts) => s.pc.Downloading? && s.pc.k == |s.pc.batch.sel| && Composes(s, s.pc.batch.sel, parts)
    case SendOk => s.pc.Sending? && s.pc.k < |s.pc.parts|
    case SendFails(_) => s.pc.Sending? && s.pc.k < |s.pc.parts|
    case SendEscapes(_) => s.pc.Sending? && s.pc.k < |s.pc.parts|
    case Commit => s.pc.Sending? && s.pc.k == |s.pc.parts|
  }

  function DeliveryDoes(c: Config, s: State, a: Delivery): State
    requires DeliveryMay(c, s, a)
  {
    match a
    case DownloadOk => s.(pc := Downloading(s.pc.batch, s.pc.k + 1, s.pc.ds))
    case DownloadInvalid => s.(pc := Invalidating(ToIdle))
    case DownloadGone => s.(pc := AtDialog(s.pc.ds))
    case DownloadFails(e) => s.(pc := DialogFailed(s.pc.batch.d, e, s.pc.ds))
    case Compose(parts) =>
      s.(h := s.h.(mids := s.h.mids + Mids(parts)), pc := Sending(s.pc.batch, parts, 0, s.pc.ds))
    case SendOk =>
      s.(h := Accept(s.h, s.pc.batch.d.id, s.pc.parts[s.pc.k]),
         pc := Sending(s.pc.batch, s.pc.parts, s.pc.k + 1, s.pc.ds))
    case SendFails(accepted) =>
      s.(h := if accepted then Accept(s.h, s.pc.batch.d.id, s.pc.parts[s.pc.k]) else s.h,
         pc := DialogFailed(s.pc.batch.d, Transient, s.pc.ds))
    case SendEscapes(accepted) =>
      Halt(s.(h := if accepted then Accept(s.h, s.pc.batch.d.id, s.pc.parts[s.pc.k]) else s.h))
    case Commit =>
      (match CommitDelivery(s.t, s.pc.batch.d, Sents(s.pc.parts, s.pc.batch.d.id), s.pc.batch.high, s.o.now)
       case None => Halt(s)
       case Some(t) => s.(t := t, h := Deliver(s.h, s.pc.batch, s.pc.parts), pc := Clearing(s.pc.batch.d, s.pc.ds)))
  }

  // ---------------------------------------------------------------- the mailbox cycle

  datatype Mailbox =
    | PollOk(ms: seq<Mail>) | PollFails | ClearPoll | NotePollFailure(draw: real)
    | SkipMail | ApplyCommand | Queue
    | PostOk(id: int) | PostInvalid(landed: Option<int>)
    | PostFails(e: Failure, landed: Option<int>) | PostEscapes(landed: Option<int>)
    | CommitPost | NotePostFailure(draw: real)

  /** A call of post_as_user, however it turns out. */
  predicate CallsPost(m: Mailbox) { m.PostOk? || m.PostInvalid? || m.PostFails? || m.PostEscapes? }

  /** The mail is a command the bridge obeys. */
  predicate Obeys(t: Tables, m: Mail) {
    m.ref !in t.consumed && m.trusted && m.command.Some? && IsBridgeMessage(t, m.parents)
  }

  /** The mail is a reply the bridge posts now. */
  predicate Posts(t: Tables, m: Mail, now: real) {
    && m.ref !in t.consumed && m.trusted && m.command.None?
    && LedgerDialog(t, m.parents).Some? && DeliveryAllowed(t) && !m.empty
    && Due(t, TgPost(LedgerDialog(t, m.parents).value), now)
  }

  predicate Posting(s: State) { s.pc.AtMail? && s.pc.ms != [] && Posts(s.t, s.pc.ms[0], s.o.now) }

  function PostDialog(s: State): string
    requires Posting(s)
  {
    LedgerDialog(s.t, s.pc.ms[0].parents).value
  }

  predicate Lands(s: State, landed: Option<int>)
    requires Posting(s)
  {
    landed.Some? ==> landed.value > Top(s.o, PostDialog(s))
  }

  ghost predicate MailboxMay(c: Config, s: State, a: Mailbox) {
    match a
    case PollOk(ms) => s.pc.Idle? && Due(s.t, MailPoll, s.o.now)
                       && forall m :: m in ms ==> m.ref in s.o.inbox && s.o.inbox[m.ref] == m
    case PollFails => s.pc.Idle? && Due(s.t, MailPoll, s.o.now)
    case ClearPoll => s.pc.Polled?
    case NotePollFailure(draw) => s.pc.PollFailed? && Draw(draw)
    case SkipMail => s.pc.AtMail? && s.pc.ms != [] && !Obeys(s.t, s.pc.ms[0]) && !Posts(s.t, s.pc.ms[0], s.o.now)
    case ApplyCommand => s.pc.AtMail? && s.pc.ms != [] && Obeys(s.t, s.pc.ms[0])
    case Queue => s.pc.Applied?
    case PostOk(id) => Posting(s) && Lands(s, Some(id))
    case PostInvalid(landed) => Posting(s) && Lands(s, landed)
    case PostFails(_, landed) => Posting(s) && Lands(s, landed)
    case PostEscapes(landed) => Posting(s) && Lands(s, landed)
    case CommitPost => s.pc.Posted?
    case NotePostFailure(draw) => s.pc.PostFailed? && Draw(draw)
  }

  function CountOf(m: map<Ref, nat>, r: Ref): nat { if r in m then m[r] else 0 }

  function Bump(m: map<Ref, nat>, r: Ref): map<Ref, nat> { m[r := CountOf(m, r) + 1] }

  /** Something was posted for the mail; `lost` when that is never going to be recorded. */
  function Land(s: State, landed: Option<int>, lost: bool): State
    requires Posting(s)
  {
    if landed.None? then s else
    var i := s.h.intake.(posts := Bump(s.h.intake.posts, s.pc.ms[0].ref));
    s.(o := AddMessage(s.o, PostDialog(s), landed.value),
       h := s.h.(intake := if lost then i.(lost := Bump(i.lost, s.pc.ms[0].ref)) else i))
  }

  function Mark(used: map<Ref, real>, r: Ref, now: real): map<Ref, real> { if r in used then used else used[r := now] }

  function NewMid(s: State, mid: Mid): State { s.(h := s.h.(mids := s.h.mids + {mid})) }

  function MailboxDoes(c: Config, s: State, a: Mailbox): State
    requires MailboxMay(c, s, a)
  {
    match a
    case PollOk(ms) => s.(pc := Polled(ms))
    case PollFails => s.(pc := PollFailed)
    case ClearPoll => s.(t := ClearBackoff(s.t, MailPoll), pc := AtMail(s.pc.ms))
    case NotePollFailure(draw) => Fail(c, s, MailPoll, Transient, draw, Idle)
    case SkipMail => s.(pc := AtMail(s.pc.ms[1..]))
    case ApplyCommand =>
      var m := s.pc.ms[0];
      s.(t := SetEnabled(s.t, m.command.value, m.ref, s.o.now),
         h := s.h.(intake := s.h.intake.(used := Mark(s.h.intake.used, m.ref, s.o.now),
                                         applied := s.h.intake.applied + [(m.ref, m.command.value)])),
         pc := Applied(m.ref, m.command.value, s.pc.ms[1..]))
    case Queue => s.(t := QueueNotice(s.t, s.pc.ref, s.pc.on, s.o.now), pc := AtMail(s.pc.ms))
    case PostOk(id) => Land(s, Some(id), false).(pc := Posted(s.pc.ms[0].ref, PostDialog(s), id, s.pc.ms[1..]))
    case PostInvalid(landed) => Land(s, landed, true).(pc := Invalidating(ToFlush))
    case PostFails(e, landed) => Land(s, landed, true).(pc := PostFailed(PostDialog(s), e, s.pc.ms[1..]))
    case PostEscapes(landed) => Halt(Land(s, landed, true))
    case CommitPost =>
      s.(t := CommitReply(s.t, s.pc.ref, s.pc.dialog, s.pc.id, s.o.now),
         h := s.h.(intake := s.h.intake.(used := Mark(s.h.intake.used, s.pc.ref, s.o.now),
                                         replied := s.h.intake.replied + {s.pc.ref},
                                         echoes := s.h.intake.echoes + {(s.pc.dialog, s.pc.id)})),
         pc := AtMail(s.pc.ms))
    case NotePostFailure(draw) => Fail(c, s, TgPost(s.pc.dialog), s.pc.e, draw, AtMail(s.pc.ms))
  }

  // ---------------------------------------------------------------- flush_notices

  datatype Notices =
    | EndOfMail(refs: seq<Ref>)
    | NoticeOk(mid: Mid) | NoticeFails(mid: Mid, accepted: bool) | NoticeEscapes(mid: Mid, accepted: bool)
    | RecordNoticeId | DropNotice | NoteNoticeFailure(draw: real) | EndFlush

  ghost predicate NoticesMay(c: Config, s: State, a: Notices) {
    match a
    case EndOfMail(refs) => s.pc.AtMail? && s.pc.ms == [] && Distinct(refs)
                            && forall r :: r in refs <==> r in s.t.pending
    case NoticeOk(mid) => s.pc.Flushing? && s.pc.refs != [] && Fresh(s, mid)
    case NoticeFails(mid, _) => s.pc.Flushing? && s.pc.refs != [] && Fresh(s, mid)
    case NoticeEscapes(mid, _) => s.pc.Flushing? && s.pc.refs != [] && Fresh(s, mid)
    case RecordNoticeId => s.pc.NoticeSent?
    case DropNotice => s.pc.NoticeRecorded?
    case NoteNoticeFailure(draw) => s.pc.NoticeFailed? && Draw(draw)
    case EndFlush => s.pc.Flushing? && s.pc.refs == []
  }

  function NoticesDo(c: Config, s: State, a: Notices): State
    requires NoticesMay(c, s, a)
  {
    match a
    case EndOfMail(refs) => s.(pc := Flushing(refs))
    case NoticeOk(mid) => NewMid(s, mid).(pc := NoticeSent(s.pc.refs[0], mid, s.pc.refs[1..]))
    case NoticeFails(mid, _) => NewMid(s, mid).(pc := NoticeFailed(s.pc.refs[0], s.pc.refs[1..]))
    case NoticeEscapes(mid, _) => Halt(NewMid(s, mid))
    case RecordNoticeId =>
      s.(t := RecordNotice(s.t, s.pc.mid, s.o.now),
         h := s.h.(notice := s.h.notice.(recorded := s.h.notice.recorded + {s.pc.mid})),
         pc := NoticeRecorded(s.pc.ref, s.pc.mid, s.pc.refs))
    case DropNotice =>
      s.(t := DeleteNotice(s.t, s.pc.ref),
         h := s.h.(notice := s.h.notice.(confirmed := s.h.notice.confirmed[s.pc.ref := s.pc.mid])),
         pc := Flushing(s.pc.refs))
    case NoteNoticeFailure(draw) => Fail(c, s, MailNotice("command:" + s.pc.ref), Transient, draw, Flushing(s.pc.refs))
    case EndFlush => s.(pc := if s.t.valid then Idle else Invalidating(ToIdle))
  }

  // ---------------------------------------------------------------- invalidate_session

  datatype Session =
    | DropSession | StaysDropped | AlreadyNotified
    | SessionOk(mid: Mid) | SessionFails(mid: Mid, accepted: bool) | SessionEscapes(mid: Mid, accepted: bool)
    | RecordSession | MarkNotified | ClearNotify | NoteNotifyFailure(draw: real)

  function Resume(next: Next): Pc { if next.ToIdle? then Idle else AtMail([]) }

  ghost predicate SessionMay(c: Config, s: State, a: Session) {
    match a
    case DropSession => s.pc.Invalidating? && s.t.valid
    case StaysDropped => s.pc.Invalidating? && !s.t.valid
    case AlreadyNotified => s.pc.Notifying? && s.t.notified
    case SessionOk(mid) => s.pc.Notifying? && !s.t.notified && Fresh(s, mid)
    case SessionFails(mid, _) => s.pc.Notifying? && !s.t.notified && Fresh(s, mid)
    case SessionEscapes(mid, _) => s.pc.Notifying? && !s.t.notified && Fresh(s, mid)
    case RecordSession => s.pc.SessionSent?
    case MarkNotified => s.pc.SessionRecorded?
    case ClearNotify => s.pc.SessionMarked?
    case NoteNotifyFailure(draw) => s.pc.SessionFailed? && Draw(draw)
  }

  function Notify(s: State, accepted: bool, lost: bool): State {
    var n := s.h.notice;
    if !accepted then s else
      s.(h := s.h.(notice := n.(sessionSent := n.sessionSent + 1,
                                sessionLost := if lost then n.sessionLost + 1 else n.sessionLost)))
  }

  function SessionDoes(c: Config, s: State, a: Session): State
    requires SessionMay(c, s, a)
  {
    match a
    case DropSession => s.(t := SetSession(s.t, false, false), pc := Notifying(s.pc.next))
    case StaysDropped => s.(pc := Notifying(s.pc.next))
    case AlreadyNotified => s.(pc := Resume(s.pc.next))
    case SessionOk(mid) => NewMid(Notify(s, true, false), mid).(pc := SessionSent(mid, s.pc.next))
    case SessionFails(mid, accepted) => NewMid(Notify(s, accepted, true), mid).(pc := SessionFailed(s.pc.next))
    case SessionEscapes(mid, accepted) => Halt(NewMid(Notify(s, accepted, true), mid))
    case RecordSession =>
      s.(t := RecordNotice(s.t, s.pc.mid, s.o.now),
         h := s.h.(notice := s.h.notice.(recorded := s.h.notice.recorded + {s.pc.mid}, sessionMid := Some(s.pc.mid))),
         pc := SessionRecorded(s.pc.mid, s.pc.next))
    case MarkNotified => s.(t := s.t.(notified := true), pc := SessionMarked(s.pc.next))
    case ClearNotify => s.(t := ClearBackoff(s.t, MailSessionNotice), pc := Resume(s.pc.next))
    case NoteNotifyFailure(draw) => Fail(c, s, MailSessionNotice, Transient, draw, Resume(s.pc.next))
  }

  // ---------------------------------------------------------------- all steps

  /** Setup and purge take the same lock as the running bridge, so they happen while it does not run. */
  datatype Action = World(w: World) | Inbound(i: Inbound) | Delivery(d: Delivery)
                  | Mailbox(m: Mailbox) | Notices(n: Notices) | Session(v: Session)
                  | Crash | Authorize | ClearWaits | Purge(t: Tables)

  ghost predicate May(c: Config, s: State, a: Action) {
    match a
    case World(w) => WorldMay(s.o, w)
    case Inbound(i) => InboundMay(c, s, i)
    case Delivery(d) => DeliveryMay(c, s, d)
    case Mailbox(m) => MailboxMay(c, s, m)
    case Notices(n) => NoticesMay(c, s, n)
    case Session(v) => SessionMay(c, s, v)
    case Crash => true
    case Authorize => s.pc.Idle?
    case ClearWaits => s.pc.SettingUp?
    case Purge(t) => s.pc.Idle? && Purged(s.t, c.limits, s.o.now, t)
  }

  /** What a crash here loses for good: a post or a session notice not yet recorded, a confirmation not
      yet queued. */
  function Lose(s: State): Log {
    match s.pc
    case Posted(ref, _, _, _) => s.h.(intake := s.h.intake.(lost := Bump(s.h.intake.lost, ref)))
    case Applied(ref, _, _) => s.h.(notice := s.h.notice.(unqueued := s.h.notice.unqueued + {ref}))
    case SessionSent(_, _) => s.h.(notice := s.h.notice.(sessionLost := s.h.notice.sessionLost + 1))
    case SessionRecorded(_, _) => s.h.(notice := s.h.notice.(sessionLost := s.h.notice.sessionLost + 1))
    case _ => s.h
  }

  function Do(c: Config, s: State, a: Action): State
    requires May(c, s, a)
  {
    match a
    case World(w) => s.(o := WorldDoes(s.o, w))
    case Inbound(i) => InboundDoes(c, s, i)
    case Delivery(d) => DeliveryDoes(c, s, d)
    case Mailbox(m) => MailboxDoes(c, s, m)
    case Notices(n) => NoticesDo(c, s, n)
    case Session(v) => SessionDoes(c, s, v)
    case Crash => Halt(s.(h := Lose(s)))
    case Authorize =>
      s.(t := SetSession(s.t, true, false),
         h := s.h.(notice := s.h.notice.(sessionSent := 0, sessionLost := 0, sessionMid := None)), pc := SettingUp)
    case ClearWaits => s.(t := ClearTelegramBackoff(s.t), pc := Idle)
    case Purge(t) => s.(t := t)
  }

  /** The actions can happen one after the other from `s`. */
  ghost predicate Legal(c: Config, s: State, run: seq<Action>)
    decreases |run|
  {
    run != [] ==> May(c, s, run[0]) && Legal(c, Do(c, s, run[0]), run[1..])
  }

  ghost function After(c: Config, s: State, run: seq<Action>): State
    requires Legal(c, s, run)
    decreases |run|
  {
    if run == [] then s else After(c, Do(c, s, run[0]), run[1..])
  }

  lemma {:induction false} OneMore(c: Config, s: State, run: seq<Action>, a: Action)
    requires Legal(c, s, run) && May(c, After(c, s, run), a)
    ensures Legal(c, s, run + [a]) && After(c, s, run + [a]) == Do(c, After(c, s, run), a)
    decreases |run|
  {
    if run == [] {
      assert run + [a] == [a] && [a][1..] == [];
    } else {
      assert (run + [a])[1..] == run[1..] + [a];
      OneMore(c, Do(c, s, run[0]), run[1..], a);
    }
  }

  lemma {:induction false} LegalPrefix(c: Config, s: State, run: seq<Action>, k: nat)
    requires Legal(c, s, run) && k <= |run|
    ensures Legal(c, s, run[..k])
    decreases |run|
  {
    if k > 0 {
      assert run[..k][1..] == run[1..][..k - 1];
      LegalPrefix(c, Do(c, s, run[0]), run[1..], k - 1);
    }
  }
}
