/** The bridge's surroundings as an object, and what its ports may answer
    (src/mailtg_bridge/ports.py, src/mailtg_bridge/telegram.py:37-85).  Every answer is arbitrary within
    what the port promises. */
module Ports {
  import opened Domain
  import opened Backoff
  import opened Database
  import opened Protocol
  import opened Sequences
  import Composer

  datatype Listing = Dialogs(ds: seq<DialogRef>) | ListingLost | ListingFailed(e: Failure)

  datatype Fetch = Messages(items: seq<Item>) | FetchLost | PeerGone | FetchFailed(e: Failure)

  datatype Download = Got(files: seq<Downloaded>) | Unavailable
                    | DownloadLost | MessageGone | DownloadFailed(e: Failure)

  /** SMTP: taken, failed for now, or an error nobody handles. */
  datatype Sending = Taken | Deferred | Refused

  datatype Polling = Mails(ms: seq<Mail>) | PollingFailed

  datatype Post = PostedAs(id: int) | PostLost | PostFailed(e: Failure) | PostRefused

  /** The messages are those of the items, in order. */
  predicate Matches(items: seq<Item>, messages: seq<Message>) {
    && |items| == |messages|
    && (forall i :: 0 <= i < |items| ==> messages[i].id == items[i].id && (messages[i].media != [] <==> items[i].media))
  }

  predicate FromInbox(o: Outside, ms: seq<Mail>) {
    forall m :: m in ms ==> m.ref in o.inbox && o.inbox[m.ref] == m
  }

  predicate Unused(o: Outside, issued: set<Mid>, mid: Mid) {
    mid !in issued && forall r :: r in o.inbox ==> mid !in o.inbox[r].parents
  }

  function Cited(o: Outside): set<Mid> {
    set r, m | r in o.inbox && m in o.inbox[r].parents :: m
  }

  lemma {:induction false} SomeBeyond(s: set<Mid>)
    ensures exists n: Mid :: Beyond(s, n)
    decreases s
  {
    if s != {} {
      var x :| x in s;
      SomeBeyond(s - {x});
      var n: Mid :| Beyond(s - {x}, n);
      assert forall y :: y in s ==> y == x || y in s - {x};
      assert Beyond(s, if n <= x then x + 1 else n);
    } else {
      assert Beyond(s, 0);
    }
  }

  ghost predicate Beyond(s: set<Mid>, n: Mid) { forall x :: x in s ==> x < n }

  // ---------------------------------------------------------------- what the ports were asked and answered

  /** A mail handed to SMTP: a part of a delivery, the confirmation of a command, the notice of a lost session. */
  datatype Letter = Delivered(dialog: string, part: Part) | Confirmed(mid: Mid, ref: Ref, on: bool) | Alarm(mid: Mid)

  /** A question put to a port, and how it was answered; for SMTP also whether the mail was in fact accepted. */
  datatype Answer =
    | ToList(listing: Listing)
    | ToFetch(dialog: string, last: nat, fetch: Fetch)
    | ToDownload(id: int, step: Delivery)
    | ToSend(letter: Letter, r: Sending, accepted: bool)
    | ToPoll(polling: Polling)
    | ToPost(ref: Ref, dialog: string, post: Post, landed: Option<int>)

  /** What comes of a download is no part of the machine, only that something was had or stood in for. */
  function DownloadAnswer(r: Download): Delivery {
    match r
    case Got(_) => DownloadOk
    case Unavailable => DownloadOk
    case DownloadLost => DownloadInvalid
    case MessageGone => DownloadGone
    case DownloadFailed(e) => DownloadFails(e)
  }

  /** The answer a step of the machine took, if it is one that follows a call. */
  function HeardIn(s: State, a: Action): seq<Answer> {
    match a
    case Inbound(i) => HeardInbound(s, i)
    case Delivery(d) => HeardDelivery(s, d)
    case Mailbox(m) => HeardMailbox(s, m)
    case Notices(n) => HeardNotices(s, n)
    case Session(v) => HeardSession(v)
    case _ => []
  }

  function HeardInbound(s: State, i: Inbound): seq<Answer> {
    match i
    case ListOk(ds) => [ToList(Dialogs(ds))]
    case ListInvalid => [ToList(ListingLost)]
    case ListFails(e) => [ToList(ListingFailed(e))]
    case FetchOk(items) => FetchedBy(s, Messages(items))
    case FetchInvalid => FetchedBy(s, FetchLost)
    case FetchGone => FetchedBy(s, PeerGone)
    case FetchFails(e) => FetchedBy(s, FetchFailed(e))
    case _ => []
  }

  function FetchedBy(s: State, r: Fetch): seq<Answer> {
    if s.pc.Opened? then [ToFetch(s.pc.d.id, s.pc.last, r)] else []
  }

  /** A message without media is passed over without a call. */
  function HeardDelivery(s: State, d: Delivery): seq<Answer> {
    match d
    case Compose(_) => []
    case Commit => []
    case SendOk => SentBy(s, Taken, true)
    case SendFails(accepted) => SentBy(s, Deferred, accepted)
    case SendEscapes(accepted) => SentBy(s, Refused, accepted)
    case _ =>
      if s.pc.Downloading? && s.pc.k < |s.pc.batch.sel| && s.pc.batch.sel[s.pc.k].media
      then [ToDownload(s.pc.batch.sel[s.pc.k].id, d)] else []
  }

  function SentBy(s: State, r: Sending, accepted: bool): seq<Answer> {
    if s.pc.Sending? && s.pc.k < |s.pc.parts|
    then [ToSend(Delivered(s.pc.batch.d.id, s.pc.parts[s.pc.k]), r, accepted)] else []
  }

  function HeardMailbox(s: State, m: Mailbox): seq<Answer> {
    match m
    case PollOk(ms) => [ToPoll(Mails(ms))]
    case PollFails => [ToPoll(PollingFailed)]
    case PostOk(id) => PostedBy(s, PostedAs(id), Some(id))
    case PostInvalid(landed) => PostedBy(s, PostLost, landed)
    case PostFails(e, landed) => PostedBy(s, Post.PostFailed(e), landed)
    case PostEscapes(landed) => PostedBy(s, PostRefused, landed)
    case _ => []
  }

  function PostedBy(s: State, r: Post, landed: Option<int>): seq<Answer> {
    if Posting(s) then [ToPost(s.pc.ms[0].ref, PostDialog(s), r, landed)] else []
  }

  function HeardNotices(s: State, n: Notices): seq<Answer> {
    match n
    case NoticeOk(mid) => ConfirmedBy(s, mid, Taken, true)
    case NoticeFails(mid, accepted) => ConfirmedBy(s, mid, Deferred, accepted)
    case NoticeEscapes(mid, accepted) => ConfirmedBy(s, mid, Refused, accepted)
    case _ => []
  }

  /** A confirmation says what was queued for its command. */
  function ConfirmedBy(s: State, mid: Mid, r: Sending, accepted: bool): seq<Answer> {
    if s.pc.Flushing? && s.pc.refs != [] && s.pc.refs[0] in s.t.pending
    then [ToSend(Confirmed(mid, s.pc.refs[0], s.t.pending[s.pc.refs[0]].enabled), r, accepted)] else []
  }

  function HeardSession(v: Session): seq<Answer> {
    match v
    case SessionOk(mid) => [ToSend(Alarm(mid), Taken, true)]
    case SessionFails(mid, accepted) => [ToSend(Alarm(mid), Deferred, accepted)]
    case SessionEscapes(mid, accepted) => [ToSend(Alarm(mid), Refused, accepted)]
    case _ => []
  }

  /** The answers a run took, in order. */
  ghost function Heard(c: Config, s: State, run: seq<Action>): seq<Answer>
    requires Legal(c, s, run)
    decreases |run|
  {
    if run == [] then [] else HeardIn(s, run[0]) + Heard(c, Do(c, s, run[0]), run[1..])
  }

  lemma {:induction false} HeardSnoc(c: Config, s: State, run: seq<Action>, a: Action)
    requires Legal(c, s, run) && Legal(c, s, run + [a])
    ensures Heard(c, s, run + [a]) == Heard(c, s, run) + HeardIn(After(c, s, run), a)
    decreases |run|
  {
    if run == [] {
      assert run + [a] == [a] && [a][1..] == [];
      assert HeardIn(s, a) + [] == HeardIn(s, a) && [] + HeardIn(s, a) == HeardIn(s, a);
    } else {
      var s', rest := Do(c, s, run[0]), run[1..];
      assert (run + [a])[1..] == rest + [a];
      HeardSnoc(c, s', rest, a);
      Assoc(HeardIn(s, run[0]), Heard(c, s', rest), HeardIn(After(c, s', rest), a));
    }
  }

  /** A longer run has heard more. */
  lemma {:induction false} HeardGrows(c: Config, s: State, before: seq<Action>, run: seq<Action>)
    requires Legal(c, s, before) && Legal(c, s, run) && before <= run
    ensures Heard(c, s, before) <= Heard(c, s, run)
    decreases |before|
  {
    if before != [] { HeardGrows(c, Do(c, s, run[0]), before[1..], run[1..]); }
  }

  /** The actions lead from one state to another and took these answers. */
  ghost predicate Leads(c: Config, s: State, run: seq<Action>, end: State, took: seq<Answer>)
    decreases |run|, 1
  {
    if run == [] then end == s && took == [] else LeadsAtLast(c, s, run, end, took)
  }

  ghost predicate LeadsAtLast(c: Config, s: State, run: seq<Action>, end: State, took: seq<Answer>)
    requires run != []
    decreases |run|, 0
  {
    var n := |run| - 1;
    exists m, before :: Leads(c, s, run[..n], m, before) && Takes(c, m, before, run[n], end, took)
  }

  ghost predicate Takes(c: Config, m: State, before: seq<Answer>, a: Action, end: State, took: seq<Answer>) {
    May(c, m, a) && end == Do(c, m, a) && took == before + HeardIn(m, a)
  }

  lemma {:induction false} LeadsOn(c: Config, s: State, run: seq<Action>, end: State, took: seq<Answer>, a: Action)
    requires Leads(c, s, run, end, took) && May(c, end, a)
    ensures Leads(c, s, run + [a], Do(c, end, a), took + HeardIn(end, a))
  {
    assert (run + [a])[..|run|] == run && (run + [a])[|run|] == a;
    assert Takes(c, end, took, a, Do(c, end, a), took + HeardIn(end, a));
    assert LeadsAtLast(c, s, run + [a], Do(c, end, a), took + HeardIn(end, a));
  }

  lemma {:induction false} LeadsMeans(c: Config, s: State, run: seq<Action>, end: State, took: seq<Answer>)
    requires Leads(c, s, run, end, took)
    ensures Legal(c, s, run) && After(c, s, run) == end && Heard(c, s, run) == took
    decreases |run|
  {
    if run != [] {
      var shorter, a, m, before := BeforeLast(c, s, run, end, took);
      LeadsMeans(c, s, shorter, m, before);
      OneMoreHeard(c, s, shorter, m, before, a);
    }
  }

  lemma {:induction false} BeforeLast(c: Config, s: State, run: seq<Action>, end: State, took: seq<Answer>)
    returns (shorter: seq<Action>, a: Action, m: State, before: seq<Answer>)
    requires Leads(c, s, run, end, took) && run != []
    ensures Leads(c, s, shorter, m, before) && run == shorter + [a] && |shorter| < |run|
    ensures May(c, m, a) && end == Do(c, m, a) && took == before + HeardIn(m, a)
  {
    var n := |run| - 1;
    shorter, a := run[..n], run[n];
    assert run == shorter + [a];
    m, before :| Leads(c, s, shorter, m, before) && Takes(c, m, before, a, end, took);
  }

  /** Every legal run leads where it ends. */
  lemma {:induction false} LegalLeads(c: Config, s: State, run: seq<Action>)
    requires Legal(c, s, run)
    ensures Leads(c, s, run, After(c, s, run), Heard(c, s, run))
    decreases |run|
  {
    if run != [] {
      var n := |run| - 1;
      var shorter, a := run[..n], run[n];
      assert run == shorter + [a];
      LegalPrefix(c, s, run, n);
      LegalLeads(c, s, shorter);
      LegalLeadsOn(c, s, shorter, a);
    }
  }

  lemma {:induction false} LegalLeadsOn(c: Config, s: State, run: seq<Action>, a: Action)
    requires Legal(c, s, run) && Legal(c, s, run + [a]) && Leads(c, s, run, After(c, s, run), Heard(c, s, run))
    ensures Leads(c, s, run + [a], After(c, s, run + [a]), Heard(c, s, run + [a]))
  {
    LastIsLegal(c, s, run, a);
    OneMoreHeard(c, s, run, After(c, s, run), Heard(c, s, run), a);
    LeadsOn(c, s, run, After(c, s, run), Heard(c, s, run), a);
  }

  lemma {:induction false} LastIsLegal(c: Config, s: State, run: seq<Action>, a: Action)
    requires Legal(c, s, run) && Legal(c, s, run + [a])
    ensures May(c, After(c, s, run), a)
    decreases |run|
  {
    if run != [] {
      assert (run + [a])[1..] == run[1..] + [a];
      LastIsLegal(c, Do(c, s, run[0]), run[1..], a);
    }
  }

  lemma {:induction false} OneMoreHeard(c: Config, s: State, run: seq<Action>, m: State, took: seq<Answer>, a: Action)
    requires Legal(c, s, run) && After(c, s, run) == m && Heard(c, s, run) == took && May(c, m, a)
    ensures Legal(c, s, run + [a]) && After(c, s, run + [a]) == Do(c, m, a)
    ensures Heard(c, s, run + [a]) == took + HeardIn(m, a)
  {
    OneMore(c, s, run, a);
    HeardSnoc(c, s, run, a);
  }

  lemma {:induction false} LeadsFurther(c: Config, s: State, before: seq<Action>, m: State, took: seq<Answer>,
                                        run: seq<Action>, end: State, later: seq<Answer>)
    requires Leads(c, s, before, m, took) && Leads(c, s, run, end, later) && before <= run
    ensures took <= later
  {
    LeadsMeans(c, s, before, m, took);
    LeadsMeans(c, s, run, end, later);
    HeardGrows(c, s, before, run);
  }

  class Surroundings {
    var o: Outside
    var issued: set<Mid>

    // All answers given; of them the messages of the last fetch, and what was downloaded; and the drafts sent.
    ghost var heard: seq<Answer>
    ghost var messages: seq<Message>
    ghost var downloads: seq<Download>
    ghost var mails: seq<Composer.Draft>

    constructor (now: real)
      ensures o == Outside(map[], map[], map[], now) && issued == {} && heard == []
    {
      o := Outside(map[], map[], map[], now);
      issued := {};
      heard, messages, downloads, mails := [], [], [], [];
    }

    /** One step of the outside world, or none. */
    method Move() returns (moved: Option<World>)
      modifies this`o
      ensures moved.Some? ==> WorldMay(old(o), moved.value) && o == WorldDoes(old(o), moved.value)
      ensures moved.None? ==> o == old(o)
    {
      moved := *;
      if moved.Some? {
        if WorldMay(o, moved.value) { o := WorldDoes(o, moved.value); } else { moved := None; }
      }
    }

    method ListTrackedDialogs() returns (r: Listing)
      modifies this`heard
      ensures heard == old(heard) + [ToList(r)]
    {
      r := *;
      heard := heard + [ToList(r)];
    }

    /** With the items come the messages, for the composer. */
    method FetchSince(c: Config, d: DialogRef, last: nat) returns (r: Fetch, came: seq<Message>)
      modifies this`heard, this`messages
      ensures heard == old(heard) + [ToFetch(d.id, last, r)]
      ensures r.Messages? ==> FetchOf(c, Backlog(o, d.id, last), r.items) && Matches(r.items, came) && messages == came
    {
      r, came := *, *;
      if r.Messages? && !(FetchOf(c, Backlog(o, d.id, last), r.items) && Matches(r.items, came)) { r := PeerGone; }
      heard, messages := heard + [ToFetch(d.id, last, r)], came;
    }

    method DownloadMedia(m: Message) returns (r: Download)
      modifies this`heard, this`downloads
      ensures heard == old(heard) + [ToDownload(m.id, DownloadAnswer(r))] && downloads == old(downloads) + [r]
    {
      r := *;
      heard, downloads := heard + [ToDownload(m.id, DownloadAnswer(r))], downloads + [r];
    }

    /** A mail refused or deferred may have been accepted all the same; the bridge cannot tell. */
    method Send(letter: Letter) returns (r: Sending, ghost accepted: bool)
      modifies this`heard
      ensures heard == old(heard) + [ToSend(letter, r, accepted)] && (r.Taken? ==> accepted)
    {
      r := *;
      accepted := *;
      if r.Taken? { accepted := true; }
      heard := heard + [ToSend(letter, r, accepted)];
    }

    /** A part of a delivery, and the draft it stands for. */
    method SendDraft(dialog: string, part: Part, draft: Composer.Draft) returns (r: Sending, ghost accepted: bool)
      modifies this`heard, this`mails
      ensures heard == old(heard) + [ToSend(Delivered(dialog, part), r, accepted)] && (r.Taken? ==> accepted)
      ensures mails == old(mails) + [draft]
    {
      r, accepted := Send(Delivered(dialog, part));
      mails := mails + [draft];
    }

    method Poll() returns (r: Polling)
      modifies this`heard
      ensures heard == old(heard) + [ToPoll(r)]
      ensures r.Mails? ==> FromInbox(o, r.ms)
    {
      r := *;
      if r.Mails? && !FromInbox(o, r.ms) { r := PollingFailed; }
      heard := heard + [ToPoll(r)];
    }

    /** The post may have landed although the answer is an error. */
    method PostAsUser(dialog: string, m: Mail) returns (r: Post, ghost landed: Option<int>)
      modifies this`o, this`heard
      ensures heard == old(heard) + [ToPost(m.ref, dialog, r, landed)]
      ensures r.PostedAs? ==> landed == Some(r.id)
      ensures landed.Some? ==> landed.value > Top(old(o), dialog) && o == AddMessage(old(o), dialog, landed.value)
      ensures landed.None? ==> o == old(o)
    {
      r := *;
      var id: Option<int> := *;
      if r.PostedAs? { id := Some(r.id); }
      if id.Some? && id.value <= Top(o, dialog) {
        if r.PostedAs? { r := PostRefused; }
        id := None;
      }
      if id.Some? { o := AddMessage(o, dialog, id.value); }
      landed := id;
      heard := heard + [ToPost(m.ref, dialog, r, landed)];
    }

    /** make_message_id: not used before, not cited by any mail so far. */
    method NewId() returns (mid: Mid)
      modifies this`issued
      ensures Unused(o, old(issued), mid) && issued == old(issued) + {mid}
    {
      SomeBeyond(issued + Cited(o));
      ghost var beyond: Mid :| Beyond(issued + Cited(o), beyond);
      assert beyond !in issued + Cited(o);
      var n: Mid :| n !in issued + Cited(o);
      mid := n;
      issued := issued + {mid};
    }
  }
}
