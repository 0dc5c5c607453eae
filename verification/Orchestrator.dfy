/** The cycles of the bridge in the source's form (src/mailtg_bridge/orchestrator.py:13-107): methods that
    call ports and run transactions one after the other.

    The ghost field `log` lists the steps taken and `st` is where the machine of module Protocol stands
    after them.  Each port call and each transaction is one step, so stopping the code anywhere leaves a
    prefix of a run of the machine, and every theorem of module Runs holds of this code. */
module Orchestrator {
  import opened Domain
  import opened Backoff
  import opened Database
  import opened Protocol
  import opened Downloads
  import opened Ports
  import opened Store
  import Composer
  import opened Sequences
  import opened Cycles
  import Delivery
  import Hearing
  import Tally
  import opened Runs

  /** Where a part of a cycle leaves off: go on, leave the cycle, or an exception nobody handled. */
  datatype Outcome = GoesOn | Stops | Escapes

  /** From one point of a run to a later one. */
  lemma {:induction false} LegalSince(c: Config, start: State, before: seq<Action>, was: State, took: seq<Answer>,
                                      run: seq<Action>, end: State, later: seq<Answer>)
    requires Leads(c, start, before, was, took) && Leads(c, start, run, end, later) && before <= run
    ensures Legal(c, was, run[|before|..]) && After(c, was, run[|before|..]) == end
    ensures Legal(c, start, before) && After(c, start, before) == was
    ensures Legal(c, start, run) && After(c, start, run) == end
  {
    LeadsMeans(c, start, before, was, took);
    LeadsMeans(c, start, run, end, later);
    RunSplits(c, start, before, run);
  }

  class BridgeService {
    const c: Config
    const settings: Composer.Settings
    const store: SQLiteStore
    const ports: Surroundings
    ghost const start: State
    ghost var st: State
    ghost var log: seq<Action>
    ghost var said: seq<Answer>

    /** The steps so far are a run of the machine to `st`, and `said` is what its steps took for answers. */
    ghost predicate Ran() reads this`st, this`log, this`said {
      Leads(c, start, log, st, said)
    }

    /** The machine, the tables and the surroundings agree. */
    ghost predicate Agree() reads this`st, this`log, this`said, store, ports {
      Ran() && st.t == store.db && st.o == ports.o && st.h.mids == ports.issued
    }

    /** And the answers taken are those the ports gave. */
    ghost predicate Valid() reads this`st, this`log, this`said, store, ports {
      Agree() && said == ports.heard
    }

    /** So they are, but for the last, which is still to be acted on. */
    ghost predicate Owes(a: Answer) reads this`st, this`log, this`said, store, ports {
      Agree() && ports.heard == said + [a]
    }

    constructor (c: Config, settings: Composer.Settings, now: real)
      ensures Valid() && st == Init(now) && log == [] && said == [] && fresh(store) && fresh(ports)
      ensures this.c == c && start == Init(now)
    {
      this.c := c;
      this.settings := settings;
      this.store := new SQLiteStore();
      this.ports := new Surroundings(now);
      this.start := Init(now);
      this.st := Init(now);
      this.log := [];
      this.said := [];
    }

    ghost method Advance(a: Action)
      requires Ran() && May(c, st, a)
      modifies this`st, this`log, this`said
      ensures Ran() && st == Do(c, old(st), a) && log == old(log) + [a]
      ensures Beginnings(log) == Beginnings(old(log)) + One(Begins(a))
      ensures said == old(said) + HeardIn(old(st), a) && (HeardIn(old(st), a) == [] ==> said == old(said))
    {
      LeadsOn(c, start, log, st, said, a);
      BeginningsSnoc(log, a);
      said := said + HeardIn(st, a);
      st := Do(c, st, a);
      log := log + [a];
    }

    /** Since then steps were taken that begin no cycle, and the process was killed once or not at all. */
    ghost predicate Went(before: seq<Action>, was: State, killed: bool) reads this`st, this`log {
      before <= log && Beginnings(log) == Beginnings(before) && st.h.crashes == was.h.crashes + One(killed)
    }

    /** Since then one cycle was begun, and the process was killed once or not at all. */
    ghost predicate Started(before: seq<Action>, was: State, killed: bool) reads this`st, this`log {
      before < log && Beginnings(log) == Beginnings(before) + 1 && st.h.crashes == was.h.crashes + One(killed)
    }

    /** Time passes, messages and mails come in. */
    method Pause()
      requires Valid()
      modifies this`st, this`log, this`said, ports`o
      ensures Valid() && st == old(st).(o := st.o) && Went(old(log), old(st), false) && said == old(said)
      ensures old(ports.o.now) <= ports.o.now && forall a :: a in log[|old(log)|..] ==> a.World?
    {
      var i: int := *;
      while i > 0
        invariant Valid() && st == old(st).(o := st.o) && Went(old(log), old(st), false) && said == old(said)
        invariant old(ports.o.now) <= ports.o.now && forall a :: a in log[|old(log)|..] ==> a.World?
      {
        var moved := ports.Move();
        if moved.Some? { Advance(World(moved.value)); }
        i := i - 1;
      }
    }

    method DeliveryIsAllowed() returns (ok: bool)
      ensures ok == DeliveryAllowed(store.db)
    {
      ok := store.db.enabled && store.db.valid;
    }

    method IsDue(scope: Scope) returns (ok: bool)
      ensures ok == Due(store.db, scope, ports.o.now)
    {
      ok := scope !in store.db.backoff || store.db.backoff[scope].notBefore <= ports.o.now;
    }

    /** `record_failure`: the row of the scope is replaced by the next decision, with some jitter. */
    method RecordFailure(scope: Scope, e: Failure) returns (ghost draw: real)
      modifies store
      ensures Draw(draw)
      ensures store.db == SetBackoff(old(store.db), scope,
                                     NextFor(c, old(store.db).backoff, scope, e, ports.o.now, draw))
    {
      var jitter: real := *;
      if !Draw(jitter) { jitter := 0.0; }
      var failures := if scope in store.db.backoff then store.db.backoff[scope].failures else 0;
      store.SetBackoff(scope, NextBackoff(e, failures, c.minimum, c.maximum, ports.o.now, jitter));
      draw := jitter;
    }

    /** The tables differ from before just by the row of the scope, which is the next decision. */
    ghost predicate FailureNoted(before: Tables, scope: Scope, e: Failure) reads store, ports {
      exists draw ::
        Draw(draw) && store.db == SetBackoff(before, scope, NextFor(c, before.backoff, scope, e, ports.o.now, draw))
    }

    // ---------------------------------------------------------------- invalidate_session

    /** Of the tables, only what is kept of the session, its notice and its backoff may have changed. */
    ghost predicate SessionOnly(before: Tables) reads store {
      store.db == before.(valid := store.db.valid, notified := store.db.notified,
                          notices := store.db.notices, backoff := store.db.backoff)
    }

    /** Mail about the lost session was tried, with this answer. */
    ghost predicate AlarmTried(before: seq<Answer>, r: Sending) reads ports {
      exists mid, accepted :: ports.heard == before + [ToSend(Alarm(mid), r, accepted)]
    }

    /** The session is down afterwards; and its loss is on record as notified, or mail about it was just tried
        and deferred. Nothing is tried only where it was down and on record before. */
    method InvalidateSession(ghost next: Next) returns (escaped: bool)
      requires Valid() && st.pc == Invalidating(next)
      modifies this`st, this`log, this`said, store, ports`o, ports`issued, ports`heard
      ensures Valid() && Went(old(log), old(st), escaped)
      ensures st.pc == if escaped then Idle else Resume(next)
      ensures !store.db.valid && SessionOnly(old(store.db))
      ensures escaped ==> AlarmTried(old(ports.heard), Refused)
      ensures !escaped && ports.heard == old(ports.heard) ==>
                store.db.notified && old(store.db.notified && !store.db.valid)
      ensures !escaped && ports.heard != old(ports.heard) ==>
                AlarmTried(old(ports.heard), Deferred) || (AlarmTried(old(ports.heard), Taken) && store.db.notified)
    {
      DropSessionOnce(next);
      if store.db.notified {
        Advance(Session(AlreadyNotified));
        return false;
      }
      escaped := NotifySession(next);
    }

    method DropSessionOnce(ghost next: Next)
      requires Valid() && st.pc == Invalidating(next)
      modifies this`st, this`log, this`said, store
      ensures Valid() && Went(old(log), old(st), false) && st.pc == Notifying(next) && !store.db.valid
      ensures store.db.notified == (old(store.db.notified) && !old(store.db.valid)) && SessionOnly(old(store.db))
    {
      if store.db.valid {
        store.SetSession(false, false);
        Advance(Session(DropSession));
      } else {
        Advance(Session(StaysDropped));
      }
    }

    method NotifySession(ghost next: Next) returns (escaped: bool)
      requires Valid() && st.pc == Notifying(next) && !store.db.notified && !store.db.valid
      modifies this`st, this`log, this`said, store, ports`o, ports`issued, ports`heard
      ensures Valid() && Went(old(log), old(st), escaped) && !store.db.valid && SessionOnly(old(store.db))
      ensures st.pc == if escaped then Idle else Resume(next)
      ensures ports.heard != old(ports.heard)
      ensures if escaped then AlarmTried(old(ports.heard), Refused)
              else AlarmTried(old(ports.heard), Deferred) || (AlarmTried(old(ports.heard), Taken) && store.db.notified)
    {
      var r, mid := SendSessionNotice(next);
      if r.Deferred? {
        NoteUnnotified(next);
      } else if r.Taken? {
        SettleNotice(mid, next);
      }
      escaped := r.Refused?;
    }

    method NoteUnnotified(ghost next: Next)
      requires Valid() && st.pc == SessionFailed(next)
      modifies this`st, this`log, this`said, store
      ensures Valid() && Went(old(log), old(st), false) && st.pc == Resume(next)
      ensures FailureNoted(old(store.db), MailSessionNotice, Transient)
    {
      var draw := RecordFailure(MailSessionNotice, Transient);
      Advance(Session(NoteNotifyFailure(draw)));
    }

    method SendSessionNotice(ghost next: Next) returns (r: Sending, mid: Mid)
      requires Valid() && st.pc == Notifying(next) && !store.db.notified
      modifies this`st, this`log, this`said, ports`o, ports`issued, ports`heard
      ensures Valid() && Went(old(log), old(st), r.Refused?)
      ensures st.pc == AfterNotice(mid, r, next)
      ensures AlarmTried(old(ports.heard), r) && ports.heard != old(ports.heard)
    {
      Pause();
      mid := ports.NewId();
      assert Fresh(st, mid);
      ghost var accepted;
      r, accepted := ports.Send(Alarm(mid));
      LogNotice(mid, r, accepted, next);
    }

    function AfterNotice(mid: Mid, r: Sending, next: Next): Pc {
      match r
      case Taken => SessionSent(mid, next)
      case Deferred => SessionFailed(next)
      case Refused => Idle
    }

    ghost method LogNotice(mid: Mid, r: Sending, accepted: bool, next: Next)
      requires Ran() && st.pc == Notifying(next) && !st.t.notified && Fresh(st, mid) && (r.Taken? ==> accepted)
      modifies this`st, this`log, this`said
      ensures Ran() && Went(old(log), old(st), r.Refused?) && st.pc == AfterNotice(mid, r, next)
      ensures said == old(said) + [ToSend(Alarm(mid), r, accepted)]
      ensures st.t == old(st).t && st.o == old(st).o && st.h.mids == old(st).h.mids + {mid}
    {
      match r
      case Taken => Advance(Session(SessionOk(mid)));
      case Deferred => Advance(Session(SessionFails(mid, accepted)));
      case Refused => Advance(Session(SessionEscapes(mid, accepted)));
    }

    method SettleNotice(mid: Mid, ghost next: Next)
      requires Valid() && st.pc == SessionSent(mid, next)
      modifies this`st, this`log, this`said, store
      ensures Valid() && Went(old(log), old(st), false) && store.db.valid == old(store.db.valid)
      ensures st.pc == Resume(next) && store.db.notified && mid in store.db.notices && SessionOnly(old(store.db))
    {
      RecordNotice(mid, next);
      MarkNoticeDone(mid, next);
    }

    method RecordNotice(mid: Mid, ghost next: Next)
      requires Valid() && st.pc == SessionSent(mid, next)
      modifies this`st, this`log, this`said, store
      ensures Valid() && Went(old(log), old(st), false) && st.pc == SessionRecorded(mid, next)
      ensures store.db == Database.RecordNotice(old(store.db), mid, ports.o.now)
    {
      store.RecordNoticeSent(mid, ports.o.now);
      Advance(Session(RecordSession));
    }

    method MarkNoticeDone(ghost mid: Mid, ghost next: Next)
      requires Valid() && st.pc == SessionRecorded(mid, next)
      modifies this`st, this`log, this`said, store
      ensures Valid() && Went(old(log), old(st), false) && store.db.valid == old(store.db.valid)
      ensures st.pc == Resume(next) && store.db.notified && store.db.notices == old(store.db.notices)
      ensures SessionOnly(old(store.db))
    {
      store.MarkSessionNotified();
      Advance(Session(MarkNotified));
      store.ClearBackoff(MailSessionNotice);
      Advance(Session(ClearNotify));
    }

    // ---------------------------------------------------------------- run_inbound_cycle

    /** Nothing happens unless the bridge may deliver and the list is due; otherwise the list is asked for,
        and the cycle runs to its end unless an exception escapes. */
    method RunInboundCycle() returns (escaped: bool, ghost steps: seq<Action>)
      requires Valid() && st.pc.Idle?
      modifies this`st, this`log, this`said, store, ports
      ensures Valid() && st.pc.Idle? && log == old(log) + steps
      ensures Legal(c, old(st), steps) && After(c, old(st), steps) == st
      ensures InboundRound(c, old(st), steps, escaped)
    {
      var allowed := DeliveryIsAllowed();
      var due := IsDue(TgList);
      if !allowed || !due { return false, []; }
      ghost var listing;
      escaped, listing := ListAndVisit();
      steps := log[|old(log)|..];
      LegalSince(c, start, old(log), old(st), old(said), log, st, said);
      InboundRounds(c, start, old(log), log, escaped);
    }

    /** Whatever the list of dialogs is answered with is acted on: a lost session is noted as such, a failure as one
        of the list. */
    method ListAndVisit() returns (escaped: bool, ghost listing: Listing)
      requires Valid() && st.pc.Idle? && DeliveryAllowed(store.db) && Due(store.db, TgList, ports.o.now)
      modifies this`st, this`log, this`said, store, ports
      ensures Valid() && st.pc.Idle?
      ensures Started(old(log), old(st), escaped) && Lists(log[|old(log)|])
      ensures old(ports.heard) + [ToList(listing)] <= ports.heard
      ensures listing.ListingLost? ==> !store.db.valid && SessionOnly(old(store.db))
      ensures listing.ListingFailed? ==> !escaped && FailureNoted(old(store.db), TgList, listing.e)
    {
      var answer := ports.ListTrackedDialogs();
      listing := answer;
      match answer
      case Dialogs(ds) => escaped := VisitAll(ds);
      case ListingLost => escaped := LoseList();
      case ListingFailed(e) =>
        FailList(e);
        escaped := false;
    }

    method VisitAll(ds: seq<DialogRef>) returns (escaped: bool)
      requires Owes(ToList(Dialogs(ds)))
      requires st.pc.Idle? && DeliveryAllowed(store.db) && Due(store.db, TgList, ports.o.now)
      modifies this`st, this`log, this`said, store, ports
      ensures Valid() && st.pc.Idle? && old(ports.heard) <= ports.heard
      ensures Started(old(log), old(st), escaped) && Lists(log[|old(log)|])
    {
      OpenList(ds);
      ghost var before, was, asked := log, st, said;
      escaped := VisitDialogs(ds);
      LeadsFurther(c, start, before, was, asked, log, st, said);
    }

    method OpenList(ds: seq<DialogRef>)
      requires Owes(ToList(Dialogs(ds)))
      requires st.pc.Idle? && DeliveryAllowed(store.db) && Due(store.db, TgList, ports.o.now)
      modifies this`st, this`log, this`said, store
      ensures Valid() && st.pc == AtDialog(ds) && log == old(log) + [Inbound(ListOk(ds)), Inbound(ClearList)]
      ensures store.db.backoff == old(store.db.backoff) - {TgList}
      ensures Started(old(log), old(st), false)
    {
      Advance(Inbound(ListOk(ds)));
      store.ClearBackoff(TgList);
      Advance(Inbound(ClearList));
    }

    method LoseList() returns (escaped: bool)
      requires Owes(ToList(ListingLost))
      requires st.pc.Idle? && DeliveryAllowed(store.db) && Due(store.db, TgList, ports.o.now)
      modifies this`st, this`log, this`said, store, ports
      ensures Valid() && st.pc.Idle? && old(ports.heard) <= ports.heard
      ensures Started(old(log), old(st), escaped) && Lists(log[|old(log)|])
      ensures !store.db.valid && SessionOnly(old(store.db))
    {
      Advance(Inbound(ListInvalid));
      ghost var before, was, asked := log, st, said;
      escaped := InvalidateSession(ToIdle);
      LeadsFurther(c, start, before, was, asked, log, st, said);
    }

    method FailList(e: Failure)
      requires Owes(ToList(ListingFailed(e)))
      requires st.pc.Idle? && DeliveryAllowed(store.db) && Due(store.db, TgList, ports.o.now)
      modifies this`st, this`log, this`said, store
      ensures Valid() && st.pc.Idle?
      ensures |log| == |old(log)| + 2 && log[..|old(log)| + 1] == old(log) + [Inbound(ListFails(e))]
      ensures FailureNoted(old(store.db), TgList, e)
      ensures Started(old(log), old(st), false)
    {
      Advance(Inbound(ListFails(e)));
      var draw := RecordFailure(TgList, e);
      Advance(Inbound(NoteListFailure(draw)));
    }

    method VisitDialogs(ds: seq<DialogRef>) returns (escaped: bool)
      requires Valid() && st.pc == AtDialog(ds)
      modifies this`st, this`log, this`said, store, ports
      ensures Valid() && st.pc.Idle? && Went(old(log), old(st), escaped)
    {
      var i := 0;
      assert ds[0..] == ds;
      while i < |ds|
        invariant i <= |ds| && Valid() && st.pc == AtDialog(ds[i..]) && Went(old(log), old(st), false)
      {
        assert ds[i..][0] == ds[i] && ds[i..][1..] == ds[i + 1..];
        var next := VisitDialog(ds[i], ds[i + 1..]);
        if !next.GoesOn? { return next.Escapes?; }
        i := i + 1;
      }
      Advance(Inbound(CycleDone));
      escaped := false;
    }

    /** Messages above the cursor were asked for first. */
    ghost predicate Asked(before: seq<Answer>, d: string, last: nat) reads ports {
      exists r: Fetch :: before + [ToFetch(d, last, r)] <= ports.heard
    }

    /** A dialog that is due is fetched from its cursor on, unless its newest message is known and not above
        it; otherwise nothing is asked. */
    method VisitDialog(d: DialogRef, ghost ds: seq<DialogRef>) returns (next: Outcome)
      requires Valid() && st.pc.AtDialog? && st.pc.ds != [] && st.pc.ds[0] == d && st.pc.ds[1..] == ds
      modifies this`st, this`log, this`said, store, ports
      ensures Valid() && Went(old(log), old(st), next.Escapes?)
      ensures st.pc == if next.GoesOn? then AtDialog(ds) else Idle
      ensures ports.heard == old(ports.heard) || Asked(old(ports.heard), d.id, old(Cursor(store.db, d.id)))
      ensures old(Due(store.db, TgDialog(d.id), ports.o.now)) ==>
                (ports.heard == old(ports.heard) <==> d.top.Some? && d.top.value <= old(Cursor(store.db, d.id)))
    {
      Pause();
      var due := IsDue(TgDialog(d.id));
      if !due {
        Advance(Inbound(NotDue));
        return GoesOn;
      }
      next := OpenDialog(d, ds);
    }

    method OpenDialog(d: DialogRef, ghost ds: seq<DialogRef>) returns (next: Outcome)
      requires Valid() && st.pc.AtDialog? && st.pc.ds != [] && st.pc.ds[0] == d && st.pc.ds[1..] == ds
      requires Due(store.db, TgDialog(d.id), ports.o.now)
      modifies this`st, this`log, this`said, store, ports
      ensures Valid() && Went(old(log), old(st), next.Escapes?)
      ensures st.pc == if next.GoesOn? then AtDialog(ds) else Idle
      ensures if d.top.Some? && d.top.value <= old(Cursor(store.db, d.id)) then ports.heard == old(ports.heard)
              else Asked(old(ports.heard), d.id, old(Cursor(store.db, d.id))) && ports.heard != old(ports.heard)
    {
      var last := OpenDialogAt(d, ds);
      if d.top.Some? && d.top.value <= last {
        LeaveUpToDate(d, last, ds);
        return GoesOn;
      }
      ghost var r;
      next, r := FetchAndDeliver(d, last, ds);
    }

    method OpenDialogAt(d: DialogRef, ghost ds: seq<DialogRef>) returns (last: nat)
      requires Valid() && st.pc.AtDialog? && st.pc.ds != [] && st.pc.ds[0] == d && st.pc.ds[1..] == ds
      requires Due(store.db, TgDialog(d.id), ports.o.now)
      modifies this`st, this`log, this`said, store
      ensures Valid() && Went(old(log), old(st), false) && said == old(said)
      ensures st.pc == Opened(d, last, ds) && last == old(Cursor(store.db, d.id))
    {
      last := store.GetCursor(d);
      Advance(Inbound(OpenCursor));
    }

    method LeaveUpToDate(d: DialogRef, ghost last: nat, ghost ds: seq<DialogRef>)
      requires Valid() && st.pc == Opened(d, last, ds) && Current(d, last)
      modifies this`st, this`log, this`said, store
      ensures Valid() && st.pc == AtDialog(ds) && Went(old(log), old(st), false) && said == old(said)
    {
      LogUpToDate(d, last, ds);
      ClearDialogBackoff(d, ds);
    }

    ghost method LogUpToDate(d: DialogRef, last: nat, ds: seq<DialogRef>)
      requires Ran() && st.pc == Opened(d, last, ds) && Current(d, last)
      modifies this`st, this`log, this`said
      ensures Ran() && st == old(st).(pc := Clearing(d, ds)) && Went(old(log), old(st), false) && said == old(said)
    {
      Advance(Inbound(UpToDate));
    }

    method ClearDialogBackoff(d: DialogRef, ghost ds: seq<DialogRef>)
      requires Valid() && st.pc == Clearing(d, ds)
      modifies this`st, this`log, this`said, store
      ensures Valid() && st.pc == AtDialog(ds) && Went(old(log), old(st), false) && said == old(said)
      ensures store.db == ClearBackoff(old(store.db), TgDialog(d.id))
    {
      store.ClearBackoff(TgDialog(d.id));
      Advance(Inbound(ClearDialog));
    }

    method FailDialog(d: DialogRef, e: Failure, ghost ds: seq<DialogRef>)
      requires Valid() && st.pc == DialogFailed(d, e, ds)
      modifies this`st, this`log, this`said, store
      ensures Valid() && st.pc == AtDialog(ds) && Went(old(log), old(st), false)
      ensures FailureNoted(old(store.db), TgDialog(d.id), e)
    {
      var draw := RecordFailure(TgDialog(d.id), e);
      Advance(Inbound(NoteDialogFailure(draw)));
    }

    /** What becomes of the tables when nothing is sent. */
    ghost predicate NothingSent(before: Tables, d: DialogRef, last: nat, r: Fetch, next: Outcome) reads store, ports {
      match r
      case FetchLost => !next.GoesOn? && !store.db.valid && SessionOnly(before)
      case PeerGone => next.GoesOn? && store.db == before
      case FetchFailed(e) => next.GoesOn? && FailureNoted(before, TgDialog(d.id), e)
      case Messages(items) => next.GoesOn? && store.db == PassedOver(before, d, items)
    }

    /** The cursor at the highest id fetched, if any, and the backoff of the dialog cleared. */
    function PassedOver(t: Tables, d: DialogRef, items: seq<Item>): Tables {
      ClearBackoff(if items == [] then t else Raise(t, d, High(items)), TgDialog(d.id))
    }

    /** There are messages to send. */
    predicate Sends(t: Tables, d: DialogRef, last: nat, r: Fetch) {
      r.Messages? && r.items != [] && !(last == 0 && c.tail) && Selected(t.echoes, d.id, last, r.items) != []
    }

    /** Whatever the fetch is answered with is acted on. */
    method FetchAndDeliver(d: DialogRef, last: nat, ghost ds: seq<DialogRef>) returns (next: Outcome, ghost r: Fetch)
      requires Valid() && st.pc == Opened(d, last, ds) && !Current(d, last)
      modifies this`st, this`log, this`said, store, ports
      ensures Valid() && Went(old(log), old(st), next.Escapes?)
      ensures st.pc == if next.GoesOn? then AtDialog(ds) else Idle
      ensures old(ports.heard) + [ToFetch(d.id, last, r)] <= ports.heard
      ensures Sends(old(store.db), d, last, r) || NothingSent(old(store.db), d, last, r, next)
    {
      Pause();
      var fetch, messages := ports.FetchSince(c, d, last);
      r := fetch;
      if fetch.Messages? {
        next := TakeFetch(d, last, fetch.items, messages, ds);
      } else {
        next := GiveUpFetch(d, last, fetch, ds);
      }
    }

    method TakeFetch(d: DialogRef, last: nat, items: seq<Item>, messages: seq<Message>, ghost ds: seq<DialogRef>)
      returns (next: Outcome)
      requires Owes(ToFetch(d.id, last, Messages(items))) && st.pc == Opened(d, last, ds) && !Current(d, last)
      requires FetchOf(c, Backlog(ports.o, d.id, last), items) && Matches(items, messages) && messages == ports.messages
      modifies this`st, this`log, this`said, store, ports
      ensures Valid() && Went(old(log), old(st), next.Escapes?)
      ensures st.pc == if next.GoesOn? then AtDialog(ds) else Idle
      ensures old(ports.heard) <= ports.heard
      ensures Sends(old(store.db), d, last, Messages(items))
              || NothingSent(old(store.db), d, last, Messages(items), next)
    {
      LogItems(items);
      ghost var before, was, asked := log, st, said;
      if items == [] {
        ClearDialogBackoff(d, ds);
        return GoesOn;
      }
      next := TakeIn(d, last, items, messages, ds);
      LeadsFurther(c, start, before, was, asked, log, st, said);
    }

    ghost method LogItems(items: seq<Item>)
      requires Ran() && st.pc.Opened? && !Current(st.pc.d, st.pc.last)
      requires FetchOf(c, Backlog(st.o, st.pc.d.id, st.pc.last), items)
      modifies this`st, this`log, this`said
      ensures Ran() && Went(old(log), old(st), false) && st == old(st).(pc := st.pc)
      ensures said == old(said) + [ToFetch(old(st).pc.d.id, old(st).pc.last, Messages(items))]
      ensures st.pc == if items == [] then Clearing(old(st).pc.d, old(st).pc.ds)
                       else Fetched(old(st).pc.d, old(st).pc.last, items, old(st).pc.ds)
      ensures items != [] ==> High(items) > old(st).pc.last
    {
      if items != [] { HighAbove(items, Backlog(st.o, st.pc.d.id, st.pc.last), st.pc.last); }
      Advance(Inbound(FetchOk(items)));
    }

    method GiveUpFetch(d: DialogRef, ghost last: nat, fetch: Fetch, ghost ds: seq<DialogRef>) returns (next: Outcome)
      requires !fetch.Messages? && Owes(ToFetch(d.id, last, fetch))
      requires st.pc == Opened(d, last, ds) && !Current(d, last)
      modifies this`st, this`log, this`said, store, ports
      ensures Valid() && Went(old(log), old(st), next.Escapes?)
      ensures st.pc == if next.GoesOn? then AtDialog(ds) else Idle
      ensures old(ports.heard) <= ports.heard
      ensures NothingSent(old(store.db), d, last, fetch, next)
    {
      LogFetch(fetch);
      ghost var before, was, asked := log, st, said;
      next := SettleFetch(d, last, fetch, ds);
      LeadsFurther(c, start, before, was, asked, log, st, said);
    }

    ghost method LogFetch(fetch: Fetch)
      requires !fetch.Messages? && Ran() && st.pc.Opened? && !Current(st.pc.d, st.pc.last)
      modifies this`st, this`log, this`said
      ensures Ran() && Went(old(log), old(st), false) && st == old(st).(pc := st.pc)
      ensures said == old(said) + [ToFetch(old(st).pc.d.id, old(st).pc.last, fetch)]
      ensures st.pc == match fetch
                       case FetchLost => Invalidating(ToIdle)
                       case PeerGone => AtDialog(old(st).pc.ds)
                       case FetchFailed(e) => DialogFailed(old(st).pc.d, e, old(st).pc.ds)
                       case Messages(_) => st.pc
    {
      match fetch
      case FetchLost => Advance(Inbound(FetchInvalid));
      case PeerGone => Advance(Inbound(FetchGone));
      case FetchFailed(e) => Advance(Inbound(FetchFails(e)));
    }

    method SettleFetch(d: DialogRef, ghost last: nat, fetch: Fetch, ghost ds: seq<DialogRef>) returns (next: Outcome)
      requires Valid() && !fetch.Messages?
      requires st.pc == match fetch
                        case FetchLost => Invalidating(ToIdle)
                        case PeerGone => AtDialog(ds)
                        case FetchFailed(e) => DialogFailed(d, e, ds)
                        case Messages(_) => st.pc
      modifies this`st, this`log, this`said, store, ports
      ensures Valid() && Went(old(log), old(st), next.Escapes?)
      ensures st.pc == if next.GoesOn? then AtDialog(ds) else Idle
      ensures NothingSent(old(store.db), d, last, fetch, next)
    {
      match fetch
      case FetchLost =>
        next := LoseSession();
      case PeerGone =>
        next := GoesOn;
      case FetchFailed(e) =>
        FailDialog(d, e, ds);
        next := GoesOn;
    }

    lemma {:induction false} HighAbove(items: seq<Item>, backlog: set<int>, last: nat)
      requires items != [] && FetchOf(c, backlog, items) && forall id :: id in backlog ==> last < id
      ensures High(items) > last
    {
      Delivery.HighIsHighest(items);
    }

    method LoseSession() returns (next: Outcome)
      requires Valid() && st.pc == Invalidating(ToIdle)
      modifies this`st, this`log, this`said, store, ports`o, ports`issued, ports`heard
      ensures Valid() && st.pc == Idle && Went(old(log), old(st), next.Escapes?) && !next.GoesOn?
      ensures !store.db.valid && SessionOnly(old(store.db))
    {
      var escaped := InvalidateSession(ToIdle);
      next := if escaped then Escapes else Stops;
    }

    /** A non-empty fetch: start at the tail, pass it all over, or send what is selected. */
    method TakeIn(d: DialogRef, last: nat, items: seq<Item>, messages: seq<Message>, ghost ds: seq<DialogRef>)
      returns (next: Outcome)
      requires Valid() && st.pc == Fetched(d, last, items, ds)
      requires items != [] && High(items) > last && Matches(items, messages) && messages == ports.messages
      modifies this`st, this`log, this`said, store, ports
      ensures Valid() && Went(old(log), old(st), next.Escapes?)
      ensures st.pc == if next.GoesOn? then AtDialog(ds) else Idle
      ensures Sends(old(store.db), d, last, Messages(items))
              || NothingSent(old(store.db), d, last, Messages(items), next)
    {
      if last == 0 && c.tail {
        StartAtTail(d, last, items, ds);
        return GoesOn;
      }
      next := TakeSelected(d, last, items, messages, ds);
    }

    method TakeSelected(d: DialogRef, last: nat, items: seq<Item>, messages: seq<Message>, ghost ds: seq<DialogRef>)
      returns (next: Outcome)
      requires Valid() && st.pc == Fetched(d, last, items, ds)
      requires items != [] && High(items) > last && Matches(items, messages) && !(last == 0 && c.tail)
      requires messages == ports.messages
      modifies this`st, this`log, this`said, store, ports
      ensures Valid() && Went(old(log), old(st), next.Escapes?)
      ensures st.pc == if next.GoesOn? then AtDialog(ds) else Idle
      ensures Sends(old(store.db), d, last, Messages(items))
              || NothingSent(old(store.db), d, last, Messages(items), next)
    {
      var sel, chosen := SelectMessages(d, last, items, messages);
      if sel == [] {
        PassAllOver(d, last, items, ds);
        return GoesOn;
      }
      next := SendSelected(d, last, items, sel, chosen, ds);
    }

    method SendSelected(d: DialogRef, last: nat, items: seq<Item>, sel: seq<Item>, chosen: seq<Message>,
                        ghost ds: seq<DialogRef>)
      returns (next: Outcome)
      requires Valid() && st.pc == Fetched(d, last, items, ds)
      requires items != [] && !(last == 0 && c.tail) && sel == Selected(store.db.echoes, d.id, last, items)
      requires sel != [] && Matches(sel, chosen) && FromFetch(chosen)
      modifies this`st, this`log, this`said, store, ports
      ensures Valid() && Went(old(log), old(st), next.Escapes?)
      ensures st.pc == if next.GoesOn? then AtDialog(ds) else Idle
    {
      StartBatch(d, last, items, ds);
      ghost var answers, drafts;
      next, answers, drafts := SendBatch(Batch(d, last, High(items), sel), chosen, ds);
    }

    ghost method StartBatch(d: DialogRef, last: nat, items: seq<Item>, ds: seq<DialogRef>)
      requires Ran() && st.pc == Fetched(d, last, items, ds) && items != [] && !(last == 0 && c.tail)
      requires Selected(st.t.echoes, d.id, last, items) != []
      modifies this`st, this`log, this`said
      ensures Ran() && Went(old(log), old(st), false) && said == old(said)
      ensures st.pc == Downloading(Batch(d, last, High(items), Selected(st.t.echoes, d.id, last, items)), 0, ds)
      ensures st.t == old(st).t && st.o == old(st).o && st.h.mids == old(st).h.mids
    {
      Advance(Inbound(Select));
    }

    /** `advance_cursor` with an id above the cursor. */
    method RaiseCursor(d: DialogRef, high: int)
      requires high > 0
      modifies store
      ensures store.db == Raise(old(store.db), d, high)
    {
      var ok := store.AdvanceCursor(d, high);
    }

    method StartAtTail(d: DialogRef, ghost last: nat, items: seq<Item>, ghost ds: seq<DialogRef>)
      requires Valid() && st.pc == Fetched(d, last, items, ds)
      requires items != [] && High(items) > last && last == 0 && c.tail
      modifies this`st, this`log, this`said, store
      ensures Valid() && st.pc == AtDialog(ds) && Went(old(log), old(st), false)
      ensures store.db == ClearBackoff(Raise(old(store.db), d, High(items)), TgDialog(d.id))
    {
      JumpToTail(d, last, items, ds);
      ClearDialogBackoff(d, ds);
    }

    method JumpToTail(d: DialogRef, ghost last: nat, items: seq<Item>, ghost ds: seq<DialogRef>)
      requires Valid() && st.pc == Fetched(d, last, items, ds)
      requires items != [] && High(items) > last && last == 0 && c.tail
      modifies this`st, this`log, this`said, store
      ensures Valid() && st.pc == Clearing(d, ds) && Went(old(log), old(st), false)
      ensures store.db == Raise(old(store.db), d, High(items))
    {
      RaiseCursor(d, High(items));
      Advance(Inbound(Bootstrap));
    }

    method PassAllOver(d: DialogRef, ghost last: nat, items: seq<Item>, ghost ds: seq<DialogRef>)
      requires Valid() && st.pc == Fetched(d, last, items, ds)
      requires items != [] && High(items) > last && !(last == 0 && c.tail)
      requires Selected(store.db.echoes, d.id, last, items) == []
      modifies this`st, this`log, this`said, store
      ensures Valid() && st.pc == AtDialog(ds) && Went(old(log), old(st), false)
      ensures store.db == ClearBackoff(Raise(old(store.db), d, High(items)), TgDialog(d.id))
    {
      SkipAll(d, last, items, ds);
      ClearDialogBackoff(d, ds);
    }

    method SkipAll(d: DialogRef, ghost last: nat, items: seq<Item>, ghost ds: seq<DialogRef>)
      requires Valid() && st.pc == Fetched(d, last, items, ds)
      requires items != [] && High(items) > last && !(last == 0 && c.tail)
      requires Selected(store.db.echoes, d.id, last, items) == []
      modifies this`st, this`log, this`said, store
      ensures Valid() && st.pc == Clearing(d, ds) && Went(old(log), old(st), false)
      ensures store.db == Raise(old(store.db), d, High(items))
    {
      RaiseCursor(d, High(items));
      Advance(Inbound(NothingSelected));
    }

    method SelectMessages(d: DialogRef, last: nat, items: seq<Item>, messages: seq<Message>)
      returns (sel: seq<Item>, chosen: seq<Message>)
      requires Matches(items, messages)
      ensures sel == Selected(store.db.echoes, d.id, last, items) && Matches(sel, chosen)
      ensures forall m :: m in chosen ==> m in messages
    {
      sel, chosen := [], [];
      var echoes := store.db.echoes;
      assert items[0..] == items;
      for k := 0 to |items|
        invariant sel + Selected(echoes, d.id, last, items[k..]) == Selected(echoes, d.id, last, items)
        invariant Matches(sel, chosen) && forall m :: m in chosen ==> m in messages
      {
        var i := items[k];
        assert items[k..][0] == i && items[k..][1..] == items[k + 1..];
        if i.id > last && (d.id, i.id) !in echoes && i.addressed {
          Assoc(sel, [i], Selected(echoes, d.id, last, items[k + 1..]));
          sel, chosen := sel + [i], chosen + [messages[k]];
        }
      }
    }

    // ---------------------------------------------------------------- a batch

    /** The messages are some of those fetched last. */
    ghost predicate FromFetch(chosen: seq<Message>) reads ports { forall m :: m in chosen ==> m in ports.messages }

    function WithMedia(ms: seq<Message>, answers: seq<Download>): seq<Download>
      requires |ms| == |answers|
    {
      if ms == [] then []
      else
        var n := |ms| - 1;
        WithMedia(ms[..n], answers[..n]) + (if ms[n].media == [] then [] else [answers[n]])
    }

    /** The drafts are those of the batch, given what was downloaded for it. */
    ghost predicate ComposedFrom(chosen: seq<Message>, answers: seq<Download>, drafts: seq<Composer.Draft>) {
      |answers| == |chosen| && Made(chosen, Collected(chosen, answers), drafts)
    }

    /** The parts stand for the drafts. */
    ghost predicate StandFor(parts: seq<Part>, drafts: seq<Composer.Draft>) {
      |parts| == |drafts| && forall i :: 0 <= i < |parts| ==> parts[i].ids == IdsOf(drafts[i].group)
    }

    /** What is sent of a batch are its drafts, in order, composed of the messages fetched and of what was
        downloaded for them. */
    method SendBatch(b: Batch, chosen: seq<Message>, ghost ds: seq<DialogRef>)
      returns (next: Outcome, ghost answers: seq<Download>, ghost drafts: seq<Composer.Draft>)
      requires Valid() && st.pc == Downloading(b, 0, ds) && b.sel != [] && Matches(b.sel, chosen) && FromFetch(chosen)
      modifies this`st, this`log, this`said, store, ports
      ensures Valid() && Went(old(log), old(st), next.Escapes?)
      ensures st.pc == if next.GoesOn? then AtDialog(ds) else Idle
      ensures old(ports.mails) <= ports.mails <= old(ports.mails) + drafts
      ensures drafts == [] || ComposedFrom(chosen, answers, drafts)
      ensures drafts == [] || ports.downloads == old(ports.downloads) + WithMedia(chosen, answers)
    {
      var parts, made, stopped;
      parts, made, stopped, answers := PrepareParts(b, chosen, ds);
      if parts.None? { return stopped, answers, []; }
      drafts := made;
      next := HandOver(b, parts.value, made, ds);
    }

    method HandOver(b: Batch, parts: seq<Part>, drafts: seq<Composer.Draft>, ghost ds: seq<DialogRef>)
      returns (next: Outcome)
      requires Valid() && st.pc == Sending(b, parts, 0, ds) && StandFor(parts, drafts)
      modifies this`st, this`log, this`said, store, ports`o, ports`heard, ports`mails
      ensures Valid() && Went(old(log), old(st), next.Escapes?)
      ensures st.pc == if next.GoesOn? then AtDialog(ds) else Idle
      ensures old(ports.mails) <= ports.mails <= old(ports.mails) + drafts
    {
      ghost var r;
      next, r := SendParts(b, parts, drafts, ds);
    }

    method PrepareParts(b: Batch, chosen: seq<Message>, ghost ds: seq<DialogRef>)
      returns (parts: Option<seq<Part>>, drafts: seq<Composer.Draft>, stopped: Outcome, ghost answers: seq<Download>)
      requires Valid() && st.pc == Downloading(b, 0, ds) && b.sel != [] && Matches(b.sel, chosen) && FromFetch(chosen)
      modifies this`st, this`log, this`said, store, ports`o, ports`issued, ports`heard, ports`downloads
      ensures Valid() && Went(old(log), old(st), parts.None? && stopped.Escapes?)
      ensures st.pc == if parts.Some? then Sending(b, parts.value, 0, ds)
                       else if stopped.GoesOn? then AtDialog(ds) else Idle
      ensures parts.None? || (ComposedFrom(chosen, answers, drafts) && StandFor(parts.value, drafts))
      ensures parts.None? || ports.downloads == old(ports.downloads) + WithMedia(chosen, answers)
    {
      drafts := [];
      var media, leftOff;
      media, leftOff, answers := DownloadAll(b, chosen, ds);
      if leftOff.Some? { return None, drafts, leftOff.value, answers; }
      parts, drafts := ComposeParts(b, chosen, media, ds);
      stopped := Escapes;
    }

    /** An exception nobody handles, without a step of its own. */
    ghost method Die()
      requires Ran() && (st.pc.Downloading? || st.pc.Sending?)
      modifies this`st, this`log, this`said
      ensures Ran() && Went(old(log), old(st), true) && st.pc == Idle
      ensures st.t == old(st).t && st.o == old(st).o && st.h.mids == old(st).h.mids && said == old(said)
    {
      Advance(Crash);
    }

    /** The mails of the batch, or none when one cannot be made small enough or lacks its file. */
    method ComposeParts(b: Batch, chosen: seq<Message>, media: Composer.Media, ghost ds: seq<DialogRef>)
      returns (parts: Option<seq<Part>>, drafts: seq<Composer.Draft>)
      requires Valid() && st.pc == Downloading(b, |b.sel|, ds) && b.sel != [] && Matches(b.sel, chosen)
      modifies this`st, this`log, this`said, ports`issued
      ensures Valid() && Went(old(log), old(st), parts.None?)
      ensures st.pc == if parts.Some? then Sending(b, parts.value, 0, ds) else Idle
      ensures parts.None? || (Made(chosen, media, drafts) && StandFor(parts.value, drafts))
      ensures parts.Some? || CannotBeMade(chosen, media)
    {
      var made;
      made, drafts := ComposeDrafts(chosen, media);
      if !made {
        Die();
        return None, [];
      }
      var addressed := AddressAndStart(b, chosen, media, drafts, ds);
      parts := Some(addressed);
    }

    method AddressAndStart(b: Batch, ghost chosen: seq<Message>, ghost media: Composer.Media,
                           drafts: seq<Composer.Draft>, ghost ds: seq<DialogRef>)
      returns (parts: seq<Part>)
      requires Valid() && st.pc == Downloading(b, |b.sel|, ds) && b.sel != [] && Matches(b.sel, chosen)
      requires Made(chosen, media, drafts)
      modifies this`st, this`log, this`said, ports`issued
      ensures Valid() && Went(old(log), old(st), false) && st.pc == Sending(b, parts, 0, ds) && StandFor(parts, drafts)
    {
      parts := Address(b, chosen, media, drafts);
      StartSending(b, parts, ds);
    }

    ghost predicate Made(chosen: seq<Message>, media: Composer.Media, drafts: seq<Composer.Draft>) {
      && Composer.Halved(settings, media, chosen, Composer.Groups(drafts))
      && Composer.Numbered(settings, media, drafts, |drafts|)
    }

    /** A single message too large even without its attachments, or a message whose file is gone. */
    ghost predicate CannotBeMade(chosen: seq<Message>, media: Composer.Media) {
      Composer.SomeTooLargeBare(settings, media, chosen) || Composer.SomeLacksFile(settings, media, chosen)
    }

    method ComposeDrafts(chosen: seq<Message>, media: Composer.Media) returns (made: bool, drafts: seq<Composer.Draft>)
      requires chosen != []
      ensures if made then Made(chosen, media, drafts) else CannotBeMade(chosen, media)
    {
      var composed := Composer.ComposeBatch(settings, chosen, media);
      made := composed.Drafts?;
      drafts := if composed.Drafts? then composed.drafts else [];
    }

    ghost method StartSending(b: Batch, parts: seq<Part>, ds: seq<DialogRef>)
      requires Ran() && st.pc == Downloading(b, |b.sel|, ds) && Composes(st, b.sel, parts)
      modifies this`st, this`log, this`said
      ensures Ran() && Went(old(log), old(st), false) && said == old(said) && st.pc == Sending(b, parts, 0, ds)
      ensures st.t == old(st).t && st.o == old(st).o && st.h.mids == old(st).h.mids + Mids(parts)
    {
      Advance(Protocol.Delivery(Compose(parts)));
    }

    predicate Last(answers: seq<Download>, r: Download) { answers != [] && answers[|answers| - 1] == r }

    /** The answers came for those of the messages with media, and what they give was stored. */
    ghost predicate Gathered(before: seq<Download>, now: seq<Download>, ms: seq<Message>, answers: seq<Download>,
                             media: Composer.Media)
    {
      && |answers| == |ms| && media == Collected(ms, answers) && now == before + WithMedia(ms, answers)
      && forall a :: a in answers ==> a.Got? || a.Unavailable?
    }

    /** What came for the selected messages, with stand-ins for what could not be had, or the reason to leave off. */
    method DownloadAll(b: Batch, chosen: seq<Message>, ghost ds: seq<DialogRef>)
      returns (media: Composer.Media, stopped: Option<Outcome>, ghost answers: seq<Download>)
      requires Valid() && st.pc == Downloading(b, 0, ds) && Matches(b.sel, chosen)
      modifies this`st, this`log, this`said, store, ports`o, ports`issued, ports`heard, ports`downloads
      ensures Valid() && Went(old(log), old(st), stopped == Some(Escapes))
      ensures stopped.None? ==> st.pc == Downloading(b, |b.sel|, ds)
      ensures stopped.None? || exists r :: Last(ports.downloads, r) && NotHad(old(store.db), b.d, r, stopped.value)
      ensures stopped.None? ==> Gathered(old(ports.downloads), ports.downloads, chosen, answers, media)
      ensures stopped.Some? ==> st.pc == if stopped.value.GoesOn? then AtDialog(ds) else Idle
    {
      media, answers := map[], [];
      for k := 0 to |chosen|
        invariant Valid() && st.pc == Downloading(b, k, ds) && Went(old(log), old(st), false)
        invariant Gathered(old(ports.downloads), ports.downloads, chosen[..k], answers, media)
        invariant store.db == old(store.db)
      {
        ghost var earlier, was := ports.downloads, media;
        var answer;
        media, stopped, answer := DownloadOne(b, k, chosen[k], media, ds);
        if stopped.Some? { return; }
        OneMoreAnswer(old(ports.downloads), earlier, chosen, k, answers, answer, was);
        answers := answers + [answer];
      }
      assert chosen[..|chosen|] == chosen;
      stopped := None;
    }

    lemma {:induction false} OneMoreAnswer(before: seq<Download>, now: seq<Download>, ms: seq<Message>, k: nat,
                                           answers: seq<Download>, a: Download, media: Composer.Media)
      requires k < |ms| && (a.Got? || a.Unavailable?) && Gathered(before, now, ms[..k], answers, media)
      ensures Gathered(before, now + (if ms[k].media == [] then [] else [a]), ms[..k + 1], answers + [a],
                       if ms[k].media == [] then media else media[ms[k].id := Stored(ms[k], a)])
    {
      assert ms[..k + 1][..k] == ms[..k] && (answers + [a])[..k] == answers;
    }

    method DownloadOne(b: Batch, ghost k: nat, m: Message, before: Composer.Media, ghost ds: seq<DialogRef>)
      returns (media: Composer.Media, stopped: Option<Outcome>, answer: Download)
      requires Valid() && st.pc == Downloading(b, k, ds) && k < |b.sel|
      requires m.id == b.sel[k].id && (m.media != [] <==> b.sel[k].media)
      modifies this`st, this`log, this`said, store, ports`o, ports`issued, ports`heard, ports`downloads
      ensures stopped.None? ==>
                && ports.downloads == old(ports.downloads) + (if m.media == [] then [] else [answer])
                && store.db == old(store.db)
      ensures stopped.None? || (Last(ports.downloads, answer) && NotHad(old(store.db), b.d, answer, stopped.value))
      ensures Valid() && Went(old(log), old(st), stopped == Some(Escapes))
      ensures stopped.None? ==> st.pc == Downloading(b, k + 1, ds) && (answer.Got? || answer.Unavailable?)
      ensures stopped.None? ==> media == if m.media == [] then before else before[m.id := Stored(m, answer)]
      ensures stopped.Some? ==> st.pc == if stopped.value.GoesOn? then AtDialog(ds) else Idle
    {
      media, stopped, answer := before, None, Unavailable;
      if m.media == [] {
        Advance(Protocol.Delivery(DownloadOk));
        return;
      }
      answer, stopped := FetchMedia(b, k, m, ds);
      if stopped.None? { media := before[m.id := if answer.Got? then answer.files else Placeholders(m.media)]; }
    }

    method FetchMedia(b: Batch, ghost k: nat, m: Message, ghost ds: seq<DialogRef>)
      returns (answer: Download, stopped: Option<Outcome>)
      requires Valid() && st.pc == Downloading(b, k, ds) && k < |b.sel| && b.sel[k].media && m.id == b.sel[k].id
      modifies this`st, this`log, this`said, store, ports`o, ports`issued, ports`heard, ports`downloads
      ensures Valid() && Went(old(log), old(st), stopped == Some(Escapes))
      ensures stopped.None? ==> st.pc == Downloading(b, k + 1, ds) && (answer.Got? || answer.Unavailable?)
      ensures ports.downloads == old(ports.downloads) + [answer]
      ensures stopped.None? ==> store.db == old(store.db)
      ensures stopped.None? || NotHad(old(store.db), b.d, answer, stopped.value)
      ensures stopped.Some? ==> st.pc == if stopped.value.GoesOn? then AtDialog(ds) else Idle
    {
      answer := AskForMedia(b, k, m, ds);
      stopped := None;
      if !answer.Got? && !answer.Unavailable? {
        var next := GiveUpDownload(b, k, answer, ds);
        stopped := Some(next);
      }
    }

    function AfterDownload(b: Batch, k: nat, r: Download, ds: seq<DialogRef>): Pc {
      match r
      case Got(_) => Downloading(b, k + 1, ds)
      case Unavailable => Downloading(b, k + 1, ds)
      case DownloadLost => Invalidating(ToIdle)
      case MessageGone => AtDialog(ds)
      case DownloadFailed(e) => DialogFailed(b.d, e, ds)
    }

    method AskForMedia(b: Batch, ghost k: nat, m: Message, ghost ds: seq<DialogRef>) returns (r: Download)
      requires Valid() && st.pc == Downloading(b, k, ds) && k < |b.sel| && b.sel[k].media && m.id == b.sel[k].id
      modifies this`st, this`log, this`said, ports`o, ports`heard, ports`downloads
      ensures Valid() && Went(old(log), old(st), false) && st.pc == AfterDownload(b, k, r, ds)
      ensures ports.downloads == old(ports.downloads) + [r]
    {
      Pause();
      r := ports.DownloadMedia(m);
      LogDownload(r);
    }

    ghost method LogDownload(r: Download)
      requires Ran() && st.pc.Downloading? && st.pc.k < |st.pc.batch.sel| && st.pc.batch.sel[st.pc.k].media
      modifies this`st, this`log, this`said
      ensures Ran() && Went(old(log), old(st), false) && st == old(st).(pc := st.pc)
      ensures said == old(said) + [ToDownload(old(st).pc.batch.sel[old(st).pc.k].id, DownloadAnswer(r))]
      ensures st.pc == AfterDownload(old(st).pc.batch, old(st).pc.k, r, old(st).pc.ds)
    {
      Advance(Protocol.Delivery(DownloadAnswer(r)));
    }

    /** What becomes of the tables when a download ends the dialog's turn. */
    ghost predicate NotHad(before: Tables, d: DialogRef, r: Download, next: Outcome) reads store, ports {
      match r
      case DownloadLost => !next.GoesOn? && !store.db.valid && SessionOnly(before)
      case MessageGone => next.GoesOn? && store.db == before
      case DownloadFailed(e) => next.GoesOn? && FailureNoted(before, TgDialog(d.id), e)
      case _ => false
    }

    method GiveUpDownload(b: Batch, ghost k: nat, r: Download, ghost ds: seq<DialogRef>) returns (next: Outcome)
      requires Valid() && !r.Got? && !r.Unavailable?
      requires st.pc == AfterDownload(b, k, r, ds)
      modifies this`st, this`log, this`said, store, ports`o, ports`issued, ports`heard
      ensures Valid() && Went(old(log), old(st), next.Escapes?)
      ensures st.pc == if next.GoesOn? then AtDialog(ds) else Idle
      ensures NotHad(old(store.db), b.d, r, next)
    {
      match r
      case DownloadLost =>
        next := LoseSession();
      case MessageGone =>
        next := GoesOn;
      case DownloadFailed(e) =>
        FailDialog(b.d, e, ds);
        next := GoesOn;
    }

    function IdsOf(ms: seq<Message>): seq<int> {
      seq(|ms|, i requires 0 <= i < |ms| => ms[i].id)
    }

    lemma {:induction false} MatchingIds(items: seq<Item>, ms: seq<Message>)
      requires Matches(items, ms)
      ensures Ids(items) == IdsOf(ms)
    {
      if items != [] {
        MatchingIds(items[1..], ms[1..]);
        assert ms == [ms[0]] + ms[1..];
      }
    }

    lemma {:induction false} PartsOfGroups(parts: seq<Part>, groups: seq<seq<Message>>)
      requires |parts| == |groups| && forall i :: 0 <= i < |parts| ==> parts[i].ids == IdsOf(groups[i])
      ensures PartIds(parts) == IdsOf(Flatten(groups))
      decreases |parts|
    {
      if parts != [] {
        PartsOfGroups(parts[1..], groups[1..]);
        assert IdsOf(groups[0] + Flatten(groups[1..])) == IdsOf(groups[0]) + IdsOf(Flatten(groups[1..]));
      }
    }

    /** A fresh Message-ID for every draft; together the drafts hold the batch. */
    method Address(ghost b: Batch, ghost chosen: seq<Message>, ghost media: Composer.Media, drafts: seq<Composer.Draft>)
      returns (parts: seq<Part>)
      requires Valid() && Matches(b.sel, chosen) && b.sel != []
      requires Made(chosen, media, drafts)
      modifies ports`issued
      ensures Composes(st, b.sel, parts) && ports.issued == st.h.mids + Mids(parts) && StandFor(parts, drafts)
    {
      parts := [];
      for k := 0 to |drafts|
        invariant Numbered(st, drafts, parts, k, ports.issued)
      {
        var mid := ports.NewId();
        OneMoreNumbered(st, drafts, parts, k, ports.issued - {mid}, mid);
        parts := parts + [Part(mid, IdsOf(drafts[k].group))];
      }
      NumberedMakeUp(st, b.sel, chosen, media, drafts, parts, ports.issued);
    }

    /** The first drafts have their parts, each with a Message-ID of its own that is fresh; no other was issued. */
    ghost predicate Numbered(s: State, drafts: seq<Composer.Draft>, parts: seq<Part>, k: nat, issued: set<Mid>) {
      && |parts| == k <= |drafts| && issued == s.h.mids + Mids(parts)
      && (forall i :: 0 <= i < k ==> parts[i].ids == IdsOf(drafts[i].group) && Fresh(s, parts[i].mid))
      && (forall i, j :: 0 <= i < j < k ==> parts[i].mid != parts[j].mid)
    }

    lemma {:induction false} OneMoreNumbered(s: State, drafts: seq<Composer.Draft>, parts: seq<Part>, k: nat,
                                             issued: set<Mid>, mid: Mid)
      requires Numbered(s, drafts, parts, k, issued) && k < |drafts| && Unused(s.o, issued, mid)
      ensures Numbered(s, drafts, parts + [Part(mid, IdsOf(drafts[k].group))], k + 1, issued + {mid})
    {
      MidsSnoc(parts, Part(mid, IdsOf(drafts[k].group)));
    }

    lemma {:induction false} NumberedMakeUp(s: State, sel: seq<Item>, chosen: seq<Message>, media: Composer.Media,
                                            drafts: seq<Composer.Draft>, parts: seq<Part>, issued: set<Mid>)
      requires Numbered(s, drafts, parts, |drafts|, issued) && Matches(sel, chosen) && sel != []
      requires Composer.Halved(settings, media, chosen, Composer.Groups(drafts))
      ensures Composes(s, sel, parts) && issued == s.h.mids + Mids(parts) && StandFor(parts, drafts)
    {
      PartsMakeUp(sel, chosen, media, Composer.Groups(drafts), parts);
    }

    /** Parts with the ids of the groups hold exactly the batch. */
    lemma {:induction false} PartsMakeUp(sel: seq<Item>, chosen: seq<Message>, media: Composer.Media,
                                         groups: seq<seq<Message>>, parts: seq<Part>)
      requires Matches(sel, chosen) && sel != [] && Composer.Halved(settings, media, chosen, groups)
      requires |parts| == |groups| && forall i :: 0 <= i < |parts| ==> parts[i].ids == IdsOf(groups[i])
      ensures PartIds(parts) == Ids(sel) && forall i :: 0 <= i < |parts| ==> parts[i].ids != []
    {
      Composer.HalvedPartitions(settings, media, chosen, groups);
      PartsOfGroups(parts, groups);
      MatchingIds(sel, chosen);
      forall i | 0 <= i < |parts| ensures parts[i].ids != [] {
        assert groups[i] in groups;
      }
    }

    lemma {:induction false} MidsSnoc(parts: seq<Part>, p: Part)
      ensures Mids(parts + [p]) == Mids(parts) + {p.mid}
      ensures forall i :: 0 <= i < |parts| ==> parts[i].mid in Mids(parts)
    {
      var longer := parts + [p];
      forall i | 0 <= i < |parts| ensures parts[i].mid in Mids(longer) {
        assert longer[i] == parts[i];
      }
      assert longer[|parts|] == p;
    }

    /** SMTP took the parts, one by one. */
    function Takens(dialog: string, parts: seq<Part>): seq<Answer> {
      seq(|parts|, i requires 0 <= i < |parts| => ToSend(Delivered(dialog, parts[i]), Taken, true))
    }

    /** The parts up to one were taken, and that one was answered so. */
    ghost predicate TakenUpTo(before: seq<Answer>, dialog: string, parts: seq<Part>, r: Sending) reads ports {
      exists n: nat, accepted: bool :: n < |parts| && ports.heard == Through(before, dialog, parts, n, r, accepted)
    }

    function Through(before: seq<Answer>, dialog: string, parts: seq<Part>, n: nat, r: Sending, accepted: bool)
      : seq<Answer>
      requires n < |parts|
    {
      before + Takens(dialog, parts[..n]) + [ToSend(Delivered(dialog, parts[n]), r, accepted)]
    }

    /** The parts in order. Ledger and cursor change only if SMTP took every one of them, in one step; a part put
        off leaves the tables as they were but for the dialog's backoff. */
    method SendParts(b: Batch, parts: seq<Part>, drafts: seq<Composer.Draft>, ghost ds: seq<DialogRef>)
      returns (next: Outcome, ghost r: Sending)
      requires Valid() && st.pc == Sending(b, parts, 0, ds) && StandFor(parts, drafts)
      modifies this`st, this`log, this`said, store, ports`o, ports`heard, ports`mails
      ensures Valid() && Went(old(log), old(st), next.Escapes?)
      ensures st.pc == if next.GoesOn? then AtDialog(ds) else Idle
      ensures old(ports.mails) <= ports.mails <= old(ports.mails) + drafts
      ensures if r.Taken? then ports.heard == old(ports.heard) + Takens(b.d.id, parts)
              else TakenUpTo(old(ports.heard), b.d.id, parts, r)
      ensures r.Taken? ==> Booked(old(store.db), b, parts, next) && ports.mails == old(ports.mails) + drafts
      ensures r.Deferred? ==>
                next.GoesOn? && FailureNoted(old(store.db), TgDialog(b.d.id), Transient)
                && store.db.cursors == old(store.db.cursors) && store.db.ledger == old(store.db.ledger)
      ensures r.Refused? ==> next.Escapes? && store.db == old(store.db)
    {
      var sent, answer := SendAll(b, parts, drafts, ds);
      r := answer;
      next := SettleParts(b, parts, sent, answer, ds);
    }

    method SettleParts(b: Batch, ghost parts: seq<Part>, sent: seq<Sent>, r: Sending, ghost ds: seq<DialogRef>)
      returns (next: Outcome)
      requires Valid() && st.pc == AfterPart(b, parts, |parts|, ds, r) && (r.Taken? ==> sent == Sents(parts, b.d.id))
      modifies this`st, this`log, this`said, store, ports`o
      ensures Valid() && Went(old(log), old(st), next.Escapes? && r.Taken?) && said == old(said)
      ensures st.pc == if next.GoesOn? then AtDialog(ds) else Idle
      ensures match r
              case Taken => Booked(old(store.db), b, parts, next)
              case Deferred => next.GoesOn? && FailureNoted(old(store.db), TgDialog(b.d.id), Transient)
              case Refused => next.Escapes? && store.db == old(store.db)
    {
      if r.Taken? {
        next := CommitParts(b, parts, sent, ds);
      } else {
        next := LeaveOff(b.d, r, ds);
      }
    }

    /** The delivery is in the tables, its dialog's backoff cleared; or the transaction raised and nothing is. */
    ghost predicate Booked(before: Tables, b: Batch, parts: seq<Part>, next: Outcome) reads store, ports {
      match CommitDelivery(before, b.d, Sents(parts, b.d.id), b.high, ports.o.now)
      case Some(t) => next.GoesOn? && store.db == ClearBackoff(t, TgDialog(b.d.id))
      case None => next.Escapes? && store.db == before
    }

    /** The first parts were taken, and their drafts handed over. */
    ghost predicate Handed(before: seq<Answer>, mailsBefore: seq<Composer.Draft>, heard: seq<Answer>,
                           mails: seq<Composer.Draft>, dialog: string, parts: seq<Part>, drafts: seq<Composer.Draft>,
                           k: nat)
      requires k <= |parts| == |drafts|
    {
      heard == before + Takens(dialog, parts[..k]) && mails == mailsBefore + drafts[..k]
    }

    method SendAll(b: Batch, parts: seq<Part>, drafts: seq<Composer.Draft>, ghost ds: seq<DialogRef>)
      returns (sent: seq<Sent>, r: Sending)
      requires Valid() && st.pc == Sending(b, parts, 0, ds) && StandFor(parts, drafts)
      modifies this`st, this`log, this`said, ports`o, ports`heard, ports`mails
      ensures Valid() && Went(old(log), old(st), r.Refused?)
      ensures st.pc == AfterPart(b, parts, |parts|, ds, r)
      ensures old(ports.mails) <= ports.mails <= old(ports.mails) + drafts
      ensures if r.Taken? then ports.heard == old(ports.heard) + Takens(b.d.id, parts)
              else TakenUpTo(old(ports.heard), b.d.id, parts, r)
      ensures r.Taken? ==> ports.mails == old(ports.mails) + drafts && sent == Sents(parts, b.d.id)
    {
      sent, r := [], Taken;
      for k := 0 to |parts|
        invariant Valid() && st.pc == Sending(b, parts, k, ds) && Went(old(log), old(st), false) && r.Taken?
        invariant sent == Sents(parts[..k], b.d.id)
        invariant Handed(old(ports.heard), old(ports.mails), ports.heard, ports.mails, b.d.id, parts, drafts, k)
      {
        ghost var accepted, heard, mails := true, ports.heard, ports.mails;
        r, accepted := SendPart(b, parts, k, drafts[k], ds);
        OneMoreHanded(old(ports.heard), old(ports.mails), heard, mails, b.d.id, parts, drafts, k, r, accepted);
        if !r.Taken? { return; }
        sent := sent + [Sent(parts[k].mid, b.d.id)];
      }
      assert parts[..|parts|] == parts && drafts[..|drafts|] == drafts;
    }

    lemma {:induction false} OneMoreHanded(before: seq<Answer>, mailsBefore: seq<Composer.Draft>, heard: seq<Answer>,
                                           mails: seq<Composer.Draft>, dialog: string, parts: seq<Part>,
                                           drafts: seq<Composer.Draft>, k: nat, r: Sending, accepted: bool)
      requires k < |parts| == |drafts| && Handed(before, mailsBefore, heard, mails, dialog, parts, drafts, k)
      requires r.Taken? ==> accepted
      ensures var more := heard + [ToSend(Delivered(dialog, parts[k]), r, accepted)];
              && more == Through(before, dialog, parts, k, r, accepted)
              && (r.Taken? ==>
                    Handed(before, mailsBefore, more, mails + [drafts[k]], dialog, parts, drafts, k + 1))
      ensures mailsBefore <= mails + [drafts[k]] <= mailsBefore + drafts
      ensures Sents(parts[..k + 1], dialog) == Sents(parts[..k], dialog) + [Sent(parts[k].mid, dialog)]
    {
      assert parts[..k + 1] == parts[..k] + [parts[k]] && drafts[..k + 1] == drafts[..k] + [drafts[k]] <= drafts;
      SentsSnoc(parts[..k], parts[k], dialog);
      assert Takens(dialog, parts[..k + 1])
          == Takens(dialog, parts[..k]) + [ToSend(Delivered(dialog, parts[k]), Taken, true)];
    }

    function AfterPart(b: Batch, parts: seq<Part>, k: nat, ds: seq<DialogRef>, r: Sending): Pc {
      match r
      case Taken => Sending(b, parts, k, ds)
      case Deferred => DialogFailed(b.d, Transient, ds)
      case Refused => Idle
    }

    method LeaveOff(d: DialogRef, r: Sending, ghost ds: seq<DialogRef>) returns (next: Outcome)
      requires Valid() && !r.Taken? && st.pc == if r.Deferred? then DialogFailed(d, Transient, ds) else Idle
      modifies this`st, this`log, this`said, store
      ensures Valid() && Went(old(log), old(st), false)
      ensures (next.Escapes? <==> r.Refused?) && st.pc == if next.GoesOn? then AtDialog(ds) else Idle
      ensures if r.Refused? then store.db == old(store.db)
              else next.GoesOn? && FailureNoted(old(store.db), TgDialog(d.id), Transient)
    {
      if r.Refused? { return Escapes; }
      FailDialog(d, Transient, ds);
      next := GoesOn;
    }

    lemma {:induction false} SentsSnoc(parts: seq<Part>, p: Part, dialog: string)
      ensures Sents(parts + [p], dialog) == Sents(parts, dialog) + [Sent(p.mid, dialog)]
      decreases |parts|
    {
      if parts == [] {
        assert parts + [p] == [p];
      } else {
        assert (parts + [p])[1..] == parts[1..] + [p];
        SentsSnoc(parts[1..], p, dialog);
      }
    }

    method SendPart(b: Batch, parts: seq<Part>, k: nat, draft: Composer.Draft, ghost ds: seq<DialogRef>)
      returns (r: Sending, ghost accepted: bool)
      requires Valid() && st.pc == Sending(b, parts, k, ds) && k < |parts|
      modifies this`st, this`log, this`said, ports`o, ports`heard, ports`mails
      ensures Valid() && Went(old(log), old(st), r.Refused?) && st.pc == AfterPart(b, parts, k + 1, ds, r)
      ensures ports.heard == old(ports.heard) + [ToSend(Delivered(b.d.id, parts[k]), r, accepted)]
      ensures ports.mails == old(ports.mails) + [draft] && (r.Taken? ==> accepted)
    {
      Pause();
      r, accepted := ports.SendDraft(b.d.id, parts[k], draft);
      LogPart(b, parts, k, r, accepted, ds);
    }

    ghost method LogPart(b: Batch, parts: seq<Part>, k: nat, r: Sending, accepted: bool, ds: seq<DialogRef>)
      requires Ran() && st.pc == Sending(b, parts, k, ds) && k < |parts| && (r.Taken? ==> accepted)
      modifies this`st, this`log, this`said
      ensures Ran() && Went(old(log), old(st), r.Refused?) && st.pc == AfterPart(b, parts, k + 1, ds, r)
      ensures said == old(said) + [ToSend(Delivered(b.d.id, parts[k]), r, accepted)]
      ensures st.t == old(st).t && st.o == old(st).o && st.h.mids == old(st).h.mids
    {
      match r
      case Taken => Advance(Protocol.Delivery(SendOk));
      case Deferred => Advance(Protocol.Delivery(SendFails(accepted)));
      case Refused => Advance(Protocol.Delivery(SendEscapes(accepted)));
    }

    method CommitParts(b: Batch, ghost parts: seq<Part>, sent: seq<Sent>, ghost ds: seq<DialogRef>)
      returns (next: Outcome)
      requires Valid() && st.pc == Sending(b, parts, |parts|, ds) && sent == Sents(parts, b.d.id)
      modifies this`st, this`log, this`said, store, ports`o
      ensures Valid() && Went(old(log), old(st), next.Escapes?) && said == old(said)
      ensures st.pc == if next.GoesOn? then AtDialog(ds) else Idle
      ensures Booked(old(store.db), b, parts, next)
    {
      Pause();
      var ok := CommitNow(b, parts, sent, ds);
      if !ok { return Escapes; }
      ClearDialogBackoff(b.d, ds);
      next := GoesOn;
    }

    method CommitNow(b: Batch, ghost parts: seq<Part>, sent: seq<Sent>, ghost ds: seq<DialogRef>) returns (ok: bool)
      requires Valid() && st.pc == Sending(b, parts, |parts|, ds) && sent == Sents(parts, b.d.id)
      modifies this`st, this`log, this`said, store
      ensures Valid() && Went(old(log), old(st), !ok)
      ensures st.pc == if ok then Clearing(b.d, ds) else Idle
      ensures var t := CommitDelivery(old(store.db), b.d, sent, b.high, ports.o.now);
              ok == t.Some? && store.db == if ok then t.value else old(store.db)
    {
      ok := store.CommitDelivery(b.d, sent, b.high, ports.o.now);
      Advance(Protocol.Delivery(Commit));
    }

    // ---------------------------------------------------------------- run_mailbox_cycle

    /** Nothing happens unless polling is due; otherwise the mailbox is polled and the cycle runs to its end
        unless an exception escapes. */
    method RunMailboxCycle() returns (escaped: bool, ghost steps: seq<Action>)
      requires Valid() && st.pc.Idle?
      modifies this`st, this`log, this`said, store, ports
      ensures Valid() && st.pc.Idle? && log == old(log) + steps
      ensures Legal(c, old(st), steps) && After(c, old(st), steps) == st
      ensures MailboxRound(c, old(st), steps, escaped)
    {
      var due := IsDue(MailPoll);
      if !due { return false, []; }
      ghost var polling;
      escaped, polling := PollAndWork();
      steps := log[|old(log)|..];
      LegalSince(c, start, old(log), old(st), old(said), log, st, said);
      MailboxRounds(c, start, old(log), log, escaped);
    }

    /** A failing poll is noted as such and ends the cycle. */
    method PollAndWork() returns (escaped: bool, ghost polling: Polling)
      requires Valid() && st.pc.Idle? && Due(store.db, MailPoll, ports.o.now)
      modifies this`st, this`log, this`said, store, ports
      ensures Valid() && st.pc.Idle?
      ensures Started(old(log), old(st), escaped) && Polls(log[|old(log)|])
      ensures old(ports.heard) + [ToPoll(polling)] <= ports.heard
      ensures polling.PollingFailed? ==> !escaped && FailureNoted(old(store.db), MailPoll, Transient)
    {
      var answer := ports.Poll();
      polling := answer;
      match answer
      case PollingFailed =>
        FailPoll();
        escaped := false;
      case Mails(ms) => escaped := WorkAll(ms);
    }

    method WorkAll(ms: seq<Mail>) returns (escaped: bool)
      requires Owes(ToPoll(Mails(ms))) && st.pc.Idle? && Due(store.db, MailPoll, ports.o.now) && FromInbox(ports.o, ms)
      modifies this`st, this`log, this`said, store, ports
      ensures Valid() && st.pc.Idle? && old(ports.heard) <= ports.heard
      ensures Started(old(log), old(st), escaped) && Polls(log[|old(log)|])
    {
      OpenMails(ms);
      ghost var before, was, asked := log, st, said;
      escaped := WorkThrough(ms);
      LeadsFurther(c, start, before, was, asked, log, st, said);
    }

    method WorkThrough(ms: seq<Mail>) returns (escaped: bool)
      requires Valid() && st.pc == AtMail(ms)
      modifies this`st, this`log, this`said, store, ports
      ensures Valid() && st.pc.Idle? && Went(old(log), old(st), escaped)
    {
      escaped := HandleMails(ms);
      if !escaped { escaped := FlushNotices(); }
    }

    method OpenMails(ms: seq<Mail>)
      requires Owes(ToPoll(Mails(ms))) && st.pc.Idle? && Due(store.db, MailPoll, ports.o.now) && FromInbox(ports.o, ms)
      modifies this`st, this`log, this`said, store
      ensures Valid() && st.pc == AtMail(ms) && log == old(log) + [Mailbox(PollOk(ms)), Mailbox(ClearPoll)]
      ensures Started(old(log), old(st), false)
    {
      Advance(Mailbox(PollOk(ms)));
      store.ClearBackoff(MailPoll);
      Advance(Mailbox(ClearPoll));
    }

    method FailPoll()
      requires Owes(ToPoll(PollingFailed)) && st.pc.Idle? && Due(store.db, MailPoll, ports.o.now)
      modifies this`st, this`log, this`said, store
      ensures Valid() && st.pc.Idle?
      ensures |log| == |old(log)| + 2 && log[..|old(log)| + 1] == old(log) + [Mailbox(PollFails)]
      ensures FailureNoted(old(store.db), MailPoll, Transient)
      ensures Started(old(log), old(st), false)
    {
      Advance(Mailbox(PollFails));
      var draw := RecordFailure(MailPoll, Transient);
      Advance(Mailbox(NotePollFailure(draw)));
    }

    method HandleMails(ms: seq<Mail>) returns (escaped: bool)
      requires Valid() && st.pc == AtMail(ms)
      modifies this`st, this`log, this`said, store, ports
      ensures Valid() && Went(old(log), old(st), escaped)
      ensures st.pc == if escaped then Idle else AtMail([])
    {
      assert ms[0..] == ms;
      for i := 0 to |ms|
        invariant Valid() && st.pc == AtMail(ms[i..]) && Went(old(log), old(st), false)
      {
        assert ms[i..][0] == ms[i] && ms[i..][1..] == ms[i + 1..];
        var next := HandleMail(ms[i], ms[i + 1..]);
        if !next.GoesOn? { return next.Escapes?; }
      }
      escaped := false;
    }

    function AfterMail(next: Outcome, ms: seq<Mail>): Pc {
      match next case GoesOn => AtMail(ms) case Stops => AtMail([]) case Escapes => Idle
    }

    method HandleMail(m: Mail, ghost ms: seq<Mail>) returns (next: Outcome)
      requires Valid() && st.pc.AtMail? && st.pc.ms != [] && st.pc.ms[0] == m && st.pc.ms[1..] == ms
      modifies this`st, this`log, this`said, store, ports
      ensures Valid() && Went(old(log), old(st), next.Escapes?) && st.pc == AfterMail(next, ms)
    {
      Pause();
      if m.ref in store.db.consumed || !m.trusted {
        Advance(Mailbox(SkipMail));
        return GoesOn;
      }
      if m.command.Some? {
        HandleCommand(m, ms);
        return GoesOn;
      }
      next := HandleReply(m, ms);
    }

    method HandleReply(m: Mail, ghost ms: seq<Mail>) returns (next: Outcome)
      requires Valid() && st.pc.AtMail? && st.pc.ms != [] && st.pc.ms[0] == m && st.pc.ms[1..] == ms
      requires m.ref !in store.db.consumed && m.trusted && m.command.None?
      modifies this`st, this`log, this`said, store, ports
      ensures Valid() && Went(old(log), old(st), next.Escapes?) && st.pc == AfterMail(next, ms)
    {
      var parent := store.LedgerDialog(m.parents);
      var allowed := DeliveryIsAllowed();
      if parent.None? || !allowed || m.empty {
        Advance(Mailbox(SkipMail));
        return GoesOn;
      }
      var due := IsDue(TgPost(parent.value));
      if !due {
        Advance(Mailbox(SkipMail));
        return GoesOn;
      }
      ghost var r;
      next, r := PostReply(m, parent.value, ms);
    }

    method HandleCommand(m: Mail, ghost ms: seq<Mail>)
      requires Valid() && st.pc.AtMail? && st.pc.ms != [] && st.pc.ms[0] == m && st.pc.ms[1..] == ms
      requires m.ref !in store.db.consumed && m.trusted && m.command.Some?
      modifies this`st, this`log, this`said, store
      ensures Valid() && Went(old(log), old(st), false) && st.pc == AtMail(ms)
    {
      var known := store.IsBridgeMessage(m.parents);
      if !known {
        Advance(Mailbox(SkipMail));
        return;
      }
      CarryOut(m, ms);
    }

    method CarryOut(m: Mail, ghost ms: seq<Mail>)
      requires Valid() && st.pc.AtMail? && st.pc.ms != [] && st.pc.ms[0] == m && st.pc.ms[1..] == ms
      requires Obeys(store.db, m)
      modifies this`st, this`log, this`said, store
      ensures Valid() && Went(old(log), old(st), false) && st.pc == AtMail(ms)
      ensures store.db == QueueNotice(SetEnabled(old(store.db), m.command.value, m.ref, ports.o.now),
                                      m.ref, m.command.value, ports.o.now)
    {
      store.SetBridgeEnabled(m.command.value, m.ref, ports.o.now);
      Advance(Mailbox(ApplyCommand));
      store.QueueNotice(m.ref, m.command.value, ports.o.now);
      Advance(Mailbox(Queue));
    }

    /** Telegram was asked to post the reply, and answered so. */
    ghost predicate PostAnswered(before: seq<Answer>, ref: Ref, parent: string, r: Post) reads ports {
      exists landed: Option<int> :: before + [ToPost(ref, parent, r, landed)] <= ports.heard
    }

    /** One call of Telegram. A reply answered with an id is recorded, its echo and its mark in one step; an answer
        that is an error leaves both as they were. */
    method PostReply(m: Mail, parent: string, ghost ms: seq<Mail>) returns (next: Outcome, ghost r: Post)
      requires Valid() && st.pc.AtMail? && st.pc.ms != [] && st.pc.ms[0] == m && st.pc.ms[1..] == ms
      requires Posts(store.db, m, ports.o.now) && Database.LedgerDialog(store.db, m.parents) == Some(parent)
      modifies this`st, this`log, this`said, store, ports
      ensures Valid() && Went(old(log), old(st), next.Escapes?) && st.pc == AfterMail(next, ms)
      ensures PostAnswered(old(ports.heard), m.ref, parent, r)
      ensures r.PostedAs? ==>
                && next.GoesOn? && (parent, r.id) in store.db.echoes && m.ref in store.db.consumed
                && store.db == Database.CommitReply(old(store.db), m.ref, parent, r.id, ports.o.now)
      ensures r.PostFailed? ==> next.GoesOn? && FailureNoted(old(store.db), TgPost(parent), r.e)
      ensures r.PostLost? ==> !next.GoesOn? && !store.db.valid && SessionOnly(old(store.db))
      ensures r.PostRefused? ==> next.Escapes? && store.db == old(store.db)
    {
      ghost var landed;
      var answer;
      answer, landed := CallPost(m, parent, ms);
      r := answer;
      ghost var called, was, asked := log, st, said;
      next := SettlePost(m.ref, parent, answer, ms);
      LeadsFurther(c, start, called, was, asked, log, st, said);
    }

    function AfterAnswer(ref: Ref, parent: string, r: Post, ms: seq<Mail>): Pc {
      match r
      case PostedAs(id) => Posted(ref, parent, id, ms)
      case PostLost => Invalidating(ToFlush)
      case PostFailed(e) => Pc.PostFailed(parent, e, ms)
      case PostRefused => Idle
    }

    method SettlePost(ref: Ref, parent: string, r: Post, ghost ms: seq<Mail>) returns (next: Outcome)
      requires Valid() && st.pc == AfterAnswer(ref, parent, r, ms)
      modifies this`st, this`log, this`said, store, ports
      ensures Valid() && Went(old(log), old(st), next.Escapes? && !r.PostRefused?) && st.pc == AfterMail(next, ms)
      ensures r.PostedAs? ==>
                && next.GoesOn? && (parent, r.id) in store.db.echoes && ref in store.db.consumed
                && store.db == Database.CommitReply(old(store.db), ref, parent, r.id, ports.o.now)
      ensures r.PostFailed? ==> next.GoesOn? && FailureNoted(old(store.db), TgPost(parent), r.e)
      ensures r.PostLost? ==> !next.GoesOn? && !store.db.valid && SessionOnly(old(store.db))
      ensures r.PostRefused? ==> next.Escapes? && store.db == old(store.db)
    {
      match r
      case PostedAs(id) =>
        CommitPosted(ref, parent, id, ms);
        next := GoesOn;
      case PostLost =>
        var escaped := InvalidateSession(ToFlush);
        next := if escaped then Escapes else Stops;
      case PostFailed(e) =>
        NotePost(parent, e, ms);
        next := GoesOn;
      case PostRefused =>
        next := Escapes;
    }

    method CallPost(m: Mail, parent: string, ghost ms: seq<Mail>) returns (r: Post, ghost landed: Option<int>)
      requires Valid() && st.pc.AtMail? && st.pc.ms != [] && st.pc.ms[0] == m && st.pc.ms[1..] == ms
      requires Posts(store.db, m, ports.o.now) && Database.LedgerDialog(store.db, m.parents) == Some(parent)
      modifies this`st, this`log, this`said, ports`o, ports`heard
      ensures Valid() && Went(old(log), old(st), r.PostRefused?) && st.pc == AfterAnswer(m.ref, parent, r, ms)
      ensures ports.heard == old(ports.heard) + [ToPost(m.ref, parent, r, landed)]
    {
      r, landed := ports.PostAsUser(parent, m);
      LogPost(r, landed, m.ref, parent, ms);
    }

    ghost method LogPost(r: Post, landed: Option<int>, ref: Ref, parent: string, ms: seq<Mail>)
      requires Ran() && Posting(st) && PostDialog(st) == parent && Lands(st, landed)
      requires st.pc.ms[0].ref == ref && st.pc.ms[1..] == ms && (r.PostedAs? ==> landed == Some(r.id))
      modifies this`st, this`log, this`said
      ensures Ran() && Went(old(log), old(st), r.PostRefused?) && st.pc == AfterAnswer(ref, parent, r, ms)
      ensures said == old(said) + [ToPost(ref, parent, r, landed)]
      ensures st.t == old(st).t && st.h.mids == old(st).h.mids
      ensures st.o == if landed.Some? then AddMessage(old(st).o, parent, landed.value) else old(st).o
    {
      if r.PostedAs? {
        Advance(Mailbox(PostOk(r.id)));
      } else {
        LogUnposted(r, landed, ref, parent, ms);
      }
    }

    /** An error, although the post may have landed. */
    ghost method LogUnposted(r: Post, landed: Option<int>, ref: Ref, parent: string, ms: seq<Mail>)
      requires Ran() && Posting(st) && PostDialog(st) == parent && Lands(st, landed)
      requires st.pc.ms[0].ref == ref && st.pc.ms[1..] == ms && !r.PostedAs?
      modifies this`st, this`log, this`said
      ensures Ran() && Went(old(log), old(st), r.PostRefused?) && st.pc == AfterAnswer(ref, parent, r, ms)
      ensures said == old(said) + [ToPost(ref, parent, r, landed)]
      ensures st.t == old(st).t && st.h.mids == old(st).h.mids
      ensures st.o == if landed.Some? then AddMessage(old(st).o, parent, landed.value) else old(st).o
    {
      match r
      case PostLost => Advance(Mailbox(PostInvalid(landed)));
      case PostFailed(e) => Advance(Mailbox(PostFails(e, landed)));
      case PostRefused => Advance(Mailbox(PostEscapes(landed)));
    }

    method CommitPosted(ref: Ref, parent: string, id: int, ghost ms: seq<Mail>)
      requires Valid() && st.pc == Posted(ref, parent, id, ms)
      modifies this`st, this`log, this`said, store
      ensures Valid() && Went(old(log), old(st), false) && st.pc == AtMail(ms)
      ensures store.db == Database.CommitReply(old(store.db), ref, parent, id, ports.o.now)
    {
      store.CommitReply(ref, parent, id, ports.o.now);
      Advance(Mailbox(CommitPost));
    }

    method NotePost(parent: string, e: Failure, ghost ms: seq<Mail>)
      requires Valid() && st.pc == Pc.PostFailed(parent, e, ms)
      modifies this`st, this`log, this`said, store
      ensures Valid() && Went(old(log), old(st), false) && st.pc == AtMail(ms)
      ensures FailureNoted(old(store.db), TgPost(parent), e)
    {
      var draw := RecordFailure(TgPost(parent), e);
      Advance(Mailbox(NotePostFailure(draw)));
    }

    // ---------------------------------------------------------------- flush_notices

    /** The confirmations were tried in turn, each once and as it was queued; those SMTP took are no longer pending,
        the others still are. */
    ghost predicate Tried(heard: seq<Answer>, pending: map<Ref, Pending>, before: seq<Answer>,
                          rows: map<Ref, Pending>, refs: seq<Ref>)
    {
      && |heard| == |before| + |refs| && before <= heard
      && (forall i :: 0 <= i < |refs| ==> TriedOne(heard[|before| + i], pending, rows, refs[i]))
      && (forall r :: r in pending ==> r in rows && pending[r] == rows[r])
    }

    predicate TriedOne(a: Answer, pending: map<Ref, Pending>, rows: map<Ref, Pending>, ref: Ref) {
      Confirms(a, rows, ref) && (a.r.Taken? <==> ref !in pending)
    }

    predicate Confirms(a: Answer, rows: map<Ref, Pending>, ref: Ref) {
      a.ToSend? && a.letter.Confirmed? && a.letter.ref == ref && ref in rows && a.letter.on == rows[ref].enabled
    }

    lemma {:induction false} OneMoreTried(heard: seq<Answer>, pending: map<Ref, Pending>, before: seq<Answer>,
                                          rows: map<Ref, Pending>, refs: seq<Ref>, i: nat, a: Answer,
                                          left: map<Ref, Pending>)
      requires i < |refs| && Distinct(refs) && Tried(heard, pending, before, rows, refs[..i])
      requires Confirms(a, rows, refs[i]) && refs[i] in pending
      requires left == if a.r.Taken? then pending - {refs[i]} else pending
      ensures Tried(heard + [a], left, before, rows, refs[..i + 1])
    {
      var more, so := heard + [a], refs[..i + 1];
      forall k | 0 <= k < |so| ensures TriedOne(more[|before| + k], left, rows, so[k]) {
        if k < i { assert TriedOne(heard[|before| + k], pending, rows, refs[..i][k]); }
      }
    }

    /** Every confirmation was tried, and is still pending unless SMTP took it. */
    ghost predicate EachTried(heard: seq<Answer>, pending: map<Ref, Pending>, before: seq<Answer>,
                              rows: map<Ref, Pending>)
    {
      && before <= heard && (forall r :: r in pending ==> r in rows && pending[r] == rows[r])
      && forall ref :: ref in rows ==> exists k :: |before| <= k < |heard| && TriedOne(heard[k], pending, rows, ref)
    }

    lemma {:induction false} AllAreTried(heard: seq<Answer>, pending: map<Ref, Pending>, before: seq<Answer>,
                                         rows: map<Ref, Pending>, refs: seq<Ref>, later: seq<Answer>)
      requires Tried(heard, pending, before, rows, refs) && heard <= later && forall r :: r in rows ==> r in refs
      ensures EachTried(later, pending, before, rows)
    {
      forall ref | ref in rows
        ensures exists k :: |before| <= k < |later| && TriedOne(later[k], pending, rows, ref)
      {
        var i :| 0 <= i < |refs| && refs[i] == ref;
        assert TriedOne(later[|before| + i], pending, rows, ref);
      }
    }

    /** Every confirmation that is pending is tried, unless an exception escapes; then the session is looked at for
        the last time. */
    method FlushNotices() returns (escaped: bool)
      requires Valid() && st.pc == AtMail([])
      modifies this`st, this`log, this`said, store, ports
      ensures Valid() && st.pc.Idle? && Went(old(log), old(st), escaped)
      ensures !escaped ==> EachTried(ports.heard, store.db.pending, old(ports.heard), old(store.db.pending))
    {
      var rows := store.db.pending;
      var refs := LookForNotices();
      escaped := FlushAll(refs, rows);
      if escaped { return; }
      ghost var heard := ports.heard;
      escaped := EndFlushing();
      AllAreTried(heard, store.db.pending, old(ports.heard), rows, refs, ports.heard);
    }

    method LookForNotices() returns (refs: seq<Ref>)
      requires Valid() && st.pc == AtMail([])
      modifies this`st, this`log, this`said
      ensures Valid() && Went(old(log), old(st), false) && st.pc == Flushing(refs)
      ensures Distinct(refs) && forall r :: r in refs <==> r in store.db.pending
    {
      refs := store.PendingNotices();
      Advance(Notices(EndOfMail(refs)));
    }

    /** The last look at the session before the cycle ends. */
    method EndFlushing() returns (escaped: bool)
      requires Valid() && st.pc == Flushing([])
      modifies this`st, this`log, this`said, store, ports
      ensures Valid() && st.pc.Idle? && Went(old(log), old(st), escaped)
      ensures SessionOnly(old(store.db)) && old(ports.heard) <= ports.heard
    {
      Advance(Notices(EndFlush));
      escaped := false;
      if !store.db.valid { escaped := InvalidateSession(ToIdle); }
    }

    method FlushAll(refs: seq<Ref>, rows: map<Ref, Pending>) returns (escaped: bool)
      requires Valid() && st.pc == Flushing(refs) && rows == store.db.pending
      requires Distinct(refs) && forall r :: r in refs ==> r in rows
      modifies this`st, this`log, this`said, store, ports
      ensures Valid() && Went(old(log), old(st), escaped)
      ensures st.pc == if escaped then Idle else Flushing([])
      ensures !escaped ==> Tried(ports.heard, store.db.pending, old(ports.heard), rows, refs)
    {
      assert refs[0..] == refs && refs[..|refs|] == refs;
      for i := 0 to |refs|
        invariant Valid() && st.pc == Flushing(refs[i..]) && Went(old(log), old(st), false)
        invariant Tried(ports.heard, store.db.pending, old(ports.heard), rows, refs[..i])
        invariant forall k :: i <= k < |refs| ==> refs[k] in store.db.pending
      {
        assert refs[i..][0] == refs[i] && refs[i..][1..] == refs[i + 1..];
        ghost var heard, pending, a := ports.heard, store.db.pending, ToPoll(PollingFailed);
        escaped, a := FlushNotice(refs[i], rows[refs[i]].enabled, refs[i + 1..]);
        if escaped { return; }
        OneMoreTried(heard, pending, old(ports.heard), rows, refs, i, a, store.db.pending);
      }
      escaped := false;
    }

    /** It is dropped if and only if SMTP took it. */
    method FlushNotice(ref: Ref, on: bool, ghost refs: seq<Ref>) returns (escaped: bool, ghost a: Answer)
      requires Valid() && st.pc.Flushing? && st.pc.refs != [] && st.pc.refs[0] == ref && st.pc.refs[1..] == refs
      requires ref in store.db.pending && store.db.pending[ref].enabled == on
      modifies this`st, this`log, this`said, store, ports
      ensures Valid() && Went(old(log), old(st), escaped)
      ensures st.pc == if escaped then Idle else Flushing(refs)
      ensures ports.heard == old(ports.heard) + [a] && a.ToSend? && a.letter.Confirmed?
      ensures a.letter.ref == ref && a.letter.on == on && (escaped <==> a.r.Refused?)
      ensures store.db.pending == if a.r.Taken? then old(store.db.pending) - {ref} else old(store.db.pending)
      ensures a.r.Deferred? ==> FailureNoted(old(store.db), MailNotice("command:" + ref), Transient)
    {
      ghost var accepted;
      var r, mid;
      r, mid, accepted := SendConfirmation(ref, on, refs);
      a := ToSend(Confirmed(mid, ref, on), r, accepted);
      if r.Taken? {
        SettleConfirmation(ref, mid, refs);
      } else if r.Deferred? {
        NoteUnconfirmed(ref, refs);
      }
      escaped := r.Refused?;
    }

    method NoteUnconfirmed(ref: Ref, ghost refs: seq<Ref>)
      requires Valid() && st.pc == NoticeFailed(ref, refs)
      modifies this`st, this`log, this`said, store
      ensures Valid() && Went(old(log), old(st), false) && st.pc == Flushing(refs) && said == old(said)
      ensures FailureNoted(old(store.db), MailNotice("command:" + ref), Transient)
    {
      var draw := RecordFailure(MailNotice("command:" + ref), Transient);
      Advance(Notices(NoteNoticeFailure(draw)));
    }

    method SettleConfirmation(ref: Ref, mid: Mid, ghost refs: seq<Ref>)
      requires Valid() && st.pc == NoticeSent(ref, mid, refs)
      modifies this`st, this`log, this`said, store
      ensures Valid() && Went(old(log), old(st), false) && st.pc == Flushing(refs)
      ensures store.db.pending == old(store.db.pending) - {ref} && mid in store.db.notices && said == old(said)
    {
      store.RecordNoticeSent(mid, ports.o.now);
      Advance(Notices(RecordNoticeId));
      store.DeleteNotice(ref);
      Advance(Notices(DropNotice));
    }

    method SendConfirmation(ref: Ref, on: bool, ghost refs: seq<Ref>)
      returns (r: Sending, mid: Mid, ghost accepted: bool)
      requires Valid() && st.pc.Flushing? && st.pc.refs != [] && st.pc.refs[0] == ref && st.pc.refs[1..] == refs
      requires ref in store.db.pending && store.db.pending[ref].enabled == on
      modifies this`st, this`log, this`said, ports`o, ports`issued, ports`heard
      ensures Valid() && Went(old(log), old(st), r.Refused?)
      ensures ports.heard == old(ports.heard) + [ToSend(Confirmed(mid, ref, on), r, accepted)]
      ensures st.pc == AfterConfirmation(ref, mid, r, refs)
    {
      Pause();
      mid := ports.NewId();
      assert Fresh(st, mid);
      r, accepted := ports.Send(Confirmed(mid, ref, on));
      LogConfirmation(mid, r, accepted, ref, refs);
    }

    function AfterConfirmation(ref: Ref, mid: Mid, r: Sending, refs: seq<Ref>): Pc {
      match r
      case Taken => NoticeSent(ref, mid, refs)
      case Deferred => NoticeFailed(ref, refs)
      case Refused => Idle
    }

    ghost method LogConfirmation(mid: Mid, r: Sending, accepted: bool, ref: Ref, refs: seq<Ref>)
      requires Ran() && st.pc.Flushing? && st.pc.refs != [] && st.pc.refs[0] == ref && st.pc.refs[1..] == refs
      requires ref in st.t.pending && Fresh(st, mid) && (r.Taken? ==> accepted)
      modifies this`st, this`log, this`said
      ensures Ran() && Went(old(log), old(st), r.Refused?) && st.pc == AfterConfirmation(ref, mid, r, refs)
      ensures said == old(said) + [ToSend(Confirmed(mid, ref, old(st).t.pending[ref].enabled), r, accepted)]
      ensures st.t == old(st).t && st.o == old(st).o && st.h.mids == old(st).h.mids + {mid}
    {
      match r
      case Taken => Advance(Notices(NoticeOk(mid)));
      case Deferred => Advance(Notices(NoticeFails(mid, accepted)));
      case Refused => Advance(Notices(NoticeEscapes(mid, accepted)));
    }

    // ---------------------------------------------------------------- setup, purge, a round of both cycles

    method RunSetup()
      requires Valid() && st.pc.Idle?
      modifies this`st, this`log, this`said, store
      ensures Valid() && st.pc.Idle? && log == old(log) + [Authorize, ClearWaits]
      ensures store.db == ClearTelegramBackoff(SetSession(old(store.db), true, false))
    {
      store.SetSession(true, false);
      Advance(Authorize);
      store.ClearTelegramBackoff();
      Advance(ClearWaits);
    }

    method RunPurge()
      requires Valid() && st.pc.Idle?
      modifies this`st, this`log, this`said, store
      ensures Valid() && st.pc.Idle? && log == old(log) + [Purge(store.db)]
      ensures Purged(old(store.db), c.limits, ports.o.now, store.db)
    {
      store.PurgeRetention(c.limits, ports.o.now);
      Advance(Purge(store.db));
    }

    /** The inbound cycle, when asked for; some time; and, unless an exception has escaped, the mailbox cycle
        when asked for. */
    method RunOnce(inbound: bool, mailbox: bool)
      returns (escaped: bool, ghost first: seq<Action>, ghost between: seq<Action>, ghost second: seq<Action>,
               ghost broke: bool)
      requires Valid() && st.pc.Idle?
      modifies this`st, this`log, this`said, store, ports
      ensures Valid() && st.pc.Idle? && log == old(log) + first + between + second
      ensures BothRounds(c, old(st), inbound, mailbox, first, between, second, broke, escaped)
    {
      escaped, first := InboundIfAsked(inbound);
      broke, between, second := escaped, [], [];
      if mailbox && !escaped { escaped, between, second := MailboxNext(); }
    }

    method InboundIfAsked(inbound: bool) returns (escaped: bool, ghost first: seq<Action>)
      requires Valid() && st.pc.Idle?
      modifies this`st, this`log, this`said, store, ports
      ensures Valid() && st.pc.Idle? && log == old(log) + first
      ensures Legal(c, old(st), first) && After(c, old(st), first) == st
      ensures if inbound then InboundRound(c, old(st), first, escaped) else first == [] && !escaped
    {
      escaped, first := false, [];
      if inbound { escaped, first := RunInboundCycle(); }
    }

    method MailboxNext() returns (escaped: bool, ghost between: seq<Action>, ghost second: seq<Action>)
      requires Valid() && st.pc.Idle?
      modifies this`st, this`log, this`said, store, ports
      ensures Valid() && st.pc.Idle? && log == old(log) + between + second
      ensures Legal(c, old(st), between) && forall a :: a in between ==> a.World?
      ensures MailboxRound(c, After(c, old(st), between), second, escaped)
    {
      between := LetTimePass();
      escaped, second := RunMailboxCycle();
    }

    method LetTimePass() returns (ghost steps: seq<Action>)
      requires Valid()
      modifies this`st, this`log, this`said, ports
      ensures Valid() && st == old(st).(o := st.o) && log == old(log) + steps
      ensures Legal(c, old(st), steps) && After(c, old(st), steps) == st && forall a :: a in steps ==> a.World?
    {
      Pause();
      steps := log[|old(log)|..];
      LegalSince(c, start, old(log), old(st), old(said), log, st, said);
    }

    // ---------------------------------------------------------------- the code keeps to the machine

    /** Wherever the code stands, its tables are those of a reachable state of the machine. */
    lemma {:induction false} StandsInARun(now: real)
      requires Valid() && start == Init(now)
      ensures Reachable(c, st, NONE) && st.t == store.db
    {
      LeadsMeans(c, start, log, st, said);
      EveryRunIsReachable(c, now, log);
    }

    /** By the word of SMTP: a row of the ledger stands for a mail it took, sent for the dialog of the row. */
    lemma {:induction false} LedgerRowsWereTaken(now: real)
      requires Valid() && start == Init(now)
      ensures forall m :: m in store.db.ledger ==> Hearing.TookMail(ports.heard, store.db.ledger[m].dialog, m)
    {
      Hearing.LedgerWasTaken(c, now, log, st, said);
    }

    /** A message Telegram holds at or below its dialog's cursor was in a mail SMTP took, or was passed over. */
    lemma {:induction false} NothingIsLost(now: real, d: string, id: int)
      requires Valid() && start == Init(now) && Legal(c, start, log) && Throughout(c, start, log, GAPLESS)
      requires id in Held(ports.o, d) && id <= Cursor(store.db, d)
      ensures Hearing.TookMessage(ports.heard, d, id) || Delivery.PassedOver(st.h.delivery, d, id)
    {
      Hearing.TakenAtLeastOnce(c, now, log, st, said, d, id);
    }

    /** By the word of Telegram: an echo is a reply it answered with this id; a mark stands for such a reply or for a
        command carried out; and a confirmation still pending says what was carried out. */
    lemma {:induction false} RecordsWereAnswered(now: real)
      requires Valid() && start == Init(now)
      ensures forall e :: e in store.db.echoes ==> Hearing.EchoHeard(ports.heard, e)
      ensures forall r :: r in store.db.consumed ==>
                Hearing.ReplyHeard(ports.heard, r) || Tally.Commanded(st.h.intake.applied, r)
      ensures forall r :: r in store.db.pending ==> (r, store.db.pending[r].enabled) in st.h.intake.applied
    {
      Hearing.RunAnswered(c, now, log, st, said);
      var v := Hearing.RegisterOf(st);
      assert v.echoes == store.db.echoes.Keys && v.consumed == store.db.consumed.Keys && v.pending == store.db.pending;
    }

    /** And if the process dies after any of its steps, what is left is a reachable state too. */
    lemma {:induction false} DiesInARun(now: real, k: nat)
      requires Valid() && start == Init(now) && k <= |log|
      ensures Legal(c, start, log[..k]) && Reachable(c, Do(c, After(c, start, log[..k]), Crash), NONE)
    {
      LeadsMeans(c, start, log, st, said);
      LegalPrefix(c, start, log, k);
      OneMore(c, start, log[..k], Crash);
      EveryRunIsReachable(c, now, log[..k] + [Crash]);
    }
  }
}
