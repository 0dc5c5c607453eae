/** Dialogs do not get in each other's way: what a cycle does to one of them is decided by that dialog's
    own rows and by how the calls made for it turn out
    (src/mailtg_bridge/orchestrator.py:36-73, src/mailtg_bridge/telegram.py:51). */
module Isolation {
  import opened Domain
  import opened Backoff
  import opened Database
  import opened Protocol
  import opened Delivery
  import Intake

  /** How far the cycle is with one dialog. */
  datatype Stage =
    | Out
    | Entered(last: nat)
    | Finishing
    | Holding(last: nat, items: seq<Item>)
    | Loading(batch: Batch, n: nat)
    | Shipping(batch: Batch, parts: seq<Part>, n: nat)
    | Failed(e: Failure)

  function Here(d: DialogRef, dialog: string, stage: Stage): Stage { if d.id == dialog then stage else Out }

  function StageOf(pc: Pc, dialog: string): Stage {
    match pc
    case Opened(d, last, _) => Here(d, dialog, Entered(last))
    case Clearing(d, _) => Here(d, dialog, Finishing)
    case Fetched(d, last, items, _) => Here(d, dialog, Holding(last, items))
    case Downloading(b, k, _) => Here(b.d, dialog, Loading(b, k))
    case Sending(b, parts, k, _) => Here(b.d, dialog, Shipping(b, parts, k))
    case DialogFailed(d, e, _) => Here(d, dialog, Failed(e))
    case _ => Out
  }

  /** The dialog a step of the cycle deals with. */
  function Subject(pc: Pc): Option<DialogRef> {
    match pc
    case AtDialog(ds) => if ds == [] then None else Some(ds[0])
    case Opened(d, _, _) => Some(d)
    case Clearing(d, _) => Some(d)
    case Fetched(d, _, _, _) => Some(d)
    case Downloading(b, _, _) => Some(b.d)
    case Sending(b, _, _, _) => Some(b.d)
    case DialogFailed(d, _, _) => Some(d)
    case _ => None
  }

  /** One dialog's part of the tables. */
  datatype Share = Share(cursor: Option<CursorRow>, rows: map<Mid, LedgerRow>, echoes: map<(string, int), real>,
                         wait: Option<Decision>, stage: Stage)

  function RowsFor(ledger: map<Mid, LedgerRow>, dialog: string): map<Mid, LedgerRow> {
    map m | m in ledger && ledger[m].dialog == dialog :: ledger[m]
  }

  function EchoesFor(echoes: map<(string, int), real>, dialog: string): map<(string, int), real> {
    map e | e in echoes && e.0 == dialog :: echoes[e]
  }

  function Get<K, V>(m: map<K, V>, k: K): Option<V> { if k in m then Some(m[k]) else None }

  function ShareOf(s: State, dialog: string): Share {
    Share(Get(s.t.cursors, dialog), RowsFor(s.t.ledger, dialog), EchoesFor(s.t.echoes, dialog),
          Get(s.t.backoff, TgDialog(dialog)), StageOf(s.pc, dialog))
  }

  // ---------------------------------------------------------------- one dialog on its own

  /** A step made for a dialog, and when. */
  datatype Visit = Visit(d: DialogRef, now: real, a: Action)

  function LastOf(h: Share): nat { if h.cursor.Some? then h.cursor.value.lastId else 0 }

  function Lift(h: Share, v: Visit, high: int): Share {
    h.(cursor := Some(CursorRow(if high > LastOf(h) then high else LastOf(h), v.d.tag)))
  }

  function NewRows(parts: seq<Part>, dialog: string, now: real): map<Mid, LedgerRow> {
    map m | m in Mids(parts) :: LedgerRow(dialog, now)
  }

  /** What a step does to the share of its dialog, from that share alone. */
  function Alone(c: Config, h: Share, v: Visit): Share {
    match v.a
    case Inbound(i) => AloneInbound(c, h, v, i)
    case Delivery(d) => AloneDelivery(c, h, v, d)
    case _ => h
  }

  function AloneInbound(c: Config, h: Share, v: Visit, i: Inbound): Share {
    match i
    case OpenCursor => Lift(h, v, 0).(stage := Entered(LastOf(h)))
    case UpToDate => h.(stage := Finishing)
    case FetchOk(items) =>
      if items == [] || !h.stage.Entered? then h.(stage := Finishing) else h.(stage := Holding(h.stage.last, items))
    case FetchInvalid => h.(stage := Out)
    case FetchGone => h.(stage := Out)
    case FetchFails(e) => h.(stage := Failed(e))
    case ClearDialog => h.(wait := None, stage := Out)
    case Bootstrap => AloneRaise(h, v)
    case NothingSelected => AloneRaise(h, v)
    case Select =>
      if !h.stage.Holding? || h.stage.items == [] then h
      else h.(stage := Loading(Batch(v.d, h.stage.last, High(h.stage.items),
                                     Selected(h.echoes, v.d.id, h.stage.last, h.stage.items)), 0))
    case NoteDialogFailure(draw) =>
      if !h.stage.Failed? then h
      else h.(wait := Some(NextBackoff(h.stage.e, if h.wait.Some? then h.wait.value.failures else 0,
                                       c.minimum, c.maximum, v.now, draw)), stage := Out)
    case _ => h
  }

  function AloneRaise(h: Share, v: Visit): Share {
    if !h.stage.Holding? || h.stage.items == [] then h else Lift(h, v, High(h.stage.items)).(stage := Finishing)
  }

  function AloneDelivery(c: Config, h: Share, v: Visit, d: Protocol.Delivery): Share {
    match d
    case DownloadOk => if h.stage.Loading? then h.(stage := Loading(h.stage.batch, h.stage.n + 1)) else h
    case DownloadInvalid => h.(stage := Out)
    case DownloadGone => h.(stage := Out)
    case DownloadFails(e) => h.(stage := Failed(e))
    case Compose(parts) => if h.stage.Loading? then h.(stage := Shipping(h.stage.batch, parts, 0)) else h
    case SendOk => if h.stage.Shipping? then h.(stage := Shipping(h.stage.batch, h.stage.parts, h.stage.n + 1)) else h
    case SendFails(_) => h.(stage := Failed(Transient))
    case SendEscapes(_) => h.(stage := Out)
    case Commit =>
      if !h.stage.Shipping? then h
      else Lift(h, v, h.stage.batch.high).(rows := h.rows + NewRows(h.stage.parts, v.d.id, v.now), stage := Finishing)
  }

  // ---------------------------------------------------------------- and in company

  /** The dialog's share after a step: as if it were alone when the step is for it, untouched otherwise. */
  ghost predicate StepsAlone(c: Config, s: State, a: Action, s': State, dialog: string) {
    ShareOf(s', dialog) ==
    (if Subject(s.pc).Some? && Subject(s.pc).value.id == dialog
     then Alone(c, ShareOf(s, dialog), Visit(Subject(s.pc).value, s.o.now, a))
     else ShareOf(s, dialog))
  }

  lemma {:induction false} SelectedFor(echoes: map<(string, int), real>, dialog: string, last: nat, items: seq<Item>)
    ensures Selected(EchoesFor(echoes, dialog), dialog, last, items) == Selected(echoes, dialog, last, items)
  {
    if items != [] { SelectedFor(echoes, dialog, last, items[1..]); }
  }

  /** The steps that move a cursor without a delivery. */
  predicate MovesCursor(a: Inbound) { a.OpenCursor? || a.Bootstrap? || a.NothingSelected? }

  lemma {:induction false} MoveAlone(c: Config, s: State, a: Inbound, dialog: string)
    requires InboundMay(c, s, a) && MovesCursor(a)
    ensures StepsAlone(c, s, Inbound(a), InboundDoes(c, s, a), dialog)
  {}

  lemma {:induction false} SelectAlone(c: Config, s: State, dialog: string)
    requires InboundMay(c, s, Select)
    ensures StepsAlone(c, s, Inbound(Select), InboundDoes(c, s, Select), dialog)
  {
    SelectedFor(s.t.echoes, dialog, s.pc.last, s.pc.items);
  }

  lemma {:induction false} FailureAlone(c: Config, s: State, draw: real, dialog: string)
    requires InboundMay(c, s, NoteDialogFailure(draw))
    ensures StepsAlone(c, s, Inbound(NoteDialogFailure(draw)), InboundDoes(c, s, NoteDialogFailure(draw)), dialog)
  {}

  lemma {:induction false} ClearingAlone(c: Config, s: State, dialog: string)
    requires InboundMay(c, s, ClearDialog)
    ensures StepsAlone(c, s, Inbound(ClearDialog), InboundDoes(c, s, ClearDialog), dialog)
  {}

  /** The steps around the list: they touch the backoff row of the list, or nothing. */
  predicate AboutList(a: Inbound) {
    a.ListOk? || a.ListInvalid? || a.ListFails? || a.ClearList? || a.NoteListFailure?
  }

  lemma {:induction false} ListAlone(c: Config, s: State, a: Inbound, dialog: string)
    requires InboundMay(c, s, a) && AboutList(a)
    ensures StepsAlone(c, s, Inbound(a), InboundDoes(c, s, a), dialog)
  {}

  /** What a fetch can come to. */
  predicate Fetches(a: Inbound) { a.FetchOk? || a.FetchInvalid? || a.FetchGone? || a.FetchFails? }

  lemma {:induction false} FetchAlone(c: Config, s: State, a: Inbound, dialog: string)
    requires InboundMay(c, s, a) && Fetches(a)
    ensures StepsAlone(c, s, Inbound(a), InboundDoes(c, s, a), dialog)
  {}

  lemma {:induction false} PassingAlone(c: Config, s: State, a: Inbound, dialog: string)
    requires InboundMay(c, s, a) && (a.UpToDate? || a.NotDue? || a.CycleDone?)
    ensures StepsAlone(c, s, Inbound(a), InboundDoes(c, s, a), dialog)
  {}

  lemma {:induction false} RestAlone(c: Config, s: State, a: Inbound, dialog: string)
    requires InboundMay(c, s, a) && !MovesCursor(a) && !a.Select? && !a.NoteDialogFailure? && !a.ClearDialog?
    ensures StepsAlone(c, s, Inbound(a), InboundDoes(c, s, a), dialog)
  {
    if AboutList(a) {
      ListAlone(c, s, a, dialog);
    } else if Fetches(a) {
      FetchAlone(c, s, a, dialog);
    } else {
      PassingAlone(c, s, a, dialog);
    }
  }

  lemma {:induction false} InboundAlone(c: Config, s: State, a: Inbound, dialog: string)
    requires InboundMay(c, s, a)
    ensures StepsAlone(c, s, Inbound(a), InboundDoes(c, s, a), dialog)
  {
    match a
    case Select => SelectAlone(c, s, dialog);
    case NoteDialogFailure(draw) => FailureAlone(c, s, draw, dialog);
    case ClearDialog => ClearingAlone(c, s, dialog);
    case _ => if MovesCursor(a) { MoveAlone(c, s, a, dialog); } else { RestAlone(c, s, a, dialog); }
  }

  ghost predicate Insertable(ledger: map<Mid, LedgerRow>, parts: seq<Part>) {
    && parts != []
    && (forall i :: 0 <= i < |parts| ==> parts[i].mid !in ledger)
    && (forall i, j :: 0 <= i < j < |parts| ==> parts[i].mid != parts[j].mid)
  }

  lemma {:induction false} InsertedExactly(ledger: map<Mid, LedgerRow>, parts: seq<Part>, d: string, now: real,
                                           dialog: string)
    requires Insertable(ledger, parts)
    ensures var l := InsertRows(ledger, Sents(parts, d), d, now);
            && l.Some?
            && RowsFor(l.value, dialog)
               == if d == dialog then RowsFor(ledger, dialog) + NewRows(parts, d, now) else RowsFor(ledger, dialog)
  {
    InsertsFresh(ledger, parts, d, now);
    Intake.InsertedRows(ledger, parts, d, now);
    var l := InsertRows(ledger, Sents(parts, d), d, now).value;
    forall m | m in Mids(parts) ensures m !in ledger {}
    RowsApart(ledger, l, parts, d, now, dialog);
  }

  lemma {:induction false} RowsApart(ledger: map<Mid, LedgerRow>, l: map<Mid, LedgerRow>, parts: seq<Part>, d: string,
                                     now: real, dialog: string)
    requires l.Keys == ledger.Keys + Mids(parts) && ledger.Keys !! Mids(parts)
    requires forall m :: m in l ==> l[m] == if m in Mids(parts) then LedgerRow(d, now) else ledger[m]
    ensures RowsFor(l, dialog)
            == if d == dialog then RowsFor(ledger, dialog) + NewRows(parts, d, now) else RowsFor(ledger, dialog)
  {}

  lemma {:induction false} CommitFor(t: Tables, d: DialogRef, parts: seq<Part>, high: int, now: real, dialog: string)
    requires Insertable(t.ledger, parts)
    ensures var t' := CommitDelivery(t, d, Sents(parts, d.id), high, now);
            && t'.Some? && t'.value == t.(cursors := Raise(t, d, high).cursors, ledger := t'.value.ledger)
            && RowsFor(t'.value.ledger, dialog)
               == (if d.id == dialog then RowsFor(t.ledger, dialog) + NewRows(parts, d.id, now)
                   else RowsFor(t.ledger, dialog))
  {
    InsertedExactly(t.ledger, parts, d.id, now, dialog);
    assert Sents(parts, d.id) != [];
  }

  lemma {:induction false} CommitAlone(c: Config, s: State, dialog: string)
    requires DeliveryMay(c, s, Commit) && Stocked(ShelfOf(s))
    ensures StepsAlone(c, s, Delivery(Commit), DeliveryDoes(c, s, Commit), dialog)
  {
    FreshParts(s);
    CommitFor(s.t, s.pc.batch.d, s.pc.parts, s.pc.batch.high, s.o.now, dialog);
    if s.pc.batch.d.id == dialog { CommitHere(c, s); } else { CommitElsewhere(c, s, dialog); }
  }

  lemma {:induction false} CommitElsewhere(c: Config, s: State, dialog: string)
    requires DeliveryMay(c, s, Commit) && s.pc.batch.d.id != dialog
    requires var b := s.pc.batch;
             var t' := CommitDelivery(s.t, b.d, Sents(s.pc.parts, b.d.id), b.high, s.o.now);
             && t'.Some? && t'.value == s.t.(cursors := Raise(s.t, b.d, b.high).cursors, ledger := t'.value.ledger)
             && RowsFor(t'.value.ledger, dialog) == RowsFor(s.t.ledger, dialog)
    ensures StepsAlone(c, s, Delivery(Commit), DeliveryDoes(c, s, Commit), dialog)
  {}

  lemma {:induction false} CommitHere(c: Config, s: State)
    requires DeliveryMay(c, s, Commit)
    requires var b := s.pc.batch;
             var t' := CommitDelivery(s.t, b.d, Sents(s.pc.parts, b.d.id), b.high, s.o.now);
             && t'.Some? && t'.value == s.t.(cursors := Raise(s.t, b.d, b.high).cursors, ledger := t'.value.ledger)
             && RowsFor(t'.value.ledger, b.d.id) == RowsFor(s.t.ledger, b.d.id) + NewRows(s.pc.parts, b.d.id, s.o.now)
    ensures StepsAlone(c, s, Delivery(Commit), DeliveryDoes(c, s, Commit), s.pc.batch.d.id)
  {
    var b := s.pc.batch;
    var t' := CommitDelivery(s.t, b.d, Sents(s.pc.parts, b.d.id), b.high, s.o.now).value;
    BookedHere(c, s, t', Deliver(s.h, b, s.pc.parts));
  }

  lemma {:induction false} BookedHere(c: Config, s: State, t': Tables, h': Log)
    requires s.pc.Sending?
    requires var b := s.pc.batch;
             && t' == s.t.(cursors := Raise(s.t, b.d, b.high).cursors, ledger := t'.ledger)
             && RowsFor(t'.ledger, b.d.id) == RowsFor(s.t.ledger, b.d.id) + NewRows(s.pc.parts, b.d.id, s.o.now)
    ensures var b := s.pc.batch;
            StepsAlone(c, s, Delivery(Commit), s.(t := t', h := h', pc := Clearing(b.d, s.pc.ds)), b.d.id)
  {}

  lemma {:induction false} FreshParts(s: State)
    requires Stocked(ShelfOf(s)) && s.pc.Sending?
    ensures Insertable(s.t.ledger, s.pc.parts)
  {}

  lemma {:induction false} DeliveryAlone(c: Config, s: State, a: Protocol.Delivery, dialog: string)
    requires DeliveryMay(c, s, a) && Stocked(ShelfOf(s))
    ensures StepsAlone(c, s, Delivery(a), DeliveryDoes(c, s, a), dialog)
  {
    if a.Commit? { CommitAlone(c, s, dialog); } else { SendingAlone(c, s, a, dialog); }
  }

  lemma {:induction false} SendingAlone(c: Config, s: State, a: Protocol.Delivery, dialog: string)
    requires DeliveryMay(c, s, a) && !a.Commit?
    ensures StepsAlone(c, s, Delivery(a), DeliveryDoes(c, s, a), dialog)
  {}

  // ---------------------------------------------------------------- whole cycles

  /** Steps of an inbound cycle and of the world around it. */
  predicate InCycle(a: Action) { a.Inbound? || a.Delivery? || a.Session? || a.World? }

  lemma {:induction false} SessionAlone(c: Config, s: State, a: Session, dialog: string)
    requires SessionMay(c, s, a)
    ensures StepsAlone(c, s, Session(a), SessionDoes(c, s, a), dialog)
  {}

  lemma {:induction false} CycleAlone(c: Config, s: State, a: Action, dialog: string)
    requires May(c, s, a) && InCycle(a) && Stocked(ShelfOf(s))
    ensures StepsAlone(c, s, a, Do(c, s, a), dialog)
  {
    match a
    case Inbound(i) => InboundAlone(c, s, i, dialog);
    case Delivery(d) => DeliveryAlone(c, s, d, dialog);
    case Session(v) => SessionAlone(c, s, v, dialog);
    case World(_) =>
  }

  /** The step, if it is made for the dialog. */
  function VisitOf(s: State, a: Action, dialog: string): seq<Visit> {
    if Subject(s.pc).Some? && Subject(s.pc).value.id == dialog then [Visit(Subject(s.pc).value, s.o.now, a)] else []
  }

  /** The steps of a run made for one dialog. */
  ghost function Trace(c: Config, s: State, run: seq<Action>, dialog: string): seq<Visit>
    requires Legal(c, s, run)
    decreases |run|
  {
    if run == [] then [] else VisitOf(s, run[0], dialog) + Trace(c, Do(c, s, run[0]), run[1..], dialog)
  }

  /** One dialog on its own, from one share to the next. */
  function Replay(c: Config, h: Share, vs: seq<Visit>): Share
    decreases |vs|
  {
    if vs == [] then h else Replay(c, Alone(c, h, vs[0]), vs[1..])
  }

  lemma {:induction false} ReplayFirst(c: Config, h: Share, v: seq<Visit>, rest: seq<Visit>)
    requires |v| <= 1
    ensures Replay(c, h, v + rest) == Replay(c, if v == [] then h else Alone(c, h, v[0]), rest)
  {
    if v == [] {
      assert v + rest == rest;
    } else {
      assert (v + rest)[1..] == rest;
    }
  }

  /** Whatever happens in the cycle, each dialog ends up with exactly what its own steps, taken alone,
      would have made of its share. */
  lemma {:induction false} CycleIsTheProductOfItsDialogs(c: Config, s: State, run: seq<Action>, dialog: string)
    requires Legal(c, s, run) && Stocked(ShelfOf(s)) && forall a :: a in run ==> InCycle(a)
    ensures ShareOf(After(c, s, run), dialog) == Replay(c, ShareOf(s, dialog), Trace(c, s, run, dialog))
    decreases |run|
  {
    if run != [] {
      var s' := Do(c, s, run[0]);
      CycleAlone(c, s, run[0], dialog);
      StockedStep(c, s, run[0]);
      CycleIsTheProductOfItsDialogs(c, s', run[1..], dialog);
      ReplayFirst(c, ShareOf(s, dialog), VisitOf(s, run[0], dialog), Trace(c, s', run[1..], dialog));
    }
  }

  /** A fault under another dialog changes nothing: however two cycles differ elsewhere, the same rows and
      the same outcomes for this dialog leave the same rows. */
  lemma {:induction false} FaultsStayLocal(c: Config, s: State, run: seq<Action>, t: State, other: seq<Action>,
                                           dialog: string)
    requires Legal(c, s, run) && Stocked(ShelfOf(s)) && forall a :: a in run ==> InCycle(a)
    requires Legal(c, t, other) && Stocked(ShelfOf(t)) && forall a :: a in other ==> InCycle(a)
    requires ShareOf(s, dialog) == ShareOf(t, dialog) && Trace(c, s, run, dialog) == Trace(c, t, other, dialog)
    ensures ShareOf(After(c, s, run), dialog) == ShareOf(After(c, t, other), dialog)
  {
    CycleIsTheProductOfItsDialogs(c, s, run, dialog);
    CycleIsTheProductOfItsDialogs(c, t, other, dialog);
  }

  // ---------------------------------------------------------------- and every dialog gets its turn

  predicate ForDialog(a: Action) { a.Inbound? || a.Delivery? }

  /** The two states look the same to the dialog being dealt with: its share, and the surroundings. */
  ghost predicate AlikeFor(s: State, t: State, d: DialogRef) {
    && Subject(s.pc) == Some(d) && Subject(t.pc) == Some(d) && s.pc.AtDialog? == t.pc.AtDialog?
    && ShareOf(s, d.id) == ShareOf(t, d.id) && s.o == t.o
  }

  lemma {:induction false} WaitIsInShare(s: State, t: State, dialog: string)
    requires ShareOf(s, dialog) == ShareOf(t, dialog) && s.o == t.o
    ensures Due(s.t, TgDialog(dialog), s.o.now) <==> Due(t.t, TgDialog(dialog), t.o.now)
  {
    assert Get(s.t.backoff, TgDialog(dialog)) == Get(t.t.backoff, TgDialog(dialog));
  }

  lemma {:induction false} SelectionIsInShare(s: State, t: State, dialog: string, last: nat, items: seq<Item>)
    requires ShareOf(s, dialog) == ShareOf(t, dialog)
    ensures Selected(s.t.echoes, dialog, last, items) == Selected(t.t.echoes, dialog, last, items)
  {
    SelectedFor(s.t.echoes, dialog, last, items);
    SelectedFor(t.t.echoes, dialog, last, items);
  }

  lemma {:induction false} InboundGuards(c: Config, s: State, t: State, a: Inbound, d: DialogRef)
    requires AlikeFor(s, t, d) && InboundMay(c, s, a)
    ensures InboundMay(c, t, a)
  {
    WaitIsInShare(s, t, d.id);
    if s.pc.Fetched? { SelectionIsInShare(s, t, d.id, s.pc.last, s.pc.items); }
  }

  lemma {:induction false} DeliveryGuards(c: Config, s: State, t: State, a: Protocol.Delivery, d: DialogRef)
    requires AlikeFor(s, t, d) && DeliveryMay(c, s, a) && (a.Compose? ==> s.h.mids == t.h.mids)
    ensures DeliveryMay(c, t, a)
  {}

  /** What may be done for a dialog is decided by its own share and the surroundings: not by other
      dialogs' rows, nor by which dialogs come before or after it. */
  lemma {:induction false} GuardsAreLocal(c: Config, s: State, t: State, a: Action, d: DialogRef)
    requires AlikeFor(s, t, d) && ForDialog(a) && (a.Delivery? && a.d.Compose? ==> s.h.mids == t.h.mids)
    ensures May(c, s, a) <==> May(c, t, a)
  {
    match a
    case Inbound(i) =>
      if InboundMay(c, s, i) { InboundGuards(c, s, t, i, d); }
      if InboundMay(c, t, i) { InboundGuards(c, t, s, i, d); }
    case Delivery(v) =>
      if DeliveryMay(c, s, v) { DeliveryGuards(c, s, t, v, d); }
      if DeliveryMay(c, t, v) { DeliveryGuards(c, t, s, v, d); }
  }

  /** However the cycle went for the dialogs before it, faults included, a dialog's turn begins from its own
      rows as they were, and may take just the steps it might have taken had the cycle begun with it. */
  lemma {:induction false} TurnIsItsOwn(c: Config, s: State, run: seq<Action>, d: DialogRef, ds: seq<DialogRef>,
                                        a: Action)
    requires Legal(c, s, run) && Stocked(ShelfOf(s)) && forall b :: b in run ==> InCycle(b)
    requires Trace(c, s, run, d.id) == [] && After(c, s, run).pc == AtDialog([d] + ds) && ForDialog(a)
    requires s.pc.AtDialog?
    ensures ShareOf(After(c, s, run), d.id) == ShareOf(s, d.id)
    ensures May(c, After(c, s, run), a) <==> May(c, s.(o := After(c, s, run).o, pc := AtDialog([d])), a)
  {
    CycleIsTheProductOfItsDialogs(c, s, run, d.id);
    var now, first := After(c, s, run), s.(o := After(c, s, run).o, pc := AtDialog([d]));
    assert AlikeFor(now, first, d);
    if !(a.Delivery? && a.d.Compose?) { GuardsAreLocal(c, now, first, a, d); }
  }

  // ---------------------------------------------------------------- whole visits

  /** The cycle is done with the dialog it was at. */
  predicate Left(pc: Pc) { pc.AtDialog? || Subject(pc).None? }

  /** A legal run that is one visit to the dialog, or a beginning of one: each step is made for the dialog, the
      world moving meanwhile, and nothing follows the step that leaves it. */
  ghost predicate IsVisit(c: Config, s: State, run: seq<Action>, d: DialogRef)
    decreases |run|
  {
    run != [] ==>
      && Subject(s.pc) == Some(d) && (run[0].World? || ForDialog(run[0])) && May(c, s, run[0])
      && IsVisit(c, Do(c, s, run[0]), run[1..], d)
      && (!run[0].World? && Left(Do(c, s, run[0]).pc) ==> |run| == 1)
  }

  lemma {:induction false} VisitIsLegal(c: Config, s: State, run: seq<Action>, d: DialogRef)
    requires IsVisit(c, s, run, d)
    ensures Legal(c, s, run)
    decreases |run|
  {
    if run != [] { VisitIsLegal(c, Do(c, s, run[0]), run[1..], d); }
  }

  /** Two cycles stand alike for a dialog, with the same Message-IDs used. */
  ghost predicate Twins(s: State, t: State, d: DialogRef) {
    AlikeFor(s, t, d) && s.h.mids == t.h.mids && Stocked(ShelfOf(s)) && Stocked(ShelfOf(t))
  }

  /** They left the dialog with the same share, in the same surroundings; or neither has. */
  ghost predicate EndAlike(s: State, t: State, d: DialogRef) {
    ShareOf(s, d.id) == ShareOf(t, d.id) && s.o == t.o && Left(s.pc) == Left(t.pc)
  }

  lemma {:induction false} StaysWithin(c: Config, s: State, a: Action, d: DialogRef)
    requires May(c, s, a) && ForDialog(a) && Subject(s.pc) == Some(d)
    ensures var s' := Do(c, s, a); Left(s'.pc) || Subject(s'.pc) == Some(d)
  {}

  /** Whether a dialog was left shows in its stage. */
  lemma {:induction false} LeftIsOut(s: State, d: DialogRef)
    requires Left(s.pc) || Subject(s.pc) == Some(d)
    ensures Left(s.pc) <==> ShareOf(s, d.id).stage.Out?
  {}

  lemma {:induction false} InboundLeavesRest(c: Config, s: State, a: Inbound)
    requires InboundMay(c, s, a)
    ensures InboundDoes(c, s, a).o == s.o && InboundDoes(c, s, a).h.mids == s.h.mids
  {}

  lemma {:induction false} DeliveryLeavesRest(c: Config, s: State, a: Protocol.Delivery)
    requires DeliveryMay(c, s, a)
    ensures DeliveryDoes(c, s, a).o == s.o
    ensures DeliveryDoes(c, s, a).h.mids == if a.Compose? then s.h.mids + Mids(a.parts) else s.h.mids
  {}

  lemma {:induction false} MadeForBoth(c: Config, s: State, t: State, a: Action)
    requires May(c, s, a) && May(c, t, a) && ForDialog(a) && s.o == t.o && s.h.mids == t.h.mids
    ensures Do(c, s, a).o == Do(c, t, a).o && Do(c, s, a).h.mids == Do(c, t, a).h.mids
  {
    match a
    case Inbound(i) => InboundLeavesRest(c, s, i); InboundLeavesRest(c, t, i);
    case Delivery(v) => DeliveryLeavesRest(c, s, v); DeliveryLeavesRest(c, t, v);
  }

  lemma {:induction false} SameShare(c: Config, s: State, t: State, a: Action, d: DialogRef)
    requires Twins(s, t, d) && May(c, s, a) && May(c, t, a) && InCycle(a)
    ensures ShareOf(Do(c, s, a), d.id) == ShareOf(Do(c, t, a), d.id)
  {
    CycleAlone(c, s, a, d.id);
    CycleAlone(c, t, a, d.id);
  }

  lemma {:induction false} LeaveTogether(c: Config, s: State, t: State, a: Action, d: DialogRef)
    requires May(c, s, a) && May(c, t, a) && ForDialog(a) && Subject(s.pc) == Some(d) && Subject(t.pc) == Some(d)
    requires ShareOf(Do(c, s, a), d.id) == ShareOf(Do(c, t, a), d.id)
    ensures var s', t' := Do(c, s, a), Do(c, t, a);
            && Left(s'.pc) == Left(t'.pc)
            && (!Left(s'.pc) ==> Subject(s'.pc) == Some(d) && Subject(t'.pc) == Some(d))
  {
    StaysWithin(c, s, a, d);
    StaysWithin(c, t, a, d);
    LeftIsOut(Do(c, s, a), d);
    LeftIsOut(Do(c, t, a), d);
  }

  lemma {:induction false} TwinsStep(c: Config, s: State, t: State, a: Action, d: DialogRef)
    requires Twins(s, t, d) && May(c, s, a) && ForDialog(a)
    ensures May(c, t, a) && EndAlike(Do(c, s, a), Do(c, t, a), d)
    ensures !Left(Do(c, s, a).pc) ==> Twins(Do(c, s, a), Do(c, t, a), d)
  {
    GuardsAreLocal(c, s, t, a, d);
    MadeForBoth(c, s, t, a);
    SameShare(c, s, t, a, d);
    LeaveTogether(c, s, t, a, d);
    StockedStep(c, s, a);
    StockedStep(c, t, a);
  }

  lemma {:induction false} TwinsInTime(c: Config, s: State, t: State, a: Action, d: DialogRef)
    requires Twins(s, t, d) && May(c, s, a) && a.World?
    ensures May(c, t, a) && Twins(Do(c, s, a), Do(c, t, a), d)
  {
    SameShare(c, s, t, a, d);
    StockedStep(c, s, a);
    StockedStep(c, t, a);
  }

  lemma {:induction false} VisitCarriesOver(c: Config, s: State, t: State, run: seq<Action>, d: DialogRef)
    requires Twins(s, t, d) && IsVisit(c, s, run, d)
    ensures IsVisit(c, t, run, d) && Legal(c, s, run) && Legal(c, t, run)
    ensures EndAlike(After(c, s, run), After(c, t, run), d)
    decreases |run|
  {
    if run != [] {
      var a := run[0];
      if a.World? { TwinsInTime(c, s, t, a, d); } else { TwinsStep(c, s, t, a, d); }
      if a.World? || !Left(Do(c, s, a).pc) { VisitCarriesOver(c, Do(c, s, a), Do(c, t, a), run[1..], d); }
    }
  }

  /** A whole visit is the dialog's own: what is a visit in one company is one in any other, alone included,
      and leaves the dialog the same share. */
  lemma {:induction false} VisitIsItsOwn(c: Config, s: State, t: State, run: seq<Action>, d: DialogRef)
    requires Twins(s, t, d)
    ensures IsVisit(c, s, run, d) <==> IsVisit(c, t, run, d)
    ensures IsVisit(c, s, run, d) ==>
              Legal(c, s, run) && Legal(c, t, run) && EndAlike(After(c, s, run), After(c, t, run), d)
  {
    if IsVisit(c, s, run, d) { VisitCarriesOver(c, s, t, run, d); }
    if IsVisit(c, t, run, d) { VisitCarriesOver(c, t, s, run, d); }
  }
}
