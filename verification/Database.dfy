/** The durable state of the bridge (src/mailtg_bridge/state.py) and what each transaction does to it.

    `Tables` are the SQLite tables; an operation of the store is a function from tables to tables, or
    None when it raises and is rolled back.  Timestamps are instants: module IsoTime shows that their
    text compares alike. */
module Database {
  import opened Domain
  import opened Backoff
  import FiniteSets

  type Mid = nat
  type Ref = string

  datatype DialogRef = DialogRef(id: string, top: Option<int>, tag: string)
  datatype CursorRow = CursorRow(lastId: nat, tag: string)
  datatype LedgerRow = LedgerRow(dialog: string, at: real)
  datatype Pending = Pending(enabled: bool, at: real)
  datatype Sent = Sent(mid: Mid, dialog: string)

  /** `pending` is keyed by the command's mail: its kind is "command:" + ref. */
  datatype Tables = Tables(cursors: map<string, CursorRow>, ledger: map<Mid, LedgerRow>,
                           consumed: map<Ref, real>, echoes: map<(string, int), real>,
                           enabled: bool, valid: bool, notified: bool,
                           backoff: map<Scope, Decision>, pending: map<Ref, Pending>, notices: map<Mid, real>)

  /** What the schema migration leaves in a new database. */
  const FRESH := Tables(map[], map[], map[], map[], true, false, false, map[], map[], map[])

  /** The foreign key of the ledger. */
  ghost predicate Sound(t: Tables) {
    forall m :: m in t.ledger ==> t.ledger[m].dialog in t.cursors
  }

  // ---------------------------------------------------------------- reading

  function Cursor(t: Tables, dialog: string): nat {
    if dialog in t.cursors then t.cursors[dialog].lastId else 0
  }

  /** The dialog of the first id that the ledger knows. */
  function LedgerDialog(t: Tables, ids: seq<Mid>): Option<string> {
    if ids == [] then None
    else if ids[0] in t.ledger then Some(t.ledger[ids[0]].dialog)
    else LedgerDialog(t, ids[1..])
  }

  predicate IsBridgeMessage(t: Tables, ids: seq<Mid>) {
    exists i :: 0 <= i < |ids| && (ids[i] in t.ledger || ids[i] in t.notices)
  }

  predicate DeliveryAllowed(t: Tables) { t.enabled && t.valid }

  predicate Due(t: Tables, scope: Scope, now: real) {
    scope !in t.backoff || t.backoff[scope].notBefore <= now
  }

  // ---------------------------------------------------------------- writing

  /** The upsert: a new dialog starts at 0, a known one keeps its last id. */
  function EnsureDialog(t: Tables, d: DialogRef): Tables {
    t.(cursors := t.cursors[d.id := CursorRow(Cursor(t, d.id), d.tag)])
  }

  function Raise(t: Tables, d: DialogRef, high: int): Tables {
    var last := Cursor(t, d.id);
    t.(cursors := t.cursors[d.id := CursorRow(if high > last then high else last, d.tag)])
  }

  function AdvanceCursor(t: Tables, d: DialogRef, high: int): Option<Tables> {
    if high < 0 then None else Some(Raise(t, d, high))
  }

  /** The inserts of a delivery; a foreign dialog or a message id already present raises. */
  function InsertRows(ledger: map<Mid, LedgerRow>, sent: seq<Sent>, dialog: string, now: real)
    : Option<map<Mid, LedgerRow>>
    decreases |sent|
  {
    if sent == [] then Some(ledger)
    else if sent[0].dialog != dialog || sent[0].mid in ledger then None
    else InsertRows(ledger[sent[0].mid := LedgerRow(dialog, now)], sent[1..], dialog, now)
  }

  function CommitDelivery(t: Tables, d: DialogRef, sent: seq<Sent>, high: int, now: real): Option<Tables> {
    if sent == [] then None else
    match InsertRows(t.ledger, sent, d.id, now)
    case None => None
    case Some(ledger) => Some(Raise(t, d, high).(ledger := ledger))
  }

  function Once<K>(m: map<K, real>, k: K, now: real): map<K, real> {
    if k in m then m else m[k := now]
  }

  function CommitReply(t: Tables, ref: Ref, dialog: string, posted: int, now: real): Tables {
    t.(echoes := Once(t.echoes, (dialog, posted), now), consumed := Once(t.consumed, ref, now))
  }

  function SetEnabled(t: Tables, enabled: bool, ref: Ref, now: real): Tables {
    t.(enabled := enabled, consumed := Once(t.consumed, ref, now))
  }

  function SetSession(t: Tables, valid: bool, notified: bool): Tables { t.(valid := valid, notified := notified) }

  function RecordNotice(t: Tables, mid: Mid, now: real): Tables { t.(notices := Once(t.notices, mid, now)) }

  function SetBackoff(t: Tables, scope: Scope, d: Decision): Tables { t.(backoff := t.backoff[scope := d]) }

  function ClearBackoff(t: Tables, scope: Scope): Tables { t.(backoff := t.backoff - {scope}) }

  predicate IsTelegram(s: Scope) { s.TgList? || s.TgDialog? || s.TgPost? }

  function ClearTelegramBackoff(t: Tables): Tables {
    t.(backoff := map s | s in t.backoff && !IsTelegram(s) :: t.backoff[s])
  }

  function QueueNotice(t: Tables, ref: Ref, enabled: bool, now: real): Tables {
    t.(pending := t.pending[ref := Pending(enabled, now)])
  }

  function DeleteNotice(t: Tables, ref: Ref): Tables { t.(pending := t.pending - {ref}) }

  // ---------------------------------------------------------------- retention

  datatype Limits = Limits(retention: real, echoRetention: real, maxLedger: nat, maxConsumed: nat, maxEcho: nat)

  /** The keys left by DELETE ... WHERE at < cut. */
  function Young<K>(ages: map<K, real>, cut: real): set<K> {
    set k | k in ages && cut <= ages[k]
  }

  function Capped(n: nat, limit: nat): nat { if n < limit then n else limit }

  /** `kept` are the newest `limit` of the rows not older than the cut; which of several equally old
      rows go is left open. */
  ghost predicate Newest<K(!new)>(ages: map<K, real>, cut: real, limit: nat, kept: set<K>) {
    && (forall k :: k in kept ==> k in ages && cut <= ages[k])
    && |kept| == Capped(|Young(ages, cut)|, limit)
    && (forall k, r :: k in kept && r in ages && cut <= ages[r] && r !in kept ==> ages[r] <= ages[k])
  }

  function LedgerAges(t: Tables): map<Mid, real> { map m | m in t.ledger :: t.ledger[m].at }

  /** Rows of `m`, unchanged. */
  ghost predicate Rows<K(!new), V>(part: map<K, V>, m: map<K, V>) {
    forall k :: k in part ==> k in m && part[k] == m[k]
  }

  /** What retention leaves of one table. */
  ghost predicate Trimmed<K(!new), V>(rows: map<K, V>, ages: map<K, real>, cut: real, limit: nat, part: map<K, V>) {
    Newest(ages, cut, limit, part.Keys) && Rows(part, rows)
  }

  ghost predicate LedgerTrimmed(t: Tables, p: Limits, now: real, part: map<Mid, LedgerRow>) {
    Trimmed(t.ledger, LedgerAges(t), now - p.retention, p.maxLedger, part)
  }

  ghost predicate MarksTrimmed(t: Tables, p: Limits, now: real, part: map<Ref, real>) {
    Trimmed(t.consumed, t.consumed, now - p.retention, p.maxConsumed, part)
  }

  ghost predicate EchoesTrimmed(t: Tables, p: Limits, now: real, part: map<(string, int), real>) {
    Trimmed(t.echoes, t.echoes, now - p.echoRetention, p.maxEcho, part)
  }

  ghost predicate NoticesTrimmed(t: Tables, p: Limits, now: real, part: map<Mid, real>) {
    && (forall m :: m in part <==> m in t.notices && now - p.retention <= t.notices[m])
    && Rows(part, t.notices)
  }

  /** `purge_retention`, up to the choice among equally old rows. */
  ghost predicate Purged(t: Tables, p: Limits, now: real, t': Tables) {
    && LedgerTrimmed(t, p, now, t'.ledger) && MarksTrimmed(t, p, now, t'.consumed)
    && EchoesTrimmed(t, p, now, t'.echoes) && NoticesTrimmed(t, p, now, t'.notices)
    && t' == t.(ledger := t'.ledger, consumed := t'.consumed, echoes := t'.echoes, notices := t'.notices)
  }

  lemma {:induction false} OldestExists<K>(ages: map<K, real>, s: set<K>, k: K)
    requires k in s && s <= ages.Keys
    ensures exists o :: o in s && forall r :: r in s ==> ages[o] <= ages[r]
    decreases s
  {
    if r :| r in s && ages[r] < ages[k] {
      var rest := s - {k};
      OldestExists(ages, rest, r);
      var o :| o in rest && forall q :: q in rest ==> ages[o] <= ages[q];
      assert ages[o] <= ages[r] && forall q :: q in s ==> q == k || q in rest;
      assert o in s && forall q :: q in s ==> ages[o] <= ages[q];
    } else {
      assert forall r :: r in s ==> ages[k] <= ages[r];
    }
  }

  lemma {:induction false} SubsetOfSameSize<T>(a: set<T>, b: set<T>)
    requires a <= b && |a| >= |b|
    ensures a == b
  {
    if a != b {
      var x :| x in b && x !in a;
      SubsetSize(a, b - {x});
    }
  }

  lemma {:induction false} SubsetSize<T>(a: set<T>, b: set<T>)
    requires a <= b
    ensures |a| <= |b|
  {
    if a != {} {
      var x :| x in a;
      SubsetSize(a - {x}, b - {x});
    }
  }

  /** Of `s`, the keys newer than `k`, and the others that are as new. */
  function Newer<K>(ages: map<K, real>, s: set<K>, k: K): set<K>
    requires s <= ages.Keys && k in ages
  {
    set r | r in s && ages[r] > ages[k]
  }

  function AsNew<K>(ages: map<K, real>, s: set<K>, k: K): set<K>
    requires s <= ages.Keys && k in ages
  {
    set r | r in s && ages[r] >= ages[k] && r != k
  }

  /** What the caller can tell beforehand: whether a young key may go by count, and whether a key may stay. */
  predicate MayGo<K>(ages: map<K, real>, cut: real, limit: nat, k: K) {
    k in ages && cut <= ages[k] && |AsNew(ages, Young(ages, cut), k)| >= limit
  }

  predicate MayStay<K>(ages: map<K, real>, cut: real, limit: nat, k: K) {
    k in ages && cut <= ages[k] && |Newer(ages, Young(ages, cut), k)| < limit
  }

  /** `s` are newest of the young, whatever their number. */
  ghost predicate TopSet<K(!new)>(ages: map<K, real>, cut: real, s: set<K>) {
    && (forall k :: k in s ==> k in ages && cut <= ages[k])
    && (forall k, r :: k in s && r in ages && cut <= ages[r] && r !in s ==> ages[r] <= ages[k])
  }

  /** One of the oldest of a top set can be left out, and not `k` unless all others are newer. */
  lemma {:induction false} TopWithout<K(!new)>(ages: map<K, real>, cut: real, s: set<K>, o: K)
    requires TopSet(ages, cut, s) && o in s && forall r :: r in s ==> ages[o] <= ages[r]
    ensures TopSet(ages, cut, s - {o})
  {}

  /** A top set can be trimmed to `limit` keys without `k`. */
  lemma {:induction false} TrimAway<K(!new)>(ages: map<K, real>, cut: real, s: set<K>, limit: nat, k: K)
    returns (kept: set<K>)
    requires TopSet(ages, cut, s) && |s| >= limit
    requires k in s ==> |AsNew(ages, s, k)| >= limit
    ensures kept <= s && TopSet(ages, cut, kept) && |kept| == limit && k !in kept
    decreases |s|
  {
    if |s| == limit {
      if k in s { SubsetSize(AsNew(ages, s, k), s - {k}); }
      kept := s;
    } else {
      var some := FiniteSets.Pick(s);
      OldestExists(ages, s, some);
      var o :| o in s && forall r :: r in s ==> ages[o] <= ages[r];
      if k in s && ages[k] == ages[o] { o := k; }
      TopWithout(ages, cut, s, o);
      if k in s && o != k {
        assert AsNew(ages, s - {o}, k) == AsNew(ages, s, k);
      }
      kept := TrimAway(ages, cut, s - {o}, limit, k);
    }
  }

  /** A top set can be trimmed to `limit` keys with `k` among them. */
  lemma {:induction false} TrimAround<K(!new)>(ages: map<K, real>, cut: real, s: set<K>, limit: nat, k: K)
    returns (kept: set<K>)
    requires TopSet(ages, cut, s) && |s| >= limit && k in s && |Newer(ages, s, k)| < limit
    ensures kept <= s && TopSet(ages, cut, kept) && |kept| == limit && k in kept
    decreases |s|
  {
    if |s| == limit {
      kept := s;
    } else {
      OldestExists(ages, s, k);
      var o :| o in s && forall r :: r in s ==> ages[o] <= ages[r];
      if o == k {
        o := AnotherOldest(ages, s, k, limit);
      }
      TopWithout(ages, cut, s, o);
      assert Newer(ages, s - {o}, k) == Newer(ages, s, k);
      kept := TrimAround(ages, cut, s - {o}, limit, k);
    }
  }

  lemma {:induction false} AnotherOldest<K(!new)>(ages: map<K, real>, s: set<K>, k: K, limit: nat) returns (o: K)
    requires s <= ages.Keys && k in s && |s| > limit && |Newer(ages, s, k)| < limit
    requires forall r :: r in s ==> ages[k] <= ages[r]
    ensures o in s && o != k && forall r :: r in s ==> ages[o] <= ages[r]
  {
    var newer := Newer(ages, s, k);
    if s - {k} <= newer { SubsetSize(s - {k}, newer); }
    o := FiniteSets.Missing(newer, s - {k});
  }

  lemma {:induction false} YoungIsTop<K(!new)>(ages: map<K, real>, cut: real)
    ensures TopSet(ages, cut, Young(ages, cut))
  {}

  /** Some purge takes the young key `k` exactly when `limit` other young keys are as new. */
  lemma {:induction false} GoesExactlyWhen<K(!new)>(ages: map<K, real>, cut: real, limit: nat, k: K)
    requires k in ages && cut <= ages[k]
    ensures (exists kept :: Newest(ages, cut, limit, kept) && k !in kept) <==> MayGo(ages, cut, limit, k)
  {
    var young := Young(ages, cut);
    if kept :| Newest(ages, cut, limit, kept) && k !in kept {
      SubsetSize(kept, young - {k});
      SubsetSize(kept, AsNew(ages, young, k));
    }
    if MayGo(ages, cut, limit, k) {
      YoungIsTop(ages, cut);
      SubsetSize(AsNew(ages, young, k), young - {k});
      var kept := TrimAway(ages, cut, young, limit, k);
      assert Newest(ages, cut, limit, kept) && k !in kept;
    }
  }

  /** Some purge keeps `k` exactly when it is young and fewer than `limit` young keys are newer. */
  lemma {:induction false} StaysExactlyWhen<K(!new)>(ages: map<K, real>, cut: real, limit: nat, k: K)
    ensures (exists kept :: Newest(ages, cut, limit, kept) && k in kept) <==> MayStay(ages, cut, limit, k)
  {
    var young := Young(ages, cut);
    if kept :| Newest(ages, cut, limit, kept) && k in kept {
      SubsetSize(Newer(ages, young, k), kept - {k});
    }
    if MayStay(ages, cut, limit, k) {
      YoungIsTop(ages, cut);
      var kept := young;
      if |young| > limit {
        kept := TrimAround(ages, cut, young, limit, k);
      }
      assert Newest(ages, cut, limit, kept) && k in kept;
    }
  }

  /** Below the cap only the age counts. */
  lemma {:induction false} AllYoungKept<K(!new)>(ages: map<K, real>, cut: real, limit: nat, kept: set<K>)
    requires Newest(ages, cut, limit, kept) && |Young(ages, cut)| <= limit
    ensures kept == Young(ages, cut)
  {
    SubsetOfSameSize(kept, Young(ages, cut));
  }

  /** The caps hold; every kept row is one of the old ones, not older than the cut and at least as new as
      every row of its table that went by count; and every ledger row still has its cursor. */
  lemma {:induction false} PurgeKeepsTheNewest(t: Tables, p: Limits, now: real, t': Tables)
    requires Purged(t, p, now, t')
    ensures |t'.ledger| <= p.maxLedger && |t'.consumed| <= p.maxConsumed && |t'.echoes| <= p.maxEcho
    ensures forall m :: m in t'.ledger ==> m in t.ledger && now - p.retention <= t.ledger[m].at
    ensures forall m, r :: m in t'.ledger && r in t.ledger && r !in t'.ledger && now - p.retention <= t.ledger[r].at ==>
              t.ledger[r].at <= t'.ledger[m].at
    ensures forall m :: m in t'.consumed ==> m in t.consumed && now - p.retention <= t.consumed[m]
    ensures forall m, r ::
              m in t'.consumed && r in t.consumed && r !in t'.consumed && now - p.retention <= t.consumed[r] ==>
              t.consumed[r] <= t'.consumed[m]
    ensures forall m :: m in t'.echoes ==> m in t.echoes && now - p.echoRetention <= t.echoes[m]
    ensures forall m, r ::
              m in t'.echoes && r in t.echoes && r !in t'.echoes && now - p.echoRetention <= t.echoes[r] ==>
              t.echoes[r] <= t'.echoes[m]
    ensures forall m :: m in t'.notices ==> m in t.notices && now - p.retention <= t.notices[m]
    ensures Sound(t) ==> Sound(t')
  {}

  /** A table already within its cap and its age limit is left as it is. */
  lemma {:induction false} NothingToTrim<K(!new), V>(
      rows: map<K, V>, ages: map<K, real>, cut: real, limit: nat, part: map<K, V>,
      ages': map<K, real>, again: map<K, V>)
    requires Trimmed(rows, ages, cut, limit, part)
    requires ages'.Keys == part.Keys && Rows(ages', ages)
    requires Trimmed(part, ages', cut, limit, again)
    ensures again == part
  {
    assert Young(ages', cut) == part.Keys;
    SubsetOfSameSize(again.Keys, part.Keys);
  }

  lemma {:induction false} AgesOfRows(t: Tables, t': Tables)
    requires Rows(t'.ledger, t.ledger)
    ensures LedgerAges(t').Keys == t'.ledger.Keys && Rows(LedgerAges(t'), LedgerAges(t))
  {}

  lemma {:induction false} LedgerTwice(t: Tables, p: Limits, now: real, t': Tables, t'': Tables)
    requires LedgerTrimmed(t, p, now, t'.ledger) && LedgerTrimmed(t', p, now, t''.ledger)
    ensures t''.ledger == t'.ledger
  {
    AgesOfRows(t, t');
    NothingToTrim(t.ledger, LedgerAges(t), now - p.retention, p.maxLedger, t'.ledger, LedgerAges(t'), t''.ledger);
  }

  lemma {:induction false} MarksTwice(t: Tables, p: Limits, now: real, t': Tables, t'': Tables)
    requires MarksTrimmed(t, p, now, t'.consumed) && MarksTrimmed(t', p, now, t''.consumed)
    ensures t''.consumed == t'.consumed
  {
    NothingToTrim(t.consumed, t.consumed, now - p.retention, p.maxConsumed, t'.consumed, t'.consumed, t''.consumed);
  }

  lemma {:induction false} EchoesTwice(t: Tables, p: Limits, now: real, t': Tables, t'': Tables)
    requires EchoesTrimmed(t, p, now, t'.echoes) && EchoesTrimmed(t', p, now, t''.echoes)
    ensures t''.echoes == t'.echoes
  {
    NothingToTrim(t.echoes, t.echoes, now - p.echoRetention, p.maxEcho, t'.echoes, t'.echoes, t''.echoes);
  }

  lemma {:induction false} NoticesTwice(t: Tables, p: Limits, now: real, t': Tables, t'': Tables)
    requires NoticesTrimmed(t, p, now, t'.notices) && NoticesTrimmed(t', p, now, t''.notices)
    ensures t''.notices == t'.notices
  {}

  /** A second purge at the same time changes nothing. */
  lemma {:induction false} PurgeTwiceIsPurgeOnce(t: Tables, p: Limits, now: real, t': Tables, t'': Tables)
    requires Purged(t, p, now, t') && Purged(t', p, now, t'')
    ensures t'' == t'
  {
    LedgerTwice(t, p, now, t', t'');
    MarksTwice(t, p, now, t', t'');
    EchoesTwice(t, p, now, t', t'');
    NoticesTwice(t, p, now, t', t'');
  }
}
