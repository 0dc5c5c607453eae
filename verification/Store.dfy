/** The store in the source's form: a class around the tables, one method a transaction
    (src/mailtg_bridge/state.py:13-165). */
module Store {
  import opened Domain
  import opened Backoff
  import opened Database
  import FiniteSets
  import opened Sequences

  /** DELETE of the rows older than the cut, then of all but the newest `limit`: the keys that stay. */
  method Trim<K(!new, ==)>(ages: map<K, real>, cut: real, limit: nat) returns (kept: set<K>)
    ensures Newest(ages, cut, limit, kept)
  {
    kept := Young(ages, cut);
    while |kept| > limit
      invariant Newest(ages, cut, |kept|, kept)
      invariant |kept| >= limit || kept == Young(ages, cut)
      decreases |kept|
    {
      ghost var some := FiniteSets.Pick(kept);
      OldestExists(ages, kept, some);
      var o :| o in kept && forall r :: r in kept ==> ages[o] <= ages[r];
      kept := kept - {o};
    }
  }

  method TrimTable<K(!new, ==), V>(rows: map<K, V>, ages: map<K, real>, cut: real, limit: nat) returns (part: map<K, V>)
    requires ages.Keys == rows.Keys
    ensures Trimmed(rows, ages, cut, limit, part)
  {
    var kept := Trim(ages, cut, limit);
    part := map k | k in kept :: rows[k];
    assert part.Keys == kept;
  }

  method TrimLedger(t: Tables, p: Limits, now: real) returns (part: map<Mid, LedgerRow>)
    ensures LedgerTrimmed(t, p, now, part)
  {
    part := TrimTable(t.ledger, LedgerAges(t), now - p.retention, p.maxLedger);
  }

  method TrimMarks(t: Tables, p: Limits, now: real) returns (part: map<Ref, real>)
    ensures MarksTrimmed(t, p, now, part)
  {
    part := TrimTable(t.consumed, t.consumed, now - p.retention, p.maxConsumed);
  }

  method TrimEchoes(t: Tables, p: Limits, now: real) returns (part: map<(string, int), real>)
    ensures EchoesTrimmed(t, p, now, part)
  {
    part := TrimTable(t.echoes, t.echoes, now - p.echoRetention, p.maxEcho);
  }

  method TrimNotices(t: Tables, p: Limits, now: real) returns (part: map<Mid, real>)
    ensures NoticesTrimmed(t, p, now, part)
  {
    part := map m | m in t.notices && now - p.retention <= t.notices[m] :: t.notices[m];
  }

  class SQLiteStore {
    var db: Tables

    constructor ()
      ensures db == FRESH
    {
      db := FRESH;
    }

    method GetCursor(d: DialogRef) returns (lastId: nat)
      modifies this
      ensures db == Database.EnsureDialog(old(db), d)
      ensures lastId == Database.Cursor(old(db), d.id)
    {
      db := Database.EnsureDialog(db, d);
      lastId := db.cursors[d.id].lastId;
    }

    method AdvanceCursor(d: DialogRef, high: int) returns (ok: bool)
      modifies this
      ensures ok == Database.AdvanceCursor(old(db), d, high).Some?
      ensures db == if ok then Database.AdvanceCursor(old(db), d, high).value else old(db)
    {
      if high < 0 { return false; }
      db := Database.EnsureDialog(db, d);
      var row := db.cursors[d.id];
      db := db.(cursors := db.cursors[d.id := row.(lastId := if high > row.lastId then high else row.lastId)]);
      ok := true;
    }

    /** Ledger rows and cursor in one transaction; when an insert raises, nothing stays. */
    method CommitDelivery(d: DialogRef, sent: seq<Sent>, high: int, now: real) returns (ok: bool)
      modifies this
      ensures ok == Database.CommitDelivery(old(db), d, sent, high, now).Some?
      ensures db == if ok then Database.CommitDelivery(old(db), d, sent, high, now).value else old(db)
    {
      if sent == [] { return false; }
      var before := db;
      db := Database.EnsureDialog(db, d);
      assert sent[0..] == sent;
      for i := 0 to |sent|
        invariant db == Database.EnsureDialog(before, d).(ledger := db.ledger)
        invariant Database.InsertRows(db.ledger, sent[i..], d.id, now)
                  == Database.InsertRows(before.ledger, sent, d.id, now)
      {
        assert sent[i..][0] == sent[i] && sent[i..][1..] == sent[i + 1..];
        if sent[i].dialog != d.id || sent[i].mid in db.ledger {
          db := before;
          return false;
        }
        db := db.(ledger := db.ledger[sent[i].mid := LedgerRow(d.id, now)]);
      }
      var row := db.cursors[d.id];
      db := db.(cursors := db.cursors[d.id := row.(lastId := if high > row.lastId then high else row.lastId)]);
      ok := true;
    }

    method LedgerDialog(ids: seq<Mid>) returns (dialog: Option<string>)
      ensures dialog == Database.LedgerDialog(db, ids)
    {
      assert ids[0..] == ids;
      for i := 0 to |ids|
        invariant Database.LedgerDialog(db, ids) == Database.LedgerDialog(db, ids[i..])
      {
        assert ids[i..][1..] == ids[i + 1..];
        if ids[i] in db.ledger { return Some(db.ledger[ids[i]].dialog); }
      }
      dialog := None;
    }

    method IsBridgeMessage(ids: seq<Mid>) returns (known: bool)
      ensures known == Database.IsBridgeMessage(db, ids)
    {
      for i := 0 to |ids|
        invariant forall j :: 0 <= j < i ==> ids[j] !in db.ledger && ids[j] !in db.notices
      {
        if ids[i] in db.ledger { return true; }
        if ids[i] in db.notices { return true; }
      }
      known := false;
    }

    method CommitReply(ref: Ref, dialog: string, posted: int, now: real)
      modifies this
      ensures db == Database.CommitReply(old(db), ref, dialog, posted, now)
    {
      db := db.(echoes := Once(db.echoes, (dialog, posted), now));
      db := db.(consumed := Once(db.consumed, ref, now));
    }

    method SetBridgeEnabled(enabled: bool, ref: Ref, now: real)
      modifies this
      ensures db == Database.SetEnabled(old(db), enabled, ref, now)
    {
      db := db.(enabled := enabled);
      db := db.(consumed := Once(db.consumed, ref, now));
    }

    method SetSession(valid: bool, notified: bool)
      modifies this
      ensures db == Database.SetSession(old(db), valid, notified)
    {
      db := db.(valid := valid, notified := notified);
    }

    method MarkSessionNotified()
      modifies this
      ensures db == old(db).(notified := true)
    {
      db := db.(notified := true);
    }

    method RecordNoticeSent(mid: Mid, now: real)
      modifies this
      ensures db == Database.RecordNotice(old(db), mid, now)
    {
      db := db.(notices := Once(db.notices, mid, now));
    }

    method SetBackoff(scope: Scope, d: Decision)
      modifies this
      ensures db == Database.SetBackoff(old(db), scope, d)
    {
      db := db.(backoff := db.backoff[scope := d]);
    }

    method ClearBackoff(scope: Scope)
      modifies this
      ensures db == Database.ClearBackoff(old(db), scope)
    {
      db := db.(backoff := db.backoff - {scope});
    }

    method ClearTelegramBackoff()
      modifies this
      ensures db == Database.ClearTelegramBackoff(old(db))
    {
      db := db.(backoff := map s | s in db.backoff && !IsTelegram(s) :: db.backoff[s]);
    }

    method QueueNotice(ref: Ref, enabled: bool, now: real)
      modifies this
      ensures db == Database.QueueNotice(old(db), ref, enabled, now)
    {
      db := db.(pending := db.pending[ref := Pending(enabled, now)]);
    }

    method DeleteNotice(ref: Ref)
      modifies this
      ensures db == Database.DeleteNotice(old(db), ref)
    {
      db := db.(pending := db.pending - {ref});
    }

    /** SELECT ... ORDER BY created_at. */
    method PendingNotices() returns (refs: seq<Ref>)
      ensures Distinct(refs) && forall r :: r in refs <==> r in db.pending
      ensures forall i, j :: 0 <= i < j < |refs| ==> db.pending[refs[i]].at <= db.pending[refs[j]].at
    {
      var ages := map r | r in db.pending :: db.pending[r].at;
      var left := db.pending.Keys;
      refs := [];
      while left != {}
        invariant left <= db.pending.Keys && Distinct(refs)
        invariant forall r :: r in refs <==> r in db.pending && r !in left
        invariant forall i, j :: 0 <= i < j < |refs| ==> db.pending[refs[i]].at <= db.pending[refs[j]].at
        invariant forall i, r :: 0 <= i < |refs| && r in left ==> db.pending[refs[i]].at <= db.pending[r].at
        decreases |left|
      {
        ghost var some := FiniteSets.Pick(left);
        OldestExists(ages, left, some);
        var o :| o in left && forall r :: r in left ==> ages[o] <= ages[r];
        refs := refs + [o];
        left := left - {o};
      }
    }

    method PurgeRetention(p: Limits, now: real)
      modifies this
      ensures Purged(old(db), p, now, db)
    {
      var ledger := TrimLedger(db, p, now);
      var consumed := TrimMarks(db, p, now);
      var echoes := TrimEchoes(db, p, now);
      var notices := TrimNotices(db, p, now);
      db := db.(ledger := ledger, consumed := consumed, echoes := echoes, notices := notices);
    }
  }
}
