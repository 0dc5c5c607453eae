/** When a purge lets a mail act again or forgets an echo too early, as told beforehand
    (src/mailtg_bridge/state.py:155-165, src/mailtg_bridge/orchestrator.py:48-52, 78-99). */
module Retention {
  import opened Domain
  import opened Database
  import opened Protocol
  import opened Intake
  import opened Delivery
  import opened Confirmations
  import FiniteSets

  /** The mail acts as soon as switch, session and backoff let it. */
  ghost predicate CanAct(t: Tables, x: Mail) {
    x.ref !in t.consumed && Actable(x) && exists m :: LeansOn(x, t.ledger.Keys, t.notices.Keys, m)
  }

  /** A command acts at once; a reply also waits for the gates and for its dialog's backoff. */
  lemma {:induction false} ActsIff(t: Tables, x: Mail, now: real)
    ensures Obeys(t, x) <==> CanAct(t, x) && x.command.Some?
    ensures Posts(t, x, now) <==>
              CanAct(t, x) && x.command.None? && DeliveryAllowed(t)
              && LedgerDialog(t, x.parents).Some? && Due(t, TgPost(LedgerDialog(t, x.parents).value), now)
  {
    KnownIff(t, x);
  }

  lemma {:induction false} KnownIff(t: Tables, x: Mail)
    ensures x.command.Some? ==>
            (IsBridgeMessage(t, x.parents) <==> exists m :: LeansOn(x, t.ledger.Keys, t.notices.Keys, m))
    ensures LedgerDialog(t, x.parents).Some? ==> exists m :: LeansOn(x, t.ledger.Keys, t.notices.Keys, m)
  {
    if m :| LeansOn(x, t.ledger.Keys, t.notices.Keys, m) {
      var i :| 0 <= i < |x.parents| && x.parents[i] == m;
    }
    if IsBridgeMessage(t, x.parents) && x.command.Some? {
      var i :| 0 <= i < |x.parents| && (x.parents[i] in t.ledger || x.parents[i] in t.notices);
      assert LeansOn(x, t.ledger.Keys, t.notices.Keys, x.parents[i]);
    }
    if LedgerDialog(t, x.parents).Some? && forall m :: !LeansOn(x, t.ledger.Keys, t.notices.Keys, m) {
      NoParentKnown(t, x);
    }
  }

  /** Some purge leaves the mail able to act. */
  ghost predicate Wakes(t: Tables, p: Limits, now: real, x: Mail) {
    exists t' :: Purged(t, p, now, t') && CanAct(t', x)
  }

  lemma {:induction false} SomeNewest<K(!new)>(ages: map<K, real>, cut: real, s: set<K>, limit: nat)
    returns (kept: set<K>)
    requires TopSet(ages, cut, s) && |s| >= limit
    ensures TopSet(ages, cut, kept) && |kept| == limit
    decreases |s|
  {
    if |s| == limit {
      kept := s;
    } else {
      var some := FiniteSets.Pick(s);
      OldestExists(ages, s, some);
      var o :| o in s && forall r :: r in s ==> ages[o] <= ages[r];
      TopWithout(ages, cut, s, o);
      kept := SomeNewest(ages, cut, s - {o}, limit);
    }
  }

  lemma {:induction false} NewestExists<K(!new)>(ages: map<K, real>, cut: real, limit: nat) returns (kept: set<K>)
    ensures Newest(ages, cut, limit, kept)
  {
    YoungIsTop(ages, cut);
    kept := Young(ages, cut);
    if |kept| > limit { kept := SomeNewest(ages, cut, kept, limit); }
  }

  /** The ledger after a purge that keeps `m`, if it can stay. */
  lemma {:induction false} LedgerAround(t: Tables, p: Limits, now: real, m: Mid) returns (part: map<Mid, LedgerRow>)
    ensures LedgerTrimmed(t, p, now, part)
    ensures MayStay(LedgerAges(t), now - p.retention, p.maxLedger, m) ==> m in part
  {
    var ages, cut := LedgerAges(t), now - p.retention;
    var kept := NewestExists(ages, cut, p.maxLedger);
    if MayStay(ages, cut, p.maxLedger, m) {
      StaysExactlyWhen(ages, cut, p.maxLedger, m);
      kept :| Newest(ages, cut, p.maxLedger, kept) && m in kept;
    }
    part := map k | k in kept :: t.ledger[k];
    assert part.Keys == kept;
  }

  lemma {:induction false} MarksWithout(t: Tables, p: Limits, now: real, r: Ref) returns (part: map<Ref, real>)
    requires MayGo(t.consumed, now - p.retention, p.maxConsumed, r)
    ensures MarksTrimmed(t, p, now, part) && r !in part
  {
    var ages, cut := t.consumed, now - p.retention;
    GoesExactlyWhen(ages, cut, p.maxConsumed, r);
    var kept :| Newest(ages, cut, p.maxConsumed, kept) && r !in kept;
    part := map k | k in kept :: t.consumed[k];
    assert part.Keys == kept;
  }

  lemma {:induction false} SomeEchoes(t: Tables, p: Limits, now: real) returns (part: map<(string, int), real>)
    ensures EchoesTrimmed(t, p, now, part)
  {
    var kept := NewestExists(t.echoes, now - p.echoRetention, p.maxEcho);
    part := map k | k in kept :: t.echoes[k];
    assert part.Keys == kept;
  }

  lemma {:induction false} YoungNotices(t: Tables, p: Limits, now: real) returns (part: map<Mid, real>)
    ensures NoticesTrimmed(t, p, now, part)
  {
    part := map k | k in t.notices && now - p.retention <= t.notices[k] :: t.notices[k];
  }

  lemma {:induction false} WakingPurge(t: Tables, p: Limits, now: real, x: Mail)
    requires MayWake(t, p, now, x)
    ensures Wakes(t, p, now, x)
  {
    var m :| m in x.parents && MayKeep(t, p, now, x, m);
    var ledger := LedgerAround(t, p, now, m);
    var consumed := MarksWithout(t, p, now, x.ref);
    var echoes := SomeEchoes(t, p, now);
    var notices := YoungNotices(t, p, now);
    WakesBy(t, p, now, x, m, t.(ledger := ledger, consumed := consumed, echoes := echoes, notices := notices));
  }

  lemma {:induction false} WakesBy(t: Tables, p: Limits, now: real, x: Mail, m: Mid, t': Tables)
    requires Purged(t, p, now, t') && Actable(x) && x.ref !in t'.consumed && m in x.parents && MayKeep(t, p, now, x, m)
    requires MayStay(LedgerAges(t), now - p.retention, p.maxLedger, m) ==> m in t'.ledger
    ensures Wakes(t, p, now, x)
  {
    assert LeansOn(x, t'.ledger.Keys, t'.notices.Keys, m);
    assert CanAct(t', x);
  }

  /** Some purge wakes a used mail exactly when, before it, the mail's young mark has `maxConsumed` others as
      new beside it while a row it acts on is young and, if in the ledger, within the newest `maxLedger`. */
  lemma {:induction false} PurgeWakesExactlyWhen(s: State, p: Limits, r: Ref)
    requires Settled(BookOf(s)) && r in s.h.intake.used && r in s.o.inbox
    ensures Wakes(s.t, p, s.o.now, s.o.inbox[r]) <==> MayWake(s.t, p, s.o.now, s.o.inbox[r])
  {
    var x, b := s.o.inbox[r], BookOf(s);
    if MayWake(s.t, p, s.o.now, x) { WakingPurge(s.t, p, s.o.now, x); }
    if Wakes(s.t, p, s.o.now, x) {
      var t' :| Purged(s.t, p, s.o.now, t') && CanAct(t', x);
      var m :| LeansOn(x, t'.ledger.Keys, t'.notices.Keys, m);
      LedgerLeft(s.t, p, s.o.now, t'.ledger);
      NoticesLeft(s.t, p, s.o.now, t'.notices);
      MarkWasYoung(b, r, t', s.o.now - p.retention, m);
      WentAndStayed(s.t, p, s.o.now, t', x, m);
    }
  }

  /** Over all mails: a purge is harmless, as told beforehand, exactly when none wakes a used mail. */
  lemma {:induction false} HarmlessExactlyWhen(s: State, p: Limits)
    requires Settled(BookOf(s))
    ensures Harmless(s, p) <==>
            forall r :: r in s.h.intake.used && r in s.o.inbox ==> !Wakes(s.t, p, s.o.now, s.o.inbox[r])
  {
    forall r | r in s.h.intake.used && r in s.o.inbox
      ensures Wakes(s.t, p, s.o.now, s.o.inbox[r]) <==> MayWake(s.t, p, s.o.now, s.o.inbox[r])
    {
      PurgeWakesExactlyWhen(s, p, r);
    }
  }

  // ---------------------------------------------------------------- echoes and notices

  lemma {:induction false} EchoesWithout(t: Tables, p: Limits, now: real, e: (string, int))
    returns (part: map<(string, int), real>)
    requires e in t.echoes
    requires t.echoes[e] < now - p.echoRetention || MayGo(t.echoes, now - p.echoRetention, p.maxEcho, e)
    ensures EchoesTrimmed(t, p, now, part) && e !in part
  {
    var ages, cut := t.echoes, now - p.echoRetention;
    var kept := NewestExists(ages, cut, p.maxEcho);
    if cut <= ages[e] {
      GoesExactlyWhen(ages, cut, p.maxEcho, e);
      kept :| Newest(ages, cut, p.maxEcho, kept) && e !in kept;
    }
    part := map k | k in kept :: t.echoes[k];
    assert part.Keys == kept;
  }

  /** Some purge takes an echo still above its dialog's cursor. */
  ghost predicate ForgetsEcho(t: Tables, p: Limits, now: real) {
    exists t', e :: Purged(t, p, now, t') && e in t.echoes && e !in t'.echoes && Cursor(t, e.0) < e.1
  }

  /** That no purge takes one can be told beforehand. */
  lemma {:induction false} EchoesLastExactlyWhen(t: Tables, p: Limits, now: real)
    ensures EchoesLast(t, p, now) <==> !ForgetsEcho(t, p, now)
  {
    if ForgetsEcho(t, p, now) {
      var t', e :| Purged(t, p, now, t') && e in t.echoes && e !in t'.echoes && Cursor(t, e.0) < e.1;
      if now - p.echoRetention <= t.echoes[e] { EchoWent(t, p, now, t'.echoes, e); }
    }
    if !EchoesLast(t, p, now) {
      var e :| e in t.echoes && Cursor(t, e.0) < e.1
               && (t.echoes[e] < now - p.echoRetention || MayGo(t.echoes, now - p.echoRetention, p.maxEcho, e));
      ForgettingPurge(t, p, now, e);
    }
  }

  lemma {:induction false} ForgettingPurge(t: Tables, p: Limits, now: real, e: (string, int))
    requires e in t.echoes && Cursor(t, e.0) < e.1
    requires t.echoes[e] < now - p.echoRetention || MayGo(t.echoes, now - p.echoRetention, p.maxEcho, e)
    ensures ForgetsEcho(t, p, now)
  {
    var some := SomePurge(t, p, now);
    var echoes := EchoesWithout(t, p, now, e);
    var t' := some.(echoes := echoes);
    assert Purged(t, p, now, t') && e !in t'.echoes;
  }

  /** That no purge takes a recorded Message-ID can be told beforehand too. */
  lemma {:induction false} NoticesLastExactlyWhen(t: Tables, p: Limits, now: real)
    ensures NoticesLast(t, p, now) <==>
            forall t' :: Purged(t, p, now, t') ==> t.notices.Keys <= t'.notices.Keys
  {
    if !NoticesLast(t, p, now) {
      var m :| m in t.notices && t.notices[m] < now - p.retention;
      var t' := SomePurge(t, p, now);
      assert m !in t'.notices;
    }
  }

  lemma {:induction false} SomePurge(t: Tables, p: Limits, now: real) returns (t': Tables)
    ensures Purged(t, p, now, t')
  {
    var ledger := LedgerAround(t, p, now, 0);
    var consumed := SomeMarks(t, p, now);
    var echoes := SomeEchoes(t, p, now);
    var notices := YoungNotices(t, p, now);
    t' := t.(ledger := ledger, consumed := consumed, echoes := echoes, notices := notices);
  }

  lemma {:induction false} SomeMarks(t: Tables, p: Limits, now: real) returns (part: map<Ref, real>)
    ensures MarksTrimmed(t, p, now, part)
  {
    var kept := NewestExists(t.consumed, now - p.retention, p.maxConsumed);
    part := map k | k in kept :: t.consumed[k];
    assert part.Keys == kept;
  }

  // ---------------------------------------------------------------- marks gone by age

  /** A mark that went by age takes every row its mail acts on with it. */
  lemma {:induction false} MarkWasYoung(b: Book, r: Ref, t: Tables, cut: real, m: Mid)
    requires Settled(b) && r in b.used && LeansOn(b.inbox[r], t.ledger.Keys, t.notices.Keys, m)
    requires m in t.ledger ==> m in b.ledger && cut <= b.ledger[m].at
    requires m in t.notices ==> m in b.notices && cut <= b.notices[m]
    ensures r in b.consumed && cut <= b.consumed[r]
  {
    assert Cites(b, r, m);
    assert LeansOn(b.inbox[r], b.ledger.Keys, b.notices.Keys, m);
  }

  /** So a purge with fewer young marks than the cap wakes nothing. */
  lemma {:induction false} WithinTheCap(s: State, p: Limits)
    requires |Young(s.t.consumed, s.o.now - p.retention)| <= p.maxConsumed
    ensures Harmless(s, p)
  {
    var young := Young(s.t.consumed, s.o.now - p.retention);
    forall r | r in young ensures |AsNew(s.t.consumed, young, r)| < p.maxConsumed {
      SubsetSize(AsNew(s.t.consumed, young, r), young - {r});
    }
  }
}
