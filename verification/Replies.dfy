/** A reply goes back to where the mail it answers came from
    (src/mailtg_bridge/mail_in.py:103, src/mailtg_bridge/state.py:99-103, src/mailtg_bridge/orchestrator.py:80-97). */
module Replies {
  import opened Domain
  import opened Database
  import opened Protocol
  import opened Delivery
  import opened Runs
  import Routing

  function Reverse<T>(xs: seq<T>): seq<T> {
    if xs == [] then [] else Reverse(xs[1..]) + [xs[0]]
  }

  /** In-Reply-To first, then the references, the newest (the last) first. */
  function ParentIds(inReplyTo: seq<Mid>, references: seq<Mid>): seq<Mid> { inReplyTo + Reverse(references) }

  /** `ids[k]` is the first that the ledger knows. */
  predicate Nearest(t: Tables, ids: seq<Mid>, k: nat) {
    k < |ids| && ids[k] in t.ledger && forall j :: 0 <= j < k ==> ids[j] !in t.ledger
  }

  lemma {:induction false} LedgerDialogIsNearest(t: Tables, ids: seq<Mid>)
    ensures match LedgerDialog(t, ids)
            case None => forall m :: m in ids ==> m !in t.ledger
            case Some(d) => exists k: nat :: Nearest(t, ids, k) && t.ledger[ids[k]].dialog == d
  {
    if ids != [] {
      assert ids == [ids[0]] + ids[1..];
      if ids[0] in t.ledger {
        assert Nearest(t, ids, 0);
      } else {
        LedgerDialogIsNearest(t, ids[1..]);
        if LedgerDialog(t, ids).Some? {
          var k: nat :| Nearest(t, ids[1..], k) && t.ledger[ids[1..][k]].dialog == LedgerDialog(t, ids).value;
          assert Nearest(t, ids, k + 1);
        }
      }
    }
  }

  lemma {:induction false} LedgerDialogConcat(t: Tables, a: seq<Mid>, b: seq<Mid>)
    ensures LedgerDialog(t, a + b) == if LedgerDialog(t, a).Some? then LedgerDialog(t, a) else LedgerDialog(t, b)
  {
    if a == [] {
      assert a + b == b;
    } else {
      assert (a + b)[1..] == a[1..] + b;
      LedgerDialogConcat(t, a[1..], b);
    }
  }

  /** Among the references the last one that the ledger knows decides, and only when In-Reply-To does not. */
  lemma {:induction false} NewestReferenceDecides(t: Tables, inReplyTo: seq<Mid>, before: seq<Mid>, m: Mid,
                                                  behind: seq<Mid>)
    requires LedgerDialog(t, inReplyTo) == None && m in t.ledger && forall x :: x in behind ==> x !in t.ledger
    ensures LedgerDialog(t, ParentIds(inReplyTo, before + [m] + behind)) == Some(t.ledger[m].dialog)
  {
    LedgerDialogConcat(t, inReplyTo, Reverse(before + [m] + behind));
    assert before + [m] + behind == before + ([m] + behind);
    ReverseConcat(before, [m] + behind);
    ReverseConcat([m], behind);
    assert Reverse([m]) == [m] by { assert [m][1..] == []; }
    LedgerDialogConcat(t, Reverse(behind) + [m], Reverse(before));
    LedgerDialogConcat(t, Reverse(behind), [m]);
    UnknownReversed(t, behind);
  }

  lemma {:induction false} ReverseConcat<T>(a: seq<T>, b: seq<T>)
    ensures Reverse(a + b) == Reverse(b) + Reverse(a)
  {
    if a == [] {
      assert a + b == b;
    } else {
      assert (a + b)[1..] == a[1..] + b;
      ReverseConcat(a[1..], b);
    }
  }

  lemma {:induction false} UnknownReversed(t: Tables, ids: seq<Mid>)
    requires forall x :: x in ids ==> x !in t.ledger
    ensures LedgerDialog(t, Reverse(ids)) == None
  {
    if ids != [] {
      UnknownReversed(t, ids[1..]);
      LedgerDialogConcat(t, Reverse(ids[1..]), [ids[0]]);
      assert [ids[0]][1..] == [];
    }
  }

  /** In every run, a reply is posted into the dialog whose messages were in the nearest mail it answers. */
  lemma {:induction false} RepliesGoBack(c: Config, s: State)
    requires Reachable(c, s, NONE) && Posting(s)
    ensures exists k: nat :: Nearest(s.t, s.pc.ms[0].parents, k)
                        && s.pc.ms[0].parents[k] in s.h.delivery.accepted
                        && s.h.delivery.accepted[s.pc.ms[0].parents[k]].dialog == PostDialog(s)
  {
    ReachableHolds(c, s, NONE);
    var ids := s.pc.ms[0].parents;
    LedgerDialogIsNearest(s.t, ids);
    var k: nat :| Nearest(s.t, ids, k) && s.t.ledger[ids[k]].dialog == PostDialog(s);
    assert Traced(ShelfOf(s));
  }

  /** And so it is sent to the very peer and topic that the mail's messages came from. */
  lemma {:induction false} RepliesReachTheirPeer(c: Config, s: State, k: nat, p: Routing.Peer, topic: Option<nat>)
    requires Reachable(c, s, NONE) && Posting(s) && Nearest(s.t, s.pc.ms[0].parents, k) && topic != Some(0)
    requires var m := s.pc.ms[0].parents[k];
             m in s.h.delivery.accepted && s.h.delivery.accepted[m].dialog == Routing.DialogId(p, topic)
    ensures Routing.Target(PostDialog(s)) == (Some(Routing.PeerNumber(p)), topic)
  {
    RepliesGoBack(c, s);
    var ids := s.pc.ms[0].parents;
    var n: nat :| Nearest(s.t, ids, n) && ids[n] in s.h.delivery.accepted
      && s.h.delivery.accepted[ids[n]].dialog == PostDialog(s);
    assert n == k;
    Routing.DialogIdRoundTrip(p, topic);
  }
}
