/** What the downloads of a batch hand to the composer (src/mailtg_bridge/orchestrator.py:52-62), and that
    none of it goes missing on the way into the mails. */
module Downloads {
  import opened Domain
  import opened Sequences
  import opened Protocol
  import opened Ports
  import opened Delivery
  import Composer

  /** One stand-in for each medium of a message whose media could not be had. */
  function Placeholders(refs: seq<MediaRef>): seq<Downloaded> {
    seq(|refs|, i requires 0 <= i < |refs| => Downloaded(refs[i], "unavailable", 0, false))
  }

  function Stored(m: Message, r: Download): seq<Downloaded> {
    if r.Got? then r.files else Placeholders(m.media)
  }

  /** The dictionary after the messages so far, given the answers; messages without media are passed over. */
  function Collected(ms: seq<Message>, answers: seq<Download>): Composer.Media
    requires |ms| == |answers|
  {
    if ms == [] then map[]
    else
      var n := |ms| - 1;
      var before := Collected(ms[..n], answers[..n]);
      if ms[n].media == [] then before else before[ms[n].id := Stored(ms[n], answers[n])]
  }

  predicate DistinctIds(ms: seq<Message>) {
    forall i, j :: 0 <= i < j < |ms| ==> ms[i].id != ms[j].id
  }

  lemma {:induction false} AscendingTail(items: seq<Item>)
    requires items != [] && Ascending(Ids(items))
    ensures Ascending(Ids(items[1..])) && forall id :: id in Ids(items[1..]) ==> items[0].id < id
  {
    var ids, rest := Ids(items), Ids(items[1..]);
    assert ids == [items[0].id] + rest;
    forall i, j | 0 <= i < j < |rest| ensures rest[i] < rest[j] {
      assert ids[i + 1] < ids[j + 1];
    }
    forall id | id in rest ensures items[0].id < id {
      var i :| 0 <= i < |rest| && rest[i] == id;
      assert ids[0] < ids[i + 1];
    }
  }

  lemma {:induction false} AscendingCons(id: int, ids: seq<int>)
    requires Ascending(ids) && forall x :: x in ids ==> id < x
    ensures Ascending([id] + ids)
  {
    var longer := [id] + ids;
    forall i, j | 0 <= i < j < |longer| ensures longer[i] < longer[j] {
      assert longer[j] == ids[j - 1] && longer[j] in ids;
    }
  }

  /** What is selected from a fetch keeps its order. */
  lemma {:induction false} SelectedAscends(echoes: map<(string, int), real>, d: string, last: nat, items: seq<Item>)
    requires Ascending(Ids(items))
    ensures Ascending(Ids(Selected(echoes, d, last, items)))
  {
    if items != [] {
      AscendingTail(items);
      SelectedAscends(echoes, d, last, items[1..]);
      SelectedIds(echoes, d, last, items[1..]);
      var rest := Selected(echoes, d, last, items[1..]);
      AscendingCons(items[0].id, Ids(rest));
      assert ([items[0]] + rest)[1..] == rest;
      assert [] + rest == rest;
    }
  }

  lemma {:induction false} AscendingIsDistinct(items: seq<Item>, ms: seq<Message>)
    requires Ascending(Ids(items)) && Matches(items, ms)
    ensures DistinctIds(ms)
    decreases |ms|
  {
    if items != [] {
      AscendingTail(items);
      AscendingIsDistinct(items[1..], ms[1..]);
      forall j | 0 < j < |ms| ensures ms[0].id != ms[j].id {
        assert ms[j].id == items[1..][j - 1].id;
        IdOf(items[1..], items[1..][j - 1]);
      }
    }
  }

  /** So the messages of a batch, as selected from a fetch, have ids of their own. */
  lemma {:induction false} BatchIdsAreDistinct(c: Config, backlog: set<int>, items: seq<Item>,
                                               echoes: map<(string, int), real>, d: string, last: nat,
                                               chosen: seq<Message>)
    requires FetchOf(c, backlog, items) && Matches(Selected(echoes, d, last, items), chosen)
    ensures DistinctIds(chosen)
  {
    SelectedAscends(echoes, d, last, items);
    AscendingIsDistinct(Selected(echoes, d, last, items), chosen);
  }

  lemma {:induction false} CollectedGives(ms: seq<Message>, answers: seq<Download>, i: nat)
    requires |ms| == |answers| && i < |ms| && DistinctIds(ms) && ms[i].media != []
    ensures ms[i].id in Collected(ms, answers) && Collected(ms, answers)[ms[i].id] == Stored(ms[i], answers[i])
    decreases |ms|
  {
    var n := |ms| - 1;
    if i < n { CollectedGives(ms[..n], answers[..n], i); }
  }

  lemma {:induction false} InFlatMap<T, U>(f: T -> seq<U>, xs: seq<T>, x: T, u: U)
    requires x in xs && u in f(x)
    ensures u in FlatMap(f, xs)
  {
    if x != xs[0] {
      assert xs == [xs[0]] + xs[1..];
      InFlatMap(f, xs[1..], x, u);
    }
  }

  /** Every file that came, and a stand-in for every medium that could not be had, is in the mails of the
      batch: embedded, attached, or shown by a marker. */
  lemma {:induction false} NoMediumIsLost(s: Composer.Settings, ms: seq<Message>, answers: seq<Download>,
                                          drafts: seq<Composer.Draft>, n: nat, i: nat, d: Downloaded)
    requires |ms| == |answers| && DistinctIds(ms) && i < |ms| && ms[i].media != [] && d in Stored(ms[i], answers[i])
    requires var media := Collected(ms, answers);
             Composer.Numbered(s, media, drafts, n) && Composer.Halved(s, media, ms, Composer.Groups(drafts))
    ensures Composer.Represented(drafts, d) > 0
  {
    var media := Collected(ms, answers);
    CollectedGives(ms, answers, i);
    InFlatMap(Composer.ItemsFn(media), ms, ms[i], d);
    CountIn(Composer.Items(media, ms), d);
    Composer.HalvedPartitions(s, media, ms, Composer.Groups(drafts));
    Composer.DraftsShowAll(s, media, drafts, n);
  }

  /** Something stands for the medium: a file that came for it, or a stand-in. */
  predicate Answered(m: Message, r: Download, ref: MediaRef) {
    if r.Got? then exists file :: file in r.files && file.ref == ref else ref in m.media
  }

  lemma {:induction false} StoredIff(m: Message, r: Download, ref: MediaRef)
    ensures Answered(m, r, ref) <==> exists d :: d in Stored(m, r) && d.ref == ref
  {
    if !r.Got? && ref in m.media {
      var i :| 0 <= i < |m.media| && m.media[i] == ref;
      assert Placeholders(m.media)[i] in Placeholders(m.media);
    }
    if !r.Got? {
      forall d | d in Placeholders(m.media) ensures d.ref in m.media {}
    }
  }

  lemma {:induction false} FromFlatMap<T, U>(f: T -> seq<U>, xs: seq<T>, u: U) returns (i: nat)
    requires u in FlatMap(f, xs)
    ensures i < |xs| && u in f(xs[i])
  {
    if u in f(xs[0]) {
      i := 0;
    } else {
      i := FromFlatMap(f, xs[1..], u);
      i := i + 1;
    }
  }

  lemma {:induction false} OnlyMessagesWithMedia(ms: seq<Message>, answers: seq<Download>, id: int)
    requires |ms| == |answers| && id in Collected(ms, answers)
    ensures exists i :: 0 <= i < |ms| && ms[i].id == id && ms[i].media != []
  {
    var n := |ms| - 1;
    if ms[n].media == [] || ms[n].id != id {
      OnlyMessagesWithMedia(ms[..n], answers[..n], id);
      var i :| 0 <= i < n && ms[..n][i].id == id && ms[..n][i].media != [];
      assert ms[i].id == id && ms[i].media != [];
    }
  }

  ghost predicate Shown(drafts: seq<Composer.Draft>, ref: MediaRef) {
    exists d: Downloaded :: d.ref == ref && Composer.Represented(drafts, d) > 0
  }

  /** The composed mails show a medium, embedded, attached or by a marker, exactly when it was answered: a
      file of its own came, or its message's media were reported as not to be had. */
  lemma {:induction false} ShownExactlyWhenAnswered(s: Composer.Settings, ms: seq<Message>, answers: seq<Download>,
                                                    drafts: seq<Composer.Draft>, n: nat, ref: MediaRef)
    requires |ms| == |answers| && DistinctIds(ms)
    requires var media := Collected(ms, answers);
             Composer.Numbered(s, media, drafts, n) && Composer.Halved(s, media, ms, Composer.Groups(drafts))
    ensures Shown(drafts, ref) <==>
              exists i :: 0 <= i < |ms| && ms[i].media != [] && Answered(ms[i], answers[i], ref)
  {
    var media := Collected(ms, answers);
    Composer.HalvedPartitions(s, media, ms, Composer.Groups(drafts));
    Composer.DraftsShowAll(s, media, drafts, n);
    if i :| 0 <= i < |ms| && ms[i].media != [] && Answered(ms[i], answers[i], ref) {
      StoredIff(ms[i], answers[i], ref);
      var d :| d in Stored(ms[i], answers[i]) && d.ref == ref;
      NoMediumIsLost(s, ms, answers, drafts, n, i, d);
    }
    if Shown(drafts, ref) {
      var d: Downloaded :| d.ref == ref && Composer.Represented(drafts, d) > 0;
      CountIn(Composer.Items(media, ms), d);
      var k := FromFlatMap(Composer.ItemsFn(media), ms, d);
      GivenIsAnswered(ms, answers, k, d);
    }
  }

  lemma {:induction false} GivenIsAnswered(ms: seq<Message>, answers: seq<Download>, k: nat, d: Downloaded)
    requires |ms| == |answers| && DistinctIds(ms) && k < |ms| && d in Composer.MediaOf(Collected(ms, answers), ms[k])
    ensures exists i :: 0 <= i < |ms| && ms[i].media != [] && Answered(ms[i], answers[i], d.ref)
  {
    OnlyMessagesWithMedia(ms, answers, ms[k].id);
    CollectedGives(ms, answers, k);
    StoredIff(ms[k], answers[k], d.ref);
  }

  /** A download that gives no path leaves nothing: whatever the drafts, the medium is not shown. */
  lemma {:induction false} NoPathNoMarker(s: Composer.Settings, m: Message, drafts: seq<Composer.Draft>, n: nat,
                                          ref: MediaRef)
    requires ref in m.media
    requires var media := Collected([m], [Got([])]);
             Composer.Numbered(s, media, drafts, n) && Composer.Halved(s, media, [m], Composer.Groups(drafts))
    ensures !Shown(drafts, ref)
  {
    ShownExactlyWhenAnswered(s, [m], [Got([])], drafts, n, ref);
  }
}
