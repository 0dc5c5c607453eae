/** What the printer of module Render promises, for every text and every list of spans. */
module RenderTheorems {
  import opened FiniteSets
  import opened Render
  import opened Sequences

  // ---------------------------------------------------------------- the text survives

  lemma {:induction false} NoRuns(es: seq<Entity>)
    ensures Runs(Closings(es)) == "" && Runs(Openings(es)) == ""
  {
    if es != [] {
      NoRuns(es[1..]);
      RunsConcat(Closings(es[1..]), [Close(es[0])]);
      RunsConcat([Open(es[0])], Openings(es[1..]));
    }
  }

  lemma {:induction false} RunsTurn(text: string, es: seq<Entity>, p: int, i: int, stack: seq<Entity>)
    ensures Runs(Turn(text, es, p, i, stack)) == if p > i then Slice(text, i, p) else ""
  {
    var run := if p > i then [Run(Slice(text, i, p))] else [];
    var c, o := Closings(Ending(stack, p)), Openings(StartsAt(es, p));
    NoRuns(Ending(stack, p));
    NoRuns(StartsAt(es, p));
    RunsConcat(run, c);
    RunsConcat(run + c, o);
  }

  /** The text printed between the boundaries, whatever the spans: the slices in turn. */
  function Slices(text: string, ps: seq<int>, i: int): string {
    if ps == [] then ""
    else (if ps[0] > i then Slice(text, i, ps[0]) else "") + Slices(text, ps[1..], ps[0])
  }

  lemma {:induction false} RunsScan(text: string, es: seq<Entity>, ps: seq<int>, i: int, stack: seq<Entity>)
    ensures Runs(Scan(text, es, ps, i, stack)) == Slices(text, ps, i)
  {
    if ps != [] {
      RunsTurn(text, es, ps[0], i, stack);
      RunsScan(text, es, ps[1..], ps[0], After(es, ps[0], stack));
      RunsConcat(Turn(text, es, ps[0], i, stack), Scan(text, es, ps[1..], ps[0], After(es, ps[0], stack)));
    }
  }

  lemma {:induction false} SlicesForward(text: string, ps: seq<int>, i: int)
    requires Above(ps, i) && 0 <= i
    requires i < |text| ==> |text| in ps
    ensures Slices(text, ps, i) == text[Clamp(|text|, i)..]
  {
    if ps != [] {
      var p := ps[0];
      if i < |text| { AboveMember(ps, i, |text|); }
      SlicesForward(text, ps[1..], p);
      var a, b := Clamp(|text|, i), Clamp(|text|, p);
      assert text[a..] == text[a..b] + text[b..];
    }
  }

  /** The last boundary before zero, if any; `i` otherwise. */
  function LastNegative(ps: seq<int>, i: int): int {
    if ps == [] || ps[0] >= 0 then i else LastNegative(ps[1..], ps[0])
  }

  lemma {:induction false} TwoSlices(text: string, a: nat, b: nat, c: nat)
    requires a <= b <= c <= |text|
    ensures text[a..b] + (text[b..c] + text) == text[a..c] + text
  {}

  lemma {:induction false} SlicesBackward(text: string, ps: seq<int>, i: int)
    requires Above(ps, i) && i < 0 && 0 in ps && |text| in ps
    ensures i <= LastNegative(ps, i) < 0
    ensures Slices(text, ps, i) == text[Clamp(|text|, i)..Clamp(|text|, LastNegative(ps, i))] + text
  {
    var n, p := |text|, ps[0];
    AboveMember(ps, i, 0);
    AboveMember(ps, i, n);
    if p < 0 {
      SlicesBackward(text, ps[1..], p);
      var a, b, c := Clamp(n, i), Clamp(n, p), Clamp(n, LastNegative(ps, i));
      TwoSlices(text, a, b, c);
    } else {
      SlicesForward(text, ps[1..], 0);
      assert text[0..] == text;
      assert Slices(text, ps, i) == "" + text;
    }
  }

  /** Python's negative slicing makes the loop print a stray piece before the text proper when spans
      have boundaries before zero: from the first to the last of these, both counted from the end. */
  function Stray(text: string, es: seq<Entity>): string {
    var ps := Sorted(Boundaries(text, es));
    if es == [] || ps == [] || ps[0] >= 0 then ""
    else text[Clamp(|text|, ps[0])..Max(Clamp(|text|, ps[0]), Clamp(|text|, LastNegative(ps, 0)))]
  }

  function Max(a: nat, b: nat): nat { if a < b then b else a }

  /** The round trip, for all inputs: strip the tags, undo the escapes, and what is left is the
      input text preceded by the stray piece. */
  lemma {:induction false} RenderRoundTrip(text: string, es: seq<Entity>)
    ensures Unescape(StripTags(Join(Pieces(text, es)), false)) == Stray(text, es) + text
  {
    StripJoin(Pieces(text, es));
    UnescapeUndoesEscape(Runs(Pieces(text, es)));
    if es == [] {
      assert Runs([Run(text)]) == text + Runs([]);
    } else {
      SlicesWhole(text, es);
      RunsScan(text, es, Sorted(Boundaries(text, es)), 0, []);
    }
  }

  lemma {:induction false} SlicesWhole(text: string, es: seq<Entity>)
    requires es != []
    ensures Slices(text, Sorted(Boundaries(text, es)), 0) == Stray(text, es) + text
  {
    var bs := Boundaries(text, es);
    var ps, n := Sorted(bs), |text|;
    SortedSorts(bs, Least(bs) - 1);
    AboveMember(ps, Least(bs) - 1, 0);
    AboveMember(ps, Least(bs) - 1, n);
    if ps[0] < 0 {
      SlicesBackward(text, ps[1..], ps[0]);
    } else {
      SlicesForward(text, ps[1..], 0);
      assert text[0..] == text;
    }
  }

  /** The first and the last boundary before zero, counted from the end, clamp to the same place. */
  predicate NothingBeforeZero(text: string, es: seq<Entity>) {
    var ps := Sorted(Boundaries(text, es));
    es == [] || ps == [] || ps[0] >= 0 || Clamp(|text|, LastNegative(ps, 0)) <= Clamp(|text|, ps[0])
  }

  /** The text comes back unchanged exactly when no text lies between the boundaries before zero. */
  lemma {:induction false} TextSurvives(text: string, es: seq<Entity>)
    ensures Unescape(StripTags(Join(Pieces(text, es)), false)) == text <==> NothingBeforeZero(text, es)
  {
    RenderRoundTrip(text, es);
    var stray := Stray(text, es);
    assert |stray + text| == |stray| + |text|;
    assert stray == "" ==> stray + text == text;
    assert stray == "" <==> NothingBeforeZero(text, es);
  }

  /** So it does whenever no span starts or ends before zero. */
  lemma {:induction false} TextSurvivesOrdinarySpans(text: string, es: seq<Entity>)
    requires forall k :: 0 <= k < |es| ==> 0 <= es[k].offset && 0 <= es[k].End()
    ensures Unescape(StripTags(Join(Pieces(text, es)), false)) == text
  {
    var bs := Boundaries(text, es);
    SortedSorts(bs, Least(bs) - 1);
    forall p | p in bs ensures 0 <= p {
      BoundaryOf(es, p);
    }
    TextSurvives(text, es);
  }

  lemma {:induction false} BoundaryOf(es: seq<Entity>, p: int)
    ensures p in Offsets(es) ==> exists k :: 0 <= k < |es| && es[k].offset == p
    ensures p in Ends(es) ==> exists k :: 0 <= k < |es| && es[k].End() == p
  {
    if es != [] {
      BoundaryOf(es[1..], p);
      if p in Offsets(es[1..]) { var k :| 0 <= k < |es[1..]| && es[1..][k].offset == p; assert es[k + 1].offset == p; }
      if p in Ends(es[1..]) { var k :| 0 <= k < |es[1..]| && es[1..][k].End() == p; assert es[k + 1].End() == p; }
    }
  }

  // ---------------------------------------------------------------- how often a span is opened and closed

  lemma {:induction false} CountAt(es: seq<Entity>, p: int, e: Entity)
    ensures Count(StartsAt(es, p), e) == if e.offset == p then Count(es, e) else 0
  {
    CountSort(At(es, p), e);
    CountFilter(es, p, e);
  }

  lemma {:induction false} CountFilter(es: seq<Entity>, p: int, e: Entity)
    ensures Count(At(es, p), e) == if e.offset == p then Count(es, e) else 0
  {
    if es != [] {
      CountFilter(es[1..], p, e);
      CountConcat(if es[0].offset == p then [es[0]] else [], At(es[1..], p), e);
    }
  }

  lemma {:induction false} CountInsert(f: Entity, es: seq<Entity>, e: Entity)
    ensures Count(InsertByLength(f, es), e) == Count(es, e) + if f == e then 1 else 0
  {
    if es != [] && f.length < es[0].length {
      CountInsert(f, es[1..], e);
    }
  }

  lemma {:induction false} CountSort(es: seq<Entity>, e: Entity)
    ensures Count(LongestFirst(es), e) == Count(es, e)
  {
    if es != [] {
      CountSort(es[1..], e);
      CountInsert(es[0], LongestFirst(es[1..]), e);
    }
  }

  lemma {:induction false} CountStack(stack: seq<Entity>, p: int, e: Entity)
    ensures Count(Ending(stack, p), e) == if e.End() == p then Count(stack, e) else 0
    ensures Count(Staying(stack, p), e) == if e.End() == p then 0 else Count(stack, e)
  {
    if stack != [] {
      CountStack(stack[1..], p, e);
      CountConcat(if stack[0].End() == p then [stack[0]] else [], Ending(stack[1..], p), e);
      CountConcat(if stack[0].End() != p then [stack[0]] else [], Staying(stack[1..], p), e);
    }
  }

  lemma {:induction false} CountTags(es: seq<Entity>, e: Entity)
    ensures Count(Openings(es), Open(e)) == Count(es, e) && Count(Openings(es), Close(e)) == 0
    ensures Count(Closings(es), Close(e)) == Count(es, e) && Count(Closings(es), Open(e)) == 0
  {
    if es != [] {
      CountTags(es[1..], e);
      CountConcat(Closings(es[1..]), [Close(es[0])], Close(e));
      CountConcat(Closings(es[1..]), [Close(es[0])], Open(e));
      CountConcat([Open(es[0])], Openings(es[1..]), Open(e));
      CountConcat([Open(es[0])], Openings(es[1..]), Close(e));
    }
  }

  lemma {:induction false} CountTurn(text: string, es: seq<Entity>, p: int, i: int, stack: seq<Entity>, e: Entity)
    ensures Count(Turn(text, es, p, i, stack), Open(e)) == if e.offset == p then Count(es, e) else 0
    ensures Count(Turn(text, es, p, i, stack), Close(e)) == if e.End() == p then Count(stack, e) else 0
  {
    var run := if p > i then [Run(Slice(text, i, p))] else [];
    var c, o := Closings(Ending(stack, p)), Openings(StartsAt(es, p));
    CountTags(Ending(stack, p), e);
    CountTags(StartsAt(es, p), e);
    CountStack(stack, p, e);
    CountAt(es, p, e);
    CountConcat(run, c, Open(e));
    CountConcat(run + c, o, Open(e));
    CountConcat(run, c, Close(e));
    CountConcat(run + c, o, Close(e));
  }

  lemma {:induction false} CountScan(text: string, es: seq<Entity>, ps: seq<int>, i: int, stack: seq<Entity>,
                                     e: Entity, low: int)
    requires Above(ps, low)
    requires e.offset in ps && e.length > 0 ==> e.End() in ps
    ensures Count(Scan(text, es, ps, i, stack), Open(e)) == if e.offset in ps then Count(es, e) else 0
    ensures Count(Scan(text, es, ps, i, stack), Close(e))
         == (if e.End() in ps then Count(stack, e) else 0)
           + (if e.offset in ps && e.length > 0 then Count(es, e) else 0)
  {
    if ps != [] {
      var p, next := ps[0], After(es, ps[0], stack);
      assert ps == [p] + ps[1..];
      if e.offset in ps { AboveMember(ps, low, e.offset); }
      if e.End() in ps { AboveMember(ps, low, e.End()); }
      CountScan(text, es, ps[1..], p, next, e, p);
      CountTurn(text, es, p, i, stack, e);
      CountStack(stack, p, e);
      CountAt(es, p, e);
      CountConcat(Staying(stack, p), StartsAt(es, p), e);
      CountConcat(Turn(text, es, p, i, stack), Scan(text, es, ps[1..], p, next), Open(e));
      CountConcat(Turn(text, es, p, i, stack), Scan(text, es, ps[1..], p, next), Close(e));
    }
  }

  lemma {:induction false} CountZero(es: seq<Entity>, e: Entity)
    ensures Count(es, e) > 0 ==> e.offset in Offsets(es) && e.End() in Ends(es)
  {
    if es != [] {
      CountZero(es[1..], e);
    }
  }

  /** For all inputs: every span is opened as often as it is listed, and closed as often as it was
      opened exactly when its length is positive; a span of zero or negative length is never closed. */
  lemma {:induction false} OpenedAndClosed(text: string, es: seq<Entity>, e: Entity)
    requires es != []
    ensures Count(Pieces(text, es), Open(e)) == Count(es, e)
    ensures Count(Pieces(text, es), Close(e)) == if e.length > 0 then Count(es, e) else 0
  {
    var bs := Boundaries(text, es);
    var ps := Sorted(bs);
    SortedSorts(bs, Least(bs) - 1);
    CountZero(es, e);
    if Count(es, e) > 0 {
      CountScan(text, es, ps, 0, [], e, Least(bs) - 1);
    } else {
      NeverListed(text, es, ps, 0, [], e);
    }
  }

  lemma {:induction false} NeverListed(text: string, es: seq<Entity>, ps: seq<int>, i: int, stack: seq<Entity>,
                                       e: Entity)
    requires Count(es, e) == 0 && Count(stack, e) == 0
    ensures Count(Scan(text, es, ps, i, stack), Open(e)) == 0 && Count(Scan(text, es, ps, i, stack), Close(e)) == 0
  {
    if ps != [] {
      var p, next := ps[0], After(es, ps[0], stack);
      CountStack(stack, p, e);
      CountAt(es, p, e);
      CountConcat(Staying(stack, p), StartsAt(es, p), e);
      NeverListed(text, es, ps[1..], p, next, e);
      CountTurn(text, es, p, i, stack, e);
      CountConcat(Turn(text, es, p, i, stack), Scan(text, es, ps[1..], p, next), Open(e));
      CountConcat(Turn(text, es, p, i, stack), Scan(text, es, ps[1..], p, next), Close(e));
    }
  }

  // ---------------------------------------------------------------- when the tags nest

  /** Reading the pieces with a stack of open spans, every closing tag meets the span opened last,
      and nothing stays open. */
  ghost predicate Nests(ps: seq<Piece>, st: seq<Entity>) {
    if ps == [] then st == []
    else match ps[0]
      case Run(_) => Nests(ps[1..], st)
      case Open(e) => Nests(ps[1..], st + [e])
      case Close(e) => st != [] && st[|st| - 1] == e && Nests(ps[1..], st[..|st| - 1])
  }

  lemma {:induction false} NestsOpenings(es: seq<Entity>, r: seq<Piece>, st: seq<Entity>)
    ensures Nests(Openings(es) + r, st) <==> Nests(r, st + es)
  {
    if es == [] {
      assert Openings(es) + r == r && st + es == st;
    } else {
      assert Openings(es) + r == [Open(es[0])] + (Openings(es[1..]) + r);
      NestsOpenings(es[1..], r, st + [es[0]]);
      assert st + [es[0]] + es[1..] == st + es;
    }
  }

  /** `es` is what lies on top of the stack. */
  ghost predicate OnTop(st: seq<Entity>, es: seq<Entity>) {
    |es| <= |st| && st[|st| - |es|..] == es
  }

  lemma {:induction false} NestsClosings(es: seq<Entity>, r: seq<Piece>, st: seq<Entity>)
    ensures Nests(Closings(es) + r, st) <==> OnTop(st, es) && Nests(r, st[..|st| - |es|])
  {
    if es == [] {
      assert Closings(es) + r == r && st[..|st|] == st;
    } else {
      var n := |es| - 1;
      assert Closings(es) + r == Closings(es[1..]) + ([Close(es[0])] + r);
      NestsClosings(es[1..], [Close(es[0])] + r, st);
      assert ([Close(es[0])] + r)[1..] == r;
      if OnTop(st, es[1..]) {
        var base := st[..|st| - n];
        if base != [] {
          assert base[..|base| - 1] == st[..|st| - |es|];
          assert base[|base| - 1] == st[|st| - |es|];
          assert st[|st| - |es|..] == [st[|st| - |es|]] + st[|st| - n..];
        }
      }
    }
  }

  lemma {:induction false} EndingConcat(a: seq<Entity>, b: seq<Entity>, p: int)
    ensures Ending(a + b, p) == Ending(a, p) + Ending(b, p)
    ensures Staying(a + b, p) == Staying(a, p) + Staying(b, p)
  {
    if a == [] {
      assert a + b == b;
    } else {
      assert (a + b)[1..] == a[1..] + b;
      EndingConcat(a[1..], b, p);
      Assoc(if a[0].End() == p then [a[0]] else [], Ending(a[1..], p), Ending(b, p));
      Assoc(if a[0].End() != p then [a[0]] else [], Staying(a[1..], p), Staying(b, p));
    }
  }

  lemma {:induction false} EndingOnce(st: seq<Entity>, p: int)
    ensures Ending(Ending(st, p), p) == Ending(st, p) && Staying(Ending(st, p), p) == []
    ensures |Ending(st, p)| + |Staying(st, p)| == |st|
    ensures Ending(st, p) == [] ==> Staying(st, p) == st
  {
    if st != [] {
      EndingOnce(st[1..], p);
      EndingConcat(if st[0].End() == p then [st[0]] else [], Ending(st[1..], p), p);
    }
  }

  lemma {:induction false} TopMeansRestStays(base: seq<Entity>, top: seq<Entity>, p: int)
    requires top == Ending(base + top, p)
    ensures base == Staying(base + top, p)
  {
    EndingConcat(base, top, p);
    EndingOnce(base + top, p);
    assert |Ending(base, p)| == 0;
    EndingOnce(base, p);
    assert Staying(base, p) + [] == base;
  }

  /** The spans to be closed lie on top exactly when the stack is its staying part with them above. */
  lemma {:induction false} TopIsEnding(st: seq<Entity>, p: int)
    ensures OnTop(st, Ending(st, p)) <==> st == Staying(st, p) + Ending(st, p)
    ensures OnTop(st, Ending(st, p)) ==> st[..|st| - |Ending(st, p)|] == Staying(st, p)
  {
    var top := Ending(st, p);
    if OnTop(st, top) {
      var base := st[..|st| - |top|];
      assert st == base + top;
      TopMeansRestStays(base, top, p);
    }
  }

  /** The same reading, boundary by boundary. */
  ghost predicate Tidy(es: seq<Entity>, ps: seq<int>, st: seq<Entity>) {
    if ps == [] then st == []
    else st == Staying(st, ps[0]) + Ending(st, ps[0]) && Tidy(es, ps[1..], After(es, ps[0], st))
  }

  lemma {:induction false} NestsTurn(text: string, es: seq<Entity>, p: int, i: int, st: seq<Entity>, rest: seq<Piece>)
    ensures Nests(Turn(text, es, p, i, st) + rest, st)
            <==> Nests(Closings(Ending(st, p)) + (Openings(StartsAt(es, p)) + rest), st)
  {
    var c, o := Closings(Ending(st, p)), Openings(StartsAt(es, p));
    var run := if p > i then [Run(Slice(text, i, p))] else [];
    assert run + c + o + rest == run + (c + (o + rest));
    if p > i {
      assert (run + (c + (o + rest)))[1..] == c + (o + rest);
    } else {
      assert run + (c + (o + rest)) == c + (o + rest);
    }
  }

  lemma {:induction false} NestsScan(text: string, es: seq<Entity>, ps: seq<int>, i: int, st: seq<Entity>)
    ensures Nests(Scan(text, es, ps, i, st), st) <==> Tidy(es, ps, st)
  {
    if ps != [] {
      var p := ps[0];
      var c, o := Closings(Ending(st, p)), Openings(StartsAt(es, p));
      var rest := Scan(text, es, ps[1..], p, After(es, p, st));
      NestsTurn(text, es, p, i, st, rest);
      NestsClosings(Ending(st, p), o + rest, st);
      TopIsEnding(st, p);
      NestsOpenings(StartsAt(es, p), rest, Staying(st, p));
      NestsScan(text, es, ps[1..], p, After(es, p, st));
    }
  }

  /** Two spans do not cross: one ends before the other starts, or one contains the other. */
  predicate Apart(a: Entity, b: Entity) {
    || a.End() <= b.offset
    || b.End() <= a.offset
    || (a.offset <= b.offset && b.End() <= a.End())
    || (b.offset <= a.offset && a.End() <= b.End())
  }

  ghost predicate Laminar(es: seq<Entity>) {
    && (forall e :: e in es ==> e.length > 0)
    && (forall a, b :: a in es && b in es ==> Apart(a, b))
  }

  /** The interval ends do not increase up the stack. */
  ghost predicate Narrowing(st: seq<Entity>) {
    forall a, b :: 0 <= a < b < |st| ==> st[a].End() >= st[b].End()
  }

  /** What Tidy amounts to halfway: the open spans `st`, and those starting at a boundary of `ps`. */
  ghost predicate Orderly(es: seq<Entity>, ps: seq<int>, st: seq<Entity>) {
    && Narrowing(st)
    && (forall f :: f in st ==> f.End() in ps)
    && (forall g :: g in es && g.offset in ps ==> g.length > 0)
    && (forall f, g :: f in st && g in es && g.offset in ps ==> g.End() <= f.End() || f.End() <= g.offset)
    && (forall g, h :: g in es && h in es && g.offset in ps && h.offset in ps ==> Apart(g, h))
  }

  lemma {:induction false} InEnding(st: seq<Entity>, p: int, e: Entity)
    ensures e in Ending(st, p) <==> e in st && e.End() == p
    ensures e in Staying(st, p) <==> e in st && e.End() != p
  {
    if st != [] {
      assert st == [st[0]] + st[1..];
      InEnding(st[1..], p, e);
    }
  }

  lemma {:induction false} InsertSorted(f: Entity, es: seq<Entity>, p: int)
    requires f.offset == p && forall e :: e in es ==> e.offset == p
    requires Narrowing(es)
    ensures Narrowing(InsertByLength(f, es))
  {
    if es != [] && f.length < es[0].length {
      NarrowingTail(es);
      InsertSorted(f, es[1..], p);
      var t := InsertByLength(f, es[1..]);
      forall e | e in t ensures es[0].End() >= e.End() {
        Inserted(f, es[1..], e);
      }
    }
  }

  lemma {:induction false} NarrowingTail(es: seq<Entity>)
    requires Narrowing(es) && es != []
    ensures Narrowing(es[1..]) && forall e :: e in es[1..] ==> es[0].End() >= e.End() && e in es
  {}

  lemma {:induction false} Inserted(f: Entity, es: seq<Entity>, e: Entity)
    ensures e in InsertByLength(f, es) <==> e == f || e in es
  {
    if es != [] {
      assert es == [es[0]] + es[1..];
      Inserted(f, es[1..], e);
    }
  }

  lemma {:induction false} InStarts(es: seq<Entity>, p: int)
    ensures forall e :: e in StartsAt(es, p) <==> e in es && e.offset == p
    ensures Narrowing(StartsAt(es, p))
  {
    InAt(es, p);
    SortNarrows(At(es, p), p);
  }

  lemma {:induction false} InAt(es: seq<Entity>, p: int)
    ensures forall e :: e in At(es, p) <==> e in es && e.offset == p
  {
    if es != [] {
      assert es == [es[0]] + es[1..];
      InAt(es[1..], p);
    }
  }

  lemma {:induction false} SortNarrows(es: seq<Entity>, p: int)
    requires forall e :: e in es ==> e.offset == p
    ensures Narrowing(LongestFirst(es))
    ensures forall e :: e in LongestFirst(es) <==> e in es
  {
    if es != [] {
      assert es == [es[0]] + es[1..];
      SortNarrows(es[1..], p);
      InsertSorted(es[0], LongestFirst(es[1..]), p);
      forall e ensures e in LongestFirst(es) <==> e in es {
        Inserted(es[0], LongestFirst(es[1..]), e);
      }
    }
  }

  lemma {:induction false} AllEnding(st: seq<Entity>, p: int)
    requires forall f :: f in st ==> f.End() == p
    ensures Ending(st, p) == st && Staying(st, p) == []
  {
    if st != [] {
      assert st == [st[0]] + st[1..];
      AllEnding(st[1..], p);
    }
  }

  lemma {:induction false} NarrowingSplits(st: seq<Entity>, p: int)
    requires Narrowing(st) && forall f :: f in st ==> p <= f.End()
    ensures st == Staying(st, p) + Ending(st, p)
  {
    if st != [] {
      assert st == [st[0]] + st[1..];
      if st[0].End() == p {
        AllEnding(st, p);
      } else {
        NarrowingSplits(st[1..], p);
      }
    }
  }

  lemma {:induction false} Tail(ps: seq<int>, low: int)
    requires ps != [] && Above(ps, low)
    ensures forall x :: x in ps <==> x == ps[0] || x in ps[1..]
    ensures forall x :: x in ps[1..] ==> ps[0] < x
  {
    assert ps == [ps[0]] + ps[1..];
    forall x | x in ps[1..] ensures ps[0] < x { AboveMember(ps[1..], ps[0], x); }
  }

  lemma {:induction false} InAfter(es: seq<Entity>, p: int, st: seq<Entity>)
    ensures forall f :: f in Ending(st, p) <==> f in st && f.End() == p
    ensures forall f :: f in Staying(st, p) <==> f in st && f.End() != p
    ensures forall f :: f in StartsAt(es, p) <==> f in es && f.offset == p
    ensures forall f :: f in After(es, p, st) <==> (f in st && f.End() != p) || (f in es && f.offset == p)
    ensures Narrowing(StartsAt(es, p))
  {
    InStarts(es, p);
    forall f ensures (f in Staying(st, p) <==> f in st && f.End() != p)
      && (f in Ending(st, p) <==> f in st && f.End() == p) {
      InEnding(st, p, f);
    }
  }

  lemma {:induction false} NextNarrows(es: seq<Entity>, ps: seq<int>, st: seq<Entity>)
    requires ps != [] && Orderly(es, ps, st) && st == Staying(st, ps[0]) + Ending(st, ps[0])
    requires forall f :: f in st ==> ps[0] <= f.End()
    ensures Narrowing(After(es, ps[0], st))
  {
    var p := ps[0];
    var keep, starts := Staying(st, p), StartsAt(es, p);
    InAfter(es, p, st);
    var next: seq<Entity> := keep + starts;
    forall a: int, b: int | 0 <= a < b < |next| ensures next[a].End() >= next[b].End() {
      if b < |keep| {
        assert st[a] == keep[a] && st[b] == keep[b];
      } else if a < |keep| {
        assert keep[a] in keep && starts[b - |keep|] in starts;
      }
    }
  }

  lemma {:induction false} OrderlyNext(es: seq<Entity>, ps: seq<int>, st: seq<Entity>, low: int)
    requires ps != [] && Above(ps, low) && Orderly(es, ps, st)
    requires forall g :: g in es && g.offset in ps && g.length > 0 ==> g.End() in ps
    ensures st == Staying(st, ps[0]) + Ending(st, ps[0])
    ensures Orderly(es, ps[1..], After(es, ps[0], st))
  {
    var p, next, later := ps[0], After(es, ps[0], st), ps[1..];
    Tail(ps, low);
    NarrowingSplits(st, p);
    NextNarrows(es, ps, st);
    InAfter(es, p, st);
    forall f | f in next ensures f.End() in later {}
    forall f, g | f in next && g in es && g.offset in later ensures g.End() <= f.End() || f.End() <= g.offset {
      if f in es && f.offset == p { assert Apart(f, g); }
    }
  }

  lemma {:induction false} HasMember<T>(s: seq<T>)
    requires s != []
    ensures exists x :: x in s
  {
    assert s[0] in s;
  }

  lemma {:induction false} OrderlyIsTidy(es: seq<Entity>, ps: seq<int>, st: seq<Entity>, low: int)
    requires Above(ps, low) && Orderly(es, ps, st)
    requires forall g :: g in es && g.offset in ps && g.length > 0 ==> g.End() in ps
    ensures Tidy(es, ps, st)
  {
    if ps == [] {
      if st != [] { HasMember(st); }
    } else {
      OrderlyNext(es, ps, st, low);
      Tail(ps, low);
      OrderlyIsTidy(es, ps[1..], After(es, ps[0], st), ps[0]);
    }
  }

  lemma {:induction false} NarrowingBack(keep: seq<Entity>, top: seq<Entity>, p: int)
    requires Narrowing(keep) && (forall f :: f in keep ==> p < f.End()) && forall f :: f in top ==> f.End() == p
    ensures Narrowing(keep + top)
  {}

  ghost predicate Step(es: seq<Entity>, ps: seq<int>, st: seq<Entity>, low: int) {
    && ps != [] && Above(ps, low) && st == Staying(st, ps[0]) + Ending(st, ps[0])
    && Orderly(es, ps[1..], After(es, ps[0], st))
  }

  lemma {:induction false} BackStack(es: seq<Entity>, ps: seq<int>, st: seq<Entity>, low: int)
    requires Step(es, ps, st, low)
    ensures Narrowing(st) && forall f :: f in st ==> f.End() in ps
    ensures forall g :: g in es && g.offset in ps ==> g.length > 0
  {
    var p, keep, starts := ps[0], Staying(st, ps[0]), StartsAt(es, ps[0]);
    var next: seq<Entity> := keep + starts;
    Tail(ps, low);
    InAfter(es, p, st);
    assert forall f :: f in next ==> p < f.End();
    assert forall f :: f in keep ==> f in next;
    forall a: int, b: int | 0 <= a < b < |keep| ensures keep[a].End() >= keep[b].End() {
      assert next[a] == keep[a] && next[b] == keep[b];
    }
    NarrowingBack(keep, Ending(st, p), p);
  }

  lemma {:induction false} NarrowingAcross(keep: seq<Entity>, starts: seq<Entity>, f: Entity, g: Entity)
    requires Narrowing(keep + starts) && f in keep && g in starts
    ensures g.End() <= f.End()
  {
    var a :| 0 <= a < |keep| && keep[a] == f;
    var b :| 0 <= b < |starts| && starts[b] == g;
    assert (keep + starts)[a] == f && (keep + starts)[|keep| + b] == g;
  }

  lemma {:induction false} BackCross(es: seq<Entity>, ps: seq<int>, st: seq<Entity>, low: int, f: Entity, g: Entity)
    requires Step(es, ps, st, low) && f in st && g in es && g.offset in ps
    ensures g.End() <= f.End() || f.End() <= g.offset
  {
    var p, keep, starts := ps[0], Staying(st, ps[0]), StartsAt(es, ps[0]);
    var next: seq<Entity> := keep + starts;
    Tail(ps, low);
    InAfter(es, p, st);
    if f.End() != p {
      assert f in keep;
      if g.offset == p {
        assert g in starts;
        NarrowingAcross(keep, starts, f, g);
      }
    }
  }

  lemma {:induction false} OrderlyBack(es: seq<Entity>, ps: seq<int>, st: seq<Entity>, low: int)
    requires Step(es, ps, st, low)
    ensures Orderly(es, ps, st)
  {
    Tail(ps, low);
    InAfter(es, ps[0], st);
    BackStack(es, ps, st, low);
    forall f, g | f in st && g in es && g.offset in ps ensures g.End() <= f.End() || f.End() <= g.offset {
      BackCross(es, ps, st, low, f, g);
    }
  }

  lemma {:induction false} TidyIsOrderly(es: seq<Entity>, ps: seq<int>, st: seq<Entity>, low: int)
    requires Above(ps, low) && Tidy(es, ps, st)
    ensures Orderly(es, ps, st)
  {
    if ps != [] {
      TidyIsOrderly(es, ps[1..], After(es, ps[0], st), ps[0]);
      OrderlyBack(es, ps, st, low);
    }
  }

  lemma {:induction false} TidyExactlyWhenLaminar(es: seq<Entity>, ps: seq<int>, low: int)
    requires Above(ps, low) && forall g :: g in es ==> g.offset in ps && g.End() in ps
    ensures Tidy(es, ps, []) <==> Laminar(es)
  {
    if Tidy(es, ps, []) { TidyIsOrderly(es, ps, [], low); }
    if Laminar(es) { OrderlyIsTidy(es, ps, [], low); }
  }

  /** For all inputs: reading the tags, every closing one meets the span opened last and nothing stays
      open, exactly when all lengths are positive and no two spans cross. */
  lemma {:induction false} NestsExactlyWhenLaminar(text: string, es: seq<Entity>)
    ensures Nests(Pieces(text, es), []) <==> Laminar(es)
  {
    if es != [] {
      var bs := Boundaries(text, es);
      var ps, low := Sorted(bs), Least(bs) - 1;
      SortedSorts(bs, low);
      NestsScan(text, es, ps, 0, []);
      forall g | g in es ensures g.offset in ps && g.End() in ps {
        CountIn(es, g);
        CountZero(es, g);
      }
      TidyExactlyWhenLaminar(es, ps, low);
    }
  }

  // ---------------------------------------------------------------- what a span prints

  lemma {:induction false} TwoBoundaries(n: int)
    requires n > 0
    ensures Sorted({0, n}) == [0, n]
  {
    assert Least({0, n}) == 0 && {0, n} - {0} == {n};
    assert Least({n}) == n && {n} - {n} == {};
    assert Sorted({n}) == [n];
  }

  lemma {:induction false} OneStart(e: Entity, p: int)
    ensures StartsAt([e], p) == if e.offset == p then [e] else []
    ensures Offsets([e]) == {e.offset} && Ends([e]) == {e.End()}
  {
    assert [e][1..] == [] && [e] + [] == [e] && LongestFirst([]) == [];
    assert At([e], p) == (if e.offset == p then [e] else []) + [];
    assert LongestFirst([e]) == InsertByLength(e, []) == [e] + [];
  }

  lemma {:induction false} OneEnd(e: Entity, p: int)
    ensures Ending([e], p) == (if e.End() == p then [e] else []) && Staying([e], p) == if e.End() == p then [] else [e]
    ensures Closings([e]) == [Close(e)] && Openings([e]) == [Open(e)]
  {
    assert [e][1..] == [] && [Open(e)] + [] == [Open(e)] && [] + [Close(e)] == [Close(e)];
    assert Ending([e], p) == (if e.End() == p then [e] else []) + Ending([], p);
    assert Staying([e], p) == (if e.End() != p then [e] else []) + Staying([], p);
  }

  lemma {:induction false} TurnsOfOne(text: string, e: Entity)
    requires text != "" && e.offset == 0 && e.length == |text|
    ensures Turn(text, [e], 0, 0, []) == [Open(e)] && After([e], 0, []) == [e]
    ensures Turn(text, [e], |text|, 0, [e]) == [Run(text), Close(e)]
  {
    OneStart(e, 0);
    OneStart(e, |text|);
    OneEnd(e, |text|);
    assert Closings([]) == [] && Openings([]) == [] && Slice(text, 0, |text|) == text;
  }

  lemma {:induction false} PiecesOfOne(text: string, e: Entity)
    requires text != "" && e.offset == 0 && e.length == |text|
    ensures Pieces(text, [e]) == [Open(e), Run(text), Close(e)]
  {
    var n := |text|;
    OneStart(e, 0);
    assert Boundaries(text, [e]) == {0, n};
    TwoBoundaries(n);
    TurnsOfOne(text, e);
    assert [0, n][1..] == [n] && [n][1..] == [];
    assert Scan(text, [e], [n], 0, [e]) == [Run(text), Close(e)] + [] == [Run(text), Close(e)];
    assert Scan(text, [e], [0, n], 0, []) == [Open(e)] + [Run(text), Close(e)];
  }

  lemma {:induction false} OneSpanPrints(text: string, e: Entity)
    requires text != "" && e.offset == 0 && e.length == |text|
    ensures Join(Pieces(text, [e])) == Tag(e, true) + Escape(text) + Tag(e, false)
  {
    PiecesOfOne(text, e);
    var ps := [Open(e), Run(text), Close(e)];
    assert ps[1..] == [Run(text), Close(e)] && ps[1..][1..] == [Close(e)] && [Close(e)][1..] == [];
    assert Join([Close(e)]) == Tag(e, false);
    assert Join(ps[1..]) == Escape(text) + Tag(e, false);
  }

  lemma {:induction false} KindPrints(text: string, e: Entity, opening: string, closing: string)
    requires text != "" && e.offset == 0 && e.length == |text|
    requires TagBody(e, true) != "" && TagBody(e, false) != ""
    requires opening == "<" + TagBody(e, true) + ">" && closing == "<" + TagBody(e, false) + ">"
    ensures Join(Pieces(text, [e])) == opening + Escape(text) + closing
  {
    OneSpanPrints(text, e);
  }

  lemma {:induction false} BoldAndItalicPrint(text: string, url: string)
    requires text != ""
    ensures Join(Pieces(text, [Entity("bold", 0, |text|, url)])) == "<b>" + Escape(text) + "</b>"
    ensures Join(Pieces(text, [Entity("italic", 0, |text|, url)])) == "<i>" + Escape(text) + "</i>"
  {
    KindPrints(text, Entity("bold", 0, |text|, url), "<b>", "</b>");
    KindPrints(text, Entity("italic", 0, |text|, url), "<i>", "</i>");
  }

  lemma {:induction false} CodePrints(text: string, url: string)
    requires text != ""
    ensures Join(Pieces(text, [Entity("code", 0, |text|, url)])) == "<code>" + Escape(text) + "</code>"
  {
    KindPrints(text, Entity("code", 0, |text|, url), "<code>", "</code>");
  }

  lemma {:induction false} PrePrints(text: string, url: string)
    requires text != ""
    ensures Join(Pieces(text, [Entity("pre", 0, |text|, url)])) == "<pre>" + Escape(text) + "</pre>"
  {
    KindPrints(text, Entity("pre", 0, |text|, url), "<pre>", "</pre>");
  }

  lemma {:induction false} LinkPrints(text: string, url: string)
    requires text != ""
    ensures Join(Pieces(text, [Entity("texturl", 0, |text|, url)]))
            == "<a href=\"" + Escape(url) + "\">" + Escape(text) + "</a>"
  {
    LinkTag("a href=\"", Escape(url));
    KindPrints(text, Entity("texturl", 0, |text|, url), "<a href=\"" + Escape(url) + "\">", "</a>");
  }

  lemma {:induction false} LinkTag(head: string, url: string)
    ensures "<" + (head + url + "\"") + ">" == ("<" + head) + url + "\">"
  {}

  lemma {:induction false} OtherKindsPrintNone(text: string, e: Entity)
    requires text != "" && e.offset == 0 && e.length == |text|
    requires e.kind !in {"bold", "italic", "code", "pre", "texturl"}
    ensures Join(Pieces(text, [e])) == Escape(text)
  {
    OneSpanPrints(text, e);
    assert "" + Escape(text) + "" == Escape(text);
  }

  lemma {:induction false} PlainPrints(text: string)
    ensures Join(Pieces(text, [])) == Escape(text)
  {
    assert [Run(text)][1..] == [] && Join([]) == "" && Escape(text) + "" == Escape(text);
  }

  /** What the reader's mail shows for a span over a whole text, kind by kind; other kinds print no tag. */
  lemma {:induction false} KindsPrintTheirTags(text: string, url: string, kind: string)
    requires text != ""
    ensures Join(Pieces(text, [Entity("bold", 0, |text|, url)])) == "<b>" + Escape(text) + "</b>"
    ensures Join(Pieces(text, [Entity("italic", 0, |text|, url)])) == "<i>" + Escape(text) + "</i>"
    ensures Join(Pieces(text, [Entity("code", 0, |text|, url)])) == "<code>" + Escape(text) + "</code>"
    ensures Join(Pieces(text, [Entity("pre", 0, |text|, url)])) == "<pre>" + Escape(text) + "</pre>"
    ensures Join(Pieces(text, [Entity("texturl", 0, |text|, url)]))
            == "<a href=\"" + Escape(url) + "\">" + Escape(text) + "</a>"
    ensures kind !in {"bold", "italic", "code", "pre", "texturl"} ==>
              Join(Pieces(text, [Entity(kind, 0, |text|, url)])) == Escape(text)
    ensures Join(Pieces(text, [])) == Escape(text)
  {
    BoldAndItalicPrint(text, url);
    CodePrints(text, url);
    PrePrints(text, url);
    LinkPrints(text, url);
    if kind !in {"bold", "italic", "code", "pre", "texturl"} {
      OtherKindsPrintNone(text, Entity(kind, 0, |text|, url));
    }
    PlainPrints(text);
  }

  /** The characters that mean something to a reader of HTML are escaped wherever they stand. */
  lemma {:induction false} EscapedIsInert(s: string)
    ensures forall c :: c in Escape(s) ==> c != '<' && c != '>' && c != '\"' && c != '\''
    ensures Escape("&") == "&amp;" && Escape("<") == "&lt;" && Escape(">") == "&gt;"
    ensures Escape("\"") == "&quot;" && Escape("'") == "&#x27;"
  {
    NoneLeft(s);
    OneEscaped('&');
    OneEscaped('<');
    OneEscaped('>');
    OneEscaped('\"');
    OneEscaped('\'');
  }

  lemma {:induction false} NoneLeft(s: string)
    ensures forall c :: c in Escape(s) ==> c != '<' && c != '>' && c != '\"' && c != '\''
  {
    if s != "" { NoneLeft(s[1..]); }
  }

  lemma {:induction false} OneEscaped(c: char)
    ensures Escape([c]) == EscapeChar(c)
  {
    assert [c][1..] == "" && EscapeChar(c) + "" == EscapeChar(c);
  }
}
