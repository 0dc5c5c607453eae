/** Whether the printed tags nest (src/mailtg_bridge/mail_out.py:21-41): what counts is the text of the tags,
    so spans that print none do not matter and tags of one name can stand for each other. */
module PrintedTags {
  import opened FiniteSets
  import opened Sequences
  import opened Render
  import opened RenderTheorems

  function Name(e: Entity): string { if e.kind == "texturl" then "a" else TagName(e.kind) }

  predicate Visible(e: Entity) { Name(e) != "" }

  // ---------------------------------------------------------------- reading the tags off the output

  datatype PrintedTag = Opening(name: string) | Closing(name: string)

  function UpTo(s: string, c: char): string {
    if s == "" || s[0] == c then "" else [s[0]] + UpTo(s[1..], c)
  }

  function ParseTag(body: string): PrintedTag {
    if body != "" && body[0] == '/' then Closing(body[1..]) else Opening(UpTo(body, ' '))
  }

  /** The tags in a text, from each '<' to the next '>'. */
  function ReadTags(s: string): seq<PrintedTag>
    decreases |s|
  {
    if s == "" then []
    else if s[0] == '<' then
      var body := UpTo(s[1..], '>');
      [ParseTag(body)] + ReadTags(if |body| + 2 <= |s| then s[|body| + 2..] else "")
    else ReadTags(s[1..])
  }

  /** Every closing tag has the name of the one opened last, and nothing stays open. */
  predicate WellNested(tags: seq<PrintedTag>, names: seq<string>)
    decreases |tags|
  {
    if tags == [] then names == []
    else match tags[0]
      case Opening(n) => WellNested(tags[1..], names + [n])
      case Closing(n) => names != [] && names[|names| - 1] == n && WellNested(tags[1..], names[..|names| - 1])
  }

  function TagOf(p: Piece): seq<PrintedTag> {
    match p
    case Run(_) => []
    case Open(e) => if Visible(e) then [Opening(Name(e))] else []
    case Close(e) => if Visible(e) then [Closing(Name(e))] else []
  }

  function TagsOf(ps: seq<Piece>): seq<PrintedTag> {
    if ps == [] then [] else TagOf(ps[0]) + TagsOf(ps[1..])
  }

  lemma {:induction false} UpToFirst(a: string, c: char, b: string)
    requires c !in a
    ensures UpTo(a + [c] + b, c) == a
  {
    if a == "" {
      assert a + [c] + b == [c] + b;
    } else {
      var s := a + [c] + b;
      assert s[1..] == a[1..] + [c] + b;
      UpToFirst(a[1..], c, b);
      assert [a[0]] + a[1..] == a;
    }
  }

  lemma {:induction false} UpToNone(a: string, c: char)
    requires c !in a
    ensures UpTo(a, c) == a
  {
    if a != "" {
      UpToNone(a[1..], c);
      assert [a[0]] + a[1..] == a;
    }
  }

  lemma {:induction false} TagIsRead(e: Entity, opening: bool, rest: string)
    ensures ReadTags(Tag(e, opening) + rest) == TagOf(if opening then Open(e) else Close(e)) + ReadTags(rest)
  {
    var body := TagBody(e, opening);
    TagParses(e, opening);
    if body == "" {
      assert Tag(e, opening) + rest == rest;
    } else {
      var s := "<" + body + ">" + rest;
      TagBodyHasNoBracket(e, opening);
      assert s[1..] == body + ">" + rest;
      UpToFirst(body, '>', rest);
      assert s[|body| + 2..] == rest;
    }
  }

  lemma {:induction false} TagParses(e: Entity, opening: bool)
    ensures TagBody(e, opening) == "" <==> !Visible(e)
    ensures Visible(e) ==> ParseTag(TagBody(e, opening)) == if opening then Opening(Name(e)) else Closing(Name(e))
  {
    if e.kind == "texturl" {
      if opening {
        var rest := "href=\"" + Escape(e.url) + "\"";
        assert TagBody(e, true) == "a" + [' '] + rest;
        UpToFirst("a", ' ', rest);
      }
    } else {
      UpToNone(TagName(e.kind), ' ');
    }
  }

  lemma {:induction false} PlainHasNoTags(s: string, rest: string)
    requires '<' !in s
    ensures ReadTags(s + rest) == ReadTags(rest)
  {
    if s == "" {
      assert s + rest == rest;
    } else {
      assert (s + rest)[1..] == s[1..] + rest;
      PlainHasNoTags(s[1..], rest);
    }
  }

  /** The output contains exactly the tags of the visible pieces, in order. */
  lemma {:induction false} OutputTags(ps: seq<Piece>)
    ensures ReadTags(Join(ps)) == TagsOf(ps)
  {
    if ps != [] {
      OutputTags(ps[1..]);
      var rest := Join(ps[1..]);
      match ps[0]
      case Run(s) => EscapeHasNoAngles(s); PlainHasNoTags(Escape(s), rest);
      case Open(e) => TagIsRead(e, true, rest);
      case Close(e) => TagIsRead(e, false, rest);
    }
  }

  // ---------------------------------------------------------------- leaving out what prints no tag

  function Seen(es: seq<Entity>): seq<Entity> {
    if es == [] then [] else (if Visible(es[0]) then [es[0]] else []) + Seen(es[1..])
  }

  /** The pieces without those that print nothing. */
  function Printed(ps: seq<Piece>): seq<Piece> {
    if ps == [] then [] else (if ps[0].Run? || Visible(ps[0].span) then [ps[0]] else []) + Printed(ps[1..])
  }

  lemma {:induction false} SeenStep(es: seq<Entity>)
    requires es != []
    ensures if Visible(es[0]) then Seen(es) != [] && Seen(es)[0] == es[0] && Seen(es)[1..] == Seen(es[1..])
            else Seen(es) == Seen(es[1..])
  {}

  lemma {:induction false} InSeen(es: seq<Entity>, e: Entity)
    ensures e in Seen(es) <==> e in es && Visible(e)
  {
    if es != [] {
      assert es == [es[0]] + es[1..];
      InSeen(es[1..], e);
    }
  }

  lemma {:induction false} SeenConcat(a: seq<Entity>, b: seq<Entity>)
    ensures Seen(a + b) == Seen(a) + Seen(b)
  {
    if a == [] {
      assert a + b == b;
    } else {
      assert (a + b)[1..] == a[1..] + b;
      SeenConcat(a[1..], b);
      Assoc(if Visible(a[0]) then [a[0]] else [], Seen(a[1..]), Seen(b));
    }
  }

  lemma {:induction false} ShownConcat(a: seq<Piece>, b: seq<Piece>)
    ensures Printed(a + b) == Printed(a) + Printed(b)
  {
    if a == [] {
      assert a + b == b;
    } else {
      assert (a + b)[1..] == a[1..] + b;
      ShownConcat(a[1..], b);
      Assoc(if a[0].Run? || Visible(a[0].span) then [a[0]] else [], Printed(a[1..]), Printed(b));
    }
  }

  lemma {:induction false} ShownTags(ps: seq<Piece>)
    ensures TagsOf(Printed(ps)) == TagsOf(ps)
  {
    if ps != [] {
      ShownTags(ps[1..]);
      if ps[0].Run? || Visible(ps[0].span) {
        assert ([ps[0]] + Printed(ps[1..]))[1..] == Printed(ps[1..]);
      } else {
        assert [] + Printed(ps[1..]) == Printed(ps[1..]);
      }
    }
  }

  lemma {:induction false} SeenSplits(st: seq<Entity>, p: int)
    ensures Seen(Ending(st, p)) == Ending(Seen(st), p) && Seen(Staying(st, p)) == Staying(Seen(st), p)
  {
    if st != [] {
      SeenSplits(st[1..], p);
      var one := if Visible(st[0]) then [st[0]] else [];
      EndingConcat(one, Seen(st[1..]), p);
      SeenConcat(if st[0].End() == p then [st[0]] else [], Ending(st[1..], p));
      SeenConcat(if st[0].End() != p then [st[0]] else [], Staying(st[1..], p));
    }
  }

  lemma {:induction false} SeenAt(es: seq<Entity>, p: int)
    ensures Seen(At(es, p)) == At(Seen(es), p)
  {
    if es != [] {
      SeenAt(es[1..], p);
      SeenConcat(if es[0].offset == p then [es[0]] else [], At(es[1..], p));
      GroupConcat(if Visible(es[0]) then [es[0]] else [], Seen(es[1..]), p);
    }
  }

  predicate Descending(es: seq<Entity>) {
    forall a, b :: 0 <= a < b < |es| ==> es[a].length >= es[b].length
  }

  lemma {:induction false} InsertDescends(e: Entity, es: seq<Entity>)
    requires Descending(es)
    ensures Descending(InsertByLength(e, es))
  {
    if es != [] && e.length < es[0].length {
      InsertDescends(e, es[1..]);
      var t := InsertByLength(e, es[1..]);
      forall x | x in t ensures es[0].length >= x.length { Inserted(e, es[1..], x); }
    }
  }

  lemma {:induction false} SortDescends(es: seq<Entity>)
    ensures Descending(LongestFirst(es))
  {
    if es != [] {
      SortDescends(es[1..]);
      InsertDescends(es[0], LongestFirst(es[1..]));
    }
  }

  /** Insertion at the front of all that are no longer. */
  lemma {:induction false} InsertFront(e: Entity, es: seq<Entity>)
    requires forall x :: x in es ==> e.length >= x.length
    ensures InsertByLength(e, es) == [e] + es
  {
    if es != [] { assert es[0] in es; }
  }

  lemma {:induction false} SeenInsert(e: Entity, es: seq<Entity>)
    requires Descending(es)
    ensures Seen(InsertByLength(e, es)) == if Visible(e) then InsertByLength(e, Seen(es)) else Seen(es)
  {
    if es == [] || e.length >= es[0].length {
      SeenConcat([e], es);
      assert Seen([e]) == if Visible(e) then [e] else [] by { assert [e][1..] == []; }
      forall x | x in Seen(es) ensures e.length >= x.length { InSeen(es, x); }
      InsertFront(e, Seen(es));
    } else {
      SeenInsert(e, es[1..]);
      var longer := InsertByLength(e, es);
      assert longer[0] == es[0] && longer[1..] == InsertByLength(e, es[1..]);
      SeenStep(longer);
      SeenStep(es);
      if Visible(es[0]) { assert Seen(longer) == [es[0]] + Seen(longer[1..]); }
    }
  }

  lemma {:induction false} SeenSorts(es: seq<Entity>)
    ensures Seen(LongestFirst(es)) == LongestFirst(Seen(es))
  {
    if es != [] {
      SeenSorts(es[1..]);
      SortDescends(es[1..]);
      SeenInsert(es[0], LongestFirst(es[1..]));
      SeenStep(es);
    }
  }

  lemma {:induction false} ShownOne(p: Piece)
    ensures Printed([p]) == if p.Run? || Visible(p.span) then [p] else []
  {
    assert [p][1..] == [];
  }

  lemma {:induction false} ShownClosings(es: seq<Entity>)
    ensures Printed(Closings(es)) == Closings(Seen(es))
  {
    if es != [] {
      ShownClosings(es[1..]);
      ShownConcat(Closings(es[1..]), [Close(es[0])]);
      ShownOne(Close(es[0]));
      SeenStep(es);
    }
  }

  lemma {:induction false} ShownOpenings(es: seq<Entity>)
    ensures Printed(Openings(es)) == Openings(Seen(es))
  {
    if es != [] {
      ShownOpenings(es[1..]);
      ShownConcat([Open(es[0])], Openings(es[1..]));
      ShownOne(Open(es[0]));
      SeenStep(es);
    }
  }

  lemma {:induction false} ShownTurn(text: string, es: seq<Entity>, p: int, i: int, st: seq<Entity>)
    ensures Printed(Turn(text, es, p, i, st)) == Turn(text, Seen(es), p, i, Seen(st))
    ensures Seen(After(es, p, st)) == After(Seen(es), p, Seen(st))
  {
    var run := if p > i then [Run(Slice(text, i, p))] else [];
    var c, o := Closings(Ending(st, p)), Openings(StartsAt(es, p));
    SeenSplits(st, p);
    SeenAt(es, p);
    SeenSorts(At(es, p));
    ShownConcat(run + c, o);
    ShownConcat(run, c);
    if p > i { ShownOne(run[0]); }
    ShownClosings(Ending(st, p));
    ShownOpenings(StartsAt(es, p));
    SeenConcat(Staying(st, p), StartsAt(es, p));
  }

  /** Printing only what shows is printing the visible spans, at all the boundaries. */
  lemma {:induction false} ShownScan(text: string, es: seq<Entity>, ps: seq<int>, i: int, st: seq<Entity>)
    ensures Printed(Scan(text, es, ps, i, st)) == Scan(text, Seen(es), ps, i, Seen(st))
  {
    if ps != [] {
      ShownTurn(text, es, ps[0], i, st);
      ShownScan(text, es, ps[1..], ps[0], After(es, ps[0], st));
      ShownConcat(Turn(text, es, ps[0], i, st), Scan(text, es, ps[1..], ps[0], After(es, ps[0], st)));
    }
  }

  // ---------------------------------------------------------------- reading by name, boundary by boundary

  function Names(es: seq<Entity>): (ns: seq<string>)
    ensures |ns| == |es|
  {
    if es == [] then [] else [Name(es[0])] + Names(es[1..])
  }

  lemma {:induction false} NamesConcat(a: seq<Entity>, b: seq<Entity>)
    ensures Names(a + b) == Names(a) + Names(b)
  {
    if a == [] {
      assert a + b == b;
    } else {
      assert (a + b)[1..] == a[1..] + b;
      NamesConcat(a[1..], b);
      Assoc([Name(a[0])], Names(a[1..]), Names(b));
    }
  }

  lemma {:induction false} NamesOne(e: Entity)
    ensures Names([e]) == [Name(e)]
  {
    assert [e][1..] == [];
  }

  lemma {:induction false} NamesAt(es: seq<Entity>, k: nat)
    requires k < |es|
    ensures Names(es)[k] == Name(es[k])
  {
    if k > 0 { NamesAt(es[1..], k - 1); }
  }

  ghost predicate AllVisible(es: seq<Entity>) { forall e :: e in es ==> Visible(e) }

  /** `tops` is what lies on top of the open names. */
  ghost predicate NamesOnTop(names: seq<string>, tops: seq<string>) {
    |tops| <= |names| && names[|names| - |tops|..] == tops
  }

  lemma {:induction false} TagsConcat(a: seq<Piece>, b: seq<Piece>)
    ensures TagsOf(a + b) == TagsOf(a) + TagsOf(b)
  {
    if a == [] {
      assert a + b == b;
    } else {
      assert (a + b)[1..] == a[1..] + b;
      TagsConcat(a[1..], b);
      Assoc(TagOf(a[0]), TagsOf(a[1..]), TagsOf(b));
    }
  }

  function OpenTags(names: seq<string>): seq<PrintedTag> {
    if names == [] then [] else [Opening(names[0])] + OpenTags(names[1..])
  }

  function CloseTags(names: seq<string>): seq<PrintedTag> {
    if names == [] then [] else CloseTags(names[1..]) + [Closing(names[0])]
  }

  lemma {:induction false} OpeningTags(es: seq<Entity>)
    requires AllVisible(es)
    ensures TagsOf(Openings(es)) == OpenTags(Names(es))
  {
    if es != [] {
      OpeningTags(es[1..]);
      assert Openings(es)[1..] == Openings(es[1..]);
      assert Names(es)[1..] == Names(es[1..]);
    }
  }

  lemma {:induction false} ClosingTags(es: seq<Entity>)
    requires AllVisible(es)
    ensures TagsOf(Closings(es)) == CloseTags(Names(es))
  {
    if es != [] {
      ClosingTags(es[1..]);
      TagsConcat(Closings(es[1..]), [Close(es[0])]);
      assert [Close(es[0])][1..] == [];
      assert Names(es)[1..] == Names(es[1..]);
    }
  }

  lemma {:induction false} ReadOpens(ns: seq<string>, r: seq<PrintedTag>, names: seq<string>)
    ensures WellNested(OpenTags(ns) + r, names) <==> WellNested(r, names + ns)
  {
    if ns == [] {
      assert OpenTags(ns) + r == r && names + ns == names;
    } else {
      assert OpenTags(ns) + r == [Opening(ns[0])] + (OpenTags(ns[1..]) + r);
      ReadOpens(ns[1..], r, names + [ns[0]]);
      assert names + [ns[0]] + ns[1..] == names + ns;
    }
  }

  lemma {:induction false} ReadCloses(ns: seq<string>, r: seq<PrintedTag>, names: seq<string>)
    ensures WellNested(CloseTags(ns) + r, names) <==> NamesOnTop(names, ns) && WellNested(r, names[..|names| - |ns|])
  {
    if ns == [] {
      assert CloseTags(ns) + r == r && names[..|names|] == names;
    } else {
      var n := |ns| - 1;
      assert CloseTags(ns) + r == CloseTags(ns[1..]) + ([Closing(ns[0])] + r);
      ReadCloses(ns[1..], [Closing(ns[0])] + r, names);
      assert ([Closing(ns[0])] + r)[1..] == r;
      if NamesOnTop(names, ns[1..]) {
        var base := names[..|names| - n];
        if base != [] {
          assert base[..|base| - 1] == names[..|names| - |ns|];
          assert base[|base| - 1] == names[|names| - |ns|];
          assert names[|names| - |ns|..] == [names[|names| - |ns|]] + names[|names| - n..];
        }
      }
    }
  }

  /** The names open after a boundary. */
  function NextNames(es: seq<Entity>, p: int, st: seq<Entity>, names: seq<string>): seq<string>
    requires |Ending(st, p)| <= |names|
  {
    names[..|names| - |Ending(st, p)|] + Names(StartsAt(es, p))
  }

  ghost predicate NameTidy(es: seq<Entity>, ps: seq<int>, st: seq<Entity>, names: seq<string>)
    decreases |ps|
  {
    if ps == [] then names == []
    else
      && NamesOnTop(names, Names(Ending(st, ps[0])))
      && NameTidy(es, ps[1..], After(es, ps[0], st), NextNames(es, ps[0], st, names))
  }

  lemma {:induction false} TurnVisible(es: seq<Entity>, p: int, st: seq<Entity>)
    requires AllVisible(es) && AllVisible(st)
    ensures AllVisible(After(es, p, st)) && AllVisible(Ending(st, p)) && AllVisible(StartsAt(es, p))
  {
    InAfter(es, p, st);
    forall e | e in Ending(st, p) ensures Visible(e) { InEnding(st, p, e); }
    forall e | e in StartsAt(es, p) ensures Visible(e) { assert e in After(es, p, st); }
  }

  lemma {:induction false} RunHasNoTags(run: seq<Piece>)
    requires |run| <= 1 && forall p :: p in run ==> p.Run?
    ensures TagsOf(run) == []
  {
    if run != [] { assert run[1..] == []; }
  }

  lemma {:induction false} TagsOfThree(a: seq<Piece>, b: seq<Piece>, c: seq<Piece>)
    requires TagsOf(a) == []
    ensures TagsOf(a + b + c) == TagsOf(b) + TagsOf(c)
  {
    TagsConcat(a + b, c);
    TagsConcat(a, b);
  }

  lemma {:induction false} TurnTags(text: string, es: seq<Entity>, p: int, i: int, st: seq<Entity>)
    requires AllVisible(es) && AllVisible(st)
    ensures TagsOf(Turn(text, es, p, i, st)) == CloseTags(Names(Ending(st, p))) + OpenTags(Names(StartsAt(es, p)))
  {
    TurnVisible(es, p, st);
    var run := if p > i then [Run(Slice(text, i, p))] else [];
    RunHasNoTags(run);
    TagsOfThree(run, Closings(Ending(st, p)), Openings(StartsAt(es, p)));
    ClosingTags(Ending(st, p));
    OpeningTags(StartsAt(es, p));
  }

  lemma {:induction false} ReadTurn(c: seq<string>, o: seq<string>, r: seq<PrintedTag>, names: seq<string>)
    ensures WellNested(CloseTags(c) + OpenTags(o) + r, names) <==>
              NamesOnTop(names, c) && WellNested(r, names[..|names| - |c|] + o)
  {
    assert CloseTags(c) + OpenTags(o) + r == CloseTags(c) + (OpenTags(o) + r);
    ReadCloses(c, OpenTags(o) + r, names);
    if NamesOnTop(names, c) { ReadOpens(o, r, names[..|names| - |c|]); }
  }

  lemma {:induction false} ReadFirstTurn(text: string, es: seq<Entity>, ps: seq<int>, i: int, st: seq<Entity>,
                                         names: seq<string>)
    requires AllVisible(es) && AllVisible(st) && ps != []
    ensures var rest := Scan(text, es, ps[1..], ps[0], After(es, ps[0], st));
            WellNested(TagsOf(Scan(text, es, ps, i, st)), names) <==>
              && NamesOnTop(names, Names(Ending(st, ps[0])))
              && WellNested(TagsOf(rest), NextNames(es, ps[0], st, names))
  {
    var p := ps[0];
    var rest := Scan(text, es, ps[1..], p, After(es, p, st));
    TurnTags(text, es, p, i, st);
    TagsConcat(Turn(text, es, p, i, st), rest);
    ReadTurn(Names(Ending(st, p)), Names(StartsAt(es, p)), TagsOf(rest), names);
  }

  lemma {:induction false} ReadScan(text: string, es: seq<Entity>, ps: seq<int>, i: int, st: seq<Entity>,
                                    names: seq<string>)
    requires AllVisible(es) && AllVisible(st)
    ensures WellNested(TagsOf(Scan(text, es, ps, i, st)), names) <==> NameTidy(es, ps, st, names)
    decreases |ps|
  {
    if ps != [] {
      var p := ps[0];
      ReadFirstTurn(text, es, ps, i, st, names);
      TurnVisible(es, p, st);
      if NamesOnTop(names, Names(Ending(st, p))) {
        ReadScan(text, es, ps[1..], p, After(es, p, st), NextNames(es, p, st, names));
      }
    }
  }

  // ---------------------------------------------------------------- the order of the stack

  /** In order of opening: by offset, and the longer first. */
  ghost predicate Stacked(st: seq<Entity>) {
    forall a, b :: 0 <= a < b < |st| ==>
      st[a].offset < st[b].offset || (st[a].offset == st[b].offset && st[a].length >= st[b].length)
  }

  ghost predicate OpenAt(es: seq<Entity>, st: seq<Entity>, p: int) {
    Stacked(st) && forall e :: e in st ==> e in es && e.offset < p
  }

  lemma {:induction false} StayingStacked(st: seq<Entity>, p: int)
    requires Stacked(st)
    ensures Stacked(Staying(st, p))
  {
    if st != [] {
      assert st == [st[0]] + st[1..];
      assert Stacked(st[1..]);
      StayingStacked(st[1..], p);
      var rest := Staying(st[1..], p);
      forall e | e in rest ensures st[0].offset < e.offset || (st[0].offset == e.offset && st[0].length >= e.length) {
        InEnding(st[1..], p, e);
        var k :| 0 <= k < |st[1..]| && st[1..][k] == e;
        assert st[k + 1] == e;
      }
    }
  }

  lemma {:induction false} AfterStacked(es: seq<Entity>, p: int, st: seq<Entity>, q: int)
    requires OpenAt(es, st, p) && p < q
    ensures OpenAt(es, After(es, p, st), q)
  {
    var keep, starts := Staying(st, p), StartsAt(es, p);
    InAfter(es, p, st);
    StayingStacked(st, p);
    var next: seq<Entity> := keep + starts;
    forall a: int, b: int | 0 <= a < b < |next|
      ensures next[a].offset < next[b].offset || (next[a].offset == next[b].offset && next[a].length >= next[b].length)
    {
      if b >= |keep| {
        assert starts[b - |keep|] in starts;
        if a < |keep| { assert keep[a] in keep; } else { assert starts[a - |keep|] in starts; }
      }
    }
  }

  /** One that closes with another above it that stays: they cross. */
  lemma {:induction false} ClosingBelowCrosses(st: seq<Entity>, p: int, a: nat, b: nat)
    requires Stacked(st) && a < b < |st| && st[a].End() == p && st[b].End() > p && st[b].offset < p
    ensures !Apart(st[a], st[b])
  {}

  // ---------------------------------------------------------------- crossing within a name does no harm

  ghost predicate Positive(es: seq<Entity>) { forall e :: e in es ==> e.length > 0 }

  /** Spans of different names do not cross. */
  ghost predicate NamesApart(es: seq<Entity>) {
    forall a, b :: a in es && b in es && Name(a) != Name(b) ==> Apart(a, b)
  }

  /** Spans of the same name do not cross. */
  ghost predicate ApartWithinNames(es: seq<Entity>) {
    forall a, b :: a in es && b in es && Name(a) == Name(b) ==> Apart(a, b)
  }

  ghost predicate SameNameAbove(st: seq<Entity>, p: int) {
    forall a, b :: 0 <= a < b < |st| && st[a].End() == p && st[b].End() != p ==> Name(st[a]) == Name(st[b])
  }

  lemma {:induction false} LastSplits(st: seq<Entity>, p: int)
    requires st != []
    ensures var init, last := st[..|st| - 1], st[|st| - 1];
            && Ending(st, p) == Ending(init, p) + (if last.End() == p then [last] else [])
            && Staying(st, p) == Staying(init, p) + (if last.End() != p then [last] else [])
  {
    var init, last := st[..|st| - 1], st[|st| - 1];
    assert st == init + [last];
    EndingConcat(init, [last], p);
    assert [last][1..] == [];
  }

  lemma {:induction false} EndingPlaces(st: seq<Entity>, p: int, e: Entity)
    requires e in Ending(st, p)
    ensures exists k :: 0 <= k < |st| && st[k] == e && e.End() == p
  {
    InEnding(st, p, e);
  }

  /** Closing then leaves just the names of the spans that stay. */
  ghost predicate Pops(st: seq<Entity>, p: int) {
    Names(st) == Names(Staying(st, p)) + Names(Ending(st, p))
  }

  lemma {:induction false} AllTheSame(ns: seq<string>, n: string)
    requires forall x :: x in ns ==> x == n
    ensures ns + [n] == [n] + ns
  {
    forall k | 0 <= k <= |ns| ensures (ns + [n])[k] == n && ([n] + ns)[k] == n {
      if k < |ns| { assert ns[k] in ns; }
      if k > 0 { assert ns[k - 1] in ns; }
    }
  }

  lemma {:induction false} NamesAll(es: seq<Entity>, n: string)
    requires forall e :: e in es ==> Name(e) == n
    ensures forall x :: x in Names(es) ==> x == n
  {
    if es != [] { NamesAll(es[1..], n); }
  }

  lemma {:induction false} EndingSameName(st: seq<Entity>, p: int)
    requires st != [] && SameNameAbove(st, p) && st[|st| - 1].End() != p
    ensures var init := st[..|st| - 1];
            forall x :: x in Names(Ending(init, p)) ==> x == Name(st[|st| - 1])
  {
    var init, last := st[..|st| - 1], st[|st| - 1];
    forall e | e in Ending(init, p) ensures Name(e) == Name(last) {
      EndingPlaces(init, p, e);
      var k :| 0 <= k < |init| && init[k] == e && e.End() == p;
      assert st[k] == e;
    }
    NamesAll(Ending(init, p), Name(last));
  }

  /** Closing takes the right names off, although not always from the right spans. */
  lemma {:induction false} PopsByName(st: seq<Entity>, p: int)
    requires SameNameAbove(st, p)
    ensures Pops(st, p)
    decreases |st|
  {
    if st != [] {
      var init, last := st[..|st| - 1], st[|st| - 1];
      assert st == init + [last];
      LastSplits(st, p);
      PopsByName(init, p);
      NamesConcat(init, [last]);
      NamesOne(last);
      var low, top, n := Names(Staying(init, p)), Names(Ending(init, p)), [Name(last)];
      if last.End() == p {
        NamesConcat(Ending(init, p), [last]);
        assert Staying(init, p) + [] == Staying(init, p);
        Assoc(low, top, n);
      } else {
        NamesConcat(Staying(init, p), [last]);
        assert Ending(init, p) + [] == Ending(init, p);
        EndingSameName(st, p);
        AllTheSame(top, Name(last));
        Assoc(low, top, n);
        Assoc(low, n, top);
      }
    }
  }

  lemma {:induction false} PopsNext(es: seq<Entity>, p: int, st: seq<Entity>)
    requires Pops(st, p)
    ensures NamesOnTop(Names(st), Names(Ending(st, p))) && NextNames(es, p, st, Names(st)) == Names(After(es, p, st))
  {
    EndingOnce(st, p);
    NamesConcat(Staying(st, p), StartsAt(es, p));
    assert Names(st)[..|st| - |Ending(st, p)|] == Names(Staying(st, p));
  }

  lemma {:induction false} StayingHasSameName(es: seq<Entity>, ps: seq<int>, st: seq<Entity>, low: int)
    requires NamesApart(es) && ps != [] && Above(ps, low) && OpenAt(es, st, ps[0])
    requires forall e :: e in st ==> e.End() in ps
    ensures SameNameAbove(st, ps[0])
  {
    var p := ps[0];
    Tail(ps, low);
    forall a, b | 0 <= a < b < |st| && st[a].End() == p && st[b].End() != p ensures Name(st[a]) == Name(st[b]) {
      assert st[a] in st && st[b] in st;
      ClosingBelowCrosses(st, p, a, b);
    }
  }

  lemma {:induction false} ApartIsTidy(es: seq<Entity>, ps: seq<int>, st: seq<Entity>, low: int)
    requires Positive(es) && NamesApart(es) && Above(ps, low) && (ps != [] ==> OpenAt(es, st, ps[0]))
    requires forall e :: e in st ==> e in es && e.End() in ps
    requires forall g :: g in es && g.offset in ps ==> g.End() in ps
    ensures NameTidy(es, ps, st, Names(st))
    decreases |ps|
  {
    if ps == [] {
      if st != [] { HasMember(st); }
    } else {
      var p, next := ps[0], After(es, ps[0], st);
      Tail(ps, low);
      StayingHasSameName(es, ps, st, low);
      PopsByName(st, p);
      PopsNext(es, p, st);
      InAfter(es, p, st);
      if ps[1..] != [] { AfterStacked(es, p, st, ps[1]); }
      ApartIsTidy(es, ps[1..], next, p);
    }
  }

  // ---------------------------------------------------------------- what nesting by name asks for

  /** As many names stay open as spans. */
  lemma {:induction false} AsManyNames(es: seq<Entity>, p: int, st: seq<Entity>, names: seq<string>)
    requires |names| == |st|
    ensures |Ending(st, p)| <= |names| && |NextNames(es, p, st, names)| == |After(es, p, st)|
  {
    EndingOnce(st, p);
  }

  lemma {:induction false} InStaying(es: seq<Entity>, p: int, st: seq<Entity>, f: Entity)
    requires f in st && f.End() != p
    ensures f in After(es, p, st)
  {
    InAfter(es, p, st);
  }

  /** Every open span is closed at some boundary to come. */
  lemma {:induction false} TidyClears(es: seq<Entity>, ps: seq<int>, st: seq<Entity>, names: seq<string>, f: Entity)
    requires NameTidy(es, ps, st, names) && |names| == |st| && f in st
    ensures f.End() in ps
    decreases |ps|
  {
    if ps != [] {
      AsManyNames(es, ps[0], st, names);
      if f.End() != ps[0] {
        InStaying(es, ps[0], st, f);
        TidyClears(es, ps[1..], After(es, ps[0], st), NextNames(es, ps[0], st, names), f);
      }
    }
  }

  lemma {:induction false} TidyIsPositive(es: seq<Entity>, ps: seq<int>, st: seq<Entity>, names: seq<string>, low: int,
                                          g: Entity)
    requires NameTidy(es, ps, st, names) && |names| == |st| && Above(ps, low) && g in es && g.offset in ps
    ensures g.length > 0
    decreases |ps|
  {
    var p, next := ps[0], After(es, ps[0], st);
    var left := NextNames(es, p, st, names);
    Tail(ps, low);
    AsManyNames(es, p, st, names);
    if g.offset == p {
      InAfter(es, p, st);
      TidyClears(es, ps[1..], next, left, g);
    } else {
      TidyIsPositive(es, ps[1..], next, left, p, g);
    }
  }

  lemma {:induction false} LastComesOff(st: seq<Entity>, p: int)
    requires NamesOnTop(Names(st), Names(Ending(st, p))) && OtherNameAbove(st, p) && Ending(st, p) != []
    ensures st != []
    ensures var init, last := st[..|st| - 1], st[|st| - 1];
            && NamesOnTop(Names(init), Names(Ending(init, p))) && OtherNameAbove(init, p)
            && Ending(st, p) == Ending(init, p) + [last] && Staying(st, p) == Staying(init, p)
  {
    LastOnTop(st, p);
    var init, last := st[..|st| - 1], st[|st| - 1];
    LastEnds(st, p);
    assert st == init + [last];
    InitOnTop(init, last, Ending(init, p));
    InitOtherNameAbove(init, last, p);
  }

  lemma {:induction false} LastEnds(st: seq<Entity>, p: int)
    requires st != [] && st[|st| - 1].End() == p
    ensures var init, last := st[..|st| - 1], st[|st| - 1];
            Ending(st, p) == Ending(init, p) + [last] && Staying(st, p) == Staying(init, p)
  {
    var init := st[..|st| - 1];
    LastSplits(st, p);
    assert Staying(init, p) + [] == Staying(init, p);
  }

  lemma {:induction false} InitOtherNameAbove(init: seq<Entity>, last: Entity, p: int)
    requires OtherNameAbove(init + [last], p)
    ensures OtherNameAbove(init, p)
  {
    forall a, b | 0 <= a < b < |init| && init[a].End() == p && init[b].End() != p
      ensures Name(init[a]) != Name(init[b])
    {
      assert (init + [last])[a] == init[a] && (init + [last])[b] == init[b];
    }
  }

  /** With no two spans of one name crossing, only the spans that end can lie on top. */
  lemma {:induction false} OnlyEndingOnTop(st: seq<Entity>, p: int)
    requires NamesOnTop(Names(st), Names(Ending(st, p))) && OtherNameAbove(st, p)
    ensures st == Staying(st, p) + Ending(st, p)
    decreases |st|
  {
    if Ending(st, p) == [] {
      EndingOnce(st, p);
      assert Staying(st, p) + [] == st;
    } else {
      var init, last := st[..|st| - 1], st[|st| - 1];
      LastComesOff(st, p);
      OnlyEndingOnTop(init, p);
      Assoc(Staying(init, p), Ending(init, p), [last]);
      assert st == init + [last];
    }
  }

  ghost predicate OtherNameAbove(st: seq<Entity>, p: int) {
    forall a, b :: 0 <= a < b < |st| && st[a].End() == p && st[b].End() != p ==> Name(st[a]) != Name(st[b])
  }

  /** The span opened last ends here: the last name to be closed is its name. */
  lemma {:induction false} LastOnTop(st: seq<Entity>, p: int)
    requires NamesOnTop(Names(st), Names(Ending(st, p))) && OtherNameAbove(st, p) && Ending(st, p) != []
    ensures st != [] && st[|st| - 1].End() == p
  {
    EndingOnce(st, p);
    var es := Ending(st, p);
    var n, k := |st| - 1, |es| - 1;
    var e := es[k];
    NamesAt(st, n);
    NamesAt(es, k);
    assert Names(st)[n] == Names(st)[|st| - |es|..][k];
    EndingPlaces(st, p, e);
    var a :| 0 <= a < |st| && st[a] == e && e.End() == p;
  }

  lemma {:induction false} InitOnTop(init: seq<Entity>, last: Entity, es: seq<Entity>)
    requires NamesOnTop(Names(init + [last]), Names(es + [last]))
    ensures NamesOnTop(Names(init), Names(es))
  {
    NamesConcat(init, [last]);
    NamesConcat(es, [last]);
    NamesOne(last);
    var names, tops := Names(init), Names(es);
    var n := [Name(last)];
    assert (names + n)[|names| - |tops|..] == tops + n;
    assert names[|names| - |tops|..] == (names + n)[|names| - |tops|..][..|tops|] == tops;
  }

  lemma {:induction false} StayingHasOtherName(es: seq<Entity>, ps: seq<int>, st: seq<Entity>, low: int)
    requires ApartWithinNames(es) && ps != [] && Above(ps, low) && OpenAt(es, st, ps[0])
             && NameTidy(es, ps, st, Names(st))
    ensures OtherNameAbove(st, ps[0])
  {
    var p := ps[0];
    Tail(ps, low);
    forall a, b | 0 <= a < b < |st| && st[a].End() == p && st[b].End() != p ensures Name(st[a]) != Name(st[b]) {
      assert st[a] in st && st[b] in st;
      TidyClears(es, ps, st, Names(st), st[b]);
      ClosingBelowCrosses(st, p, a, b);
    }
  }

  lemma {:induction false} NameTidyIsTidy(es: seq<Entity>, ps: seq<int>, st: seq<Entity>, low: int)
    requires ApartWithinNames(es) && Above(ps, low) && (ps != [] ==> OpenAt(es, st, ps[0]))
    requires NameTidy(es, ps, st, Names(st))
    ensures Tidy(es, ps, st)
    decreases |ps|
  {
    if ps != [] {
      var p, next := ps[0], After(es, ps[0], st);
      Tail(ps, low);
      StayingHasOtherName(es, ps, st, low);
      OnlyEndingOnTop(st, p);
      NamesConcat(Staying(st, p), Ending(st, p));
      PopsNext(es, p, st);
      if ps[1..] != [] { AfterStacked(es, p, st, ps[1]); }
      NameTidyIsTidy(es, ps[1..], next, p);
    }
  }

  // ---------------------------------------------------------------- theorems

  /** The positions the printer stops at, and that every visible span starts and ends at one of them. */
  lemma {:induction false} Stops(text: string, es: seq<Entity>) returns (ps: seq<int>, low: int)
    ensures ps == Sorted(Boundaries(text, es)) && Above(ps, low)
    ensures forall g :: g in es ==> g.offset in ps && g.End() in ps
  {
    var bs := Boundaries(text, es);
    ps, low := Sorted(bs), Least(bs) - 1;
    SortedSorts(bs, low);
    forall g | g in es ensures g.offset in ps && g.End() in ps {
      CountIn(es, g);
      CountZero(es, g);
    }
  }

  /** The output nests when its visible spans do, boundary by boundary. */
  lemma {:induction false} OutputNests(text: string, es: seq<Entity>)
    requires es != []
    ensures var ps := Sorted(Boundaries(text, es));
            WellNested(ReadTags(Join(Pieces(text, es))), []) <==> NameTidy(Seen(es), ps, [], [])
  {
    var ps := Sorted(Boundaries(text, es));
    OutputTags(Pieces(text, es));
    ShownTags(Pieces(text, es));
    ShownScan(text, es, ps, 0, []);
    forall e | e in Seen(es) ensures Visible(e) { InSeen(es, e); }
    ReadScan(text, Seen(es), ps, 0, [], []);
  }

  /** Spans that do not cross unless they print the same tag, all of positive length, print well-nested tags;
      spans that print none do not matter. */
  lemma {:induction false} TagsNestWhenNamesAreApart(text: string, es: seq<Entity>)
    requires Positive(Seen(es)) && NamesApart(Seen(es))
    ensures WellNested(ReadTags(Join(Pieces(text, es))), [])
  {
    if es == [] {
      OutputTags([Run(text)]);
      assert [Run(text)][1..] == [];
    } else {
      var ps, low := Stops(text, es);
      OutputNests(text, es);
      forall g | g in Seen(es) ensures g.End() in ps { InSeen(es, g); }
      ApartIsTidy(Seen(es), ps, [], low);
    }
  }

  /** Well-nested tags come from spans of positive length. */
  lemma {:induction false} NestedTagsArePositive(text: string, es: seq<Entity>)
    requires WellNested(ReadTags(Join(Pieces(text, es))), [])
    ensures Positive(Seen(es))
  {
    if es != [] {
      var ps, low := Stops(text, es);
      OutputNests(text, es);
      forall g | g in Seen(es) ensures g.length > 0 {
        InSeen(es, g);
        TidyIsPositive(Seen(es), ps, [], [], low, g);
      }
    }
  }

  /** For all inputs in which no two spans of one tag name cross: the printed tags are well nested exactly
      when the spans that print a tag are laminar. */
  lemma {:induction false} TagsNestExactlyWhenLaminar(text: string, es: seq<Entity>)
    requires ApartWithinNames(Seen(es))
    ensures WellNested(ReadTags(Join(Pieces(text, es))), []) <==> Laminar(Seen(es))
  {
    if Laminar(Seen(es)) { TagsNestWhenNamesAreApart(text, es); }
    if es != [] && WellNested(ReadTags(Join(Pieces(text, es))), []) {
      var ps, low := Stops(text, es);
      OutputNests(text, es);
      NameTidyIsTidy(Seen(es), ps, [], low);
      forall g | g in Seen(es) ensures g.offset in ps && g.End() in ps { InSeen(es, g); }
      TidyExactlyWhenLaminar(Seen(es), ps, low);
    }
  }

  /** For all inputs: every closing tag meets the opening tag of its own span, and nothing stays open,
      exactly when the spans that print a tag are laminar. */
  lemma {:induction false} OwnTagsNestExactlyWhenLaminar(text: string, es: seq<Entity>)
    ensures Nests(Printed(Pieces(text, es)), []) <==> Laminar(Seen(es))
  {
    if es == [] {
      ShownOne(Run(text));
      assert [Run(text)][1..] == [];
    } else {
      var ps, low := Stops(text, es);
      ShownScan(text, es, ps, 0, []);
      NestsScan(text, Seen(es), ps, 0, []);
      forall g | g in Seen(es) ensures g.offset in ps && g.End() in ps { InSeen(es, g); }
      TidyExactlyWhenLaminar(Seen(es), ps, low);
    }
  }

  // ---------------------------------------------------------------- the hypothesis is needed

  const FIRST := Entity("italic", 0, 3, "")
  const SECOND := Entity("bold", 1, 3, "")
  const THIRD := Entity("italic", 2, 4, "")
  const CROSSING := [FIRST, SECOND, THIRD]
  const PLACES := [0, 1, 2, 3, 4, 6]

  lemma {:induction false} SameMembers(a: seq<int>, b: seq<int>, low: int)
    requires Above(a, low) && Above(b, low) && forall x :: x in a <==> x in b
    ensures a == b
  {
    if a != [] { assert a[0] in a; }
    if b != [] { assert b[0] in b; }
    if a != [] {
      Tail(a, low);
      Tail(b, low);
      assert a[0] == b[0];
      SameMembers(a[1..], b[1..], a[0]);
    }
  }

  lemma {:induction false} BoundsCons(e: Entity, es: seq<Entity>)
    ensures Offsets([e] + es) == {e.offset} + Offsets(es) && Ends([e] + es) == {e.End()} + Ends(es)
  {
    assert ([e] + es)[1..] == es;
  }

  lemma {:induction false} CrossingPlaces()
    ensures Sorted(Boundaries("abcdef", CROSSING)) == PLACES
  {
    var bs := Boundaries("abcdef", CROSSING);
    assert CROSSING == [FIRST] + ([SECOND] + ([THIRD] + []));
    BoundsCons(THIRD, []);
    BoundsCons(SECOND, [THIRD] + []);
    BoundsCons(FIRST, [SECOND] + ([THIRD] + []));
    assert Offsets(CROSSING) == {0, 1, 2} && Ends(CROSSING) == {3, 4, 6};
    assert bs == {0, 1, 2, 3, 4, 6};
    SortedSorts(bs, -1);
    PlacesAscend();
    SameMembers(Sorted(bs), PLACES, -1);
  }

  lemma {:induction false} PlacesAscend()
    ensures Above(PLACES, -1) && forall x :: x in PLACES <==> x in {0, 1, 2, 3, 4, 6}
  {
    assert PLACES[1..] == [1, 2, 3, 4, 6] && [1, 2, 3, 4, 6][1..] == [2, 3, 4, 6] && [2, 3, 4, 6][1..] == [3, 4, 6];
    assert [3, 4, 6][1..] == [4, 6] && [4, 6][1..] == [6] && [6][1..] == [];
    assert Above([4, 6], 3) && Above([2, 3, 4, 6], 1);
  }

  lemma {:induction false} NoneEnds(st: seq<Entity>, p: int)
    requires forall e :: e in st ==> e.End() != p
    ensures Ending(st, p) == [] && Staying(st, p) == st
  {
    if st != [] { NoneEnds(st[1..], p); }
  }

  lemma {:induction false} AtCons(e: Entity, es: seq<Entity>, p: int)
    ensures At([e] + es, p) == (if e.offset == p then [e] else []) + At(es, p)
  {
    assert ([e] + es)[1..] == es;
  }

  lemma {:induction false} SortOne(e: Entity)
    ensures LongestFirst([e]) == [e]
  {
    assert [e][1..] == [];
  }

  lemma {:induction false} CrossingStarts(p: int)
    ensures StartsAt(CROSSING, p) ==
            if p == 0 then [FIRST] else if p == 1 then [SECOND] else if p == 2 then [THIRD] else []
  {
    AtCons(THIRD, [], p);
    AtCons(SECOND, [THIRD], p);
    AtCons(FIRST, [SECOND, THIRD], p);
    assert [THIRD] + [] == [THIRD] && [SECOND] + [THIRD] == [SECOND, THIRD] && [FIRST] + [SECOND, THIRD] == CROSSING;
    assert At([], p) == [];
    assert At([THIRD], p) == if p == 2 then [THIRD] else [];
    assert At([SECOND, THIRD], p) == if p == 1 then [SECOND] else if p == 2 then [THIRD] else [];
    assert p == 0 ==> At(CROSSING, p) == [FIRST] + [] == [FIRST];
    assert p != 0 ==> At(CROSSING, p) == [] + At([SECOND, THIRD], p) == At([SECOND, THIRD], p);
    assert LongestFirst([]) == [];
    SortOne(FIRST);
    SortOne(SECOND);
    SortOne(THIRD);
  }

  /** A boundary where one span opens. */
  lemma {:induction false} TidyOpens(es: seq<Entity>, p: int, ps: seq<int>, st: seq<Entity>, names: seq<string>,
                                     e: Entity)
    requires StartsAt(es, p) == [e] && forall f :: f in st ==> f.End() != p
    requires NameTidy(es, ps, st + [e], names + [Name(e)])
    ensures NameTidy(es, [p] + ps, st, names)
  {
    assert ([p] + ps)[1..] == ps;
    OpensOnTop(es, p, st, names, e);
  }

  lemma {:induction false} OpensOnTop(es: seq<Entity>, p: int, st: seq<Entity>, names: seq<string>, e: Entity)
    requires StartsAt(es, p) == [e] && forall f :: f in st ==> f.End() != p
    ensures NamesOnTop(names, Names(Ending(st, p))) && |Ending(st, p)| == 0
    ensures After(es, p, st) == st + [e] && NextNames(es, p, st, names) == names + [Name(e)]
  {
    NoneEnds(st, p);
    NamesOne(e);
    assert names[..|names|] == names;
  }

  /** A boundary where the span below all others ends, and a name like its own lies on top. */
  lemma {:induction false} TidyCloses(es: seq<Entity>, p: int, ps: seq<int>, f: Entity, st: seq<Entity>,
                                      names: seq<string>)
    requires StartsAt(es, p) == [] && f.End() == p && forall g :: g in st ==> g.End() != p
    requires NameTidy(es, ps, st, names)
    ensures NameTidy(es, [p] + ps, [f] + st, names + [Name(f)])
  {
    assert ([p] + ps)[1..] == ps;
    EndsBelow(f, st, p);
    NamesOne(f);
    assert After(es, p, [f] + st) == st;
    assert NextNames(es, p, [f] + st, names + [Name(f)]) == names;
  }

  lemma {:induction false} EndsBelow(f: Entity, st: seq<Entity>, p: int)
    requires f.End() == p && forall g :: g in st ==> g.End() != p
    ensures Ending([f] + st, p) == [f] && Staying([f] + st, p) == st
  {
    NoneEnds(st, p);
    assert ([f] + st)[1..] == st;
  }

  /** Three spans that open one after the other and end in the same order, the last named like the first. */
  ghost predicate Lends(es: seq<Entity>, a: Entity, b: Entity, c: Entity) {
    && StartsAt(es, 0) == [a] && StartsAt(es, 1) == [b] && StartsAt(es, 2) == [c]
    && StartsAt(es, 3) == StartsAt(es, 4) == StartsAt(es, 6) == []
    && a.End() == 3 && b.End() == 4 && c.End() == 6 && Name(a) == Name(c)
  }

  lemma {:induction false} LentCloses(es: seq<Entity>, a: Entity, b: Entity, c: Entity, x: seq<string>, y: seq<string>)
    requires Lends(es, a, b, c) && x == [] + [Name(a)] && y == x + [Name(b)]
    ensures NameTidy(es, [3] + ([4] + ([6] + [])), [a] + ([b] + ([c] + [])), y + [Name(c)])
  {
    LentLast(es, a, b, c, x);
    TidyCloses(es, 4, [6] + [], b, [c] + [], x);
    TidyCloses(es, 3, [4] + ([6] + []), a, [b] + ([c] + []), y);
  }

  lemma {:induction false} LentLast(es: seq<Entity>, a: Entity, b: Entity, c: Entity, x: seq<string>)
    requires Lends(es, a, b, c) && x == [] + [Name(a)]
    ensures NameTidy(es, [6] + [], [c] + [], x)
  {
    TidyCloses(es, 6, [], c, [], []);
  }

  lemma {:induction false} LentOpens(es: seq<Entity>, a: Entity, b: Entity, c: Entity, closing: seq<int>)
    requires Lends(es, a, b, c)
    requires NameTidy(es, closing, [] + [a] + [b] + [c], [] + [Name(a)] + [Name(b)] + [Name(c)])
    ensures NameTidy(es, [0] + ([1] + ([2] + closing)), [], [])
  {
    TidyOpens(es, 2, closing, [] + [a] + [b], [] + [Name(a)] + [Name(b)], c);
    TidyOpens(es, 1, [2] + closing, [] + [a], [] + [Name(a)], b);
    TidyOpens(es, 0, [1] + ([2] + closing), [], [], a);
  }

  lemma {:induction false} LentNests(es: seq<Entity>, a: Entity, b: Entity, c: Entity, closing: seq<int>, ps: seq<int>)
    requires Lends(es, a, b, c) && closing == [3] + ([4] + ([6] + [])) && ps == [0] + ([1] + ([2] + closing))
    ensures NameTidy(es, ps, [], [])
  {
    LentCloses(es, a, b, c, [] + [Name(a)], [] + [Name(a)] + [Name(b)]);
    assert [a] + ([b] + ([c] + [])) == [] + [a] + [b] + [c];
    LentOpens(es, a, b, c, closing);
  }

  lemma {:induction false} CrossingOpens()
    ensures NameTidy(CROSSING, PLACES, [], [])
  {
    forall p ensures StartsAt(CROSSING, p) == if p == 0 then [FIRST] else if p == 1 then [SECOND]
                                              else if p == 2 then [THIRD] else []
    {
      CrossingStarts(p);
    }
    var closing := [3] + ([4] + ([6] + []));
    assert PLACES == [0] + ([1] + ([2] + closing));
    LentNests(CROSSING, FIRST, SECOND, THIRD, closing, PLACES);
  }

  lemma {:induction false} CrossingSeen()
    ensures Seen(CROSSING) == CROSSING
  {
    SeenConcat([FIRST], [SECOND, THIRD]);
    SeenConcat([SECOND], [THIRD]);
    assert [FIRST][1..] == [] && [SECOND][1..] == [] && [THIRD][1..] == [];
    assert [SECOND] + [THIRD] == [SECOND, THIRD] && [FIRST] + [SECOND, THIRD] == CROSSING;
    assert Seen([FIRST]) == [FIRST] && Seen([SECOND]) == [SECOND] && Seen([THIRD]) == [THIRD];
  }

  /** Two italics that cross can lend each other their tags: here all tags are well nested although the bold
      span crosses both. */
  lemma {:induction false} CrossingMayStillNest()
    ensures WellNested(ReadTags(Join(Pieces("abcdef", CROSSING))), [])
    ensures !NamesApart(Seen(CROSSING)) && !ApartWithinNames(Seen(CROSSING))
  {
    CrossingPlaces();
    CrossingOpens();
    CrossingSeen();
    OutputNests("abcdef", CROSSING);
    CrossingCrosses();
  }

  lemma {:induction false} CrossingCrosses()
    ensures !NamesApart(CROSSING) && !ApartWithinNames(CROSSING)
  {
    assert CROSSING[0] == FIRST && CROSSING[1] == SECOND && CROSSING[2] == THIRD;
    assert FIRST in CROSSING && SECOND in CROSSING && THIRD in CROSSING;
    assert FIRST.End() == 3 && SECOND.End() == 4 && THIRD.End() == 6;
    assert !Apart(FIRST, SECOND) && Name(FIRST) == "i" && Name(SECOND) == "b" && Name(THIRD) == "i";
    assert "i"[0] != "b"[0];
    assert !Apart(FIRST, THIRD);
  }
}
