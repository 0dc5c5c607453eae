/** Extracting the user's own words from an HTML reply: `_Text` counts nested tags to skip quoted
    originals (src/mailtg_bridge/mail_in.py:20-52).  The machine sees a flat stream of parser
    events; what it should do is said about the document tree. */
module QuoteSkipper {
  import opened Domain

  const BLOCK := {"p", "div", "br", "li", "tr", "h1", "h2", "h3", "h4", "h5", "h6",
                  "blockquote", "table", "ul", "ol", "pre"}
  const QUOTE_TAGS := {"blockquote", "cite"}

  predicate Contains(s: string, part: string) {
    |part| <= |s| && (part <= s || (s != "" && Contains(s[1..], part)))
  }

  predicate IsQuote(tag: string, cls: string) {
    tag in QUOTE_TAGS || Contains(cls, "gmail_quote") || Contains(cls, "moz-cite") || Contains(cls, "quoted")
  }

  /** What the HTML parser reports; `cls` is the lower-cased class attribute. */
  datatype Event = Start(tag: string, cls: string) | End(tag: string) | StartEnd(tag: string) | Data(text: string)

  // ---------------------------------------------------------------- the machine

  datatype Skipper = Skipper(parts: seq<string>, skip: nat, skipTag: Option<string>)

  function React(m: Skipper, e: Event): Skipper {
    match e
    case Start(tag, cls) =>
      if m.skip > 0 then (if m.skipTag == Some(tag) then m.(skip := m.skip + 1) else m)
      else if IsQuote(tag, cls) then m.(skip := 1, skipTag := Some(tag))
      else if tag in BLOCK then m.(parts := m.parts + ["\n"]) else m
    case End(tag) =>
      if m.skip > 0 && m.skipTag == Some(tag) then
        m.(skip := m.skip - 1, skipTag := if m.skip == 1 then None else m.skipTag)
      else m
    case StartEnd(tag) =>
      if m.skip == 0 && tag == "br" then m.(parts := m.parts + ["\n"]) else m
    case Data(text) =>
      if m.skip == 0 then m.(parts := m.parts + [text]) else m
  }

  function Feed(m: Skipper, es: seq<Event>): Skipper
    decreases |es|
  {
    if es == [] then m else Feed(React(m, es[0]), es[1..])
  }

  class Text {
    var parts: seq<string>
    var skip: nat
    var skipTag: Option<string>

    function State(): Skipper reads this { Skipper(parts, skip, skipTag) }

    constructor ()
      ensures State() == Skipper([], 0, None)
    {
      parts, skip, skipTag := [], 0, None;
    }

    method HandleStartTag(tag: string, cls: string)
      modifies this
      ensures State() == React(old(State()), Start(tag, cls))
    {
      if skip > 0 {
        if skipTag == Some(tag) { skip := skip + 1; }
        return;
      }
      if IsQuote(tag, cls) {
        skip, skipTag := 1, Some(tag);
        return;
      }
      if tag in BLOCK { parts := parts + ["\n"]; }
    }

    method HandleEndTag(tag: string)
      modifies this
      ensures State() == React(old(State()), End(tag))
    {
      if skip > 0 && skipTag == Some(tag) {
        skip := skip - 1;
        if skip == 0 { skipTag := None; }
      }
    }

    method HandleStartEndTag(tag: string)
      modifies this
      ensures State() == React(old(State()), StartEnd(tag))
    {
      if skip == 0 && tag == "br" { parts := parts + ["\n"]; }
    }

    method HandleData(text: string)
      modifies this
      ensures State() == React(old(State()), Data(text))
    {
      if skip == 0 { parts := parts + [text]; }
    }
  }

  /** feed(): the parser hands over its events one by one. */
  method Extract(es: seq<Event>) returns (parts: seq<string>)
    ensures parts == Feed(Skipper([], 0, None), es).parts
  {
    var p := new Text();
    assert es[0..] == es;
    for k := 0 to |es|
      invariant Feed(p.State(), es[k..]) == Feed(Skipper([], 0, None), es)
    {
      assert es[k..][1..] == es[k + 1..];
      match es[k] {
        case Start(tag, cls) => p.HandleStartTag(tag, cls);
        case End(tag) => p.HandleEndTag(tag);
        case StartEnd(tag) => p.HandleStartEndTag(tag);
        case Data(text) => p.HandleData(text);
      }
    }
    parts := p.parts;
  }

  // ---------------------------------------------------------------- the document tree

  /** A void element (`<br>`, `<img>`, `<hr>`) has a start tag only; `<br/>` is reported as one event. */
  datatype Node = Words(text: string) | SelfClosed(tag: string) | Void(tag: string, cls: string)
                | Element(tag: string, cls: string, inner: Forest)
  datatype Forest = Nil | Cons(head: Node, tail: Forest)

  function Events(f: Forest): seq<Event> {
    match f
    case Nil => []
    case Cons(n, rest) => NodeEvents(n) + Events(rest)
  }

  function NodeEvents(n: Node): seq<Event> {
    match n
    case Words(text) => [Data(text)]
    case SelfClosed(tag) => [StartEnd(tag)]
    case Void(tag, cls) => [Start(tag, cls)]
    case Element(tag, cls, inner) => [Start(tag, cls)] + Events(inner) + [End(tag)]
  }

  /** Which tags are void is a matter of the tag alone. */
  ghost predicate WellTagged(f: Forest, voids: set<string>) {
    match f
    case Nil => true
    case Cons(n, rest) => WellTagged(rest, voids) && match n
      case Void(tag, _) => tag in voids
      case Element(tag, _, inner) => tag !in voids && WellTagged(inner, voids)
      case _ => true
  }

  function Break(tag: string): seq<string> { if tag in BLOCK then ["\n"] else [] }

  /** The meaning of a document: the text and line breaks outside every quote, in order; and whether a
      void element that looks like a quote cut it short (nothing ever closes such a quote). */
  datatype Meaning = Meaning(parts: seq<string>, cut: bool)

  function Then(a: Meaning, b: Meaning): Meaning {
    if a.cut then a else Meaning(a.parts + b.parts, b.cut)
  }

  function Read(f: Forest): Meaning {
    match f
    case Nil => Meaning([], false)
    case Cons(n, rest) => Then(ReadNode(n), Read(rest))
  }

  function ReadNode(n: Node): Meaning {
    match n
    case Words(text) => Meaning([text], false)
    case SelfClosed(tag) => Meaning(if tag == "br" then ["\n"] else [], false)
    case Void(tag, cls) => if IsQuote(tag, cls) then Meaning([], true) else Meaning(Break(tag), false)
    case Element(tag, cls, inner) =>
      if IsQuote(tag, cls) then Meaning([], false)
      else Then(Meaning(Break(tag), false), Read(inner))
  }

  // ---------------------------------------------------------------- the machine reads the tree

  lemma {:induction false} FeedConcat(m: Skipper, a: seq<Event>, b: seq<Event>)
    ensures Feed(m, a + b) == Feed(Feed(m, a), b)
    decreases |a|
  {
    if a == [] {
      assert a + b == b;
    } else {
      assert (a + b)[1..] == a[1..] + b;
      FeedConcat(React(m, a[0]), a[1..], b);
    }
  }

  lemma {:induction false} FeedElement(m: Skipper, tag: string, cls: string, inner: Forest)
    ensures Feed(m, NodeEvents(Element(tag, cls, inner)))
         == React(Feed(React(m, Start(tag, cls)), Events(inner)), End(tag))
  {
    FeedConcat(m, [Start(tag, cls)] + Events(inner), [End(tag)]);
    FeedConcat(m, [Start(tag, cls)], Events(inner));
    assert [Start(tag, cls)][1..] == [] && [End(tag)][1..] == [];
  }

  /** Inside a quote nothing is added, and a complete piece of document leaves the counter where it was. */
  lemma {:induction false} SkipsForest(f: Forest, voids: set<string>, m: Skipper)
    requires WellTagged(f, voids) && m.skip > 0 && m.skipTag.Some? && m.skipTag.value !in voids
    ensures Feed(m, Events(f)) == m
    decreases f
  {
    if f.Cons? {
      var n := f.head;
      FeedConcat(m, NodeEvents(n), Events(f.tail));
      if n.Element? {
        FeedElement(m, n.tag, n.cls, n.inner);
        SkipsForest(n.inner, voids, React(m, Start(n.tag, n.cls)));
      } else {
        assert NodeEvents(n)[1..] == [];
      }
      SkipsForest(f.tail, voids, m);
    }
  }

  /** A quote entered by a void element is never closed. */
  lemma {:induction false} NeverCloses(f: Forest, voids: set<string>, m: Skipper)
    requires WellTagged(f, voids) && m.skip > 0 && m.skipTag.Some? && m.skipTag.value in voids
    ensures var after := Feed(m, Events(f));
            after.skip >= m.skip && after.skipTag == m.skipTag && after.parts == m.parts
    decreases f
  {
    if f.Cons? {
      var n := f.head;
      FeedConcat(m, NodeEvents(n), Events(f.tail));
      if n.Element? {
        FeedElement(m, n.tag, n.cls, n.inner);
        NeverCloses(n.inner, voids, React(m, Start(n.tag, n.cls)));
      } else {
        assert NodeEvents(n)[1..] == [];
      }
      NeverCloses(f.tail, voids, Feed(m, NodeEvents(n)));
    }
  }

  /** The state that reading `d` outside any quote leads to. */
  ghost predicate Reads(m: Skipper, d: Meaning, after: Skipper, voids: set<string>) {
    && after.parts == m.parts + d.parts
    && (!d.cut ==> after.skip == 0 && after.skipTag == m.skipTag)
    && (d.cut ==> after.skip > 0 && after.skipTag.Some? && after.skipTag.value in voids)
  }

  lemma {:induction false} ReadsForest(f: Forest, voids: set<string>, m: Skipper)
    requires WellTagged(f, voids) && m.skip == 0 && m.skipTag == None
    ensures Reads(m, Read(f), Feed(m, Events(f)), voids)
    decreases f, 1
  {
    if f.Cons? {
      var n, mid := f.head, Feed(m, NodeEvents(f.head));
      FeedConcat(m, NodeEvents(n), Events(f.tail));
      ReadsNode(n, voids, m);
      if ReadNode(n).cut {
        NeverCloses(f.tail, voids, mid);
      } else {
        ReadsForest(f.tail, voids, mid);
      }
    }
  }

  lemma {:induction false} ReadsNode(n: Node, voids: set<string>, m: Skipper)
    requires WellTagged(Cons(n, Nil), voids) && m.skip == 0 && m.skipTag == None
    ensures Reads(m, ReadNode(n), Feed(m, NodeEvents(n)), voids)
    decreases n, 0
  {
    if n.Element? {
      var entered := React(m, Start(n.tag, n.cls));
      FeedElement(m, n.tag, n.cls, n.inner);
      if IsQuote(n.tag, n.cls) {
        SkipsForest(n.inner, voids, entered);
      } else {
        ReadsForest(n.inner, voids, entered);
      }
    } else {
      assert NodeEvents(n)[1..] == [];
    }
  }

  /** The counting machine reads the tree: for every document it extracts exactly the text and line
      breaks outside the quotes, up to the first void element that looks like a quote; and the counter
      is back at zero exactly when there was none. */
  lemma {:induction false} MachineReadsTree(f: Forest, voids: set<string>)
    requires WellTagged(f, voids)
    ensures Feed(Skipper([], 0, None), Events(f)).parts == Read(f).parts
    ensures Feed(Skipper([], 0, None), Events(f)).skip == 0 <==> !Read(f).cut
  {
    ReadsForest(f, voids, Skipper([], 0, None));
  }

  /** The promise: all text outside the quotes, a void element being no quote. */
  function OwnWords(f: Forest): seq<string> {
    match f
    case Nil => []
    case Cons(n, rest) => NodeWords(n) + OwnWords(rest)
  }

  function NodeWords(n: Node): seq<string> {
    match n
    case Words(text) => [text]
    case SelfClosed(tag) => if tag == "br" then ["\n"] else []
    case Void(tag, _) => Break(tag)
    case Element(tag, cls, inner) => if IsQuote(tag, cls) then [] else Break(tag) + OwnWords(inner)
  }

  /** The part of it from the first void element that looks like a quote on. */
  function FromVoidQuote(f: Forest): seq<string> {
    match f
    case Nil => []
    case Cons(n, rest) =>
      if ReadNode(n).cut then NodeFromVoidQuote(n) + OwnWords(rest) else FromVoidQuote(rest)
  }

  function NodeFromVoidQuote(n: Node): seq<string> {
    match n
    case Void(tag, _) => Break(tag)
    case Element(_, _, inner) => FromVoidQuote(inner)
    case _ => []
  }

  lemma {:induction false} WordsSplit(f: Forest)
    ensures OwnWords(f) == Read(f).parts + FromVoidQuote(f)
    decreases f, 1
  {
    if f.Cons? {
      var n := f.head;
      NodeWordsSplit(n);
      WordsSplit(f.tail);
      if ReadNode(n).cut {
        assert ReadNode(n).parts + NodeFromVoidQuote(n) + OwnWords(f.tail)
            == ReadNode(n).parts + (NodeFromVoidQuote(n) + OwnWords(f.tail));
      } else {
        assert NodeWords(n) + (Read(f.tail).parts + FromVoidQuote(f.tail))
            == (ReadNode(n).parts + Read(f.tail).parts) + FromVoidQuote(f.tail);
      }
    }
  }

  lemma {:induction false} NodeWordsSplit(n: Node)
    ensures NodeWords(n) == ReadNode(n).parts + if ReadNode(n).cut then NodeFromVoidQuote(n) else []
    decreases n, 0
  {
    if n.Element? && !IsQuote(n.tag, n.cls) {
      WordsSplit(n.inner);
      if !Read(n.inner).cut { NotCut(n.inner); }
      assert Break(n.tag) + (Read(n.inner).parts + FromVoidQuote(n.inner))
          == (Break(n.tag) + Read(n.inner).parts) + FromVoidQuote(n.inner);
    }
  }

  /** What is extracted is the beginning of what the user wrote; it is all of it exactly when nothing
      stands at or after a void element that looks like a quote (in particular when there is none). */
  lemma {:induction false} OwnWordsSurvive(f: Forest, voids: set<string>)
    requires WellTagged(f, voids)
    ensures Feed(Skipper([], 0, None), Events(f)).parts <= OwnWords(f)
    ensures Feed(Skipper([], 0, None), Events(f)).parts == OwnWords(f) <==> FromVoidQuote(f) == []
    ensures Feed(Skipper([], 0, None), Events(f)).skip == 0 ==> FromVoidQuote(f) == []
  {
    MachineReadsTree(f, voids);
    WordsSplit(f);
    if !Read(f).cut { NotCut(f); }
  }

  lemma {:induction false} NotCut(f: Forest)
    requires !Read(f).cut
    ensures FromVoidQuote(f) == []
  {
    if f.Cons? {
      NotCut(f.tail);
    }
  }

  /** A class name on a rule is enough to lose everything the user wrote after it. */
  lemma {:induction false} VoidQuoteLosesTheRest(rest: Forest)
    requires WellTagged(rest, {"hr"})
    ensures var f := Cons(Words("yes"), Cons(Void("hr", "quoted"), rest));
            Feed(Skipper([], 0, None), Events(f)).parts == ["yes"]
  {
    var f := Cons(Words("yes"), Cons(Void("hr", "quoted"), rest));
    var rule := Void("hr", "quoted");
    assert "quoted" <= "quoted";
    assert IsQuote("hr", "quoted");
    assert ReadNode(rule) == Meaning([], true);
    MachineReadsTree(f, {"hr"});
    assert Read(f) == Then(Meaning(["yes"], false), Then(ReadNode(rule), Read(rest)));
    assert ["yes"] + [] == ["yes"];
  }

  /** While a quote is being skipped, the counter is above zero after every event but the last. */
  lemma {:induction false} StaysOpen(f: Forest, voids: set<string>, m: Skipper, k: nat)
    requires WellTagged(f, voids) && m.skip > 0 && m.skipTag.Some? && m.skipTag.value !in voids
    requires k <= |Events(f)|
    ensures Feed(m, Events(f)[..k]).skip >= m.skip && Feed(m, Events(f)[..k]).skipTag == m.skipTag
    decreases f
  {
    if f.Cons? {
      var n, es := f.head, NodeEvents(f.head);
      if k <= |es| {
        assert Events(f)[..k] == es[..k];
        if n.Element? && 0 < k < |es| {
          var entered := React(m, Start(n.tag, n.cls));
          assert es[..k] == [Start(n.tag, n.cls)] + Events(n.inner)[..k - 1];
          FeedConcat(m, [Start(n.tag, n.cls)], Events(n.inner)[..k - 1]);
          assert [Start(n.tag, n.cls)][1..] == [];
          StaysOpen(n.inner, voids, entered, k - 1);
        } else if k == |es| {
          assert es[..k] == es;
          SkipsForest(Cons(n, Nil), voids, m);
          assert Events(Cons(n, Nil)) == es;
        }
      } else {
        assert Events(f)[..k] == es + Events(f.tail)[..k - |es|];
        FeedConcat(m, es, Events(f.tail)[..k - |es|]);
        SkipsForest(Cons(n, Nil), voids, m);
        assert Events(Cons(n, Nil)) == es;
        StaysOpen(f.tail, voids, m, k - |es|);
      }
    }
  }

  /** The counter reaches zero exactly at the end tag that matches the opener, however deeply the same
      tag nests inside. */
  lemma {:induction false} ClosesAtItsOwnEnd(tag: string, cls: string, inner: Forest, voids: set<string>,
                                             parts: seq<string>, k: nat)
    requires IsQuote(tag, cls) && tag !in voids && WellTagged(inner, voids)
    requires 0 < k <= |NodeEvents(Element(tag, cls, inner))|
    ensures var es := NodeEvents(Element(tag, cls, inner));
            Feed(Skipper(parts, 0, None), es[..k]).skip == 0 <==> k == |es|
  {
    var es, m := NodeEvents(Element(tag, cls, inner)), Skipper(parts, 0, None);
    var entered := React(m, Start(tag, cls));
    if k == |es| {
      assert es[..k] == es;
      FeedElement(m, tag, cls, inner);
      SkipsForest(inner, voids, entered);
    } else {
      assert es[..k] == [Start(tag, cls)] + Events(inner)[..k - 1];
      FeedConcat(m, [Start(tag, cls)], Events(inner)[..k - 1]);
      assert [Start(tag, cls)][1..] == [];
      StaysOpen(inner, voids, entered, k - 1);
    }
  }

  // ---------------------------------------------------------------- what looks like a quote, and what breaks a line

  ghost predicate Within(part: string, s: string) {
    exists before: string, after: string :: s == before + part + after
  }

  lemma {:induction false} ContainsMeans(s: string, part: string)
    ensures Contains(s, part) <==> Within(part, s)
  {
    if Contains(s, part) { FoundWithin(s, part); }
    if before: string, after: string :| s == before + part + after { WithinFound(before, part, after); }
  }

  lemma {:induction false} FoundWithin(s: string, part: string)
    requires Contains(s, part)
    ensures Within(part, s)
  {
    if part <= s {
      assert s == "" + part + s[|part|..];
    } else {
      FoundWithin(s[1..], part);
      var before: string, after: string :| s[1..] == before + part + after;
      assert s == ([s[0]] + before) + part + after;
    }
  }

  lemma {:induction false} WithinFound(before: string, part: string, after: string)
    ensures Contains(before + part + after, part)
  {
    var s := before + part + after;
    if before == "" {
      assert s == part + after;
    } else {
      assert s[1..] == before[1..] + part + after;
      WithinFound(before[1..], part, after);
    }
  }

  /** A quotation is a blockquote or cite, or anything whose class has one of three words in it. */
  lemma {:induction false} QuotesAreKnown(tag: string, cls: string)
    ensures IsQuote(tag, cls) <==>
              || tag == "blockquote" || tag == "cite"
              || Within("gmail_quote", cls) || Within("moz-cite", cls) || Within("quoted", cls)
  {
    ContainsMeans(cls, "gmail_quote");
    ContainsMeans(cls, "moz-cite");
    ContainsMeans(cls, "quoted");
  }

  /** Outside quotes, just the block elements begin a line, and a closed `<br/>` does. */
  lemma {:induction false} BlocksBreakLines(tag: string, cls: string)
    ensures !IsQuote(tag, cls) ==>
              Feed(Skipper([], 0, None), [Start(tag, cls)]).parts
              == if tag in {"p", "div", "br", "li", "tr", "table", "ul", "ol", "pre",
                            "h1", "h2", "h3", "h4", "h5", "h6"}
                 then ["\n"] else []
    ensures Feed(Skipper([], 0, None), [StartEnd(tag)]).parts == if tag == "br" then ["\n"] else []
  {
    assert [Start(tag, cls)][1..] == [] && [StartEnd(tag)][1..] == [];
    assert [] + ["\n"] == ["\n"];
  }
}
