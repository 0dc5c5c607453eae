/** Turning one dialog's batch into mails that fit the size limit
    (src/mailtg_bridge/mail_out.py:43-96).

    A MIME message is kept as its parts; its serialized size is an arbitrary function of the parts
    and of the "(i/N)" in the subject, so nothing below depends on how MIME is encoded. */
module Composer {
  import opened Domain
  import opened Sequences
  import Render

  datatype Fragment = Prose(text: string) | Marker(item: Downloaded) | Picture(cid: string)

  datatype Mime = Mime(plain: seq<Fragment>, html: seq<Fragment>,
                       related: seq<(string, Downloaded)>, attached: seq<Downloaded>)

  /** The settings the composer reads, the content-id hash, and the serializer's size. */
  datatype Settings = Settings(limit: nat, threshold: nat, cid: string -> string, size: (Mime, nat, nat) -> nat)

  type Media = map<int, seq<Downloaded>>

  function MediaOf(media: Media, m: Message): seq<Downloaded> {
    if m.id in media then media[m.id] else []
  }

  function ItemsFn(media: Media): Message -> seq<Downloaded> { m => MediaOf(media, m) }

  /** The media given for the messages, in order. */
  function Items(media: Media, ms: seq<Message>): seq<Downloaded> { FlatMap(ItemsFn(media), ms) }

  // ---------------------------------------------------------------- one mail

  predicate IsImage(d: Downloaded) { "image/" <= d.ref.contentType }

  function UpToSlash(s: string): string {
    if s == "" || s[0] == '/' then "" else [s[0]] + UpToSlash(s[1..])
  }

  /** The part before the first slash; content types without one are sent as application/octet-stream. */
  function MainType(contentType: string): string {
    if '/' in contentType then UpToSlash(contentType) else "application"
  }

  /** Replaced by a marker in both bodies. */
  predicate Marked(s: Settings, d: Downloaded, omitted: set<string>) {
    !d.available || d.path in omitted || (!IsImage(d) && d.size > s.threshold)
  }

  // What one media item adds to the plain body, the HTML body, the list of attachments; and what one
  // attachment adds to the related and the attached parts.

  function MarkerFn(s: Settings, omitted: set<string>): Downloaded -> seq<Fragment> {
    (d: Downloaded) => if Marked(s, d, omitted) then [Marker(d)] else []
  }

  function ShownFn(s: Settings, omitted: set<string>): Downloaded -> seq<Fragment> {
    (d: Downloaded) =>
      if Marked(s, d, omitted) then [Marker(d)] else if IsImage(d) then [Picture(s.cid(d.path))] else []
  }

  function KeptFn(s: Settings, omitted: set<string>): Downloaded -> seq<Downloaded> {
    (d: Downloaded) => if Marked(s, d, omitted) then [] else [d]
  }

  function RelatedFn(s: Settings): Downloaded -> seq<(string, Downloaded)> {
    (d: Downloaded) => if MainType(d.ref.contentType) == "image" then [(s.cid(d.path), d)] else []
  }

  function AttachedFn(s: Settings): Downloaded -> seq<Downloaded> {
    (d: Downloaded) => if MainType(d.ref.contentType) != "image" && d.size <= s.threshold then [d] else []
  }

  /** str.replace("\n", "<br>"). */
  function Breaks(s: string): string {
    if s == "" then "" else (if s[0] == '\n' then "<br>" else [s[0]]) + Breaks(s[1..])
  }

  function Optional(link: string): seq<Fragment> { if link == "" then [] else [Prose(link)] }

  /** What stands above a message's media in the plain body. */
  function Heading(m: Message): seq<Fragment> {
    [Prose(m.author), Prose(m.date), Prose(if m.text == "" then "[media]" else m.text)] + Optional(m.link)
  }

  /** And in the HTML body, given its text as HTML. */
  function HtmlHeading(m: Message, body: string): seq<Fragment> {
    [Prose(Render.Escape(m.author)), Prose(Render.Escape(m.date)), Prose(Breaks(body))]
    + Optional(Render.Escape(m.link))
  }

  function Markup(m: Message): string {
    if m.text == "" then Render.Escape("[media]") else Render.Join(Render.Pieces(m.text, m.entities))
  }

  function PlainFn(s: Settings, media: Media, omitted: set<string>): Message -> seq<Fragment> {
    (m: Message) => Heading(m) + FlatMap(MarkerFn(s, omitted), MediaOf(media, m))
  }

  function HtmlFn(s: Settings, media: Media, omitted: set<string>): Message -> seq<Fragment> {
    (m: Message) => HtmlHeading(m, Markup(m)) + FlatMap(ShownFn(s, omitted), MediaOf(media, m))
  }

  function KeptOfFn(s: Settings, media: Media, omitted: set<string>): Message -> seq<Downloaded> {
    (m: Message) => FlatMap(KeptFn(s, omitted), MediaOf(media, m))
  }

  function MimeOf(s: Settings, ms: seq<Message>, media: Media, omitted: set<string>): Mime {
    var kept := FlatMap(KeptOfFn(s, media, omitted), ms);
    Mime(FlatMap(PlainFn(s, media, omitted), ms), FlatMap(HtmlFn(s, media, omitted), ms),
         FlatMap(RelatedFn(s), kept), FlatMap(AttachedFn(s), kept))
  }

  /** The inner loop of `_render`. */
  method RenderMedia(s: Settings, items: seq<Downloaded>, omitted: set<string>)
    returns (text: seq<Fragment>, block: seq<Fragment>, kept: seq<Downloaded>)
    ensures text == FlatMap(MarkerFn(s, omitted), items)
    ensures block == FlatMap(ShownFn(s, omitted), items)
    ensures kept == FlatMap(KeptFn(s, omitted), items)
  {
    text, block, kept := [], [], [];
    for j := 0 to |items|
      invariant text == FlatMap(MarkerFn(s, omitted), items[..j])
      invariant block == FlatMap(ShownFn(s, omitted), items[..j])
      invariant kept == FlatMap(KeptFn(s, omitted), items[..j])
    {
      FlatMapSnoc(MarkerFn(s, omitted), items, j);
      FlatMapSnoc(ShownFn(s, omitted), items, j);
      FlatMapSnoc(KeptFn(s, omitted), items, j);
      var d := items[j];
      if !d.available {
        block, text := block + [Marker(d)], text + [Marker(d)];
      } else if d.path in omitted || (!IsImage(d) && d.size > s.threshold) {
        block, text := block + [Marker(d)], text + [Marker(d)];
      } else {
        if IsImage(d) { block := block + [Picture(s.cid(d.path))]; }
        kept := kept + [d];
      }
    }
    assert items[..|items|] == items;
  }

  /** The outer loop of `_render`. */
  method RenderBodies(s: Settings, ms: seq<Message>, media: Media, omitted: set<string>)
    returns (plain: seq<Fragment>, html: seq<Fragment>, attachments: seq<Downloaded>)
    ensures plain == FlatMap(PlainFn(s, media, omitted), ms)
    ensures html == FlatMap(HtmlFn(s, media, omitted), ms)
    ensures attachments == FlatMap(KeptOfFn(s, media, omitted), ms)
  {
    plain, html, attachments := [], [], [];
    for k := 0 to |ms|
      invariant plain == FlatMap(PlainFn(s, media, omitted), ms[..k])
      invariant html == FlatMap(HtmlFn(s, media, omitted), ms[..k])
      invariant attachments == FlatMap(KeptOfFn(s, media, omitted), ms[..k])
    {
      FlatMapSnoc(PlainFn(s, media, omitted), ms, k);
      FlatMapSnoc(HtmlFn(s, media, omitted), ms, k);
      FlatMapSnoc(KeptOfFn(s, media, omitted), ms, k);
      var body := Render.Escape("[media]");
      if ms[k].text != "" { body := Render.RenderEntities(ms[k].text, ms[k].entities); }
      var text, block, kept := RenderMedia(s, MediaOf(media, ms[k]), omitted);
      plain, html := plain + (Heading(ms[k]) + text), html + (HtmlHeading(ms[k], body) + block);
      attachments := attachments + kept;
    }
    assert ms[..|ms|] == ms;
  }

  method BuildMessage(s: Settings, ms: seq<Message>, media: Media, omitted: set<string>) returns (mime: Mime)
    ensures mime == MimeOf(s, ms, media, omitted)
  {
    var plain, html, attachments := RenderBodies(s, ms, media, omitted);
    var related: seq<(string, Downloaded)>, attached: seq<Downloaded> := [], [];
    for k := 0 to |attachments|
      invariant related == FlatMap(RelatedFn(s), attachments[..k])
      invariant attached == FlatMap(AttachedFn(s), attachments[..k])
    {
      FlatMapSnoc(RelatedFn(s), attachments, k);
      FlatMapSnoc(AttachedFn(s), attachments, k);
      var d := attachments[k];
      if MainType(d.ref.contentType) == "image" {
        related := related + [(s.cid(d.path), d)];
      } else if d.size <= s.threshold {
        attached := attached + [d];
      }
    }
    assert attachments[..|attachments|] == attachments;
    mime := Mime(plain, html, related, attached);
  }

  // ---------------------------------------------------------------- no media item is lost

  lemma {:induction false} ImageTypesAgree(contentType: string)
    ensures MainType(contentType) == "image" <==> "image/" <= contentType
  {
    if "image/" <= contentType {
      assert contentType[5] == '/';
      FirstSlash("image", contentType[6..]);
      assert "image" + "/" + contentType[6..] == contentType;
    } else if '/' in contentType {
      UpToSlashPrefix(contentType);
    }
  }

  lemma {:induction false} FirstSlash(a: string, b: string)
    requires '/' !in a
    ensures UpToSlash(a + "/" + b) == a
  {
    if a == "" {
      assert a + "/" + b == "/" + b;
    } else {
      assert (a + "/" + b)[1..] == a[1..] + "/" + b;
      FirstSlash(a[1..], b);
    }
  }

  lemma {:induction false} UpToSlashPrefix(s: string)
    requires '/' in s
    ensures UpToSlash(s) + "/" <= s
  {
    assert s == [s[0]] + s[1..];
    if s[0] != '/' {
      UpToSlashPrefix(s[1..]);
      assert UpToSlash(s) + "/" == [s[0]] + (UpToSlash(s[1..]) + "/");
    }
  }

  /** The items a body shows a marker for, the content ids it shows pictures for. */
  function MarkedIn(body: seq<Fragment>): seq<Downloaded> {
    if body == [] then [] else (if body[0].Marker? then [body[0].item] else []) + MarkedIn(body[1..])
  }

  function CidsIn(body: seq<Fragment>): seq<string> {
    if body == [] then [] else (if body[0].Picture? then [body[0].cid] else []) + CidsIn(body[1..])
  }

  function CidsOf(related: seq<(string, Downloaded)>): seq<string> {
    if related == [] then [] else [related[0].0] + CidsOf(related[1..])
  }

  function FilesOf(related: seq<(string, Downloaded)>): seq<Downloaded> {
    if related == [] then [] else [related[0].1] + FilesOf(related[1..])
  }

  lemma {:induction false} BodyConcat(a: seq<Fragment>, b: seq<Fragment>)
    ensures MarkedIn(a + b) == MarkedIn(a) + MarkedIn(b) && CidsIn(a + b) == CidsIn(a) + CidsIn(b)
  {
    if a == [] {
      assert a + b == b;
    } else {
      assert (a + b)[1..] == a[1..] + b;
      BodyConcat(a[1..], b);
      Assoc(if a[0].Marker? then [a[0].item] else [], MarkedIn(a[1..]), MarkedIn(b));
      Assoc(if a[0].Picture? then [a[0].cid] else [], CidsIn(a[1..]), CidsIn(b));
    }
  }

  lemma {:induction false} RelatedConcat(a: seq<(string, Downloaded)>, b: seq<(string, Downloaded)>)
    ensures CidsOf(a + b) == CidsOf(a) + CidsOf(b) && FilesOf(a + b) == FilesOf(a) + FilesOf(b)
  {
    if a == [] {
      assert a + b == b;
    } else {
      assert (a + b)[1..] == a[1..] + b;
      RelatedConcat(a[1..], b);
      Assoc([a[0].0], CidsOf(a[1..]), CidsOf(b));
      Assoc([a[0].1], FilesOf(a[1..]), FilesOf(b));
    }
  }

  /** The bookkeeping for a list of items: both bodies mark the same ones, the pictures are the related
      parts in the same order, and every item is marked, related or attached, as often as it is given. */
  ghost predicate AllShown(items: seq<Downloaded>, plain: seq<Fragment>, html: seq<Fragment>,
                           related: seq<(string, Downloaded)>, attached: seq<Downloaded>) {
    && MarkedIn(plain) == MarkedIn(html)
    && CidsIn(html) == CidsOf(related)
    && forall d :: Count(items, d) == Count(MarkedIn(html), d) + Count(FilesOf(related), d) + Count(attached, d)
  }

  lemma {:induction false} ShownTogether(i1: seq<Downloaded>, p1: seq<Fragment>, h1: seq<Fragment>,
                      r1: seq<(string, Downloaded)>, a1: seq<Downloaded>,
                      i2: seq<Downloaded>, p2: seq<Fragment>, h2: seq<Fragment>,
                      r2: seq<(string, Downloaded)>, a2: seq<Downloaded>)
    requires AllShown(i1, p1, h1, r1, a1) && AllShown(i2, p2, h2, r2, a2)
    ensures AllShown(i1 + i2, p1 + p2, h1 + h2, r1 + r2, a1 + a2)
  {
    BodyConcat(p1, p2);
    BodyConcat(h1, h2);
    RelatedConcat(r1, r2);
    forall d
      ensures Count(i1 + i2, d) == Count(MarkedIn(h1 + h2), d) + Count(FilesOf(r1 + r2), d) + Count(a1 + a2, d)
    {
      CountConcat(i1, i2, d);
      CountConcat(MarkedIn(h1), MarkedIn(h2), d);
      CountConcat(FilesOf(r1), FilesOf(r2), d);
      CountConcat(a1, a2, d);
    }
  }

  lemma {:induction false} OneItemShown(s: Settings, d: Downloaded, omitted: set<string>)
    ensures var kept := KeptFn(s, omitted)(d);
            AllShown([d], MarkerFn(s, omitted)(d), ShownFn(s, omitted)(d),
                     FlatMap(RelatedFn(s), kept), FlatMap(AttachedFn(s), kept))
  {
    ImageTypesAgree(d.ref.contentType);
    var kept := KeptFn(s, omitted)(d);
    if kept != [] {
      FlatMapOne(RelatedFn(s), d);
      FlatMapOne(AttachedFn(s), d);
    }
  }

  lemma {:induction false} ItemsShown(s: Settings, items: seq<Downloaded>, omitted: set<string>)
    ensures var kept := FlatMap(KeptFn(s, omitted), items);
            AllShown(items, FlatMap(MarkerFn(s, omitted), items), FlatMap(ShownFn(s, omitted), items),
                     FlatMap(RelatedFn(s), kept), FlatMap(AttachedFn(s), kept))
  {
    if items != [] {
      var d, rest := items[0], items[1..];
      var kept, k1, k2 := FlatMap(KeptFn(s, omitted), items), KeptFn(s, omitted)(d), FlatMap(KeptFn(s, omitted), rest);
      OneItemShown(s, d, omitted);
      ItemsShown(s, rest, omitted);
      ShownTogether([d], MarkerFn(s, omitted)(d), ShownFn(s, omitted)(d),
                    FlatMap(RelatedFn(s), k1), FlatMap(AttachedFn(s), k1),
                    rest, FlatMap(MarkerFn(s, omitted), rest), FlatMap(ShownFn(s, omitted), rest),
                    FlatMap(RelatedFn(s), k2), FlatMap(AttachedFn(s), k2));
      assert items == [d] + rest && kept == k1 + k2;
      assert FlatMap(RelatedFn(s), kept) == FlatMap(RelatedFn(s), k1) + FlatMap(RelatedFn(s), k2)
          && FlatMap(AttachedFn(s), kept) == FlatMap(AttachedFn(s), k1) + FlatMap(AttachedFn(s), k2) by {
        FlatMapConcat(RelatedFn(s), k1, k2);
        FlatMapConcat(AttachedFn(s), k1, k2);
      }
    }
  }

  lemma {:induction false} OnlyProse(body: seq<Fragment>)
    requires forall f :: f in body ==> f.Prose?
    ensures MarkedIn(body) == [] && CidsIn(body) == []
  {
    if body != [] {
      assert forall f :: f in body[1..] ==> f in body;
      OnlyProse(body[1..]);
      assert body[0] in body;
    }
  }

  /** A message's share of a mail: a heading for each body, and its media. */
  lemma {:induction false} MessageShown(s: Settings, p: seq<Fragment>, h: seq<Fragment>, items: seq<Downloaded>,
                                        omitted: set<string>)
    requires forall f :: f in p || f in h ==> f.Prose?
    ensures var kept := FlatMap(KeptFn(s, omitted), items);
            AllShown(items, p + FlatMap(MarkerFn(s, omitted), items), h + FlatMap(ShownFn(s, omitted), items),
                     FlatMap(RelatedFn(s), kept), FlatMap(AttachedFn(s), kept))
  {
    var kept := FlatMap(KeptFn(s, omitted), items);
    var r, a := FlatMap(RelatedFn(s), kept), FlatMap(AttachedFn(s), kept);
    ItemsShown(s, items, omitted);
    OnlyProse(p);
    OnlyProse(h);
    ShownTogether([], p, h, [], [],
                  items, FlatMap(MarkerFn(s, omitted), items), FlatMap(ShownFn(s, omitted), items), r, a);
    assert [] + items == items && [] + r == r && [] + a == a;
  }

  lemma {:induction false} FirstShown(s: Settings, m: Message, media: Media, omitted: set<string>)
    ensures var items := MediaOf(media, m);
            var kept := FlatMap(KeptFn(s, omitted), items);
            AllShown(items, PlainFn(s, media, omitted)(m), HtmlFn(s, media, omitted)(m),
                     FlatMap(RelatedFn(s), kept), FlatMap(AttachedFn(s), kept))
  {
    HeadingsAreProse(m);
    MessageShown(s, Heading(m), HtmlHeading(m, Markup(m)), MediaOf(media, m), omitted);
  }

  lemma {:induction false} HeadingsAreProse(m: Message)
    ensures forall f :: f in Heading(m) || f in HtmlHeading(m, Markup(m)) ==> f.Prose?
  {}

  /** One mail: nothing it was given is dropped silently, whatever is omitted. */
  lemma {:induction false} MailShowsAll(s: Settings, ms: seq<Message>, media: Media, omitted: set<string>)
    ensures var mime := MimeOf(s, ms, media, omitted);
            AllShown(Items(media, ms), mime.plain, mime.html, mime.related, mime.attached)
  {
    if ms != [] {
      var m, rest := ms[0], ms[1..];
      var items := MediaOf(media, m);
      var k1, k2 := FlatMap(KeptFn(s, omitted), items), FlatMap(KeptOfFn(s, media, omitted), rest);
      var mime := MimeOf(s, rest, media, omitted);
      FirstShown(s, m, media, omitted);
      MailShowsAll(s, rest, media, omitted);
      FlatMapConcat(RelatedFn(s), k1, k2);
      FlatMapConcat(AttachedFn(s), k1, k2);
      ShownTogether(items, PlainFn(s, media, omitted)(m), HtmlFn(s, media, omitted)(m),
                    FlatMap(RelatedFn(s), k1), FlatMap(AttachedFn(s), k1),
                    Items(media, rest), mime.plain, mime.html, mime.related, mime.attached);
    }
  }

  // ---------------------------------------------------------------- the whole batch

  /** One mail of a batch: its messages, the "(part/parts)" in its subject, what was replaced, and the MIME parts. */
  datatype Draft = Draft(group: seq<Message>, part: nat, parts: nat, omitted: set<string>, mime: Mime)

  /** `compose_batch` returns drafts or raises: MailSizeRejected; FileNotFoundError from stat() on a
      medium that was never downloaded; IndexError on an empty batch too large by itself. */
  datatype Composed = Drafts(drafts: seq<Draft>) | SizeRejected | FileMissing | NoMessage

  function Measure(s: Settings, ms: seq<Message>, media: Media, part: nat, parts: nat, omitted: set<string>): nat {
    s.size(MimeOf(s, ms, media, omitted), part, parts)
  }

  /** Too large somewhere in a list of mails, with all its media. */
  ghost predicate TooLarge(s: Settings, media: Media, ms: seq<Message>) {
    exists part: nat, parts: nat :: 1 <= part <= parts && Measure(s, ms, media, part, parts, {}) > s.limit
  }

  function Paths(media: Media, m: Message): set<string> {
    set d | d in MediaOf(media, m) :: d.path
  }

  /** Too large somewhere in a list of mails, even with every medium replaced by a marker. */
  ghost predicate TooLargeBare(s: Settings, media: Media, m: Message) {
    exists part: nat, parts: nat :: 1 <= part <= parts && Measure(s, [m], media, part, parts, Paths(media, m)) > s.limit
  }

  /** How a batch was divided: a list is cut only in the middle. */
  datatype Halving = Whole | Cut(left: Halving, right: Halving)

  function Front(ms: seq<Message>): seq<Message> { ms[..|ms| / 2] }

  function Back(ms: seq<Message>): seq<Message> { ms[|ms| / 2..] }

  function Leaves(t: Halving, ms: seq<Message>): (groups: seq<seq<Message>>)
    ensures groups != []
  {
    match t
    case Whole => [ms]
    case Cut(l, r) => Leaves(l, Front(ms)) + Leaves(r, Back(ms))
  }

  /** Nothing was cut that has a single message, or that fitted wherever it was measured. */
  /** Each list that was cut was found too large, by whatever judgement. */
  ghost predicate Needed(large: seq<Message> -> bool, t: Halving, ms: seq<Message>) {
    match t
    case Whole => true
    case Cut(l, r) => |ms| > 1 && large(ms) && Needed(large, l, Front(ms)) && Needed(large, r, Back(ms))
  }

  ghost function Judge(s: Settings, media: Media): seq<Message> -> bool { ms => TooLarge(s, media, ms) }

  ghost predicate Halved(s: Settings, media: Media, ms: seq<Message>, groups: seq<seq<Message>>) {
    exists t :: Needed(Judge(s, media), t, ms) && groups == Leaves(t, ms)
  }

  function Divide(groups: seq<seq<Message>>, at: nat): seq<seq<Message>>
    requires at < |groups|
  {
    var half := |groups[at]| / 2;
    groups[..at] + [groups[at][..half], groups[at][half..]] + groups[at + 1..]
  }

  lemma {:induction false} DivideConcat(left: seq<seq<Message>>, right: seq<seq<Message>>, at: nat)
    requires at < |left + right|
    ensures at < |left| ==> (left + right)[at] == left[at] && Divide(left + right, at) == Divide(left, at) + right
    ensures at >= |left| ==>
            (left + right)[at] == right[at - |left|] && Divide(left + right, at) == left + Divide(right, at - |left|)
  {}

  ghost function CutLeaf(t: Halving, ms: seq<Message>, at: nat): Halving
    requires at < |Leaves(t, ms)|
  {
    match t
    case Whole => Cut(Whole, Whole)
    case Cut(l, r) =>
      var n := |Leaves(l, Front(ms))|;
      if at < n then Cut(CutLeaf(l, Front(ms), at), r)
      else Cut(l, CutLeaf(r, Back(ms), at - n))
  }

  predicate IsLeaf(t: Halving, ms: seq<Message>, at: nat, g: seq<Message>) {
    at < |Leaves(t, ms)| && Leaves(t, ms)[at] == g
  }

  /** Which of the two lists a leaf of a cut list belongs to. */
  lemma {:induction false} LeafSide(l: Halving, r: Halving, ms: seq<Message>, at: nat, g: seq<Message>)
    requires IsLeaf(Cut(l, r), ms, at, g)
    ensures var n := |Leaves(l, Front(ms))|;
            if at < n then IsLeaf(l, Front(ms), at, g) else IsLeaf(r, Back(ms), at - n, g)
  {}

  lemma {:induction false} CutLeafDivides(large: seq<Message> -> bool, t: Halving, ms: seq<Message>, at: nat,
                                          g: seq<Message>)
    requires Needed(large, t, ms) && IsLeaf(t, ms, at, g) && |g| > 1 && large(g)
    ensures Needed(large, CutLeaf(t, ms, at), ms)
  {
    match t
    case Whole =>
    case Cut(l, r) =>
      LeafSide(l, r, ms, at, g);
      var n := |Leaves(l, Front(ms))|;
      if at < n {
        CutLeafDivides(large, l, Front(ms), at, g);
      } else {
        CutLeafDivides(large, r, Back(ms), at - n, g);
      }
  }

  lemma {:induction false} CutLeafLeaves(t: Halving, ms: seq<Message>, at: nat)
    requires at < |Leaves(t, ms)|
    ensures Leaves(CutLeaf(t, ms, at), ms) == Divide(Leaves(t, ms), at)
  {
    match t
    case Whole =>
      assert Divide([ms], 0) == [Front(ms), Back(ms)];
    case Cut(l, r) =>
      var a, b := Front(ms), Back(ms);
      DivideConcat(Leaves(l, a), Leaves(r, b), at);
      if at < |Leaves(l, a)| {
        CutLeafLeaves(l, a, at);
      } else {
        CutLeafLeaves(r, b, at - |Leaves(l, a)|);
      }
  }

  lemma {:induction false} LeavesFlatten(t: Halving, ms: seq<Message>)
    ensures Flatten(Leaves(t, ms)) == ms
  {
    match t
    case Whole =>
      assert Flatten([ms]) == ms + Flatten([]);
    case Cut(l, r) =>
      var a, b := Front(ms), Back(ms);
      LeavesFlatten(l, a);
      LeavesFlatten(r, b);
      FlattenConcat(Leaves(l, a), Leaves(r, b));
      assert ms == a + b;
  }

  lemma {:induction false} LeavesNonEmpty(large: seq<Message> -> bool, t: Halving, ms: seq<Message>)
    requires Needed(large, t, ms) && ms != []
    ensures |Leaves(t, ms)| <= |ms| && forall k :: 0 <= k < |Leaves(t, ms)| ==> Leaves(t, ms)[k] != []
  {
    if t.Cut? {
      LeavesNonEmpty(large, t.left, Front(ms));
      LeavesNonEmpty(large, t.right, Back(ms));
    }
  }

  /** Halving is a partition: nothing lost, nothing repeated, the order kept, no empty group. */
  lemma {:induction false} LeavesPartition(large: seq<Message> -> bool, t: Halving, ms: seq<Message>)
    requires Needed(large, t, ms)
    ensures Flatten(Leaves(t, ms)) == ms
    ensures ms != [] ==> |Leaves(t, ms)| <= |ms| && [] !in Leaves(t, ms)
    ensures ms == [] ==> t == Whole
  {
    LeavesFlatten(t, ms);
    if ms != [] { LeavesNonEmpty(large, t, ms); }
  }

  lemma {:induction false} HalvedPartitions(s: Settings, media: Media, ms: seq<Message>, groups: seq<seq<Message>>)
    requires Halved(s, media, ms, groups)
    ensures Flatten(groups) == ms
    ensures ms != [] ==> [] !in groups
    ensures groups != []
  {
    var t :| Needed(Judge(s, media), t, ms) && groups == Leaves(t, ms);
    LeavesPartition(Judge(s, media), t, ms);
  }

  /** list.index: the first group equal to `g`. */
  function IndexOf(groups: seq<seq<Message>>, g: seq<Message>): (k: nat)
    requires g in groups
    ensures k < |groups| && groups[k] == g
  {
    if groups[0] == g then 0 else
      assert groups == [groups[0]] + groups[1..];
      1 + IndexOf(groups[1..], g)
  }

  /** sort by size asks every file of the message for its size; one that never came raises. */
  predicate LacksFile(media: Media, m: Message) {
    exists d :: d in MediaOf(media, m) && !d.available
  }

  /** A mail that may be sent: built from its group, within the limit as measured with its own "(part/parts)",
      and with media replaced only if the group is a single message too large with them. */
  ghost predicate Sendable(s: Settings, media: Media, d: Draft) {
    && d.mime == MimeOf(s, d.group, media, d.omitted)
    && s.size(d.mime, d.part, d.parts) <= s.limit
    && (d.omitted == {} || (|d.group| == 1 && d.omitted == Paths(media, d.group[0])
                            && Measure(s, d.group, media, d.part, d.parts, {}) > s.limit
                            && !LacksFile(media, d.group[0])))
  }

  /** What one turn of the inner loop does with a group. */
  datatype Attempt = Fits(draft: Draft) | Divides | Rejected | Missing | Nothing

  method TryGroup(s: Settings, group: seq<Message>, media: Media, part: nat, parts: nat) returns (r: Attempt)
    requires 1 <= part <= parts
    ensures r.Fits? ==>
              r.draft.group == group && r.draft.part == part && r.draft.parts == parts && Sendable(s, media, r.draft)
    ensures Turns(s, media, group, part, parts, r)
    ensures r.Missing? <==>
              |group| == 1 && Measure(s, group, media, part, parts, {}) > s.limit && LacksFile(media, group[0])
  {
    var mime := BuildMessage(s, group, media, {});
    var omitted: set<string> := {};
    var large := s.size(mime, part, parts) > s.limit;
    assert large == (Measure(s, group, media, part, parts, {}) > s.limit);
    if large && |group| > 1 { return Divides; }
    if large {
      if group == [] { return Nothing; }
      assert group == [group[0]];
      if LacksFile(media, group[0]) { return Missing; }
      omitted := Paths(media, group[0]);
      mime := BuildMessage(s, group, media, omitted);
      if s.size(mime, part, parts) > s.limit {
        assert Measure(s, [group[0]], media, part, parts, Paths(media, group[0])) > s.limit;
        return Rejected;
      }
    }
    r := Fits(Draft(group, part, parts, omitted, mime));
  }

  ghost function Groups(drafts: seq<Draft>): seq<seq<Message>> {
    seq(|drafts|, i requires 0 <= i < |drafts| => drafts[i].group)
  }

  /** The drafts number their parts 1..N and each is sendable as such. */
  ghost predicate Numbered(s: Settings, media: Media, drafts: seq<Draft>, n: nat) {
    forall i :: 0 <= i < |drafts| ==>
      drafts[i].part == i + 1 && drafts[i].parts == n && Sendable(s, media, drafts[i])
  }

  /** The first groups have their drafts. */
  ghost predicate SoFar(s: Settings, media: Media, groups: seq<seq<Message>>, drafts: seq<Draft>) {
    |drafts| <= |groups| && Groups(drafts) == groups[..|drafts|] && Numbered(s, media, drafts, |groups|)
  }

  lemma {:induction false} SoFarGrows(s: Settings, media: Media, groups: seq<seq<Message>>, drafts: seq<Draft>,
                                      draft: Draft)
    requires SoFar(s, media, groups, drafts) && |drafts| < |groups| && draft.group == groups[|drafts|]
    requires draft.part == |drafts| + 1 && draft.parts == |groups| && Sendable(s, media, draft)
    ensures SoFar(s, media, groups, drafts + [draft])
  {
    GroupsGrow(groups, drafts, draft);
  }

  /** The inner loop: the drafts up to the first group that does not go out as it is, if any. */
  method TryGroups(s: Settings, groups: seq<seq<Message>>, media: Media)
    returns (drafts: seq<Draft>, stopped: Option<Attempt>)
    ensures SoFar(s, media, groups, drafts) && (stopped.None? <==> |drafts| == |groups|)
    ensures stopped.Some? ==> !stopped.value.Fits?
    ensures stopped.None? || Turns(s, media, groups[|drafts|], |drafts| + 1, |groups|, stopped.value)
  {
    drafts := [];
    while |drafts| < |groups|
      invariant SoFar(s, media, groups, drafts)
    {
      drafts, stopped := TryNext(s, groups, media, drafts);
      if stopped.Some? { return; }
    }
    stopped := None;
  }

  method TryNext(s: Settings, groups: seq<seq<Message>>, media: Media, before: seq<Draft>)
    returns (drafts: seq<Draft>, stopped: Option<Attempt>)
    requires SoFar(s, media, groups, before) && |before| < |groups|
    ensures SoFar(s, media, groups, drafts) && |drafts| == |before| + if stopped.None? then 1 else 0
    ensures stopped.Some? ==> !stopped.value.Fits?
    ensures stopped.None? || Turns(s, media, groups[|drafts|], |drafts| + 1, |groups|, stopped.value)
  {
    var i := |before|;
    var attempt := TryGroup(s, groups[i], media, i + 1, |groups|);
    if !attempt.Fits? { return before, Some(attempt); }
    SoFarGrows(s, media, groups, before, attempt.draft);
    drafts, stopped := before + [attempt.draft], None;
  }

  /** Exactly when a turn ends how: too large to go out and more than one message, or one message whose
      file is missing, or that stays too large without its media, or none at all. */
  ghost predicate Turns(s: Settings, media: Media, group: seq<Message>, part: nat, parts: nat, r: Attempt) {
    var large := Measure(s, group, media, part, parts, {}) > s.limit;
    var lacks := |group| == 1 && LacksFile(media, group[0]);
    var bare := |group| == 1 && Measure(s, group, media, part, parts, Paths(media, group[0])) > s.limit;
    && (r.Divides? <==> large && |group| > 1)
    && (r.Missing? <==> large && lacks)
    && (r.Rejected? <==> large && |group| == 1 && !lacks && bare)
    && (r.Nothing? <==> large && group == [])
  }

  ghost predicate SomeTooLargeBare(s: Settings, media: Media, messages: seq<Message>) {
    exists m :: m in messages && TooLargeBare(s, media, m) && !LacksFile(media, m)
  }

  ghost predicate SomeLacksFile(s: Settings, media: Media, messages: seq<Message>) {
    exists m :: m in messages && LacksFile(media, m) && TooLarge(s, media, [m])
  }

  /** Halving a leaf that is too large keeps to the rules. */
  lemma {:induction false} Halves(s: Settings, media: Media, t: Halving, ms: seq<Message>, at: nat)
    requires Needed(Judge(s, media), t, ms) && at < |Leaves(t, ms)| && |Leaves(t, ms)[at]| > 1
             && TooLarge(s, media, Leaves(t, ms)[at])
    ensures Needed(Judge(s, media), CutLeaf(t, ms, at), ms)
    ensures Leaves(CutLeaf(t, ms, at), ms) == Divide(Leaves(t, ms), at)
    ensures |Divide(Leaves(t, ms), at)| == |Leaves(t, ms)| + 1 <= |ms| && |ms| > 1
  {
    CutLeafDivides(Judge(s, media), t, ms, at, Leaves(t, ms)[at]);
    CutLeafLeaves(t, ms, at);
    LeavesPartition(Judge(s, media), CutLeaf(t, ms, at), ms);
  }

  /** A single message: the file missing, too large even bare, or a draft. */
  ghost predicate OneMessage(s: Settings, media: Media, m: Message, r: Composed) {
    var large := Measure(s, [m], media, 1, 1, {}) > s.limit;
    && (r.FileMissing? <==> large && LacksFile(media, m))
    && (r.SizeRejected? <==> large && !LacksFile(media, m) && Measure(s, [m], media, 1, 1, Paths(media, m)) > s.limit)
  }

  /** What an inner loop that stops for good ends in. */
  function Raised(why: Attempt): Composed {
    match why
    case Rejected => SizeRejected
    case Missing => FileMissing
    case _ => NoMessage
  }

  /** How composing may end. */
  ghost predicate Justified(s: Settings, media: Media, messages: seq<Message>, r: Composed) {
    && (r.Drafts? ==> Halved(s, media, messages, Groups(r.drafts)) && Numbered(s, media, r.drafts, |r.drafts|))
    && (r.SizeRejected? ==> SomeTooLargeBare(s, media, messages))
    && (r.FileMissing? ==> SomeLacksFile(s, media, messages))
    && (r.NoMessage? ==> messages == [] && TooLarge(s, media, []))
    && (|messages| == 1 ==> OneMessage(s, media, messages[0], r))
  }

  lemma {:induction false} AllFit(s: Settings, media: Media, messages: seq<Message>, groups: seq<seq<Message>>,
                                  drafts: seq<Draft>)
    requires Halved(s, media, messages, groups) && (|messages| == 1 ==> groups == [[messages[0]]])
    requires SoFar(s, media, groups, drafts) && |drafts| == |groups|
    ensures Justified(s, media, messages, Drafts(drafts))
  {
    assert groups[..|drafts|] == groups;
    if |messages| == 1 { WentOut(s, media, messages[0], drafts); }
  }

  /** The groups as they are: how composing ends with them, or the group to halve. */
  method OneRound(s: Settings, messages: seq<Message>, media: Media, groups: seq<seq<Message>>)
    returns (done: Option<Composed>, i: nat)
    requires Halved(s, media, messages, groups)
    requires |messages| == 1 ==> groups == [[messages[0]]]
    ensures done.None? || Justified(s, media, messages, done.value)
    ensures done.None? ==> i < |groups| && |groups[i]| > 1 && TooLarge(s, media, groups[i])
  {
    ghost var t :| Needed(Judge(s, media), t, messages) && groups == Leaves(t, messages);
    var drafts, stopped := TryGroups(s, groups, media);
    i := |drafts|;
    if stopped.None? {
      AllFit(s, media, messages, groups, drafts);
      done := Some(Drafts(drafts));
    } else if stopped.value.Divides? {
      WhyHalved(s, media, t, messages, i, stopped.value);
      done := None;
    } else {
      WhyRaised(s, media, t, messages, i, stopped.value);
      done := Some(Raised(stopped.value));
    }
  }

  method ComposeBatch(s: Settings, messages: seq<Message>, media: Media) returns (r: Composed)
    ensures r.Drafts? ==> Halved(s, media, messages, Groups(r.drafts)) && Numbered(s, media, r.drafts, |r.drafts|)
    ensures r.SizeRejected? ==> SomeTooLargeBare(s, media, messages)
    ensures r.FileMissing? ==> SomeLacksFile(s, media, messages)
    ensures r.NoMessage? ==> messages == [] && TooLarge(s, media, [])
    ensures |messages| == 1 ==> OneMessage(s, media, messages[0], r)
  {
    var groups := [messages];
    ghost var t := Whole;
    assert |messages| == 1 ==> messages == [messages[0]];
    while true
      invariant Needed(Judge(s, media), t, messages) && groups == Leaves(t, messages)
      invariant |groups| <= |messages| + 1
      invariant |messages| == 1 ==> groups == [[messages[0]]]
      decreases |messages| + 1 - |groups|
    {
      var done, i := OneRound(s, messages, media, groups);
      if done.Some? { return done.value; }
      var at := IndexOf(groups, groups[i]);
      Halves(s, media, t, messages, at);
      t := CutLeaf(t, messages, at);
      groups := Divide(groups, at);
    }
  }

  /** The error nobody handles: a message too large whose medium never came. */
  method OversizedWithoutItsFile() returns (r: Composed)
    ensures r.FileMissing?
  {
    var missing := Downloaded(MediaRef("7", "image/png"), "unavailable", 0, false);
    var m := Message(7, "", "", "long", [], "", [missing.ref]);
    var media: Media := map[7 := [missing]];
    assert missing in MediaOf(media, m);
    r := ComposeBatch(Settings(0, 0, path => path, (mime, part, parts) => 1), [m], media);
  }

  lemma {:induction false} InSome(groups: seq<seq<Message>>, i: nat, m: Message)
    requires i < |groups| && m in groups[i]
    ensures m in Flatten(groups)
  {
    if i > 0 {
      InSome(groups[1..], i - 1, m);
    }
  }

  /** A turn that does not go well says which group is too large, and why it is not sent. */
  lemma {:induction false} Culprit(s: Settings, media: Media, messages: seq<Message>, groups: seq<seq<Message>>,
                                   i: nat, why: Attempt)
    requires i < |groups| && Flatten(groups) == messages && Turns(s, media, groups[i], i + 1, |groups|, why)
    ensures why.Rejected? ==> SomeTooLargeBare(s, media, messages)
    ensures why.Missing? ==> SomeLacksFile(s, media, messages)
    ensures why.Nothing? ==> [] in groups
    ensures why.Nothing? || why.Divides? ==> TooLarge(s, media, groups[i])
  {
    CulpritAlone(s, media, groups[i], i + 1, |groups|, why);
    if why.Rejected? || why.Missing? { InSome(groups, i, groups[i][0]); }
  }

  lemma {:induction false} CulpritAlone(s: Settings, media: Media, group: seq<Message>, part: nat, parts: nat,
                                        why: Attempt)
    requires 1 <= part <= parts && Turns(s, media, group, part, parts, why)
    ensures why.Rejected? || why.Missing? ==> |group| == 1 && group == [group[0]]
    ensures why.Rejected? ==> TooLargeBare(s, media, group[0]) && !LacksFile(media, group[0])
    ensures why.Missing? ==> LacksFile(media, group[0]) && TooLarge(s, media, [group[0]])
    ensures why.Nothing? ==> group == []
    ensures why.Nothing? || why.Divides? ==> TooLarge(s, media, group)
  {
    if why.Rejected? || why.Missing? {
      var m := group[0];
      assert group == [m];
      assert Measure(s, [m], media, part, parts, {}) > s.limit;
      if why.Rejected? { assert Measure(s, [m], media, part, parts, Paths(media, m)) > s.limit; }
    } else if !why.Fits? {
      assert Measure(s, group, media, part, parts, {}) > s.limit;
    }
  }

  /** For a single message the reason is one of the two, and exact. */
  lemma {:induction false} CulpritOfOne(s: Settings, media: Media, m: Message, why: Attempt)
    requires Turns(s, media, [m], 1, 1, why) && !why.Fits? && !why.Divides?
    ensures OneMessage(s, media, m, Raised(why))
  {}

  lemma {:induction false} WhyRaised(s: Settings, media: Media, t: Halving, messages: seq<Message>, i: nat,
                                     why: Attempt)
    requires Needed(Judge(s, media), t, messages) && i < |Leaves(t, messages)|
    requires |messages| == 1 ==> Leaves(t, messages) == [[messages[0]]]
    requires Turns(s, media, Leaves(t, messages)[i], i + 1, |Leaves(t, messages)|, why) && !why.Fits? && !why.Divides?
    ensures Justified(s, media, messages, Raised(why))
  {
    LeavesPartition(Judge(s, media), t, messages);
    Culprit(s, media, messages, Leaves(t, messages), i, why);
    if |messages| == 1 { CulpritOfOne(s, media, messages[0], why); }
  }

  lemma {:induction false} WhyHalved(s: Settings, media: Media, t: Halving, messages: seq<Message>, i: nat,
                                     why: Attempt)
    requires Needed(Judge(s, media), t, messages) && i < |Leaves(t, messages)| && why.Divides?
    requires Turns(s, media, Leaves(t, messages)[i], i + 1, |Leaves(t, messages)|, why)
    ensures |Leaves(t, messages)[i]| > 1 && TooLarge(s, media, Leaves(t, messages)[i])
  {
    LeavesPartition(Judge(s, media), t, messages);
    Culprit(s, media, messages, Leaves(t, messages), i, why);
  }

  /** A single message whose draft went out neither lacks its file when too large, nor stays too large bare. */
  lemma {:induction false} WentOut(s: Settings, media: Media, m: Message, drafts: seq<Draft>)
    requires Groups(drafts) == [[m]] && Numbered(s, media, drafts, 1)
    ensures OneMessage(s, media, m, Drafts(drafts))
  {
    assert drafts[0].group == Groups(drafts)[0];
  }

  lemma {:induction false} GroupsGrow(groups: seq<seq<Message>>, drafts: seq<Draft>, d: Draft)
    requires |drafts| < |groups| && Groups(drafts) == groups[..|drafts|] && d.group == groups[|drafts|]
    ensures Groups(drafts + [d]) == groups[..|drafts| + 1]
  {
    GroupsSnoc(drafts, d);
    assert groups[..|drafts| + 1] == groups[..|drafts|] + [groups[|drafts|]];
  }

  lemma {:induction false} GroupsSnoc(drafts: seq<Draft>, d: Draft)
    ensures Groups(drafts + [d]) == Groups(drafts) + [d.group]
  {}

  /** Over a whole batch: the drafts show every medium of every message, as often as it was given. */
  lemma {:induction false} DraftsShowAll(s: Settings, media: Media, drafts: seq<Draft>, n: nat)
    requires Numbered(s, media, drafts, n)
    ensures forall d :: Count(Items(media, Flatten(Groups(drafts))), d) == Represented(drafts, d)
    decreases |drafts|
  {
    if drafts == [] {
      assert Groups(drafts) == [];
    } else {
      var k := |drafts| - 1;
      var before, last := drafts[..k], drafts[k];
      DraftsShowAll(s, media, before, n);
      assert drafts == before + [last];
      assert Sendable(s, media, last);
      forall d ensures Count(Items(media, Flatten(Groups(drafts))), d) == Represented(drafts, d) {
        ItemsSnoc(s, media, before, last, d);
      }
    }
  }

  lemma {:induction false} ItemsSnoc(s: Settings, media: Media, before: seq<Draft>, last: Draft, d: Downloaded)
    requires last.mime == MimeOf(s, last.group, media, last.omitted)
    ensures Count(Items(media, Flatten(Groups(before + [last]))), d)
         == Count(Items(media, Flatten(Groups(before))), d)
            + Count(MarkedIn(last.mime.html), d) + Count(FilesOf(last.mime.related), d) + Count(last.mime.attached, d)
  {
    GroupsSnoc(before, last);
    FlattenConcat(Groups(before), [last.group]);
    assert Flatten([last.group]) == last.group + Flatten([]);
    assert Flatten([last.group]) == last.group;
    FlatMapConcat(ItemsFn(media), Flatten(Groups(before)), last.group);
    MailShowsAll(s, last.group, media, last.omitted);
    CountConcat(Items(media, Flatten(Groups(before))), Items(media, last.group), d);
  }

  /** How often the drafts mark, relate or attach `d`. */
  function Represented(drafts: seq<Draft>, d: Downloaded): nat
    decreases |drafts|
  {
    if drafts == [] then 0 else
      var m := drafts[|drafts| - 1].mime;
      Represented(drafts[..|drafts| - 1], d)
      + Count(MarkedIn(m.html), d) + Count(FilesOf(m.related), d) + Count(m.attached, d)
  }

  // ---------------------------------------------------------------- what the mails say

  function ProseIn(body: seq<Fragment>): seq<string> {
    if body == [] then [] else (if body[0].Prose? then [body[0].text] else []) + ProseIn(body[1..])
  }

  lemma {:induction false} ProseConcat(a: seq<Fragment>, b: seq<Fragment>)
    ensures ProseIn(a + b) == ProseIn(a) + ProseIn(b)
  {
    if a == [] {
      assert a + b == b;
    } else {
      assert (a + b)[1..] == a[1..] + b;
      ProseConcat(a[1..], b);
      Assoc(if a[0].Prose? then [a[0].text] else [], ProseIn(a[1..]), ProseIn(b));
    }
  }

  lemma {:induction false} NoProse(body: seq<Fragment>)
    requires forall f :: f in body ==> !f.Prose?
    ensures ProseIn(body) == []
  {
    if body != [] {
      assert body[0] in body && forall f :: f in body[1..] ==> f in body;
      NoProse(body[1..]);
    }
  }

  function IfAny(link: string): seq<string> { if link == "" then [] else [link] }

  /** What is to be told of a message: author, date, text, and where to find it. */
  const TOLD: Message -> seq<string> :=
    (m: Message) => [m.author, m.date, if m.text == "" then "[media]" else m.text] + IfAny(m.link)

  /** The same for a reader of HTML: the text with its formatting as `render_entities` prints it. */
  const TOLD_IN_HTML: Message -> seq<string> :=
    (m: Message) =>
      [Render.Escape(m.author), Render.Escape(m.date),
       Breaks(if m.text == "" then "[media]" else Render.Join(Render.Pieces(m.text, m.entities)))]
      + IfAny(Render.Escape(m.link))

  lemma {:induction false} MediaWithoutProse(s: Settings, items: seq<Downloaded>, omitted: set<string>)
    ensures ProseIn(FlatMap(MarkerFn(s, omitted), items)) == [] && ProseIn(FlatMap(ShownFn(s, omitted), items)) == []
  {
    if items != [] {
      MediaWithoutProse(s, items[1..], omitted);
      NoProse(MarkerFn(s, omitted)(items[0]));
      NoProse(ShownFn(s, omitted)(items[0]));
      ProseConcat(MarkerFn(s, omitted)(items[0]), FlatMap(MarkerFn(s, omitted), items[1..]));
      ProseConcat(ShownFn(s, omitted)(items[0]), FlatMap(ShownFn(s, omitted), items[1..]));
    }
  }

  lemma {:induction false} ThreeAndLink(a: string, b: string, c: string, link: string)
    ensures ProseIn([Prose(a), Prose(b), Prose(c)] + Optional(link)) == [a, b, c] + IfAny(link)
  {
    var three := [Prose(a), Prose(b), Prose(c)];
    assert three[1..] == [Prose(b), Prose(c)] && three[1..][1..] == [Prose(c)] && [Prose(c)][1..] == [];
    assert ProseIn([Prose(c)]) == [c] && ProseIn(three[1..]) == [b, c];
    if link != "" { assert [Prose(link)][1..] == [] && ProseIn([Prose(link)]) == [link]; }
    ProseConcat(three, Optional(link));
  }

  lemma {:induction false} MediaInAngles()
    ensures Render.Escape("[media]") == "[media]"
  {
    assert forall c :: c in "[media]" ==> Render.EscapeChar(c) == [c];
    Unescaped("[media]");
  }

  lemma {:induction false} Unescaped(s: string)
    requires forall c :: c in s ==> Render.EscapeChar(c) == [c]
    ensures Render.Escape(s) == s
  {
    if s != "" {
      Unescaped(s[1..]);
      assert s == [s[0]] + s[1..];
    }
  }

  lemma {:induction false} HeadingTells(m: Message)
    ensures ProseIn(Heading(m)) == TOLD(m) && ProseIn(HtmlHeading(m, Markup(m))) == TOLD_IN_HTML(m)
  {
    MediaInAngles();
    ThreeAndLink(m.author, m.date, if m.text == "" then "[media]" else m.text, m.link);
    ThreeAndLink(Render.Escape(m.author), Render.Escape(m.date), Breaks(Markup(m)), Render.Escape(m.link));
  }

  lemma {:induction false} MessageTells(s: Settings, m: Message, media: Media, omitted: set<string>)
    ensures ProseIn(PlainFn(s, media, omitted)(m)) == TOLD(m)
    ensures ProseIn(HtmlFn(s, media, omitted)(m)) == TOLD_IN_HTML(m)
  {
    MediaWithoutProse(s, MediaOf(media, m), omitted);
    HeadingTells(m);
    ProseConcat(Heading(m), FlatMap(MarkerFn(s, omitted), MediaOf(media, m)));
    ProseConcat(HtmlHeading(m, Markup(m)), FlatMap(ShownFn(s, omitted), MediaOf(media, m)));
  }

  /** One mail tells of all its messages, in order, and of nothing else, in both bodies. */
  lemma {:induction false} MailTellsAll(s: Settings, ms: seq<Message>, media: Media, omitted: set<string>)
    ensures ProseIn(MimeOf(s, ms, media, omitted).plain) == FlatMap(TOLD, ms)
    ensures ProseIn(MimeOf(s, ms, media, omitted).html) == FlatMap(TOLD_IN_HTML, ms)
  {
    if ms != [] {
      var m, rest := ms[0], MimeOf(s, ms[1..], media, omitted);
      MailTellsAll(s, ms[1..], media, omitted);
      MessageTells(s, m, media, omitted);
      ProseConcat(PlainFn(s, media, omitted)(m), rest.plain);
      ProseConcat(HtmlFn(s, media, omitted)(m), rest.html);
    }
  }

  function PlainProse(drafts: seq<Draft>): seq<string> {
    if drafts == [] then [] else ProseIn(drafts[0].mime.plain) + PlainProse(drafts[1..])
  }

  function HtmlProse(drafts: seq<Draft>): seq<string> {
    if drafts == [] then [] else ProseIn(drafts[0].mime.html) + HtmlProse(drafts[1..])
  }

  lemma {:induction false} GroupsTell(s: Settings, media: Media, drafts: seq<Draft>)
    requires forall d :: d in drafts ==> d.mime == MimeOf(s, d.group, media, d.omitted)
    ensures PlainProse(drafts) == FlatMap(TOLD, Flatten(Groups(drafts)))
    ensures HtmlProse(drafts) == FlatMap(TOLD_IN_HTML, Flatten(Groups(drafts)))
    decreases |drafts|
  {
    if drafts != [] {
      assert Groups(drafts)[1..] == Groups(drafts[1..]);
      GroupsTell(s, media, drafts[1..]);
      MailTellsAll(s, drafts[0].group, media, drafts[0].omitted);
      FlatMapConcat(TOLD, drafts[0].group, Flatten(Groups(drafts[1..])));
      FlatMapConcat(TOLD_IN_HTML, drafts[0].group, Flatten(Groups(drafts[1..])));
    } else {
      assert Groups(drafts) == [];
    }
  }

  /** Over a whole batch, degraded or not: the drafts in order tell of each message of the batch, in order, and of
      nothing else. */
  lemma {:induction false} DraftsTellAll(s: Settings, media: Media, ms: seq<Message>, drafts: seq<Draft>, n: nat)
    requires Numbered(s, media, drafts, n) && Halved(s, media, ms, Groups(drafts))
    ensures PlainProse(drafts) == FlatMap(TOLD, ms) && HtmlProse(drafts) == FlatMap(TOLD_IN_HTML, ms)
  {
    HalvedPartitions(s, media, ms, Groups(drafts));
    forall d | d in drafts ensures d.mime == MimeOf(s, d.group, media, d.omitted) {
      var i :| 0 <= i < |drafts| && drafts[i] == d;
      assert Sendable(s, media, drafts[i]);
    }
    GroupsTell(s, media, drafts);
  }

  /** Line breaks, and only they, become `<br>`. */
  lemma {:induction false} BreaksAtNewlines(a: string, b: string)
    ensures '\n' !in a ==> Breaks(a) == a
    ensures Breaks(a + "\n" + b) == Breaks(a) + "<br>" + Breaks(b)
  {
    if a == "" {
      assert a + "\n" + b == "\n" + b && ("\n" + b)[1..] == b;
    } else {
      assert (a + "\n" + b)[1..] == a[1..] + "\n" + b;
      BreaksAtNewlines(a[1..], b);
      assert a == [a[0]] + a[1..];
    }
  }
}
