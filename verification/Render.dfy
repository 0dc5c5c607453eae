/** Telegram carries formatting as offset/length spans over the text; the mail composer
    prints them as HTML tags (src/mailtg_bridge/mail_out.py:21-41).

    `RenderEntities` is the printer in the source's form: two dictionaries, a sorted list of
    boundaries, and a loop over `out`, `stack` and `i`.  `Scan` is what that loop appends.
    Everything about the printed markup is then proved about `Pieces`, for all inputs:
      - what text remains once the tags are stripped and the escapes undone,
      - how often each span is opened and closed,
      - exactly when the tags nest properly. */
module Render {
  import opened FiniteSets
  import opened Sequences

  datatype Entity = Entity(kind: string, offset: int, length: int, url: string) {
    function End(): int { offset + length }
  }

  // ---------------------------------------------------------------- characters

  function EscapeChar(c: char): string {
    match c
    case '&' => "&amp;"
    case '<' => "&lt;"
    case '>' => "&gt;"
    case '\"' => "&quot;"
    case '\'' => "&#x27;"
    case _ => [c]
  }

  function Escape(s: string): string {
    if s == "" then "" else EscapeChar(s[0]) + Escape(s[1..])
  }

  /** How many characters the escape sequence at the front of `s` takes, with the character it stands for. */
  function EscapeAt(s: string): (char, nat)
    requires s != ""
  {
    if "&amp;" <= s then ('&', 5)
    else if "&lt;" <= s then ('<', 4)
    else if "&gt;" <= s then ('>', 4)
    else if "&quot;" <= s then ('\"', 6)
    else if "&#x27;" <= s then ('\'', 6)
    else (s[0], 1)
  }

  /** The reader's view: undo the five escapes. */
  function Unescape(s: string): string {
    if s == "" then "" else
    var (c, n) := EscapeAt(s);
    [c] + Unescape(s[n..])
  }

  /** The reader's view: drop everything between '<' and the next '>'. */
  function StripTags(s: string, inTag: bool): string {
    if s == "" then ""
    else if inTag then StripTags(s[1..], s[0] != '>')
    else if s[0] == '<' then StripTags(s[1..], true)
    else [s[0]] + StripTags(s[1..], false)
  }

  lemma {:induction false} EscapeAtFront(c: char, rest: string)
    ensures EscapeAt(EscapeChar(c) + rest) == (c, |EscapeChar(c)|)
  {
    var t := EscapeChar(c) + rest;
    assert t[0] == EscapeChar(c)[0];
    if |EscapeChar(c)| > 1 {
      assert t[1] == EscapeChar(c)[1];
      assert EscapeChar(c) <= t;
    }
  }

  lemma {:induction false} UnescapeUndoesEscape(s: string)
    ensures Unescape(Escape(s)) == s
  {
    if s != "" {
      var e, rest := EscapeChar(s[0]), Escape(s[1..]);
      UnescapeUndoesEscape(s[1..]);
      assert (e + rest)[..|e|] == e;
      assert (e + rest)[|e|..] == rest;
      assert e <= e + rest;
      EscapeAtFront(s[0], rest);
    }
  }

  lemma {:induction false} StripConcatPlain(s: string, t: string)
    requires '<' !in s
    ensures StripTags(s + t, false) == s + StripTags(t, false)
  {
    if s == "" {
      assert s + t == t;
    } else {
      assert (s + t)[1..] == s[1..] + t;
      StripConcatPlain(s[1..], t);
    }
  }

  lemma {:induction false} StripInsideTag(body: string, t: string)
    requires '>' !in body
    ensures StripTags(body + ">" + t, true) == StripTags(t, false)
  {
    if body == "" {
      assert (body + ">" + t)[1..] == t;
    } else {
      assert (body + ">" + t)[1..] == body[1..] + ">" + t;
      StripInsideTag(body[1..], t);
    }
  }

  lemma {:induction false} EscapeHasNoAngles(s: string)
    ensures '<' !in Escape(s) && '>' !in Escape(s)
  {
    if s != "" {
      EscapeHasNoAngles(s[1..]);
    }
  }

  lemma {:induction false} EscapeConcat(s: string, t: string)
    ensures Escape(s + t) == Escape(s) + Escape(t)
  {
    if s == "" {
      assert s + t == t;
    } else {
      assert (s + t)[1..] == s[1..] + t;
      EscapeConcat(s[1..], t);
    }
  }

  // ---------------------------------------------------------------- output pieces

  /** What the printer appends to `out`. */
  datatype Piece = Run(text: string) | Open(span: Entity) | Close(span: Entity)

  function TagName(kind: string): string {
    if kind == "bold" then "b"
    else if kind == "italic" then "i"
    else if kind == "code" then "code"
    else if kind == "pre" then "pre"
    else ""
  }

  /** What stands between the angle brackets; unknown kinds print no tag at all. */
  function TagBody(e: Entity, opening: bool): string {
    if e.kind == "texturl" then
      if opening then "a href=\"" + Escape(e.url) + "\"" else "/a"
    else
      var t := TagName(e.kind);
      if t == "" || opening then t else "/" + t
  }

  function Tag(e: Entity, opening: bool): string {
    var body := TagBody(e, opening);
    if body == "" then "" else "<" + body + ">"
  }

  function Print(p: Piece): string {
    match p
    case Run(s) => Escape(s)
    case Open(e) => Tag(e, true)
    case Close(e) => Tag(e, false)
  }

  function Join(ps: seq<Piece>): string {
    if ps == [] then "" else Print(ps[0]) + Join(ps[1..])
  }

  lemma {:induction false} JoinConcat(a: seq<Piece>, b: seq<Piece>)
    ensures Join(a + b) == Join(a) + Join(b)
  {
    if a == [] {
      assert a + b == b;
    } else {
      assert (a + b)[1..] == a[1..] + b;
      JoinConcat(a[1..], b);
    }
  }

  function Runs(ps: seq<Piece>): string {
    if ps == [] then "" else (if ps[0].Run? then ps[0].text else "") + Runs(ps[1..])
  }

  lemma {:induction false} RunsConcat(a: seq<Piece>, b: seq<Piece>)
    ensures Runs(a + b) == Runs(a) + Runs(b)
  {
    if a == [] {
      assert a + b == b;
    } else {
      assert (a + b)[1..] == a[1..] + b;
      RunsConcat(a[1..], b);
    }
  }

  lemma {:induction false} TagBodyHasNoBracket(e: Entity, opening: bool)
    ensures '>' !in TagBody(e, opening)
  {
    EscapeHasNoAngles(e.url);
  }

  lemma {:induction false} StripTag(e: Entity, opening: bool, t: string)
    ensures StripTags(Tag(e, opening) + t, false) == StripTags(t, false)
  {
    var body := TagBody(e, opening);
    if body == "" {
      assert Tag(e, opening) + t == t;
    } else {
      TagBodyHasNoBracket(e, opening);
      assert Tag(e, opening) + t == ['<'] + (body + ">" + t);
      assert (Tag(e, opening) + t)[1..] == body + ">" + t;
      StripInsideTag(body, t);
    }
  }

  /** Whatever is printed, stripping the tags leaves the escaped runs. */
  lemma {:induction false} StripJoin(ps: seq<Piece>)
    ensures StripTags(Join(ps), false) == Escape(Runs(ps))
  {
    if ps != [] {
      var rest := Join(ps[1..]);
      StripJoin(ps[1..]);
      assert "" + Runs(ps[1..]) == Runs(ps[1..]);
      match ps[0]
      case Run(s) =>
        EscapeHasNoAngles(s);
        StripConcatPlain(Escape(s), rest);
        EscapeConcat(s, Runs(ps[1..]));
      case Open(e) => StripTag(e, true, rest);
      case Close(e) => StripTag(e, false, rest);
    }
  }

  // ---------------------------------------------------------------- sorting

  /** list.sort(key=lambda e: -e.length): stable, longest first. */
  function InsertByLength(e: Entity, es: seq<Entity>): seq<Entity> {
    if es == [] || e.length >= es[0].length then [e] + es
    else [es[0]] + InsertByLength(e, es[1..])
  }

  function LongestFirst(es: seq<Entity>): seq<Entity> {
    if es == [] then [] else InsertByLength(es[0], LongestFirst(es[1..]))
  }

  // ---------------------------------------------------------------- the scan

  function At(es: seq<Entity>, p: int): seq<Entity> {
    if es == [] then []
    else (if es[0].offset == p then [es[0]] else []) + At(es[1..], p)
  }

  function StartsAt(es: seq<Entity>, p: int): seq<Entity> { LongestFirst(At(es, p)) }

  function Ending(stack: seq<Entity>, p: int): seq<Entity> {
    if stack == [] then []
    else (if stack[0].End() == p then [stack[0]] else []) + Ending(stack[1..], p)
  }

  function Staying(stack: seq<Entity>, p: int): seq<Entity> {
    if stack == [] then []
    else (if stack[0].End() != p then [stack[0]] else []) + Staying(stack[1..], p)
  }

  function Closings(es: seq<Entity>): seq<Piece> {
    if es == [] then [] else Closings(es[1..]) + [Close(es[0])]
  }

  function Openings(es: seq<Entity>): seq<Piece> {
    if es == [] then [] else [Open(es[0])] + Openings(es[1..])
  }

  /** Python's text[i:j], with its treatment of negative and out-of-range indices. */
  function Clamp(n: nat, i: int): (r: nat)
    ensures r <= n
  {
    if i < 0 then (if n + i < 0 then 0 else n + i) else if i > n then n else i
  }

  function Slice(s: string, i: int, j: int): string {
    var lo, hi := Clamp(|s|, i), Clamp(|s|, j);
    if lo < hi then s[lo..hi] else ""
  }

  function Offsets(es: seq<Entity>): set<int> {
    if es == [] then {} else {es[0].offset} + Offsets(es[1..])
  }

  function Ends(es: seq<Entity>): set<int> {
    if es == [] then {} else {es[0].End()} + Ends(es[1..])
  }

  function Boundaries(text: string, es: seq<Entity>): set<int> {
    {0, |text|} + Offsets(es) + Ends(es)
  }

  /** One turn of the loop. */
  function Turn(text: string, es: seq<Entity>, p: int, i: int, stack: seq<Entity>): seq<Piece> {
    (if p > i then [Run(Slice(text, i, p))] else []) + Closings(Ending(stack, p)) + Openings(StartsAt(es, p))
  }

  function After(es: seq<Entity>, p: int, stack: seq<Entity>): seq<Entity> {
    Staying(stack, p) + StartsAt(es, p)
  }

  function Scan(text: string, es: seq<Entity>, ps: seq<int>, i: int, stack: seq<Entity>): seq<Piece> {
    if ps == [] then []
    else Turn(text, es, ps[0], i, stack) + Scan(text, es, ps[1..], ps[0], After(es, ps[0], stack))
  }

  function Pieces(text: string, es: seq<Entity>): seq<Piece> {
    if es == [] then [Run(text)] else Scan(text, es, Sorted(Boundaries(text, es)), 0, [])
  }

  /** The two dictionaries; of `ends` only the keys are used. */
  method Group(es: seq<Entity>) returns (starts: map<int, seq<Entity>>, ends: set<int>)
    ensures starts.Keys == Offsets(es) && ends == Ends(es)
    ensures forall p :: p in starts ==> starts[p] == StartsAt(es, p)
  {
    starts, ends := map[], {};
    for n := 0 to |es|
      invariant starts.Keys == Offsets(es[..n]) && ends == Ends(es[..n])
      invariant forall p :: p in starts ==> starts[p] == At(es[..n], p)
    {
      var e := es[n];
      if e.offset !in starts {
        AtElsewhere(es[..n], e.offset);
      }
      forall p ensures At(es[..n + 1], p) == At(es[..n], p) + if e.offset == p then [e] else [] {
        GroupSnoc(es, n, p);
      }
      GroupSnoc(es, n, e.offset);
      var before := if e.offset in starts then starts[e.offset] else [];
      starts := starts[e.offset := before + [e]];
      ends := ends + {e.End()};
    }
    assert es[..|es|] == es;
    starts := map p | p in starts :: LongestFirst(starts[p]);
  }

  lemma {:induction false} GroupConcat(a: seq<Entity>, b: seq<Entity>, p: int)
    ensures At(a + b, p) == At(a, p) + At(b, p)
    ensures Offsets(a + b) == Offsets(a) + Offsets(b)
    ensures Ends(a + b) == Ends(a) + Ends(b)
  {
    if a == [] {
      assert a + b == b;
    } else {
      assert (a + b)[1..] == a[1..] + b;
      GroupConcat(a[1..], b, p);
      Assoc(if a[0].offset == p then [a[0]] else [], At(a[1..], p), At(b, p));
    }
  }

  lemma {:induction false} GroupSnoc(es: seq<Entity>, n: nat, p: int)
    requires n < |es|
    ensures At(es[..n + 1], p) == At(es[..n], p) + if es[n].offset == p then [es[n]] else []
    ensures Offsets(es[..n + 1]) == Offsets(es[..n]) + {es[n].offset}
    ensures Ends(es[..n + 1]) == Ends(es[..n]) + {es[n].End()}
  {
    assert es[..n + 1] == es[..n] + [es[n]];
    GroupConcat(es[..n], [es[n]], p);
  }

  lemma {:induction false} AtElsewhere(es: seq<Entity>, p: int)
    ensures (At(es, p) == []) <==> p !in Offsets(es)
  {
    if es != [] {
      AtElsewhere(es[1..], p);
    }
  }

  lemma {:induction false} Glue<T>(s: seq<T>, a: seq<T>, b: seq<T>, c: seq<T>)
    ensures s + a + b + c == s + (a + b + c)
  {}

  lemma {:induction false} ScanTurn(text: string, es: seq<Entity>, ps: seq<int>, n: nat, i: int, stack: seq<Entity>,
                                    done: seq<Piece>)
    requires n < |ps|
    ensures done + Scan(text, es, ps[n..], i, stack)
         == done + Turn(text, es, ps[n], i, stack) + Scan(text, es, ps[n + 1..], ps[n], After(es, ps[n], stack))
  {}

  method Walk(text: string, ghost es: seq<Entity>, starts: map<int, seq<Entity>>, positions: seq<int>)
    returns (out: seq<Piece>)
    requires starts.Keys == Offsets(es) && forall p :: p in starts ==> starts[p] == StartsAt(es, p)
    ensures out == Scan(text, es, positions, 0, [])
  {
    var stack: seq<Entity>, i := [], 0;
    out := [];
    assert positions[0..] == positions;
    for n := 0 to |positions|
      invariant out + Scan(text, es, positions[n..], i, stack) == Scan(text, es, positions, 0, [])
    {
      var pos := positions[n];
      ScanTurn(text, es, positions, n, i, stack, out);
      if pos !in starts { AtElsewhere(es, pos); }
      var run := if pos > i then [Run(Slice(text, i, pos))] else [];
      var closing := Ending(stack, pos);
      var opening := if pos in starts then starts[pos] else [];
      Glue(out, run, Closings(closing), Openings(opening));
      out, stack := out + run + Closings(closing), Staying(stack, pos);
      out, stack := out + Openings(opening), stack + opening;
      i := pos;
    }
    assert out + [] == out;
  }

  method RenderEntities(text: string, entities: seq<Entity>) returns (html: string)
    ensures html == Join(Pieces(text, entities))
  {
    if entities == [] {
      assert Join([Run(text)]) == Escape(text) + Join([]);
      return Escape(text);
    }
    var starts, ends := Group(entities);
    var out := Walk(text, entities, starts, Sorted({0, |text|} + starts.Keys + ends));
    html := Join(out);
  }
}
