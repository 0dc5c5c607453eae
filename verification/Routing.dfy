/** The strings that route a reply back: dialog ids (src/mailtg_bridge/telegram.py:18-19, 53-57, 82-85),
    deep links (src/mailtg_bridge/algorithms.py:44-50) and the keys of the backoff table. */
module Routing {
  import opened Domain
  import opened Database

  // ---------------------------------------------------------------- numbers in decimal

  predicate IsDigit(c: char) { '0' <= c <= '9' }

  predicate AllDigits(s: string) { forall i :: 0 <= i < |s| ==> IsDigit(s[i]) }

  function Show(n: nat): string {
    if n < 10 then ['0' + n as char] else Show(n / 10) + ['0' + (n % 10) as char]
  }

  function ShowInt(n: int): string { if n < 0 then "-" + Show(-n) else Show(n) }

  function Value(s: string): nat
    requires AllDigits(s)
  {
    if s == "" then 0 else 10 * Value(s[..|s| - 1]) + (s[|s| - 1] - '0') as nat
  }

  /** int() of a string that matches -?\d+; anything else is not a number. */
  function Parse(s: string): Option<int> {
    if s != "" && AllDigits(s) then Some(Value(s))
    else if |s| > 1 && s[0] == '-' && AllDigits(s[1..]) then Some(0 - Value(s[1..]))
    else None
  }

  lemma {:induction false} ShowValue(n: nat)
    ensures Show(n) != "" && AllDigits(Show(n)) && Value(Show(n)) == n
    ensures Show(n)[0] == '0' <==> n == 0
  {
    if n >= 10 {
      ShowValue(n / 10);
      var s := Show(n);
      assert s[..|s| - 1] == Show(n / 10);
    } else {
      assert Show(n)[..0] == "";
    }
  }

  lemma {:induction false} ValueShow(s: string)
    requires s != "" && AllDigits(s) && (s[0] == '0' ==> |s| == 1)
    ensures Show(Value(s)) == s
  {
    var n := |s| - 1;
    var init, d := s[..n], (s[n] - '0') as nat;
    if n > 0 {
      ValueShow(init);
      ShowValue(Value(init));
      ShowSnoc(Value(init), d);
      assert s == init + [s[n]];
    } else {
      assert init == "";
    }
  }

  lemma {:induction false} ShowSnoc(v: nat, d: nat)
    requires v > 0 && d < 10
    ensures Show(10 * v + d) == Show(v) + ['0' + d as char]
  {}

  lemma {:induction false} ParseShowInt(n: int)
    ensures Parse(ShowInt(n)) == Some(n)
  {
    if n < 0 {
      ShowValue(-n);
      assert ShowInt(n)[1..] == Show(-n);
      assert !IsDigit(ShowInt(n)[0]);
    } else {
      ShowValue(n);
    }
  }

  // ---------------------------------------------------------------- splitting

  function Split(s: string, c: char): (parts: seq<string>)
    ensures parts != []
  {
    if s == "" then [""]
    else
      var rest := Split(s[1..], c);
      if s[0] == c then [""] + rest else [[s[0]] + rest[0]] + rest[1..]
  }

  lemma {:induction false} SplitFirst(a: string, c: char, b: string)
    requires c !in a
    ensures Split(a + [c] + b, c) == [a] + Split(b, c)
  {
    if a == "" {
      assert a + [c] + b == [c] + b;
      assert ([c] + b)[1..] == b;
    } else {
      var s := a + [c] + b;
      assert s[1..] == a[1..] + [c] + b;
      SplitFirst(a[1..], c, b);
      assert ([a[1..]] + Split(b, c))[1..] == Split(b, c);
      assert [s[0]] + a[1..] == a;
    }
  }

  lemma {:induction false} SplitNone(a: string, c: char)
    requires c !in a
    ensures Split(a, c) == [a]
  {
    if a != "" {
      SplitNone(a[1..], c);
      assert [a[0]] + a[1..] == a;
    }
  }

  lemma {:induction false} NoSeparator(n: int, c: char)
    requires c == ':' || c == '/'
    ensures c !in ShowInt(n)
  {
    ShowValue(if n < 0 then -n else n);
  }

  // ---------------------------------------------------------------- dialog ids

  /** An account or bot, or anything else, by the entity's own id. */
  datatype Peer = User(id: nat) | Chat(id: nat)

  /** int(f"-100{id}") for chats and channels. */
  function PeerNumber(p: Peer): int {
    match p
    case User(id) => id
    case Chat(id) => var n := Parse("-100" + Show(id)); if n.Some? then n.value else 0
  }

  function DialogId(p: Peer, topic: Option<nat>): string {
    var did := ShowInt(PeerNumber(p));
    if topic.Some? && topic.value != 0 then did + ":" + Show(topic.value) else did
  }

  /** `post_as_user`: the peer number to resolve, and the topic to reply to. */
  function Target(did: string): (Option<int>, Option<int>) {
    var parts := Split(did, ':');
    (Parse(parts[0]), if ':' in did && |parts| > 1 then Parse(parts[1]) else None)
  }

  lemma {:induction false} ChatNumber(id: nat)
    ensures ShowInt(PeerNumber(Chat(id))) == "-100" + Show(id)
    ensures PeerNumber(Chat(id)) < 0
  {
    var s, digits := "-100" + Show(id), "100" + Show(id);
    ShowValue(id);
    assert s[1..] == digits && !IsDigit(s[0]);
    assert PeerNumber(Chat(id)) == 0 - Value(digits);
    StartsWithOne(digits);
    assert "-" + digits == s;
  }

  lemma {:induction false} StartsWithOne(digits: string)
    requires digits != "" && digits[0] == '1' && AllDigits(digits)
    ensures Value(digits) > 0 && Show(Value(digits)) == digits
  {
    ValueShow(digits);
    ShowValue(Value(digits));
  }

  /** Decoding the id of a dialog gives back the peer and the topic it was made from. */
  lemma {:induction false} DialogIdRoundTrip(p: Peer, topic: Option<nat>)
    ensures Target(DialogId(p, topic)).0 == Some(PeerNumber(p))
    ensures Target(DialogId(p, topic)).1 == if topic == Some(0) then None else topic
  {
    var did := ShowInt(PeerNumber(p));
    ParseShowInt(PeerNumber(p));
    NoSeparator(PeerNumber(p), ':');
    if topic.Some? && topic.value != 0 {
      ParseShowInt(topic.value);
      NoSeparator(topic.value, ':');
      SplitFirst(did, ':', Show(topic.value));
      SplitNone(Show(topic.value), ':');
      assert DialogId(p, topic)[|did|] == ':';
    } else {
      SplitNone(did, ':');
    }
  }

  /** Different peers have different numbers, so different (peer, topic) pairs have different dialog ids. */
  lemma {:induction false} DialogIdsDistinct(p: Peer, t: Option<nat>, q: Peer, u: Option<nat>)
    requires t != Some(0) && u != Some(0) && DialogId(p, t) == DialogId(q, u)
    ensures p == q && t == u
  {
    DialogIdRoundTrip(p, t);
    DialogIdRoundTrip(q, u);
    if p.Chat? { ChatNumber(p.id); ShowValue(p.id); }
    if q.Chat? { ChatNumber(q.id); ShowValue(q.id); }
    if p.Chat? && q.Chat? {
      assert ("-100" + Show(p.id))[4..] == Show(p.id) && ("-100" + Show(q.id))[4..] == Show(q.id);
    }
  }

  // ---------------------------------------------------------------- deep links

  function StripDashes(s: string): string {
    if s != "" && s[0] == '-' then StripDashes(s[1..]) else s
  }

  function Suffix(topic: Option<nat>, msg: nat): string {
    if topic.Some? then "/" + Show(topic.value) + "/" + Show(msg) else "/" + Show(msg)
  }

  /** The link to a message of a chat: none for a direct message, by user name if there is one, by the
      internal id otherwise. */
  function DeepLink(direct: bool, username: Option<string>, number: int, topic: Option<nat>, msg: nat): Option<string> {
    if direct then None
    else if username.Some? && username.value != ""
    then Some("https://t.me/" + StripAts(username.value) + Suffix(topic, msg))
    else
      var peer := ShowInt(number);
      Some(PRIVATE + (if "-100" <= peer then peer[4..] else StripDashes(peer)) + Suffix(topic, msg))
  }

  function StripAts(s: string): string {
    if s != "" && s[0] == '@' then StripAts(s[1..]) else s
  }

  const PRIVATE := "https://t.me/c/"

  /** Reading a private link: chat, topic, message. */
  function ReadLink(link: string): Option<(int, Option<int>, int)> {
    if PRIVATE <= link then ReadParts(Split(link[|PRIVATE|..], '/')) else None
  }

  function ReadParts(parts: seq<string>): Option<(int, Option<int>, int)> {
    if |parts| == 2 && Parse(parts[0]).Some? && Parse(parts[1]).Some?
    then Some((Parse(parts[0]).value, None, Parse(parts[1]).value))
    else if |parts| == 3 && Parse(parts[0]).Some? && Parse(parts[1]).Some? && Parse(parts[2]).Some?
    then Some((Parse(parts[0]).value, Parse(parts[1]), Parse(parts[2]).value))
    else None
  }

  /** A private link names the entity id itself, the topic and the message. */
  lemma {:induction false} PrivateLinkRoundTrip(id: nat, topic: Option<nat>, msg: nat)
    ensures var link := DeepLink(false, None, PeerNumber(Chat(id)), topic, msg);
            link.Some? && ReadLink(link.value) == Some((id, topic, msg))
  {
    PrivateLinkText(id, topic, msg);
    ParseShowInt(id);
    ParseShowInt(msg);
    if topic.Some? {
      ParseShowInt(topic.value);
      TopicLinkParts(id, topic.value, msg);
    } else {
      LinkParts(id, msg);
    }
  }

  /** A chat with a user name is linked by it, with or without its "@"; a direct message has no link. */
  lemma {:induction false} PublicLinks(name: string, number: int, topic: nat, msg: nat)
    requires name != "" && name[0] != '@'
    ensures DeepLink(false, Some(name), number, None, msg) == Some("https://t.me/" + name + ("/" + Show(msg)))
    ensures DeepLink(false, Some(name), number, Some(topic), msg)
            == Some("https://t.me/" + name + ("/" + Show(topic) + "/" + Show(msg)))
    ensures DeepLink(false, Some("@" + name), number, None, msg) == DeepLink(false, Some(name), number, None, msg)
    ensures DeepLink(true, Some(name), number, None, msg) == None
  {
    assert ("@" + name)[1..] == name && StripAts(name) == name;
    assert StripAts("@" + name) == StripAts(name);
  }

  /** No two messages share a private link. */
  lemma {:induction false} PrivateLinksDistinct(id: nat, topic: Option<nat>, msg: nat, id': nat, topic': Option<nat>,
                                                msg': nat)
    requires DeepLink(false, None, PeerNumber(Chat(id)), topic, msg)
             == DeepLink(false, None, PeerNumber(Chat(id')), topic', msg')
    ensures id == id' && topic == topic' && msg == msg'
  {
    PrivateLinkRoundTrip(id, topic, msg);
    PrivateLinkRoundTrip(id', topic', msg');
  }

  lemma {:induction false} PrivateLinkText(id: nat, topic: Option<nat>, msg: nat)
    ensures var link := DeepLink(false, None, PeerNumber(Chat(id)), topic, msg);
            link.Some? && ReadLink(link.value) == ReadParts(Split(Show(id) + Suffix(topic, msg), '/'))
  {
    ChatNumber(id);
    var peer, rest := ShowInt(PeerNumber(Chat(id))), Show(id) + Suffix(topic, msg);
    assert peer[4..] == Show(id);
    var link := DeepLink(false, None, PeerNumber(Chat(id)), topic, msg);
    assert link == Some(PRIVATE + Show(id) + Suffix(topic, msg));
    assert PRIVATE + Show(id) + Suffix(topic, msg) == PRIVATE + rest;
    AfterPrefix(PRIVATE, rest);
  }

  lemma {:induction false} AfterPrefix(prefix: string, rest: string)
    ensures prefix <= prefix + rest && (prefix + rest)[|prefix|..] == rest
  {}

  lemma {:induction false} SplitInTwo(a: string, b: string, c: char)
    requires c !in a && c !in b
    ensures Split(a + ([c] + b), c) == [a, b]
  {
    SplitNone(b, c);
    SplitFirst(a, c, b);
    assert a + ([c] + b) == a + [c] + b;
  }

  lemma {:induction false} SplitInThree(a: string, b: string, d: string, c: char)
    requires c !in a && c !in b && c !in d
    ensures Split(a + ([c] + b + [c] + d), c) == [a, b, d]
  {
    var rest := b + [c] + d;
    assert Split(rest, c) == [b, d] by {
      SplitNone(d, c);
      SplitFirst(b, c, d);
    }
    SplitFirst(a, c, rest);
    assert a + ([c] + b + [c] + d) == a + [c] + rest;
  }

  lemma {:induction false} LinkParts(id: nat, msg: nat)
    ensures Split(Show(id) + Suffix(None, msg), '/') == [Show(id), Show(msg)]
  {
    NoSeparator(id, '/');
    NoSeparator(msg, '/');
    SplitInTwo(Show(id), Show(msg), '/');
  }

  lemma {:induction false} TopicLinkParts(id: nat, topic: nat, msg: nat)
    ensures Split(Show(id) + Suffix(Some(topic), msg), '/') == [Show(id), Show(topic), Show(msg)]
  {
    NoSeparator(id, '/');
    NoSeparator(topic, '/');
    NoSeparator(msg, '/');
    SplitInThree(Show(id), Show(topic), Show(msg), '/');
  }

  // ---------------------------------------------------------------- backoff keys

  function ScopeKey(s: Scope): string {
    match s
    case TgList => "tg:list"
    case TgDialog(d) => "tg:" + d
    case TgPost(d) => "tg:post:" + d
    case MailPoll => "mail:poll"
    case MailNotice(kind) => "mail:notice:" + kind
    case MailSessionNotice => "mail:session-notice"
  }

  /** Dialog ids are numbers, perhaps with a topic: they begin with a digit or a minus sign. */
  predicate NumericDialog(s: Scope) {
    (s.TgDialog? || s.TgPost?) ==> s.dialog != "" && (IsDigit(s.dialog[0]) || s.dialog[0] == '-')
  }

  lemma {:induction false} DialogIdsAreNumeric(p: Peer, topic: Option<nat>)
    ensures NumericDialog(TgDialog(DialogId(p, topic))) && NumericDialog(TgPost(DialogId(p, topic)))
  {
    var n := PeerNumber(p);
    ShowValue(if n < 0 then -n else n);
    assert DialogId(p, topic)[0] == ShowInt(n)[0];
  }

  /** No two scopes share a key, and LIKE 'tg:%' takes in exactly the Telegram scopes. */
  lemma {:induction false} ScopeKeysDistinct(a: Scope, b: Scope)
    requires NumericDialog(a) && NumericDialog(b)
    ensures ScopeKey(a) == ScopeKey(b) ==> a == b
    ensures "tg:" <= ScopeKey(a) <==> a.TgList? || a.TgDialog? || a.TgPost?
  {
    KeyHead(a);
    KeyHead(b);
    if ScopeKey(a) == ScopeKey(b) && !a.TgList? && !a.MailPoll? && !a.MailSessionNotice? {
      var n := if a.TgDialog? then 3 else if a.TgPost? then 8 else 12;
      assert ScopeKey(a)[n..] == if a.MailNotice? then a.kind else a.dialog;
    }
  }

  /** Setup lifts every wait of Telegram, known by its key, and no other. */
  lemma {:induction false} SetupLiftsWaits(t: Tables, s: Scope)
    requires s in t.backoff && NumericDialog(s)
    ensures var t' := ClearTelegramBackoff(t);
            && t'.backoff.Keys <= t.backoff.Keys && t' == t.(backoff := t'.backoff)
            && if "tg:" <= ScopeKey(s) then s !in t'.backoff else s in t'.backoff && t'.backoff[s] == t.backoff[s]
  {
    ScopeKeysDistinct(s, s);
  }

  lemma {:induction false} KeyHead(s: Scope)
    requires NumericDialog(s)
    ensures var k := ScopeKey(s);
            |k| > 3 && (s.TgDialog? ==> k[..3] == "tg:" && (IsDigit(k[3]) || k[3] == '-') && k[3..] == s.dialog)
    ensures var k := ScopeKey(s); s.TgPost? ==> |k| > 8 && k[..8] == "tg:post:" && k[3] == 'p' && k[8..] == s.dialog
    ensures var k := ScopeKey(s); s.TgList? ==> k[3] == 'l'
    ensures var k := ScopeKey(s); s.MailPoll? || s.MailNotice? || s.MailSessionNotice? ==> |k| > 5 && k[0] == 'm'
    ensures var k := ScopeKey(s); s.MailNotice? ==> |k| >= 12 && k[5] == 'n' && k[12..] == s.kind
    ensures var k := ScopeKey(s); (s.MailPoll? ==> k[5] == 'p') && (s.MailSessionNotice? ==> k[5] == 's')
  {}
}
