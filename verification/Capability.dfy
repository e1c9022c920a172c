/**
 Capability tokens: minted as `v1.<payload>.<signature>`, verified by one ordered chain of
 refusals. The MAC and the JSON codec are parameters; the framing and base64url are not.
 */
module Capability {
  import opened Wrappers
  import opened Text
  import opened Base64

  const PURPOSE_ICS := "event-ics-access"
  const PURPOSE_TICKET_REPORT := "event-registration-ticket-report-access"
  const CAPABILITY_CONTEXT := "event-capability-v1"

  /** `exp` is unix seconds; zero never expires. */
  datatype Claims = Claims(purpose: string, exp: int, data: seq<string>)

  /** `Internal` is a database failure behind the token; verification never answers it. */
  datatype Refusal = SecretNotConfigured | EventNotPublished | Internal

  datatype Host = Host(mac: (string, string) -> seq<Byte>, json: Claims -> seq<Byte>,
                       parse: seq<Byte> -> Option<Claims>)

  /** What is assumed of the libraries: 32-byte MACs, and JSON that reads back. */
  ghost predicate Sound(h: Host) {
    && (forall secret, m :: |h.mac(secret, m)| == 32)
    && (forall c :: h.json(c) != [] && h.parse(h.json(c)) == Some(c))
  }

  // ── signing ──

  function Message(purpose: string, payload: string): (m: string) {
    CAPABILITY_CONTEXT + "\n" + purpose + "\n" + payload
  }

  function Sign(h: Host, secret: string, purpose: string, payload: string): (r: Result<seq<Byte>, Refusal>) {
    if secret == "" then Err(SecretNotConfigured) else Ok(h.mac(secret, Message(purpose, payload)))
  }

  function Mint(h: Host, secret: string, c: Claims): (r: Result<string, Refusal>) {
    var payload := Encode(h.json(c));
    match Sign(h, secret, c.purpose, payload)
    case Err(e) => Err(e)
    case Ok(sig) => Ok("v1." + payload + "." + Encode(sig))
  }

  // ── framing ──

  function Find(s: string, c: char): (i: nat)
    ensures i <= |s| && (i < |s| ==> s[i] == c)
    ensures forall k :: 0 <= k < i ==> s[k] != c
  {
    if s == [] || s[0] == c then 0 else Find(s[1..], c) + 1
  }

  /** What precedes the first c, and what follows it. */
  function Cleave(s: string, c: char): (parts: (string, string)) {
    var i := Find(s, c);
    (s[..i], if i < |s| then s[i + 1..] else "")
  }

  function SplitN3(token: string): (parts: (string, string, string)) {
    var (version, rest) := Cleave(token, '.');
    var (payload, sig) := Cleave(rest, '.');
    (version, payload, sig)
  }

  // ── verifying ──

  predicate Live(c: Claims, now: int) {
    c.exp == 0 || now < c.exp
  }

  function Verify(h: Host, secret: string, expected: string, token: string, now: int): (r: Result<Claims, Refusal>) {
    if secret == "" then Err(SecretNotConfigured)
    else
      var (version, payload, sig) := SplitN3(token);
      if version != "v1" || payload == "" || sig == "" then Err(EventNotPublished)
      else
        match Sign(h, secret, expected, payload)
        case Err(e) => Err(e)
        case Ok(expectedSig) =>
          match Decode(sig)
          case None => Err(EventNotPublished)
          case Some(given) =>
            if given != expectedSig then Err(EventNotPublished)
            else
              match Decode(payload)
              case None => Err(EventNotPublished)
              case Some(bytes) =>
                match h.parse(bytes)
                case None => Err(EventNotPublished)
                case Some(c) =>
                  if c.purpose != expected then Err(EventNotPublished)
                  else if c.exp != 0 && now >= c.exp then Err(EventNotPublished)
                  else Ok(c)
  }

  // ── framing undone ──

  lemma CleaveJoined(a: string, c: char, b: string)
    requires c !in a
    ensures Cleave(a + [c] + b, c) == (a, b)
  {
    var s := a + [c] + b;
    assert s[|a|] == c && forall k :: 0 <= k < |a| ==> s[k] == a[k];
    assert Find(s, c) == |a|;
    assert s[..|a|] == a && s[|a| + 1..] == b;
  }

  lemma CleaveRejoins(s: string, c: char)
    requires Cleave(s, c).1 != ""
    ensures s == Cleave(s, c).0 + [c] + Cleave(s, c).1 && c !in Cleave(s, c).0
  {
  }

  lemma SplitJoined(payload: string, sig: string)
    requires '.' !in payload
    ensures SplitN3("v1." + payload + "." + sig) == ("v1", payload, sig)
  {
    assert "v1." + payload + "." + sig == "v1" + ['.'] + (payload + ['.'] + sig);
    CleaveJoined("v1", '.', payload + ['.'] + sig);
    CleaveJoined(payload, '.', sig);
  }

  lemma SplitRejoins(token: string)
    requires var (v, p, s) := SplitN3(token); v == "v1" && p != "" && s != ""
    ensures var (v, p, s) := SplitN3(token); token == "v1." + p + "." + s && '.' !in p
  {
    hide Cleave;
    var rest := Cleave(token, '.').1;
    CleaveRejoins(rest, '.');
    CleaveRejoins(token, '.');
  }

  lemma NoDotInAlphabet(s: string)
    requires InAlphabet(s)
    ensures '.' !in s
  {
  }

  // ── the laws ──

  /** What a signature covers: context, purpose and claims, a line each. */
  function SignedText(purpose: string, payload: string): (t: string) {
    "event-capability-v1\n" + purpose + "\n" + payload
  }

  lemma MessageIsSignedText(purpose: string, payload: string)
    ensures Message(purpose, payload) == SignedText(purpose, payload)
  {
  }

  ghost predicate Genuine(h: Host, secret: string, purpose: string, token: string, payload: string, sig: string) {
    && token == "v1." + payload + "." + sig
    && payload != "" && sig != "" && '.' !in payload
    && Decode(sig) == Some(h.mac(secret, SignedText(purpose, payload)))
  }

  ghost predicate Carries(h: Host, payload: string, c: Claims) {
    Decode(payload).Some? && h.parse(Decode(payload).value) == Some(c)
  }

  /**
   WHAT IS ACCEPTED. Under a secret, exactly the tokens framed as version, payload and
   signature whose signature decodes to the MAC of the expected purpose with the payload,
   and whose payload carries live claims for that purpose; those claims are the answer.
   */
  lemma VerifyAcceptsIff(h: Host, secret: string, expected: string, token: string, now: int, c: Claims)
    ensures Verify(h, secret, expected, token, now) == Ok(c)
       <==> secret != "" && c.purpose == expected && Live(c, now)
            && exists payload, sig :: Genuine(h, secret, expected, token, payload, sig) && Carries(h, payload, c)
  {
    hide Decode, Message, SignedText, SplitN3;
    if Verify(h, secret, expected, token, now) == Ok(c) {
      SplitRejoins(token);
      var (v, p, s) := SplitN3(token);
      MessageIsSignedText(expected, p);
      assert Genuine(h, secret, expected, token, p, s) && Carries(h, p, c);
    }
    if secret != "" && c.purpose == expected && Live(c, now)
       && exists payload, sig :: Genuine(h, secret, expected, token, payload, sig) && Carries(h, payload, c)
    {
      var payload, sig :| Genuine(h, secret, expected, token, payload, sig) && Carries(h, payload, c);
      SplitJoined(payload, sig);
      MessageIsSignedText(expected, payload);
    }
  }

  /** ONE REFUSAL FOR ALL. An unset secret is its own error whatever the token; every other
      refusal is the same. */
  lemma RefusalsAreUniform(h: Host, secret: string, expected: string, token: string, now: int)
    ensures var r := Verify(h, secret, expected, token, now);
            if secret == "" then r == Err(SecretNotConfigured) else r.Ok? || r == Err(EventNotPublished)
  {
    hide Decode, SplitN3;
  }

  lemma MintIsFramed(h: Host, secret: string, c: Claims)
    requires Sound(h) && secret != ""
    ensures var payload := Encode(h.json(c));
            var sig := h.mac(secret, Message(c.purpose, payload));
            && Mint(h, secret, c) == Ok("v1." + payload + "." + Encode(sig))
            && SplitN3("v1." + payload + "." + Encode(sig)) == ("v1", payload, Encode(sig))
            && payload != "" && Encode(sig) != ""
            && Decode(payload) == Some(h.json(c)) && Decode(Encode(sig)) == Some(sig)
  {
    hide Message, SplitN3, Encode, Decode;
    var payload := Encode(h.json(c));
    var sig := h.mac(secret, Message(c.purpose, payload));
    DecodeEncode(h.json(c));
    DecodeEncode(sig);
    EncodedAlphabet(h.json(c));
    NoDotInAlphabet(payload);
    hide Sound;
    SplitJoined(payload, Encode(sig));
  }

  /** ROUND TRIP. Minting needs a secret and nothing else; the token verifies under its own
      purpose to the same claims exactly while it is live. */
  lemma MintedVerifies(h: Host, secret: string, c: Claims, now: int)
    requires Sound(h)
    ensures Mint(h, secret, c).Ok? <==> secret != ""
    ensures secret != "" ==>
              Verify(h, secret, c.purpose, Mint(h, secret, c).value, now)
              == if Live(c, now) then Ok(c) else Err(EventNotPublished)
  {
    hide Message, SplitN3, Encode, Decode;
    if secret != "" { MintIsFramed(h, secret, c); }
  }

  /** A token minted for one purpose never verifies under another, collisions of the MAC
      included: the claims name their purpose. */
  lemma OtherPurposeRefused(h: Host, secret: string, c: Claims, purpose: string, now: int)
    requires Sound(h) && secret != "" && purpose != c.purpose
    ensures Verify(h, secret, purpose, Mint(h, secret, c).value, now) == Err(EventNotPublished)
  {
    hide Message, SplitN3, Encode, Decode;
    MintIsFramed(h, secret, c);
  }

  /** Under another secret it verifies only where the two MACs agree on its message. */
  lemma OtherSecretNeedsACollision(h: Host, secret: string, other: string, c: Claims, now: int)
    requires Sound(h) && secret != "" && other != ""
    ensures var m := Message(c.purpose, Encode(h.json(c)));
            var r := Verify(h, other, c.purpose, Mint(h, secret, c).value, now);
            r.Ok? <==> Live(c, now) && h.mac(other, m) == h.mac(secret, m)
  {
    hide Message, SplitN3, Encode, Decode;
    MintIsFramed(h, secret, c);
  }

  /** DOMAIN SEPARATION. For purposes free of newlines, the signed message determines
      purpose and payload. */
  lemma MessageSeparates(p: string, a: string, q: string, b: string)
    requires '\n' !in p && '\n' !in q
    requires Message(p, a) == Message(q, b)
    ensures p == q && a == b
  {
    var m, n := CAPABILITY_CONTEXT + "\n" + (p + ['\n'] + a), CAPABILITY_CONTEXT + "\n" + (q + ['\n'] + b);
    assert m == Message(p, a) && n == Message(q, b);
    var k := |CAPABILITY_CONTEXT| + 1;
    assert m[k..] == p + ['\n'] + a && n[k..] == q + ['\n'] + b;
    CleaveJoined(p, '\n', a);
    CleaveJoined(q, '\n', b);
  }

  /** The two purposes never sign the same message, whatever the payloads. */
  lemma PurposesSeparate(a: string, b: string)
    ensures Message(PURPOSE_ICS, a) != Message(PURPOSE_TICKET_REPORT, b)
  {
    if Message(PURPOSE_ICS, a) == Message(PURPOSE_TICKET_REPORT, b) {
      MessageSeparates(PURPOSE_ICS, a, PURPOSE_TICKET_REPORT, b);
    }
  }

  // ── the two mints ──

  function IcsClaims(eventId: Uuid, slot: Option<Uuid>, now: int, ttl: int): (c: Claims) {
    Claims(PURPOSE_ICS, now + ttl, [UuidText(eventId)] + if slot.Some? then [UuidText(slot.value)] else [])
  }

  function MintIcs(h: Host, secret: string, eventId: Uuid, slot: Option<Uuid>, now: int, ttl: int)
    : (r: Result<string, Refusal>)
  {
    Mint(h, secret, IcsClaims(eventId, slot, now, ttl))
  }

  /** A token's text: version, claims, and the MAC of context, purpose and claims. */
  function TokenText(h: Host, secret: string, c: Claims): (t: string) {
    var payload := Encode(h.json(c));
    var sig := Encode(h.mac(secret, SignedText(c.purpose, payload)));
    "v1." + payload + "." + sig
  }

  /** When an /ics token opens the feed: until its end, or for ever when that end falls on
      second zero, the value that means never. */
  lemma IcsLifetime(h: Host, secret: string, eventId: Uuid, slot: Option<Uuid>, now: int, ttl: int, at: int)
    requires Sound(h) && secret != ""
    ensures Verify(h, secret, PURPOSE_ICS, MintIcs(h, secret, eventId, slot, now, ttl).value, at)
         == if at < now + ttl || now + ttl == 0 then Ok(IcsClaims(eventId, slot, now, ttl)) else Err(EventNotPublished)
  {
    hide Verify, Mint, Sound, UuidText;
    MintedVerifies(h, secret, IcsClaims(eventId, slot, now, ttl), at);
  }

  function Texts(ids: seq<Uuid>): (s: seq<string>)
    ensures |s| == |ids|
  {
    if ids == [] then [] else [UuidText(ids[0])] + Texts(ids[1..])
  }

  function TicketClaims(eventId: Uuid, ids: seq<Uuid>): (c: Claims) {
    Claims(PURPOSE_TICKET_REPORT, 0, [UuidText(eventId)] + Sort(Texts(ids)))
  }

  function MintTicketReport(h: Host, secret: string, eventId: Uuid, ids: seq<Uuid>): (r: Result<string, Refusal>) {
    Mint(h, secret, TicketClaims(eventId, ids))
  }

  /** Without a secret neither link is minted, and the caller is told so. */
  lemma NoSecretNoLink(h: Host, eventId: Uuid, slot: Option<Uuid>, ids: seq<Uuid>, now: int, ttl: int)
    ensures MintIcs(h, "", eventId, slot, now, ttl) == Err(SecretNotConfigured)
    ensures MintTicketReport(h, "", eventId, ids) == Err(SecretNotConfigured)
  {
    hide Encode, UuidText, Texts, Sort;
  }

  /** THE TWO LINKS, WRITTEN OUT: an /ics link names the event and its slot and ends `ttl` after its minting; a ticket
      link names the event and the sorted ids and never ends. */
  lemma LinkTexts(h: Host, secret: string, eventId: Uuid, slot: Option<Uuid>, ids: seq<Uuid>, now: int, ttl: int)
    requires secret != ""
    ensures slot == None ==>
              MintIcs(h, secret, eventId, slot, now, ttl)
              == Ok(TokenText(h, secret, Claims("event-ics-access", now + ttl, [UuidText(eventId)])))
    ensures slot.Some? ==>
              MintIcs(h, secret, eventId, slot, now, ttl)
              == Ok(TokenText(h, secret,
                              Claims("event-ics-access", now + ttl, [UuidText(eventId), UuidText(slot.value)])))
    ensures exists texts: seq<string> ::
              && Sorted(texts) && multiset(texts) == multiset(Texts(ids))
              && MintTicketReport(h, secret, eventId, ids)
                 == Ok(TokenText(h, secret, Claims("event-registration-ticket-report-access", 0,
                                                   [UuidText(eventId)] + texts)))
  {
    SortSorts(Texts(ids));
    var ics, tickets := IcsClaims(eventId, slot, now, ttl), TicketClaims(eventId, ids);
    assert slot == None ==> ics.data == [UuidText(eventId)];
    assert slot.Some? ==> ics.data == [UuidText(eventId), UuidText(slot.value)];
    hide UuidText, Sort, Sorted, Texts, Mint, TokenText;
    MintedText(h, secret, ics);
    MintedText(h, secret, tickets);
    assert Sorted(Sort(Texts(ids)));
  }

  lemma MintedText(h: Host, secret: string, c: Claims)
    requires secret != ""
    ensures Mint(h, secret, c) == Ok(TokenText(h, secret, c))
  {
    hide Encode, SignedText, Message;
    MessageIsSignedText(c.purpose, Encode(h.json(c)));
  }

  lemma {:induction false} TextsCount(ids: seq<Uuid>, x: Uuid)
    ensures multiset(Texts(ids))[UuidText(x)] == multiset(ids)[x]
  {
    if ids != [] {
      assert ids == [ids[0]] + ids[1..];
      TextsCount(ids[1..], x);
      if UuidText(ids[0]) == UuidText(x) { UuidTextInjective(ids[0], x); }
      hide UuidText;
    }
  }

  lemma {:induction false} TextsAreTexts(ids: seq<Uuid>, t: string)
    requires t in Texts(ids)
    ensures exists x :: x in ids && UuidText(x) == t
  {
    hide UuidText;
    if t == UuidText(ids[0]) {
    } else {
      assert t in Texts(ids[1..]);
      TextsAreTexts(ids[1..], t);
    }
  }

  lemma TextsSameMultiset(a: seq<Uuid>, b: seq<Uuid>)
    ensures multiset(Texts(a)) == multiset(Texts(b)) <==> multiset(a) == multiset(b)
  {
    hide UuidText, Texts;
    if multiset(Texts(a)) == multiset(Texts(b)) {
      forall x ensures multiset(a)[x] == multiset(b)[x] {
        TextsCount(a, x);
        TextsCount(b, x);
      }
    }
    if multiset(a) == multiset(b) {
      forall t ensures multiset(Texts(a))[t] == multiset(Texts(b))[t] {
        if t in Texts(a) {
          TextsAreTexts(a, t);
          var x :| x in a && UuidText(x) == t;
          TextsCount(a, x);
          TextsCount(b, x);
        } else if t in Texts(b) {
          TextsAreTexts(b, t);
          var x :| x in b && UuidText(x) == t;
          TextsCount(a, x);
          TextsCount(b, x);
        }
      }
    }
  }

  lemma MintIsOneToOne(h: Host, secret: string, c: Claims, d: Claims)
    requires Sound(h) && secret != "" && Mint(h, secret, c) == Mint(h, secret, d)
    ensures c == d
  {
    hide Message, SplitN3, Encode, Decode;
    MintIsFramed(h, secret, c);
    MintIsFramed(h, secret, d);
    assert h.parse(h.json(c)) == Some(c) && h.parse(h.json(d)) == Some(d);
  }

  /** THE TICKET TOKEN IS THE SET'S. Two mints give the same token exactly when they name
      the same event and the same registrations, in whatever order. */
  lemma TicketTokenIgnoresOrder(h: Host, secret: string, e: Uuid, a: seq<Uuid>, f: Uuid, b: seq<Uuid>)
    requires Sound(h) && secret != ""
    ensures MintTicketReport(h, secret, e, a) == MintTicketReport(h, secret, f, b)
        <==> e == f && multiset(a) == multiset(b)
  {
    hide UuidText, Mint, Sound, Texts, Sort;
    TextsSameMultiset(a, b);
    if e == f && multiset(a) == multiset(b) {
      SortIgnoresOrder(Texts(a), Texts(b));
    }
    if MintTicketReport(h, secret, e, a) == MintTicketReport(h, secret, f, b) {
      var c, d := TicketClaims(e, a), TicketClaims(f, b);
      MintIsOneToOne(h, secret, c, d);
      assert c.data[0] == d.data[0] && c.data[1..] == Sort(Texts(a)) && d.data[1..] == Sort(Texts(b));
      UuidTextInjective(e, f);
      SortSorts(Texts(a));
      SortSorts(Texts(b));
    }
  }
}
