/** The gated /ics read: token, slot scope, publication, body, every failure alike. */
module IcsFeed {
  import opened Wrappers
  import opened Text
  import opened Capability
  import opened EventReads
  import opened Ics

  datatype Feed = Feed(eventId: Uuid, slotId: Option<Uuid>, body: string)

  datatype Store = Store(event: Uuid -> Read<Event>, slot: Uuid -> Read<Slot>, parse: string -> Option<Uuid>,
                         printer: Printer)

  ghost predicate Keyed(st: Store) {
    && (forall id :: st.event(id).Found? ==> st.event(id).value.id == id)
    && (forall id: Uuid :: st.parse(UuidText(id)) == Some(id))
    && Stamps(st.printer)
  }

  /** The slot scope of the claims: none, or a slot of the event; Absent when it is neither. */
  function Scope(st: Store, c: Claims, eventId: Uuid): (w: EventReads.Read<Option<SlotWindow>>) {
    if |c.data| < 2 then Found(None)
    else
      match st.parse(c.data[1])
      case None => Absent
      case Some(id) =>
        match SlotWindowOfEvent(st.slot, id, eventId)
        case Found(w) => Found(Some(w))
        case Absent => Absent
        case Down => Down
  }

  function Granted(st: Store, c: Claims, stampedAt: int): (r: Result<Feed, Refusal>) {
    if c.data == [] || st.parse(c.data[0]) == None then Err(EventNotPublished)
    else
      var eventId := st.parse(c.data[0]).value;
      match Scope(st, c, eventId)
      case Absent => Err(EventNotPublished)
      case Down => Err(Internal)
      case Found(window) =>
        match FindPublished(st.event, eventId)
        case Absent => Err(EventNotPublished)
        case Down => Err(Internal)
        case Found(e) =>
          var slotId := if window.Some? then Some(window.value.slotId) else None;
          Ok(Feed(eventId, slotId, BuildIcs(e, window, stampedAt, st.printer)))
  }

  function Feeds(h: Host, st: Store, secret: string, token: string, now: int, stampedAt: int)
    : (r: Result<Feed, Refusal>)
  {
    match Verify(h, secret, PURPOSE_ICS, token, now)
    case Err(e) => Err(e)
    case Ok(c) => Granted(st, c, stampedAt)
  }

  /** Some read of the feed's failed. */
  ghost predicate SomeReadDown(st: Store) {
    exists id :: st.event(id).Down? || st.slot(id).Down?
  }

  /** NO ORACLE. Under a secret and with the database answering, every failed read, whatever failed, is
      the same refusal; a database failure is told apart, but only behind a token that verified. */
  lemma FailuresAreUniform(h: Host, st: Store, secret: string, token: string, now: int, stampedAt: int)
    requires secret != ""
    ensures var r := Feeds(h, st, secret, token, now, stampedAt);
            && (r.Ok? || r == Err(EventNotPublished) || r == Err(Internal))
            && (r == Err(Internal) ==> Verify(h, secret, PURPOSE_ICS, token, now).Ok? && SomeReadDown(st))
  {
    RefusalsAreUniform(h, secret, PURPOSE_ICS, token, now);
    hide Verify, BuildIcs;
  }

  ghost predicate Open(st: Store, eventId: Uuid, slot: Option<Uuid>) {
    && st.event(eventId).Found? && st.event(eventId).value.published && !st.event(eventId).value.cancelled
    && (slot.Some? ==> st.slot(slot.value).Found? && st.slot(slot.value).value.eventId == eventId)
  }

  /** The hours a token is scoped to: its slot's, an open end being its beginning. */
  function HoursOf(st: Store, slot: Option<Uuid>): (w: Option<SlotWindow>)
    requires slot.Some? ==> st.slot(slot.value).Found?
  {
    if slot == None then None
    else
      var row := st.slot(slot.value).value;
      Some(SlotWindow(slot.value, row.begin, if row.end == None then row.begin else row.end.value))
  }

  /** The feed shows this event, over the slot's hours if there is one. */
  ghost predicate Shows(st: Store, feed: Feed, e: Event, slot: Option<Uuid>, stampedAt: int)
    requires slot.Some? ==> st.slot(slot.value).Found?
  {
    && feed.eventId == e.id && feed.slotId == slot
    && match slot
       case None => Calendar(Parse(feed.body), e.id, None, e.name, e.begin, e.end, stampedAt, st.printer)
       case Some(id) =>
         var row := st.slot(id).value;
         var end := match row.end case None => row.begin case Some(t) => t;
         Calendar(Parse(feed.body), e.id, slot, e.name, row.begin, end, stampedAt, st.printer)
  }

  /**
   WHEN A MINTED LINK OPENS, AND WHAT IT SHOWS: exactly while it is live, its event is
   published and its slot, if any, is the event's; the body then reads back to that event's
   lines and name, over the slot's hours if there is one.
   */
  lemma MintedFeed(h: Host, st: Store, secret: string, eventId: Uuid, slot: Option<Uuid>, minted: int, ttl: int,
                   now: int, stampedAt: int)
    requires Sound(h) && Keyed(st) && secret != ""
    ensures var r := Feeds(h, st, secret, MintIcs(h, secret, eventId, slot, minted, ttl).value, now, stampedAt);
            && (r.Ok? <==> (now < minted + ttl || minted + ttl == 0) && Open(st, eventId, slot))
            && (r.Ok? ==> Shows(st, r.value, st.event(eventId).value, slot, stampedAt))
  {
    hide Verify, Mint, MintIcs, UuidText, BuildIcs, Parse, Shows, Sound, Granted;
    IcsLifetime(h, secret, eventId, slot, minted, ttl, now);
    MintedGrant(st, eventId, slot, minted, ttl, stampedAt);
  }

  lemma MintedScope(st: Store, eventId: Uuid, slot: Option<Uuid>, minted: int, ttl: int)
    requires Keyed(st)
    ensures var c := IcsClaims(eventId, slot, minted, ttl);
            && c.data != [] && st.parse(c.data[0]) == Some(eventId)
            && (Scope(st, c, eventId).Found?
                <==> (slot.Some? ==> st.slot(slot.value).Found? && st.slot(slot.value).value.eventId == eventId))
            && (Scope(st, c, eventId).Found? ==> Scope(st, c, eventId).value == HoursOf(st, slot))
  {
    hide UuidText;
  }

  lemma MintedGrant(st: Store, eventId: Uuid, slot: Option<Uuid>, minted: int, ttl: int, stampedAt: int)
    requires Keyed(st)
    ensures var r := Granted(st, IcsClaims(eventId, slot, minted, ttl), stampedAt);
            && (r.Ok? <==> Open(st, eventId, slot))
            && (r.Ok? ==> Shows(st, r.value, st.event(eventId).value, slot, stampedAt))
  {
    hide UuidText, BuildIcs, Parse, Calendar, Scope, IcsClaims;
    MintedScope(st, eventId, slot, minted, ttl);
    if Open(st, eventId, slot) {
      BodyReadsAs(st.event(eventId).value, HoursOf(st, slot), stampedAt, st.printer);
    }
  }
}
