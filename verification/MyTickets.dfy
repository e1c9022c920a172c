/** The ticket report: the rows a ticket token pins, and no others. */
module MyTickets {
  import opened Wrappers
  import opened Text
  import opened Capability
  import opened EventReads

  datatype Row = Row(id: Uuid, eventId: Uuid, name: string, state: string, barcode: string)

  datatype TicketView = TicketView(registrationId: Uuid, eventId: Uuid, eventName: string, begin: int, end: int,
                                   tz: string, attendeeName: string, state: string, barcode: string)

  datatype TicketReport = TicketReport(eventId: Uuid, eventName: string, begin: int, end: int, tz: string,
                                       badgeFormat: string, tickets: seq<TicketView>)

  /** The tables, `row` answering None for a missing row and for a failed read alike, as the report takes
      them, and the library's uuid parser. */
  datatype Store = Store(event: Uuid -> Read<Event>, row: Uuid -> Option<Row>, parse: string -> Option<Uuid>)

  /** Rows are found under their own ids, and a printed uuid parses back. */
  ghost predicate Keyed(st: Store) {
    && (forall id :: st.row(id).Some? ==> st.row(id).value.id == id)
    && (forall id :: st.event(id).Found? ==> st.event(id).value.id == id)
    && (forall id: Uuid :: st.parse(UuidText(id)) == Some(id))
  }

  function TicketOf(e: Event, r: Row): (t: TicketView) {
    TicketView(r.id, e.id, e.name, e.begin, e.end, e.tz, r.name, r.state, r.barcode)
  }

  function Pinned(st: Store, data: seq<string>): (ids: seq<Uuid>) {
    if data == [] then []
    else
      match st.parse(data[0])
      case None => Pinned(st, data[1..])
      case Some(id) => [id] + Pinned(st, data[1..])
  }

  /** The pinned id resolves to a row of this event. */
  predicate Resolves(st: Store, eventId: Uuid, id: Uuid) {
    st.row(id).Some? && st.row(id).value.eventId == eventId
  }

  function Resolving(st: Store, eventId: Uuid, ids: seq<Uuid>): (s: seq<Uuid>)
    ensures forall id :: id in s ==> Resolves(st, eventId, id) && st.row(id).Some?
  {
    if ids == [] then []
    else (if Resolves(st, eventId, ids[0]) then [ids[0]] else []) + Resolving(st, eventId, ids[1..])
  }

  function Tickets(st: Store, e: Event, ids: seq<Uuid>): (s: seq<TicketView>)
    requires forall id :: id in ids ==> st.row(id).Some?
    ensures |s| == |ids| && forall i :: 0 <= i < |ids| ==> s[i] == TicketOf(e, st.row(ids[i]).value)
  {
    seq(|ids|, i requires 0 <= i < |ids| => TicketOf(e, st.row(ids[i]).value))
  }

  /** The report the claims grant. */
  function Granted(st: Store, c: Claims): (r: Result<TicketReport, Refusal>) {
    if c.data == [] || st.parse(c.data[0]) == None then Err(EventNotPublished)
    else
      var eventId := st.parse(c.data[0]).value;
      match FindPublished(st.event, eventId)
      case Absent => Err(EventNotPublished)
      case Down => Err(Internal)
      case Found(e) =>
        Ok(TicketReport(e.id, e.name, e.begin, e.end, e.tz, e.badgeFormat,
                        Tickets(st, e, Resolving(st, eventId, Pinned(st, c.data[1..])))))
  }

  lemma {:induction false} PinnedAppends(st: Store, a: seq<string>, x: string)
    ensures Pinned(st, a + [x]) == Pinned(st, a) + if st.parse(x).Some? then [st.parse(x).value] else []
    decreases |a|
  {
    if a != [] {
      assert (a + [x])[1..] == a[1..] + [x];
      PinnedAppends(st, a[1..], x);
    } else {
      assert [x][1..] == [];
    }
  }

  lemma {:induction false} ResolvingAppends(st: Store, eventId: Uuid, a: seq<Uuid>, x: Uuid)
    ensures Resolving(st, eventId, a + [x]) == Resolving(st, eventId, a) + if Resolves(st, eventId, x) then [x] else []
    decreases |a|
  {
    hide Resolves;
    if a != [] {
      assert (a + [x])[1..] == a[1..] + [x] && (a + [x])[0] == a[0];
      ResolvingAppends(st, eventId, a[1..], x);
    } else {
      assert (a + [x])[1..] == [] && (a + [x])[0] == x;
      assert Resolving(st, eventId, []) == [];
    }
  }

  method PinnedIds(st: Store, data: seq<string>) returns (ids: seq<Uuid>)
    ensures ids == Pinned(st, data)
  {
    ids := [];
    for i := 0 to |data|
      invariant ids == Pinned(st, data[..i])
    {
      assert data[..i + 1] == data[..i] + [data[i]];
      PinnedAppends(st, data[..i], data[i]);
      var id := st.parse(data[i]);
      if id.Some? { ids := ids + [id.value]; }
    }
    assert data[..|data|] == data;
  }

  method PinnedRows(st: Store, event: Event, eventId: Uuid, pinned: seq<Uuid>) returns (tickets: seq<TicketView>)
    ensures tickets == Tickets(st, event, Resolving(st, eventId, pinned))
  {
    hide Resolves;
    tickets := [];
    for i := 0 to |pinned|
      invariant tickets == Tickets(st, event, Resolving(st, eventId, pinned[..i]))
    {
      assert pinned[..i + 1] == pinned[..i] + [pinned[i]];
      ResolvingAppends(st, eventId, pinned[..i], pinned[i]);
      ResolvesMeans(st, eventId, pinned[i]);
      hide Resolving;
      var row := st.row(pinned[i]);
      if row.Some? && row.value.eventId == eventId { tickets := tickets + [TicketOf(event, row.value)]; }
    }
    assert pinned[..|pinned|] == pinned;
  }

  /** The gated read. */
  method Report(h: Host, st: Store, secret: string, token: string, now: int) returns (r: Result<TicketReport, Refusal>)
    ensures r == match Verify(h, secret, PURPOSE_TICKET_REPORT, token, now)
                 case Err(e) => Err(e)
                 case Ok(c) => Granted(st, c)
  {
    hide Verify, Resolves, Resolving, Pinned;
    var claims := Verify(h, secret, PURPOSE_TICKET_REPORT, token, now);
    if claims.Err? { return Err(claims.error); }
    var data := claims.value.data;
    if data == [] || st.parse(data[0]) == None { return Err(EventNotPublished); }
    var eventId := st.parse(data[0]).value;
    var pinned := PinnedIds(st, data[1..]);
    var published := FindPublished(st.event, eventId);
    if published == Absent { return Err(EventNotPublished); }
    if published == Down { return Err(Internal); }
    var event := published.value;
    var tickets := PinnedRows(st, event, eventId, pinned);
    r := Ok(TicketReport(event.id, event.name, event.begin, event.end, event.tz, event.badgeFormat, tickets));
  }

  lemma ResolvesMeans(st: Store, eventId: Uuid, id: Uuid)
    ensures Resolves(st, eventId, id) <==> st.row(id).Some? && st.row(id).value.eventId == eventId
  {
  }

  // ── what a minted ticket link shows ──

  /** Ids in the order of their printed form. */
  ghost predicate InTextOrder(ids: seq<Uuid>) {
    forall i, j :: 0 <= i < j < |ids| ==> !StrLess(UuidText(ids[j]), UuidText(ids[i]))
  }

  lemma {:induction false} PinnedTexts(st: Store, ids: seq<Uuid>)
    requires Keyed(st)
    ensures Pinned(st, Texts(ids)) == ids
  {
    if ids != [] {
      hide UuidText;
      PinnedTexts(st, ids[1..]);
      assert Texts(ids)[1..] == Texts(ids[1..]);
    }
  }

  /** Sorting the texts of ids is sorting the ids: some arrangement of them prints so. */
  lemma {:induction false} TextsRearranged(texts: seq<string>, ids: seq<Uuid>)
    requires multiset(texts) == multiset(Texts(ids))
    ensures exists p: seq<Uuid> :: Texts(p) == texts && multiset(p) == multiset(ids)
    decreases |texts|
  {
    hide UuidText;
    assert |texts| == |multiset(texts)| == |multiset(Texts(ids))| == |ids|;
    assert forall t :: t in texts ==> t in multiset(texts);
    var p := Printed(texts, ids);
    TextsSameMultiset(p, ids);
  }

  lemma {:induction false} Printed(texts: seq<string>, ids: seq<Uuid>) returns (p: seq<Uuid>)
    requires forall t :: t in texts ==> t in Texts(ids)
    ensures Texts(p) == texts
  {
    hide UuidText;
    p := [];
    if texts != [] {
      assert texts[0] in Texts(ids);
      TextsAreTexts(ids, texts[0]);
      var x :| x in ids && UuidText(x) == texts[0];
      var q := Printed(texts[1..], ids);
      p := [x] + q;
      assert texts == [texts[0]] + texts[1..];
    }
  }

  lemma {:induction false} ResolvingCounts(st: Store, eventId: Uuid, ids: seq<Uuid>, x: Uuid)
    ensures multiset(Resolving(st, eventId, ids))[x] == if Resolves(st, eventId, x) then multiset(ids)[x] else 0
  {
    if ids != [] {
      hide Resolves;
      assert ids == [ids[0]] + ids[1..];
      ResolvingCounts(st, eventId, ids[1..], x);
    }
  }

  lemma {:induction false} ResolvingKeepsOrder(st: Store, eventId: Uuid, ids: seq<Uuid>)
    requires InTextOrder(ids)
    ensures InTextOrder(Resolving(st, eventId, ids)) && forall x :: x in Resolving(st, eventId, ids) ==> x in ids
  {
    if ids != [] {
      hide UuidText, Resolves, StrLess;
      assert ids == [ids[0]] + ids[1..];
      forall i, j | 0 <= i < j < |ids[1..]| ensures !StrLess(UuidText(ids[1..][j]), UuidText(ids[1..][i])) {
        assert ids[1..][j] == ids[j + 1] && ids[1..][i] == ids[i + 1];
      }
      ResolvingKeepsOrder(st, eventId, ids[1..]);
      var r := Resolving(st, eventId, ids[1..]);
      forall j | 0 <= j < |r| ensures !StrLess(UuidText(r[j]), UuidText(ids[0])) {
        assert r[j] in ids[1..];
      }
    }
  }

  /** The report is headed by the event and lists exactly these rows' tickets. */
  ghost predicate Lists(st: Store, report: TicketReport, e: Event, shown: seq<Uuid>) {
    && report.eventId == e.id && report.eventName == e.name && report.begin == e.begin && report.end == e.end
    && report.tz == e.tz && report.badgeFormat == e.badgeFormat
    && |report.tickets| == |shown|
    && forall i :: 0 <= i < |shown| ==> ShowsRow(st, report.tickets[i], e, shown[i])
  }

  /** The event's columns and the row's own. */
  ghost predicate ShowsRow(st: Store, t: TicketView, e: Event, id: Uuid) {
    && st.row(id).Some? && t.registrationId == id
    && t.eventId == e.id && t.eventName == e.name && t.begin == e.begin && t.end == e.end && t.tz == e.tz
    && t.attendeeName == st.row(id).value.name && t.state == st.row(id).value.state
    && t.barcode == st.row(id).value.barcode
  }

  /** What the token's ids come to: each as often as it was pinned if it resolves to a row of
      the event, not at all otherwise, in the order of their printed form. */
  ghost predicate Shown(st: Store, eventId: Uuid, ids: seq<Uuid>, shown: seq<Uuid>) {
    && InTextOrder(shown)
    && forall x ::
         multiset(shown)[x]
         == if st.row(x).Some? && st.row(x).value.eventId == eventId then multiset(ids)[x] else 0
  }

  lemma SortedTextsInOrder(p: seq<Uuid>)
    requires Sorted(Texts(p))
    ensures InTextOrder(p)
  {
    hide UuidText, StrLess;
    forall i | 0 <= i < |p| ensures Texts(p)[i] == UuidText(p[i]) { TextAt(p, i); }
  }

  lemma {:induction false} TextAt(p: seq<Uuid>, i: nat)
    requires i < |p|
    ensures Texts(p)[i] == UuidText(p[i])
  {
    hide UuidText;
    if i > 0 { TextAt(p[1..], i - 1); }
  }

  /**
   THE REPORT OF A MINTED TICKET LINK, at any later time: refused when the event is not
   published, and otherwise exactly the pinned registrations that resolve to rows of that
   event.
   */
  lemma MintedReport(h: Host, st: Store, secret: string, eventId: Uuid, ids: seq<Uuid>, now: int)
    requires Sound(h) && Keyed(st) && secret != ""
    ensures var v := Verify(h, secret, PURPOSE_TICKET_REPORT, MintTicketReport(h, secret, eventId, ids).value, now);
            && v == Ok(TicketClaims(eventId, ids))
            && match FindPublished(st.event, eventId)
               case Absent => Granted(st, v.value) == Err(EventNotPublished)
               case Down => Granted(st, v.value) == Err(Internal)
               case Found(e) =>
                 Granted(st, v.value).Ok?
                 && exists shown :: Shown(st, eventId, ids, shown) && Lists(st, Granted(st, v.value).value, e, shown)
  {
    hide Verify, Mint, Sound, UuidText, Sort, StrLess, Texts, Resolves;
    var c := TicketClaims(eventId, ids);
    MintedVerifies(h, secret, c, now);
    assert c.data[1..] == Sort(Texts(ids));
    SortSorts(Texts(ids));
    TextsRearranged(Sort(Texts(ids)), ids);
    var p: seq<Uuid> :| Texts(p) == Sort(Texts(ids)) && multiset(p) == multiset(ids);
    PinnedTexts(st, p);
    SortedTextsInOrder(p);
    var shown := Resolving(st, eventId, p);
    ResolvingIsShown(st, eventId, p, ids);
    hide Pinned, Resolving, InTextOrder, Sorted, Shown, Lists;
    var published := FindPublished(st.event, eventId);
    if published.Found? {
      ShownIsListed(st, published.value, eventId, shown);
      var e := published.value;
      assert Granted(st, c)
          == Ok(TicketReport(e.id, e.name, e.begin, e.end, e.tz, e.badgeFormat, Tickets(st, e, shown)));
      assert Shown(st, eventId, ids, shown) && Lists(st, Granted(st, c).value, published.value, shown);
    }
  }

  lemma ResolvingIsShown(st: Store, eventId: Uuid, p: seq<Uuid>, ids: seq<Uuid>)
    requires InTextOrder(p) && multiset(p) == multiset(ids)
    ensures Shown(st, eventId, ids, Resolving(st, eventId, p))
  {
    ResolvingKeepsOrder(st, eventId, p);
    var shown := Resolving(st, eventId, p);
    forall x ensures multiset(shown)[x] == if Resolves(st, eventId, x) then multiset(ids)[x] else 0 {
      ResolvingCounts(st, eventId, p, x);
    }
    hide Resolving, InTextOrder;
  }

  lemma ShownIsListed(st: Store, e: Event, eventId: Uuid, shown: seq<Uuid>)
    requires Keyed(st) && forall id :: id in shown ==> Resolves(st, eventId, id)
    ensures forall id :: id in shown ==> st.row(id).Some?
    ensures Lists(st, TicketReport(e.id, e.name, e.begin, e.end, e.tz, e.badgeFormat, Tickets(st, e, shown)), e, shown)
  {
    hide UuidText;
  }

  /** Whatever token was accepted, the report shows only pinned ids and only rows of the
      event it names. */
  lemma OnlyPinnedRows(st: Store, c: Claims, t: TicketView)
    requires Keyed(st) && Granted(st, c).Ok? && t in Granted(st, c).value.tickets
    ensures exists i :: 1 <= i < |c.data| && st.parse(c.data[i]) == Some(t.registrationId)
    ensures st.row(t.registrationId).Some?
        && st.row(t.registrationId).value.eventId == Granted(st, c).value.eventId
        && st.parse(c.data[0]) == Some(Granted(st, c).value.eventId)
  {
    assert t.registrationId in Pinned(st, c.data[1..])
        && Resolves(st, Granted(st, c).value.eventId, t.registrationId) by {
      PinnedRow(st, c, t);
    }
    PinnedSomewhere(st, c.data[1..], t.registrationId);
    var i :| 0 <= i < |c.data[1..]| && st.parse(c.data[1..][i]) == Some(t.registrationId);
    assert c.data[i + 1] == c.data[1..][i];
    hide Pinned, UuidText, Resolving;
  }

  lemma {:induction false} PinnedSomewhere(st: Store, data: seq<string>, x: Uuid)
    requires x in Pinned(st, data)
    ensures exists i :: 0 <= i < |data| && st.parse(data[i]) == Some(x)
  {
    if st.parse(data[0]) != Some(x) {
      PinnedSomewhere(st, data[1..], x);
      var i :| 0 <= i < |data[1..]| && st.parse(data[1..][i]) == Some(x);
      assert data[i + 1] == data[1..][i];
    }
  }

  lemma PinnedRow(st: Store, c: Claims, t: TicketView)
    requires Keyed(st) && Granted(st, c).Ok? && t in Granted(st, c).value.tickets
    ensures t.registrationId in Pinned(st, c.data[1..])
    ensures Resolves(st, Granted(st, c).value.eventId, t.registrationId)
  {
    hide Pinned, UuidText;
    var eventId := st.parse(c.data[0]).value;
    var pinned := Pinned(st, c.data[1..]);
    ResolvingWithin(st, eventId, pinned);
    var shown := Resolving(st, eventId, pinned);
    var report := Granted(st, c).value;
    hide Resolving, Resolves;
    var i :| 0 <= i < |report.tickets| && report.tickets[i] == t;
    assert t.registrationId == shown[i] && shown[i] in shown;
  }

  lemma {:induction false} ResolvingWithin(st: Store, eventId: Uuid, ids: seq<Uuid>)
    ensures forall x :: x in Resolving(st, eventId, ids) ==> x in ids
  {
    if ids != [] {
      hide Resolves;
      assert ids == [ids[0]] + ids[1..];
      ResolvingWithin(st, eventId, ids[1..]);
    }
  }
}
