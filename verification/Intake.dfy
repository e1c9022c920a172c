/** The guarded intake: two throttles, then the one register verb. */
module Intake {
  import opened Wrappers
  import opened Text
  import opened Registrations
  import opened Throttle

  datatype Payload = Payload(name: string, email: string, phone: Option<string>, companyName: Option<string>,
                             slot: Option<Uuid>, ticket: Option<Uuid>)

  datatype Throttles = Throttles(perIdentityMax: nat, perIdentityWindow: nat, perIpMax: nat, perIpWindow: nat)

  const DEFAULT_THROTTLES := Throttles(5, 3600, 30, 3600)

  /** A request, the caller's address, and the clock at its two throttle reads. */
  datatype Request = Request(eventId: Uuid, payload: Payload, ip: string, at: nat, later: nat)

  datatype Error = EventThrottled(retryAfterSecs: nat) | Refused(reason: string)

  type Lower = string -> string

  function IdentityKey(lower: Lower, email: string): (k: string) {
    "identity:" + lower(email)
  }

  function IpKey(ip: string): (k: string) {
    "ip:" + ip
  }

  lemma KeysNeverCollide(lower: Lower, email: string, ip: string)
    ensures IdentityKey(lower, email) != IpKey(ip)
  {
    assert IdentityKey(lower, email)[1] == 'd' && IpKey(ip)[1] == 'p';
  }

  lemma IpKeysDiffer(ip: string, other: string)
    requires IpKey(ip) == IpKey(other)
    ensures ip == other
  {
    assert IpKey(ip)[3..] == ip && IpKey(other)[3..] == other;
  }

  function IdentityLimit(th: Throttles): (l: Limit) {
    Limit(th.perIdentityMax, th.perIdentityWindow)
  }

  function IpLimit(th: Throttles): (l: Limit) {
    Limit(th.perIpMax, th.perIpWindow)
  }

  /** Which of the two limits a key is under. */
  function PolicyOf(th: Throttles): (p: Policy) {
    (key: string) => if |key| > 1 && key[1] == 'd' then IdentityLimit(th) else IpLimit(th)
  }

  /** The smaller window, at least a second, cut to 32 bits. */
  function RetryAfter(th: Throttles): (secs: nat) {
    var least := if th.perIdentityWindow < th.perIpWindow then th.perIdentityWindow else th.perIpWindow;
    (if least < 1 then 1 else least) % 0x1_0000_0000
  }

  /** The command carries the admitted fields; a party is never named, and the lead queue is
      armed. */
  function CommandOf(r: Request): (c: RegisterCommand) {
    RegisterCommand(r.eventId, r.payload.slot, r.payload.ticket, r.payload.name, r.payload.email, r.payload.phone,
                    r.payload.companyName, None, false)
  }

  /** The throttle calls a request makes: the identity's, then the address's if that passed. */
  function CallsOf(t: Table, th: Throttles, lower: Lower, r: Request): (calls: seq<Call>) {
    var first := Call(IdentityKey(lower, r.payload.email), r.at);
    [first] + if Step(t, PolicyOf(th), first).1 then [Call(IpKey(r.ip), r.later)] else []
  }

  /** The table afterwards, and whether the request went through to the register verb. */
  function Guard(t: Table, th: Throttles, lower: Lower, r: Request): (g: (Table, bool)) {
    var (t1, known) := Step(t, PolicyOf(th), Call(IdentityKey(lower, r.payload.email), r.at));
    if !known then (t1, false) else Step(t1, PolicyOf(th), Call(IpKey(r.ip), r.later))
  }

  class IntakeService<Row> {
    const windows: FixedWindows
    const throttles: Throttles
    const lower: Lower
    /** The commands the register verb was called with. */
    ghost var registered: seq<RegisterCommand>

    constructor (throttles: Throttles, lower: Lower)
      ensures fresh(windows) && windows.inner == map[] && registered == []
      ensures this.throttles == throttles && this.lower == lower
    {
      windows := new FixedWindows();
      this.throttles, this.lower, registered := throttles, lower, [];
    }

    /** `register` is what the register verb answers if it is called. */
    method Intake(r: Request, register: Result<Row, Error>) returns (result: Result<Row, Error>)
      modifies this, windows
      ensures var (t, passed) := Guard(old(windows.inner), throttles, lower, r);
              && windows.inner == t
              && registered == (if passed then old(registered) + [CommandOf(r)] else old(registered))
              && result == (if passed then register else Err(EventThrottled(RetryAfter(throttles))))
    {
      hide HitWindow;
      var ok := windows.Allow(IdentityKey(lower, r.payload.email), throttles.perIdentityMax,
          throttles.perIdentityWindow, r.at);
      if ok { ok := windows.Allow(IpKey(r.ip), throttles.perIpMax, throttles.perIpWindow, r.later); }
      if !ok { return Err(EventThrottled(RetryAfter(throttles))); }
      registered := registered + [CommandOf(r)];
      result := register;
    }
  }

  // ── what one request charges ──

  /** Hits already charged to the window open at `now`. */
  function Charged(t: Table, key: string, l: Limit, now: nat): (n: nat) {
    if key in t && Sub(now, t[key].start) < l.window then t[key].count else 0
  }

  /** EXACTLY ONE HIT EACH. A request that goes through adds one hit to its identity and one
      to its address; refused for its identity it leaves its address alone; refused for its
      address it has paid for its identity all the same. No other key moves. */
  lemma GuardCharges(t: Table, th: Throttles, lower: Lower, r: Request)
    ensures var (t', passed) := Guard(t, th, lower, r);
            var who, whence := IdentityKey(lower, r.payload.email), IpKey(r.ip);
            var spent, used := Charged(t, who, IdentityLimit(th), r.at), Charged(t, whence, IpLimit(th), r.later);
            && (passed <==> spent < th.perIdentityMax && used < th.perIpMax)
            && who in t' && t'[who].count == (if spent < th.perIdentityMax then spent + 1 else spent)
            && (spent >= th.perIdentityMax ==> Throttle.Lookup(t', whence) == Throttle.Lookup(t, whence))
            && (spent < th.perIdentityMax ==>
                whence in t' && t'[whence].count == if used < th.perIpMax then used + 1 else used)
            && forall k :: k != who && k != whence ==> Throttle.Lookup(t', k) == Throttle.Lookup(t, k)
  {
    KeysNeverCollide(lower, r.payload.email, r.ip);
  }

  // ── whole runs ──

  /** Every throttle call of a run. */
  function Calls(t: Table, th: Throttles, lower: Lower, rs: seq<Request>): (calls: seq<Call>)
    decreases |rs|
  {
    if rs == [] then [] else CallsOf(t, th, lower, rs[0]) + Calls(Guard(t, th, lower, rs[0]).0, th, lower, rs[1..])
  }

  /** The requests that reached the register verb. */
  function Served(t: Table, th: Throttles, lower: Lower, rs: seq<Request>): (s: seq<Request>)
    decreases |rs|
  {
    if rs == [] then []
    else
      var (t', passed) := Guard(t, th, lower, rs[0]);
      (if passed then [rs[0]] else []) + Served(t', th, lower, rs[1..])
  }

  /** How many come from an address, throttled at from <= time < from + width. */
  function FromIp(rs: seq<Request>, ip: string, from: nat, width: nat): (n: nat) {
    if rs == [] then 0
    else FromIp(rs[1..], ip, from, width) + if rs[0].ip == ip && from <= rs[0].later < from + width then 1 else 0
  }

  /** How many bear an identity, throttled at from <= time < from + width. */
  function FromIdentity(rs: seq<Request>, lower: Lower, key: string, from: nat, width: nat): (n: nat) {
    if rs == [] then 0
    else FromIdentity(rs[1..], lower, key, from, width)
         + if IdentityKey(lower, rs[0].payload.email) == key && from <= rs[0].at < from + width then 1 else 0
  }

  /** Hits accepted for a key among a run's calls. */
  function Accepted(t: Table, p: Policy, calls: seq<Call>, key: string, from: nat, width: nat): (n: nat) {
    Accepts(TimesOf(key, calls), DecisionsOf(key, calls, Decisions(t, p, calls)), from, width)
  }

  lemma AcceptedFirst(t: Table, p: Policy, calls: seq<Call>, key: string, from: nat, width: nat)
    requires calls != []
    ensures var (t', ok) := Step(t, p, calls[0]);
            Accepted(t, p, calls, key, from, width)
            == Accepted(t', p, calls[1..], key, from, width)
               + if calls[0].key == key && ok && from <= calls[0].now < from + width then 1 else 0
  {
    hide HitWindow;
    var times, ds := TimesOf(key, calls), DecisionsOf(key, calls, Decisions(t, p, calls));
    if calls[0].key == key {
      assert times[1..] == TimesOf(key, calls[1..]);
      assert ds[1..] == DecisionsOf(key, calls[1..], Decisions(t, p, calls)[1..]);
    } else {
      assert times == TimesOf(key, calls[1..]);
      assert ds == DecisionsOf(key, calls[1..], Decisions(t, p, calls)[1..]);
    }
  }

  /** What one request adds to a key's accepted hits. */
  lemma AcceptedRequest(t: Table, th: Throttles, lower: Lower, r: Request, rest: seq<Call>, key: string, from: nat,
                        width: nat)
    ensures var p := PolicyOf(th);
            var who := Call(IdentityKey(lower, r.payload.email), r.at);
            var known := Step(t, p, who).1;
            var (t', passed) := Guard(t, th, lower, r);
            Accepted(t, p, CallsOf(t, th, lower, r) + rest, key, from, width)
            == Accepted(t', p, rest, key, from, width)
               + (if who.key == key && known && from <= r.at < from + width then 1 else 0)
               + (if IpKey(r.ip) == key && passed && from <= r.later < from + width then 1 else 0)
  {
    hide Accepted, Step, IdentityKey, IpKey, PolicyOf;
    var p := PolicyOf(th);
    var calls := CallsOf(t, th, lower, r) + rest;
    var who := Call(IdentityKey(lower, r.payload.email), r.at);
    var (t1, known) := Step(t, p, who);
    AcceptedFirst(t, p, calls, key, from, width);
    if known {
      var whence := Call(IpKey(r.ip), r.later);
      assert calls[1..] == [whence] + rest;
      AcceptedFirst(t1, p, [whence] + rest, key, from, width);
      assert ([whence] + rest)[1..] == rest;
    } else {
      assert calls[1..] == rest;
    }
  }

  lemma {:induction false} ServedAreIpAccepts(t: Table, th: Throttles, lower: Lower, rs: seq<Request>, ip: string,
                                              from: nat, width: nat)
    ensures FromIp(Served(t, th, lower, rs), ip, from, width)
         == Accepted(t, PolicyOf(th), Calls(t, th, lower, rs), IpKey(ip), from, width)
    decreases |rs|
  {
    if rs != [] {
      hide Step, Accepted, CallsOf, IpKey, IdentityKey;
      var (t', passed) := Guard(t, th, lower, rs[0]);
      ServedAreIpAccepts(t', th, lower, rs[1..], ip, from, width);
      AcceptedRequest(t, th, lower, rs[0], Calls(t', th, lower, rs[1..]), IpKey(ip), from, width);
      KeysNeverCollide(lower, rs[0].payload.email, ip);
      if IpKey(rs[0].ip) == IpKey(ip) { IpKeysDiffer(rs[0].ip, ip); }
      var s := Served(t', th, lower, rs[1..]);
      assert ([rs[0]] + s)[1..] == s && [] + s == s;
    } else {
      NothingAccepted(t, th, IpKey(ip), from, width);
    }
  }

  lemma NothingAccepted(t: Table, th: Throttles, key: string, from: nat, width: nat)
    ensures Accepted(t, PolicyOf(th), [], key, from, width) == 0
  {
  }

  lemma {:induction false} ServedWithinIdentityAccepts(t: Table, th: Throttles, lower: Lower, rs: seq<Request>,
                                                       key: string, from: nat, width: nat)
    ensures FromIdentity(Served(t, th, lower, rs), lower, key, from, width)
         <= Accepted(t, PolicyOf(th), Calls(t, th, lower, rs), key, from, width)
    decreases |rs|
  {
    if rs != [] {
      hide Step, Accepted, CallsOf, IpKey, IdentityKey;
      var (t', passed) := Guard(t, th, lower, rs[0]);
      ServedWithinIdentityAccepts(t', th, lower, rs[1..], key, from, width);
      AcceptedRequest(t, th, lower, rs[0], Calls(t', th, lower, rs[1..]), key, from, width);
      var s := Served(t', th, lower, rs[1..]);
      assert ([rs[0]] + s)[1..] == s && [] + s == s;
    }
  }

  /** The clock never runs back within a request or between requests. */
  ghost predicate Forward(rs: seq<Request>, floor: nat)
    decreases |rs|
  {
    rs == [] || (floor <= rs[0].at <= rs[0].later && Forward(rs[1..], rs[0].later))
  }

  lemma {:induction false} CallsAreForward(t: Table, th: Throttles, lower: Lower, rs: seq<Request>, floor: nat)
    requires Forward(rs, floor)
    ensures ClockForward(Calls(t, th, lower, rs))
    ensures forall i :: 0 <= i < |Calls(t, th, lower, rs)| ==> floor <= Calls(t, th, lower, rs)[i].now
    decreases |rs|
  {
    if rs != [] {
      hide Step, IpKey, IdentityKey;
      var t' := Guard(t, th, lower, rs[0]).0;
      CallsAreForward(t', th, lower, rs[1..], rs[0].later);
      var a, b := CallsOf(t, th, lower, rs[0]), Calls(t', th, lower, rs[1..]);
      assert ClockForward(a) && WithinTimes(a, rs[0].at, rs[0].later);
      hide CallsOf, Guard;
      ForwardJoins(a, b, rs[0].at, rs[0].later);
    }
  }

  ghost predicate WithinTimes(calls: seq<Call>, from: nat, to: nat) {
    forall i :: 0 <= i < |calls| ==> from <= calls[i].now <= to
  }

  lemma ForwardJoins(a: seq<Call>, b: seq<Call>, from: nat, mid: nat)
    requires ClockForward(a) && ClockForward(b) && WithinTimes(a, from, mid) && from <= mid
    requires forall i :: 0 <= i < |b| ==> mid <= b[i].now
    ensures ClockForward(a + b) && forall i :: 0 <= i < |a + b| ==> from <= (a + b)[i].now
  {
    var c := a + b;
    forall i, j | 0 <= i < j < |c| ensures c[i].now <= c[j].now {
      if i >= |a| { assert c[i] == b[i - |a|] && c[j] == b[j - |a|]; }
    }
  }

  lemma LimitOfIp(th: Throttles, ip: string)
    ensures PolicyOf(th)(IpKey(ip)) == IpLimit(th)
  {
    assert IpKey(ip)[1] == 'p';
  }

  lemma LimitOfIdentity(th: Throttles, lower: Lower, email: string)
    ensures PolicyOf(th)(IdentityKey(lower, email)) == IdentityLimit(th)
  {
    assert IdentityKey(lower, email)[1] == 'd';
  }

  /** INTAKE IS BOUNDED. Over any run from a fresh start, the register calls from one address
      in any half-open stretch as long as the address window number at most
      2 * per_ip_max - 1; likewise for one identity. */
  lemma RegisterCallsBounded(th: Throttles, lower: Lower, rs: seq<Request>, ip: string, email: string, from: nat)
    requires Forward(rs, 0)
    ensures FromIp(Served(map[], th, lower, rs), ip, from, th.perIpWindow)
         <= if th.perIpMax == 0 then 0 else 2 * th.perIpMax - 1
    ensures FromIdentity(Served(map[], th, lower, rs), lower, IdentityKey(lower, email), from, th.perIdentityWindow)
         <= if th.perIdentityMax == 0 then 0 else 2 * th.perIdentityMax - 1
  {
    hide Calls, Served, IpKey, IdentityKey, PolicyOf;
    var calls := Calls(map[], th, lower, rs);
    CallsAreForward(map[], th, lower, rs, 0);
    LimitOfIp(th, ip);
    LimitOfIdentity(th, lower, email);
    SlidingBoundPerKey(PolicyOf(th), calls, IpKey(ip), from);
    SlidingBoundPerKey(PolicyOf(th), calls, IdentityKey(lower, email), from);
    ServedAreIpAccepts(map[], th, lower, rs, ip, from, th.perIpWindow);
    ServedWithinIdentityAccepts(map[], th, lower, rs, IdentityKey(lower, email), from, th.perIdentityWindow);
  }

  /** With the default policy: nine calls for one identity in any hour, fifty-nine from one address. */
  lemma DefaultBounds(lower: Lower, rs: seq<Request>, ip: string, email: string, from: nat)
    requires Forward(rs, 0)
    ensures FromIp(Served(map[], DEFAULT_THROTTLES, lower, rs), ip, from, 3600) <= 59
    ensures FromIdentity(Served(map[], DEFAULT_THROTTLES, lower, rs), lower, IdentityKey(lower, email), from, 3600) <= 9
  {
    RegisterCallsBounded(DEFAULT_THROTTLES, lower, rs, ip, email, from);
    hide Served, FromIp, FromIdentity;
  }

  /** And both are reached: a burst at the end of one hour's window and one at its turn. */
  lemma DefaultBoundsMet()
    ensures var who, whence := IdentityLimit(DEFAULT_THROTTLES), IpLimit(DEFAULT_THROTTLES);
            && Accepts(Straddle(who), KeyDecisions(None, who, Straddle(who)), 3599, 3600) == 9
            && Accepts(Straddle(whence), KeyDecisions(None, whence, Straddle(whence)), 3599, 3600) == 59
  {
    BoundIsMet(IdentityLimit(DEFAULT_THROTTLES));
    BoundIsMet(IpLimit(DEFAULT_THROTTLES));
    hide KeyDecisions, Accepts, Straddle;
  }

  // ── requests at once ──

  /** One throttle read: a request's first, or the second of one whose first was accepted. */
  datatype Hit = Who(r: Request) | Whence(i: nat)

  /** The table, the requests between their two reads, and those that reached the register verb. */
  datatype Hall = Hall(table: Table, waiting: seq<Request>, served: seq<Request>)

  predicate CanHit(h: Hall, hit: Hit) {
    hit.Whence? ==> hit.i < |h.waiting|
  }

  function CallOf(h: Hall, lower: Lower, hit: Hit): (c: Call)
    requires CanHit(h, hit)
  {
    match hit
    case Who(r) => Call(IdentityKey(lower, r.payload.email), r.at)
    case Whence(i) => Call(IpKey(h.waiting[i].ip), h.waiting[i].later)
  }

  function Without(rs: seq<Request>, i: nat): (s: seq<Request>)
    requires i < |rs|
  {
    rs[..i] + rs[i + 1..]
  }

  function HitOnce(h: Hall, th: Throttles, lower: Lower, hit: Hit): (r: Hall)
    requires CanHit(h, hit)
  {
    var (table, ok) := Step(h.table, PolicyOf(th), CallOf(h, lower, hit));
    match hit
    case Who(r) => Hall(table, if ok then h.waiting + [r] else h.waiting, h.served)
    case Whence(i) => Hall(table, Without(h.waiting, i), if ok then h.served + [h.waiting[i]] else h.served)
  }

  /** The reads of any number of requests, in the order the table sees them. */
  ghost predicate CanHitAll(h: Hall, th: Throttles, lower: Lower, hits: seq<Hit>)
    decreases |hits|
  {
    hits == [] || (CanHit(h, hits[0]) && CanHitAll(HitOnce(h, th, lower, hits[0]), th, lower, hits[1..]))
  }

  ghost function HitAll(h: Hall, th: Throttles, lower: Lower, hits: seq<Hit>): (r: Hall)
    requires CanHitAll(h, th, lower, hits)
    decreases |hits|
  {
    if hits == [] then h else HitAll(HitOnce(h, th, lower, hits[0]), th, lower, hits[1..])
  }

  ghost function HitCalls(h: Hall, th: Throttles, lower: Lower, hits: seq<Hit>): (calls: seq<Call>)
    requires CanHitAll(h, th, lower, hits)
    decreases |hits|
  {
    if hits == [] then []
    else [CallOf(h, lower, hits[0])] + HitCalls(HitOnce(h, th, lower, hits[0]), th, lower, hits[1..])
  }

  lemma {:induction false} FromIpAppends(rs: seq<Request>, r: Request, ip: string, from: nat, width: nat)
    ensures FromIp(rs + [r], ip, from, width) == FromIp(rs, ip, from, width) + FromIp([r], ip, from, width)
    decreases |rs|
  {
    if rs != [] {
      assert (rs + [r])[1..] == rs[1..] + [r] && (rs + [r])[0] == rs[0];
      FromIpAppends(rs[1..], r, ip, from, width);
    } else {
      assert rs + [r] == [r];
    }
  }

  lemma {:induction false} FromIdentityJoins(a: seq<Request>, b: seq<Request>, lower: Lower, key: string, from: nat,
                                             width: nat)
    ensures FromIdentity(a + b, lower, key, from, width)
         == FromIdentity(a, lower, key, from, width) + FromIdentity(b, lower, key, from, width)
    decreases |a|
  {
    if a != [] {
      assert (a + b)[1..] == a[1..] + b && (a + b)[0] == a[0];
      FromIdentityJoins(a[1..], b, lower, key, from, width);
    } else {
      assert a + b == b;
    }
  }

  lemma FromIdentityWithout(rs: seq<Request>, i: nat, lower: Lower, key: string, from: nat, width: nat)
    requires i < |rs|
    ensures FromIdentity(rs, lower, key, from, width)
         == FromIdentity(Without(rs, i), lower, key, from, width) + FromIdentity([rs[i]], lower, key, from, width)
  {
    assert rs == rs[..i] + ([rs[i]] + rs[i + 1..]);
    FromIdentityJoins(rs[..i], [rs[i]] + rs[i + 1..], lower, key, from, width);
    FromIdentityJoins([rs[i]], rs[i + 1..], lower, key, from, width);
    FromIdentityJoins(rs[..i], rs[i + 1..], lower, key, from, width);
    hide FromIdentity;
  }

  lemma {:induction false} InterleavedIpAccepts(h: Hall, th: Throttles, lower: Lower, hits: seq<Hit>, ip: string,
                                                from: nat, width: nat)
    requires CanHitAll(h, th, lower, hits)
    ensures FromIp(HitAll(h, th, lower, hits).served, ip, from, width)
         == FromIp(h.served, ip, from, width)
             + Accepted(h.table, PolicyOf(th), HitCalls(h, th, lower, hits), IpKey(ip), from, width)
    decreases |hits|
  {
    if hits == [] {
      NothingAccepted(h.table, th, IpKey(ip), from, width);
    } else {
      hide Step, Accepted, IpKey, IdentityKey, PolicyOf, FromIp;
      var h' := HitOnce(h, th, lower, hits[0]);
      InterleavedIpAccepts(h', th, lower, hits[1..], ip, from, width);
      var calls := HitCalls(h, th, lower, hits);
      AcceptedFirst(h.table, PolicyOf(th), calls, IpKey(ip), from, width);
      assert calls[1..] == HitCalls(h', th, lower, hits[1..]);
      match hits[0]
      case Who(r) => KeysNeverCollide(lower, r.payload.email, ip);
      case Whence(i) =>
        FromIpAppends(h.served, h.waiting[i], ip, from, width);
        OneFromIp(h.waiting[i], ip, from, width);
    }
  }

  lemma OneFromIp(r: Request, ip: string, from: nat, width: nat)
    ensures FromIp([r], ip, from, width) == if IpKey(r.ip) == IpKey(ip) && from <= r.later < from + width then 1 else 0
  {
    if IpKey(r.ip) == IpKey(ip) { IpKeysDiffer(r.ip, ip); }
  }

  lemma {:induction false} InterleavedIdentityAccepts(h: Hall, th: Throttles, lower: Lower, hits: seq<Hit>,
                                                      key: string, from: nat, width: nat)
    requires CanHitAll(h, th, lower, hits)
    ensures FromIdentity(HitAll(h, th, lower, hits).served, lower, key, from, width)
         <= FromIdentity(h.served, lower, key, from, width) + FromIdentity(h.waiting, lower, key, from, width)
            + Accepted(h.table, PolicyOf(th), HitCalls(h, th, lower, hits), key, from, width)
    decreases |hits|
  {
    if hits != [] {
      hide Step, Accepted, IpKey, IdentityKey, PolicyOf, FromIdentity;
      var h' := HitOnce(h, th, lower, hits[0]);
      InterleavedIdentityAccepts(h', th, lower, hits[1..], key, from, width);
      var calls := HitCalls(h, th, lower, hits);
      AcceptedFirst(h.table, PolicyOf(th), calls, key, from, width);
      assert calls[1..] == HitCalls(h', th, lower, hits[1..]);
      match hits[0]
      case Who(r) =>
        FromIdentityJoins(h.waiting, [r], lower, key, from, width);
        OneFromIdentity(r, lower, key, from, width);
      case Whence(i) =>
        FromIdentityJoins(h.served, [h.waiting[i]], lower, key, from, width);
        FromIdentityWithout(h.waiting, i, lower, key, from, width);
    }
  }

  lemma OneFromIdentity(r: Request, lower: Lower, key: string, from: nat, width: nat)
    ensures FromIdentity([r], lower, key, from, width)
         == if IdentityKey(lower, r.payload.email) == key && from <= r.at < from + width then 1 else 0
  {
  }

  /** INTAKE IS BOUNDED, REQUESTS AT ONCE INCLUDED: any number of them, their reads interleaved in any
      order, as long as the clock does not run back from one read to the next. */
  lemma InterleavedCallsBounded(th: Throttles, lower: Lower, hits: seq<Hit>, ip: string, email: string, from: nat)
    requires CanHitAll(Hall(map[], [], []), th, lower, hits)
    requires ClockForward(HitCalls(Hall(map[], [], []), th, lower, hits))
    ensures var served := HitAll(Hall(map[], [], []), th, lower, hits).served;
            && FromIp(served, ip, from, th.perIpWindow) <= (if th.perIpMax == 0 then 0 else 2 * th.perIpMax - 1)
            && FromIdentity(served, lower, IdentityKey(lower, email), from, th.perIdentityWindow)
               <= (if th.perIdentityMax == 0 then 0 else 2 * th.perIdentityMax - 1)
  {
    hide HitAll, HitCalls, CanHitAll, IpKey, IdentityKey, PolicyOf;
    var start := Hall(map[], [], []);
    var calls := HitCalls(start, th, lower, hits);
    LimitOfIp(th, ip);
    LimitOfIdentity(th, lower, email);
    SlidingBoundPerKey(PolicyOf(th), calls, IpKey(ip), from);
    SlidingBoundPerKey(PolicyOf(th), calls, IdentityKey(lower, email), from);
    InterleavedIpAccepts(start, th, lower, hits, ip, from, th.perIpWindow);
    InterleavedIdentityAccepts(start, th, lower, hits, IdentityKey(lower, email), from, th.perIdentityWindow);
  }

  /** WHO SHARES A COUNT: two addresses of mail that lower alike share one, two callers' addresses only when they are
      the same; each count is under its own limit. */
  lemma KeysTell(th: Throttles, lower: Lower, email: string, other: string, ip: string, another: string)
    ensures IdentityKey(lower, email) == IdentityKey(lower, other) <==> lower(email) == lower(other)
    ensures IpKey(ip) == IpKey(another) <==> ip == another
    ensures PolicyOf(th)(IdentityKey(lower, email)) == Limit(th.perIdentityMax, th.perIdentityWindow)
    ensures PolicyOf(th)(IpKey(ip)) == Limit(th.perIpMax, th.perIpWindow)
  {
    assert IdentityKey(lower, email)[9..] == lower(email) && IdentityKey(lower, other)[9..] == lower(other);
    if IpKey(ip) == IpKey(another) { IpKeysDiffer(ip, another); }
    LimitOfIp(th, ip);
    LimitOfIdentity(th, lower, email);
  }

  /** WHAT IS REGISTERED: every field as it was posted, no party, and the lead queue not skipped. */
  lemma CommandIs(r: Request)
    ensures var c := CommandOf(r);
            && c.eventId == r.eventId && c.name == r.payload.name && c.email == r.payload.email
            && c.phone == r.payload.phone && c.companyName == r.payload.companyName
            && c.slot == r.payload.slot && c.ticket == r.payload.ticket
            && c.partnerId == None && !c.leadRuleSkip
  {
  }

  /** HOW LONG TO WAIT: a second where a window is none, otherwise the smaller of the two, cut to 32 bits. */
  lemma RetryAfterIs(th: Throttles)
    ensures th.perIdentityWindow == 0 || th.perIpWindow == 0 ==> RetryAfter(th) == 1
    ensures 0 < th.perIdentityWindow <= th.perIpWindow ==> RetryAfter(th) == th.perIdentityWindow % 0x1_0000_0000
    ensures 0 < th.perIpWindow <= th.perIdentityWindow ==> RetryAfter(th) == th.perIpWindow % 0x1_0000_0000
  {
  }

  /** The advertised wait is at least a second unless the smaller window is a multiple of
      2^32 seconds. */
  lemma RetryAfterIsPositiveIff(th: Throttles)
    ensures RetryAfter(th) >= 1
       <==> var least := if th.perIdentityWindow < th.perIpWindow then th.perIdentityWindow else th.perIpWindow;
            least == 0 || least % 0x1_0000_0000 != 0
  {
  }
}
