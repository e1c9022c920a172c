/**
 Any number of passes over one row at once, on however many hosts: a claim holds no lock on the row
 it returns. Each pass fetches, checks, asks the queue and marks in steps of its own, and the others
 may move between any two of them.
 */
module MailProtocol {
  import opened Wrappers
  import opened Text
  import opened Sets
  import opened MailModel
  import opened MailWalk
  import opened MailLaws
  import MailColumns

  /** Where a pass is; `fetched` is the step at which it fetched what it is walking. */
  datatype Pc =
    | Idle
    | Claimed
    | Ready
    | Walking(fetched: nat, rest: seq<Attendee>)
    | Asking(fetched: nat, a: Attendee, note: Note, rest: seq<Attendee>)
    | Marking(fetched: nat, a: Attendee, rest: seq<Attendee>)
    | Dropping(fetched: nat, a: Attendee, rest: seq<Attendee>)

  /** What a pass read of the row when it claimed it, and of the event after that: later edits do not reach it. */
  datatype Held = Held(channel: string, dateEnd: int)

  /** A message a queue took: whose, for which pass, out of which fetch. */
  datatype Take = Take(id: Uuid, pass: nat, fetched: nat)

  /** `marked` tells the step at which a receipt was settled, `deaths` the passes cut off. */
  datatype System = System(j: Job, passes: map<nat, Pc>, held: map<nat, Held>, takes: seq<Take>,
                           marked: map<Uuid, nat>, steps: nat, deaths: nat)

  /** One step of one pass; a pass cut off; or what the verbs and the materialisation do meanwhile. */
  datatype Move =
    | Claim(p: nat)
    | ReadEvent(p: nat)
    | Fetch(p: nat, now: int, batch: nat)
    | Check(p: nat, now: int, rendered: bool)
    | Ask(p: nat, yes: bool)
    | Settle(p: nat)
    | Leave(p: nat)
    | Die(p: nat)
    | Edit(to: Job)

  function HeldBy(s: System, p: nat): (h: Held) {
    if p in s.held then s.held[p] else Held("", 0)
  }

  /** Walking what it has fetched. */
  predicate InBatch(pc: Pc) {
    !pc.Idle? && !pc.Claimed? && !pc.Ready?
  }

  function At(s: System, p: nat): (pc: Pc) {
    if p in s.passes then s.passes[p] else Idle
  }

  /** Receipts are added unsent and never taken away; registrations and settings change at will. */
  ghost predicate Adds(j: Job, to: Job) {
    && Legal(j, MailLaws.Edit(to))
    && forall id :: id in j.receipts ==> id in to.receipts && to.receipts[id] == j.receipts[id]
  }

  ghost predicate Enabled(s: System, m: Move) {
    match m
    case Claim(p) => At(s, p) == Idle
    case ReadEvent(p) => At(s, p) == Claimed
    case Fetch(p, _, _) => At(s, p) == Ready || (At(s, p).Walking? && At(s, p).rest == [])
    case Check(p, _, _) => At(s, p).Walking? && At(s, p).rest != []
    case Ask(p, _) => At(s, p).Asking?
    case Settle(p) => At(s, p).Marking? || At(s, p).Dropping?
    case Leave(p) => At(s, p).Walking? && At(s, p).rest == []
    case Die(p) => true
    case Edit(to) => Adds(s.j, to)
  }

  /** A database that answers. */
  const ANSWERING := Env(_ => Fine, (_, _) => Yes, (_, _) => Yes, _ => 0)

  /** The message a turn would send: rendered, and the address usable. */
  function NoteFor(channel: string, a: Attendee, rendered: bool): (n: Option<Note>) {
    match Recipient(channel, a)
    case None => None
    case Some(to) => if rendered then Some(Sent(a.id, channel == "sms", to)) else None
  }

  function Mover(m: Move): (p: Option<nat>) {
    match m
    case Claim(p) => Some(p)
    case ReadEvent(p) => Some(p)
    case Fetch(p, _, _) => Some(p)
    case Check(p, _, _) => Some(p)
    case Ask(p, _) => Some(p)
    case Settle(p) => Some(p)
    case Leave(p) => Some(p)
    case Die(p) => Some(p)
    case Edit(_) => None
  }

  /** Where the mover is next: the branches are those of one receipt's turn, cut at its awaited
      operations. */
  ghost function NextPc(s: System, m: Move): (pc: Pc)
    requires Enabled(s, m) && Mover(m).Some?
  {
    var pc := At(s, Mover(m).value);
    match m
    case Claim(_) => Claimed
    case ReadEvent(_) => Ready
    case Fetch(_, now, batch) => Walking(s.steps, DueReceipts(s.j, now, batch))
    case Check(p, now, rendered) =>
      var a, rest := pc.rest[0], pc.rest[1..];
      var note := NoteFor(HeldBy(s, p).channel, a, rendered);
      if HeldBy(s, p).dateEnd <= now then Dropping(pc.fetched, a, rest)
      else if note.Some? then Asking(pc.fetched, a, note.value, rest)
      else Walking(pc.fetched, rest)
    case Ask(_, yes) => if yes then Marking(pc.fetched, pc.a, pc.rest) else Walking(pc.fetched, pc.rest)
    case Settle(_) => Walking(pc.fetched, pc.rest)
    case _ => Idle
  }

  function NextHeld(s: System, m: Move): (held: map<nat, Held>) {
    match m
    case Claim(p) => s.held[p := Held(s.j.plan.channel, s.j.plan.dateEnd)]
    case ReadEvent(p) => s.held[p := HeldBy(s, p).(dateEnd := s.j.plan.dateEnd)]
    case _ => s.held
  }

  /** The take a move adds, if any. */
  function NewTake(s: System, m: Move): (t: seq<Take>) {
    if m.Ask? && m.yes && At(s, m.p).Asking? then [Take(At(s, m.p).a.id, m.p, At(s, m.p).fetched)] else []
  }

  ghost function NextJob(s: System, m: Move): (j: Job)
    requires Enabled(s, m)
  {
    match m
    case Ask(p, yes) => if yes then s.j.(log := s.j.log + [At(s, p).note]) else s.j
    case Settle(p) =>
      var outcome := if At(s, p).Marking? then Queued else DroppedWindowClosed;
      MarkReceipt(s.j, At(s, p).a.id, outcome, ANSWERING)
    case Edit(to) => to
    case _ => s.j
  }

  predicate Settles(s: System, m: Move) {
    m.Settle? && (At(s, m.p).Marking? || At(s, m.p).Dropping?)
    && At(s, m.p).a.id in s.j.receipts && !s.j.receipts[At(s, m.p).a.id].sent
  }

  ghost function Next(s: System, m: Move): (r: System)
    requires Enabled(s, m)
  {
    System(NextJob(s, m),
           if Mover(m).Some? then s.passes[Mover(m).value := NextPc(s, m)] else s.passes,
           NextHeld(s, m),
           s.takes + NewTake(s, m),
           if Settles(s, m) then s.marked[At(s, m.p).a.id := s.steps] else s.marked,
           s.steps + 1,
           s.deaths + if m.Die? then 1 else 0)
  }

  ghost predicate IsRun(states: seq<System>, moves: seq<Move>) {
    && |states| == |moves| + 1
    && states[0].j.receipts == map[] && states[0].j.log == [] && DistinctIds(states[0].j.attendees)
    && states[0].passes == map[] && states[0].takes == [] && states[0].marked == map[]
    && states[0].steps == 0 && states[0].deaths == 0
    && forall i :: 0 <= i < |moves| ==> Enabled(states[i], moves[i]) && states[i + 1] == Next(states[i], moves[i])
  }

  // ── what every run keeps ──

  /** The receipts a pass may still ask for. */
  function ToAsk(pc: Pc): (rows: seq<Attendee>) {
    match pc
    case Idle => []
    case Claimed => []
    case Ready => []
    case Walking(_, rest) => rest
    case Asking(_, a, _, rest) => [a] + rest
    case Marking(_, _, rest) => rest
    case Dropping(_, _, rest) => rest
  }

  /** Fetched before it was settled, if it has been. */
  ghost predicate InTime(s: System, id: Uuid, fetched: nat) {
    fetched < s.steps && id in s.j.receipts && (id in s.marked ==> fetched < s.marked[id])
  }

  ghost predicate SettledIsMarked(s: System) {
    && (forall id :: id in s.marked <==> id in s.j.receipts && s.j.receipts[id].sent)
    && (forall id :: id in s.marked ==> s.marked[id] < s.steps)
  }

  ghost predicate PcInv(s: System, pc: Pc) {
    && DistinctIds(ToAsk(pc))
    && (InBatch(pc) ==> pc.fetched < s.steps && forall a :: a in ToAsk(pc) ==> InTime(s, a.id, pc.fetched))
    && (pc.Asking? ==> pc.note.Sent? && pc.note.id == pc.a.id)
    && (pc.Marking? || pc.Dropping? ==> pc.a.id in s.j.receipts)
  }

  ghost predicate TakeInv(s: System) {
    forall k :: 0 <= k < |s.takes| ==> InTime(s, s.takes[k].id, s.takes[k].fetched)
  }

  /** With nobody cut off, a take is followed by its own pass's mark: until then that pass is marking
      it; from then on it does not ask for it out of the same fetch, and a later fetch is later than the
      mark. */
  ghost predicate Followed(s: System, t: Take) {
    var pc := At(s, t.pass);
    && (t.id !in s.marked ==> pc.Marking? && pc.fetched == t.fetched && pc.a.id == t.id)
    && (InBatch(pc) && pc.fetched == t.fetched ==> forall a :: a in ToAsk(pc) ==> a.id != t.id)
    && (InBatch(pc) && pc.fetched != t.fetched ==> t.id in s.marked && s.marked[t.id] < pc.fetched)
  }

  ghost predicate OnePerPass(s: System) {
    forall k, l :: 0 <= k < l < |s.takes| && s.takes[k].id == s.takes[l].id ==> s.takes[k].pass != s.takes[l].pass
  }

  ghost predicate Inv(s: System) {
    && DistinctIds(s.j.attendees)
    && SettledIsMarked(s)
    && (forall p :: p in s.passes ==> PcInv(s, s.passes[p]))
    && TakeInv(s)
    && (s.deaths == 0 ==> OnePerPass(s) && forall k :: 0 <= k < |s.takes| ==> Followed(s, s.takes[k]))
  }

  /** Later, with every receipt kept and only settled by this very step. */
  ghost predicate Onward(s: System, s': System) {
    && s'.steps == s.steps + 1 && s'.deaths >= s.deaths
    && (forall id :: id in s.j.receipts ==> id in s'.j.receipts)
    && (forall id :: id in s.marked ==> id in s'.marked && s'.marked[id] == s.marked[id])
    && (forall id :: id in s'.marked && id !in s.marked ==> s'.marked[id] == s.steps)
  }

  lemma MoveIsOnward(s: System, m: Move)
    requires Inv(s) && Enabled(s, m)
    ensures Onward(s, Next(s, m)) && SettledIsMarked(Next(s, m)) && DistinctIds(Next(s, m).j.attendees)
  {
    hide DueReceipts, Recipient, PcInv, TakeInv, OnePerPass, Followed, DistinctIds;
  }

  lemma StaysInTime(s: System, s': System, id: Uuid, fetched: nat)
    requires Onward(s, s') && InTime(s, id, fetched)
    ensures InTime(s', id, fetched)
  {
  }

  lemma PcStays(s: System, s': System, pc: Pc)
    requires Onward(s, s') && PcInv(s, pc)
    ensures PcInv(s', pc)
  {
    hide InTime, DistinctIds;
    forall a | a in ToAsk(pc) && InBatch(pc) ensures InTime(s', a.id, pc.fetched) {
      StaysInTime(s, s', a.id, pc.fetched);
    }
  }

  lemma FetchedPc(s: System, s': System, now: int, batch: nat)
    requires Inv(s) && Onward(s, s') && s'.marked == s.marked && s'.j == s.j
    ensures PcInv(s', Walking(s.steps, DueReceipts(s.j, now, batch)))
  {
    hide TakeInv, OnePerPass, Followed;
    FetchFacts(s.j, now, batch);
    var due := DueReceipts(s.j, now, batch);
    hide DueReceipts;
    forall a | a in due ensures InTime(s', a.id, s.steps) { assert DueNow(s.j.receipts, a, now); }
    hide InTime, DistinctIds;
  }

  lemma TailDistinct(a: Attendee, rest: seq<Attendee>)
    requires DistinctIds([a] + rest)
    ensures DistinctIds(rest) && forall b :: b in rest ==> b.id != a.id
  {
    var all := [a] + rest;
    assert forall i :: 0 <= i < |rest| ==> all[i + 1] == rest[i];
    forall b | b in rest ensures b.id != a.id {
      var i :| 0 <= i < |rest| && rest[i] == b;
      assert all[0].id != all[i + 1].id;
    }
    forall i, k | 0 <= i < k < |rest| ensures rest[i].id != rest[k].id { assert all[i + 1].id != all[k + 1].id; }
  }

  lemma TailPc(s: System, pc: Pc, a: Attendee, rest: seq<Attendee>)
    requires PcInv(s, pc) && InBatch(pc) && ToAsk(pc) == [a] + rest
    ensures PcInv(s, Walking(pc.fetched, rest)) && PcInv(s, Marking(pc.fetched, a, rest))
        && PcInv(s, Dropping(pc.fetched, a, rest))
    ensures forall note: Note :: note.Sent? && note.id == a.id ==> PcInv(s, Asking(pc.fetched, a, note, rest))
    ensures InTime(s, a.id, pc.fetched) && forall b :: b in rest ==> b.id != a.id
  {
    hide DistinctIds, InTime;
    TailDistinct(a, rest);
    assert a in [a] + rest && forall b :: b in rest ==> b in [a] + rest;
    InTimeHasReceipt(s, a.id, pc.fetched);
    forall note: Note | note.Sent? && note.id == a.id ensures PcInv(s, Asking(pc.fetched, a, note, rest)) {
      AskingPc(s, pc, a, note, rest);
    }
    RestingPc(s, pc.fetched, a, rest);
    hide PcInv;
  }

  lemma AskingPc(s: System, pc: Pc, a: Attendee, note: Note, rest: seq<Attendee>)
    requires PcInv(s, pc) && InBatch(pc) && ToAsk(pc) == [a] + rest && note.Sent? && note.id == a.id
    ensures PcInv(s, Asking(pc.fetched, a, note, rest))
  {
    hide DistinctIds, InTime;
  }

  lemma RestingPc(s: System, fetched: nat, a: Attendee, rest: seq<Attendee>)
    requires DistinctIds(rest) && fetched < s.steps && (forall b :: b in rest ==> InTime(s, b.id, fetched))
    requires a.id in s.j.receipts
    ensures PcInv(s, Walking(fetched, rest)) && PcInv(s, Marking(fetched, a, rest))
        && PcInv(s, Dropping(fetched, a, rest))
  {
    hide DistinctIds, InTime;
  }

  lemma InTimeHasReceipt(s: System, id: Uuid, fetched: nat)
    requires InTime(s, id, fetched)
    ensures id in s.j.receipts
  {
  }

  lemma RestPc(s: System, pc: Pc)
    requires PcInv(s, pc) && (pc.Marking? || pc.Dropping?)
    ensures PcInv(s, Walking(pc.fetched, pc.rest))
  {
  }

  lemma NoteNames(channel: string, a: Attendee, rendered: bool)
    ensures NoteFor(channel, a, rendered).Some? ==>
        NoteFor(channel, a, rendered).value.Sent? && NoteFor(channel, a, rendered).value.id == a.id
  {
    hide Recipient;
  }

  lemma MoverKeepsPcInv(s: System, m: Move)
    requires Inv(s) && Enabled(s, m) && Mover(m).Some? && Onward(s, Next(s, m))
    ensures PcInv(Next(s, m), NextPc(s, m))
  {
    var p := Mover(m).value;
    var pc := At(s, p);
    assert PcInv(s, pc) by { IdleIsFine(s); }
    var s' := Next(s, m);
    if m.Fetch? {
      assert s'.j == s.j && s'.marked == s.marked;
      hide Next, Inv, Onward, PcInv, DueReceipts;
      FetchedPc(s, s', m.now, m.batch);
    } else {
      hide Next, Inv, Onward, PcInv, ToAsk;
      WalkOnPc(s, m);
      PcStays(s, s', NextPc(s, m));
    }
  }

  lemma WalkOnPc(s: System, m: Move)
    requires Enabled(s, m) && Mover(m).Some? && !m.Fetch? && PcInv(s, At(s, Mover(m).value))
    ensures PcInv(s, NextPc(s, m))
  {
    var pc := At(s, Mover(m).value);
    hide PcInv;
    match m
    case Claim(_) => IdleIsFine(s);
    case ReadEvent(_) => IdleIsFine(s);
    case Check(_, now, rendered) =>
      assert pc.rest == [pc.rest[0]] + pc.rest[1..];
      NoteNames(HeldBy(s, m.p).channel, pc.rest[0], rendered);
      hide NoteFor;
      TailPc(s, pc, pc.rest[0], pc.rest[1..]);
    case Ask(_, yes) => TailPc(s, pc, pc.a, pc.rest);
    case Settle(_) => RestPc(s, pc);
    case Leave(_) => IdleIsFine(s);
    case Die(_) => IdleIsFine(s);
  }

  /** Nobody else's place moves. */
  lemma OthersStand(s: System, m: Move, p: nat)
    requires Enabled(s, m)
    ensures At(Next(s, m), p) == if Mover(m) == Some(p) then NextPc(s, m) else At(s, p)
  {
    hide NextPc, NextJob;
  }

  lemma MoveKeepsPcs(s: System, m: Move)
    requires Inv(s) && Enabled(s, m) && Onward(s, Next(s, m))
    ensures forall p :: p in Next(s, m).passes ==> PcInv(Next(s, m), Next(s, m).passes[p])
  {
    hide PcInv, TakeInv, OnePerPass, Followed, SettledIsMarked, DistinctIds, NextPc, NextJob;
    var s' := Next(s, m);
    forall p | p in s'.passes ensures PcInv(s', s'.passes[p]) {
      OthersStand(s, m, p);
      if Mover(m) == Some(p) {
        MoverKeepsPcInv(s, m);
      } else {
        IdleIsFine(s);
        PcStays(s, s', At(s, p));
      }
      hide Next, Enabled, Onward;
    }
  }

  lemma IdleIsFine(s: System)
    ensures PcInv(s, Idle) && PcInv(s, Claimed) && PcInv(s, Ready)
  {
  }

  // ── takes ──

  lemma NewTakeInTime(s: System, m: Move)
    requires Inv(s) && Enabled(s, m) && NewTake(s, m) != []
    ensures InTime(s, NewTake(s, m)[0].id, NewTake(s, m)[0].fetched)
  {
    var pc := At(s, m.p);
    assert PcInv(s, pc);
    hide TakeInv, OnePerPass, Followed, SettledIsMarked, InTime;
    assert pc.a in ToAsk(pc);
  }

  lemma MoveKeepsTakeInv(s: System, m: Move)
    requires Inv(s) && Enabled(s, m) && Onward(s, Next(s, m))
    ensures TakeInv(Next(s, m))
  {
    var s' := Next(s, m);
    if NewTake(s, m) != [] { NewTakeInTime(s, m); }
    hide Next, PcInv, OnePerPass, Followed, SettledIsMarked, DistinctIds, InTime, Onward;
    forall k | 0 <= k < |s'.takes| ensures InTime(s', s'.takes[k].id, s'.takes[k].fetched) {
      StaysInTime(s, s', s'.takes[k].id, s'.takes[k].fetched);
    }
  }

  lemma OldTakeFollowed(s: System, m: Move, t: Take)
    requires Inv(s) && Enabled(s, m) && m != Die(t.pass) && Followed(s, t) && InTime(s, t.id, t.fetched)
    ensures Followed(Next(s, m), t)
  {
    MoveIsOnward(s, m);
    OthersStand(s, m, t.pass);
    if Mover(m) == Some(t.pass) {
      OwnTakeFollowed(s, m, t);
    } else {
      hide Next, Enabled, PcInv, InTime, SettledIsMarked, ToAsk, TakeInv, OnePerPass, DueReceipts, NoteFor, DistinctIds;
    }
  }

  lemma OwnTakeFollowed(s: System, m: Move, t: Take)
    requires Inv(s) && Enabled(s, m) && m != Die(t.pass) && Followed(s, t) && InTime(s, t.id, t.fetched)
    requires Mover(m) == Some(t.pass) && Onward(s, Next(s, m))
    ensures Followed(Next(s, m), t)
  {
    var pc := At(s, t.pass);
    hide TakeInv, OnePerPass, DueReceipts, NoteFor, DistinctIds, PcInv, Onward;
    if m.Check? {
      assert forall a :: a in pc.rest[1..] ==> a in pc.rest;
      assert pc.rest[0] in pc.rest;
    }
    if m.Ask? { assert forall a :: a in pc.rest ==> a in [pc.a] + pc.rest; }
  }

  lemma NewTakeFollowed(s: System, m: Move)
    requires Inv(s) && Enabled(s, m) && NewTake(s, m) != []
    ensures Followed(Next(s, m), NewTake(s, m)[0])
  {
    var pc := At(s, m.p);
    assert PcInv(s, pc);
    hide TakeInv, OnePerPass, Followed, SettledIsMarked, InTime;
    TailPc(s, pc, pc.a, pc.rest);
    hide PcInv, DistinctIds;
    assert At(Next(s, m), m.p) == Marking(pc.fetched, pc.a, pc.rest);
    FollowedNow(Next(s, m), NewTake(s, m)[0]);
  }

  lemma FollowedNow(s: System, t: Take)
    requires var pc := At(s, t.pass);
             pc.Marking? && pc.fetched == t.fetched && pc.a.id == t.id && forall b :: b in pc.rest ==> b.id != t.id
    ensures Followed(s, t)
  {
  }

  /** A pass that has taken a message does not take it again. */
  lemma NeverAgain(s: System, m: Move, t: Take)
    requires Inv(s) && Enabled(s, m) && NewTake(s, m) != [] && Followed(s, t) && t.pass == m.p
    ensures t.id != NewTake(s, m)[0].id
  {
    var pc := At(s, m.p);
    assert PcInv(s, pc);
    assert pc.a in ToAsk(pc);
    hide TakeInv, OnePerPass, SettledIsMarked, DistinctIds;
  }

  lemma MoveKeepsFollowed(s: System, m: Move)
    requires Inv(s) && Enabled(s, m) && Next(s, m).deaths == 0 && s.deaths == 0 && !m.Die?
    ensures OnePerPass(Next(s, m)) && forall k :: 0 <= k < |Next(s, m).takes| ==>
        Followed(Next(s, m), Next(s, m).takes[k])
  {
    var s' := Next(s, m);
    hide Next, PcInv, SettledIsMarked, DistinctIds, InTime;
    forall k | 0 <= k < |s'.takes| ensures Followed(s', s'.takes[k]) {
      if k < |s.takes| { OldTakeFollowed(s, m, s.takes[k]); } else { NewTakeFollowed(s, m); }
    }
    forall k, l | 0 <= k < l < |s'.takes| && s'.takes[k].id == s'.takes[l].id
        ensures s'.takes[k].pass != s'.takes[l].pass {
      if l == |s.takes| && s'.takes[k].pass == m.p { NeverAgain(s, m, s.takes[k]); }
    }
  }

  lemma MoveKeepsInv(s: System, m: Move)
    requires Inv(s) && Enabled(s, m)
    ensures Inv(Next(s, m))
  {
    MoveIsOnward(s, m);
    MoveKeepsPcs(s, m);
    MoveKeepsTakeInv(s, m);
    var s' := Next(s, m);
    assert m.Die? ==> s'.deaths > 0;
    assert s'.deaths >= s.deaths;
    if s'.deaths == 0 { MoveKeepsFollowed(s, m); }
    hide Next, Enabled, Onward, PcInv, TakeInv, Followed, OnePerPass, SettledIsMarked, DistinctIds;
  }

  lemma {:induction false} RunKeepsInv(states: seq<System>, moves: seq<Move>, i: nat)
    requires IsRun(states, moves) && i < |states|
    ensures Inv(states[i]) && states[i].steps == i
  {
    if i > 0 {
      RunKeepsInv(states, moves, i - 1);
      MoveKeepsInv(states[i - 1], moves[i - 1]);
      MoveIsOnward(states[i - 1], moves[i - 1]);
      hide Next, Enabled, Inv, DistinctIds;
      assert states[i - 1 + 1] == Next(states[i - 1], moves[i - 1]);
    }
  }

  // ── how often a message is taken ──

  function TakesOf(takes: seq<Take>, id: Uuid): (n: nat) {
    if takes == [] then 0 else TakesOf(takes[..|takes| - 1], id) + if takes[|takes| - 1].id == id then 1 else 0
  }

  lemma TakesOfAppend(takes: seq<Take>, more: seq<Take>, id: Uuid)
    requires |more| <= 1
    ensures TakesOf(takes + more, id) == TakesOf(takes, id) + if more != [] && more[0].id == id then 1 else 0
  {
    if more == [] {
      assert takes + more == takes;
    } else {
      assert (takes + more)[..|takes|] == takes;
    }
  }

  /** The log of messages is the log of takes. */
  lemma MoveCounts(s: System, m: Move, id: Uuid)
    requires Inv(s) && Enabled(s, m)
    ensures Sends(Next(s, m).j.log, id) - Sends(s.j.log, id) == TakesOf(Next(s, m).takes, id) - TakesOf(s.takes, id)
  {
    TakesOfAppend(s.takes, NewTake(s, m), id);
    hide TakesOf, Sends, DueReceipts, NoteFor, TakeInv, OnePerPass, Followed, SettledIsMarked, DistinctIds;
    match m
    case Ask(p, yes) =>
      assert PcInv(s, At(s, p));
      CountsOfAppend(s.j.log, At(s, p).note, id);
    case Settle(p) => CountsOfAppend(s.j.log, Dropped(At(s, p).a.id), id);
    case _ =>
  }

  lemma StepOf(states: seq<System>, moves: seq<Move>, i: nat)
    requires IsRun(states, moves) && 0 < i < |states|
    ensures |states| == |moves| + 1 && Enabled(states[i - 1], moves[i - 1])
        && states[i] == Next(states[i - 1], moves[i - 1])
  {
    hide Next, Enabled, DistinctIds;
    assert states[i - 1 + 1] == Next(states[i - 1], moves[i - 1]);
  }

  lemma {:induction false} SendsAreTakes(states: seq<System>, moves: seq<Move>, i: nat, id: Uuid)
    requires IsRun(states, moves) && i < |states|
    ensures Sends(states[i].j.log, id) == TakesOf(states[i].takes, id)
  {
    hide IsRun, Next, Enabled, Inv, Sends, TakesOf;
    if i > 0 {
      SendsAreTakes(states, moves, i - 1, id);
      RunKeepsInv(states, moves, i - 1);
      StepOf(states, moves, i);
      MoveCounts(states[i - 1], moves[i - 1], id);
    } else {
      NothingAtFirst(states, moves, id);
    }
  }

  lemma NothingAtFirst(states: seq<System>, moves: seq<Move>, id: Uuid)
    requires IsRun(states, moves)
    ensures Sends(states[0].j.log, id) == 0 == TakesOf(states[0].takes, id)
  {
    hide Next, Enabled, DistinctIds;
  }

  /** The passes whose queue took the message. */
  function Takers(takes: seq<Take>, id: Uuid): (ps: set<nat>) {
    set k | 0 <= k < |takes| && takes[k].id == id :: takes[k].pass
  }

  ghost predicate DistinctTakers(takes: seq<Take>) {
    forall k, l :: 0 <= k < l < |takes| && takes[k].id == takes[l].id ==> takes[k].pass != takes[l].pass
  }

  lemma {:induction false} TakersCount(takes: seq<Take>, id: Uuid)
    requires DistinctTakers(takes)
    ensures TakesOf(takes, id) == |Takers(takes, id)|
  {
    if takes != [] {
      var front, last := takes[..|takes| - 1], takes[|takes| - 1];
      TakersCount(front, id);
      TakersOfLast(takes, id);
      hide Takers, DistinctTakers;
      OneMoreTaker(Takers(front, id), last.pass);
    } else {
      assert Takers(takes, id) == {};
    }
  }

  lemma OneMoreTaker(ps: set<nat>, p: nat)
    ensures p !in ps ==> |ps + {p}| == |ps| + 1
  {
  }

  lemma TakersOfLast(takes: seq<Take>, id: Uuid)
    requires takes != [] && DistinctTakers(takes)
    ensures var front, last := takes[..|takes| - 1], takes[|takes| - 1];
            && DistinctTakers(front)
            && Takers(takes, id) == (if last.id == id then Takers(front, id) + {last.pass} else Takers(front, id))
            && (last.id == id ==> last.pass !in Takers(front, id))
  {
    var front, last := takes[..|takes| - 1], takes[|takes| - 1];
    forall p ensures p in Takers(takes, id) <==> p in Takers(front, id) || (last.id == id && p == last.pass) {
      if p in Takers(front, id) {
        var k :| 0 <= k < |front| && front[k].id == id && front[k].pass == p;
        assert takes[k] == front[k];
      }
      if p in Takers(takes, id) {
        var k :| 0 <= k < |takes| && takes[k].id == id && takes[k].pass == p;
        if k < |front| { assert front[k] == takes[k]; }
      }
    }
  }

  // ── in terms of the run ──

  ghost predicate SentAt(s: System, id: Uuid) {
    id in s.j.receipts && s.j.receipts[id].sent
  }

  /** Pass p fetched the receipt at step f, before anybody had settled it, and at step k its queue said
      yes to the message it fetched then. */
  ghost predicate AskedInTime(states: seq<System>, moves: seq<Move>, i: nat, p: nat, id: Uuid, f: nat, k: nat)
    requires IsRun(states, moves) && i < |states|
  {
    && f < k < i
    && moves[f].Fetch? && moves[f].p == p && id in states[f].j.receipts && !SentAt(states[f], id)
    && moves[k] == Ask(p, true) && At(states[k], p).fetched == f && At(states[k], p).a.id == id
  }

  ghost predicate FetchedInTimeAndSent(states: seq<System>, moves: seq<Move>, i: nat, p: nat, id: Uuid)
    requires IsRun(states, moves) && i < |states|
  {
    exists f, k :: AskedInTime(states, moves, i, p, id, f, k)
  }

  /** A receipt once settled stays so, and `marked` tells since when. */
  lemma {:induction false} MarkedSince(states: seq<System>, moves: seq<Move>, i: nat, id: Uuid, f: nat)
    requires IsRun(states, moves) && f <= i < |states|
    requires id in states[i].marked ==> f <= states[i].marked[id]
    ensures !SentAt(states[f], id)
    decreases i
  {
    hide IsRun, Next, Enabled, PcInv, TakeInv, OnePerPass, Followed, DistinctIds;
    RunKeepsInv(states, moves, i);
    if f < i {
      RunKeepsInv(states, moves, i - 1);
      StepOf(states, moves, i);
      MoveIsOnward(states[i - 1], moves[i - 1]);
      MarkedSince(states, moves, i - 1, id, f);
    }
  }

  /** A pass under way either has just fetched or was under way out of the same fetch. */
  lemma PcStep(s: System, m: Move, p: nat)
    requires Enabled(s, m) && InBatch(At(Next(s, m), p))
    ensures if m.Fetch? && m.p == p then At(Next(s, m), p).fetched == s.steps
            else InBatch(At(s, p)) && At(s, p).fetched == At(Next(s, m), p).fetched
  {
    OthersStand(s, m, p);
    hide DueReceipts, NoteFor, NextJob, Next;
  }

  lemma NobodyAtFirst(states: seq<System>, moves: seq<Move>, p: nat)
    requires IsRun(states, moves)
    ensures At(states[0], p) == Idle
  {
    hide Next, Enabled, DistinctIds;
  }

  /** What a pass is walking it fetched at the step it says. */
  lemma {:induction false} WalkingWasFetched(states: seq<System>, moves: seq<Move>, i: nat, p: nat)
    requires IsRun(states, moves) && i < |states| && InBatch(At(states[i], p))
    ensures var f := At(states[i], p).fetched; f < i && moves[f].Fetch? && moves[f].p == p
  {
    hide IsRun, Next, Enabled, Inv;
    NobodyAtFirst(states, moves, p);
    StepOf(states, moves, i);
    RunKeepsInv(states, moves, i - 1);
    PcStep(states[i - 1], moves[i - 1], p);
    if !(moves[i - 1].Fetch? && moves[i - 1].p == p) { WalkingWasFetched(states, moves, i - 1, p); }
  }

  lemma {:induction false} TakeWasAsked(states: seq<System>, moves: seq<Move>, i: nat, n: nat)
    requires IsRun(states, moves) && i < |states| && n < |states[i].takes|
    ensures var t := states[i].takes[n];
            exists k :: 0 <= k < i && moves[k] == Ask(t.pass, true) && At(states[k], t.pass).Asking?
                        && At(states[k], t.pass).fetched == t.fetched && At(states[k], t.pass).a.id == t.id
  {
    var m, s := moves[i - 1], states[i - 1];
    assert states[i - 1 + 1] == Next(s, m) && Enabled(s, m);
    hide Next, DistinctIds;
    if n < |s.takes| {
      TakeWasAsked(states, moves, i - 1, n);
    } else {
      assert moves[i - 1] == Ask(states[i].takes[n].pass, true);
    }
  }

  lemma {:induction false} AskedIsTaken(states: seq<System>, moves: seq<Move>, i: nat, k: nat)
    requires IsRun(states, moves) && k < i < |states| && moves[k].Ask? && moves[k].yes
    ensures At(states[k], moves[k].p).Asking?
    ensures Take(At(states[k], moves[k].p).a.id, moves[k].p, At(states[k], moves[k].p).fetched) in states[i].takes
  {
    var m, s := moves[i - 1], states[i - 1];
    assert states[i - 1 + 1] == Next(s, m) && Enabled(s, m);
    assert Enabled(states[k], moves[k]);
    hide Next, DistinctIds;
    if k < i - 1 { AskedIsTaken(states, moves, i - 1, k); }
  }

  lemma TakerAskedInTime(states: seq<System>, moves: seq<Move>, i: nat, id: Uuid, p: nat)
    requires IsRun(states, moves) && i < |states| && p in Takers(states[i].takes, id)
    ensures FetchedInTimeAndSent(states, moves, i, p, id)
  {
    RunKeepsInv(states, moves, i);
    var n :| 0 <= n < |states[i].takes| && states[i].takes[n].id == id && states[i].takes[n].pass == p;
    var f := states[i].takes[n].fetched;
    TakeWasAsked(states, moves, i, n);
    var k :| 0 <= k < i && moves[k] == Ask(p, true) && At(states[k], p).Asking?
             && At(states[k], p).fetched == f && At(states[k], p).a.id == id;
    WalkingWasFetched(states, moves, k, p);
    MarkedSince(states, moves, i, id, f);
    assert InTime(states[i], id, f);
    AskedWasThere(states, moves, k, p);
    hide IsRun, Inv, SentAt;
    assert AskedInTime(states, moves, i, p, id, f, k);
  }

  /** What a pass asks for had a receipt when it fetched it. */
  lemma {:induction false} HeldWasThere(states: seq<System>, moves: seq<Move>, i: nat, p: nat, a: Attendee)
    requires IsRun(states, moves) && i < |states| && InBatch(At(states[i], p)) && a in ToAsk(At(states[i], p))
    ensures At(states[i], p).fetched < i && a.id in states[At(states[i], p).fetched].j.receipts
  {
    hide IsRun, Next, Enabled, ToAsk, Inv;
    NobodyAtFirst(states, moves, p);
    StepOf(states, moves, i);
    RunKeepsInv(states, moves, i - 1);
    var s, m := states[i - 1], moves[i - 1];
    PcStep(s, m, p);
    if m.Fetch? && m.p == p {
      JustFetched(s, m, a);
    } else {
      StillHeld(s, m, p, a);
      HeldWasThere(states, moves, i - 1, p, a);
    }
  }

  lemma JustFetched(s: System, m: Move, a: Attendee)
    requires Inv(s) && Enabled(s, m) && m.Fetch? && a in ToAsk(At(Next(s, m), m.p))
    ensures a.id in s.j.receipts
  {
    assert DistinctIds(s.j.attendees);
    hide Inv, DueReceipts, DistinctIds;
    FetchedHasReceipt(s.j, m.now, m.batch, a);
  }

  lemma FetchedHasReceipt(j: Job, now: int, batch: nat, a: Attendee)
    requires DistinctIds(j.attendees) && a in DueReceipts(j, now, batch)
    ensures a.id in j.receipts
  {
    FetchFacts(j, now, batch);
    hide DueReceipts, DistinctIds;
    assert DueNow(j.receipts, a, now);
  }

  lemma StillHeld(s: System, m: Move, p: nat, a: Attendee)
    requires Enabled(s, m) && !(m.Fetch? && m.p == p) && a in ToAsk(At(Next(s, m), p))
    ensures a in ToAsk(At(s, p))
  {
    OthersStand(s, m, p);
    hide DueReceipts, NoteFor, NextJob, Next;
    if m.Check? && m.p == p {
      var rest := At(s, p).rest;
      assert rest == [rest[0]] + rest[1..];
    }
  }

  lemma AskedWasThere(states: seq<System>, moves: seq<Move>, k: nat, p: nat)
    requires IsRun(states, moves) && k < |states| && At(states[k], p).Asking?
    ensures At(states[k], p).fetched < k && At(states[k], p).a.id in states[At(states[k], p).fetched].j.receipts
  {
    hide IsRun, DistinctIds;
    assert At(states[k], p).a in ToAsk(At(states[k], p));
    HeldWasThere(states, moves, k, p, At(states[k], p).a);
  }

  /**
   EXACTLY HOW OFTEN. While no pass has been cut off, however many overlap: a message has been taken
   once for each pass that fetched its receipt before anybody settled it and whose queue then said yes,
   and by no pass more than once. Nothing looks at the receipt again between the fetch and the
   queue, so it is taken twice if and only if there were two such passes.
   */
  lemma TakenTwiceIffTwoFetchedInTime(states: seq<System>, moves: seq<Move>, i: nat, id: Uuid)
    requires IsRun(states, moves) && i < |states| && states[i].deaths == 0
    ensures Sends(states[i].j.log, id) == |Takers(states[i].takes, id)|
    ensures forall p :: p in Takers(states[i].takes, id) <==> FetchedInTimeAndSent(states, moves, i, p, id)
    ensures Sends(states[i].j.log, id) >= 2
       <==> exists p, q ::
              p != q && FetchedInTimeAndSent(states, moves, i, p, id) && FetchedInTimeAndSent(states, moves, i, q, id)
  {
    RunKeepsInv(states, moves, i);
    SendsAreTakes(states, moves, i, id);
    TakersCount(states[i].takes, id);
    var ps := Takers(states[i].takes, id);
    hide Inv, Sends, TakesOf;
    forall p ensures p in ps <==> FetchedInTimeAndSent(states, moves, i, p, id) {
      if p in ps { TakerAskedInTime(states, moves, i, id, p); }
      if f, k :| AskedInTime(states, moves, i, p, id, f, k) { AskedIsTaken(states, moves, i, k); }
    }
    hide IsRun, Takers, FetchedInTimeAndSent;
    TwoInSet(ps);
  }

  // ── whom a pass addresses ──

  /** What pass p asks its queue to take goes to the registration it is at, on the channel it holds. */
  ghost predicate AsksRightly(s: System, p: nat) {
    At(s, p).Asking? ==> MailColumns.Addressed(At(s, p).note, HeldBy(s, p).channel, At(s, p).a)
  }

  lemma StepAsksRightly(s: System, m: Move, p: nat)
    requires Enabled(s, m) && AsksRightly(s, p)
    ensures AsksRightly(Next(s, m), p)
  {
    OthersStand(s, m, p);
    if m.Check? && m.p == p { MailColumns.RecipientIs(HeldBy(s, p).channel, At(s, p).rest[0]); }
    hide DueReceipts, Recipient, MailColumns.Addressed, NextJob;
  }

  lemma {:induction false} RunAsksRightly(states: seq<System>, moves: seq<Move>, i: nat, p: nat)
    requires IsRun(states, moves) && i < |states|
    ensures AsksRightly(states[i], p)
  {
    if i > 0 {
      RunAsksRightly(states, moves, i - 1, p);
      StepOf(states, moves, i);
      hide IsRun, Next, Enabled, AsksRightly;
      StepAsksRightly(states[i - 1], moves[i - 1], p);
    } else {
      NobodyAtFirst(states, moves, p);
    }
  }

  /** Step s was the asking for this very message, addressed to the registration asked for. */
  ghost predicate AskedFor(states: seq<System>, moves: seq<Move>, s: nat, n: Note)
    requires |states| == |moves| + 1
  {
    && s < |moves| && moves[s].Ask? && At(states[s], moves[s].p).Asking? && At(states[s], moves[s].p).note == n
    && MailColumns.Addressed(n, HeldBy(states[s], moves[s].p).channel, At(states[s], moves[s].p).a)
  }

  lemma LogStep(s: System, m: Move, k: nat)
    requires Enabled(s, m) && k < |Next(s, m).j.log| && Next(s, m).j.log[k].Sent?
    ensures (k < |s.j.log| && s.j.log[k] == Next(s, m).j.log[k])
        || (m.Ask? && At(s, m.p).Asking? && At(s, m.p).note == Next(s, m).j.log[k])
  {
    hide DueReceipts, NextPc, NextHeld, NewTake;
  }

  /** EVERY MESSAGE OF EVERY PASS is addressed to the registration it is for, on the channel that pass read,
      however many passes overlap. */
  lemma {:induction false} MessagesAreAddressed(states: seq<System>, moves: seq<Move>, i: nat, k: nat)
    requires IsRun(states, moves) && i < |states| && k < |states[i].j.log| && states[i].j.log[k].Sent?
    ensures |states| == |moves| + 1
    ensures exists s: nat :: s < i && AskedFor(states, moves, s, states[i].j.log[k])
  {
    assert i > 0;
    StepOf(states, moves, i);
    LogStep(states[i - 1], moves[i - 1], k);
    if k < |states[i - 1].j.log| && states[i - 1].j.log[k] == states[i].j.log[k] {
      hide Next, Enabled, AskedFor, DistinctIds;
      MessagesAreAddressed(states, moves, i - 1, k);
    } else {
      RunAsksRightly(states, moves, i - 1, moves[i - 1].p);
      hide IsRun, Next, Enabled, MailColumns.Addressed;
      assert AskedFor(states, moves, i - 1, states[i].j.log[k]);
    }
  }

  // ── one pass undisturbed ──

  /** A pass's moves through its next receipt, the renderer and the queue answering so. */
  ghost function SoloTurn(s: System, p: nat, now: int, rendered: bool, yes: bool): (r: System)
    requires At(s, p).Walking? && At(s, p).rest != []
  {
    var s1 := Next(s, Check(p, now, rendered));
    if At(s1, p).Walking? then s1
    else if At(s1, p).Dropping? then Next(s1, Settle(p))
    else
      var s2 := Next(s1, Ask(p, yes));
      if yes then Next(s2, Settle(p)) else s2
  }

  /** WHAT A PASS HOLDS: the channel the row had when it was claimed and the end the event had when it was read,
      whatever
      was edited between. */
  lemma HoldsWhatItRead(s: System, to: Job, p: nat)
    requires At(s, p) == Idle && Adds(s.j, to)
    ensures var claimed := Next(s, Claim(p));
            var ready := Next(Next(claimed, Move.Edit(to)), ReadEvent(p));
            At(ready, p) == Ready && ready.j == to && HeldBy(ready, p) == Held(s.j.plan.channel, to.plan.dateEnd)
  {
    hide DistinctIds;
  }

  ghost predicate SameRecords(j: Job, j': Job) {
    j'.receipts == j.receipts && j'.log == j.log
  }

  /** The pass holds the settings the serial run has. */
  predicate Holds(s: System, p: nat, j: Job) {
    HeldBy(s, p) == Held(j.plan.channel, j.plan.dateEnd)
  }

  /** One turn, answered as the serial run j is answered at its moment. */
  ghost function TurnBeside(s: System, p: nat, j: Job, env: Env): (r: System)
    requires At(s, p).Walking? && At(s, p).rest != []
  {
    var id := At(s, p).rest[0].id;
    SoloTurn(s, p, env.at(j.clock), env.render(j.clock, id) == Yes, env.enqueue(j.clock + 1, id) == Yes)
  }

  lemma CheckLands(s: System, p: nat, now: int, rendered: bool)
    requires At(s, p).Walking? && At(s, p).rest != []
    ensures var s1, pc := Next(s, Check(p, now, rendered)), At(s, p);
            var note := NoteFor(HeldBy(s, p).channel, pc.rest[0], rendered);
            && s1.j == s.j && HeldBy(s1, p) == HeldBy(s, p)
            && At(s1, p) == if HeldBy(s, p).dateEnd <= now then Dropping(pc.fetched, pc.rest[0], pc.rest[1..])
                            else if note.Some? then Asking(pc.fetched, pc.rest[0], note.value, pc.rest[1..])
                            else Walking(pc.fetched, pc.rest[1..])
  {
    hide NoteFor;
  }

  lemma AskLands(s: System, p: nat, yes: bool)
    requires At(s, p).Asking?
    ensures var s1, pc := Next(s, Ask(p, yes)), At(s, p);
            && HeldBy(s1, p) == HeldBy(s, p)
            && s1.j == (if yes then s.j.(log := s.j.log + [pc.note]) else s.j)
            && At(s1, p) == if yes then Marking(pc.fetched, pc.a, pc.rest) else Walking(pc.fetched, pc.rest)
  {
  }

  lemma SettleLands(s: System, p: nat)
    requires At(s, p).Marking? || At(s, p).Dropping?
    ensures var s1, pc := Next(s, Settle(p)), At(s, p);
            && HeldBy(s1, p) == HeldBy(s, p) && At(s1, p) == Walking(pc.fetched, pc.rest)
            && s1.j == MarkReceipt(s.j, pc.a.id, if pc.Marking? then Queued else DroppedWindowClosed, ANSWERING)
  {
    hide MarkReceipt;
  }

  /** What a turn leaves of receipts and log when nobody is cut off: `dropped`, `asked` and `taken` as far as it got. */
  function TurnLeaves(j: Job, id: Uuid, note: Option<Note>, shut: bool, yes: bool): (r: Job) {
    if shut then MarkReceipt(j, id, DroppedWindowClosed, ANSWERING)
    else if note == None || !yes then j
    else MarkReceipt(j.(log := j.log + [note.value]), id, Queued, ANSWERING)
  }

  /** The protocol's side of a turn. */
  lemma SoloTurnLeaves(s: System, p: nat, now: int, rendered: bool, yes: bool)
    requires At(s, p).Walking? && At(s, p).rest != []
    ensures var a, end := At(s, p).rest[0], SoloTurn(s, p, now, rendered, yes);
            && end.j == TurnLeaves(s.j, a.id, NoteFor(HeldBy(s, p).channel, a, rendered), HeldBy(s, p).dateEnd <= now,
                yes)
            && At(end, p) == Walking(At(s, p).fetched, At(s, p).rest[1..]) && HeldBy(end, p) == HeldBy(s, p)
  {
    hide NoteFor, MarkReceipt, Next;
    CheckLands(s, p, now, rendered);
    var s1 := Next(s, Check(p, now, rendered));
    if At(s1, p).Dropping? {
      SettleLands(s1, p);
    } else if At(s1, p).Asking? {
      AskLands(s1, p, yes);
      if yes { SettleLands(Next(s1, Ask(p, yes)), p); }
    }
  }

  /** The serial side. */
  lemma TurnRecords(j: Job, a: Attendee, env: Env)
    requires CrashFree(env)
    ensures SameRecords(WalkOne(j, a, env).0,
                        TurnLeaves(j, a.id, NoteFor(j.plan.channel, a, env.render(j.clock, a.id) == Yes),
                                   j.plan.dateEnd <= env.at(j.clock), env.enqueue(j.clock + 1, a.id) == Yes))
  {
    hide Recipient;
  }

  lemma LeavesAlike(j: Job, j': Job, id: Uuid, note: Option<Note>, shut: bool, yes: bool)
    requires SameRecords(j, j')
    ensures SameRecords(TurnLeaves(j, id, note, shut, yes), TurnLeaves(j', id, note, shut, yes))
  {
  }

  /** UNDISTURBED, THE PROTOCOL IS THE TURN: with the row's settings as the pass read them, its moves in a row leave the
      receipts and the log that the serial turn leaves, and the pass at the receipts after. */
  lemma SoloIsTurn(s: System, p: nat, j: Job, env: Env)
    requires At(s, p).Walking? && At(s, p).rest != [] && CrashFree(env) && SameRecords(s.j, j) && Holds(s, p, j)
    ensures var end := TurnBeside(s, p, j, env);
            && SameRecords(end.j, WalkOne(j, At(s, p).rest[0], env).0)
            && At(end, p) == Walking(At(s, p).fetched, At(s, p).rest[1..]) && HeldBy(end, p) == HeldBy(s, p)
  {
    var a := At(s, p).rest[0];
    var now, rendered, yes := env.at(j.clock), env.render(j.clock, a.id) == Yes, env.enqueue(j.clock + 1, a.id) == Yes;
    hide WalkOne, CrashFree, SoloTurn, TurnLeaves, NoteFor;
    TurnRecords(j, a, env);
    SoloTurnLeaves(s, p, now, rendered, yes);
    LeavesAlike(s.j, j, a.id, NoteFor(j.plan.channel, a, rendered), j.plan.dateEnd <= now, yes);
  }

  /** A whole batch walked beside the serial run. */
  ghost function BatchBeside(s: System, p: nat, j: Job, env: Env): (r: System)
    requires At(s, p).Walking? && CrashFree(env) && SameRecords(s.j, j) && Holds(s, p, j)
    decreases |At(s, p).rest|
  {
    if At(s, p).rest == [] then s
    else
      SoloIsTurn(s, p, j, env);
      var j1 := WalkOne(j, At(s, p).rest[0], env).0;
      TurnKeepsPlan(j, At(s, p).rest[0], env);
      BatchBeside(TurnBeside(s, p, j, env), p, j1, env)
  }

  lemma TurnKeepsPlan(j: Job, a: Attendee, env: Env)
    ensures WalkOne(j, a, env).0.plan == j.plan
    ensures CrashFree(env) ==> WalkOne(j, a, env).1
  {
    hide Recipient;
  }

  lemma {:induction false} SoloIsBatch(s: System, p: nat, j: Job, env: Env)
    requires At(s, p).Walking? && CrashFree(env) && SameRecords(s.j, j) && Holds(s, p, j)
    ensures var end := BatchBeside(s, p, j, env);
            && SameRecords(end.j, WalkMany(j, At(s, p).rest, env).0)
            && At(end, p) == Walking(At(s, p).fetched, [])
    decreases |At(s, p).rest|
  {
    if At(s, p).rest != [] {
      SoloIsTurn(s, p, j, env);
      TurnKeepsPlan(j, At(s, p).rest[0], env);
      hide WalkOne, TurnBeside, SoloTurn, CrashFree;
      SoloIsBatch(TurnBeside(s, p, j, env), p, WalkOne(j, At(s, p).rest[0], env).0, env);
    }
  }

  /** UNDISTURBED, A FETCH AND ITS WALK ARE THE ROUND: one trip round the receipt loop, receipt by receipt. */
  lemma SoloIsRound(s: System, p: nat, batch: nat, env: Env) returns (end: System)
    requires Enabled(s, Fetch(p, env.at(s.j.clock), batch)) && CrashFree(env) && Holds(s, p, s.j)
    ensures var fetched := Next(s, Fetch(p, env.at(s.j.clock), batch));
            && At(fetched, p).Walking? && SameRecords(fetched.j, DbTick(s.j, env)) && Holds(fetched, p, s.j)
            && end == BatchBeside(fetched, p, DbTick(s.j, env), env)
    ensures SameRecords(end.j, Round(s.j, batch, env).0) && At(end, p) == Walking(s.steps, [])
  {
    hide DueReceipts, WalkMany, BatchBeside;
    var fetched := Next(s, Fetch(p, env.at(s.j.clock), batch));
    SoloIsBatch(fetched, p, DbTick(s.j, env), env);
    end := BatchBeside(fetched, p, DbTick(s.j, env), env);
  }

  // ── a run that sends twice ──

  ghost predicate Reaches(s: System, moves: seq<Move>, end: System)
    decreases |moves|
  {
    if moves == [] then s == end
    else Enabled(s, moves[0]) && Reaches(Next(s, moves[0]), moves[1..], end)
  }

  /** One turn of pass p, its queue saying yes. */
  function YesTurn(p: nat, now: int): (moves: seq<Move>) {
    [Check(p, now, true), Ask(p, true), Settle(p)]
  }

  /** A pass claims the row, reads its event and fetches one receipt. */
  function Begins(p: nat, now: int): (moves: seq<Move>) {
    [Claim(p), ReadEvent(p), Fetch(p, now, 1)]
  }

  /** Two passes fetch the same receipt; the first sends and marks it; only then does the second come
      to it. */
  function StaleFetch(now: int): (moves: seq<Move>) {
    Begins(0, now) + Begins(1, now) + YesTurn(0, now) + YesTurn(1, now)
  }

  lemma ReachesBack(s: System, moves: seq<Move>, end: System)
    requires if moves == [] then s == end else Enabled(s, moves[0]) && Reaches(Next(s, moves[0]), moves[1..], end)
    ensures Reaches(s, moves, end)
  {
  }

  lemma {:induction false} ReachesThrough(s: System, a: seq<Move>, mid: System, b: seq<Move>, end: System)
    requires Reaches(s, a, mid) && Reaches(mid, b, end)
    ensures Reaches(s, a + b, end)
    decreases |a|
  {
    hide Next, Enabled;
    if a == [] {
      assert a + b == b;
    } else {
      assert (a + b)[1..] == a[1..] + b && (a + b)[0] == a[0];
      ReachesThrough(Next(s, a[0]), a[1..], mid, b, end);
    }
  }

  lemma PassBegins(s: System, p: nat, now: int, a: Attendee) returns (end: System)
    requires At(s, p) == Idle && DueReceipts(s.j, now, 1) == [a]
    ensures Reaches(s, Begins(p, now), end) && end.deaths == s.deaths && end.j == s.j
    ensures At(end, p) == Walking(s.steps + 2, [a]) && HeldBy(end, p) == Held(s.j.plan.channel, s.j.plan.dateEnd)
    ensures forall q :: q != p ==> At(end, q) == At(s, q) && HeldBy(end, q) == HeldBy(s, q)
  {
    hide Reaches, DueReceipts;
    var s1 := Next(s, Claim(p));
    var s2 := Next(s1, ReadEvent(p));
    end := Next(s2, Fetch(p, now, 1));
    var ms := Begins(p, now);
    ReachesBack(end, [], end);
    ReachesBack(s2, ms[2..], end);
    ReachesBack(s1, ms[1..], end);
    ReachesBack(s, ms, end);
  }

  /** A turn in a window held open at a usable address, whatever has become of the receipt. */
  lemma TurnSends(s: System, p: nat, now: int, fetched: nat, a: Attendee) returns (end: System)
    requires At(s, p) == Walking(fetched, [a])
    requires now < HeldBy(s, p).dateEnd && Recipient(HeldBy(s, p).channel, a).Some?
    ensures Reaches(s, YesTurn(p, now), end) && end.deaths == s.deaths
    ensures Sends(end.j.log, a.id) == Sends(s.j.log, a.id) + 1
    ensures forall q :: q != p ==> At(end, q) == At(s, q) && HeldBy(end, q) == HeldBy(s, q)
  {
    hide Recipient, Sends, Reaches, MarkReceipt;
    var note := NoteFor(HeldBy(s, p).channel, a, true).value;
    NoteNames(HeldBy(s, p).channel, a, true);
    var s1 := Next(s, Check(p, now, true));
    assert At(s1, p) == Asking(fetched, a, note, []) && s1.j == s.j;
    hide NoteFor;
    var s2 := Next(s1, Ask(p, true));
    assert At(s2, p) == Marking(fetched, a, []) && s2.j == s.j.(log := s.j.log + [note]);
    end := Next(s2, Settle(p));
    SettleKeepsLog(s2.j, a.id);
    CountsOfAppend(s.j.log, note, a.id);
    var ms := YesTurn(p, now);
    ReachesBack(end, [], end);
    ReachesBack(s2, ms[2..], end);
    ReachesBack(s1, ms[1..], end);
    ReachesBack(s, ms, end);
  }

  lemma SettleKeepsLog(j: Job, id: Uuid)
    ensures MarkReceipt(j, id, Queued, ANSWERING).log == j.log
  {
  }

  /** A STALE FETCH SENDS AGAIN, after the mark and without any fault: whatever the row, if its first due
      receipt can be addressed in an open window. */
  lemma StaleFetchSendsAgain(s: System, now: int, a: Attendee) returns (end: System)
    requires s.passes == map[] && s.deaths == 0
    requires DueReceipts(s.j, now, 1) == [a] && now < s.j.plan.dateEnd && Recipient(s.j.plan.channel, a).Some?
    ensures Reaches(s, StaleFetch(now), end) && end.deaths == 0
    ensures Sends(end.j.log, a.id) == Sends(s.j.log, a.id) + 2
  {
    hide DueReceipts, Recipient, Sends, Reaches, YesTurn, Begins, Next, Enabled;
    var s1 := PassBegins(s, 0, now, a);
    var s2 := PassBegins(s1, 1, now, a);
    var s3 := TurnSends(s2, 0, now, At(s2, 0).fetched, a);
    end := TurnSends(s3, 1, now, At(s3, 1).fetched, a);
    ReachesThrough(s, Begins(0, now), s1, Begins(1, now), s2);
    ReachesThrough(s, Begins(0, now) + Begins(1, now), s2, YesTurn(0, now), s3);
    ReachesThrough(s, Begins(0, now) + Begins(1, now) + YesTurn(0, now), s3, YesTurn(1, now), end);
  }
}
