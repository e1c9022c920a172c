/**
 One communication scheduler row with its event's registrations and receipts, and the
 pass over it as a function of what the database and the host's ports answer.
 */
module MailModel {
  import opened Wrappers
  import opened Text
  import opened Registrations

  datatype Attendee = Attendee(id: Uuid, state: RegState, active: bool, email: string, phone: Option<string>,
                               createdAt: Option<int>)

  datatype Outcome = Queued | DroppedWindowClosed

  /** A receipt; `due` None counts as due at once. */
  datatype Receipt = Receipt(due: Option<int>, sent: bool, outcome: Option<Outcome>)

  datatype ErrorKind = TemplateUnresolved | RendererNotComposed | RenderFailed
                     | RecipientInvalid | EnqueueRefused | SmsEnqueueRefused

  /** What a walk did to the outside: a message taken by a queue, or a receipt dropped. */
  datatype Note = Sent(id: Uuid, sms: bool, recipient: string) | Dropped(id: Uuid)

  datatype Tally = Tally(materialized: nat, queued: nat, smsQueued: nat, dropped: nat, failures: nat,
                         rearmed: nat, completed: nat)

  /** The row's settings and its event's: `afterSub` tells a row that a new subscription arms from
      one tied to the event's dates. */
  datatype Settings = Settings(templateRef: Option<Uuid>, channel: string, delay: int, afterSub: bool,
                               dateEnd: int, cancelled: bool)

  /** The row, the event's registrations (listed in id order), the receipts, and a run's record. */
  datatype Job = Job(
    attendees: seq<Attendee>, receipts: map<Uuid, Receipt>, plan: Settings,
    done: bool, scheduledAt: int, error: Option<ErrorKind>,
    log: seq<Note>, clock: nat, faults: nat, tally: Tally)

  /** The database answers or fails, with or without its write having landed. */
  datatype Db = Fine | Fault(landed: bool)

  /** A host port answers, refuses, or the pass is cut off there; `taken` says whether the
      queue had the message by then. */
  datatype Host = Yes | No(kind: ErrorKind) | CutOff(taken: bool)

  /** Everything outside the module: database, renderer, queues, and a clock, each asked at
      the moment `clock` of the pass. */
  datatype Env = Env(db: nat -> Db, render: (nat, Uuid) -> Host, enqueue: (nat, Uuid) -> Host, at: nat -> int)

  /** How a stretch of the pass ended. */
  datatype Ended = More | Exited | Aborted

  // ── eligibility and fetches ──

  predicate Eligible(a: Attendee) {
    (a.state == Open || a.state == Done) && a.active
  }

  predicate Settled(receipts: map<Uuid, Receipt>, id: Uuid) {
    id in receipts && receipts[id].sent
  }

  /** A receipt to be walked: scheduled, unsent, and its registration eligible. */
  predicate DueNow(receipts: map<Uuid, Receipt>, a: Attendee, now: int) {
    && Eligible(a)
    && a.id in receipts && !receipts[a.id].sent
    && (receipts[a.id].due == None || receipts[a.id].due.value <= now)
  }

  function DueRows(attendees: seq<Attendee>, receipts: map<Uuid, Receipt>, now: int): (s: seq<Attendee>) {
    if attendees == [] then []
    else (if DueNow(receipts, attendees[0], now) then [attendees[0]] else []) + DueRows(attendees[1..], receipts, now)
  }

  /** Earliest scheduled first, unscheduled before all, ids within a tie. */
  predicate WalksBefore(receipts: map<Uuid, Receipt>, a: Attendee, b: Attendee)
    requires a.id in receipts && b.id in receipts
  {
    var x, y := receipts[a.id].due, receipts[b.id].due;
    match (x, y)
    case (None, Some(_)) => true
    case (Some(_), None) => false
    case (None, None) => a.id < b.id
    case (Some(p), Some(q)) => p < q || (p == q && a.id < b.id)
  }

  function InsertDue(receipts: map<Uuid, Receipt>, a: Attendee, s: seq<Attendee>): (r: seq<Attendee>)
    requires a.id in receipts && forall b :: b in s ==> b.id in receipts
    ensures forall b :: b in r <==> b == a || b in s
    ensures |r| == |s| + 1
  {
    if s == [] || WalksBefore(receipts, a, s[0]) then [a] + s
    else
      assert s == [s[0]] + s[1..];
      [s[0]] + InsertDue(receipts, a, s[1..])
  }

  function SortDue(receipts: map<Uuid, Receipt>, s: seq<Attendee>): (r: seq<Attendee>)
    requires forall b :: b in s ==> b.id in receipts
    ensures forall b :: b in r <==> b in s
    ensures |r| == |s|
  {
    if s == [] then []
    else
      assert s == [s[0]] + s[1..];
      InsertDue(receipts, s[0], SortDue(receipts, s[1..]))
  }

  lemma {:induction false} DueRowsFacts(attendees: seq<Attendee>, receipts: map<Uuid, Receipt>, now: int)
    ensures forall a :: a in DueRows(attendees, receipts, now) <==> a in attendees && DueNow(receipts, a, now)
  {
    if attendees != [] {
      hide DueNow;
      assert attendees == [attendees[0]] + attendees[1..];
      DueRowsFacts(attendees[1..], receipts, now);
    }
  }

  /** `due_receipts`: the first `limit` due rows in walking order. */
  function DueReceipts(j: Job, now: int, limit: nat): (s: seq<Attendee>) {
    DueRowsFacts(j.attendees, j.receipts, now);
    Take(SortDue(j.receipts, DueRows(j.attendees, j.receipts, now)), limit)
  }

  function MissingRows(attendees: seq<Attendee>, receipts: map<Uuid, Receipt>): (s: seq<Attendee>) {
    if attendees == [] then []
    else (if Eligible(attendees[0]) && attendees[0].id !in receipts then [attendees[0]] else [])
         + MissingRows(attendees[1..], receipts)
  }

  /** Every eligible registration carries a sent or dropped receipt. */
  predicate AllSettled(attendees: seq<Attendee>, receipts: map<Uuid, Receipt>) {
    forall i :: 0 <= i < |attendees| && Eligible(attendees[i]) ==> Settled(receipts, attendees[i].id)
  }

  // ── recipients ──

  /** Where the channel would send, or None when the address is unusable. */
  function Recipient(channel: string, a: Attendee): (r: Option<string>) {
    if channel == "sms" then
      var phone := Trim(if a.phone.Some? then a.phone.value else "");
      if phone == "" then None else Some(phone)
    else if a.email == "" || '@' !in a.email then None
    else Some(a.email)
  }

  // ── awaited operations ──

  predicate Lands(env: Env, t: nat) {
    env.db(t) == Fine || env.db(t) == Fault(true)
  }

  function Tick(j: Job): (r: Job) {
    j.(clock := j.clock + 1)
  }

  function DbTick(j: Job, env: Env): (r: Job) {
    j.(clock := j.clock + 1, faults := j.faults + if env.db(j.clock).Fault? then 1 else 0)
  }

  /** First writer wins: a receipt already sent is left alone. */
  function MarkReceipt(j: Job, id: Uuid, outcome: Outcome, env: Env): (r: Job) {
    var t := DbTick(j, env);
    if Lands(env, j.clock) && id in j.receipts && !j.receipts[id].sent
    then t.(receipts := j.receipts[id := j.receipts[id].(sent := true, outcome := Some(outcome))],
            log := if outcome == DroppedWindowClosed then j.log + [Dropped(id)] else j.log)
    else t
  }

  /** A typed failure: recorded on the row, counted, and the pass goes on. */
  function RecordFailure(j: Job, kind: ErrorKind, env: Env): (r: (Job, bool)) {
    var t := DbTick(j, env);
    var written := if Lands(env, j.clock) then t.(error := Some(kind)) else t;
    if env.db(j.clock).Fault? then (written, false)
    else (written.(tally := written.tally.(failures := written.tally.failures + 1)), true)
  }

  // ── one receipt ──

  function DropOne(j: Job, a: Attendee, env: Env): (r: (Job, bool)) {
    var marked := MarkReceipt(j, a.id, DroppedWindowClosed, env);
    if env.db(j.clock).Fault? then (marked, false)
    else (marked.(tally := marked.tally.(dropped := marked.tally.dropped + 1)), true)
  }

  function EnqueueOne(j: Job, a: Attendee, recipient: string, env: Env): (r: (Job, bool)) {
    var sms := j.plan.channel == "sms";
    var asked := Tick(j);
    var taken := asked.(log := j.log + [Sent(a.id, sms, recipient)]);
    match env.enqueue(j.clock, a.id)
    case CutOff(landed) => ((if landed then taken else asked).(faults := j.faults + 1), false)
    case No(_) => RecordFailure(asked, if sms then SmsEnqueueRefused else EnqueueRefused, env)
    case Yes =>
      var marked := MarkReceipt(taken, a.id, Queued, env);
      if env.db(taken.clock).Fault? then (marked, false)
      else
        var s := marked.tally;
        (marked.(tally := if sms then s.(smsQueued := s.smsQueued + 1) else s.(queued := s.queued + 1)), true)
  }

  /** The seven ways a receipt ends its turn: dropped, three render failures, no address,
      refused by the queue, queued. The flag is false when the pass is cut off instead. */
  function WalkOne(j: Job, a: Attendee, env: Env): (r: (Job, bool)) {
    if j.plan.dateEnd <= env.at(j.clock) then DropOne(j, a, env)
    else
      match env.render(j.clock, a.id)
      case CutOff(_) => (Tick(j).(faults := j.faults + 1), false)
      case No(kind) => RecordFailure(Tick(j), kind, env)
      case Yes =>
        match Recipient(j.plan.channel, a)
        case None => RecordFailure(Tick(j), RecipientInvalid, env)
        case Some(recipient) => EnqueueOne(Tick(j), a, recipient, env)
  }

  function WalkMany(j: Job, due: seq<Attendee>, env: Env): (r: (Job, bool))
    decreases |due|
  {
    if due == [] then (j, true)
    else
      var (j1, ok) := WalkOne(j, due[0], env);
      if !ok then (j1, false) else WalkMany(j1, due[1..], env)
  }

  /** One trip round the receipt loop: fetch a batch, walk it, stop when it was short. */
  function Round(j: Job, batch: nat, env: Env): (r: (Job, Ended)) {
    if env.db(j.clock).Fault? then (DbTick(j, env), Aborted)
    else
      var due := DueReceipts(j, env.at(j.clock), batch);
      var (j1, ok) := WalkMany(DbTick(j, env), due, env);
      (j1, if !ok then Aborted else if due == [] || |due| < batch then Exited else More)
  }

  /** n trips, or fewer when the loop ends before. */
  function Rounds(j: Job, n: nat, batch: nat, env: Env): (r: (Job, Ended))
    decreases n
  {
    if n == 0 then (j, More)
    else
      var (j1, e) := Round(j, batch, env);
      if e != More then (j1, e) else Rounds(j1, n - 1, batch, env)
  }

  // ── before and after the walk ──

  function WithReceipts(receipts: map<Uuid, Receipt>, rows: seq<Attendee>, delay: int): (m: map<Uuid, Receipt>)
    decreases |rows|
  {
    if rows == [] then receipts
    else
      var a := rows[0];
      var due := if a.createdAt.Some? then Some(a.createdAt.value + delay) else None;
      WithReceipts(receipts[a.id := Receipt(due, false, None)], rows[1..], delay)
  }

  /** Missing receipts created, at most `cap`, in id order. */
  function Materialize(j: Job, cap: nat, env: Env): (r: Job) {
    var rows := Take(MissingRows(j.attendees, j.receipts), cap);
    var t := DbTick(j, env);
    var written := if Lands(env, j.clock) then t.(receipts := WithReceipts(j.receipts, rows, j.plan.delay)) else t;
    if env.db(j.clock).Fault? then written
    else written.(tally := j.tally.(materialized := j.tally.materialized + |rows|))
  }

  function RecomputeDone(j: Job, env: Env): (r: Job) {
    var t := DbTick(j, env);
    if Lands(env, j.clock) then t.(done := AllSettled(j.attendees, j.receipts)) else t
  }

  function ClearFailure(j: Job, env: Env): (r: Job) {
    var t := DbTick(j, env);
    if Lands(env, j.clock) then t.(error := None) else t
  }

  /** Due again at once, unless done. */
  function Rearm(j: Job, env: Env): (r: Job) {
    var t := DbTick(j, env);
    if Lands(env, j.clock) && !j.done then t.(scheduledAt := env.at(j.clock)) else t
  }

  /** Completion, then the overflow re-arm when work is left. */
  function Close(j: Job, env: Env): (r: (Job, bool)) {
    var settled := RecomputeDone(j, env);
    if env.db(j.clock).Fault? then (settled, false)
    else
      var cleared := if settled.done
                     then ClearFailure(settled.(tally := settled.tally.(completed := settled.tally.completed + 1)), env)
                     else settled;
      if settled.done && env.db(settled.clock).Fault? then (cleared, false)
      else
        var counted := DbTick(cleared, env);
        if env.db(cleared.clock).Fault? then (counted, false)
        else
          var peeked := DbTick(counted, env);
          if env.db(counted.clock).Fault? then (peeked, false)
          else
            var unmaterialized := |MissingRows(j.attendees, j.receipts)|;
            var stillDue := |DueReceipts(j, env.at(counted.clock), 1)|;
            if !settled.done && (unmaterialized > 0 || stillDue > 0) then
              var rearmed := Rearm(peeked, env);
              if env.db(peeked.clock).Fault? then (rearmed, false)
              else (rearmed.(tally := rearmed.tally.(rearmed := rearmed.tally.rearmed + 1)), true)
            else (peeked, true)
  }

  /** The state the receipt loop starts from: receipts materialised and the event row read. */
  function Prepared(j: Job, batch: nat, env: Env): (r: (Job, bool)) {
    var materialized := Materialize(j, batch, env);
    if env.db(j.clock).Fault? then (materialized, false)
    else
      var read := DbTick(materialized, env);
      (read, !env.db(materialized.clock).Fault?)
  }

  /** One run of the row, its receipt loop given `trips` rounds to end in. */
  function RunOne(j: Job, trips: nat, batch: nat, env: Env): (r: (Job, bool)) {
    if j.plan.templateRef == None then RecordFailure(j, TemplateUnresolved, env)
    else
      var (ready, ok) := Prepared(j, batch, env);
      if !ok then (ready, false)
      else
        var (walked, e) := Rounds(ready, trips, batch, env);
        if e != Exited then (walked, false) else Close(walked, env)
  }
}
