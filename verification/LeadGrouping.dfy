/**
 The grouping strategy: one batch split by (grouping, group key), in the key order a
 `BTreeMap` iterates, members in walk order.
 */
module LeadGrouping {
  import opened Wrappers
  import opened Text
  import opened LeadModel

  const PER_ORDER := "per_order"
  const PER_EVENT_DAY := "per_event_day"

  /** The map key: grouping first, then group key. */
  datatype Slot = Slot(grouping: string, key: string)

  datatype Group = Group(slot: Slot, members: seq<Registration>)

  /** Sale-linked rows go per order, walk-ins per event and day. */
  function SlotOf(eventId: Uuid, r: Registration): (s: Slot) {
    match r.saleOrderId
    case Some(order) => Slot(PER_ORDER, UuidText(order))
    case None =>
      var day := if r.createdDay.Some? then r.createdDay.value else "unknown-day";
      Slot(PER_EVENT_DAY, UuidText(eventId) + ":" + day)
  }

  predicate SlotLess(a: Slot, b: Slot) {
    StrLess(a.grouping, b.grouping) || (a.grouping == b.grouping && StrLess(a.key, b.key))
  }

  lemma SlotLessTotal(a: Slot, b: Slot)
    ensures SlotLess(a, b) || SlotLess(b, a) || a == b
  {
    StrLessTotal(a.grouping, b.grouping);
    StrLessTotal(a.key, b.key);
  }

  lemma SlotLessTransitive(a: Slot, b: Slot, c: Slot)
    requires SlotLess(a, b) && SlotLess(b, c)
    ensures SlotLess(a, c)
  {
    if StrLess(a.grouping, b.grouping) && StrLess(b.grouping, c.grouping) {
      StrLessTransitive(a.grouping, b.grouping, c.grouping);
    } else if a.grouping == b.grouping == c.grouping {
      StrLessTransitive(a.key, b.key, c.key);
    }
  }

  lemma SlotLessIrreflexive(a: Slot)
    ensures !SlotLess(a, a)
  {
    StrLessIrreflexive(a.grouping);
    StrLessIrreflexive(a.key);
  }

  /** `entry(slot).or_default().push(r)` on the map kept as a key-ordered list. */
  function Push(groups: seq<Group>, slot: Slot, r: Registration): (s: seq<Group>) {
    if groups == [] || SlotLess(slot, groups[0].slot) then [Group(slot, [r])] + groups
    else if groups[0].slot == slot then [groups[0].(members := groups[0].members + [r])] + groups[1..]
    else [groups[0]] + Push(groups[1..], slot, r)
  }

  function GroupBy(eventId: Uuid, batch: seq<Registration>): (s: seq<Group>) {
    if batch == [] then []
    else
      var last := batch[|batch| - 1];
      Push(GroupBy(eventId, batch[..|batch| - 1]), SlotOf(eventId, last), last)
  }

  /** The rows of a batch that fall in one slot, in walk order. */
  function Select(eventId: Uuid, batch: seq<Registration>, slot: Slot): (s: seq<Registration>) {
    if batch == [] then []
    else
      var last := batch[|batch| - 1];
      Select(eventId, batch[..|batch| - 1], slot) + if SlotOf(eventId, last) == slot then [last] else []
  }

  // ── what the grouping is ──

  ghost predicate Ordered(groups: seq<Group>) {
    forall i, j :: 0 <= i < j < |groups| ==> SlotLess(groups[i].slot, groups[j].slot)
  }

  function Slots(groups: seq<Group>): (s: set<Slot>)
    ensures forall i :: 0 <= i < |groups| ==> groups[i].slot in s
    ensures forall x :: x in s ==> exists i :: 0 <= i < |groups| && groups[i].slot == x
  {
    if groups == [] then {}
    else
      assert groups == [groups[0]] + groups[1..];
      {groups[0].slot} + Slots(groups[1..])
  }

  /** The slots a batch's rows fall in. */
  function SlotsOf(eventId: Uuid, batch: seq<Registration>): (s: set<Slot>)
    ensures forall r :: r in batch ==> SlotOf(eventId, r) in s
    ensures forall x :: x in s ==> exists r :: r in batch && SlotOf(eventId, r) == x
  {
    if batch == [] then {}
    else
      var rest, last := batch[..|batch| - 1], batch[|batch| - 1];
      assert batch == rest + [last];
      SlotsOf(eventId, rest) + {SlotOf(eventId, last)}
  }

  function TotalMembers(groups: seq<Group>): (n: nat) {
    if groups == [] then 0 else |groups[0].members| + TotalMembers(groups[1..])
  }

  /** The members `groups` holds for a slot; none when the slot is absent. */
  function MembersAt(groups: seq<Group>, slot: Slot): (s: seq<Registration>) {
    if groups == [] then []
    else if groups[0].slot == slot then groups[0].members
    else MembersAt(groups[1..], slot)
  }

  lemma {:induction false} PushCounts(groups: seq<Group>, slot: Slot, r: Registration)
    ensures Slots(Push(groups, slot, r)) == Slots(groups) + {slot}
    ensures TotalMembers(Push(groups, slot, r)) == TotalMembers(groups) + 1
  {
    var p := Push(groups, slot, r);
    if groups == [] || SlotLess(slot, groups[0].slot) {
      assert p[1..] == groups;
    } else if groups[0].slot == slot {
      assert p[1..] == groups[1..];
    } else {
      PushCounts(groups[1..], slot, r);
      assert p[1..] == Push(groups[1..], slot, r);
    }
  }

  lemma OrderedCons(g: Group, tail: seq<Group>)
    requires Ordered(tail)
    requires forall x :: x in Slots(tail) ==> SlotLess(g.slot, x)
    ensures Ordered([g] + tail)
  {
    hide SlotLess;
  }

  lemma OrderedParts(groups: seq<Group>)
    requires Ordered(groups) && groups != []
    ensures Ordered(groups[1..])
    ensures forall x :: x in Slots(groups[1..]) ==> SlotLess(groups[0].slot, x)
  {
    hide SlotLess;
    var tail := groups[1..];
    forall x | x in Slots(tail) ensures SlotLess(groups[0].slot, x) {
      var i :| 0 <= i < |tail| && tail[i].slot == x;
      assert tail[i] == groups[i + 1];
    }
  }

  lemma {:induction false} PushKeepsOrder(groups: seq<Group>, slot: Slot, r: Registration)
    requires Ordered(groups)
    ensures Ordered(Push(groups, slot, r))
  {
    if groups == [] {
    } else {
      OrderedParts(groups);
      var head, tail := groups[0], groups[1..];
      assert groups == [head] + tail;
      if SlotLess(slot, head.slot) {
        forall x | x in Slots(tail) ensures SlotLess(slot, x) {
          SlotLessTransitive(slot, head.slot, x);
        }
        OrderedCons(Group(slot, [r]), groups);
      } else if head.slot == slot {
        OrderedCons(head.(members := head.members + [r]), tail);
      } else {
        SlotLessTotal(slot, head.slot);
        PushKeepsOrder(tail, slot, r);
        PushCounts(tail, slot, r);
        OrderedCons(head, Push(tail, slot, r));
      }
    }
  }

  lemma {:induction false} PushAppends(groups: seq<Group>, slot: Slot, r: Registration, at: Slot)
    requires Ordered(groups)
    ensures MembersAt(Push(groups, slot, r), at)
         == MembersAt(groups, at) + if at == slot then [r] else []
  {
    if groups == [] {
    } else if SlotLess(slot, groups[0].slot) {
      if at == slot { BelowHeadIsAbsent(groups, slot); }
      assert Push(groups, slot, r)[1..] == groups;
    } else if groups[0].slot == slot {
      assert Push(groups, slot, r)[1..] == groups[1..];
    } else {
      PushAppends(groups[1..], slot, r, at);
      assert Push(groups, slot, r)[1..] == Push(groups[1..], slot, r);
    }
  }

  lemma {:induction false} BelowHeadIsAbsent(groups: seq<Group>, slot: Slot)
    requires Ordered(groups)
    requires groups != [] ==> SlotLess(slot, groups[0].slot)
    ensures MembersAt(groups, slot) == []
  {
    if groups != [] {
      SlotLessIrreflexive(slot);
      if |groups| > 1 { SlotLessTransitive(slot, groups[0].slot, groups[1].slot); }
      BelowHeadIsAbsent(groups[1..], slot);
    }
  }

  lemma {:induction false} MembersAtIndex(groups: seq<Group>, i: nat)
    requires Ordered(groups) && i < |groups|
    ensures MembersAt(groups, groups[i].slot) == groups[i].members
  {
    if i > 0 {
      SlotLessIrreflexive(groups[i].slot);
      assert groups[0].slot != groups[i].slot;
      MembersAtIndex(groups[1..], i - 1);
    }
  }

  /** The groups come in key order, cover exactly the batch's slots, and hold each row once. */
  lemma {:induction false} GroupByPartitions(eventId: Uuid, batch: seq<Registration>)
    ensures Ordered(GroupBy(eventId, batch))
    ensures Slots(GroupBy(eventId, batch)) == SlotsOf(eventId, batch)
    ensures TotalMembers(GroupBy(eventId, batch)) == |batch|
  {
    if batch != [] {
      hide Push, SlotOf, SlotLess, Ordered, TotalMembers, Slots;
      var rest, last := batch[..|batch| - 1], batch[|batch| - 1];
      GroupByPartitions(eventId, rest);
      var groups := GroupBy(eventId, rest);
      PushKeepsOrder(groups, SlotOf(eventId, last), last);
      PushCounts(groups, SlotOf(eventId, last), last);
    }
  }

  lemma {:induction false} GroupBySelects(eventId: Uuid, batch: seq<Registration>, at: Slot)
    ensures MembersAt(GroupBy(eventId, batch), at) == Select(eventId, batch, at)
  {
    if batch != [] {
      var rest, last := batch[..|batch| - 1], batch[|batch| - 1];
      GroupBySelects(eventId, rest, at);
      GroupByPartitions(eventId, rest);
      PushAppends(GroupBy(eventId, rest), SlotOf(eventId, last), last, at);
    }
  }

  lemma {:induction false} SelectIsFilter(eventId: Uuid, batch: seq<Registration>, slot: Slot)
    ensures forall r :: r in Select(eventId, batch, slot) <==> r in batch && SlotOf(eventId, r) == slot
    ensures Distinct(batch) ==> Distinct(Select(eventId, batch, slot))
  {
    if batch != [] {
      hide SlotOf;
      var rest, last := batch[..|batch| - 1], batch[|batch| - 1];
      assert batch == rest + [last];
      SelectIsFilter(eventId, rest, slot);
      var s := Select(eventId, rest, slot);
      if Distinct(batch) {
        forall i | 0 <= i < |s| ensures s[i].id != last.id {
          assert s[i] in rest;
        }
      }
    }
  }

  /** The group key alone tells the grouping: an order's key is a bare uuid, a day's is longer. */
  lemma KeyDeterminesSlot(e1: Uuid, r1: Registration, e2: Uuid, r2: Registration)
    requires SlotOf(e1, r1).key == SlotOf(e2, r2).key
    ensures SlotOf(e1, r1) == SlotOf(e2, r2)
    ensures r1.saleOrderId == r2.saleOrderId
    ensures r1.saleOrderId == None ==> e1 == e2
  {
    match (r1.saleOrderId, r2.saleOrderId)
    case (Some(a), Some(b)) => UuidTextInjective(a, b);
    case (None, None) =>
      assert SlotOf(e1, r1).key[..36] == UuidText(e1) && SlotOf(e2, r2).key[..36] == UuidText(e2);
      UuidTextInjective(e1, e2);
    case _ =>
  }
}
