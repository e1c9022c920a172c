/** The event reads behind the public routes. */
module EventReads {
  import opened Wrappers
  import opened Text

  datatype Event = Event(id: Uuid, name: string, begin: int, end: int, tz: string, badgeFormat: string,
                         published: bool, cancelled: bool)

  datatype Slot = Slot(eventId: Uuid, begin: int, end: Option<int>)

  /** A slot's hours as a scoped token reads them. */
  datatype SlotWindow = SlotWindow(slotId: Uuid, begin: int, end: int)

  /** A read answers with a row, with none, or fails. */
  datatype Read<+T> = Found(value: T) | Absent | Down

  /** Absent for an event that is missing, unpublished or cancelled alike. */
  function FindPublished(events: Uuid -> Read<Event>, id: Uuid): (e: Read<Event>)
    ensures e.Found? <==> events(id).Found? && events(id).value.published && !events(id).value.cancelled
    ensures e.Found? ==> e == events(id)
    ensures e.Down? <==> events(id).Down?
  {
    match events(id)
    case Found(e) => if !e.published || e.cancelled then Absent else Found(e)
    case Absent => Absent
    case Down => Down
  }

  /** A slot's window, only when the slot is the named event's. */
  function SlotWindowOfEvent(slots: Uuid -> Read<Slot>, id: Uuid, eventId: Uuid): (w: Read<SlotWindow>) {
    match slots(id)
    case Found(s) =>
      if s.eventId != eventId then Absent
      else Found(SlotWindow(id, s.begin, if s.end.Some? then s.end.value else s.begin))
    case Absent => Absent
    case Down => Down
  }
}
