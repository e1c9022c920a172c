/** The registration states every verb and engine reads, and the one register command. */
module Registrations {
  import opened Wrappers
  import opened Text

  datatype RegState = Draft | Open | Done | Cancel

  datatype RegisterCommand = RegisterCommand(eventId: Uuid, slot: Option<Uuid>, ticket: Option<Uuid>, name: string,
                                             email: string, phone: Option<string>, companyName: Option<string>,
                                             partnerId: Option<Uuid>, leadRuleSkip: bool)
}
