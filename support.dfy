/** The ticket number `SupportTicket.save` fills in (farmers_app/models.py). */
module Support {
  import opened Wrappers
  import opened Identifiers

  datatype TicketStatus = Open | InProgress | Resolved | Closed
  datatype Priority = Low | Medium | High | Urgent

  datatype SupportTicket = SupportTicket(
    ticketNumber: string,
    user: nat,
    subject: string,
    description: string,
    priority: Priority,
    status: TicketStatus,
    order: Option<nat>)

  /** `SupportTicket.save`: a blank ticket number gets `TKT-` and eight upper-case hex digits; nothing else changes. */
  function SaveTicket(t: SupportTicket, hex: string): (r: SupportTicket)
    requires IsUuidHex(hex)
    ensures t.ticketNumber != "" ==> r == t
    ensures t.ticketNumber == "" ==>
      && r.(ticketNumber := "") == t
      && |r.ticketNumber| == 12 && r.ticketNumber[..4] == "TKT-" && AllUpperHex(r.ticketNumber[4..])
    ensures |r.ticketNumber| <= NumberMaxLength || r == t
  {
    if t.ticketNumber == "" then t.(ticketNumber := TicketNumber(hex)) else t
  }

  /** A saved ticket keeps its number on every later save. */
  lemma SaveTicketIdempotent(t: SupportTicket, h1: string, h2: string)
    requires IsUuidHex(h1) && IsUuidHex(h2)
    ensures SaveTicket(SaveTicket(t, h1), h2) == SaveTicket(t, h1)
  {
    assert SaveTicket(t, h1).ticketNumber != "" by {
      if t.ticketNumber == "" {
        assert |SaveTicket(t, h1).ticketNumber| == 12;
      }
    }
  }
}
