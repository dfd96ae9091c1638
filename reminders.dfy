/**
 * Reminder tasks handed to the external scheduler. The scheduler itself is
 * outside the model; the `Outbox` records every task handed to it, in order.
 */
module Reminders {
  import opened Wrappers
  import opened Catalog
  import opened BookingContext

  datatype Channel = Email

  /** What a reminder is about: a submitted booking, or a product order with its appointment details. */
  datatype Subject =
    | AboutBooking(booking: Booking)
    | AboutOrder(date: DayNumber, time: Option<string>, pkg: Option<Package>, products: seq<Product>)

  datatype Reminder = Reminder(channel: Channel, date: DayNumber, recipient: string, subject: Subject)

  /** An e-mail reminder, due one day before the appointment day. */
  function ReminderBefore(appointment: DayNumber, recipient: string, subject: Subject): (r: Reminder)
    ensures r.date < appointment && appointment - r.date == 1
    ensures r.channel == Email && r.recipient == recipient && r.subject == subject
  {
    Reminder(Email, appointment - 1, recipient, subject)
  }

  /** The tasks handed to the scheduler so far; a hand-off is never retried or withdrawn. */
  class Outbox {
    var scheduled: seq<Reminder>

    constructor ()
      ensures scheduled == []
    {
      scheduled := [];
    }

    method Schedule(r: Reminder)
      modifies this
      ensures scheduled == old(scheduled) + [r]
    {
      scheduled := scheduled + [r];
    }
  }
}
