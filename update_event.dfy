/**
 * The event published for a verified webhook notification
 * (Event/UpdateReceivedEvent.php): an immutable holder of the raw request
 * body, published under a fixed event name.
 */
module UpdateEvent {

  /** The name the event is dispatched under. */
  const NAME := "smatyas_facebook.update.received"

  /** The raw body of the notification, exactly as received. */
  datatype UpdateReceivedEvent = UpdateReceivedEvent(content: string)
}
