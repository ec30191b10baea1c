/**
 The states of a queued notification and the domain's rule for moving between them.
 */
module Delivery {

  datatype DeliveryStatus =
    | PendingChannel
    | SendingChannel
    | RetryWait
    | BlockedActivation
    | BlockedReconnect
    | ProviderAccepted
    | Expired
    | Cancelled
    | DeadLetter

  predicate IsTerminal(s: DeliveryStatus) {
    s.ProviderAccepted? || s.Expired? || s.Cancelled? || s.DeadLetter?
  }

  /** Waiting to be claimed, now or after an unblock. */
  predicate IsSendable(s: DeliveryStatus) {
    s.PendingChannel? || s.RetryWait? || s.BlockedActivation? || s.BlockedReconnect?
  }

  predicate CanTransitionTo(a: DeliveryStatus, b: DeliveryStatus) {
    if IsTerminal(a) then a == b
    else match a
      case PendingChannel =>
        b.SendingChannel? || b.BlockedActivation? || b.BlockedReconnect? || b.Expired? || b.Cancelled?
      case SendingChannel =>
        || b.ProviderAccepted? || b.RetryWait? || b.BlockedActivation? || b.BlockedReconnect?
        || b.Expired? || b.DeadLetter?
      case _ => b.SendingChannel? || b.Expired? || b.Cancelled? || b.DeadLetter?
  }
}
