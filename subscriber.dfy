/**
 * The subscriber gate: the route middleware that lets a request through only
 * for a student whose current receipt is `active` or `past_due`, and the
 * boolean check other handlers use for the same question.
 */
module Subscriber {
  import opened Common
  import opened Db

  /** How the middleware ends: it calls `next`, answers with an error, or throws. */
  datatype Gate = Next | Rejected(reply: Reply) | Crashed

  function StatusMessage(status: string): string
  {
    "Unauthorized: You're subscription status is' " + status + "!"
  }

  /**
   * `isSubscriber`: a student without a receipt reference is rejected; a
   * receipt whose status is neither `active` nor `past_due` is rejected with
   * that status in the message; a reference to a missing receipt throws.
   */
  function IsSubscriber(subscriptionId: Option<ReceiptId>, receipts: map<ReceiptId, Receipt>): (g: Gate)
    ensures subscriptionId.None? ==> g == Rejected(Reply(401, "Unauthorized: You are not a subscriber!"))
    ensures g == Next <==>
              subscriptionId.Some? && subscriptionId.value in receipts
              && receipts[subscriptionId.value].status in {"active", "past_due"}
    ensures g == Crashed <==> subscriptionId.Some? && subscriptionId.value !in receipts
    ensures g.Rejected? ==> g.reply.status == 401
    ensures g.Rejected? && subscriptionId.Some? ==>
              subscriptionId.value in receipts && Contains(g.reply.message, receipts[subscriptionId.value].status)
  {
    if subscriptionId.Some? then
      if subscriptionId.value !in receipts then Crashed
      else
        var status := receipts[subscriptionId.value].status;
        if status != "active" && status != "past_due" then
          ContainsAt(StatusMessage(status), status, 45);
          Rejected(Reply(401, StatusMessage(status)))
        else Next
    else Rejected(Reply(401, "Unauthorized: You are not a subscriber!"))
  }

  /**
   * `checkSubscription`: true exactly for an `active` or `past_due` receipt;
   * a failed lookup or a missing receipt (the access to `.status` throws and
   * is caught) gives false.
   */
  function CheckSubscription(lookup: Remote<Option<Receipt>>): (b: bool)
    ensures b <==> lookup.Returned? && lookup.value.Some? && lookup.value.value.status in {"active", "past_due"}
  {
    match lookup
    case Threw(_, _) => false
    case Returned(found) =>
      if found.None? then false
      else !(found.value.status != "active" && found.value.status != "past_due")
  }

  /** The store's answer to `Subscription.findById(id)`. */
  function FindReceipt(receipts: map<ReceiptId, Receipt>, id: ReceiptId): Remote<Option<Receipt>>
  {
    Returned(if id in receipts then Some(receipts[id]) else None)
  }

  /**
   * The middleware and the boolean check agree: a student with a receipt
   * reference passes the gate exactly when the check on that receipt is true,
   * and a missing receipt, which makes the gate throw, makes the check false.
   */
  lemma GateAgreesWithCheck(id: ReceiptId, receipts: map<ReceiptId, Receipt>)
    ensures IsSubscriber(Some(id), receipts) == Next <==> CheckSubscription(FindReceipt(receipts, id))
    ensures IsSubscriber(Some(id), receipts) == Crashed ==> !CheckSubscription(FindReceipt(receipts, id))
  {
  }
}
