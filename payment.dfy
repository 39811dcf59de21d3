/**
 * The student payment controller: input validation, the subscription
 * handlers that move a student's entitlement (receipt reference and enrollment
 * credits) and the receipts through their states, the billing webhook, invoice
 * payment, and the default-card rules for payment methods.
 *
 * Every call to the billing provider is a parameter holding what that call
 * returned or threw. A handler that runs inside a database transaction writes
 * nothing unless the whole callback succeeds: the model computes the new
 * documents first and stores them only on the success path.
 */
module Payment {
  import opened Common
  import opened Plans
  import opened Db
  import opened Cursor

  /** The correlation data the handlers attach to every billing subscription. */
  datatype Metadata = Metadata(user: UserId, dbReceipt: ReceiptId)

  /** The fields of the provider's subscription object the core reads. */
  datatype RemoteSubscription = RemoteSubscription(
    id: string,
    status: string,
    priceId: string,
    trialEnd: Option<int>,
    endedAt: Option<int>,
    billingCycleAnchor: Option<int>,
    currentPeriodStart: Option<int>,
    currentPeriodEnd: Option<int>,
    metadata: Option<Metadata>)

  // ---------------------------------------------------------------------------
  // Errors and their HTTP status
  // ---------------------------------------------------------------------------

  datatype PaymentError =
    | InvalidPlan
    | InvalidOrMissingPlan
    | InvalidPaymentMethod
    | InvalidUserData
    | SubscriptionFailed(status: string)
    | UpdateFailed(status: string)
    | SubscriptionNotFound
    | NotOwner
    | AlreadySubscribed(plan: string)
    | ProviderError(kind: string, text: string)

  function Message(e: PaymentError): string
  {
    match e
    case InvalidPlan => "Invalid plan"
    case InvalidOrMissingPlan => "Invalid or missing plan"
    case InvalidPaymentMethod => "Invalid payment method ID"
    case InvalidUserData => "Invalid user data"
    case SubscriptionFailed(s) => "Subscription failed with '" + s + "' status"
    case UpdateFailed(s) => "Subscription update failed with '" + s + "' status"
    case SubscriptionNotFound => "Subscription not found"
    case NotOwner => "Unauthorized" + ": You do not own this subscription"
    case AlreadySubscribed(plan) => "Already subscribed to " + plan + " plan"
    case ProviderError(_, text) => text
  }

  function FromRemote<T>(r: Remote<T>): PaymentError
    requires r.Threw?
  {
    ProviderError(r.kind, r.message)
  }

  /** The status `subscribe` and `resubscribe` derive from an error's message. */
  function SubscribeStatus(msg: string): int
  {
    if Contains(msg, "Invalid") || Contains(msg, "failed") then 400 else 500
  }

  /** The status `updateSubscriptionPlan` derives from an error's message. */
  function PlanChangeStatus(msg: string): int
  {
    if Contains(msg, "Invalid") || Contains(msg, "failed") || Contains(msg, "Unauthorized") then 400 else 500
  }

  function SubscribeReply(e: PaymentError): Reply
  {
    Reply(SubscribeStatus(Message(e)), Message(e))
  }

  /** `resubscribe` hides the provider's text behind a fixed one for invalid-request errors, after choosing the status. */
  function ResubscribeReply(e: PaymentError): Reply
  {
    Reply(SubscribeStatus(Message(e)),
          if e.ProviderError? && e.kind == "StripeInvalidRequestError" then "Invalid customer or payment details" else Message(e))
  }

  function PlanChangeReply(e: PaymentError): Reply
  {
    Reply(PlanChangeStatus(Message(e)),
          if e.ProviderError? && e.kind == "StripeInvalidRequestError" then "Invalid subscription or payment details" else Message(e))
  }

  /** The validation errors and a failed status answer 400 in every handler. */
  lemma ClientErrorsAre400(status: string)
    ensures SubscribeStatus(Message(InvalidPlan)) == 400
    ensures SubscribeStatus(Message(InvalidPaymentMethod)) == 400
    ensures SubscribeStatus(Message(InvalidUserData)) == 400
    ensures SubscribeStatus(Message(SubscriptionFailed(status))) == 400
    ensures PlanChangeStatus(Message(InvalidOrMissingPlan)) == 400
    ensures PlanChangeStatus(Message(InvalidUserData)) == 400
    ensures PlanChangeStatus(Message(UpdateFailed(status))) == 400
  {
    ContainsPrefix(Message(InvalidPlan), "Invalid");
    ContainsPrefix(Message(InvalidPaymentMethod), "Invalid");
    ContainsPrefix(Message(InvalidUserData), "Invalid");
    ContainsPrefix(Message(InvalidOrMissingPlan), "Invalid");
    ContainsAt(Message(SubscriptionFailed(status)), "failed", 13);
    ContainsAt(Message(UpdateFailed(status)), "failed", 20);
  }

  /** A plan change on someone else's receipt answers 400. */
  lemma NotOwnerIs400()
    ensures PlanChangeStatus(Message(NotOwner)) == 400
  {
    StartsWithConcat("Unauthorized", ": You do not own this subscription");
    ContainsPrefix(Message(NotOwner), "Unauthorized");
  }

  /**
   * A plan change answers 500 exactly when the message contains none of
   * "Invalid", "failed" and "Unauthorized", and 400 otherwise.
   */
  lemma PlanChangeServerError(msg: string)
    ensures PlanChangeStatus(msg) == 500 <==>
              !Contains(msg, "Invalid") && !Contains(msg, "failed") && !Contains(msg, "Unauthorized")
    ensures PlanChangeStatus(msg) != 500 ==> PlanChangeStatus(msg) == 400
  {
  }

  /**
   * A message without `I`, without `U`, and without `f` or without `a`
   * contains none of the words that make a plan change answer 400.
   */
  lemma {:induction false} LacksStatusWords(msg: string)
    requires 'I' !in msg && 'U' !in msg && ('f' !in msg || 'a' !in msg)
    ensures !Contains(msg, "Invalid") && !Contains(msg, "failed") && !Contains(msg, "Unauthorized")
  {
    NotContainsChar(msg, "Invalid", 0);
    if 'f' !in msg {
      NotContainsChar(msg, "failed", 0);
    } else {
      NotContainsChar(msg, "failed", 1);
    }
    NotContainsChar(msg, "Unauthorized", 0);
  }

  /**
   * A plan change whose receipt is missing answers 500: its message contains
   * none of the words the handler maps to 400.
   */
  lemma NotFoundIs500()
    ensures PlanChangeStatus(Message(SubscriptionNotFound)) == 500
  {
    LacksStatusWords(Message(SubscriptionNotFound));
  }

  /** A change to the plan already subscribed to answers 500, for the same reason. */
  lemma AlreadySubscribedIs500(p: PlanName)
    ensures PlanChangeStatus(Message(AlreadySubscribed(Name(p)))) == 500
  {
    var name := Name(p);
    var msg := "Already subscribed to " + name + " plan";
    assert 'I' !in msg && 'U' !in msg && 'f' !in msg;
    LacksStatusWords(msg);
  }

  // ---------------------------------------------------------------------------
  // Input validation
  // ---------------------------------------------------------------------------

  /** `validateInput` of `subscribe`: plan, then payment method, then the user's fields. */
  function ValidateInput(plan: string, paymentMethodId: string, user: Student): (r: Option<PaymentError>)
    ensures r.None? <==> ParsePlan(plan).Some? && StartsWith(paymentMethodId, "pm_")
                         && user.email != "" && user.firstName != "" && user.lastName != ""
    ensures ParsePlan(plan).None? ==> r == Some(InvalidPlan)
    ensures ParsePlan(plan).Some? && !StartsWith(paymentMethodId, "pm_") ==> r == Some(InvalidPaymentMethod)
    ensures r.Some? ==> SubscribeStatus(Message(r.value)) == 400
  {
    ClientErrorsAre400("");
    if ParsePlan(plan).None? then Some(InvalidPlan)
    else if !StartsWith(paymentMethodId, "pm_") then Some(InvalidPaymentMethod)
    else if user.email == "" || user.firstName == "" || user.lastName == "" then Some(InvalidUserData)
    else None
  }

  /** `validateInputResubscription`: plan, then the user's fields (a billing customer is needed). */
  function ValidateResubscription(plan: string, user: Student): (r: Option<PaymentError>)
    ensures r.None? <==> ParsePlan(plan).Some? && user.customerId != "" && user.firstName != "" && user.lastName != ""
    ensures ParsePlan(plan).None? ==> r == Some(InvalidPlan)
    ensures r.Some? ==> SubscribeStatus(Message(r.value)) == 400
  {
    ClientErrorsAre400("");
    if ParsePlan(plan).None? then Some(InvalidPlan)
    else if user.customerId == "" || user.firstName == "" || user.lastName == "" then Some(InvalidUserData)
    else None
  }

  /** `validateInputForPlanUpgration`: plan, then the user's fields (a current receipt is needed). */
  function ValidatePlanChange(newPlan: string, user: Student): (r: Option<PaymentError>)
    ensures r.None? <==> ParsePlan(newPlan).Some? && user.subscriptionId.Some?
                         && user.customerId != "" && user.firstName != "" && user.lastName != ""
    ensures ParsePlan(newPlan).None? ==> r == Some(InvalidOrMissingPlan)
    ensures r.Some? ==> PlanChangeStatus(Message(r.value)) == 400
  {
    ClientErrorsAre400("");
    if ParsePlan(newPlan).None? then Some(InvalidOrMissingPlan)
    else if user.subscriptionId.None? || user.customerId == "" || user.firstName == "" || user.lastName == "" then Some(InvalidUserData)
    else None
  }

  // ---------------------------------------------------------------------------
  // Receipts
  // ---------------------------------------------------------------------------

  /** `Subscription.create({user, customerId, priceId, status: "pending"})`. */
  function NewReceipt(user: UserId, customerId: string, priceId: string): Receipt
  {
    Receipt(user, customerId, priceId, "pending", "", None, None, None, None, None)
  }

  /** The webhook's copy of the remote status and period fields into a receipt. */
  function WithPeriods(r: Receipt, s: RemoteSubscription): Receipt
  {
    r.(status := s.status, trailsEndAt := s.trialEnd, endsAt := s.endedAt,
       billingCycleAnchor := s.billingCycleAnchor,
       currentPeriodStart := s.currentPeriodStart, currentPeriodEnd := s.currentPeriodEnd)
  }

  /** The handlers' copy: the period fields and the remote subscription id. */
  function WithRemote(r: Receipt, s: RemoteSubscription): Receipt
  {
    WithPeriods(r, s).(subscriptionId := s.id)
  }

  // ---------------------------------------------------------------------------
  // subscribe
  // ---------------------------------------------------------------------------

  /**
   * `subscribe`: create a billing customer and a subscription for the chosen
   * plan. Credits change only when the provider reports the subscription
   * `active`, and then they are set to the plan's grant, whatever they were.
   * `sent` is the metadata attached to the billing subscription, when the
   * request got that far.
   */
  method Subscribe(db: Database, env: PriceIds, uid: UserId, plan: string, paymentMethodId: string,
                   customer: Remote<string>, created: Remote<RemoteSubscription>)
    returns (reply: Reply, sent: Option<Metadata>)
    requires db.Valid() && uid in db.students
    modifies db`students, db`receipts, db`nextReceipt
    ensures db.Valid()
    ensures var invalid := ValidateInput(plan, paymentMethodId, old(db.students[uid]));
            && (reply.status == 200 <==>
                  invalid.None? && customer.Returned? && created.Returned? && created.value.status == "active")
            && (invalid.Some? ==> reply == SubscribeReply(invalid.value) && sent.None?)
            && (invalid.None? && customer.Returned? ==> sent == Some(Metadata(uid, old(db.nextReceipt))))
            && (invalid.None? && customer.Threw? ==> reply == SubscribeReply(FromRemote(customer)) && sent.None?)
            && (invalid.None? && customer.Returned? && created.Threw? ==> reply == SubscribeReply(FromRemote(created)))
            && (invalid.None? && customer.Returned? && created.Returned? && created.value.status != "active" ==>
                  reply == SubscribeReply(SubscriptionFailed(created.value.status)) && reply.status == 400)
    ensures reply.status != 200 ==>
              db.students == old(db.students) && db.receipts == old(db.receipts) && db.nextReceipt == old(db.nextReceipt)
    ensures reply.status == 200 ==>
              var p := ParsePlan(plan).value;
              var id := old(db.nextReceipt);
              && id !in old(db.receipts)
              && db.receipts == old(db.receipts)[id := WithRemote(NewReceipt(uid, customer.value, PriceId(env, p)), created.value)]
              && db.receipts[id].status == "active"
              && db.students == old(db.students)[uid := old(db.students[uid]).(
                   customerId := customer.value, subscriptionId := Some(id), remainingEnrollmentCount := Grant(p))]
  {
    var student := db.students[uid];
    var invalid := ValidateInput(plan, paymentMethodId, student);
    if invalid.Some? {
      return SubscribeReply(invalid.value), None;
    }
    var p := ParsePlan(plan).value;
    if customer.Threw? {
      return SubscribeReply(FromRemote(customer)), None;
    }
    // Inside the transaction: the receipt is created before the billing
    // subscription, and its id travels in the subscription's metadata.
    var id := db.nextReceipt;
    sent := Some(Metadata(uid, id));
    if created.Threw? {
      return SubscribeReply(FromRemote(created)), sent;
    }
    var receipt := WithRemote(NewReceipt(uid, customer.value, PriceId(env, p)), created.value);
    if created.value.status != "active" {
      ClientErrorsAre400(created.value.status);
      return SubscribeReply(SubscriptionFailed(created.value.status)), sent;
    }
    // Commit.
    db.receipts := db.receipts[id := receipt];
    db.nextReceipt := id + 1;
    db.students := db.students[uid := student.(
      customerId := customer.value, subscriptionId := Some(id), remainingEnrollmentCount := Grant(p))];
    reply := Reply(200, "Subscribed successfully!");
  }

  // ---------------------------------------------------------------------------
  // resubscribe
  // ---------------------------------------------------------------------------

  /**
   * `resubscribe`: a new subscription for an existing billing customer. The
   * customer lookup happens before the transaction; the rest is as in
   * `subscribe`, except that the customer id is kept.
   */
  method Resubscribe(db: Database, env: PriceIds, uid: UserId, plan: string,
                     customerLookup: Remote<string>, created: Remote<RemoteSubscription>)
    returns (reply: Reply)
    requires db.Valid() && uid in db.students
    modifies db`students, db`receipts, db`nextReceipt
    ensures db.Valid()
    ensures var invalid := ValidateResubscription(plan, old(db.students[uid]));
            && (reply.status == 200 <==>
                  invalid.None? && customerLookup.Returned? && created.Returned? && created.value.status == "active")
            && (invalid.Some? ==> reply == ResubscribeReply(invalid.value))
            && (invalid.None? && customerLookup.Threw? ==> reply == ResubscribeReply(FromRemote(customerLookup)))
            && (invalid.None? && customerLookup.Returned? && created.Threw? ==> reply == ResubscribeReply(FromRemote(created)))
            && (invalid.None? && customerLookup.Returned? && created.Returned? && created.value.status != "active" ==>
                  reply == ResubscribeReply(SubscriptionFailed(created.value.status)) && reply.status == 400)
    ensures reply.status != 200 ==>
              db.students == old(db.students) && db.receipts == old(db.receipts) && db.nextReceipt == old(db.nextReceipt)
    ensures reply.status == 200 ==>
              var p := ParsePlan(plan).value;
              var id := old(db.nextReceipt);
              var user := old(db.students[uid]);
              && id !in old(db.receipts)
              && db.receipts == old(db.receipts)[id := WithRemote(NewReceipt(uid, user.customerId, PriceId(env, p)), created.value)]
              && db.students == old(db.students)[uid := user.(subscriptionId := Some(id), remainingEnrollmentCount := Grant(p))]
  {
    var student := db.students[uid];
    var invalid := ValidateResubscription(plan, student);
    if invalid.Some? {
      return ResubscribeReply(invalid.value);
    }
    var p := ParsePlan(plan).value;
    if customerLookup.Threw? {
      return ResubscribeReply(FromRemote(customerLookup));
    }
    var id := db.nextReceipt;
    if created.Threw? {
      return ResubscribeReply(FromRemote(created));
    }
    var receipt := WithRemote(NewReceipt(uid, student.customerId, PriceId(env, p)), created.value);
    if created.value.status != "active" {
      ClientErrorsAre400(created.value.status);
      return ResubscribeReply(SubscriptionFailed(created.value.status));
    }
    db.receipts := db.receipts[id := receipt];
    db.nextReceipt := id + 1;
    db.students := db.students[uid := student.(subscriptionId := Some(id), remainingEnrollmentCount := Grant(p))];
    reply := Reply(200, "You've reactivated plan successfully!");
  }

  // ---------------------------------------------------------------------------
  // updateSubscriptionPlan
  // ---------------------------------------------------------------------------

  /**
   * Why a plan change stops before the billing provider is asked to change
   * anything: no current receipt, a receipt of another user, or the plan
   * already subscribed to.
   */
  function PlanChangeRejection(receipts: map<ReceiptId, Receipt>, uid: UserId, user: Student,
                               env: PriceIds, p: PlanName): (r: Option<PaymentError>)
    requires user.subscriptionId.Some?
    ensures user.subscriptionId.value !in receipts ==> r == Some(SubscriptionNotFound)
    ensures r.None? <==> user.subscriptionId.value in receipts
                         && receipts[user.subscriptionId.value].user == uid
                         && receipts[user.subscriptionId.value].priceId != PriceId(env, p)
  {
    var sid := user.subscriptionId.value;
    if sid !in receipts then Some(SubscriptionNotFound)
    else if receipts[sid].user != uid then Some(NotOwner)
    else if receipts[sid].priceId == PriceId(env, p) then Some(AlreadySubscribed(Name(p)))
    else None
  }

  /**
   * `updateSubscriptionPlan`, all inside one transaction: a new receipt for
   * the new plan, the provider's subscription moved to the new price, and
   * only if the provider then reports `active`: the student points at the new
   * receipt with the new plan's grant and the old receipt is marked
   * `updated-to-other-plan`. `current` is the retrieval of the current billing
   * subscription, `updated` the answer to the change.
   */
  method UpdateSubscriptionPlan(db: Database, env: PriceIds, uid: UserId, newPlan: string,
                                current: Remote<string>, updated: Remote<RemoteSubscription>)
    returns (reply: Reply)
    requires db.Valid() && uid in db.students
    modifies db`students, db`receipts, db`nextReceipt
    ensures db.Valid()
    ensures var user := old(db.students[uid]);
            var invalid := ValidatePlanChange(newPlan, user);
            && (invalid.Some? ==> reply == PlanChangeReply(invalid.value))
            && (invalid.None? ==>
                  var rejection := PlanChangeRejection(old(db.receipts), uid, user, env, ParsePlan(newPlan).value);
                  && (rejection.Some? ==> reply == PlanChangeReply(rejection.value))
                  && (rejection.None? && current.Threw? ==> reply == PlanChangeReply(FromRemote(current)))
                  && (rejection.None? && current.Returned? && updated.Threw? ==> reply == PlanChangeReply(FromRemote(updated)))
                  && (rejection.None? && current.Returned? && updated.Returned? && updated.value.status != "active" ==>
                        reply == PlanChangeReply(UpdateFailed(updated.value.status)) && reply.status == 400)
                  && (reply.status == 200 <==>
                        rejection.None? && current.Returned? && updated.Returned? && updated.value.status == "active"))
    ensures reply.status != 200 ==>
              db.students == old(db.students) && db.receipts == old(db.receipts) && db.nextReceipt == old(db.nextReceipt)
    ensures reply.status == 200 ==>
              var user := old(db.students[uid]);
              var p := ParsePlan(newPlan).value;
              var sid := user.subscriptionId.value;
              var id := old(db.nextReceipt);
              && id !in old(db.receipts) && sid in old(db.receipts)
              && db.receipts == old(db.receipts)[id := WithRemote(NewReceipt(uid, user.customerId, PriceId(env, p)), updated.value)]
                                                [sid := old(db.receipts[sid]).(status := "updated-to-other-plan")]
              && db.receipts[id].status == "active"
              && db.students == old(db.students)[uid := user.(subscriptionId := Some(id), remainingEnrollmentCount := Grant(p))]
  {
    var student := db.students[uid];
    var invalid := ValidatePlanChange(newPlan, student);
    if invalid.Some? {
      return PlanChangeReply(invalid.value);
    }
    var p := ParsePlan(newPlan).value;
    var rejection := PlanChangeRejection(db.receipts, uid, student, env, p);
    if rejection.Some? {
      return PlanChangeReply(rejection.value);
    }
    var sid := student.subscriptionId.value;
    if current.Threw? {
      return PlanChangeReply(FromRemote(current));
    }
    var id := db.nextReceipt;
    var receipt := NewReceipt(uid, student.customerId, PriceId(env, p));
    if updated.Threw? {
      return PlanChangeReply(FromRemote(updated));
    }
    receipt := WithRemote(receipt, updated.value);
    if updated.value.status != "active" {
      ClientErrorsAre400(updated.value.status);
      return PlanChangeReply(UpdateFailed(updated.value.status));
    }
    // Commit.
    db.receipts := db.receipts[id := receipt][sid := db.receipts[sid].(status := "updated-to-other-plan")];
    db.nextReceipt := id + 1;
    db.students := db.students[uid := student.(subscriptionId := Some(id), remainingEnrollmentCount := Grant(p))];
    reply := Reply(200, "Successfully updated plan to " + newPlan + "!");
  }

  // ---------------------------------------------------------------------------
  // cancelSubscription
  // ---------------------------------------------------------------------------

  /**
   * `cancelSubscription`: cancel the billing subscription behind the
   * student's receipt. Local state changes only when the provider reports
   * `canceled`; then the student loses the receipt reference and every credit,
   * and the receipt is marked canceled.
   */
  method CancelSubscription(db: Database, uid: UserId, canceled: Remote<string>)
    returns (reply: Reply)
    requires db.Valid() && uid in db.students
    modifies db`students, db`receipts
    ensures db.Valid()
    ensures var sid := old(db.students[uid]).subscriptionId;
            && (sid.None? ==> reply == Reply(400, "Invalid subscription ID"))
            && (sid.Some? && sid.value !in old(db.receipts) ==> reply == Reply(404, "No active subscription found"))
            && (sid.Some? && sid.value in old(db.receipts) && old(db.receipts[sid.value]).status == "canceled" ==>
                  reply == Reply(400, "Subscription already canceled"))
            && (sid.Some? && sid.value in old(db.receipts) && old(db.receipts[sid.value]).status != "canceled" ==>
                  && (canceled.Threw? ==> reply == Reply(500, "Internal server error"))
                  && (canceled.Returned? && canceled.value != "canceled" ==>
                        reply == Reply(400, "Failed to cancel subscription. Status: " + canceled.value)))
            && (reply.status == 200 <==>
                  sid.Some? && sid.value in old(db.receipts) && old(db.receipts[sid.value]).status != "canceled"
                  && canceled == Returned("canceled"))
    ensures reply.status != 200 ==> db.students == old(db.students) && db.receipts == old(db.receipts)
    ensures reply.status == 200 ==>
              var sid := old(db.students[uid]).subscriptionId.value;
              && db.students == old(db.students)[uid := old(db.students[uid]).(subscriptionId := None, remainingEnrollmentCount := 0)]
              && db.receipts == old(db.receipts)[sid := old(db.receipts[sid]).(status := "canceled")]
  {
    var sid := db.students[uid].subscriptionId;
    if sid.None? {
      return Reply(400, "Invalid subscription ID");
    }
    if sid.value !in db.receipts {
      return Reply(404, "No active subscription found");
    }
    var receipt := db.receipts[sid.value];
    if receipt.status == "canceled" {
      return Reply(400, "Subscription already canceled");
    }
    if canceled.Threw? {
      return Reply(500, "Internal server error");
    }
    if canceled.value != "canceled" {
      return Reply(400, "Failed to cancel subscription. Status: " + canceled.value);
    }
    db.students := db.students[uid := db.students[uid].(subscriptionId := None, remainingEnrollmentCount := 0)];
    db.receipts := db.receipts[sid.value := receipt.(status := canceled.value)];
    reply := Reply(200, "Subscription canceled successfully");
  }

  // ---------------------------------------------------------------------------
  // webhook
  // ---------------------------------------------------------------------------

  /**
   * How the webhook ends: 400 for a bad signature, `{received: true}` on
   * acknowledgement, or an exception that escapes the handler (no answer is
   * sent, and the provider will deliver the event again).
   */
  datatype WebhookOutcome = SignatureRejected | Acknowledged | Crashed

  /**
   * `onUpdatedSubscription`: copy the remote status and periods into the
   * receipt named by the metadata, then point the student named by the
   * metadata at it. A missing receipt or student makes the handler throw; the
   * receipt save that precedes the student lookup stays written.
   */
  method OnUpdatedSubscription(db: Database, s: RemoteSubscription) returns (ok: bool)
    requires db.Valid()
    modifies db`students, db`receipts
    ensures db.Valid()
    ensures ok <==> s.metadata.Some? && s.metadata.value.dbReceipt in old(db.receipts) && s.metadata.value.user in old(db.students)
    ensures s.metadata.None? || s.metadata.value.dbReceipt !in old(db.receipts) ==>
              db.receipts == old(db.receipts) && db.students == old(db.students)
    ensures s.metadata.Some? && s.metadata.value.dbReceipt in old(db.receipts) ==>
              var m := s.metadata.value;
              && db.receipts == old(db.receipts)[m.dbReceipt := WithPeriods(old(db.receipts[m.dbReceipt]), s)]
              && db.students == (if m.user in old(db.students)
                                 then old(db.students)[m.user := old(db.students[m.user]).(subscriptionId := Some(m.dbReceipt))]
                                 else old(db.students))
  {
    if s.metadata.None? || s.metadata.value.dbReceipt !in db.receipts {
      return false;
    }
    var m := s.metadata.value;
    db.receipts := db.receipts[m.dbReceipt := WithPeriods(db.receipts[m.dbReceipt], s)];
    if m.user !in db.students {
      return false;
    }
    db.students := db.students[m.user := db.students[m.user].(subscriptionId := Some(m.dbReceipt))];
    ok := true;
  }

  /**
   * `webhook`: verify the signature, then dispatch on the event type. Only
   * `customer.subscription.updated` changes local state; its receipt write
   * stays even when the student lookup after it throws. The counter cases
   * always throw: two assign to `const` bindings and two read an undeclared
   * `stats`. Every other type is acknowledged.
   */
  method Webhook(db: Database, signatureOk: bool, eventType: string, obj: RemoteSubscription)
    returns (outcome: WebhookOutcome)
    requires db.Valid()
    modifies db`students, db`receipts
    ensures db.Valid()
    ensures !signatureOk ==> outcome == SignatureRejected
    ensures eventType != "customer.subscription.updated" ==> db.students == old(db.students) && db.receipts == old(db.receipts)
    ensures signatureOk && eventType in {"payment_intent.succeeded", "invoice.paid", "invoice.created", "invoice.payment_failed"} ==>
              outcome == Crashed
    ensures signatureOk && eventType !in {"customer.subscription.updated", "payment_intent.succeeded", "invoice.paid",
                                          "invoice.created", "invoice.payment_failed"} ==>
              outcome == Acknowledged
    ensures signatureOk && eventType == "customer.subscription.updated" ==>
              && (outcome == Acknowledged <==>
                    obj.metadata.Some? && obj.metadata.value.dbReceipt in old(db.receipts) && obj.metadata.value.user in old(db.students))
              && (obj.metadata.Some? && obj.metadata.value.dbReceipt in old(db.receipts) ==>
                    var m := obj.metadata.value;
                    db.receipts == old(db.receipts)[m.dbReceipt := WithPeriods(old(db.receipts[m.dbReceipt]), obj)])
              && (obj.metadata.None? || obj.metadata.value.dbReceipt !in old(db.receipts) ==> db.receipts == old(db.receipts))
              && (outcome == Acknowledged ==>
                    var m := obj.metadata.value;
                    db.students == old(db.students)[m.user := old(db.students[m.user]).(subscriptionId := Some(m.dbReceipt))])
              && (outcome != Acknowledged ==> outcome == Crashed && db.students == old(db.students))
    ensures !signatureOk ==> db.students == old(db.students) && db.receipts == old(db.receipts)
  {
    if !signatureOk {
      return SignatureRejected;
    }
    if eventType == "customer.subscription.updated" {
      var ok := OnUpdatedSubscription(db, obj);
      outcome := if ok then Acknowledged else Crashed;
    } else if eventType in {"payment_intent.succeeded", "invoice.paid", "invoice.created", "invoice.payment_failed"} {
      outcome := Crashed;
    } else {
      outcome := Acknowledged;
    }
  }

  // ---------------------------------------------------------------------------
  // payInvoice
  // ---------------------------------------------------------------------------

  datatype Invoice = Invoice(status: string, customer: string, subscription: string, amountRemaining: int)

  /** What each billing call made by `payInvoice` answered. */
  datatype PayInvoiceCalls = PayInvoiceCalls(
    invoice: Remote<Invoice>,
    defaultMethod: Remote<string>,
    intentStatus: Remote<string>,
    pay: Remote<string>,
    openInvoices: Remote<nat>,
    paid: Remote<RemoteSubscription>)

  /** `payInvoice`'s catch: a card error keeps its message, anything else is reported generically; both answer 500. */
  function PayInvoiceFailure<T>(r: Remote<T>): (reply: Reply)
    requires r.Threw?
    ensures reply.status == 500
  {
    Reply(500, if r.kind == "StripeCardError" then r.message else "Internal server error")
  }

  /** The invoice is open and a payment method is known: the one sent or the customer's default. */
  predicate MethodKnown(paymentMethodId: string, c: PayInvoiceCalls)
  {
    && c.invoice.Returned? && c.invoice.value.status == "open"
    && (paymentMethodId != "" || (c.defaultMethod.Returned? && c.defaultMethod.value != ""))
  }

  /** The payment intent succeeded and the invoice was marked paid. */
  predicate Charged(paymentMethodId: string, c: PayInvoiceCalls)
  {
    MethodKnown(paymentMethodId, c) && c.intentStatus == Returned("succeeded") && c.pay.Returned?
  }

  /**
   * Whether `payInvoice` reaches its local write: the invoice is open, some
   * payment method is known, the payment succeeds, and no open invoice of the
   * subscription is left.
   */
  predicate RegrantsCredits(paymentMethodId: string, c: PayInvoiceCalls)
  {
    Charged(paymentMethodId, c) && c.openInvoices == Returned(0) && c.paid.Returned?
  }

  /**
   * The reply of `payInvoice`: a closed invoice and a missing payment method
   * are 400s, a failed payment a 400, a provider error a 500, and everything
   * else "Invoice paid!", whether or not invoices of the subscription are
   * still open.
   */
  function PayInvoiceReply(paymentMethodId: string, calls: PayInvoiceCalls): (reply: Reply)
    ensures calls.invoice.Threw? ==> reply == PayInvoiceFailure(calls.invoice)
    ensures calls.invoice.Returned? && calls.invoice.value.status != "open" ==> reply == Reply(400, "Invoice is not open")
    ensures calls.invoice.Returned? && calls.invoice.value.status == "open" && paymentMethodId == "" && calls.defaultMethod.Threw? ==>
              reply == PayInvoiceFailure(calls.defaultMethod)
    ensures calls.invoice.Returned? && calls.invoice.value.status == "open" && paymentMethodId == ""
            && calls.defaultMethod == Returned("") ==>
              reply == Reply(400, "No payment method provided and no default payment method set for customer")
    ensures MethodKnown(paymentMethodId, calls) && calls.intentStatus.Threw? ==> reply == PayInvoiceFailure(calls.intentStatus)
    ensures MethodKnown(paymentMethodId, calls) && calls.intentStatus.Returned? && calls.intentStatus.value != "succeeded" ==>
              reply == Reply(400, "Payment failed")
    ensures MethodKnown(paymentMethodId, calls) && calls.intentStatus == Returned("succeeded") && calls.pay.Threw? ==>
              reply == PayInvoiceFailure(calls.pay)
    ensures Charged(paymentMethodId, calls) && calls.openInvoices.Threw? ==> reply == PayInvoiceFailure(calls.openInvoices)
    ensures Charged(paymentMethodId, calls) && calls.openInvoices == Returned(0) && calls.paid.Threw? ==>
              reply == PayInvoiceFailure(calls.paid)
    ensures reply.status == 200 <==>
              Charged(paymentMethodId, calls) && calls.openInvoices.Returned? && (calls.openInvoices.value == 0 ==> calls.paid.Returned?)
    ensures RegrantsCredits(paymentMethodId, calls) ==> reply == Reply(200, "Invoice paid!")
    ensures reply.status == 200 ==> calls.openInvoices.Returned? && (calls.openInvoices.value == 0 <==> RegrantsCredits(paymentMethodId, calls))
  {
    if calls.invoice.Threw? then PayInvoiceFailure(calls.invoice)
    else if calls.invoice.value.status != "open" then Reply(400, "Invoice is not open")
    else if paymentMethodId == "" && calls.defaultMethod.Threw? then PayInvoiceFailure(calls.defaultMethod)
    else if paymentMethodId == "" && calls.defaultMethod.value == "" then
      Reply(400, "No payment method provided and no default payment method set for customer")
    else if calls.intentStatus.Threw? then PayInvoiceFailure(calls.intentStatus)
    else if calls.intentStatus.value != "succeeded" then Reply(400, "Payment failed")
    else if calls.pay.Threw? then PayInvoiceFailure(calls.pay)
    else if calls.openInvoices.Threw? then PayInvoiceFailure(calls.openInvoices)
    else if calls.openInvoices.value == 0 && calls.paid.Threw? then PayInvoiceFailure(calls.paid)
    else Reply(200, "Invoice paid!")
  }

  /**
   * `payInvoice`: pay an open invoice, and when the subscription has no open
   * invoice left, record a new receipt from the provider's subscription and
   * re-grant the plan's course limit. The receipt reference moves whatever the
   * provider's status is.
   */
  method PayInvoice(db: Database, env: PriceIds, uid: UserId, paymentMethodId: string, calls: PayInvoiceCalls)
    returns (reply: Reply)
    requires db.Valid() && uid in db.students
    modifies db`students, db`receipts, db`nextReceipt
    ensures db.Valid()
    ensures reply == PayInvoiceReply(paymentMethodId, calls)
    ensures !RegrantsCredits(paymentMethodId, calls) ==>
              db.students == old(db.students) && db.receipts == old(db.receipts) && db.nextReceipt == old(db.nextReceipt)
    ensures RegrantsCredits(paymentMethodId, calls) ==>
              var s := calls.paid.value;
              var id := old(db.nextReceipt);
              && id !in old(db.receipts)
              && db.receipts == old(db.receipts)[id := WithRemote(NewReceipt(uid, calls.invoice.value.customer, s.priceId), s)]
              && db.students == old(db.students)[uid := Renewed(old(db.students[uid]), id, PlanDetails(env, s.priceId))]
  {
    if calls.invoice.Threw? {
      return PayInvoiceFailure(calls.invoice);
    }
    var invoice := calls.invoice.value;
    if invoice.status != "open" {
      return Reply(400, "Invoice is not open");
    }
    if paymentMethodId == "" {
      if calls.defaultMethod.Threw? {
        return PayInvoiceFailure(calls.defaultMethod);
      }
      if calls.defaultMethod.value == "" {
        return Reply(400, "No payment method provided and no default payment method set for customer");
      }
    }
    if calls.intentStatus.Threw? {
      return PayInvoiceFailure(calls.intentStatus);
    }
    if calls.intentStatus.value != "succeeded" {
      return Reply(400, "Payment failed");
    }
    if calls.pay.Threw? {
      return PayInvoiceFailure(calls.pay);
    }
    if calls.openInvoices.Threw? {
      return PayInvoiceFailure(calls.openInvoices);
    }
    if calls.openInvoices.value == 0 {
      if calls.paid.Threw? {
        return PayInvoiceFailure(calls.paid);
      }
      RecordRenewal(db, env, uid, invoice.customer, calls.paid.value);
    }
    reply := Reply(200, "Invoice paid!");
  }

  /**
   * The local write of `payInvoice`: a new receipt from the provider's
   * subscription, pointed to by the student, whose credits are reset to the
   * plan's course limit when the price is known.
   */
  method RecordRenewal(db: Database, env: PriceIds, uid: UserId, customer: string, s: RemoteSubscription)
    requires db.Valid() && uid in db.students
    modifies db`students, db`receipts, db`nextReceipt
    ensures db.Valid()
    ensures var id := old(db.nextReceipt);
            var info := PlanDetails(env, s.priceId);
            && id !in old(db.receipts)
            && db.receipts == old(db.receipts)[id := WithRemote(NewReceipt(uid, customer, s.priceId), s)]
            && db.students == old(db.students)[uid := Renewed(old(db.students[uid]), id, info)]
  {
    var id := db.nextReceipt;
    db.receipts := db.receipts[id := WithRemote(NewReceipt(uid, customer, s.priceId), s)];
    db.nextReceipt := id + 1;
    var info := PlanDetails(env, s.priceId);
    var student := db.students[uid];
    var credits := if info.Some? then info.value.courseLimit else student.remainingEnrollmentCount;
    db.students := db.students[uid := student.(subscriptionId := Some(id), remainingEnrollmentCount := credits)];
  }

  /**
   * The student after a paid invoice: pointing to the new receipt, with the
   * credits of the plan the price belongs to, or the old credits for a price
   * no plan has.
   */
  function Renewed(st: Student, id: ReceiptId, info: Option<PlanInfo>): (r: Student)
    ensures r.subscriptionId == Some(id)
    ensures info.Some? ==> r.remainingEnrollmentCount == info.value.courseLimit
    ensures info.None? ==> r == st.(subscriptionId := Some(id))
  {
    st.(subscriptionId := Some(id),
        remainingEnrollmentCount := if info.Some? then info.value.courseLimit else st.remainingEnrollmentCount)
  }

  // ---------------------------------------------------------------------------
  // getStats
  // ---------------------------------------------------------------------------

  datatype InvoiceItem = InvoiceItem(id: string, status: string)

  datatype Stats = Stats(total: nat, paid: nat)

  /** `invoices.filter(i => i.status === 'paid').length` */
  function PaidCount(xs: seq<InvoiceItem>): (n: nat)
    ensures n <= |xs|
    ensures n == |xs| <==> forall i :: 0 <= i < |xs| ==> xs[i].status == "paid"
  {
    if xs == [] then 0
    else
      assert forall i :: 1 <= i < |xs| ==> xs[i] == xs[1..][i - 1];
      (if xs[0].status == "paid" then 1 else 0) + PaidCount(xs[1..])
  }

  /**
   * `getStats`: the number of the customer's invoices and how many of them are
   * paid, over every page of the invoice listing. A listing call that throws,
   * or the read of a missing last id, is answered 500 with the error's message.
   */
  method GetStats(customerId: string, answers: seq<Remote<Page<InvoiceItem>>>) returns (reply: Reply, stats: Option<Stats>)
    requires Terminates(answers)
    ensures stats.Some? <==> reply.status == 200
    ensures customerId == "" ==> reply == Reply(500, "No customer id")
    ensures customerId != "" ==> (stats.Some? <==> NoEmptyBefore(answers) && answers[FinalIndex(answers)].Returned?)
    ensures customerId != "" && !NoEmptyBefore(answers) ==> reply == Reply(500, ReadIdOfUndefined)
    ensures var n := FinalIndex(answers);
            customerId != "" && NoEmptyBefore(answers) && answers[n].Threw? ==> reply == Reply(500, CaughtMessage(answers[n].message))
    ensures stats.Some? ==>
              var all := Flatten(answers[..FinalIndex(answers) + 1]);
              && stats.value.total == |all|
              && stats.value.paid == PaidCount(all)
              && stats.value.paid <= stats.value.total
  {
    if customerId == "" {
      return Reply(500, "No customer id"), None;
    }
    var all, _ := CollectPages(answers, (i: InvoiceItem) => i.id);
    if all.Threw? {
      return Reply(500, CaughtMessage(all.message)), None;
    }
    stats := Some(Stats(|all.value|, PaidCount(all.value)));
    reply := Reply(200, "Invoices retrieved!");
  }

  // ---------------------------------------------------------------------------
  // Payment methods: the default-card rules
  // ---------------------------------------------------------------------------

  /** A saved card: its id, creation time and whether its metadata marks it as the default. */
  datatype Card = Card(id: string, created: int, markedDefault: bool)

  /**
   * `cards.sort((a, b) => b.created - a.created)[0]`: the most recently created
   * card; the sort is stable, so among cards created at the same time the
   * first one listed.
   */
  function MostRecent(cards: seq<Card>): (r: Option<Card>)
    ensures r.None? <==> cards == []
    ensures r.Some? ==> forall c :: c in cards ==> c.created <= r.value.created
    ensures r.Some? ==> exists k :: 0 <= k < |cards| && cards[k] == r.value
                                    && forall j :: 0 <= j < k ==> cards[j].created < r.value.created
  {
    if cards == [] then None
    else
      var rest := MostRecent(cards[1..]);
      if rest.None? || cards[0].created >= rest.value.created then Some(cards[0])
      else
        assert forall c :: c in cards[1..] ==> c in cards;
        ghost var k :| 0 <= k < |cards[1..]| && cards[1..][k] == rest.value
                      && forall j :: 0 <= j < k ==> cards[1..][j].created < rest.value.created;
        assert cards[k + 1] == rest.value;
        rest
  }

  function Others(cards: seq<Card>, id: string): (r: seq<Card>)
    ensures forall c :: c in r <==> c in cards && c.id != id
  {
    if cards == [] then []
    else if cards[0].id == id then Others(cards[1..], id)
    else [cards[0]] + Others(cards[1..], id)
  }

  /** One entry of the list `getPaymentMethods` answers with. */
  datatype CardView = CardView(paymentMethodId: string, isDefault: bool, created: int)

  function Views(cards: seq<Card>, defaultId: Option<string>): (r: seq<CardView>)
    ensures |r| == |cards|
    ensures forall i :: 0 <= i < |r| ==> r[i] == CardView(cards[i].id, Some(cards[i].id) == defaultId, cards[i].created)
  {
    if cards == [] then [] else [CardView(cards[0].id, Some(cards[0].id) == defaultId, cards[0].created)] + Views(cards[1..], defaultId)
  }

  function Flagged(vs: seq<CardView>, flag: bool): (r: seq<CardView>)
    ensures forall v :: v in r <==> v in vs && v.isDefault == flag
  {
    if vs == [] then []
    else if vs[0].isDefault == flag then [vs[0]] + Flagged(vs[1..], flag)
    else Flagged(vs[1..], flag)
  }

  /** The listing's stable sort on `isDefault`, written as the partition it computes. */
  function DefaultFirst(vs: seq<CardView>): seq<CardView>
  {
    Flagged(vs, true) + Flagged(vs, false)
  }

  lemma {:induction false} FlaggedSplit(vs: seq<CardView>)
    ensures multiset(Flagged(vs, true)) + multiset(Flagged(vs, false)) == multiset(vs)
  {
    if vs != [] {
      FlaggedSplit(vs[1..]);
      assert vs == [vs[0]] + vs[1..];
    }
  }

  /** Sorting the listing loses and adds no card, and puts flagged cards before the others. */
  lemma DefaultFirstIsPermutation(vs: seq<CardView>)
    ensures multiset(DefaultFirst(vs)) == multiset(vs)
    ensures forall i, j :: 0 <= i < j < |DefaultFirst(vs)| && !DefaultFirst(vs)[i].isDefault ==> !DefaultFirst(vs)[j].isDefault
  {
    FlaggedSplit(vs);
    var t, f := Flagged(vs, true), Flagged(vs, false);
    var d := DefaultFirst(vs);
    assert forall k :: 0 <= k < |t| ==> d[k] == t[k] && t[k] in t;
    assert forall k :: |t| <= k < |d| ==> d[k] == f[k - |t|] && f[k - |t|] in f;
  }

  /** The most recent card, as one of the cards no other card is newer than. */
  function MostRecentListed(cards: seq<Card>): (c: Card)
    requires cards != []
    ensures c in cards && forall d :: d in cards ==> d.created <= c.created
  {
    var k :| 0 <= k < |cards| && cards[k] == MostRecent(cards).value;
    MostRecent(cards).value
  }

  /** With no default set, the sorted listing flags no card. */
  lemma NoDefaultNoFlag(cards: seq<Card>, defaultId: Option<string>)
    ensures defaultId.None? ==> forall v :: v in DefaultFirst(Views(cards, defaultId)) ==> !v.isDefault
  {
    var views := Views(cards, defaultId);
    DefaultFirstIsPermutation(views);
    forall v | v in DefaultFirst(views) && defaultId.None? ensures !v.isDefault {
      assert v in multiset(views);
    }
  }

  /** What `getPaymentMethods` does with the cards and the customer's default. */
  datatype Listing = Listing(promote: Option<string>, methods: seq<CardView>)

  /**
   * `getPaymentMethods`: with no default set, the most recent card is made
   * the default; the `isDefault` flags compare against the default read
   * before that promotion.
   */
  function GetPaymentMethods(cards: seq<Card>, defaultId: Option<string>): (r: Listing)
    ensures r.promote.Some? <==> cards != [] && defaultId.None?
    ensures r.promote.Some? ==> exists c :: c in cards && c.id == r.promote.value
                                            && forall d :: d in cards ==> d.created <= c.created
    ensures multiset(r.methods) == multiset(Views(cards, defaultId))
    ensures forall i, j :: 0 <= i < j < |r.methods| && !r.methods[i].isDefault ==> !r.methods[j].isDefault
    ensures defaultId.None? ==> forall v :: v in r.methods ==> !v.isDefault
  {
    var views := Views(cards, defaultId);
    DefaultFirstIsPermutation(views);
    NoDefaultNoFlag(cards, defaultId);
    var promote := if cards != [] && defaultId.None? then Some(MostRecentListed(cards).id) else None;
    Listing(promote, DefaultFirst(views))
  }

  /**
   * The outcome of a detach: the reply, the card marked default on the way
   * (the promotion is a call of its own and stays even when the detach after
   * it throws) and the card detached.
   */
  datatype Detachment = Detachment(reply: Reply, promoted: Option<string>, detached: Option<string>)

  /** `error.message || 'Internal server error'`: the reply text of a caught error. */
  function CaughtMessage(message: string): (t: string)
    ensures t != ""
    ensures message != "" ==> t == message
  {
    if message == "" then "Internal server error" else message
  }

  /**
   * `detachPaymentMethod`: detach a card; if it is marked default, first mark
   * the most recent other card as default, and refuse when there is none.
   * `listed`, `update` and `detach` are the answers of the payment provider's
   * `paymentMethods.list`, `paymentMethods.update` and `paymentMethods.detach`.
   */
  function DetachPaymentMethod(customerId: string, paymentMethodId: string, listed: Remote<seq<Card>>,
                               update: Remote<()>, detach: Remote<()>): (r: Detachment)
    ensures r.detached.Some? <==> r.reply.status == 200
    ensures r.detached.Some? ==> r.detached.value == paymentMethodId && detach.Returned?
    ensures customerId == "" || paymentMethodId == "" ==>
              r == Detachment(Reply(400, "Stripe customer ID and payment method ID are required"), None, None)
    ensures customerId != "" && paymentMethodId != "" && listed.Threw? ==>
              r == Detachment(Reply(500, CaughtMessage(listed.message)), None, None)
    ensures customerId != "" && paymentMethodId != "" && listed.Returned? ==>
              var cards := listed.value;
              var found := FirstWithId(cards, paymentMethodId);
              var recent := MostRecent(Others(cards, paymentMethodId));
              && ((forall c :: c in cards ==> c.id != paymentMethodId) ==>
                    r == Detachment(Reply(404, "Payment method not found"), None, None))
              && (r.promoted.Some? ==>
                    exists c :: c in cards && c.id == r.promoted.value && c.id != paymentMethodId
                                && forall d :: d in cards && d.id != paymentMethodId ==> d.created <= c.created)
              && (found.Some? && found.value.markedDefault && (forall d :: d in cards ==> d.id == paymentMethodId) ==>
                    r == Detachment(Reply(400, "No alternative payment methods available to set as default"), None, None))
              && (found.Some? && found.value.markedDefault && recent.Some? && update.Threw? ==>
                    r == Detachment(Reply(500, CaughtMessage(update.message)), None, None))
              && (found.Some? && found.value.markedDefault && recent.Some? && update.Returned? && detach.Returned? ==>
                    r == Detachment(Reply(200, "Payment method removed successfully"), Some(recent.value.id), Some(paymentMethodId)))
              && (found.Some? && found.value.markedDefault && recent.Some? && update.Returned? && detach.Threw? ==>
                    r == Detachment(Reply(500, CaughtMessage(detach.message)), Some(recent.value.id), None))
              && (found.Some? && !found.value.markedDefault && detach.Returned? ==>
                    r == Detachment(Reply(200, "Payment method removed successfully"), None, Some(paymentMethodId)))
              && (found.Some? && !found.value.markedDefault && detach.Threw? ==>
                    r == Detachment(Reply(500, CaughtMessage(detach.message)), None, None))
    ensures r.promoted.Some? ==> update.Returned? && (r.detached.Some? || detach.Threw?)
  {
    if customerId == "" || paymentMethodId == "" then
      Detachment(Reply(400, "Stripe customer ID and payment method ID are required"), None, None)
    else if listed.Threw? then
      Detachment(Reply(500, CaughtMessage(listed.message)), None, None)
    else
      DetachListed(paymentMethodId, listed.value, update, detach)
  }

  /** `detachPaymentMethod` once the customer's cards are listed. */
  function DetachListed(paymentMethodId: string, cards: seq<Card>, update: Remote<()>, detach: Remote<()>): (r: Detachment)
    ensures r.detached.Some? <==> r.reply.status == 200
    ensures r.detached.Some? ==> r.detached.value == paymentMethodId && detach.Returned?
    ensures var found := FirstWithId(cards, paymentMethodId);
            var recent := MostRecent(Others(cards, paymentMethodId));
            && ((forall c :: c in cards ==> c.id != paymentMethodId) ==>
                  r == Detachment(Reply(404, "Payment method not found"), None, None))
            && (r.promoted.Some? ==>
                  exists c :: c in cards && c.id == r.promoted.value && c.id != paymentMethodId
                              && forall d :: d in cards && d.id != paymentMethodId ==> d.created <= c.created)
            && (found.Some? && found.value.markedDefault && (forall d :: d in cards ==> d.id == paymentMethodId) ==>
                  r == Detachment(Reply(400, "No alternative payment methods available to set as default"), None, None))
            && (found.Some? && found.value.markedDefault && recent.Some? && update.Threw? ==>
                  r == Detachment(Reply(500, CaughtMessage(update.message)), None, None))
            && (found.Some? && found.value.markedDefault && recent.Some? && update.Returned? && detach.Returned? ==>
                  r == Detachment(Reply(200, "Payment method removed successfully"), Some(recent.value.id), Some(paymentMethodId)))
            && (found.Some? && found.value.markedDefault && recent.Some? && update.Returned? && detach.Threw? ==>
                  r == Detachment(Reply(500, CaughtMessage(detach.message)), Some(recent.value.id), None))
            && (found.Some? && !found.value.markedDefault && detach.Returned? ==>
                  r == Detachment(Reply(200, "Payment method removed successfully"), None, Some(paymentMethodId)))
            && (found.Some? && !found.value.markedDefault && detach.Threw? ==>
                  r == Detachment(Reply(500, CaughtMessage(detach.message)), None, None))
    ensures r.promoted.Some? ==> update.Returned? && (r.detached.Some? || detach.Threw?)
  {
    var found := FirstWithId(cards, paymentMethodId);
    if found.None? then Detachment(Reply(404, "Payment method not found"), None, None)
    else
      var recent := MostRecent(Others(cards, paymentMethodId));
      MostRecentOther(cards, paymentMethodId);
      if found.value.markedDefault && recent.None? then
        Detachment(Reply(400, "No alternative payment methods available to set as default"), None, None)
      else if found.value.markedDefault && update.Threw? then
        Detachment(Reply(500, CaughtMessage(update.message)), None, None)
      else
        var promoted := if found.value.markedDefault then Some(recent.value.id) else None;
        if detach.Threw? then Detachment(Reply(500, CaughtMessage(detach.message)), promoted, None)
        else Detachment(Reply(200, "Payment method removed successfully"), promoted, Some(paymentMethodId))
  }


  /**
   * The card promoted in place of a detached default: there is one exactly
   * when another card exists, and it is the newest of the other cards.
   */
  lemma MostRecentOther(cards: seq<Card>, id: string)
    ensures var recent := MostRecent(Others(cards, id));
            && (recent.None? <==> forall d :: d in cards ==> d.id == id)
            && (recent.Some? ==>
                  && recent.value in cards && recent.value.id != id
                  && forall d :: d in cards && d.id != id ==> d.created <= recent.value.created)
  {
    var others := Others(cards, id);
    if others != [] {
      assert others[0] in others;
    }
  }

  /** `cards.find(pm => pm.id === id)` */
  function FirstWithId(cards: seq<Card>, id: string): (r: Option<Card>)
    ensures r.None? <==> forall c :: c in cards ==> c.id != id
    ensures r.Some? ==> r.value in cards && r.value.id == id
  {
    if cards == [] then None
    else if cards[0].id == id then Some(cards[0])
    else FirstWithId(cards[1..], id)
  }

  /** The card `find` returns is the first one with the id: no card before it has that id. */
  lemma {:induction false} FirstWithIdIsFirst(cards: seq<Card>, id: string)
    ensures FirstWithId(cards, id).Some? ==>
              exists k :: && 0 <= k < |cards| && cards[k] == FirstWithId(cards, id).value
                          && forall j :: 0 <= j < k ==> cards[j].id != id
  {
    if cards != [] && cards[0].id != id {
      FirstWithIdIsFirst(cards[1..], id);
      if FirstWithId(cards, id).Some? {
        var k :| && 0 <= k < |cards[1..]| && cards[1..][k] == FirstWithId(cards, id).value
                 && forall j :: 0 <= j < k ==> cards[1..][j].id != id;
        assert forall j :: 1 <= j < k + 1 ==> cards[j] == cards[1..][j - 1];
        assert cards[k + 1] == FirstWithId(cards, id).value;
      }
    }
  }
}
