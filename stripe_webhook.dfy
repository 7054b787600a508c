/**
 * The billing webhook endpoint: check the signature header and the configured secret, let the
 * provider verify the event, then switch on the event type and update the subscription row
 * (and, for a paid invoice, the invoice row) that carries the event's provider ids.
 */
module StripeWebhook {
  import opened Wrappers
  import opened Api
  import opened Timestamps
  import opened Schema

  /** A numeric field of the event object as JSON carries it. */
  datatype NumberField = Absent | Null | Number(value: int)

  /**
   * The fields of the event's `data.object` the handlers read: a subscription for the
   * subscription events, an invoice for the invoice events. Time stamps are in seconds.
   */
  datatype EventObject = EventObject(
    id: string,
    status: Option<string>,
    currentPeriodStart: Option<int>,
    currentPeriodEnd: Option<int>,
    cancelAt: Option<int>,
    canceledAt: Option<int>,
    trialStart: Option<int>,
    trialEnd: Option<int>,
    subscription: Option<string>,
    paymentIntent: Option<string>,
    amountPaid: Option<int>,
    amountDue: Option<int>,
    currency: Option<string>,
    periodStart: NumberField,
    periodEnd: NumberField,
    paidAt: Option<int>)

  datatype Event = Event(kind: string, data: EventObject)

  datatype Body = Received | ErrorMessage(error: string)
  datatype Reply = Reply(status: int, body: Body)

  const Ok := Reply(200, Received)
  const NoSignature := Reply(400, ErrorMessage("No signature"))
  const SecretMissing := Reply(500, ErrorMessage("Webhook secret not configured"))
  const InvalidSignature := Reply(400, ErrorMessage("Invalid signature"))
  const HandlerFailed := Reply(500, ErrorMessage("Webhook handler failed"))

  /**
   * The database client refuses a call whose arguments hold a date built from a missing number,
   * before the call reaches the database.
   */
  const InvalidDate := Thrown("Invalid Date")

  const SubscriptionCreated := "customer.subscription.created"
  const SubscriptionUpdated := "customer.subscription.updated"
  const SubscriptionDeleted := "customer.subscription.deleted"
  const InvoicePaymentSucceeded := "invoice.payment_succeeded"
  const InvoicePaymentFailed := "invoice.payment_failed"

  // ---------------------------------------------------------------- gating

  /**
   * The checks before dispatch, in order: a signature header, a configured secret, and the
   * event the provider's verification of body, signature and secret gives (`verified`; absent
   * when it throws).
   */
  function Gate(signature: Option<string>, secret: Option<string>, verified: Option<Event>): (r: Result<Event, Reply>)
    ensures r.Success? <==> Truthy(signature) && Truthy(secret) && verified.Some?
    ensures r.Success? ==> r.value == verified.value
    ensures !Truthy(signature) ==> r == Failure(NoSignature)
    ensures Truthy(signature) && !Truthy(secret) ==> r == Failure(SecretMissing)
    ensures Truthy(signature) && Truthy(secret) && verified.None? ==> r == Failure(InvalidSignature)
  {
    if !Truthy(signature) then Failure(NoSignature)
    else if !Truthy(secret) then Failure(SecretMissing)
    else if verified.None? then Failure(InvalidSignature)
    else Success(verified.value)
  }

  // ---------------------------------------------------------------- subscription rows

  /**
   * A subscription row after `customer.subscription.created/updated`: the status is copied
   * (kept when absent) and each of the six dates is the event's, in ms, or null when the
   * event's is absent or zero.
   */
  function ChangedRow(s: Subscription, obj: EventObject): (r: Subscription)
    ensures r == s.(status := r.status, currentPeriodStart := r.currentPeriodStart, currentPeriodEnd := r.currentPeriodEnd,
                    cancelAt := r.cancelAt, canceledAt := r.canceledAt, trialStart := r.trialStart, trialEnd := r.trialEnd)
    ensures r.status == (if obj.status.Some? then obj.status.value else s.status)
    ensures r.currentPeriodStart == MillisOrNull(obj.currentPeriodStart) && r.currentPeriodEnd == MillisOrNull(obj.currentPeriodEnd)
    ensures r.cancelAt == MillisOrNull(obj.cancelAt) && r.canceledAt == MillisOrNull(obj.canceledAt)
    ensures r.trialStart == MillisOrNull(obj.trialStart) && r.trialEnd == MillisOrNull(obj.trialEnd)
  {
    s.(status := if obj.status.Some? then obj.status.value else s.status,
       currentPeriodStart := MillisOrNull(obj.currentPeriodStart),
       currentPeriodEnd := MillisOrNull(obj.currentPeriodEnd),
       cancelAt := MillisOrNull(obj.cancelAt),
       canceledAt := MillisOrNull(obj.canceledAt),
       trialStart := MillisOrNull(obj.trialStart),
       trialEnd := MillisOrNull(obj.trialEnd))
  }

  /** A row with only its status replaced. */
  function WithStatus(s: Subscription, status: string): (r: Subscription)
    ensures r == s.(status := r.status) && r.status == status
  {
    s.(status := status)
  }

  /** A row after `customer.subscription.deleted`: canceled, now. */
  function DeletedRow(s: Subscription, now: int): (r: Subscription)
    ensures r == s.(status := r.status, canceledAt := r.canceledAt)
    ensures r.status == "canceled" && r.canceledAt == Some(now)
  {
    s.(status := "canceled", canceledAt := Some(now))
  }

  /** Rewriting the rows that carry an id no row carries leaves the table as it is. */
  lemma UpdateNoRow(rows: map<UserId, Subscription>, sid: string, f: Subscription -> Subscription)
    requires forall u :: u in rows ==> rows[u].stripeSubscriptionId != Some(sid)
    ensures UpdatedWhere(rows, sid, f) == rows
  {
    assert forall u :: u in rows ==> UpdatedWhere(rows, sid, f)[u] == rows[u];
  }

  /**
   * `update({ where: { stripeSubscriptionId: sid } })` through `f`: the record-not-found error
   * when no row carries `sid`.
   */
  method UpdateByProviderId(subs: SubscriptionTable, sid: string, f: Subscription -> Subscription)
    returns (thrown: Option<Error>)
    requires subs.Valid()
    requires forall s :: f(s).userId == s.userId && f(s).stripeSubscriptionId == s.stripeSubscriptionId
    modifies subs
    ensures subs.Valid()
    ensures thrown.None? <==> old(subs.HasProviderId(sid))
    ensures thrown.Some? ==> thrown.value == RecordNotFound && subs.rows == old(subs.rows)
    ensures subs.rows == UpdatedWhere(old(subs.rows), sid, f)
  {
    var owner := subs.FindByProviderId(sid);
    if owner.None? {
      UpdateNoRow(subs.rows, sid, f);
      return Some(RecordNotFound);
    }
    var u := owner.value;
    UpdateOneRow(subs.rows, u, sid, f);
    subs.rows := subs.rows[u := f(subs.rows[u])];
    thrown := None;
  }

  // ---------------------------------------------------------------- handlers

  /** `handleSubscriptionChange`: an unknown provider subscription is skipped. */
  method HandleSubscriptionChange(subs: SubscriptionTable, obj: EventObject)
    requires subs.Valid()
    modifies subs
    ensures subs.Valid()
    ensures subs.rows == UpdatedWhere(old(subs.rows), obj.id, s => ChangedRow(s, obj))
    ensures !old(subs.HasProviderId(obj.id)) ==> subs.rows == old(subs.rows)
  {
    var owner := subs.FindByProviderId(obj.id);
    if owner.None? {
      UpdateNoRow(subs.rows, obj.id, s => ChangedRow(s, obj));
      return;
    }
    var _ := UpdateByProviderId(subs, obj.id, s => ChangedRow(s, obj));
  }

  /** `handleSubscriptionDeleted`: updates without looking first, so an unknown id throws. */
  method HandleSubscriptionDeleted(subs: SubscriptionTable, obj: EventObject, now: int)
    returns (thrown: Option<Error>)
    requires subs.Valid()
    modifies subs
    ensures subs.Valid()
    ensures thrown.None? <==> old(subs.HasProviderId(obj.id))
    ensures thrown.Some? ==> thrown.value == RecordNotFound && subs.rows == old(subs.rows)
    ensures subs.rows == UpdatedWhere(old(subs.rows), obj.id, s => DeletedRow(s, now))
  {
    thrown := UpdateByProviderId(subs, obj.id, s => DeletedRow(s, now));
  }

  /** A date built from a numeric field: a missing number gives no valid date; null gives the epoch. */
  function DateOf(f: NumberField): (r: Option<int>)
    ensures r.None? <==> f.Absent?
    ensures f.Number? ==> r == Some(ToMillis(f.value))
    ensures f.Null? ==> r == Some(0)
  {
    match f
    case Absent => None
    case Null => Some(0)
    case Number(n) => Some(ToMillis(n))
  }

  /** When the invoice was paid: the event's paid-at time in ms, or now. */
  function PaidAt(obj: EventObject, now: int): (r: int)
    ensures TruthyNum(obj.paidAt) ==> r == ToMillis(obj.paidAt.value)
    ensures !TruthyNum(obj.paidAt) ==> r == now
  {
    if TruthyNum(obj.paidAt) then ToMillis(obj.paidAt.value) else now
  }

  /**
   * The invoice upsert of `handleInvoicePaymentSucceeded`, for the subscription row of user
   * `u`: an existing invoice gets its status, amount paid and payment time and keeps the rest;
   * a new one takes every field from the event with defaults ('paid', 0, 0, 'eur'). The period
   * dates are built for the create branch before the call is made, so a missing period bound
   * refuses the whole upsert, whichever branch the row would take.
   */
  function UpsertInvoice(rows: map<string, Invoice>, u: UserId, obj: EventObject, now: int)
    : (r: Result<map<string, Invoice>, Error>)
    ensures r.Failure? <==> obj.periodStart.Absent? || obj.periodEnd.Absent?
    ensures r.Failure? ==> r.error == InvalidDate
    ensures r.Success? ==>
              && r.value.Keys == rows.Keys + {obj.id}
              && (forall k :: k in rows && k != obj.id ==> r.value[k] == rows[k])
              && var inv := r.value[obj.id];
              && inv.status == StringOr(obj.status, "paid")
              && inv.amountPaid == NumberOr(obj.amountPaid, 0)
              && inv.paidAt == PaidAt(obj, now)
              && (obj.id in rows ==>
                    inv == rows[obj.id].(status := inv.status, amountPaid := inv.amountPaid, paidAt := inv.paidAt))
              && (obj.id !in rows ==>
                    && inv.subscriptionId == u && inv.stripeInvoiceId == obj.id && inv.stripePaymentIntentId == NullIfFalsy(obj.paymentIntent)
                    && inv.amountDue == NumberOr(obj.amountDue, 0) && inv.currency == StringOr(obj.currency, "eur")
                    && Some(inv.periodStart) == DateOf(obj.periodStart) && Some(inv.periodEnd) == DateOf(obj.periodEnd))
  {
    var status, amountPaid, paidAt := StringOr(obj.status, "paid"), NumberOr(obj.amountPaid, 0), PaidAt(obj, now);
    var start, end := DateOf(obj.periodStart), DateOf(obj.periodEnd);
    if start.None? || end.None? then Failure(InvalidDate)
    else if obj.id in rows then
      Success(rows[obj.id := rows[obj.id].(status := status, amountPaid := amountPaid, paidAt := paidAt)])
    else
      Success(rows[obj.id := Invoice(u, obj.id, NullIfFalsy(obj.paymentIntent), status, amountPaid,
                                       NumberOr(obj.amountDue, 0), StringOr(obj.currency, "eur"),
                                       start.value, end.value, paidAt)])
  }

  /** An upsert keeps the table keyed by the provider invoice id. */
  lemma UpsertInvoiceKeepsKeys(rows: map<string, Invoice>, u: UserId, obj: EventObject, now: int)
    requires forall k :: k in rows ==> rows[k].stripeInvoiceId == k
    ensures UpsertInvoice(rows, u, obj, now).Success? ==>
              var after := UpsertInvoice(rows, u, obj, now).value;
              forall k :: k in after ==> after[k].stripeInvoiceId == k
  {
  }

  /**
   * `handleInvoicePaymentSucceeded`: without a subscription id, or for an unknown one, nothing
   * happens; otherwise the row becomes active and then the invoice is upserted. A failing
   * upsert leaves the status write in place.
   */
  method HandleInvoicePaymentSucceeded(subs: SubscriptionTable, invoices: InvoiceTable, obj: EventObject, now: int)
    returns (thrown: Option<Error>)
    requires subs.Valid() && invoices.Valid()
    modifies subs, invoices
    ensures subs.Valid() && invoices.Valid()
    ensures !Truthy(obj.subscription) || !old(subs.HasProviderId(obj.subscription.value)) ==>
              thrown.None? && subs.rows == old(subs.rows) && invoices.rows == old(invoices.rows)
    ensures Truthy(obj.subscription) && old(subs.HasProviderId(obj.subscription.value)) ==>
              var sid := obj.subscription.value;
              && subs.rows == UpdatedWhere(old(subs.rows), sid, s => WithStatus(s, "active"))
              && exists u :: u in old(subs.rows) && old(subs.rows)[u].stripeSubscriptionId == Some(sid) &&
                             var upsert := UpsertInvoice(old(invoices.rows), u, obj, now);
                             && (upsert.Success? ==> thrown.None? && invoices.rows == upsert.value)
                             && (upsert.Failure? ==> thrown == Some(upsert.error) && invoices.rows == old(invoices.rows))
  {
    if !Truthy(obj.subscription) {
      return None;
    }
    var sid := obj.subscription.value;
    var owner := subs.FindByProviderId(sid);
    if owner.None? {
      return None;
    }
    var u := owner.value;
    var _ := UpdateByProviderId(subs, sid, s => WithStatus(s, "active"));
    var upsert := UpsertInvoice(invoices.rows, u, obj, now);
    if upsert.Failure? {
      return Some(upsert.error);
    }
    UpsertInvoiceKeepsKeys(invoices.rows, u, obj, now);
    invoices.rows := upsert.value;
    thrown := None;
  }

  /** `handleInvoicePaymentFailed`: updates without looking first, so an unknown id throws. */
  method HandleInvoicePaymentFailed(subs: SubscriptionTable, obj: EventObject) returns (thrown: Option<Error>)
    requires subs.Valid()
    modifies subs
    ensures subs.Valid()
    ensures !Truthy(obj.subscription) ==> thrown.None? && subs.rows == old(subs.rows)
    ensures Truthy(obj.subscription) ==>
              && (thrown.None? <==> old(subs.HasProviderId(obj.subscription.value)))
              && (thrown.Some? ==> thrown.value == RecordNotFound)
              && subs.rows == UpdatedWhere(old(subs.rows), obj.subscription.value, s => WithStatus(s, "past_due"))
  {
    if !Truthy(obj.subscription) {
      return None;
    }
    thrown := UpdateByProviderId(subs, obj.subscription.value, s => WithStatus(s, "past_due"));
  }

  // ---------------------------------------------------------------- the endpoint

  /** The event types a handler writes for. */
  predicate Handled(kind: string)
  {
    kind in {SubscriptionCreated, SubscriptionUpdated, SubscriptionDeleted, InvoicePaymentSucceeded, InvoicePaymentFailed}
  }

  /**
   * `POST`: gate, dispatch, and answer `{ received: true }` unless a handler throws, which is
   * answered with a 500.
   */
  method Post(subs: SubscriptionTable, invoices: InvoiceTable, signature: Option<string>, secret: Option<string>,
              verified: Option<Event>, now: int)
    returns (resp: Reply)
    requires subs.Valid() && invoices.Valid()
    modifies subs, invoices
    ensures subs.Valid() && invoices.Valid()
    ensures Gate(signature, secret, verified).Failure? ==>
              resp == Gate(signature, secret, verified).error &&
              subs.rows == old(subs.rows) && invoices.rows == old(invoices.rows)
    ensures Gate(signature, secret, verified).Success? ==>
              var e := verified.value;
              && (resp == Ok || resp == HandlerFailed)
              && (!Handled(e.kind) ==> resp == Ok && subs.rows == old(subs.rows) && invoices.rows == old(invoices.rows))
              && (e.kind == SubscriptionCreated || e.kind == SubscriptionUpdated ==>
                    resp == Ok && invoices.rows == old(invoices.rows) &&
                    subs.rows == UpdatedWhere(old(subs.rows), e.data.id, s => ChangedRow(s, e.data)))
              && (e.kind == SubscriptionDeleted ==>
                    && invoices.rows == old(invoices.rows)
                    && subs.rows == UpdatedWhere(old(subs.rows), e.data.id, s => DeletedRow(s, now))
                    && (resp == Ok <==> old(subs.HasProviderId(e.data.id))))
              && (e.kind == InvoicePaymentFailed ==>
                    && invoices.rows == old(invoices.rows)
                    && (!Truthy(e.data.subscription) ==> resp == Ok && subs.rows == old(subs.rows))
                    && (Truthy(e.data.subscription) ==>
                          && subs.rows == UpdatedWhere(old(subs.rows), e.data.subscription.value, s => WithStatus(s, "past_due"))
                          && (resp == Ok <==> old(subs.HasProviderId(e.data.subscription.value)))))
              && (e.kind == InvoicePaymentSucceeded ==>
                    && (!Truthy(e.data.subscription) || !old(subs.HasProviderId(e.data.subscription.value)) ==>
                          resp == Ok && subs.rows == old(subs.rows) && invoices.rows == old(invoices.rows))
                    && (Truthy(e.data.subscription) && old(subs.HasProviderId(e.data.subscription.value)) ==>
                          && subs.rows == UpdatedWhere(old(subs.rows), e.data.subscription.value, s => WithStatus(s, "active"))
                          && exists u :: u in old(subs.rows) && old(subs.rows)[u].stripeSubscriptionId == e.data.subscription &&
                                         var up := UpsertInvoice(old(invoices.rows), u, e.data, now);
                                         && (up.Success? ==> resp == Ok && invoices.rows == up.value)
                                         && (up.Failure? ==> resp == HandlerFailed && invoices.rows == old(invoices.rows)))
                    && (resp == HandlerFailed ==>
                          (e.data.periodStart.Absent? || e.data.periodEnd.Absent?) && invoices.rows == old(invoices.rows)))
  {
    var gate := Gate(signature, secret, verified);
    if gate.Failure? {
      return gate.error;
    }
    var e := gate.value;
    var thrown: Option<Error> := None;
    if e.kind == SubscriptionCreated || e.kind == SubscriptionUpdated {
      HandleSubscriptionChange(subs, e.data);
    } else if e.kind == SubscriptionDeleted {
      thrown := HandleSubscriptionDeleted(subs, e.data, now);
    } else if e.kind == InvoicePaymentSucceeded {
      thrown := HandleInvoicePaymentSucceeded(subs, invoices, e.data, now);
    } else if e.kind == InvoicePaymentFailed {
      thrown := HandleInvoicePaymentFailed(subs, e.data);
    }
    resp := if thrown.Some? then HandlerFailed else Ok;
  }
}
