/**
 * The subscription procedures: read the caller's subscription row, run an ordered chain of
 * guards, call the payment provider, then update or upsert that one row.
 */
module SubscriptionRouter {
  import opened Wrappers
  import opened Api
  import opened Plans
  import opened Timestamps
  import opened Schema
  import Stripe

  const AlreadyActive := Trpc(BadRequest, "Vous avez déjà un abonnement actif")
  const NoCustomer := Trpc(BadRequest, "Aucun customer Stripe trouvé")
  const PlanNotFound := Trpc(BadRequest, "Plan non trouvé")
  const FreePlanNeedsNoPayment := Trpc(BadRequest, "Le plan gratuit ne nécessite pas de paiement")
  const CreateFailed := Trpc(InternalServerError, "Impossible de créer l'abonnement")
  const WebhookRowNotFound := Trpc(NotFound, "Abonnement non trouvé")
  const UpdateFailed := Trpc(InternalServerError, "Impossible de mettre à jour l'abonnement")
  const NoSubscription := Trpc(NotFound, "Aucun abonnement trouvé")
  const NoProviderSubscription := Trpc(BadRequest, "Aucun abonnement Stripe associé")
  const AlreadyCanceled := Trpc(BadRequest, "L'abonnement est déjà annulé")
  const CancelFailed := Trpc(InternalServerError, "Impossible d'annuler l'abonnement")
  const NotScheduledToCancel := Trpc(BadRequest, "L'abonnement n'est pas programmé pour être annulé")
  const ReactivateFailed := Trpc(InternalServerError, "Impossible de réactiver l'abonnement")
  const MustBeActive := Trpc(BadRequest, "L'abonnement doit être actif pour être modifié")
  const SamePlan := Trpc(BadRequest, "Le nouveau plan est identique au plan actuel")
  const FreeCreateFailed := Trpc(InternalServerError, "Impossible de créer l'abonnement gratuit")

  // ---------------------------------------------------------------- getCurrentSubscription

  /** The caller's row together with the plan it is reported under. */
  datatype CurrentSubscription = CurrentSubscription(row: Subscription, plan: Plan)

  /** `getCurrentSubscription`: null without a row; otherwise a plan is always reported. */
  function GetCurrentSubscription(subs: SubscriptionTable, c: Catalogue, caller: UserId): (r: Option<CurrentSubscription>)
    reads subs
    ensures r.None? <==> caller !in subs.rows
    ensures r.Some? ==> r.value.row == subs.rows[caller]
    ensures r.Some? ==>
              var priceId := subs.rows[caller].stripePriceId;
              r.value.plan == c.free ||
              (r.value.plan in c.stripe && Truthy(priceId) && r.value.plan.priceId == priceId.value)
    ensures r.Some? && Truthy(subs.rows[caller].stripePriceId) &&
            FindByPriceId(c.stripe, subs.rows[caller].stripePriceId.value).Some? ==>
              r.value.plan == FindByPriceId(c.stripe, subs.rows[caller].stripePriceId.value).value
  {
    if caller !in subs.rows then None
    else
      var row := subs.rows[caller];
      Some(CurrentSubscription(row, ResolvePlan(c, row.stripePriceId, row.planName)))
  }

  // ---------------------------------------------------------------- createSubscription

  /**
   * The row `createSubscription`'s upsert leaves: on both the create and the update branch the
   * provider ids, status and plan fields come from the provider reply and the catalogue entry;
   * the update branch keeps every other field, the create branch starts them empty.
   */
  function PaidUpsert(existing: Option<Subscription>, caller: UserId, customerId: string, priceId: string,
                      plan: Plan, created: Stripe.CreatedSubscription): (r: Subscription)
    requires existing.Some? ==> existing.value.userId == caller
    ensures r.userId == caller
    ensures r.stripeSubscriptionId == Some(created.subscriptionId) && r.status == created.status
    ensures r.stripePriceId == Some(priceId) && r.stripeProductId == Some(plan.productId)
    ensures r.planName == plan.name && r.planPrice == plan.price && r.planInterval == plan.interval
    ensures existing.Some? ==>
              r == existing.value.(stripeSubscriptionId := r.stripeSubscriptionId, stripePriceId := r.stripePriceId,
                                   stripeProductId := r.stripeProductId, status := r.status, planName := r.planName,
                                   planPrice := r.planPrice, planInterval := r.planInterval)
    ensures existing.None? ==>
              r.stripeCustomerId == customerId && r.currentPeriodStart.None? && r.currentPeriodEnd.None? &&
              r.cancelAt.None? && r.canceledAt.None? && r.trialStart.None? && r.trialEnd.None?
  {
    match existing
    case None =>
      Subscription(caller, customerId, Some(created.subscriptionId), Some(priceId), Some(plan.productId),
                   created.status, plan.name, plan.price, plan.interval, None, None, None, None, None, None)
    case Some(s) =>
      s.(stripeSubscriptionId := Some(created.subscriptionId), stripePriceId := Some(priceId),
         stripeProductId := Some(plan.productId), status := created.status, planName := plan.name,
         planPrice := plan.price, planInterval := plan.interval)
  }

  /** The two branches of the upsert write the same plan fields. */
  lemma UpsertBranchesAgree(s: Subscription, caller: UserId, customerId: string, priceId: string,
                            plan: Plan, created: Stripe.CreatedSubscription)
    requires s.userId == caller
    ensures var a, b := PaidUpsert(Some(s), caller, customerId, priceId, plan, created),
                        PaidUpsert(None, caller, customerId, priceId, plan, created);
            a.stripeSubscriptionId == b.stripeSubscriptionId && a.stripePriceId == b.stripePriceId &&
            a.stripeProductId == b.stripeProductId && a.status == b.status && a.planName == b.planName &&
            a.planPrice == b.planPrice && a.planInterval == b.planInterval
  {
  }

  /** What `createSubscription` returns. */
  datatype Created = Created(subscriptionId: string, status: string, clientSecret: Option<string>, databaseId: UserId)

  /** The row the caller has, if any. */
  function RowOf(rows: map<UserId, Subscription>, u: UserId): Option<Subscription>
  {
    if u in rows then Some(rows[u]) else None
  }

  /**
   * `createSubscription`. `created` is the provider's reply to the subscription request (absent
   * when that call throws).
   */
  method CreateSubscription(subs: SubscriptionTable, users: UserTable, provider: Stripe.Provider, c: Catalogue,
                            caller: UserId, priceId: string, created: Option<Stripe.CreatedSubscription>)
    returns (r: Result<Created, Error>)
    requires subs.Valid()
    modifies subs, provider
    ensures subs.Valid()
    ensures r.Failure? ==> subs.rows == old(subs.rows)
    // 1. an active row is refused, before anything else
    ensures ActiveRow(old(subs.rows), caller) ==> r == Failure(AlreadyActive)
    // 2. then a caller without a billing customer
    ensures !ActiveRow(old(subs.rows), caller) && users.CustomerId(caller).None? ==> r == Failure(NoCustomer)
    // neither refusal reaches the provider; past them, exactly one subscription request is sent
    ensures ActiveRow(old(subs.rows), caller) || users.CustomerId(caller).None? ==>
              provider.requests == old(provider.requests)
    ensures !ActiveRow(old(subs.rows), caller) && users.CustomerId(caller).Some? ==>
              provider.requests == old(provider.requests) + [Stripe.CreateSubscription(priceId, users.CustomerId(caller).value)]
    // 3. the plan is checked only after the provider call
    ensures !ActiveRow(old(subs.rows), caller) && users.CustomerId(caller).Some? ==>
              var plan := FindByPriceId(c.all, priceId);
              && (created.None? ==> r == Failure(CreateFailed))
              && (created.Some? && plan.None? ==> r == Failure(PlanNotFound))
              && (created.Some? && plan.Some? && !plan.value.isStripe ==> r == Failure(FreePlanNeedsNoPayment))
    ensures r.Success? <==>
              && !ActiveRow(old(subs.rows), caller) && users.CustomerId(caller).Some? && created.Some?
              && FindByPriceId(c.all, priceId).Some? && FindByPriceId(c.all, priceId).value.isStripe
              && !old(subs.ProviderIdUsedByOther(created.value.subscriptionId, caller))
    ensures r.Success? ==>
              && r.value == Created(created.value.subscriptionId, created.value.status, created.value.clientSecret, caller)
              && subs.rows == old(subs.rows)[caller := PaidUpsert(RowOf(old(subs.rows), caller), caller,
                                                                  users.CustomerId(caller).value, priceId,
                                                                  FindByPriceId(c.all, priceId).value, created.value)]
  {
    if caller in subs.rows && subs.rows[caller].status == "active" {
      return Failure(AlreadyActive);
    }
    var customer := users.CustomerId(caller);
    if customer.None? {
      return Failure(NoCustomer);
    }
    provider.Send(Stripe.CreateSubscription(priceId, customer.value));
    if created.None? {
      return Failure(CreateFailed);
    }
    var plan := FindByPriceId(c.all, priceId);
    if plan.None? {
      return Failure(PlanNotFound);
    }
    if !plan.value.isStripe {
      return Failure(FreePlanNeedsNoPayment);
    }
    var reply := created.value;
    if subs.ProviderIdUsedByOther(reply.subscriptionId, caller) {
      // the upsert breaks the unique provider id column; the catch block reports it
      return Failure(CreateFailed);
    }
    var row := PaidUpsert(RowOf(subs.rows, caller), caller, customer.value, priceId, plan.value, reply);
    subs.rows := subs.rows[caller := row];
    r := Success(Created(reply.subscriptionId, reply.status, reply.clientSecret, caller));
  }

  ghost predicate ActiveRow(rows: map<UserId, Subscription>, u: UserId)
  {
    u in rows && rows[u].status == "active"
  }

  // ---------------------------------------------------------------- updateSubscriptionFromWebhook

  /** The input of `updateSubscriptionFromWebhook`; time stamps in seconds. */
  datatype WebhookInput = WebhookInput(
    stripeSubscriptionId: string,
    status: string,
    currentPeriodStart: Option<int>,
    currentPeriodEnd: Option<int>,
    cancelAt: Option<int>,
    canceledAt: Option<int>,
    trialStart: Option<int>,
    trialEnd: Option<int>)

  /**
   * The row after the webhook input is written: the status is copied, each supplied non-zero
   * time stamp is stored in milliseconds, and everything else stays.
   */
  function ApplyWebhookInput(s: Subscription, input: WebhookInput): (r: Subscription)
    ensures r == s.(status := r.status, currentPeriodStart := r.currentPeriodStart, currentPeriodEnd := r.currentPeriodEnd,
                    cancelAt := r.cancelAt, canceledAt := r.canceledAt, trialStart := r.trialStart, trialEnd := r.trialEnd)
    ensures r.status == input.status
    ensures !TruthyNum(input.cancelAt) ==> r.cancelAt == s.cancelAt
    ensures TruthyNum(input.cancelAt) ==> r.cancelAt == Some(ToMillis(input.cancelAt.value))
    ensures !TruthyNum(input.currentPeriodEnd) ==> r.currentPeriodEnd == s.currentPeriodEnd
    ensures TruthyNum(input.currentPeriodEnd) ==> r.currentPeriodEnd == Some(ToMillis(input.currentPeriodEnd.value))
    ensures !TruthyNum(input.currentPeriodStart) ==> r.currentPeriodStart == s.currentPeriodStart
    ensures TruthyNum(input.currentPeriodStart) ==> r.currentPeriodStart == Some(ToMillis(input.currentPeriodStart.value))
    ensures !TruthyNum(input.canceledAt) ==> r.canceledAt == s.canceledAt
    ensures TruthyNum(input.canceledAt) ==> r.canceledAt == Some(ToMillis(input.canceledAt.value))
    ensures !TruthyNum(input.trialStart) ==> r.trialStart == s.trialStart
    ensures TruthyNum(input.trialStart) ==> r.trialStart == Some(ToMillis(input.trialStart.value))
    ensures !TruthyNum(input.trialEnd) ==> r.trialEnd == s.trialEnd
    ensures TruthyNum(input.trialEnd) ==> r.trialEnd == Some(ToMillis(input.trialEnd.value))
  {
    s.(status := input.status,
       currentPeriodStart := MillisOrKeep(input.currentPeriodStart, s.currentPeriodStart),
       currentPeriodEnd := MillisOrKeep(input.currentPeriodEnd, s.currentPeriodEnd),
       cancelAt := MillisOrKeep(input.cancelAt, s.cancelAt),
       canceledAt := MillisOrKeep(input.canceledAt, s.canceledAt),
       trialStart := MillisOrKeep(input.trialStart, s.trialStart),
       trialEnd := MillisOrKeep(input.trialEnd, s.trialEnd))
  }

  /** `updateSubscriptionFromWebhook`: update the row carrying the provider id, or NOT_FOUND. */
  method UpdateSubscriptionFromWebhook(subs: SubscriptionTable, input: WebhookInput) returns (r: Result<Subscription, Error>)
    requires subs.Valid()
    modifies subs
    ensures subs.Valid()
    ensures !old(subs.HasProviderId(input.stripeSubscriptionId)) ==>
              r == Failure(WebhookRowNotFound) && subs.rows == old(subs.rows)
    ensures old(subs.HasProviderId(input.stripeSubscriptionId)) ==>
              && r.Success? && r.value.stripeSubscriptionId == Some(input.stripeSubscriptionId)
              // the answer is the row as written
              && (exists u :: u in old(subs.rows) && old(subs.rows)[u].stripeSubscriptionId == Some(input.stripeSubscriptionId) &&
                              r.value == ApplyWebhookInput(old(subs.rows)[u], input) && u in subs.rows && r.value == subs.rows[u])
              && subs.rows == UpdatedWhere(old(subs.rows), input.stripeSubscriptionId, s => ApplyWebhookInput(s, input))
  {
    var owner := subs.FindByProviderId(input.stripeSubscriptionId);
    if owner.None? {
      return Failure(WebhookRowNotFound);
    }
    var u := owner.value;
    var row := ApplyWebhookInput(subs.rows[u], input);
    UpdateOneRow(subs.rows, u, input.stripeSubscriptionId, s => ApplyWebhookInput(s, input));
    subs.rows := subs.rows[u := row];
    r := Success(row);
  }

  // ---------------------------------------------------------------- cancelSubscription

  /**
   * The row after a cancellation: the status stays active while the subscription runs to the end
   * of its period and becomes canceled otherwise; the two dates come from the provider, where
   * an absent or zero reply field stores null.
   */
  function CanceledRow(s: Subscription, atPeriodEnd: bool, reply: Stripe.CancelReply): (r: Subscription)
    ensures r == s.(status := r.status, cancelAt := r.cancelAt, canceledAt := r.canceledAt)
    ensures r.status == (if atPeriodEnd then "active" else "canceled")
    ensures r.cancelAt == MillisOrNull(reply.cancelAt) && r.canceledAt == MillisOrNull(reply.canceledAt)
  {
    s.(status := if atPeriodEnd then "active" else "canceled",
       cancelAt := MillisOrNull(reply.cancelAt),
       canceledAt := MillisOrNull(reply.canceledAt))
  }

  /** What `cancelSubscription` returns. */
  datatype Cancellation = Cancellation(subscription: Subscription, cancelAtPeriodEnd: bool, cancelAt: Option<int>)

  /** `cancelSubscription`; the flag defaults to cancelling at the end of the period. */
  method CancelSubscription(subs: SubscriptionTable, provider: Stripe.Provider, caller: UserId,
                            cancelAtPeriodEnd: Option<bool>, reply: Option<Stripe.CancelReply>)
    returns (r: Result<Cancellation, Error>)
    requires subs.Valid()
    modifies subs, provider
    ensures subs.Valid()
    ensures r.Failure? ==> subs.rows == old(subs.rows)
    ensures caller !in old(subs.rows) ==> r == Failure(NoSubscription)
    ensures caller in old(subs.rows) ==>
              var s := old(subs.rows)[caller];
              var atEnd := if cancelAtPeriodEnd.Some? then cancelAtPeriodEnd.value else true;
              && (!Truthy(s.stripeSubscriptionId) ==> r == Failure(NoProviderSubscription))
              && (Truthy(s.stripeSubscriptionId) && s.status == "canceled" ==> r == Failure(AlreadyCanceled))
              && (!Truthy(s.stripeSubscriptionId) || s.status == "canceled" ==> provider.requests == old(provider.requests))
              && (Truthy(s.stripeSubscriptionId) && s.status != "canceled" ==>
                    && provider.requests == old(provider.requests) + [Stripe.CancelSubscription(s.stripeSubscriptionId.value, atEnd)]
                    && (reply.None? ==> r == Failure(CancelFailed))
                    && (reply.Some? ==>
                          && subs.rows == old(subs.rows)[caller := CanceledRow(s, atEnd, reply.value)]
                          && r == Success(Cancellation(CanceledRow(s, atEnd, reply.value), atEnd, MillisOrNull(reply.value.cancelAt)))))
  {
    var atEnd := if cancelAtPeriodEnd.Some? then cancelAtPeriodEnd.value else true;
    if caller !in subs.rows {
      return Failure(NoSubscription);
    }
    var s := subs.rows[caller];
    if !Truthy(s.stripeSubscriptionId) {
      return Failure(NoProviderSubscription);
    }
    if s.status == "canceled" {
      return Failure(AlreadyCanceled);
    }
    provider.Send(Stripe.CancelSubscription(s.stripeSubscriptionId.value, atEnd));
    if reply.None? {
      return Failure(CancelFailed);
    }
    var row := CanceledRow(s, atEnd, reply.value);
    subs.rows := subs.rows[caller := row];
    r := Success(Cancellation(row, atEnd, MillisOrNull(reply.value.cancelAt)));
  }

  // ---------------------------------------------------------------- reactivateSubscription

  /** The row after a reactivation: the provider's status, and no cancellation dates. */
  function ReactivatedRow(s: Subscription, reply: Stripe.StatusReply): (r: Subscription)
    ensures r == s.(status := r.status, cancelAt := r.cancelAt, canceledAt := r.canceledAt)
    ensures r.status == reply.status && r.cancelAt.None? && r.canceledAt.None?
  {
    s.(status := reply.status, cancelAt := None, canceledAt := None)
  }

  /** `reactivateSubscription`: only a row scheduled for cancellation can be reactivated. */
  method ReactivateSubscription(subs: SubscriptionTable, provider: Stripe.Provider, caller: UserId,
                                reply: Option<Stripe.StatusReply>)
    returns (r: Result<Subscription, Error>)
    requires subs.Valid()
    modifies subs, provider
    ensures subs.Valid()
    ensures r.Failure? ==> subs.rows == old(subs.rows)
    ensures caller !in old(subs.rows) ==> r == Failure(NoSubscription)
    ensures caller in old(subs.rows) ==>
              var s := old(subs.rows)[caller];
              && (!Truthy(s.stripeSubscriptionId) ==> r == Failure(NoProviderSubscription))
              && (Truthy(s.stripeSubscriptionId) && s.cancelAt.None? ==> r == Failure(NotScheduledToCancel))
              && (!Truthy(s.stripeSubscriptionId) || s.cancelAt.None? ==> provider.requests == old(provider.requests))
              && (Truthy(s.stripeSubscriptionId) && s.cancelAt.Some? ==>
                    && provider.requests == old(provider.requests) + [Stripe.ReactivateSubscription(s.stripeSubscriptionId.value)]
                    && (reply.None? ==> r == Failure(ReactivateFailed))
                    && (reply.Some? ==>
                          r == Success(ReactivatedRow(s, reply.value)) &&
                          subs.rows == old(subs.rows)[caller := ReactivatedRow(s, reply.value)]))
    ensures r.Success? ==> r.value.cancelAt.None? && r.value.canceledAt.None?
  {
    if caller !in subs.rows {
      return Failure(NoSubscription);
    }
    var s := subs.rows[caller];
    if !Truthy(s.stripeSubscriptionId) {
      return Failure(NoProviderSubscription);
    }
    if s.cancelAt.None? {
      return Failure(NotScheduledToCancel);
    }
    provider.Send(Stripe.ReactivateSubscription(s.stripeSubscriptionId.value));
    if reply.None? {
      return Failure(ReactivateFailed);
    }
    var row := ReactivatedRow(s, reply.value);
    subs.rows := subs.rows[caller := row];
    r := Success(row);
  }

  // ---------------------------------------------------------------- updateSubscription

  /**
   * The row after moving to a plan the provider does not bill: no provider ids, active, no
   * cancellation dates, and the new plan's name, price and interval.
   */
  function FreePlanRow(s: Subscription, plan: Plan): (r: Subscription)
    ensures r.userId == s.userId && r.stripeCustomerId == s.stripeCustomerId
    ensures r.stripeSubscriptionId.None? && r.stripePriceId.None? && r.stripeProductId.None?
    ensures r.status == "active" && r.cancelAt.None? && r.canceledAt.None?
    ensures r.planName == plan.name && r.planPrice == plan.price && r.planInterval == plan.interval
    ensures r.currentPeriodStart == s.currentPeriodStart && r.currentPeriodEnd == s.currentPeriodEnd
    ensures r.trialStart == s.trialStart && r.trialEnd == s.trialEnd
  {
    s.(stripeSubscriptionId := None, stripePriceId := None, stripeProductId := None,
       planName := plan.name, planPrice := plan.price, planInterval := plan.interval,
       status := "active", cancelAt := None, canceledAt := None)
  }

  /** The row after moving to another paid plan: its price, product and plan fields, and the provider's status. */
  function RepricedRow(s: Subscription, priceId: string, plan: Plan, reply: Stripe.StatusReply): (r: Subscription)
    ensures r == s.(stripePriceId := r.stripePriceId, stripeProductId := r.stripeProductId, planName := r.planName,
                    planPrice := r.planPrice, planInterval := r.planInterval, status := r.status)
    ensures r.stripePriceId == Some(priceId) && r.stripeProductId == Some(plan.productId)
    ensures r.planName == plan.name && r.planPrice == plan.price && r.planInterval == plan.interval
    ensures r.status == reply.status
  {
    s.(stripePriceId := Some(priceId), stripeProductId := Some(plan.productId), planName := plan.name,
       planPrice := plan.price, planInterval := plan.interval, status := reply.status)
  }

  /** What `updateSubscription` returns; the client secret and provider id only on the path from a row without provider subscription. */
  datatype PlanChange = PlanChange(subscription: Subscription, newPlan: Plan, clientSecret: Option<string>,
                                   stripeSubscriptionId: Option<string>)

  /** Guards 1 to 4 of `updateSubscription`, in order; `None` when all pass. */
  function PlanChangeRefusal(rows: map<UserId, Subscription>, c: Catalogue, caller: UserId, newPriceId: string)
    : (e: Option<Error>)
    ensures e.None? <==>
              caller in rows && rows[caller].status == "active" && rows[caller].stripePriceId != Some(newPriceId) &&
              FindByPriceId(c.all, newPriceId).Some?
    ensures caller !in rows ==> e == Some(NoSubscription)
    ensures caller in rows && rows[caller].status != "active" ==> e == Some(MustBeActive)
    ensures caller in rows && rows[caller].status == "active" && rows[caller].stripePriceId == Some(newPriceId) ==>
              e == Some(SamePlan)
    ensures caller in rows && rows[caller].status == "active" && rows[caller].stripePriceId != Some(newPriceId) &&
              FindByPriceId(c.all, newPriceId).None?
            ==> e == Some(PlanNotFound)
  {
    if caller !in rows then Some(NoSubscription)
    else if rows[caller].status != "active" then Some(MustBeActive)
    else if rows[caller].stripePriceId == Some(newPriceId) then Some(SamePlan)
    else if FindByPriceId(c.all, newPriceId).None? then Some(PlanNotFound)
    else None
  }

  /**
   * `updateSubscription`. `created`, `canceled` and `repriced` are the provider's replies to the
   * request each path sends (absent when the call throws).
   */
  method UpdateSubscription(subs: SubscriptionTable, users: UserTable, provider: Stripe.Provider, c: Catalogue,
                            caller: UserId, newPriceId: string, created: Option<Stripe.CreatedSubscription>,
                            canceled: bool, repriced: Option<Stripe.StatusReply>)
    returns (r: Result<PlanChange, Error>)
    requires subs.Valid()
    modifies subs, provider
    ensures subs.Valid()
    ensures r.Failure? ==> subs.rows == old(subs.rows)
    ensures PlanChangeRefusal(old(subs.rows), c, caller, newPriceId).Some? ==>
              r == Failure(PlanChangeRefusal(old(subs.rows), c, caller, newPriceId).value) &&
              provider.requests == old(provider.requests)
    ensures PlanChangeRefusal(old(subs.rows), c, caller, newPriceId).None? ==>
              var s := old(subs.rows)[caller];
              var plan := FindByPriceId(c.all, newPriceId).value;
              // from a row without provider subscription: create one, write nothing
              && (!Truthy(s.stripeSubscriptionId) ==>
                    && subs.rows == old(subs.rows)
                    && (users.CustomerId(caller).None? ==> r == Failure(NoCustomer) && provider.requests == old(provider.requests))
                    && (users.CustomerId(caller).Some? ==>
                          && provider.requests == old(provider.requests) + [Stripe.CreateSubscription(newPriceId, users.CustomerId(caller).value)]
                          && r == (if created.None? then Failure(UpdateFailed)
                                   else Success(PlanChange(s, plan, created.value.clientSecret, Some(created.value.subscriptionId))))))
              // to a plan the provider does not bill: cancel at the provider now, clear the provider ids
              && (Truthy(s.stripeSubscriptionId) && !plan.isStripe ==>
                    && provider.requests == old(provider.requests) + [Stripe.CancelSubscription(s.stripeSubscriptionId.value, false)]
                    && (!canceled ==> r == Failure(UpdateFailed))
                    && (canceled ==> r == Success(PlanChange(FreePlanRow(s, plan), plan, None, None)) &&
                                     subs.rows == old(subs.rows)[caller := FreePlanRow(s, plan)]))
              // to another paid plan: re-price at the provider
              && (Truthy(s.stripeSubscriptionId) && plan.isStripe ==>
                    && provider.requests == old(provider.requests) + [Stripe.UpdateSubscription(s.stripeSubscriptionId.value, newPriceId)]
                    && (repriced.None? ==> r == Failure(UpdateFailed))
                    && (repriced.Some? ==>
                          r == Success(PlanChange(RepricedRow(s, newPriceId, plan, repriced.value), plan, None, None)) &&
                          subs.rows == old(subs.rows)[caller := RepricedRow(s, newPriceId, plan, repriced.value)]))
  {
    if caller !in subs.rows {
      return Failure(NoSubscription);
    }
    var s := subs.rows[caller];
    if s.status != "active" {
      return Failure(MustBeActive);
    }
    if s.stripePriceId == Some(newPriceId) {
      return Failure(SamePlan);
    }
    var found := FindByPriceId(c.all, newPriceId);
    if found.None? {
      return Failure(PlanNotFound);
    }
    var plan := found.value;
    if !Truthy(s.stripeSubscriptionId) {
      var customer := users.CustomerId(caller);
      if customer.None? {
        return Failure(NoCustomer);
      }
      provider.Send(Stripe.CreateSubscription(newPriceId, customer.value));
      if created.None? {
        return Failure(UpdateFailed);
      }
      return Success(PlanChange(s, plan, created.value.clientSecret, Some(created.value.subscriptionId)));
    }
    var sid := s.stripeSubscriptionId.value;
    if !plan.isStripe {
      provider.Send(Stripe.CancelSubscription(sid, false));
      if !canceled {
        return Failure(UpdateFailed);
      }
      var row := FreePlanRow(s, plan);
      subs.rows := subs.rows[caller := row];
      return Success(PlanChange(row, plan, None, None));
    }
    // The later guard against a row without provider subscription can never fire: that case
    // returned above.
    assert Truthy(s.stripeSubscriptionId);
    provider.Send(Stripe.UpdateSubscription(sid, newPriceId));
    if repriced.None? {
      return Failure(UpdateFailed);
    }
    var row := RepricedRow(s, newPriceId, plan, repriced.value);
    subs.rows := subs.rows[caller := row];
    r := Success(PlanChange(row, plan, None, None));
  }

  // ---------------------------------------------------------------- createFreeSubscription

  /** What `createFreeSubscription` returns: a refusal when a row exists, else the new row and the free plan. */
  datatype FreeOutcome = AlreadySubscribed | FreeCreated(subscription: Subscription, plan: Plan)

  /**
   * The row a free subscription starts with: the service's free-subscription data for the user,
   * with the billing customer id, or "" without one.
   */
  function FreeRow(freeData: (UserId, Option<string>) -> Subscription, u: UserId, customer: Option<string>)
    : (r: Subscription)
    ensures r.userId == u
    ensures Truthy(customer) ==> r.stripeCustomerId == customer.value
    ensures !Truthy(customer) ==> r.stripeCustomerId == ""
    // every other column is the service's free-subscription data
    ensures var d := freeData(u, NullIfFalsy(customer)); r.(userId := d.userId, stripeCustomerId := d.stripeCustomerId) == d
  {
    freeData(u, NullIfFalsy(customer)).(userId := u, stripeCustomerId := StringOr(customer, ""))
  }

  /**
   * `createFreeSubscription`. `customer` is the provider's reply to the customer request (absent
   * when it throws); `freeData` is the service's free-subscription data for a user and customer.
   */
  method CreateFreeSubscription(subs: SubscriptionTable, users: UserTable, provider: Stripe.Provider, c: Catalogue,
                                caller: UserId, customer: Option<Stripe.Customer>,
                                freeData: (UserId, Option<string>) -> Subscription)
    returns (r: Result<FreeOutcome, Error>)
    requires subs.Valid() && users.Valid()
    modifies subs, users, provider
    ensures subs.Valid() && users.Valid()
    ensures users.rows.Keys == old(users.rows.Keys) && users.nextId == old(users.nextId)
    // an existing row is left alone, and nothing else happens
    ensures caller in old(subs.rows) ==>
              r == Success(AlreadySubscribed) && subs.rows == old(subs.rows) && users.rows == old(users.rows) &&
              provider.requests == old(provider.requests)
    // no user row: nothing can be created
    ensures caller !in old(subs.rows) && caller !in old(users.rows) ==>
              r == Failure(FreeCreateFailed) && subs.rows == old(subs.rows) && users.rows == old(users.rows) &&
              provider.requests == old(provider.requests)
    // a missing billing customer is created at the provider and stored on the user first
    ensures caller !in old(subs.rows) && caller in old(users.rows) ==>
              var user := old(users.rows)[caller];
              && (!Truthy(user.stripeCustomerId) ==>
                    && provider.requests == old(provider.requests) + [Stripe.CreateCustomer(caller, user.email, NullIfFalsy(user.name))]
                    && (customer.None? ==> r == Failure(FreeCreateFailed) && subs.rows == old(subs.rows) &&
                                           users.rows == old(users.rows))
                    && (customer.Some? ==> users.rows == old(users.rows)[caller := user.(stripeCustomerId := Some(customer.value.id))]))
              && (Truthy(user.stripeCustomerId) ==> provider.requests == old(provider.requests) && users.rows == old(users.rows))
    ensures r.Success? && r.value.FreeCreated? ==>
              && caller !in old(subs.rows) && caller in old(users.rows)
              && r.value.plan == c.free
              && subs.rows == old(subs.rows)[caller := r.value.subscription]
              && r.value.subscription == FreeRow(freeData, caller, users.rows[caller].stripeCustomerId)
    ensures r.Failure? ==> subs.rows == old(subs.rows)
    // with a user and a billing customer, the free row is created unless its provider id clashes
    ensures caller !in old(subs.rows) && caller in old(users.rows) &&
            (Truthy(old(users.rows)[caller].stripeCustomerId) || customer.Some?) ==>
              var row := FreeRow(freeData, caller, users.rows[caller].stripeCustomerId);
              && (!(row.stripeSubscriptionId.Some? && old(subs.ProviderIdUsedByOther(row.stripeSubscriptionId.value, caller))) ==>
                    r == Success(FreeCreated(row, c.free)))
              && (row.stripeSubscriptionId.Some? && old(subs.ProviderIdUsedByOther(row.stripeSubscriptionId.value, caller)) ==>
                    r == Failure(FreeCreateFailed))
  {
    if caller in subs.rows {
      return Success(AlreadySubscribed);
    }
    if caller !in users.rows {
      // creating the row for a missing user breaks its foreign key
      return Failure(FreeCreateFailed);
    }
    var user := users.rows[caller];
    var customerId := user.stripeCustomerId;
    if !Truthy(user.stripeCustomerId) {
      provider.Send(Stripe.CreateCustomer(caller, user.email, NullIfFalsy(user.name)));
      if customer.None? {
        return Failure(FreeCreateFailed);
      }
      customerId := Some(customer.value.id);
      users.SetCustomerId(caller, customer.value.id);
    }
    var row := FreeRow(freeData, caller, customerId);
    var ok := subs.Insert(row);
    if !ok {
      return Failure(FreeCreateFailed);
    }
    r := Success(FreeCreated(row, c.free));
  }
}
