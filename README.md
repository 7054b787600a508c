# Archi-SASS server core in Dafny

Archi-SASS is an event-organisation web application with paid plans. Its server side is a set
of typed procedures (tRPC routers) over a relational database, a billing webhook endpoint
that receives callbacks from the payment provider (Stripe), and a route guard that runs before
every page. This project models that server side:

- **Subscriptions** (`subscription.ts`): each user has at most one subscription row. The
  procedures read it, run an ordered chain of guards with distinct errors, call the payment
  provider, and then update or upsert that row. Plan resolution looks a price id up in a
  catalogue and falls back to the free plan.
- **Billing webhook** (`route.ts`): three gating checks, then a dispatch on the event type
  that rewrites the subscription row carrying the event's provider id and, for a paid
  invoice, upserts the invoice row. Provider time stamps in seconds become milliseconds.
- **Accounts** (`auth.ts`): registration leaves a user unverified with a token and a 24-hour
  expiry; verification clears the token; login and resend check in a fixed order.
- **Route guard** (`middleware.ts`): a pure decision over the path and the session flag.
- **Per-user tables**: notifications, events (with a status-to-notification table),
  invitations and their answers, and the profile, whose first read bootstraps a free
  subscription.

Each database table is a class (`Schema.UserTable`, `Schema.SubscriptionTable`, …) whose rows
are a `map` (or a `seq` for the append-only invitation and response tables). Its `Valid()`
predicate holds the key and uniqueness constraints of the database schema. That schema is not
part of this model, so the constraints are stated as invariants: unique `email` and
`emailToken` for users, one subscription per user, and a unique provider subscription id,
invoice id and event share token. Each procedure that writes is a method that takes the tables
it touches and lists them in `modifies`; its `ensures` give the error returned at each guard,
the exact new table, and which provider requests were sent. Procedures that only read are
functions of the tables (or, like `AuthRouter.Login`, methods without `modifies`) whose
`ensures` describe the result.

The outside world comes in as parameters:
- the clock is `now`, in milliseconds;
- the bcrypt comparison is `passwordMatches`, and the hash is an opaque string;
- random tokens and database-generated share tokens are opaque strings;
- the e-mail syntax check is a boolean (`emailValid`) or a function (`isEmail`);
- mail delivery is `mailDelivered`;
- the webhook signature verification gives the verified event, or nothing when it fails.

Each reply of the payment provider is a parameter that is absent when the SDK call throws.
The requests sent to the provider are logged in `Stripe.Provider.requests`. Errors are
`Api.Error`: a tRPC error with its code and message, or a thrown non-tRPC error. A thrown
error reaches the client as INTERNAL_SERVER_ERROR. Examples are the database's
record-not-found (P2025) and unique-constraint (P2002) errors, and a mail transport failure. Record ids are natural numbers drawn from a per-table counter.

## Model

| member | source | states |
|---|---|---|
| Plans.FindIndex | src/server/api/routers/subscription.ts:83 | the index of the first catalogue entry with the price id, and none exactly when no entry has it (the search behind every `find` by price id, also at lines 39 and 449) |
| Plans.FindByPriceId | src/server/api/routers/subscription.ts:83 | `find` by price id: the first catalogue member with that price id, and absent exactly when no member has it |
| Plans.FindByPriceIdUnique | src/server/api/routers/subscription.ts:83 | when no two catalogue plans share a price id, looking up a plan's price id gives back that plan |
| Plans.ResolvePlan | src/server/api/routers/subscription.ts:39-47 | the reported plan is never absent: the paid plan matching a truthy stored price id, else the free plan |
| Plans.ResolvePlanIgnoresName | src/server/api/routers/subscription.ts:41-43 | the stored plan name never changes the reported plan; the free-name branch only picks the fallback that line 47 picks anyway |
| Timestamps.ToMillis | src/app/api/webhooks/stripe/route.ts:86 | seconds × 1000, exactly invertible |
| Timestamps.MillisOrNull | src/app/api/webhooks/stripe/route.ts:86-91 | an absent or zero stamp becomes null, any other becomes ms |
| Timestamps.MillisOrKeep | src/server/api/routers/subscription.ts:175-180 | an absent or zero stamp keeps the stored value, any other becomes ms |
| Wrappers.StringOr | src/app/api/webhooks/stripe/route.ts:148-151 | a string with a fallback: the fallback exactly when the value is missing or empty |
| Wrappers.NumberOr | src/app/api/webhooks/stripe/route.ts:149-150 | a number with a fallback: the fallback exactly when the value is missing or zero |
| Wrappers.NullIfFalsy | src/app/api/webhooks/stripe/route.ts:147 | a string or null: null exactly when the value is missing or empty |
| Queries.Select | src/server/api/routers/notification.ts:6-9 | `findMany` with a `where`: only rows satisfying it, every such row, once each |
| Queries.InsertByElements | src/server/api/routers/notification.ts:10-12 | one insertion step of the ordering adds exactly the inserted row |
| Queries.InsertBySorted | src/server/api/routers/notification.ts:10-12 | one insertion step of the ordering keeps a sorted list sorted |
| Queries.SortBy | src/server/api/routers/notification.ts:10-12 | `orderBy`: a sorted permutation of the rows |
| Queries.SortKeepsElements | src/server/api/routers/event.ts:46-47 | ordering keeps the length and exactly the elements |
| Schema.UpdateOneRow | src/server/api/routers/subscription.ts:171-182 | with unique provider ids, rewriting the one row carrying the id is the `update where stripeSubscriptionId` over the whole table |
| Schema.UserTable.CustomerId | src/server/api/routers/subscription.ts:67-76 | `user?.stripeCustomerId` when truthy, absent for a missing user or an empty id |
| Schema.UserTable.FindByEmail | src/server/api/routers/auth.ts:88-90 | the user with that address, absent exactly when none has it |
| Schema.UserTable.FindByToken | src/server/api/routers/auth.ts:173-175 | the user holding that verification token, absent exactly when none holds it |
| Schema.UserTable.SetCustomerId | src/server/api/routers/subscription.ts:579-582 | the user row gets the new customer id, no other row or column changes, uniqueness is kept |
| Schema.SubscriptionTable.Insert | src/server/api/routers/subscription.ts:589-594 | the row is created exactly when no other row carries its provider subscription id; otherwise nothing changes |
| Schema.SubscriptionTable.FindByProviderId | src/server/api/routers/subscription.ts:160-162 | the row carrying the provider subscription id, absent exactly when none does |
| Schema.EventTable.FindByShareToken | src/server/api/routers/invitation.ts:49-51 | the event with that share token, absent exactly when none has it |
| Schema.NotificationTable.Insert | src/server/api/routers/notification.ts:70-75 | a new unread row under a fresh id, nothing else changes |
| SubscriptionRouter.GetCurrentSubscription | src/server/api/routers/subscription.ts:24-49 | null exactly without a row; otherwise the row with a plan that is the matching paid plan or the free plan |
| SubscriptionRouter.PaidUpsert | src/server/api/routers/subscription.ts:98-120 | both upsert branches write provider ids, status and plan fields from the reply and the catalogue; update keeps the rest, create starts it empty |
| SubscriptionRouter.UpsertBranchesAgree | src/server/api/routers/subscription.ts:100-119 | the create and update branches write identical plan and provider fields |
| SubscriptionRouter.CreateSubscription | src/server/api/routers/subscription.ts:54-140 | active row, then missing customer, both refused before any provider call; plan checks only after the provider subscription exists; success iff all pass, writing the upsert |
| SubscriptionRouter.ApplyWebhookInput | src/server/api/routers/subscription.ts:171-181 | status copied, each truthy stamp stored ×1000, absent or zero stamps keep the stored value, nothing else changes |
| SubscriptionRouter.UpdateSubscriptionFromWebhook | src/server/api/routers/subscription.ts:145-197 | NOT_FOUND with no write for an unknown provider id; otherwise exactly the row carrying it is rewritten and the rewritten row is returned |
| SubscriptionRouter.CanceledRow | src/server/api/routers/subscription.ts:325-331 | status active when cancelling at period end, else canceled; both dates from the provider or null; nothing else changes |
| SubscriptionRouter.CancelSubscription | src/server/api/routers/subscription.ts:290-352 | no row, no provider id, already canceled, in that order and before the provider call; the flag defaults to period end; success writes the canceled row |
| SubscriptionRouter.ReactivatedRow | src/server/api/routers/subscription.ts:386-393 | status from the provider, both cancellation dates null, nothing else changes |
| SubscriptionRouter.ReactivateSubscription | src/server/api/routers/subscription.ts:357-411 | no row, no provider id, no `cancelAt`, in that order and before the provider call; afterwards both dates are null |
| SubscriptionRouter.FreePlanRow | src/server/api/routers/subscription.ts:491-504 | the three provider ids nulled, active, no cancellation dates, the new plan's name, price and interval |
| SubscriptionRouter.RepricedRow | src/server/api/routers/subscription.ts:522-532 | the new price, product and plan fields and the provider's status, nothing else changes |
| SubscriptionRouter.PlanChangeRefusal | src/server/api/routers/subscription.ts:428-456 | no row, not active, same price id, unknown plan, in that order; no refusal exactly when all pass |
| SubscriptionRouter.UpdateSubscription | src/server/api/routers/subscription.ts:416-551 | refusals leave everything alone; from a row without provider id the provider is called and nothing is written; to a free plan the provider subscription is cancelled now and the ids cleared; otherwise re-priced; the guard at line 513 is proved unreachable |
| SubscriptionRouter.FreeRow | src/server/api/routers/subscription.ts:587-594 | every column but the owner and customer id is the service's free data for the user; the customer id is the truthy one, or "" without one |
| SubscriptionRouter.CreateFreeSubscription | src/server/api/routers/subscription.ts:556-609 | an existing row gives the "already exists" answer with no effect; a missing customer is created and stored before the row; with a user and a billing customer the free row is created, unless its provider id is already another row's; any failure is the single INTERNAL error and writes no row |
| StripeWebhook.Gate | src/app/api/webhooks/stripe/route.ts:14-31 | missing signature 400 before the secret is looked at, missing secret 500, failed verification 400; passes exactly when all three hold |
| StripeWebhook.ChangedRow | src/app/api/webhooks/stripe/route.ts:82-92 | status copied and each of the six dates ×1000 or null when absent or zero; nothing else changes |
| StripeWebhook.WithStatus | src/app/api/webhooks/stripe/route.ts:135-140 | only the status changes |
| StripeWebhook.DeletedRow | src/app/api/webhooks/stripe/route.ts:106-112 | canceled, with `canceledAt` now; nothing else changes |
| StripeWebhook.UpdateNoRow | src/app/api/webhooks/stripe/route.ts:77-80 | an update for an id no row carries changes no row |
| StripeWebhook.UpdateByProviderId | src/app/api/webhooks/stripe/route.ts:106-112 | `update where stripeSubscriptionId`: record-not-found with no write for an unknown id, otherwise exactly that row rewritten |
| StripeWebhook.HandleSubscriptionChange | src/app/api/webhooks/stripe/route.ts:69-100 | an unknown id is a no-op; otherwise the row carrying it becomes the changed row |
| StripeWebhook.HandleSubscriptionDeleted | src/app/api/webhooks/stripe/route.ts:102-119 | the row becomes canceled now; an unknown id throws record-not-found |
| StripeWebhook.DateOf | src/app/api/webhooks/stripe/route.ts:152-153 | a missing period bound gives no valid date, JSON null gives the epoch, a number gives ms |
| StripeWebhook.PaidAt | src/app/api/webhooks/stripe/route.ts:154 | the paid-at time in ms when truthy, otherwise now |
| StripeWebhook.UpsertInvoice | src/app/api/webhooks/stripe/route.ts:142-161 | keyed by invoice id; update changes only status, amount paid and paid-at; create fills defaults 'paid', 0, 0, 'eur'; a missing period bound refuses the whole upsert on either branch; other invoices untouched |
| StripeWebhook.UpsertInvoiceKeepsKeys | src/app/api/webhooks/stripe/route.ts:142-143 | the invoice table stays keyed by provider invoice id |
| StripeWebhook.HandleInvoicePaymentSucceeded | src/app/api/webhooks/stripe/route.ts:121-169 | no subscription or an unknown one: no writes; otherwise active, then the upsert, whose failure leaves the status write in place |
| StripeWebhook.HandleInvoicePaymentFailed | src/app/api/webhooks/stripe/route.ts:171-192 | no subscription: no writes; otherwise past_due, and an unknown id throws |
| StripeWebhook.Post | src/app/api/webhooks/stripe/route.ts:9-67 | gate refusals write nothing; unhandled types are acknowledged with no writes; each handled type makes its handler's writes, a paid invoice's upsert included; a thrown handler error becomes 500 |
| AuthRouter.TokenExpiry | src/server/api/routers/auth.ts:102 | exactly 24·60·60·1000 ms after now |
| AuthRouter.Register | src/server/api/routers/auth.ts:87-132 | invalid input, then an existing address (CONFLICT), write nothing; a new user is unverified with the token and its 24-hour expiry; a mail failure comes after the write |
| AuthRouter.Login | src/server/api/routers/auth.ts:134-170 | unknown address, missing hash and wrong password give the same UNAUTHORIZED; FORBIDDEN for an unverified account only after the password matched |
| AuthRouter.VerifyEmail | src/server/api/routers/auth.ts:172-204 | unknown token invalid; missing or earlier expiry expired, equal accepted; success verifies now and clears token and expiry, so the token is no longer held |
| AuthRouter.ResendVerification | src/server/api/routers/auth.ts:206-252 | NOT_FOUND for an unknown address, BAD_REQUEST once verified; otherwise only token and expiry are replaced |
| Middleware.AnyRouteMatches | src/middleware.ts:8-13 | `some`: true exactly when one listed route matches |
| Middleware.IsPublicRoute | src/middleware.ts:6-13 | public exactly when the path is `/` or starts with one of the other ten routes |
| Middleware.Guard | src/middleware.ts:15-25 | login redirect with the original href exactly for an anonymous non-public path; home redirect exactly for a signed-in `/login` or `/register`; pass-through otherwise |
| Middleware.RootIsExact | src/middleware.ts:9-11 | worked example: `/` is public but `/dashboard` is not, and an anonymous visit there redirects to login |
| Middleware.PrefixRoutesArePublic | src/middleware.ts:6-21 | every path extending a listed route other than `/` is public, and an anonymous request to it passes through |
| NotificationRouter.GetAll | src/server/api/routers/notification.ts:5-14 | exactly the caller's notifications, once each, newest first |
| NotificationRouter.UnreadCount | src/server/api/routers/notification.ts:16-23 | the number of the caller's unread notifications |
| NotificationRouter.MarkAsRead | src/server/api/routers/notification.ts:25-37 | only the caller's notification becomes read, idempotently; a foreign or missing one is record-not-found; the unread set loses exactly that id |
| NotificationRouter.MarkAllAsRead | src/server/api/routers/notification.ts:39-49 | returns the unread count, leaves the caller none unread, and changes no other field and no other user's row |
| NotificationRouter.Create | src/server/api/routers/notification.ts:51-76 | a new unread row for the caller, type INFO unless given |
| NotificationRouter.Delete | src/server/api/routers/notification.ts:78-87 | removes only the caller's notification; other users' rows stay |
| EventRouter.Decimal | src/server/api/routers/event.ts:37 | a non-empty string of digits, one digit exactly below ten |
| EventRouter.DecimalInjective | src/server/api/routers/event.ts:37 | distinct ids print differently |
| EventRouter.SettingsUrl | src/server/api/routers/event.ts:37 | `/event/<id>/settings` |
| EventRouter.SettingsUrlInjective | src/server/api/routers/event.ts:37 | distinct events have distinct settings links |
| EventRouter.StatusMessage | src/server/api/routers/event.ts:88-93 | a non-empty message for each of the four statuses |
| EventRouter.StatusNotificationType | src/server/api/routers/event.ts:95-100 | PUBLISHED and COMPLETED give SUCCESS, CANCELLED gives WARNING, DRAFT gives INFO |
| EventRouter.Create | src/server/api/routers/event.ts:22-42 | title length 1..100; the caller is the creator; exactly one SUCCESS notification linking to `/event/<id>/settings` |
| EventRouter.GetAll | src/server/api/routers/event.ts:44-49 | exactly the caller's events, once each, in ascending start date |
| EventRouter.GetById | src/server/api/routers/event.ts:51-58 | the event only when the caller created it |
| EventRouter.Applied | src/server/api/routers/event.ts:61-67 | exactly the supplied fields are replaced |
| EventRouter.AppliedNothing | src/server/api/routers/event.ts:61-67 | an update with no fields leaves the event as it is |
| EventRouter.Update | src/server/api/routers/event.ts:60-69 | a supplied title must be 1..100 long; only the caller's event; only the supplied fields, never id or creator |
| EventRouter.UpdateStatus | src/server/api/routers/event.ts:71-113 | the caller's event gets the status, then one notification with the status's message and type; no notification when the update fails |
| InvitationRouter.RoleOf | src/server/api/routers/invitation.ts:13 | PARTICIPANT unless a role is given |
| InvitationRouter.NewInvitations | src/server/api/routers/invitation.ts:29-35 | one row per requested invitation, in order, each with the request's event id and fresh ids |
| InvitationRouter.AddInvitations | src/server/api/routers/invitation.ts:5-36 | invalid addresses or a foreign event add no rows; valid addresses on the caller's event always succeed, appending the new rows and counting them |
| InvitationRouter.FirstInvitation | src/server/api/routers/invitation.ts:49-62 | the first invitation of the event for the address, and none exactly when there is none |
| InvitationRouter.RespondToInvitation | src/server/api/routers/invitation.ts:38-71 | unknown share token or no invitation for the address fails; otherwise one response row is appended for the first invitation, earlier ones stay |
| UserRouter.GetProfile | src/server/api/routers/user.ts:11-57 | bootstraps a free row only for a user without one, so a second call does nothing; the customer is created and stored first; failures are swallowed and the user row is returned |
| UserRouter.WithProfile | src/server/api/routers/user.ts:4-8 | only first name, last name and description, and only when supplied |
| UserRouter.UpdateProfile | src/server/api/routers/user.ts:59-64 | only the caller's row and only its three profile fields; a missing row is record-not-found |

## Left out

- Record ids: the service's ids are generated strings; here they are naturals drawn from a
  per-table counter. `EventRouter.SettingsUrl` and `EventRouter.SettingsUrlInjective` are
  therefore about the decimal rendering of such a natural, not about the string ids the
  service puts in the link.
- Page rendering and client components; the services' SDK wrappers and the mail service.
  Mail delivery is one boolean and the templates are not modelled.
- The catalogue constants `ALL_PLANS`, `STRIPE_PLANS` and `FREE_PLAN`, and the service's
  `createFreeSubscription` data, are not part of this model. They are parameters
  (`Plans.Catalogue`, `freeData`), so the concrete entries of the `PLANS` table are not
  modelled either. An `isStripe` flag is added because the procedures read it.
- `getPlans`, `getPaymentMethods`, `removePaymentMethod` and `createSetupIntent` only call the
  provider and are not modelled.
- SubscriptionRouter.GetCurrentSubscription: the five most recent invoices included with the
  row are not returned.
- SubscriptionRouter.CreateSubscription: the returned `databaseId` is the row's owner, since
  subscription rows are keyed by user here.
- Password hashing and comparison, random token generation, the clock, the e-mail syntax check
  and the webhook signature check are parameters, as described above.
- AuthRouter.Register: the length checks count Dafny characters; the source's schema counts
  UTF-16 code units. The same holds for the title bounds in EventRouter.Create and
  EventRouter.Update.
- Provider time stamps are whole seconds. Fractional seconds, and dates beyond the range a
  JavaScript `Date` accepts, are not modelled.
- StripeWebhook.EventObject: only the payload fields the handlers read. A non-string
  `subscription` field (an expanded object) is not modelled.
- InvitationRouter.AddInvitations: `skipDuplicates` skips nothing here, because no unique key
  on invitations is known besides the fresh id.
- InvitationRouter.RespondToInvitation: answering twice appends a second response row, as
  the code does; no earlier answer is ever updated.
- InvitationRouter.FirstInvitation: the "first" matching invitation is the first in table
  order. The source's query gives no order.
- The path matcher of the route guard (`src/middleware.ts:28-40`) and the session lookup are
  not modelled; `authenticated` is a parameter.
- Concurrency between requests, logging and the async sequencing are not modelled; each
  procedure runs to completion on its own.
