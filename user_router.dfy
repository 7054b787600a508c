/**
 * The caller's profile: reading it bootstraps a free subscription once, and updating it
 * touches only the three free-text fields.
 */
module UserRouter {
  import opened Wrappers
  import opened Api
  import opened Schema
  import Stripe
  import SubscriptionRouter

  /**
   * `getProfile`. A user without subscription row gets one: first a billing customer when the
   * user has none (`customer` is the provider's reply, absent when it throws), stored on the
   * user, then the free row. A failure anywhere in that bootstrap is swallowed; the re-read
   * user row is returned either way.
   */
  method GetProfile(users: UserTable, subs: SubscriptionTable, provider: Stripe.Provider, caller: UserId,
                    customer: Option<Stripe.Customer>, freeData: (UserId, Option<string>) -> Subscription)
    returns (r: Option<User>)
    requires users.Valid() && subs.Valid()
    modifies users, subs, provider
    ensures users.Valid() && subs.Valid()
    ensures users.rows.Keys == old(users.rows.Keys) && users.nextId == old(users.nextId)
    ensures r == (if caller in users.rows then Some(users.rows[caller]) else None)
    // nothing happens for an unknown user or one who already has a row: a second call is inert
    ensures caller !in old(users.rows) || caller in old(subs.rows) ==>
              users.rows == old(users.rows) && subs.rows == old(subs.rows) && provider.requests == old(provider.requests)
    ensures caller in old(users.rows) && caller !in old(subs.rows) ==>
              var user := old(users.rows)[caller];
              // the customer is created and stored before the row
              && (Truthy(user.stripeCustomerId) ==> provider.requests == old(provider.requests) && users.rows == old(users.rows))
              && (!Truthy(user.stripeCustomerId) ==>
                    && provider.requests == old(provider.requests) + [Stripe.CreateCustomer(caller, user.email, NullIfFalsy(user.name))]
                    && (customer.None? ==> users.rows == old(users.rows) && subs.rows == old(subs.rows))
                    && (customer.Some? ==> users.rows == old(users.rows)[caller := user.(stripeCustomerId := Some(customer.value.id))]))
              // the row, when written, is the free row for the stored customer
              && (subs.rows == old(subs.rows) ||
                  subs.rows == old(subs.rows)[caller := SubscriptionRouter.FreeRow(freeData, caller, users.rows[caller].stripeCustomerId)])
              && (Truthy(user.stripeCustomerId) || customer.Some? ==>
                    var row := SubscriptionRouter.FreeRow(freeData, caller, users.rows[caller].stripeCustomerId);
                    row.stripeSubscriptionId.None? || !old(subs.ProviderIdUsedByOther(row.stripeSubscriptionId.value, caller)) ==>
                      subs.rows == old(subs.rows)[caller := row])
  {
    if caller !in users.rows {
      return None;
    }
    if caller !in subs.rows {
      var user := users.rows[caller];
      var customerId := user.stripeCustomerId;
      var ok := true;
      if !Truthy(customerId) {
        provider.Send(Stripe.CreateCustomer(caller, user.email, NullIfFalsy(user.name)));
        if customer.None? {
          ok := false;
        } else {
          customerId := Some(customer.value.id);
          users.SetCustomerId(caller, customer.value.id);
        }
      }
      if ok {
        // a failed create is swallowed
        ok := subs.Insert(SubscriptionRouter.FreeRow(freeData, caller, customerId));
      }
    }
    r := Some(users.rows[caller]);
  }

  /** The profile fields of `updateProfile`; absent ones are left as they are. */
  datatype ProfileChanges = ProfileChanges(firstName: Option<string>, lastName: Option<string>, description: Option<string>)

  /** A user with the supplied profile fields replaced. */
  function WithProfile(u: User, c: ProfileChanges): (r: User)
    ensures r == u.(firstName := r.firstName, lastName := r.lastName, description := r.description)
    ensures r.firstName == (if c.firstName.Some? then c.firstName else u.firstName)
    ensures r.lastName == (if c.lastName.Some? then c.lastName else u.lastName)
    ensures r.description == (if c.description.Some? then c.description else u.description)
  {
    u.(firstName := if c.firstName.Some? then c.firstName else u.firstName,
       lastName := if c.lastName.Some? then c.lastName else u.lastName,
       description := if c.description.Some? then c.description else u.description)
  }

  /** `updateProfile`: the caller's own row, and only its three profile fields. */
  method UpdateProfile(users: UserTable, caller: UserId, changes: ProfileChanges) returns (r: Result<User, Error>)
    requires users.Valid()
    modifies users
    ensures users.Valid() && users.nextId == old(users.nextId)
    ensures caller !in old(users.rows) ==> r == Failure(RecordNotFound) && users.rows == old(users.rows)
    ensures caller in old(users.rows) ==>
              && r == Success(WithProfile(old(users.rows)[caller], changes))
              && users.rows == old(users.rows)[caller := r.value]
  {
    if caller !in users.rows {
      return Failure(RecordNotFound);
    }
    var u := WithProfile(users.rows[caller], changes);
    users.rows := users.rows[caller := u];
    r := Success(u);
  }
}
