/**
 * The database tables the server procedures read and write. Each table is an object whose
 * rows the procedures replace in place; `Valid()` holds the table's key and uniqueness
 * constraints.
 */
module Schema {
  import opened Wrappers

  type UserId = nat

  // ---------------------------------------------------------------- users

  datatype User = User(
    id: UserId,
    email: string,
    name: Option<string>,
    password: Option<string>,          // the password hash
    emailVerified: Option<int>,        // when the address was verified, in ms
    emailToken: Option<string>,
    emailTokenExpiry: Option<int>,     // in ms
    stripeCustomerId: Option<string>,
    firstName: Option<string>,
    lastName: Option<string>,
    description: Option<string>)

  class UserTable {
    var rows: map<UserId, User>
    var nextId: nat

    /** Ids are keys below the id counter; `email` and `emailToken` are unique columns. */
    ghost predicate Valid()
      reads this
    {
      && (forall u :: u in rows ==> rows[u].id == u && u < nextId)
      && (forall u, v :: u in rows && v in rows && rows[u].email == rows[v].email ==> u == v)
      && (forall u, v ::
            u in rows && v in rows && rows[u].emailToken.Some? && rows[u].emailToken == rows[v].emailToken
            ==> u == v)
    }

    constructor ()
      ensures Valid() && rows == map[] && nextId == 0
    {
      rows := map[];
      nextId := 0;
    }

    predicate EmailTaken(email: string)
      reads this
    {
      exists u :: u in rows && rows[u].email == email
    }

    predicate TokenTaken(token: string)
      reads this
    {
      exists u :: u in rows && rows[u].emailToken == Some(token)
    }

    /** `user?.stripeCustomerId` when it is truthy. */
    function CustomerId(u: UserId): (r: Option<string>)
      reads this
      ensures r.Some? <==> u in rows && Truthy(rows[u].stripeCustomerId)
      ensures r.Some? ==> r == rows[u].stripeCustomerId
    {
      if u in rows && Truthy(rows[u].stripeCustomerId) then rows[u].stripeCustomerId else None
    }

    /** `findUnique({ where: { email } })` */
    method FindByEmail(email: string) returns (r: Option<UserId>)
      ensures r.Some? ==> r.value in rows && rows[r.value].email == email
      ensures r.None? <==> !EmailTaken(email)
    {
      if exists u :: u in rows && rows[u].email == email {
        var u :| u in rows && rows[u].email == email;
        r := Some(u);
      } else {
        r := None;
      }
    }

    /** `update({ where: { id: u }, data: { stripeCustomerId: id } })` */
    method SetCustomerId(u: UserId, id: string)
      requires Valid() && u in rows
      modifies this
      ensures Valid() && nextId == old(nextId)
      ensures rows == old(rows)[u := old(rows)[u].(stripeCustomerId := Some(id))]
    {
      rows := rows[u := rows[u].(stripeCustomerId := Some(id))];
    }

    /** `findUnique({ where: { emailToken } })` */
    method FindByToken(token: string) returns (r: Option<UserId>)
      ensures r.Some? ==> r.value in rows && rows[r.value].emailToken == Some(token)
      ensures r.None? <==> !TokenTaken(token)
    {
      if exists u :: u in rows && rows[u].emailToken == Some(token) {
        var u :| u in rows && rows[u].emailToken == Some(token);
        r := Some(u);
      } else {
        r := None;
      }
    }
  }

  // ---------------------------------------------------------------- subscriptions and invoices

  datatype Subscription = Subscription(
    userId: UserId,
    stripeCustomerId: string,
    stripeSubscriptionId: Option<string>,
    stripePriceId: Option<string>,
    stripeProductId: Option<string>,
    status: string,
    planName: string,
    planPrice: int,
    planInterval: string,
    currentPeriodStart: Option<int>,   // all time stamps in ms
    currentPeriodEnd: Option<int>,
    cancelAt: Option<int>,
    canceledAt: Option<int>,
    trialStart: Option<int>,
    trialEnd: Option<int>)

  /** At most one row per user; at most one row per provider subscription id. */
  ghost predicate SubscriptionRowsValid(rows: map<UserId, Subscription>)
  {
    && (forall u :: u in rows ==> rows[u].userId == u)
    && (forall u, v ::
          u in rows && v in rows && rows[u].stripeSubscriptionId.Some? &&
          rows[u].stripeSubscriptionId == rows[v].stripeSubscriptionId
          ==> u == v)
  }

  /** `update({ where: { stripeSubscriptionId: sid }, data })`, stated over the whole table. */
  ghost function UpdatedWhere(rows: map<UserId, Subscription>, sid: string, f: Subscription -> Subscription)
    : map<UserId, Subscription>
  {
    map u | u in rows :: if rows[u].stripeSubscriptionId == Some(sid) then f(rows[u]) else rows[u]
  }

  /** With unique provider ids, rewriting the one row that carries `sid` is the update above. */
  lemma UpdateOneRow(rows: map<UserId, Subscription>, u: UserId, sid: string, f: Subscription -> Subscription)
    requires SubscriptionRowsValid(rows)
    requires u in rows && rows[u].stripeSubscriptionId == Some(sid)
    ensures rows[u := f(rows[u])] == UpdatedWhere(rows, sid, f)
  {
    var lhs, rhs := rows[u := f(rows[u])], UpdatedWhere(rows, sid, f);
    forall v | v in rows
      ensures lhs[v] == rhs[v]
    {
      if v != u {
        assert rows[v].stripeSubscriptionId != Some(sid);
      }
    }
  }

  class SubscriptionTable {
    var rows: map<UserId, Subscription>

    ghost predicate Valid()
      reads this
    {
      SubscriptionRowsValid(rows)
    }

    constructor ()
      ensures Valid() && rows == map[]
    {
      rows := map[];
    }

    predicate HasProviderId(sid: string)
      reads this
    {
      exists u :: u in rows && rows[u].stripeSubscriptionId == Some(sid)
    }

    /** Does a row other than `u`'s carry the provider id `sid`? */
    predicate ProviderIdUsedByOther(sid: string, u: UserId)
      reads this
    {
      exists v :: v in rows && v != u && rows[v].stripeSubscriptionId == Some(sid)
    }

    /**
     * `create` of the row of a user who has none; the unique provider subscription id makes it
     * fail when another row already carries the same one.
     */
    method Insert(row: Subscription) returns (ok: bool)
      requires Valid() && row.userId !in rows
      modifies this
      ensures Valid()
      ensures ok <==> !(row.stripeSubscriptionId.Some? &&
                        old(ProviderIdUsedByOther(row.stripeSubscriptionId.value, row.userId)))
      ensures ok ==> rows == old(rows)[row.userId := row]
      ensures !ok ==> rows == old(rows)
    {
      if row.stripeSubscriptionId.Some? && ProviderIdUsedByOther(row.stripeSubscriptionId.value, row.userId) {
        return false;
      }
      rows := rows[row.userId := row];
      ok := true;
    }

    /** `findUnique({ where: { stripeSubscriptionId } })`, giving the owning user. */
    method FindByProviderId(sid: string) returns (r: Option<UserId>)
      ensures r.Some? ==> r.value in rows && rows[r.value].stripeSubscriptionId == Some(sid)
      ensures r.None? <==> !HasProviderId(sid)
    {
      if exists u :: u in rows && rows[u].stripeSubscriptionId == Some(sid) {
        var u :| u in rows && rows[u].stripeSubscriptionId == Some(sid);
        r := Some(u);
      } else {
        r := None;
      }
    }
  }

  datatype Invoice = Invoice(
    subscriptionId: UserId,            // the subscription row, named by its (unique) owner
    stripeInvoiceId: string,
    stripePaymentIntentId: Option<string>,
    status: string,
    amountPaid: int,
    amountDue: int,
    currency: string,
    periodStart: int,
    periodEnd: int,
    paidAt: int)

  class InvoiceTable {
    var rows: map<string, Invoice>

    /** Keyed by the unique provider invoice id. */
    ghost predicate Valid()
      reads this
    {
      forall k :: k in rows ==> rows[k].stripeInvoiceId == k
    }

    constructor ()
      ensures Valid() && rows == map[]
    {
      rows := map[];
    }
  }

  // ---------------------------------------------------------------- notifications

  datatype NotificationType =
    INFO | SUCCESS | WARNING | ERROR | EVENT_INVITATION | EVENT_UPDATE | SUBSCRIPTION_UPDATE

  datatype Notification = Notification(
    id: nat,
    userId: UserId,
    title: string,
    message: string,
    kind: NotificationType,
    actionUrl: Option<string>,
    metadata: Option<string>,
    isRead: bool,
    createdAt: int)

  class NotificationTable {
    var rows: map<nat, Notification>
    var nextId: nat

    ghost predicate Valid()
      reads this
    {
      forall k :: k in rows ==> rows[k].id == k && k < nextId
    }

    constructor ()
      ensures Valid() && rows == map[] && nextId == 0
    {
      rows := map[];
      nextId := 0;
    }

    /** `create`: a new unread row with a fresh id, created at `now`. */
    method Insert(userId: UserId, title: string, message: string, kind: NotificationType,
                  actionUrl: Option<string>, metadata: Option<string>, now: int)
      returns (n: Notification)
      requires Valid()
      modifies this
      ensures Valid()
      ensures n.id !in old(rows)
      ensures n == Notification(n.id, userId, title, message, kind, actionUrl, metadata, false, now)
      ensures rows == old(rows)[n.id := n]
    {
      n := Notification(nextId, userId, title, message, kind, actionUrl, metadata, false, now);
      rows := rows[nextId := n];
      nextId := nextId + 1;
    }
  }

  // ---------------------------------------------------------------- events, invitations, responses

  datatype EventStatus = DRAFT | PUBLISHED | CANCELLED | COMPLETED

  datatype Event = Event(
    id: nat,
    title: string,
    description: Option<string>,
    startDate: int,
    endDate: Option<int>,
    location: Option<string>,
    createdById: UserId,
    status: EventStatus,
    shareToken: string)

  class EventTable {
    var rows: map<nat, Event>
    var nextId: nat
    /** The status a new row gets from the database default. */
    const initialStatus: EventStatus

    /** Ids are keys below the id counter; `shareToken` is a unique column. */
    ghost predicate Valid()
      reads this
    {
      && (forall k :: k in rows ==> rows[k].id == k && k < nextId)
      && (forall k, l :: k in rows && l in rows && rows[k].shareToken == rows[l].shareToken ==> k == l)
    }

    constructor (initialStatus: EventStatus)
      ensures Valid() && rows == map[] && nextId == 0 && this.initialStatus == initialStatus
    {
      rows := map[];
      nextId := 0;
      this.initialStatus := initialStatus;
    }

    predicate ShareTokenTaken(token: string)
      reads this
    {
      exists k :: k in rows && rows[k].shareToken == token
    }

    /** `findUnique({ where: { shareToken } })` */
    method FindByShareToken(token: string) returns (r: Option<nat>)
      ensures r.Some? ==> r.value in rows && rows[r.value].shareToken == token
      ensures r.None? <==> !ShareTokenTaken(token)
    {
      if exists k :: k in rows && rows[k].shareToken == token {
        var k :| k in rows && rows[k].shareToken == token;
        r := Some(k);
      } else {
        r := None;
      }
    }
  }

  datatype Role = ORGANIZER | PARTICIPANT

  datatype Invitation = Invitation(id: nat, eventId: nat, email: string, name: Option<string>, role: Role)

  /** Rows in insertion order, with increasing ids below the id counter. */
  class InvitationTable {
    var rows: seq<Invitation>
    var nextId: nat

    ghost predicate Valid()
      reads this
    {
      && (forall i :: 0 <= i < |rows| ==> rows[i].id < nextId)
      && (forall i, j :: 0 <= i < j < |rows| ==> rows[i].id < rows[j].id)
    }

    constructor ()
      ensures Valid() && rows == [] && nextId == 0
    {
      rows := [];
      nextId := 0;
    }
  }

  datatype Answer = YES | NO | MAYBE

  datatype Response = Response(id: nat, invitationId: nat, response: Answer, comment: Option<string>)

  class ResponseTable {
    var rows: seq<Response>
    var nextId: nat

    ghost predicate Valid()
      reads this
    {
      && (forall i :: 0 <= i < |rows| ==> rows[i].id < nextId)
      && (forall i, j :: 0 <= i < j < |rows| ==> rows[i].id < rows[j].id)
    }

    constructor ()
      ensures Valid() && rows == [] && nextId == 0
    {
      rows := [];
      nextId := 0;
    }
  }
}
