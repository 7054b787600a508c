/**
 * The caller's notifications: owner-filtered reads, newest first, and writes that touch only
 * rows the caller owns.
 */
module NotificationRouter {
  import opened Wrappers
  import opened Api
  import opened Schema
  import opened Queries

  /** The ids of `caller`'s notifications. */
  ghost function OwnedIds(rows: map<nat, Notification>, caller: UserId): set<nat>
  {
    set k | k in rows && rows[k].userId == caller
  }

  /** The ids of `caller`'s unread notifications. */
  ghost function UnreadIds(rows: map<nat, Notification>, caller: UserId): set<nat>
  {
    set k | k in rows && rows[k].userId == caller && !rows[k].isRead
  }

  /** The sort key that puts the newest notification first. */
  function Age(n: Notification): int
  {
    -n.createdAt
  }

  /** `getAll`: exactly the caller's notifications, each once, newest first. */
  function GetAll(t: NotificationTable, caller: UserId): (r: seq<Notification>)
    reads t
    requires t.Valid()
    ensures forall n :: n in r <==> n in t.rows.Values && n.userId == caller
    ensures |r| == |OwnedIds(t.rows, caller)|
    ensures forall i, j :: 0 <= i < j < |r| ==> r[i].createdAt >= r[j].createdAt
  {
    var owns := (n: Notification) => n.userId == caller;
    var owned := Select(t.rows, owns, t.nextId);
    assert IdsBelow(t.rows, owns, t.nextId) == OwnedIds(t.rows, caller);
    var r := SortBy(owned, Age);
    SortKeepsElements(owned, Age);
    forall n | n in t.rows.Values && n.userId == caller
      ensures n in r
    {
      var k :| k in t.rows && t.rows[k] == n;
    }
    assert SortedBy(r, Age);
    r
  }

  /** `getUnreadCount`: how many of the caller's notifications are unread. */
  function UnreadCount(t: NotificationTable, caller: UserId): (r: nat)
    reads t
    requires t.Valid()
    ensures r == |UnreadIds(t.rows, caller)|
  {
    var unread := (n: Notification) => n.userId == caller && !n.isRead;
    assert IdsBelow(t.rows, unread, t.nextId) == UnreadIds(t.rows, caller);
    |Select(t.rows, unread, t.nextId)|
  }

  /**
   * `markAsRead`: the caller's notification `id` becomes read, and nothing else changes; a
   * notification that is missing or someone else's is the record-not-found error.
   */
  method MarkAsRead(t: NotificationTable, caller: UserId, id: nat) returns (r: Result<Notification, Error>)
    requires t.Valid()
    modifies t
    ensures t.Valid() && t.nextId == old(t.nextId)
    ensures !(id in old(t.rows) && old(t.rows)[id].userId == caller) ==>
              r == Failure(RecordNotFound) && t.rows == old(t.rows)
    ensures id in old(t.rows) && old(t.rows)[id].userId == caller ==>
              && r == Success(old(t.rows)[id].(isRead := true))
              && t.rows == old(t.rows)[id := old(t.rows)[id].(isRead := true)]
    // a second call changes nothing
    ensures id in old(t.rows) && old(t.rows)[id].isRead ==> t.rows == old(t.rows)
    ensures UnreadIds(t.rows, caller) == UnreadIds(old(t.rows), caller) - (if r.Success? then {id} else {})
  {
    if id !in t.rows || t.rows[id].userId != caller {
      return Failure(RecordNotFound);
    }
    var n := t.rows[id].(isRead := true);
    t.rows := t.rows[id := n];
    r := Success(n);
  }

  /**
   * `markAllAsRead`: every unread notification of the caller becomes read; the result is how
   * many did. Other users' notifications are untouched.
   */
  method MarkAllAsRead(t: NotificationTable, caller: UserId) returns (count: nat)
    requires t.Valid()
    modifies t
    ensures t.Valid() && t.nextId == old(t.nextId)
    ensures count == |UnreadIds(old(t.rows), caller)|
    ensures UnreadIds(t.rows, caller) == {}
    ensures t.rows.Keys == old(t.rows.Keys)
    ensures forall k :: k in t.rows ==> t.rows[k] == old(t.rows)[k].(isRead := t.rows[k].isRead)
    ensures forall k :: k in t.rows && old(t.rows)[k].userId != caller ==> t.rows[k] == old(t.rows)[k]
    ensures forall k :: k in t.rows ==> (t.rows[k].isRead <==> old(t.rows)[k].isRead || old(t.rows)[k].userId == caller)
  {
    count := UnreadCount(t, caller);
    t.rows := map k | k in t.rows :: if t.rows[k].userId == caller then t.rows[k].(isRead := true) else t.rows[k];
  }

  /** `create`: a new unread notification of the caller, of type INFO unless one is given. */
  method Create(t: NotificationTable, caller: UserId, title: string, message: string, kind: Option<NotificationType>,
                actionUrl: Option<string>, metadata: Option<string>, now: int)
    returns (n: Notification)
    requires t.Valid()
    modifies t
    ensures t.Valid()
    ensures n.userId == caller && !n.isRead && n.createdAt == now
    ensures n.kind == (if kind.Some? then kind.value else INFO)
    ensures n.title == title && n.message == message && n.actionUrl == actionUrl && n.metadata == metadata
    ensures n.id !in old(t.rows) && t.rows == old(t.rows)[n.id := n]
  {
    n := t.Insert(caller, title, message, if kind.Some? then kind.value else INFO, actionUrl, metadata, now);
  }

  /** `delete`: removes the caller's notification `id`; anything else is the record-not-found error. */
  method Delete(t: NotificationTable, caller: UserId, id: nat) returns (r: Result<Notification, Error>)
    requires t.Valid()
    modifies t
    ensures t.Valid() && t.nextId == old(t.nextId)
    ensures !(id in old(t.rows) && old(t.rows)[id].userId == caller) ==>
              r == Failure(RecordNotFound) && t.rows == old(t.rows)
    ensures id in old(t.rows) && old(t.rows)[id].userId == caller ==>
              r == Success(old(t.rows)[id]) && t.rows == old(t.rows) - {id}
    ensures forall k :: k in old(t.rows) && old(t.rows)[k].userId != caller ==> k in t.rows && t.rows[k] == old(t.rows)[k]
    ensures OwnedIds(t.rows, caller) == OwnedIds(old(t.rows), caller) - (if r.Success? then {id} else {})
  {
    if id !in t.rows || t.rows[id].userId != caller {
      return Failure(RecordNotFound);
    }
    r := Success(t.rows[id]);
    t.rows := t.rows - {id};
  }
}
