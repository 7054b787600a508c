/**
 * The caller's events: creation with a confirmation notification, owner-only reads and
 * updates, and status changes that each post one notification chosen by total tables.
 */
module EventRouter {
  import opened Wrappers
  import opened Api
  import opened Schema
  import opened Queries

  const MinTitleLength := 1
  const MaxTitleLength := 100

  const CreatedTitle := "Événement créé"
  const StatusChangedTitle := "Statut de l'événement modifié"

  /** The title bounds of both input schemas. */
  predicate TitleValid(title: string)
  {
    MinTitleLength <= |title| <= MaxTitleLength
  }

  // ---------------------------------------------------------------- the settings link

  function DigitChar(d: nat): (c: char)
    requires d < 10
    ensures '0' <= c <= '9'
  {
    "0123456789"[d]
  }

  /**
   * The decimal rendering of a record id. Ids are naturals in this model, so the settings link
   * embeds this rendering where the service embeds its generated string id.
   */
  function Decimal(n: nat): (s: string)
    ensures 1 <= |s|
    ensures |s| == 1 <==> n < 10
    ensures forall i :: 0 <= i < |s| ==> '0' <= s[i] <= '9'
    decreases n
  {
    if n < 10 then [DigitChar(n)] else Decimal(n / 10) + [DigitChar(n % 10)]
  }

  lemma {:induction false} DecimalInjective(a: nat, b: nat)
    requires Decimal(a) == Decimal(b)
    ensures a == b
    decreases a
  {
    if a >= 10 && b >= 10 {
      var sa, sb := Decimal(a), Decimal(b);
      assert sa[..|sa| - 1] == Decimal(a / 10);
      assert sb[..|sb| - 1] == Decimal(b / 10);
      DecimalInjective(a / 10, b / 10);
      assert DigitChar(a % 10) == sa[|sa| - 1] == DigitChar(b % 10);
      assert "0123456789"[a % 10] == "0123456789"[b % 10];
    } else if a < 10 && b < 10 {
      assert "0123456789"[a] == "0123456789"[b];
    }
  }

  /** The `actionUrl` that leads to an event's settings page. */
  function SettingsUrl(id: nat): (url: string)
    ensures |url| > 16 && url[..7] == "/event/" && url[|url| - 9..] == "/settings"
  {
    "/event/" + Decimal(id) + "/settings"
  }

  /** Distinct events have distinct settings links. */
  lemma SettingsUrlInjective(a: nat, b: nat)
    requires SettingsUrl(a) == SettingsUrl(b)
    ensures a == b
  {
    var ua, ub := SettingsUrl(a), SettingsUrl(b);
    assert Decimal(a) == ua[7..|ua| - 9];
    assert Decimal(b) == ub[7..|ub| - 9];
    DecimalInjective(a, b);
  }

  // ---------------------------------------------------------------- status tables

  /** The message posted for each new status. */
  function StatusMessage(s: EventStatus): (m: string)
    ensures |m| > 0
  {
    match s
    case PUBLISHED => "Votre événement a été publié et est maintenant visible."
    case CANCELLED => "Votre événement a été annulé."
    case COMPLETED => "Votre événement a été marqué comme terminé."
    case DRAFT => "Votre événement a été remis en brouillon."
  }

  /** The notification type posted for each new status. */
  function StatusNotificationType(s: EventStatus): (k: NotificationType)
    ensures k == SUCCESS <==> s == PUBLISHED || s == COMPLETED
    ensures k == WARNING <==> s == CANCELLED
    ensures k == INFO <==> s == DRAFT
  {
    match s
    case PUBLISHED => SUCCESS
    case CANCELLED => WARNING
    case COMPLETED => SUCCESS
    case DRAFT => INFO
  }

  // ---------------------------------------------------------------- procedures

  /** The message of the creation notification. */
  function CreatedMessage(title: string): string
  {
    "Votre événement \"" + title + "\" a été créé avec succès."
  }

  /**
   * `create`: an event of the caller, with the status the database gives new rows and the
   * share token it generates (`shareToken`), then exactly one SUCCESS notification linking to
   * the event's settings.
   */
  method Create(events: EventTable, notes: NotificationTable, caller: UserId, title: string,
                description: Option<string>, startDate: int, endDate: Option<int>, location: Option<string>,
                shareToken: string, now: int)
    returns (r: Result<Event, Error>)
    requires events.Valid() && notes.Valid()
    modifies events, notes
    ensures events.Valid() && notes.Valid()
    ensures !TitleValid(title) ==> r == Failure(InvalidInput)
    ensures TitleValid(title) && old(events.ShareTokenTaken(shareToken)) ==> r == Failure(UniqueViolation)
    ensures r.Failure? ==> events.rows == old(events.rows) && notes.rows == old(notes.rows)
    ensures r.Success? <==> TitleValid(title) && !old(events.ShareTokenTaken(shareToken))
    ensures r.Success? ==>
              var e := r.value;
              && e.id !in old(events.rows)
              && e == Event(e.id, title, description, startDate, endDate, location, caller, events.initialStatus, shareToken)
              && events.rows == old(events.rows)[e.id := e]
              && exists n :: n !in old(notes.rows) &&
                             notes.rows == old(notes.rows)[n := Notification(n, caller, CreatedTitle, CreatedMessage(title),
                                                                             SUCCESS, Some(SettingsUrl(e.id)), None, false, now)]
  {
    if !TitleValid(title) {
      return Failure(InvalidInput);
    }
    if events.ShareTokenTaken(shareToken) {
      return Failure(UniqueViolation);
    }
    var id := events.nextId;
    var e := Event(id, title, description, startDate, endDate, location, caller, events.initialStatus, shareToken);
    events.rows := events.rows[id := e];
    events.nextId := id + 1;
    var n := notes.Insert(caller, CreatedTitle, CreatedMessage(title), SUCCESS, Some(SettingsUrl(id)), None, now);
    r := Success(e);
  }

  /** The ids of `caller`'s events. */
  ghost function OwnedIds(rows: map<nat, Event>, caller: UserId): set<nat>
  {
    set k | k in rows && rows[k].createdById == caller
  }

  function StartDate(e: Event): int
  {
    e.startDate
  }

  /** `getAll`: exactly the caller's events, each once, earliest start first. */
  function GetAll(events: EventTable, caller: UserId): (r: seq<Event>)
    reads events
    requires events.Valid()
    ensures forall e :: e in r <==> e in events.rows.Values && e.createdById == caller
    ensures |r| == |OwnedIds(events.rows, caller)|
    ensures forall i, j :: 0 <= i < j < |r| ==> r[i].startDate <= r[j].startDate
  {
    var owns := (e: Event) => e.createdById == caller;
    var owned := Select(events.rows, owns, events.nextId);
    assert IdsBelow(events.rows, owns, events.nextId) == OwnedIds(events.rows, caller);
    var r := SortBy(owned, StartDate);
    SortKeepsElements(owned, StartDate);
    forall e | e in events.rows.Values && e.createdById == caller
      ensures e in r
    {
      var k :| k in events.rows && events.rows[k] == e;
    }
    assert SortedBy(r, StartDate);
    r
  }

  /** `getById`: the event, only when the caller created it. */
  function GetById(events: EventTable, caller: UserId, id: nat): (r: Option<Event>)
    reads events
    ensures r.Some? <==> id in events.rows && events.rows[id].createdById == caller
    ensures r.Some? ==> r.value == events.rows[id]
  {
    if id in events.rows && events.rows[id].createdById == caller then Some(events.rows[id]) else None
  }

  /** The fields of `update` a caller may supply; absent ones are left as they are. */
  datatype EventChanges = EventChanges(
    title: Option<string>,
    description: Option<string>,
    startDate: Option<int>,
    endDate: Option<int>,
    location: Option<string>)

  /** An event with the supplied fields replaced. */
  function Applied(e: Event, c: EventChanges): (r: Event)
    ensures r == e.(title := r.title, description := r.description, startDate := r.startDate,
                    endDate := r.endDate, location := r.location)
    ensures r.title == (if c.title.Some? then c.title.value else e.title)
    ensures r.description == (if c.description.Some? then c.description else e.description)
    ensures r.startDate == (if c.startDate.Some? then c.startDate.value else e.startDate)
    ensures r.endDate == (if c.endDate.Some? then c.endDate else e.endDate)
    ensures r.location == (if c.location.Some? then c.location else e.location)
  {
    e.(title := if c.title.Some? then c.title.value else e.title,
       description := if c.description.Some? then c.description else e.description,
       startDate := if c.startDate.Some? then c.startDate.value else e.startDate,
       endDate := if c.endDate.Some? then c.endDate else e.endDate,
       location := if c.location.Some? then c.location else e.location)
  }

  /** Supplying nothing changes nothing. */
  lemma AppliedNothing(e: Event)
    ensures Applied(e, EventChanges(None, None, None, None, None)) == e
  {
  }

  /** `update`: the supplied fields of one of the caller's events; never its id, owner, status or token. */
  method Update(events: EventTable, caller: UserId, id: nat, changes: EventChanges) returns (r: Result<Event, Error>)
    requires events.Valid()
    modifies events
    ensures events.Valid() && events.nextId == old(events.nextId)
    ensures changes.title.Some? && !TitleValid(changes.title.value) ==> r == Failure(InvalidInput)
    ensures (changes.title.None? || TitleValid(changes.title.value)) &&
            !(id in old(events.rows) && old(events.rows)[id].createdById == caller) ==>
              r == Failure(RecordNotFound)
    ensures r.Failure? ==> events.rows == old(events.rows)
    ensures r.Success? ==>
              && id in old(events.rows) && old(events.rows)[id].createdById == caller
              && r.value == Applied(old(events.rows)[id], changes)
              && r.value.id == id && r.value.createdById == caller
              && events.rows == old(events.rows)[id := r.value]
    ensures r.Success? <==>
              (changes.title.None? || TitleValid(changes.title.value)) &&
              id in old(events.rows) && old(events.rows)[id].createdById == caller
  {
    if changes.title.Some? && !TitleValid(changes.title.value) {
      return Failure(InvalidInput);
    }
    if id !in events.rows || events.rows[id].createdById != caller {
      return Failure(RecordNotFound);
    }
    var e := Applied(events.rows[id], changes);
    events.rows := events.rows[id := e];
    r := Success(e);
  }

  /**
   * `updateStatus`: the caller's event gets the new status, then one notification with the
   * status's message and type is posted; a missing or foreign event posts nothing.
   */
  method UpdateStatus(events: EventTable, notes: NotificationTable, caller: UserId, id: nat, status: EventStatus,
                      now: int)
    returns (r: Result<Event, Error>)
    requires events.Valid() && notes.Valid()
    modifies events, notes
    ensures events.Valid() && notes.Valid() && events.nextId == old(events.nextId)
    ensures !(id in old(events.rows) && old(events.rows)[id].createdById == caller) ==>
              r == Failure(RecordNotFound) && events.rows == old(events.rows) && notes.rows == old(notes.rows)
    ensures id in old(events.rows) && old(events.rows)[id].createdById == caller ==>
              && r == Success(old(events.rows)[id].(status := status))
              && events.rows == old(events.rows)[id := old(events.rows)[id].(status := status)]
              && exists n :: n !in old(notes.rows) &&
                             notes.rows == old(notes.rows)[n := Notification(n, caller, StatusChangedTitle, StatusMessage(status),
                                                                             StatusNotificationType(status),
                                                                             Some(SettingsUrl(id)), None, false, now)]
  {
    if id !in events.rows || events.rows[id].createdById != caller {
      return Failure(RecordNotFound);
    }
    var e := events.rows[id].(status := status);
    events.rows := events.rows[id := e];
    var n := notes.Insert(caller, StatusChangedTitle, StatusMessage(status), StatusNotificationType(status),
                          Some(SettingsUrl(id)), None, now);
    r := Success(e);
  }
}
