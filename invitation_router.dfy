/**
 * Invitations to an event and the answers to them: the owner adds invitations in bulk, and
 * anyone holding the event's share token answers for an invited address. Both only append.
 */
module InvitationRouter {
  import opened Wrappers
  import opened Api
  import opened Schema

  const EventNotFound := Thrown("Event not found")
  const InvitationNotFound := Thrown("Invitation not found")

  /** One element of the `invitations` array of `addInvitations`. */
  datatype InvitationInput = InvitationInput(email: string, name: Option<string>, role: Option<Role>)

  /** The role an invitation gets: the requested one, PARTICIPANT by default. */
  function RoleOf(i: InvitationInput): (r: Role)
    ensures i.role.None? ==> r == PARTICIPANT
    ensures i.role.Some? ==> r == i.role.value
  {
    if i.role.Some? then i.role.value else PARTICIPANT
  }

  /** The rows `createMany` adds for `requested`, numbered from `start`, all for `eventId`. */
  function NewInvitations(start: nat, eventId: nat, requested: seq<InvitationInput>): (r: seq<Invitation>)
    ensures |r| == |requested|
    ensures forall i :: 0 <= i < |r| ==>
              r[i] == Invitation(start + i, eventId, requested[i].email, requested[i].name, RoleOf(requested[i]))
    decreases |requested|
  {
    if requested == [] then []
    else
      var rest := NewInvitations(start + 1, eventId, requested[1..]);
      [Invitation(start, eventId, requested[0].email, requested[0].name, RoleOf(requested[0]))] + rest
  }

  /**
   * `addInvitations`. `isEmail` is the input schema's address check. Only the event's creator
   * may add invitations; every new row belongs to the requested event.
   */
  method AddInvitations(events: EventTable, invitations: InvitationTable, caller: UserId, eventId: nat,
                        requested: seq<InvitationInput>, isEmail: string -> bool)
    returns (r: Result<nat, Error>)
    requires invitations.Valid()
    modifies invitations
    ensures invitations.Valid()
    ensures (exists i :: 0 <= i < |requested| && !isEmail(requested[i].email)) ==> r == Failure(InvalidInput)
    ensures (forall i :: 0 <= i < |requested| ==> isEmail(requested[i].email)) &&
            !(eventId in events.rows && events.rows[eventId].createdById == caller) ==>
              r == Failure(EventNotFound)
    // valid addresses on an event the caller created are always added
    ensures (forall i :: 0 <= i < |requested| ==> isEmail(requested[i].email)) &&
            eventId in events.rows && events.rows[eventId].createdById == caller ==>
              r.Success?
    ensures r.Failure? ==> invitations.rows == old(invitations.rows) && invitations.nextId == old(invitations.nextId)
    ensures r.Success? ==>
              && r.value == |requested|
              && invitations.rows == old(invitations.rows) + NewInvitations(old(invitations.nextId), eventId, requested)
              && forall i :: |old(invitations.rows)| <= i < |invitations.rows| ==> invitations.rows[i].eventId == eventId
  {
    if exists i :: 0 <= i < |requested| && !isEmail(requested[i].email) {
      return Failure(InvalidInput);
    }
    if !(eventId in events.rows && events.rows[eventId].createdById == caller) {
      return Failure(EventNotFound);
    }
    var added := NewInvitations(invitations.nextId, eventId, requested);
    invitations.rows := invitations.rows + added;
    invitations.nextId := invitations.nextId + |requested|;
    r := Success(|requested|);
  }

  /** The position of the first invitation of event `eventId` for `email`, in table order. */
  function FirstInvitation(rows: seq<Invitation>, eventId: nat, email: string): (r: Option<nat>)
    ensures r.Some? ==> r.value < |rows| && rows[r.value].eventId == eventId && rows[r.value].email == email
    ensures r.Some? ==> forall j :: 0 <= j < r.value ==> !(rows[j].eventId == eventId && rows[j].email == email)
    ensures r.None? <==> forall j :: 0 <= j < |rows| ==> !(rows[j].eventId == eventId && rows[j].email == email)
    decreases |rows|
  {
    if rows == [] then None
    else if rows[0].eventId == eventId && rows[0].email == email then Some(0)
    else
      var rest := FirstInvitation(rows[1..], eventId, email);
      if rest.None? then None else Some(rest.value + 1)
  }

  /**
   * `respondToInvitation`: the answer is attached to the first invitation of the event holding
   * the share token for `email`, as a new row; earlier answers stay.
   */
  method RespondToInvitation(events: EventTable, invitations: InvitationTable, responses: ResponseTable,
                             shareToken: string, email: string, emailValid: bool, answer: Answer,
                             comment: Option<string>)
    returns (r: Result<Response, Error>)
    requires events.Valid() && responses.Valid()
    modifies responses
    ensures responses.Valid()
    ensures !emailValid ==> r == Failure(InvalidInput)
    ensures emailValid && !events.ShareTokenTaken(shareToken) ==> r == Failure(InvitationNotFound)
    ensures emailValid && events.ShareTokenTaken(shareToken) ==>
              exists k :: k in events.rows && events.rows[k].shareToken == shareToken &&
                          var first := FirstInvitation(invitations.rows, k, email);
                          && (first.None? ==> r == Failure(InvitationNotFound))
                          && (first.Some? ==> r.Success? && r.value.invitationId == invitations.rows[first.value].id)
    ensures r.Failure? ==> responses.rows == old(responses.rows) && responses.nextId == old(responses.nextId)
    ensures r.Success? ==>
              && r.value == Response(old(responses.nextId), r.value.invitationId, answer, comment)
              && responses.rows == old(responses.rows) + [r.value]
  {
    if !emailValid {
      return Failure(InvalidInput);
    }
    var event := events.FindByShareToken(shareToken);
    if event.None? {
      return Failure(InvitationNotFound);
    }
    var first := FirstInvitation(invitations.rows, event.value, email);
    if first.None? {
      return Failure(InvitationNotFound);
    }
    var response := Response(responses.nextId, invitations.rows[first.value].id, answer, comment);
    responses.rows := responses.rows + [response];
    responses.nextId := responses.nextId + 1;
    r := Success(response);
  }
}
