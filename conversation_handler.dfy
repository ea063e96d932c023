/** The conversation endpoints (adapters/http/conversation_handler.go). */
module ConversationHttp {
  import opened Wrappers
  import opened Domain
  import opened Http
  import ConversationApp

  /** The service calls the conversation handlers can make. */
  datatype ConversationCall =
    | CreateConversationCall(participantIds: seq<string>)
    | GetConversationsForUserCall(userId: string)

  /** Whether `item` occurs in `slice`; the search stops at the first match. */
  method Contains(slice: seq<string>, item: string) returns (found: bool)
    ensures found <==> item in slice
  {
    for i := 0 to |slice|
      invariant item !in slice[..i]
    {
      if slice[i] == item {
        return true;
      }
      assert slice[..i + 1] == slice[..i] + [slice[i]];
    }
    assert slice[..|slice|] == slice;
    return false;
  }

  /**
   * The participant list after the caller is added: the requested list,
   * followed by the caller when the caller was not already in it.
   */
  function WithCaller(ids: seq<string>, caller: string): (r: seq<string>)
    ensures caller in r
    ensures |ids| <= |r| && r[..|ids|] == ids
    ensures caller in ids ==> r == ids
    ensures caller !in ids ==> |r| == |ids| + 1 && r[|ids|] == caller
  {
    if caller in ids then ids else ids + [caller]
  }

  /**
   * `POST /conversations`: the body lists participant IDs; the caller is
   * added if absent, and fewer than two entries are refused before the service
   * is called.
   */
  method CreateConversation(ctxUserId: Option<string>, body: Decoded<seq<string>>,
                            outcome: Result<Conversation, Error>)
    returns (reply: Reply<ConversationCall, Conversation>)
    ensures !Authenticated(ctxUserId) ==> reply == Reply(StatusUnauthorized, None, None)
    ensures Authenticated(ctxUserId) && body.Malformed? ==> reply == Reply(StatusBadRequest, None, None)
    ensures Authenticated(ctxUserId) && body.Decoded? && |WithCaller(body.value, ctxUserId.value)| < 2 ==>
              reply == Reply(StatusBadRequest, None, None)
    ensures Authenticated(ctxUserId) && body.Decoded? && |WithCaller(body.value, ctxUserId.value)| >= 2 ==>
              && reply.call == Some(CreateConversationCall(WithCaller(body.value, ctxUserId.value)))
              && (outcome.Failure? ==> reply.status == StatusBadRequest && reply.body == None)
              && (outcome.Success? ==> reply.status == StatusCreated && reply.body == Some(outcome.value))
  {
    if !(ctxUserId.Some? && ctxUserId.value != "") {
      return Reply(StatusUnauthorized, None, None);
    }
    var userId := ctxUserId.value;
    if body.Malformed? {
      return Reply(StatusBadRequest, None, None);
    }
    var participantIds := body.value;

    var present := Contains(participantIds, userId);
    if !present {
      participantIds := participantIds + [userId];
    }

    if |participantIds| < 2 {
      return Reply(StatusBadRequest, None, None);
    }

    var call := CreateConversationCall(participantIds);
    if outcome.Failure? {
      return Reply(StatusBadRequest, Some(call), None);
    }
    return Reply(StatusCreated, Some(call), Some(outcome.value));
  }

  /** `GET /conversations`: the caller's conversations, as the service lists them. */
  function GetConversations(ctxUserId: Option<string>, outcome: Result<seq<Conversation>, Error>)
    : (r: Reply<ConversationCall, seq<Conversation>>)
    ensures r.call.Some? <==> Authenticated(ctxUserId)
    ensures r.status == StatusOK <==> r.call.Some? && outcome.Success?
    ensures r.body.Some? <==> r.status == StatusOK
    ensures r.body.Some? ==> outcome.Success? && r.body.value == outcome.value
  {
    if !Authenticated(ctxUserId) then Reply(StatusUnauthorized, None, None)
    else
      var call := GetConversationsForUserCall(ctxUserId.value);
      match outcome
      case Failure(_) => Reply(StatusInternalServerError, Some(call), None)
      case Success(convs) => Reply(StatusOK, Some(call), Some(convs))
  }

  /**
   * `GET /conversations` answers 401 without an identity, without calling the
   * service; otherwise 500 on a service error and 200 with the service's list.
   */
  lemma GetConversationsMapsOutcome(ctxUserId: Option<string>, outcome: Result<seq<Conversation>, Error>,
                                    other: Result<seq<Conversation>, Error>)
    ensures !Authenticated(ctxUserId) ==>
              GetConversations(ctxUserId, outcome) == GetConversations(ctxUserId, other) ==
              Reply(StatusUnauthorized, None, None)
    ensures Authenticated(ctxUserId) ==>
              && GetConversations(ctxUserId, outcome).call == Some(GetConversationsForUserCall(ctxUserId.value))
              && (outcome.Failure? ==> GetConversations(ctxUserId, outcome).status == StatusInternalServerError)
              && (outcome.Success? ==> GetConversations(ctxUserId, outcome).status == StatusOK &&
                                       GetConversations(ctxUserId, outcome).body == Some(outcome.value))
  {
  }

  /** A caller alone, whether named in the request or added, is one participant: too few. */
  lemma CallerAloneIsTooFew(caller: string)
    ensures |WithCaller([caller], caller)| == 1
    ensures |WithCaller([], caller)| == 1
  {
  }

  /**
   * The check counts entries, not distinct IDs: a request naming the caller
   * twice passes it, though the conversation has one distinct participant.
   */
  lemma DuplicatesPassTheCheck(caller: string)
    ensures WithCaller([caller, caller], caller) == [caller, caller]
    ensures |WithCaller([caller, caller], caller)| >= 2
  {
  }

  /** Whatever passes the handler's check also passes the service's own check, so the service creates it. */
  lemma HandlerCheckImpliesServiceCheck(ids: seq<string>, caller: string, freshId: Uuid, now: Time)
    requires |WithCaller(ids, caller)| >= 2
    ensures ConversationApp.CreateConversationResult(WithCaller(ids, caller), freshId, now) ==
            Success(Conversation(freshId, WithCaller(ids, caller), now))
  {
  }
}
